/** What each trade operation does and exactly when, row by row and with the statuses written
    out. */
module TradeEffects {
  import opened Prelude
  import opened Money
  import opened Trade
  import opened TradeMoney
  import opened TradeStock
  import M = Marketplace
  import Pay = Payments
  import R = MarketplaceRuns
  import T = TradeTheorems

  // ----- products and carts -----

  /** A product is added with any price and stock that are not negative. */
  lemma CreatesProductWhen(db: Db, merchant: Id, price: int, stock: int)
    ensures var r := CreateProduct(db, merchant, price, stock);
            && (r.error.None? <==> price >= 0 && stock >= 0)
            && (r.error.Some? ==> r.db == db)
            && (r.error.None? ==> OnlyProducts(db, r.db) && r.db.products == db.products + [Product(merchant, price, stock)])
  {
  }

  ghost predicate OnlyProducts(a: Db, b: Db) {
    b == a.(products := b.products, history := b.history)
  }

  ghost predicate OnlyCarts(a: Db, b: Db) {
    b == a.(carts := b.carts)
  }

  /** A merchant sets exactly its own product's stock, to anything that is not negative. */
  lemma UpdatesStockWhen(db: Db, merchant: Id, pid: Id, quantity: int)
    ensures var r := UpdateStock(db, merchant, pid, quantity);
            && (r.error.None? <==> quantity >= 0 && pid < |db.products| && db.products[pid].merchant == merchant)
            && (r.error.Some? ==> r.db == db)
            && (r.error.None? ==>
                 OnlyProducts(db, r.db) && r.db.products == db.products[pid := Product(merchant, db.products[pid].price, quantity)])
  {
  }

  /** Adding succeeds exactly for a positive quantity of the merchant's own product that, with
      what the cart already holds of it, is in stock. A refusal leaves at most an empty cart. */
  lemma AddsWhen(db: Db, user: Id, merchant: Id, pid: Id, quantity: int)
    ensures var r := AddToCart(db, user, merchant, pid, quantity);
            && OnlyCarts(db, r.db)
            && (r.error.None? <==>
                 && quantity > 0 && pid < |db.products| && db.products[pid].merchant == merchant
                 && QuantityOf(CartLines(db, CartOf(db.carts, user, merchant)), pid) + quantity <= db.products[pid].stock)
            && (r.error.Some? ==> r.db.carts in {db.carts, db.carts + [Cart(user, merchant, Active, [], map[])]})
  {
  }

  /** A line is updated exactly in the user's own active cart that has it, to nothing or to
      what is in stock. */
  lemma UpdatesWhen(db: Db, user: Id, cid: Id, pid: Id, quantity: int)
    ensures var r := UpdateCartItem(db, user, cid, pid, quantity);
            && OnlyCarts(db, r.db)
            && (r.error.None? <==>
                 && cid < |db.carts| && db.carts[cid].user == user && db.carts[cid].status == Active
                 && (exists i :: 0 <= i < |db.carts[cid].lines| && db.carts[cid].lines[i].product == pid)
                 && pid < |db.products| && 0 <= quantity && (quantity == 0 || quantity <= db.products[pid].stock))
            && (r.error.Some? ==> r.db == db)
  {
  }

  // ----- checkout and counter sales -----

  /** A line of a known product, no more of it than is in stock. */
  predicate CanSupply(products: seq<Product>, line: Line) {
    line.product < |products| && line.quantity <= products[line.product].stock
  }

  /** What is written down of a line: the product's price now, and the total to the cent. */
  ghost predicate SoldAtPrice(products: seq<Product>, line: Line, sold: OrderLine) {
    && line.product < |products|
    && sold.product == line.product && sold.quantity == line.quantity && sold.unitPrice == products[line.product].price
    && Nearest(sold.total, line.quantity * products[line.product].price, 1000)
  }

  ghost predicate AllSold(products: seq<Product>, lines: seq<Line>, sold: seq<OrderLine>) {
    |sold| == |lines| && forall k :: 0 <= k < |lines| ==> SoldAtPrice(products, lines[k], sold[k])
  }

  lemma PricedAreSold(products: seq<Product>, lines: seq<Line>)
    requires KnownProducts(products, lines)
    ensures AllSold(products, lines, Priced(products, lines))
  {
    forall k | 0 <= k < |lines| ensures SoldAtPrice(products, lines[k], Priced(products, lines)[k]) {
      HalfUpIsNearest(lines[k].quantity * products[lines[k].product].price, 1000);
    }
  }

  /** Each product keeps its merchant and price and loses the units the lines hold of it. */
  ghost predicate StockTaken(before: seq<Product>, after: seq<Product>, lines: seq<Line>) {
    && |after| == |before|
    && forall p :: 0 <= p < |before| ==> after[p] == Product(before[p].merchant, before[p].price, before[p].stock - Units(lines, p))
  }

  lemma TakingTakes(products: seq<Product>, lines: seq<Line>)
    requires KnownProducts(products, lines)
    ensures StockTaken(products, TakeStock(products, lines), lines)
  {
    forall p | 0 <= p < |products|
      ensures TakeStock(products, lines)[p] == Product(products[p].merchant, products[p].price, products[p].stock - Units(lines, p))
    {
      TakeStockTakes(products, lines, p);
    }
  }

  predicate HasActiveCart(db: Db, user: Id, cid: Id) {
    cid < |db.carts| && db.carts[cid].user == user && db.carts[cid].status == Active && db.carts[cid].lines != []
  }

  /** Some order already rests on the payment with this reference. */
  predicate ReferenceIsUsed(db: Db, reference: string) {
    exists i :: 0 <= i < |db.orders| && db.orders[i].payment < |db.payments| && db.payments[db.orders[i].payment].reference == reference
  }

  predicate CheckedOutThere(db: Db, user: Id, merchant: Id) {
    exists i :: 0 <= i < |db.carts| && db.carts[i].user == user && db.carts[i].merchant == merchant && db.carts[i].status == CheckedOut
  }

  /** Exactly when a checkout succeeds, in every reachable state; otherwise nothing changes. */
  lemma ChecksOutWhen(db: Db, user: Id, cid: Id, milliFee: int, reference: string)
    requires Reachable(db)
    ensures var r := Checkout(db, user, cid, milliFee, reference);
            && (r.error.None? <==>
                 && HasActiveCart(db, user, cid)
                 && (forall k :: 0 <= k < |db.carts[cid].lines| ==> CanSupply(db.products, db.carts[cid].lines[k]))
                 && 0 <= HalfUp(milliFee, 1000)
                 && 0 <= LinesTotal(db.products, db.carts[cid].lines) + HalfUp(milliFee, 1000)
                 && !ReferenceIsUsed(db, reference) && !CheckedOutThere(db, user, db.carts[cid].merchant))
            && (r.error.Some? ==> r.db == db)
  {
    ReachableIsInOrder(db);
    if HasActiveCart(db, user, cid) && KnownProducts(db.products, db.carts[cid].lines) {
      TotalOfPriced(db.products, db.carts[cid].lines);
    }
    OneOrderPerReference(db, reference);
  }

  /** The sum of the lines' totals at the products' prices now. */
  function LinesTotal(products: seq<Product>, lines: seq<Line>): int {
    if lines == [] then 0
    else
      var last := lines[|lines| - 1];
      LinesTotal(products, lines[..|lines| - 1])
      + if last.product < |products| then HalfUp(last.quantity * products[last.product].price, 1000) else 0
  }

  lemma {:induction false} TotalOfPriced(products: seq<Product>, lines: seq<Line>)
    requires KnownProducts(products, lines)
    ensures Sum(Priced(products, lines)) == LinesTotal(products, lines)
    decreases |lines|
  {
    if lines != [] {
      TotalOfPriced(products, lines[..|lines| - 1]);
      assert Priced(products, lines)[..|lines| - 1] == Priced(products, lines[..|lines| - 1]);
    }
  }

  lemma OneOrderPerReference(db: Db, reference: string)
    requires MoneyInv(db)
    ensures FindOrder(db.orders, PaymentOf(db.payments, reference)).Some? <==> ReferenceIsUsed(db, reference)
  {
    var pid := PaymentOf(db.payments, reference);
    if FindOrder(db.orders, pid).Some? {
      var i := FindOrder(db.orders, pid).value;
      assert OrderOk(db, db.orders[i]);
      assert db.payments[db.orders[i].payment].reference == reference;
    }
    if ReferenceIsUsed(db, reference) {
      var i :| 0 <= i < |db.orders| && db.orders[i].payment < |db.payments| && db.payments[db.orders[i].payment].reference == reference;
      assert db.orders[i].payment == pid;
    }
  }

  /** What a checkout writes: an order at today's prices that awaits its payment, a pending
      payment of its total unless the reference has one, the units off the shelf, the cart closed. */
  lemma CheckingOutDoes(db: Db, user: Id, cid: Id, milliFee: int, reference: string)
    requires Checkout(db, user, cid, milliFee, reference).error.None?
    ensures var after := Checkout(db, user, cid, milliFee, reference).db;
            var cart := db.carts[cid];
            && |after.orders| == |db.orders| + 1 && after.orders[..|db.orders|] == db.orders
            && StockTaken(db.products, after.products, cart.lines)
            && after.carts == db.carts[cid := Cart(user, cart.merchant, CheckedOut, cart.lines, cart.prices)]
            && after.market == db.market && after.entries == db.entries && after.earnings == db.earnings
            && after.counterSales == db.counterSales
            && OrderPlaced(db, after, after.orders[|db.orders|], user, cid, milliFee, reference)
  {
    PricedAreSold(db.products, db.carts[cid].lines);
    TotalOfPriced(db.products, db.carts[cid].lines);
    TakingTakes(db.products, db.carts[cid].lines);
    HalfUpIsNearest(milliFee, 1000);
  }

  ghost predicate OrderPlaced(db: Db, after: Db, o: Order, user: Id, cid: Id, milliFee: int, reference: string)
    requires cid < |db.carts|
  {
    && o.user == user && o.merchant == db.carts[cid].merchant && o.status == AwaitingPayment && o.currency == "LSL"
    && AllSold(db.products, db.carts[cid].lines, o.lines)
    && o.subtotal == LinesTotal(db.products, db.carts[cid].lines) && Nearest(o.fee, milliFee, 1000) && o.total == o.subtotal + o.fee
    && o.payment < |after.payments| && after.payments[o.payment].reference == reference
    && (if o.payment < |db.payments| then after.payments == db.payments
        else after.payments == db.payments + [Payment(user, None, reference, o.total, "LSL", Pay.Pending)])
  }

  /** A counter sale succeeds exactly for positive quantities of distinct products in stock. */
  lemma SellsWhen(db: Db, merchant: Id, lines: seq<Line>)
    ensures var r := CounterSale(db, merchant, lines);
            && (r.error.None? <==>
                 && (forall k :: 0 <= k < |lines| ==> CanSupply(db.products, lines[k]) && lines[k].quantity > 0)
                 && (forall i, j :: 0 <= i < j < |lines| ==> lines[i].product != lines[j].product))
            && (r.error.Some? ==> r.db == db)
            && (r.error.None? ==>
                 && OnlyProducts(db, r.db.(counterSales := db.counterSales)) && StockTaken(db.products, r.db.products, lines)
                 && |r.db.counterSales| == |db.counterSales| + 1 && r.db.counterSales[..|db.counterSales|] == db.counterSales
                 && r.db.counterSales[|db.counterSales|].merchant == merchant
                 && AllSold(db.products, lines, r.db.counterSales[|db.counterSales|].lines))
  {
    if CounterSale(db, merchant, lines).error.None? {
      PricedAreSold(db.products, lines);
      TakingTakes(db.products, lines);
    }
  }

  // ----- payments -----

  ghost predicate OnlyPayment(a: Db, b: Db, pid: Id, status: Pay.Status) {
    && pid < |a.payments| && b == a.(payments := b.payments)
    && b.payments == a.payments[pid := a.payments[pid].(status := status)]
  }

  /** Registering a payment: a reference that is known returns its payment untouched. */
  lemma CreatesPaymentWhen(db: Db, user: Id, amount: int, reference: string, request: Option<Id>, currency: string)
    ensures var r := CreatePayment(db, user, amount, reference, request, currency);
            && (r.error.None? <==> amount >= 0 && (request.Some? ==> request.value < |db.market.requests|))
            && ((r.error.Some? || exists i :: 0 <= i < |db.payments| && db.payments[i].reference == reference) ==> r.db == db)
            && (r.error.None? && (forall i :: 0 <= i < |db.payments| ==> db.payments[i].reference != reference) ==>
                 r.db == db.(payments := db.payments + [Payment(user, request, reference, amount, currency, Pay.Pending)]))
  {
  }

  /** Authorizing takes a pending payment, capturing a pending or an authorized one; a webhook
      may write any status over any other. */
  lemma StatusMovesWhen(db: Db, pid: Id, status: Pay.Status)
    ensures var (a, c, w) := (Authorize(db, pid), Capture(db, pid), RewriteStatus(db, pid, status));
            && (a.error.None? <==> pid < |db.payments| && db.payments[pid].status == Pay.Pending)
            && (c.error.None? <==> pid < |db.payments| && db.payments[pid].status in {Pay.Pending, Pay.Authorized})
            && (w.error.None? <==> pid < |db.payments|)
            && (if a.error.None? then OnlyPayment(db, a.db, pid, Pay.Authorized) else a.db == db)
            && (if c.error.None? then OnlyPayment(db, c.db, pid, Pay.Paid) else c.db == db)
            && (if w.error.None? then OnlyPayment(db, w.db, pid, status) else w.db == db)
  {
  }

  /** The provider its request has accepted, if the payment is for a request. */
  ghost predicate IsFor(db: Db, p: Payment, provider: Id) {
    p.request.Some? && p.request.value < |db.market.requests| && db.market.requests[p.request.value].provider == Some(provider)
  }

  ghost predicate SettleWrites(db: Db, after: Db, p: Payment) {
    var debit := EntryKey(Buyer(p.user, p.currency), p.reference, true);
    && debit in after.entries && after.entries[debit] == p.amount
    && (forall provider :: IsFor(db, p, provider) ==>
         var credit := EntryKey(Seller(provider, p.currency), p.reference, false);
         && credit in after.entries && after.entries[credit] == p.amount
         && p.reference in after.earnings && after.earnings[p.reference] == Earning(provider, p.request.value, p.amount))
    && (forall key :: key in after.entries && key !in db.entries ==>
         key == debit || exists provider :: IsFor(db, p, provider) && key == EntryKey(Seller(provider, p.currency), p.reference, false))
    && (forall key :: key in db.entries ==> key in after.entries && after.entries[key] == db.entries[key])
  }

  /** Settling succeeds exactly for a payment that is paid, when it does nothing, or that is
      pending or authorized and of a positive amount, when it is paid and posted in full. A
      non-positive amount is refused after the payment was marked, for the caller to roll back. */
  lemma SettlesWhen(db: Db, pid: Id)
    requires Reachable(db)
    ensures var r := Settle(db, pid);
            var open := pid < |db.payments| && db.payments[pid].status in {Pay.Pending, Pay.Authorized};
            && (r.error.None? <==>
                 (pid < |db.payments| && db.payments[pid].status == Pay.Paid) || (open && db.payments[pid].amount > 0))
            && (!open ==> r.db == db)
            && (open && r.error.Some? ==> OnlyPayment(db, r.db, pid, Pay.Paid))
            && (open && r.error.None? ==>
                 && r.db.payments == db.payments[pid := db.payments[pid].(status := Pay.Paid)]
                 && r.db == db.(payments := r.db.payments, entries := r.db.entries, earnings := r.db.earnings, orders := r.db.orders)
                 && SettleWrites(db, r.db, db.payments[pid]))
  {
    if Settle(db, pid).error.None? && db.payments[pid].status != Pay.Paid { SettlingDoes(db, pid); }
  }

  lemma SettlingDoes(db: Db, pid: Id)
    requires Reachable(db) && Settle(db, pid).error.None? && db.payments[pid].status != Pay.Paid
    ensures SettleWrites(db, Settle(db, pid).db, db.payments[pid])
  {
    T.SettlingPostsEverything(db, pid);
    var p := db.payments[pid];
    forall provider | IsFor(db, p, provider)
      ensures p.reference in Settle(db, pid).db.earnings
              && Settle(db, pid).db.earnings[p.reference] == Earning(provider, p.request.value, p.amount)
    {
      EarningIsFull(db, pid, provider);
    }
  }

  lemma EarningIsFull(db: Db, pid: Id, provider: Id)
    requires Reachable(db) && Settle(db, pid).error.None? && db.payments[pid].status != Pay.Paid
    requires IsFor(db, db.payments[pid], provider)
    ensures var p := db.payments[pid];
            var after := Settle(db, pid).db;
            p.reference in after.earnings && after.earnings[p.reference] == Earning(provider, p.request.value, p.amount)
  {
    ReachableIsInOrder(db);
    var p := db.payments[pid];
    if p.reference in db.earnings {
      var i: Id :| EarningOf(db.market, db.payments, i, p.reference, db.earnings[p.reference]);
      assert i == pid;
    }
  }

  // ----- orders -----

  ghost predicate OnlyOrder(a: Db, b: Db, oid: Id, status: OrderStatus) {
    && oid < |a.orders| && b == a.(orders := b.orders)
    && b.orders == a.orders[oid := a.orders[oid].(status := status)]
  }

  predicate MayAct(action: Action, from: OrderStatus) {
    || (action in {Accept, Prepare} && from == Paid)
    || (action in {Reject, Cancel} && from in {Paid, Preparing, Ready, OutForDelivery})
    || (action == MakeReady && from == Preparing)
    || (action == Complete && from in {Ready, OutForDelivery})
  }

  /** What the merchant's action makes of an order. A deliverable order that is made ready gets
      its delivery job and goes out at once. */
  ghost predicate Acted(db: Db, after: Db, oid: Id, action: Action, deliverable: bool, ranked: seq<Id>, now: int) {
    if action in {Accept, Prepare} then OnlyOrder(db, after, oid, Preparing)
    else if action in {Reject, Cancel} then OnlyOrder(db, after, oid, Cancelled)
    else if action == Complete then OnlyOrder(db, after, oid, Fulfilled)
    else if deliverable then SentOut(db, after, oid, ranked, now)
    else OnlyOrder(db, after, oid, Ready)
  }

  ghost predicate SentOut(db: Db, after: Db, oid: Id, ranked: seq<Id>, now: int) {
    && OnlyOrder(db.(market := after.market), after, oid, OutForDelivery)
    && after.market == M.CreateJob(db.market, oid, db.orders[oid].user, ranked, now).db
    && exists j :: 0 <= j < |after.market.jobs| && after.market.jobs[j].order == oid
  }

  lemma SendingOutDoes(db: Db, merchant: Id, oid: Id, ranked: seq<Id>, now: int)
    requires R.Inv(db.market) && oid < |db.orders| && db.orders[oid].merchant == merchant && db.orders[oid].status == Preparing
    ensures var r := MerchantTransition(db, merchant, oid, MakeReady, true, ranked, now);
            r.error.None? && SentOut(db, r.db, oid, ranked, now)
  {
    R.CreateJobKeeps(db.market, oid, db.orders[oid].user, ranked, now);
    JobIsThere(db.market, oid, db.orders[oid].user, ranked, now);
  }

  lemma OtherActionsDo(db: Db, merchant: Id, oid: Id, action: Action, deliverable: bool, ranked: seq<Id>, now: int)
    requires !(action == MakeReady && deliverable)
    ensures var r := MerchantTransition(db, merchant, oid, action, deliverable, ranked, now);
            && (r.error.None? <==> oid < |db.orders| && db.orders[oid].merchant == merchant && MayAct(action, db.orders[oid].status))
            && (if r.error.None? then Acted(db, r.db, oid, action, deliverable, ranked, now) else r.db == db)
  {
  }

  /** In every reachable state a merchant's action succeeds exactly on its own order in a status
      the action starts from, and does what is said there; any other is refused and changes
      nothing. */
  lemma MerchantActsWhen(db: Db, merchant: Id, oid: Id, action: Action, deliverable: bool, ranked: seq<Id>, now: int)
    requires Reachable(db)
    ensures var r := MerchantTransition(db, merchant, oid, action, deliverable, ranked, now);
            && (r.error.None? <==> oid < |db.orders| && db.orders[oid].merchant == merchant && MayAct(action, db.orders[oid].status))
            && (if r.error.None? then Acted(db, r.db, oid, action, deliverable, ranked, now) else r.db == db)
  {
    if action == MakeReady && deliverable {
      if oid < |db.orders| && db.orders[oid].merchant == merchant && db.orders[oid].status == Preparing {
        ReachableIsInOrder(db);
        SendingOutDoes(db, merchant, oid, ranked, now);
      }
    } else {
      OtherActionsDo(db, merchant, oid, action, deliverable, ranked, now);
    }
  }

  /** A customer cancels exactly its own order that still awaits payment. */
  lemma CustomerCancelsWhen(db: Db, user: Id, oid: Id)
    ensures var r := CancelOrder(db, user, oid);
            && (r.error.None? <==> oid < |db.orders| && db.orders[oid].user == user && db.orders[oid].status == AwaitingPayment)
            && (if r.error.None? then OnlyOrder(db, r.db, oid, Cancelled) else r.db == db)
  {
  }
}
