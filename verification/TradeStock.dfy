/** Stock conservation over every run of product edits, cart edits, checkouts, counter sales
    and everything else. */
module TradeStock {
  import opened Prelude
  import opened Money
  import opened Trade

  // ----- measuring -----

  /** The stock a history leaves: the last value set, less every unit taken since. */
  function Level(history: seq<StockEvent>, p: Id): int {
    if history == [] then 0
    else
      var n := |history| - 1;
      match history[n]
      case Set(q, quantity) => if q == p then quantity else Level(history[..n], p)
      case Took(q, quantity) => Level(history[..n], p) - (if q == p then quantity else 0)
  }

  function TotalTaken(history: seq<StockEvent>, p: Id): int {
    if history == [] then 0
    else
      var n := |history| - 1;
      TotalTaken(history[..n], p) + (if history[n].Took? && history[n].product == p then history[n].quantity else 0)
  }

  /** Units of a product on a list of lines, on order lines, on all orders, on all counter sales. */
  function Units(lines: seq<Line>, p: Id): int {
    if lines == [] then 0
    else Units(lines[..|lines| - 1], p) + (if lines[|lines| - 1].product == p then lines[|lines| - 1].quantity else 0)
  }

  function UnitsOrdered(lines: seq<OrderLine>, p: Id): int {
    if lines == [] then 0
    else UnitsOrdered(lines[..|lines| - 1], p) + (if lines[|lines| - 1].product == p then lines[|lines| - 1].quantity else 0)
  }

  function OrderUnits(orders: seq<Order>, p: Id): int {
    if orders == [] then 0 else OrderUnits(orders[..|orders| - 1], p) + UnitsOrdered(orders[|orders| - 1].lines, p)
  }

  function SaleUnits(sales: seq<Sale>, p: Id): int {
    if sales == [] then 0 else SaleUnits(sales[..|sales| - 1], p) + UnitsOrdered(sales[|sales| - 1].lines, p)
  }

  /** Reading Level: the value last set less the units taken since. */
  lemma {:induction false} LevelSinceSet(before: seq<StockEvent>, p: Id, quantity: int, after: seq<StockEvent>)
    requires forall i :: 0 <= i < |after| ==> !(after[i].Set? && after[i].product == p)
    ensures Level(before + [Set(p, quantity)] + after, p) == quantity - TotalTaken(after, p)
    decreases |after|
  {
    var history := before + [Set(p, quantity)] + after;
    if after == [] {
      assert history == before + [Set(p, quantity)];
      assert history[|history| - 1] == Set(p, quantity);
    } else {
      var n := |after| - 1;
      assert history[..|history| - 1] == before + [Set(p, quantity)] + after[..n];
      LevelSinceSet(before, p, quantity, after[..n]);
    }
  }

  // ----- the invariant -----

  ghost predicate CartOk(products: seq<Product>, c: Cart) {
    && DistinctProducts(c.lines)
    && (forall i :: 0 <= i < |c.lines| ==>
          c.lines[i].quantity > 0 && c.lines[i].product < |products| && products[c.lines[i].product].merchant == c.merchant)
    && (forall pid :: pid in c.prices <==> FindLine(c.lines, pid).Some?)
  }

  ghost predicate ProductOk(history: seq<StockEvent>, products: seq<Product>, p: Id)
    requires p < |products|
  {
    products[p].stock >= 0 && products[p].price >= 0 && products[p].stock == Level(history, p)
  }

  ghost predicate Balanced(db: Db, p: Id) {
    TotalTaken(db.history, p) == OrderUnits(db.orders, p) + SaleUnits(db.counterSales, p)
  }

  ghost predicate StockInv(db: Db) {
    && (forall p: Id :: p < |db.products| ==> ProductOk(db.history, db.products, p))
    && (forall i :: 0 <= i < |db.history| ==> db.history[i].product < |db.products|)
    && (forall i :: 0 <= i < |db.carts| ==> CartOk(db.products, db.carts[i]))
    && (forall p: Id :: Balanced(db, p))
  }

  // ----- histories -----

  lemma HistoryGrows(history: seq<StockEvent>, e: StockEvent, p: Id)
    ensures Level(history + [e], p) ==
            (match e
             case Set(q, quantity) => if q == p then quantity else Level(history, p)
             case Took(q, quantity) => Level(history, p) - (if q == p then quantity else 0))
    ensures TotalTaken(history + [e], p) == TotalTaken(history, p) + (if e.Took? && e.product == p then e.quantity else 0)
  {
    assert (history + [e])[..|history|] == history;
  }

  lemma {:induction false} TakingLowers(history: seq<StockEvent>, lines: seq<Line>, p: Id)
    ensures Level(history + TookEvents(lines), p) == Level(history, p) - Units(lines, p)
    ensures TotalTaken(history + TookEvents(lines), p) == TotalTaken(history, p) + Units(lines, p)
    decreases |lines|
  {
    if lines == [] {
      assert history + TookEvents(lines) == history;
    } else {
      var n := |lines| - 1;
      TakingLowers(history, lines[..n], p);
      assert history + TookEvents(lines)
          == (history + TookEvents(lines[..n])) + [Took(lines[n].product, lines[n].quantity)];
      HistoryGrows(history + TookEvents(lines[..n]), Took(lines[n].product, lines[n].quantity), p);
    }
  }

  lemma {:induction false} UnitsFromFront(lines: seq<Line>, p: Id)
    requires lines != []
    ensures Units(lines, p) == (if lines[0].product == p then lines[0].quantity else 0) + Units(lines[1..], p)
    decreases |lines|
  {
    var n := |lines| - 1;
    if n > 0 {
      UnitsFromFront(lines[..n], p);
      assert lines[..n][1..] == lines[1..][..n - 1];
    }
  }

  /** The decrement loop takes exactly the units on the lines and changes nothing else. */
  lemma {:induction false} TakeStockTakes(products: seq<Product>, lines: seq<Line>, p: Id)
    requires KnownProducts(products, lines) && p < |products|
    ensures TakeStock(products, lines)[p] == products[p].(stock := products[p].stock - Units(lines, p))
    decreases |lines|
  {
    if lines != [] {
      UnitsFromFront(lines, p);
      var q := lines[0].product;
      TakeStockTakes(products[q := products[q].(stock := products[q].stock - lines[0].quantity)], lines[1..], p);
    }
  }

  /** On lines of distinct products, checking each line against the stock first is enough:
      no product is taken below zero by the loop that follows. */
  lemma {:induction false} CheckFirstIsEnough(products: seq<Product>, lines: seq<Line>, p: Id)
    requires Stocked(products, lines) && DistinctProducts(lines) && p < |products| && products[p].stock >= 0
    ensures Units(lines, p) <= products[p].stock
    ensures (forall i :: 0 <= i < |lines| ==> lines[i].product != p) ==> Units(lines, p) == 0
    decreases |lines|
  {
    if lines != [] {
      CheckFirstIsEnough(products, lines[..|lines| - 1], p);
    }
  }

  lemma SaleKeepsProducts(products: seq<Product>, history: seq<StockEvent>, lines: seq<Line>)
    requires Stocked(products, lines) && DistinctProducts(lines)
    requires forall p: Id :: p < |products| ==> ProductOk(history, products, p)
    ensures forall p: Id :: p < |products| ==>
              ProductOk(history + TookEvents(lines), TakeStock(products, lines), p)
              && TakeStock(products, lines)[p].merchant == products[p].merchant
  {
    forall p: Id | p < |products|
      ensures ProductOk(history + TookEvents(lines), TakeStock(products, lines), p)
              && TakeStock(products, lines)[p].merchant == products[p].merchant
    {
      assert ProductOk(history, products, p);
      TakeStockTakes(products, lines, p);
      CheckFirstIsEnough(products, lines, p);
      TakingLowers(history, lines, p);
    }
  }

  lemma {:induction false} PricedUnits(products: seq<Product>, lines: seq<Line>, p: Id)
    requires KnownProducts(products, lines)
    ensures UnitsOrdered(Priced(products, lines), p) == Units(lines, p)
    decreases |lines|
  {
    if lines != [] {
      var n := |lines| - 1;
      PricedUnits(products, lines[..n], p);
      assert Priced(products, lines)[..n] == Priced(products, lines[..n]);
    }
  }

  lemma {:induction false} SameLinesSameUnits(a: seq<Order>, b: seq<Order>, p: Id)
    requires |a| == |b| && forall i :: 0 <= i < |a| ==> a[i].lines == b[i].lines
    ensures OrderUnits(a, p) == OrderUnits(b, p)
    decreases |a|
  {
    if a != [] {
      SameLinesSameUnits(a[..|a| - 1], b[..|b| - 1], p);
    }
  }

  // ----- cart lines -----

  lemma QuantityOfItsLine(lines: seq<Line>, i: nat)
    requires DistinctProducts(lines) && i < |lines|
    ensures QuantityOf(lines, lines[i].product) == lines[i].quantity
  {
  }

  lemma PutSetsOne(lines: seq<Line>, pid: Id, quantity: int, other: Id)
    requires DistinctProducts(lines)
    ensures DistinctProducts(PutLine(lines, pid, quantity))
    ensures QuantityOf(PutLine(lines, pid, quantity), other) == if other == pid then quantity else QuantityOf(lines, other)
  {
    var after := PutLine(lines, pid, quantity);
    assert after[if FindLine(lines, pid).Some? then FindLine(lines, pid).value else |lines|] == Line(pid, quantity);
    if FindLine(lines, other).Some? {
      assert after[FindLine(lines, other).value].product == other;
    }
    var found := FindLine(after, other);
    if found.Some? {
      QuantityOfItsLine(after, found.value);
      if other != pid {
        assert after[found.value] == lines[found.value];
        QuantityOfItsLine(lines, found.value);
      }
    }
  }

  lemma DropRemovesOne(lines: seq<Line>, pid: Id, other: Id)
    requires DistinctProducts(lines) && FindLine(lines, pid).Some?
    ensures QuantityOf(DropLine(lines, pid), other) == if other == pid then 0 else QuantityOf(lines, other)
  {
    var i := FindLine(lines, pid).value;
    var after := DropLine(lines, pid);
    assert forall k :: 0 <= k < |after| ==> after[k] == if k < i then lines[k] else lines[k + 1];
    if other != pid && FindLine(lines, other).Some? {
      var j := FindLine(lines, other).value;
      assert after[if j < i then j else j - 1].product == other;
    }
    var found := FindLine(after, other);
    if found.Some? {
      QuantityOfItsLine(lines, if found.value < i then found.value else found.value + 1);
    }
  }

  lemma PutKeepsLines(lines: seq<Line>, pid: Id, quantity: int, other: Id)
    ensures FindLine(PutLine(lines, pid, quantity), other).Some? <==> other == pid || FindLine(lines, other).Some?
  {
    var after := PutLine(lines, pid, quantity);
    assert after[if FindLine(lines, pid).Some? then FindLine(lines, pid).value else |lines|] == Line(pid, quantity);
    if FindLine(lines, other).Some? {
      assert after[FindLine(lines, other).value].product == other;
    }
  }

  lemma DropShifts(lines: seq<Line>, pid: Id, k: nat)
    requires FindLine(lines, pid).Some?
    ensures var after := DropLine(lines, pid);
            && |after| == |lines| - 1
            && (k < |after| ==> after[k] == if k < FindLine(lines, pid).value then lines[k] else lines[k + 1])
  {
  }

  lemma DropKeepsLines(lines: seq<Line>, pid: Id, other: Id)
    requires DistinctProducts(lines) && FindLine(lines, pid).Some?
    ensures FindLine(DropLine(lines, pid), other).Some? <==> other != pid && FindLine(lines, other).Some?
  {
    var i := FindLine(lines, pid).value;
    var after := DropLine(lines, pid);
    if other != pid && FindLine(lines, other).Some? {
      var j := FindLine(lines, other).value;
      DropShifts(lines, pid, if j < i then j else j - 1);
      assert after[if j < i then j else j - 1].product == other;
    }
    var found := FindLine(after, other);
    if found.Some? { DropShifts(lines, pid, found.value); }
  }

  lemma DropLineOk(products: seq<Product>, c: Cart, pid: Id)
    requires CartOk(products, c) && FindLine(c.lines, pid).Some?
    ensures CartOk(products, DropFromCart(c, pid))
  {
    var after := DropFromCart(c, pid);
    forall k | 0 <= k < |after.lines|
      ensures after.lines[k] == c.lines[if k < FindLine(c.lines, pid).value then k else k + 1]
    {
      DropShifts(c.lines, pid, k);
    }
    forall p ensures p in after.prices <==> FindLine(after.lines, p).Some? { DropKeepsLines(c.lines, pid, p); }
  }

  // ----- every operation -----

  lemma CartsMove(db: Db, carts: seq<Cart>)
    requires StockInv(db) && forall i :: 0 <= i < |carts| ==> CartOk(db.products, carts[i])
    ensures StockInv(db.(carts := carts))
  {
    forall p: Id ensures Balanced(db.(carts := carts), p) { assert Balanced(db, p); }
    forall p: Id | p < |db.products| ensures ProductOk(db.history, db.products, p) {}
  }

  lemma PutLinesOk(products: seq<Product>, c: Cart, pid: Id, quantity: int)
    requires CartOk(products, c) && quantity > 0 && pid < |products| && products[pid].merchant == c.merchant
    ensures var lines := PutLine(c.lines, pid, quantity);
            DistinctProducts(lines) && forall i :: 0 <= i < |lines| ==>
              lines[i].quantity > 0 && lines[i].product < |products| && products[lines[i].product].merchant == c.merchant
  {
  }

  lemma PutLineOk(products: seq<Product>, c: Cart, pid: Id, quantity: int)
    requires CartOk(products, c) && quantity > 0 && pid < |products| && products[pid].merchant == c.merchant
    ensures CartOk(products, PutInCart(c, pid, quantity, products[pid].price))
  {
    PutLinesOk(products, c, pid, quantity);
    var after := PutInCart(c, pid, quantity, products[pid].price);
    forall p ensures p in after.prices <==> FindLine(after.lines, p).Some? { PutKeepsLines(c.lines, pid, quantity, p); }
  }

  lemma AddToCartKeeps(db: Db, user: Id, merchant: Id, pid: Id, quantity: int)
    requires StockInv(db)
    ensures StockInv(AddToCart(db, user, merchant, pid, quantity).db)
  {
    var r := AddToCart(db, user, merchant, pid, quantity);
    if quantity > 0 {
      var carts := WithCart(db.carts, user, merchant);
      var cid := CartOf(db.carts, user, merchant);
      CartsMove(db, carts);
      if r.error.None? {
        assert CartOk(db.products, carts[cid]);
        var wanted := QuantityOf(carts[cid].lines, pid) + quantity;
        PutLineOk(db.products, carts[cid], pid, wanted);
        CartsMove(db, carts[cid := PutInCart(carts[cid], pid, wanted, db.products[pid].price)]);
      }
    }
  }

  lemma UpdateCartItemKeeps(db: Db, user: Id, cid: Id, pid: Id, quantity: int)
    requires StockInv(db)
    ensures StockInv(UpdateCartItem(db, user, cid, pid, quantity).db)
  {
    var r := UpdateCartItem(db, user, cid, pid, quantity);
    if r.error.None? {
      var cart := db.carts[cid];
      assert CartOk(db.products, cart);
      if quantity == 0 {
        DropLineOk(db.products, cart, pid);
        CartsMove(db, db.carts[cid := DropFromCart(cart, pid)]);
      } else {
        PutLineOk(db.products, cart, pid, quantity);
        CartsMove(db, db.carts[cid := PutInCart(cart, pid, quantity, db.products[pid].price)]);
      }
    }
  }

  lemma SetKeeps(db: Db, products: seq<Product>, p: Id, quantity: int)
    requires StockInv(db) && quantity >= 0 && |db.products| <= |products| <= |db.products| + 1 && p < |products|
    requires products[p].stock == quantity && products[p].price >= 0
    requires |products| > |db.products| ==> p == |db.products|
    requires forall q: Id :: q < |db.products| && q != p ==> products[q] == db.products[q]
    requires p < |db.products| ==> products[p].merchant == db.products[p].merchant
    ensures StockInv(db.(products := products, history := db.history + [Set(p, quantity)]))
  {
    var db' := db.(products := products, history := db.history + [Set(p, quantity)]);
    forall q: Id | q < |products| ensures ProductOk(db'.history, products, q) {
      HistoryGrows(db.history, Set(p, quantity), q);
      if q != p { assert ProductOk(db.history, db.products, q); }
    }
    forall q: Id ensures Balanced(db', q) {
      assert Balanced(db, q);
      HistoryGrows(db.history, Set(p, quantity), q);
    }
    forall i | 0 <= i < |db.carts| ensures CartOk(products, db.carts[i]) {
      assert CartOk(db.products, db.carts[i]);
    }
  }

  lemma CheckoutBalances(db: Db, after: Db, lines: seq<Line>, order: Order, p: Id)
    requires Balanced(db, p) && KnownProducts(db.products, lines)
    requires after.history == db.history + TookEvents(lines) && after.counterSales == db.counterSales
    requires after.orders == db.orders + [order] && order.lines == Priced(db.products, lines)
    ensures Balanced(after, p)
  {
    TakingLowers(db.history, lines, p);
    PricedUnits(db.products, lines, p);
    assert after.orders[..|db.orders|] == db.orders;
  }

  /** What a successful checkout does to everything stock is about. */
  ghost predicate SoldByCheckout(db: Db, after: Db, lines: seq<Line>) {
    && Stocked(db.products, lines)
    && after.products == TakeStock(db.products, lines) && after.history == db.history + TookEvents(lines)
    && after.counterSales == db.counterSales && |after.orders| == |db.orders| + 1
    && after.orders == db.orders + [after.orders[|db.orders|]]
    && after.orders[|db.orders|].lines == Priced(db.products, lines)
    && |after.carts| == |db.carts|
    && forall i :: 0 <= i < |db.carts| ==>
      && after.carts[i].lines == db.carts[i].lines && after.carts[i].merchant == db.carts[i].merchant
      && after.carts[i].prices == db.carts[i].prices
  }

  lemma CheckoutSells(db: Db, user: Id, cid: Id, milliFee: int, reference: string)
    requires Checkout(db, user, cid, milliFee, reference).error.None?
    ensures SoldByCheckout(db, Checkout(db, user, cid, milliFee, reference).db, db.carts[cid].lines)
  {
  }

  lemma SellingKeeps(db: Db, after: Db, lines: seq<Line>)
    requires StockInv(db) && SoldByCheckout(db, after, lines) && DistinctProducts(lines)
    ensures StockInv(after)
  {
    SaleKeepsProducts(db.products, db.history, lines);
    forall p: Id ensures Balanced(after, p) {
      assert Balanced(db, p);
      CheckoutBalances(db, after, lines, after.orders[|db.orders|], p);
    }
    SaleKeepsCarts(db, after, lines);
  }

  lemma CheckoutKeeps(db: Db, user: Id, cid: Id, milliFee: int, reference: string)
    requires StockInv(db)
    ensures StockInv(Checkout(db, user, cid, milliFee, reference).db)
  {
    if Checkout(db, user, cid, milliFee, reference).error.None? {
      CheckoutSells(db, user, cid, milliFee, reference);
      assert CartOk(db.products, db.carts[cid]);
      SellingKeeps(db, Checkout(db, user, cid, milliFee, reference).db, db.carts[cid].lines);
    }
  }

  /** After a sale the carts are still in order: products keep their merchants. */
  lemma SaleKeepsCarts(db: Db, after: Db, lines: seq<Line>)
    requires StockInv(db) && Stocked(db.products, lines) && DistinctProducts(lines)
    requires after.products == TakeStock(db.products, lines) && |after.carts| == |db.carts|
    requires forall i :: 0 <= i < |db.carts| ==>
      && after.carts[i].lines == db.carts[i].lines && after.carts[i].merchant == db.carts[i].merchant
      && after.carts[i].prices == db.carts[i].prices
    ensures forall i :: 0 <= i < |after.carts| ==> CartOk(after.products, after.carts[i])
  {
    SaleKeepsProducts(db.products, db.history, lines);
    forall i | 0 <= i < |after.carts| ensures CartOk(after.products, after.carts[i]) {
      assert CartOk(db.products, db.carts[i]);
    }
  }

  lemma CounterSaleKeeps(db: Db, merchant: Id, lines: seq<Line>)
    requires StockInv(db)
    ensures StockInv(CounterSale(db, merchant, lines).db)
  {
    var r := CounterSale(db, merchant, lines);
    if r.error.None? {
      SaleKeepsProducts(db.products, db.history, lines);
      forall p: Id ensures Balanced(r.db, p) {
        assert Balanced(db, p);
        TakingLowers(db.history, lines, p);
        PricedUnits(db.products, lines, p);
        assert r.db.counterSales[..|db.counterSales|] == db.counterSales;
      }
      SaleKeepsCarts(db, r.db, lines);
    }
  }

  /** Operations that leave products, history, carts, sales and order lines alone. */
  lemma ElsewhereKeeps(db: Db, after: Db)
    requires StockInv(db) && LeavesStock(db, after)
    ensures StockInv(after)
  {
    forall p: Id ensures Balanced(after, p) {
      assert Balanced(db, p);
      SameLinesSameUnits(db.orders, after.orders, p);
    }
    forall p: Id | p < |after.products| ensures ProductOk(after.history, after.products, p) {
      assert ProductOk(db.history, db.products, p);
    }
  }

  /** Operations on orders, payments and the market. */
  predicate IsElsewhere(op: Op) {
    op.OpMarket? || op.OpCreatePayment? || op.OpAuthorize? || op.OpCapture? || op.OpRewrite? || op.OpSettle?
    || op.OpMerchant? || op.OpCancelOrder?
  }

  ghost predicate LeavesStock(db: Db, after: Db) {
    && after.products == db.products && after.history == db.history && after.carts == db.carts
    && after.counterSales == db.counterSales
    && |after.orders| == |db.orders| && forall i :: 0 <= i < |db.orders| ==> after.orders[i].lines == db.orders[i].lines
  }

  lemma PaymentsLeaveStock(db: Db, op: Op)
    requires op.OpMarket? || op.OpCreatePayment? || op.OpAuthorize? || op.OpCapture? || op.OpRewrite?
    ensures LeavesStock(db, Execute(db, op).db)
  {
  }

  lemma SettlingLeavesStock(db: Db, pid: Id)
    ensures LeavesStock(db, Settle(db, pid).db)
  {
  }

  lemma MerchantLeavesStock(db: Db, merchant: Id, oid: Id, action: Action, deliverable: bool, ranked: seq<Id>, now: int)
    ensures LeavesStock(db, MerchantTransition(db, merchant, oid, action, deliverable, ranked, now).db)
  {
  }

  lemma ElsewhereOpKeeps(db: Db, op: Op)
    requires StockInv(db) && IsElsewhere(op)
    ensures StockInv(Execute(db, op).db)
  {
    match op {
      case OpSettle(pid) => SettlingLeavesStock(db, pid);
      case OpMerchant(merchant, oid, action, deliverable, ranked, now) =>
        MerchantLeavesStock(db, merchant, oid, action, deliverable, ranked, now);
      case OpCancelOrder(_, _) =>
      case _ => PaymentsLeaveStock(db, op);
    }
    ElsewhereKeeps(db, Execute(db, op).db);
  }

  lemma ProductOpKeeps(db: Db, op: Op)
    requires StockInv(db) && (op.OpCreateProduct? || op.OpUpdateStock?)
    ensures StockInv(Execute(db, op).db)
  {
    match op
    case OpCreateProduct(merchant, price, stock) =>
      if CreateProduct(db, merchant, price, stock).error.None? {
        SetKeeps(db, db.products + [Product(merchant, price, stock)], |db.products|, stock);
      }
    case OpUpdateStock(merchant, pid, quantity) =>
      if UpdateStock(db, merchant, pid, quantity).error.None? {
        assert ProductOk(db.history, db.products, pid);
        SetKeeps(db, db.products[pid := db.products[pid].(stock := quantity)], pid, quantity);
      }
  }

  lemma ExecuteKeepsStock(db: Db, op: Op)
    requires StockInv(db)
    ensures StockInv(Execute(db, op).db)
  {
    match op
    case OpAddToCart(user, merchant, pid, quantity) => AddToCartKeeps(db, user, merchant, pid, quantity);
    case OpUpdateCartItem(user, cid, pid, quantity) => UpdateCartItemKeeps(db, user, cid, pid, quantity);
    case OpCheckout(user, cid, milliFee, reference) => CheckoutKeeps(db, user, cid, milliFee, reference);
    case OpCounterSale(merchant, lines) => CounterSaleKeeps(db, merchant, lines);
    case OpCreateProduct(_, _, _) => ProductOpKeeps(db, op);
    case OpUpdateStock(_, _, _) => ProductOpKeeps(db, op);
    case _ => ElsewhereOpKeeps(db, op);
  }

  lemma {:induction false} RunKeepsStock(db: Db, calls: seq<Call>)
    requires StockInv(db)
    ensures StockInv(Run(db, calls))
    decreases |calls|
  {
    if calls != [] {
      ExecuteKeepsStock(db, calls[0].op);
      RunKeepsStock(Commit(db, calls[0]), calls[1..]);
    }
  }

  /** In every reachable state no stock is negative, each product's stock is the last value
      set less the units taken since, and the units ever taken are exactly the units on order
      lines and counter sales. Cancelling an order gives nothing back. */
  lemma StockIsConserved(calls: seq<Call>, p: Id)
    ensures var db := Run(EmptyDb, calls);
            && (p < |db.products| ==> db.products[p].stock >= 0 && db.products[p].stock == Level(db.history, p))
            && TotalTaken(db.history, p) == OrderUnits(db.orders, p) + SaleUnits(db.counterSales, p)
  {
    var db := Run(EmptyDb, calls);
    RunKeepsStock(EmptyDb, calls);
    assert Balanced(db, p);
    if p < |db.products| { assert ProductOk(db.history, db.products, p); }
  }

  // ----- what cart edits do -----

  function CartLines(db: Db, cid: Id): seq<Line> {
    if cid < |db.carts| then db.carts[cid].lines else []
  }

  function CartPrices(db: Db, cid: Id): map<Id, int> {
    if cid < |db.carts| then db.carts[cid].prices else map[]
  }

  lemma CartIsDistinct(db: Db, cid: Id)
    requires StockInv(db)
    ensures DistinctProducts(CartLines(db, cid))
  {
    if cid < |db.carts| { assert CartOk(db.products, db.carts[cid]); }
  }

  lemma AddToCartWrites(db: Db, user: Id, merchant: Id, pid: Id, quantity: int)
    requires AddToCart(db, user, merchant, pid, quantity).error.None?
    ensures var cid := CartOf(db.carts, user, merchant);
            PutWritten(db, AddToCart(db, user, merchant, pid, quantity).db, cid, user, merchant, pid,
                       QuantityOf(CartLines(db, cid), pid) + quantity)
  {
  }

  /** In every state in order, so in every reachable one, adding raises exactly one quantity of
      exactly one cart, the user's active one at that merchant, and never above the stock. */
  lemma AddToCartAdds(db: Db, user: Id, merchant: Id, pid: Id, quantity: int, other: Id)
    requires StockInv(db) && AddToCart(db, user, merchant, pid, quantity).error.None?
    ensures var cid := CartOf(db.carts, user, merchant);
            Added(db, AddToCart(db, user, merchant, pid, quantity).db, cid, user, merchant, pid, quantity, other)
  {
    var cid := CartOf(db.carts, user, merchant);
    AddToCartWrites(db, user, merchant, pid, quantity);
    CartIsDistinct(db, cid);
    PutAdds(db, AddToCart(db, user, merchant, pid, quantity).db, cid, user, merchant, pid, quantity, other);
  }

  ghost predicate OtherCartsStay(db: Db, after: Db, cid: Id) {
    forall i :: 0 <= i < |db.carts| && i != cid ==> i < |after.carts| && after.carts[i] == db.carts[i]
  }

  ghost predicate PutWritten(db: Db, after: Db, cid: Id, user: Id, merchant: Id, pid: Id, wanted: int) {
    && pid < |db.products| && cid < |after.carts| && wanted <= db.products[pid].stock
    && after.carts[cid] == Cart(user, merchant, Active, PutLine(CartLines(db, cid), pid, wanted),
                                CartPrices(db, cid)[pid := db.products[pid].price])
    && OtherCartsStay(db, after, cid)
  }

  ghost predicate Added(db: Db, after: Db, cid: Id, user: Id, merchant: Id, pid: Id, quantity: int, other: Id) {
    && cid < |after.carts| && after.carts[cid].user == user && after.carts[cid].merchant == merchant
    && after.carts[cid].status == Active
    && QuantityOf(CartLines(after, cid), other) == QuantityOf(CartLines(db, cid), other) + (if other == pid then quantity else 0)
    && pid < |db.products| && QuantityOf(CartLines(after, cid), pid) <= db.products[pid].stock
    && CartPrices(after, cid) == CartPrices(db, cid)[pid := db.products[pid].price]
    && OtherCartsStay(db, after, cid)
  }

  lemma PutRaisesOne(lines: seq<Line>, after: seq<Line>, pid: Id, quantity: int, other: Id)
    requires DistinctProducts(lines) && after == PutLine(lines, pid, QuantityOf(lines, pid) + quantity)
    ensures QuantityOf(after, other) == QuantityOf(lines, other) + (if other == pid then quantity else 0)
  {
    PutSetsOne(lines, pid, QuantityOf(lines, pid) + quantity, other);
  }

  lemma PutAdds(db: Db, after: Db, cid: Id, user: Id, merchant: Id, pid: Id, quantity: int, other: Id)
    requires DistinctProducts(CartLines(db, cid))
    requires PutWritten(db, after, cid, user, merchant, pid, QuantityOf(CartLines(db, cid), pid) + quantity)
    ensures Added(db, after, cid, user, merchant, pid, quantity, other)
  {
    PutRaisesOne(CartLines(db, cid), CartLines(after, cid), pid, quantity, other);
    PutRaisesOne(CartLines(db, cid), CartLines(after, cid), pid, quantity, pid);
  }

  /** Updating sets exactly one quantity of that cart, within the stock, and zero removes it. */
  lemma UpdateSetsTheQuantity(db: Db, user: Id, cid: Id, pid: Id, quantity: int, other: Id)
    requires StockInv(db) && UpdateCartItem(db, user, cid, pid, quantity).error.None?
    ensures var after := UpdateCartItem(db, user, cid, pid, quantity).db;
            && QuantityOf(CartLines(after, cid), other) == (if other == pid then quantity else QuantityOf(CartLines(db, cid), other))
            && pid < |db.products| && (quantity == 0 || quantity <= db.products[pid].stock)
            && CartPrices(after, cid) == (if quantity == 0 then CartPrices(db, cid) - {pid}
                                          else CartPrices(db, cid)[pid := db.products[pid].price])
            && (forall i :: 0 <= i < |db.carts| && i != cid ==> i < |after.carts| && after.carts[i] == db.carts[i])
  {
    CartIsDistinct(db, cid);
    if quantity == 0 {
      DropRemovesOne(db.carts[cid].lines, pid, other);
    } else {
      PutSetsOne(db.carts[cid].lines, pid, quantity, other);
    }
  }

  // ----- counter sales add up -----

  ghost predicate SaleOk(s: Sale) {
    && (forall k :: 0 <= k < |s.lines| ==> s.lines[k].total == HalfUp(s.lines[k].quantity * s.lines[k].unitPrice, 1000))
    && s.total == HalfUp(Worth(s.lines), 1000)
  }

  ghost predicate SalesOk(sales: seq<Sale>) {
    forall i :: 0 <= i < |sales| ==> SaleOk(sales[i])
  }

  lemma SaleWrites(db: Db, merchant: Id, lines: seq<Line>)
    requires SalesOk(db.counterSales)
    ensures SalesOk(CounterSale(db, merchant, lines).db.counterSales)
  {
    var after := CounterSale(db, merchant, lines).db.counterSales;
    if after != db.counterSales { assert SaleOk(after[|db.counterSales|]); }
  }

  lemma OthersKeepSales(db: Db, op: Op)
    requires !op.OpCounterSale?
    ensures Execute(db, op).db.counterSales == db.counterSales
  {
  }

  lemma CommitKeepsSales(db: Db, call: Call)
    requires SalesOk(db.counterSales)
    ensures SalesOk(Commit(db, call).counterSales)
  {
    if call.op.OpCounterSale? {
      SaleWrites(db, call.op.merchant, call.op.lines);
    } else {
      OthersKeepSales(db, call.op);
    }
  }

  lemma {:induction false} RunKeepsSales(db: Db, calls: seq<Call>)
    requires SalesOk(db.counterSales)
    ensures SalesOk(Run(db, calls).counterSales)
    decreases |calls|
  {
    if calls != [] {
      CommitKeepsSales(db, calls[0]);
      RunKeepsSales(Commit(db, calls[0]), calls[1..]);
    }
  }

  lemma {:induction false} LinesAreNear(lines: seq<OrderLine>)
    requires forall k :: 0 <= k < |lines| ==> lines[k].total == HalfUp(lines[k].quantity * lines[k].unitPrice, 1000)
    ensures -1000 * |lines| <= 2 * (1000 * Sum(lines) - Worth(lines)) <= 1000 * |lines|
    decreases |lines|
  {
    if lines != [] {
      var last := lines[|lines| - 1];
      LinesAreNear(lines[..|lines| - 1]);
      HalfUpIsNearest(last.quantity * last.unitPrice, 1000);
    }
  }

  /** The total of a counter sale is the nearest cent to what its lines are worth exactly. Its
      lines are rounded one by one, so they may add up to something else, but by no more than
      half a cent for each of them and half a cent for the total. */
  lemma SalesAddUp(calls: seq<Call>, k: nat)
    requires k < |Run(EmptyDb, calls).counterSales|
    ensures var s := Run(EmptyDb, calls).counterSales[k];
            Nearest(s.total, Worth(s.lines), 1000) && -(|s.lines| + 1) <= 2 * (s.total - Sum(s.lines)) <= |s.lines| + 1
  {
    RunKeepsSales(EmptyDb, calls);
    var s := Run(EmptyDb, calls).counterSales[k];
    assert SaleOk(s);
    HalfUpIsNearest(Worth(s.lines), 1000);
    LinesAreNear(s.lines);
  }
}
