/** What every run guarantees about paid orders, buyer debits and provider credits. */
module TradeTheorems {
  import opened Prelude
  import opened Money
  import opened Trade
  import opened TradeMoney
  import M = Marketplace
  import Pay = Payments
  import R = MarketplaceRuns

  // ----- paid orders -----

  /** The order and the payment behind it agree on who pays, how much and in which currency. */
  ghost predicate Matched(db: Db, oid: Id) {
    && oid < |db.orders| && db.orders[oid].payment < |db.payments|
    && db.payments[db.orders[oid].payment].amount == db.orders[oid].total
    && db.payments[db.orders[oid].payment].user == db.orders[oid].user
    && db.payments[db.orders[oid].payment].currency == db.orders[oid].currency
  }

  /** An order that is paid or further on has exactly one debit under its payment's
      reference: the payment's amount, on the payment's user. Whatever webhooks did to the
      payment's status since, the debit equals the order total, on the order's own user and in
      its currency, exactly when order and payment match; and the total is the rounded line
      totals plus the rounded delivery fee. */
  lemma PaidOrdersAreDebitedOnce(db: Db, oid: Id)
    requires Reachable(db) && oid < |db.orders| && db.orders[oid].status in PAID_OR_LATER
    ensures db.orders[oid].payment < |db.payments|
    ensures var o, p := db.orders[oid], db.payments[db.orders[oid].payment];
            && BuyerKey(p) in db.entries && db.entries[BuyerKey(p)] == p.amount
            && (forall key :: key in db.entries && key.debit && key.reference == p.reference ==> key == BuyerKey(p))
            && o.total == Sum(o.lines) + o.fee
            && (forall k :: 0 <= k < |o.lines| ==> o.lines[k].total == HalfUp(o.lines[k].quantity * o.lines[k].unitPrice, 1000))
            && (Matched(db, oid) <==>
                  EntryKey(Buyer(o.user, o.currency), p.reference, true) in db.entries
                  && db.entries[EntryKey(Buyer(o.user, o.currency), p.reference, true)] == o.total)
  {
    ReachableIsInOrder(db);
    var o := db.orders[oid];
    assert OrderOk(db, o);
    var p := db.payments[o.payment];
    DebitsUnderReference(db, o.payment);
  }

  lemma DebitsUnderReference(db: Db, i: Id)
    requires MoneyInv(db) && i < |db.payments|
    ensures forall key :: key in db.entries && key.debit && key.reference == db.payments[i].reference
              ==> key == BuyerKey(db.payments[i]) && db.entries[key] == db.payments[i].amount
  {
    forall key | key in db.entries && key.debit && key.reference == db.payments[i].reference
      ensures key == BuyerKey(db.payments[i]) && db.entries[key] == db.payments[i].amount
    {
      assert EntryOk(db.market, db.payments, key, db.entries[key]);
      var j: Id :| DebitOf(db.payments, j, key, db.entries[key]);
      assert i == j;
    }
  }

  /** A checkout matches its payment exactly when nobody took the cart's reference before, or
      took it for the same user, in the order's currency and for the same total. */
  lemma CheckoutMatchesWhen(db: Db, user: Id, cid: Id, milliFee: int, reference: string)
    requires Checkout(db, user, cid, milliFee, reference).error.None?
    ensures var after := Checkout(db, user, cid, milliFee, reference).db;
            var taken := FindReference(db.payments, reference);
            && |after.orders| == |db.orders| + 1
            && (Matched(after, |db.orders|) <==>
                  taken.None?
                  || (&& db.payments[taken.value].user == user && db.payments[taken.value].currency == "LSL"
                      && db.payments[taken.value].amount == after.orders[|db.orders|].total))
  {
    CheckoutWrites(db, user, cid, milliFee, reference);
  }

  /** Whether they match is settled at checkout: no later operation changes it. */
  lemma MatchingLasts(db: Db, calls: seq<Call>, oid: Id)
    requires Reachable(db) && oid < |db.orders|
    ensures Matched(Run(db, calls), oid) <==> Matched(db, oid)
  {
    ReachableIsInOrder(db);
    RunKeepsMoney(db, calls);
    var later := Run(db, calls);
    assert OrderOk(db, db.orders[oid]);
    assert OrderEvolves(db.orders[oid], later.orders[oid]);
    assert PaymentEvolves(db.payments[db.orders[oid].payment], later.payments[db.orders[oid].payment]);
  }

  // Runs in which the cart's reference had been registered before the checkout.

  function TakenReference(payer: Id, amount: int, currency: string): seq<Call> {
    [Call(OpCreateProduct(0, 1000, 5000), false),
     Call(OpAddToCart(1, 0, 0, 1000), false),
     Call(OpCreatePayment(payer, amount, "R", None, currency), false),
     Call(OpCheckout(1, 0, 0, "R"), false),
     Call(OpSettle(0), false)]
  }

  function OnSale(): Db {
    EmptyDb.(products := [Product(0, 1000, 5000)], history := [Set(0, 5000)])
  }

  function InCart(): Db {
    OnSale().(carts := [Cart(1, 0, Active, [Line(0, 1000)], map[0 := 1000])])
  }

  function Registered(payer: Id, amount: int, currency: string): Db {
    InCart().(payments := [Payment(payer, None, "R", amount, currency, Pay.Pending)])
  }

  function Ordered(payer: Id, amount: int, currency: string): Db {
    Registered(payer, amount, currency).(
      products := [Product(0, 1000, 4000)], history := [Set(0, 5000), Took(0, 1000)],
      carts := [Cart(1, 0, CheckedOut, [Line(0, 1000)], map[0 := 1000])],
      orders := [Order(1, 0, 0, AwaitingPayment, "LSL", [OrderLine(0, 1000, 1000, 1000)], 1000, 0, 1000)])
  }

  lemma PutsInCart()
    ensures Commit(OnSale(), Call(OpAddToCart(1, 0, 0, 1000), false)) == InCart()
  {
    assert OnSale().carts == [] && FindCart([], 1, 0, Active).None? && FindLine([], 0).None?;
    var empty := Cart(1, 0, Active, [], map[]);
    assert WithCart([], 1, 0) == [empty] && CartOf([], 1, 0) == 0;
    assert PutLine([], 0, 1000) == [Line(0, 1000)];
    assert [empty][0 := PutInCart(empty, 0, 1000, 1000)] == InCart().carts;
  }

  lemma Registers(payer: Id, amount: int, currency: string)
    requires amount >= 0
    ensures Commit(InCart(), Call(OpCreatePayment(payer, amount, "R", None, currency), false)) == Registered(payer, amount, currency)
  {
    assert FindReference([], "R").None?;
  }

  lemma Orders(payer: Id, amount: int, currency: string)
    ensures Commit(Registered(payer, amount, currency), Call(OpCheckout(1, 0, 0, "R"), false)) == Ordered(payer, amount, currency)
  {
    var db := Registered(payer, amount, currency);
    var lines := [Line(0, 1000)];
    assert FindCart(db.carts, 1, 0, CheckedOut).None?;
    assert FindReference(db.payments, "R") == Some(0);
    assert Priced(db.products, lines) == [OrderLine(0, 1000, 1000, 1000)];
    OneLineSum(OrderLine(0, 1000, 1000, 1000));
    assert TakeStock(db.products, lines) == [Product(0, 1000, 4000)] by {
      assert lines[1..] == [];
      assert db.products[0 := Product(0, 1000, 4000)] == [Product(0, 1000, 4000)];
    }
    assert TookEvents(lines) == [Took(0, 1000)];
    assert db.carts[0 := db.carts[0].(status := CheckedOut)] == Ordered(payer, amount, currency).carts;
  }

  ghost predicate PaidBy(db: Db, payer: Id, amount: int, currency: string) {
    && |db.orders| == 1 && db.orders[0].status == Paid
    && db.orders[0].user == 1 && db.orders[0].total == 1000 && db.orders[0].currency == "LSL"
    && db.entries == map[EntryKey(Buyer(payer, currency), "R", true) := amount]
  }

  lemma Settles(payer: Id, amount: int, currency: string)
    requires amount > 0
    ensures PaidBy(Commit(Ordered(payer, amount, currency), Call(OpSettle(0), false)), payer, amount, currency)
  {
    assert FindOrder(Ordered(payer, amount, currency).orders, 0) == Some(0);
  }

  lemma OneLineSum(line: OrderLine)
    ensures Sum([line]) == line.total
  {
    assert [line][..0] == [];
  }

  /** Without a fresh reference the debit is whatever was registered: an order of 1000 cents is
      paid in full by any payment under its reference, of any user, amount and currency. */
  lemma TakenReferencePays(payer: Id, amount: int, currency: string)
    requires amount > 0
    ensures PaidBy(Run(EmptyDb, TakenReference(payer, amount, currency)), payer, amount, currency)
  {
    PutsInCart();
    Registers(payer, amount, currency);
    Orders(payer, amount, currency);
    Settles(payer, amount, currency);
    var calls := TakenReference(payer, amount, currency);
    assert Commit(EmptyDb, calls[0]) == OnSale();
    FiveCalls(EmptyDb, calls);
  }

  /** Somebody else's one cent pays the order, or the buyer's own payment in another currency. */
  lemma TakenReferenceUndercharges()
    ensures PaidBy(Run(EmptyDb, TakenReference(2, 1, "LSL")), 2, 1, "LSL")
    ensures PaidBy(Run(EmptyDb, TakenReference(1, 1000, "ZAR")), 1, 1000, "ZAR")
  {
    TakenReferencePays(2, 1, "LSL");
    TakenReferencePays(1, 1000, "ZAR");
  }

  lemma FiveCalls(db: Db, calls: seq<Call>)
    requires |calls| == 5
    ensures Run(db, calls) == Commit(Commit(Commit(Commit(Commit(db, calls[0]), calls[1]), calls[2]), calls[3]), calls[4])
  {
    assert calls[1..][1..] == calls[2..] && calls[2..][1..] == calls[3..] && calls[3..][1..] == calls[4..] && calls[4..][1..] == [];
    var db2 := Commit(Commit(db, calls[0]), calls[1]);
    var db4 := Commit(Commit(db2, calls[2]), calls[3]);
    assert Run(db, calls) == Run(Commit(db, calls[0]), calls[1..]) == Run(db2, calls[2..]);
    assert Run(db2, calls[2..]) == Run(Commit(db2, calls[2]), calls[3..]) == Run(db4, calls[4..]);
    assert Run(db4, calls[4..]) == Run(Commit(db4, calls[4]), []) == Commit(db4, calls[4]);
  }

  // ----- provider credits -----

  ghost function CreditKeys(db: Db, reference: string): set<EntryKey> {
    set key | key in db.entries && !key.debit && key.reference == reference
  }

  lemma CreditsUnderReference(db: Db, i: Id)
    requires MoneyInv(db) && i < |db.payments|
    ensures forall key :: key in CreditKeys(db, db.payments[i].reference) ==>
              && AcceptedProvider(db.market, db.payments[i].request).Some?
              && key == SellerKey(db.payments[i], AcceptedProvider(db.market, db.payments[i].request).value)
              && db.entries[key] == db.payments[i].amount
  {
    forall key | key in CreditKeys(db, db.payments[i].reference)
      ensures && AcceptedProvider(db.market, db.payments[i].request).Some?
              && key == SellerKey(db.payments[i], AcceptedProvider(db.market, db.payments[i].request).value)
              && db.entries[key] == db.payments[i].amount
    {
      assert EntryOk(db.market, db.payments, key, db.entries[key]);
      var j: Id :| CreditOf(db.market, db.payments, j, key, db.entries[key]);
      assert i == j;
    }
  }

  lemma AtMostOne(keys: set<EntryKey>, only: EntryKey)
    requires forall key :: key in keys ==> key == only
    ensures |keys| <= 1
  {
    if keys != {} { assert keys == {only}; }
  }

  /** However often webhooks rewind a payment and it is settled again, at any time and at any
      later time the credits under its reference are at most one entry, of the payment's
      amount, to the provider its request accepted; the earning recorded for it says the same. */
  lemma ProviderIsCreditedOnce(db: Db, calls: seq<Call>, i: Id)
    requires Reachable(db) && i < |db.payments|
    ensures var later := Run(db, calls); var p := db.payments[i];
            && |CreditKeys(later, p.reference)| <= 1
            && CreditKeys(db, p.reference) <= CreditKeys(later, p.reference)
            && (forall key :: key in CreditKeys(later, p.reference) ==>
                  && later.entries[key] == p.amount
                  && AcceptedProvider(later.market, p.request).Some?
                  && key.account == Seller(AcceptedProvider(later.market, p.request).value, p.currency))
            && (p.reference in later.earnings ==>
                  && AcceptedProvider(later.market, p.request) == Some(later.earnings[p.reference].provider)
                  && later.earnings[p.reference].amount == p.amount)
            && (p.reference in db.earnings ==>
                  p.reference in later.earnings && later.earnings[p.reference] == db.earnings[p.reference])
  {
    ReachableIsInOrder(db);
    RunKeepsMoney(db, calls);
    var later := Run(db, calls);
    var p := db.payments[i];
    assert PaymentEvolves(p, later.payments[i]);
    CreditsUnderReference(later, i);
    var provider := AcceptedProvider(later.market, p.request);
    AtMostOne(CreditKeys(later, p.reference), SellerKey(p, if provider.Some? then provider.value else 0));
    if p.reference in later.earnings {
      var j: Id :| EarningOf(later.market, later.payments, j, p.reference, later.earnings[p.reference]);
      assert i == j;
    }
  }

  lemma SettleWrites(db: Db, pid: Id)
    requires Settle(db, pid).error.None? && db.payments[pid].status != Pay.Paid
    ensures var p := db.payments[pid];
            var after := Settle(db, pid).db;
            var provider := AcceptedProvider(db.market, p.request);
            && after.market == db.market && after.payments == db.payments[pid := p.(status := Pay.Paid)]
            && after.orders == MarkOrderPaid(db.orders, pid)
            && BuyerKey(p) in after.entries
            && (provider.Some? ==> SellerKey(p, provider.value) in after.entries && p.reference in after.earnings)
            && (forall key :: key in db.entries ==> key in after.entries && after.entries[key] == db.entries[key])
  {
  }

  /** What settling a payment that was not yet paid leaves posted, first time or after a rewind:
      the buyer's debit and, when a provider is accepted by then, the provider's credit and
      earning, all of the payment's amount; no earlier entry changes. */
  lemma SettlingPostsEverything(db: Db, pid: Id)
    requires Reachable(db) && Settle(db, pid).error.None? && db.payments[pid].status != Pay.Paid
    ensures var p := db.payments[pid];
            var after := Settle(db, pid).db;
            var provider := AcceptedProvider(db.market, p.request);
            && after.payments == db.payments[pid := p.(status := Pay.Paid)]
            && BuyerKey(p) in after.entries && after.entries[BuyerKey(p)] == p.amount
            && (provider.Some? ==>
                  && SellerKey(p, provider.value) in after.entries && after.entries[SellerKey(p, provider.value)] == p.amount
                  && p.reference in after.earnings
                  && after.earnings[p.reference].provider == provider.value && after.earnings[p.reference].amount == p.amount)
            && (forall key :: key in db.entries ==> key in after.entries && after.entries[key] == db.entries[key])
  {
    SettleWrites(db, pid);
    PostedInFull(db, pid);
  }

  lemma PostedInFull(db: Db, pid: Id)
    requires Reachable(db) && Settle(db, pid).error.None? && db.payments[pid].status != Pay.Paid
    ensures var p := db.payments[pid];
            var after := Settle(db, pid).db;
            && (BuyerKey(p) in after.entries ==> after.entries[BuyerKey(p)] == p.amount)
            && (forall s :: SellerKey(p, s) in after.entries ==> after.entries[SellerKey(p, s)] == p.amount)
            && (p.reference in after.earnings ==>
                  && AcceptedProvider(db.market, p.request) == Some(after.earnings[p.reference].provider)
                  && after.earnings[p.reference].amount == p.amount)
  {
    SettleWrites(db, pid);
    ReachableIsInOrder(db);
    SettleKeeps(db, pid);
    var after := Settle(db, pid).db;
    var p := db.payments[pid];
    DebitsUnderReference(after, pid);
    CreditsUnderReference(after, pid);
    forall s | SellerKey(p, s) in after.entries ensures after.entries[SellerKey(p, s)] == p.amount {
      assert SellerKey(p, s) in CreditKeys(after, p.reference);
    }
    if p.reference in after.earnings {
      var j: Id :| EarningOf(after.market, after.payments, j, p.reference, after.earnings[p.reference]);
      assert j == pid;
    }
  }

  /** The order behind a settled payment no longer awaits payment, and no other order moves. */
  lemma SettlingMarksTheOrder(db: Db, pid: Id, oid: Id)
    requires Reachable(db) && Settle(db, pid).error.None? && db.payments[pid].status != Pay.Paid && oid < |db.orders|
    ensures var after := Settle(db, pid).db;
            && |after.orders| == |db.orders|
            && after.orders[oid] == if db.orders[oid].payment == pid && db.orders[oid].status == AwaitingPayment
                                    then db.orders[oid].(status := Paid) else db.orders[oid]
  {
    ReachableIsInOrder(db);
    SettleWrites(db, pid);
    var found := FindOrder(db.orders, pid);
    if found.Some? && found.value != oid {
      assert db.orders[oid].payment != pid;
    }
  }

  /** Settling again after a rewind posts nothing twice: entries and earnings that exist stay. */
  lemma ResettlingPostsNothingNew(db: Db, pid: Id)
    requires Reachable(db) && pid < |db.payments| && BuyerKey(db.payments[pid]) in db.entries
    requires var p := db.payments[pid]; var provider := AcceptedProvider(db.market, p.request);
             provider.Some? ==> SellerKey(p, provider.value) in db.entries && p.reference in db.earnings
    ensures Settle(db, pid).db.entries == db.entries && Settle(db, pid).db.earnings == db.earnings
  {
  }

  // ----- orders elsewhere -----

  /** The order machine. An order goes out only in the call that makes it ready: nothing takes
      the state table's edge from ready. */
  predicate IsOrderEdge(a: OrderStatus, b: OrderStatus) {
    a == b || match a
              case AwaitingPayment => b in {Paid, Cancelled}
              case Paid => b in {Preparing, Cancelled}
              case Preparing => b in {Ready, OutForDelivery, Cancelled}
              case Ready => b in {Fulfilled, Cancelled}
              case OutForDelivery => b in {Fulfilled, Cancelled}
              case _ => false
  }

  ghost predicate OrdersFollow(db: Db, op: Op, after: Db) {
    |db.orders| <= |after.orders| &&
    forall i :: 0 <= i < |db.orders| ==>
      && after.orders[i] == db.orders[i].(status := after.orders[i].status)
      && IsOrderEdge(db.orders[i].status, after.orders[i].status)
      && (db.orders[i].status == AwaitingPayment && after.orders[i].status == Paid ==>
           op.OpSettle? && op.pid == db.orders[i].payment && op.pid < |after.payments| && after.payments[op.pid].status == Pay.Paid)
      && (db.orders[i].status == AwaitingPayment && after.orders[i].status == Cancelled ==>
           op.OpCancelOrder? && op.user == db.orders[i].user)
      && (after.orders[i].status !in {db.orders[i].status, Paid} && db.orders[i].status != AwaitingPayment ==>
           op.OpMerchant? && op.merchant == db.orders[i].merchant)
  }

  lemma SettleMoves(db: Db, pid: Id)
    ensures var r := Settle(db, pid);
            && (r.db.orders == db.orders || (pid < |db.payments| && r.db.orders == MarkOrderPaid(db.orders, pid)))
            && (r.db != db ==> r.db.payments == db.payments[pid := db.payments[pid].(status := Pay.Paid)])
  {
  }

  lemma SettleFollows(db: Db, pid: Id)
    ensures OrdersFollow(db, OpSettle(pid), Settle(db, pid).db)
  {
    SettleMoves(db, pid);
  }

  lemma MerchantFollows(db: Db, op: Op)
    requires op.OpMerchant?
    ensures OrdersFollow(db, op, Execute(db, op).db)
  {
  }

  lemma CheckoutFollows(db: Db, op: Op)
    requires op.OpCheckout?
    ensures OrdersFollow(db, op, Execute(db, op).db)
  {
  }

  lemma CancelFollows(db: Db, op: Op)
    requires op.OpCancelOrder?
    ensures OrdersFollow(db, op, Execute(db, op).db)
  {
  }

  lemma OthersKeepOrders(db: Db, op: Op)
    requires !op.OpSettle? && !op.OpMerchant? && !op.OpCheckout? && !op.OpCancelOrder?
    ensures Execute(db, op).db.orders == db.orders
  {
  }

  lemma OperationFollows(db: Db, op: Op)
    ensures OrdersFollow(db, op, Execute(db, op).db)
  {
    match op
    case OpSettle(pid) => SettleFollows(db, pid);
    case OpMerchant(_, _, _, _, _, _) => MerchantFollows(db, op);
    case OpCheckout(_, _, _, _) => CheckoutFollows(db, op);
    case OpCancelOrder(_, _) => CancelFollows(db, op);
    case _ => OthersKeepOrders(db, op);
  }

  /** Whoever writes, an order keeps everything but its status, and that moves only along its
      machine: only settling its own payment makes it paid, whatever webhooks and captures do,
      only its customer cancels it before, and only its merchant moves it afterwards. */
  lemma OrdersFollowTheirMachine(db: Db, call: Call)
    ensures OrdersFollow(db, call.op, Commit(db, call))
  {
    OperationFollows(db, call.op);
  }

  /** An order out for delivery has its delivery job. */
  lemma OutForDeliveryHasAJob(db: Db, oid: Id)
    requires Reachable(db) && oid < |db.orders| && db.orders[oid].status == OutForDelivery
    ensures M.HasJob(db.market.jobs, oid)
  {
    ReachableIsInOrder(db);
    assert JobSent(db, oid);
  }

  // ----- the cart index -----

  predicate HasCheckedOut(db: Db, user: Id, merchant: Id) {
    FindCart(db.carts, user, merchant, CheckedOut).Some?
  }

  /** The call is a checkout by that user at that merchant, and it succeeds. */
  predicate ChecksOut(db: Db, call: Call, user: Id, merchant: Id) {
    && call.op.OpCheckout? && call.op.user == user && Execute(db, call.op).error.None?
    && call.op.cid < |db.carts| && db.carts[call.op.cid].merchant == merchant
  }

  /** Some call of the run is. */
  predicate CheckedOutDuring(db: Db, calls: seq<Call>, user: Id, merchant: Id)
    decreases |calls|
  {
    calls != [] && (ChecksOut(db, calls[0], user, merchant) || CheckedOutDuring(Commit(db, calls[0]), calls[1..], user, merchant))
  }

  lemma SameCartsSameIndex(a: Db, b: Db, user: Id, merchant: Id)
    requires |a.carts| <= |b.carts|
    requires forall i :: 0 <= i < |a.carts| ==>
      a.carts[i].user == b.carts[i].user && a.carts[i].merchant == b.carts[i].merchant && a.carts[i].status == b.carts[i].status
    requires forall i :: |a.carts| <= i < |b.carts| ==> b.carts[i].status == Active
    ensures HasCheckedOut(a, user, merchant) <==> HasCheckedOut(b, user, merchant)
  {
    var found := FindCart(a.carts, user, merchant, CheckedOut);
    if found.Some? { assert b.carts[found.value].status == CheckedOut; }
  }

  lemma AddingKeepsIndex(db: Db, editor: Id, shop: Id, pid: Id, quantity: int, user: Id, merchant: Id)
    ensures HasCheckedOut(AddToCart(db, editor, shop, pid, quantity).db, user, merchant) <==> HasCheckedOut(db, user, merchant)
  {
    SameCartsSameIndex(db, AddToCart(db, editor, shop, pid, quantity).db, user, merchant);
  }

  lemma UpdatingKeepsIndex(db: Db, editor: Id, cid: Id, pid: Id, quantity: int, user: Id, merchant: Id)
    ensures HasCheckedOut(UpdateCartItem(db, editor, cid, pid, quantity).db, user, merchant) <==> HasCheckedOut(db, user, merchant)
  {
    SameCartsSameIndex(db, UpdateCartItem(db, editor, cid, pid, quantity).db, user, merchant);
  }

  lemma OthersKeepCarts(db: Db, op: Op)
    requires !op.OpAddToCart? && !op.OpUpdateCartItem? && !op.OpCheckout?
    ensures Execute(db, op).db.carts == db.carts
  {
  }

  lemma CheckoutEntersIndex(db: Db, call: Call, user: Id, merchant: Id)
    requires call.op.OpCheckout?
    ensures HasCheckedOut(Commit(db, call), user, merchant) <==> HasCheckedOut(db, user, merchant) || ChecksOut(db, call, user, merchant)
  {
    var after := Commit(db, call);
    if Execute(db, call.op).error.None? {
      var cid := call.op.cid;
      assert after.carts == db.carts[cid := db.carts[cid].(status := CheckedOut)];
      var found := FindCart(db.carts, user, merchant, CheckedOut);
      if found.Some? { assert after.carts[found.value] == db.carts[found.value]; }
      assert after.carts[cid].status == CheckedOut;
    }
  }

  lemma OneCallAndTheIndex(db: Db, call: Call, user: Id, merchant: Id)
    ensures HasCheckedOut(Commit(db, call), user, merchant) <==> HasCheckedOut(db, user, merchant) || ChecksOut(db, call, user, merchant)
  {
    match call.op
    case OpCheckout(_, _, _, _) => CheckoutEntersIndex(db, call, user, merchant);
    case OpAddToCart(editor, shop, pid, quantity) => AddingKeepsIndex(db, editor, shop, pid, quantity, user, merchant);
    case OpUpdateCartItem(editor, cid, pid, quantity) => UpdatingKeepsIndex(db, editor, cid, pid, quantity, user, merchant);
    case _ => OthersKeepCarts(db, call.op);
  }

  lemma {:induction false} IndexRemembers(db: Db, calls: seq<Call>, user: Id, merchant: Id)
    ensures HasCheckedOut(Run(db, calls), user, merchant)
            <==> HasCheckedOut(db, user, merchant) || CheckedOutDuring(db, calls, user, merchant)
    decreases |calls|
  {
    if calls != [] {
      OneCallAndTheIndex(db, calls[0], user, merchant);
      IndexRemembers(Commit(db, calls[0]), calls[1..], user, merchant);
    }
  }

  /** The checkout would go through but for the cart index. */
  predicate PassesOtherChecks(db: Db, user: Id, cid: Id, milliFee: int, reference: string) {
    && cid < |db.carts| && db.carts[cid].user == user && db.carts[cid].status == Active && db.carts[cid].lines != []
    && KnownProducts(db.products, db.carts[cid].lines) && Stocked(db.products, db.carts[cid].lines)
    && HalfUp(milliFee, 1000) >= 0 && Sum(Priced(db.products, db.carts[cid].lines)) + HalfUp(milliFee, 1000) >= 0
    && FindOrder(db.orders, PaymentOf(db.payments, reference)).None?
  }

  /** The unique index on (user, merchant, status) lets a user check out only once at a
      merchant: it refuses a checkout exactly when an earlier one by the same user at the same
      merchant succeeded, however long ago. */
  lemma OneCheckoutPerMerchant(calls: seq<Call>, user: Id, cid: Id, milliFee: int, reference: string)
    requires PassesOtherChecks(Run(EmptyDb, calls), user, cid, milliFee, reference)
    ensures var db := Run(EmptyDb, calls);
            var r := Checkout(db, user, cid, milliFee, reference);
            && r.error == (if CheckedOutDuring(EmptyDb, calls, user, db.carts[cid].merchant) then Some(UniqueViolation) else None)
            && (r.error.Some? ==> r.db == db)
  {
    IndexRemembers(EmptyDb, calls, user, Run(EmptyDb, calls).carts[cid].merchant);
  }
}
