/** Orders, payments and the wallet ledger over every run, including runs in which provider
    webhooks rewind payments that were already settled. */
module TradeMoney {
  import opened Prelude
  import opened Money
  import opened Trade
  import M = Marketplace
  import Pay = Payments
  import R = MarketplaceRuns

  const PAID_OR_LATER := {Paid, Preparing, Ready, OutForDelivery, Fulfilled}

  // ----- the invariant -----

  ghost predicate ReferencesUnique(payments: seq<Payment>) {
    forall i, j :: 0 <= i < j < |payments| ==> payments[i].reference != payments[j].reference
  }

  /** A debit was posted by the settlement of some payment, for its amount, on its buyer. */
  ghost predicate DebitOf(payments: seq<Payment>, i: Id, key: EntryKey, amount: int) {
    i < |payments| && key == BuyerKey(payments[i]) && amount == payments[i].amount
  }

  /** A credit was posted by the settlement of some payment, for its amount, on the provider
      its request had accepted. */
  ghost predicate CreditOf(market: M.Db, payments: seq<Payment>, i: Id, key: EntryKey, amount: int) {
    && i < |payments| && AcceptedProvider(market, payments[i].request).Some?
    && key == SellerKey(payments[i], AcceptedProvider(market, payments[i].request).value)
    && amount == payments[i].amount
  }

  ghost predicate EarningOf(market: M.Db, payments: seq<Payment>, i: Id, reference: string, e: Earning) {
    && i < |payments| && payments[i].reference == reference
    && AcceptedProvider(market, payments[i].request) == Some(e.provider)
    && payments[i].request == Some(e.request) && e.amount == payments[i].amount
  }

  ghost predicate EntryOk(market: M.Db, payments: seq<Payment>, key: EntryKey, amount: int) {
    if key.debit then exists i: Id :: DebitOf(payments, i, key, amount)
    else exists i: Id :: CreditOf(market, payments, i, key, amount)
  }

  ghost predicate OrderOk(db: Db, o: Order) {
    && o.payment < |db.payments| && o.currency == "LSL"
    && o.total == o.subtotal + o.fee && o.subtotal == Sum(o.lines)
    && (forall k :: 0 <= k < |o.lines| ==> o.lines[k].total == HalfUp(o.lines[k].quantity * o.lines[k].unitPrice, 1000))
    && (o.status in PAID_OR_LATER ==> BuyerKey(db.payments[o.payment]) in db.entries)
  }

  ghost predicate PaymentsDistinct(orders: seq<Order>) {
    forall i, j :: 0 <= i < j < |orders| ==> orders[i].payment != orders[j].payment
  }

  ghost predicate JobSent(db: Db, oid: Id)
    requires oid < |db.orders|
  {
    db.orders[oid].status == OutForDelivery ==> M.HasJob(db.market.jobs, oid)
  }

  ghost predicate MoneyInv(db: Db) {
    && R.Inv(db.market)
    && ReferencesUnique(db.payments)
    && (forall key :: key in db.entries ==> EntryOk(db.market, db.payments, key, db.entries[key]))
    && (forall reference :: reference in db.earnings ==>
          exists i: Id :: EarningOf(db.market, db.payments, i, reference, db.earnings[reference]))
    && (forall i :: 0 <= i < |db.orders| ==> OrderOk(db, db.orders[i]))
    && PaymentsDistinct(db.orders)
    && (forall i: Id :: i < |db.orders| ==> JobSent(db, i))
  }

  // ----- what never changes -----

  ghost predicate PaymentEvolves(a: Payment, b: Payment) {
    b == a.(status := b.status)
  }

  ghost predicate OrderEvolves(a: Order, b: Order) {
    && b == a.(status := b.status)
    && (a.status in {Fulfilled, Cancelled} ==> a == b)
    && (a.status in PAID_OR_LATER ==> b.status in PAID_OR_LATER + {Cancelled})
  }

  ghost predicate CartEvolves(a: Cart, b: Cart) {
    && a.user == b.user && a.merchant == b.merchant
    && (a.status == CheckedOut ==> a == b)
  }

  ghost predicate TradeEvolves(a: Db, b: Db) {
    && R.Evolves(a.market, b.market)
    && |a.payments| <= |b.payments| && (forall i :: 0 <= i < |a.payments| ==> PaymentEvolves(a.payments[i], b.payments[i]))
    && |a.orders| <= |b.orders| && (forall i :: 0 <= i < |a.orders| ==> OrderEvolves(a.orders[i], b.orders[i]))
    && |a.carts| <= |b.carts| && (forall i :: 0 <= i < |a.carts| ==> CartEvolves(a.carts[i], b.carts[i]))
    && (forall key :: key in a.entries ==> key in b.entries && b.entries[key] == a.entries[key])
    && (forall reference :: reference in a.earnings ==>
          reference in b.earnings && b.earnings[reference] == a.earnings[reference])
  }

  lemma TradeEvolvesTransitively(a: Db, b: Db, c: Db)
    requires TradeEvolves(a, b) && TradeEvolves(b, c)
    ensures TradeEvolves(a, c)
  {
    R.EvolvesTransitively(a.market, b.market, c.market);
    forall i | 0 <= i < |a.payments| ensures PaymentEvolves(a.payments[i], c.payments[i]) {
      assert PaymentEvolves(a.payments[i], b.payments[i]) && PaymentEvolves(b.payments[i], c.payments[i]);
    }
    forall i | 0 <= i < |a.orders| ensures OrderEvolves(a.orders[i], c.orders[i]) {
      assert OrderEvolves(a.orders[i], b.orders[i]) && OrderEvolves(b.orders[i], c.orders[i]);
    }
    forall i | 0 <= i < |a.carts| ensures CartEvolves(a.carts[i], c.carts[i]) {
      assert CartEvolves(a.carts[i], b.carts[i]) && CartEvolves(b.carts[i], c.carts[i]);
    }
  }

  lemma SameTrade(db: Db)
    ensures TradeEvolves(db, db)
  {
    R.Same(db.market);
  }

  // ----- moving the market or the payments underneath the ledger -----

  /** The accepted provider of a payment's request is recorded at most once and then fixed. */
  lemma ProviderStays(a: M.Db, b: M.Db, request: Option<Id>)
    requires R.Evolves(a, b) && AcceptedProvider(a, request).Some?
    ensures AcceptedProvider(b, request) == AcceptedProvider(a, request)
  {
    assert R.RequestEvolves(a.requests[request.value], b.requests[request.value]);
  }

  /** Ledger rows stay explained when the market moves on and payments only change status. */
  lemma LedgerStaysExplained(db: Db, market: M.Db, payments: seq<Payment>)
    requires MoneyInv(db) && R.Inv(market) && R.Evolves(db.market, market)
    requires |db.payments| <= |payments| && forall i :: 0 <= i < |db.payments| ==> PaymentEvolves(db.payments[i], payments[i])
    ensures forall key :: key in db.entries ==> EntryOk(market, payments, key, db.entries[key])
    ensures forall reference :: reference in db.earnings ==>
              exists i: Id :: EarningOf(market, payments, i, reference, db.earnings[reference])
  {
    forall key | key in db.entries ensures EntryOk(market, payments, key, db.entries[key]) {
      assert EntryOk(db.market, db.payments, key, db.entries[key]);
      if key.debit {
        var i: Id :| DebitOf(db.payments, i, key, db.entries[key]);
        assert PaymentEvolves(db.payments[i], payments[i]);
        assert DebitOf(payments, i, key, db.entries[key]);
      } else {
        var i: Id :| CreditOf(db.market, db.payments, i, key, db.entries[key]);
        assert PaymentEvolves(db.payments[i], payments[i]);
        ProviderStays(db.market, market, db.payments[i].request);
        assert CreditOf(market, payments, i, key, db.entries[key]);
      }
    }
    forall reference | reference in db.earnings
      ensures exists i: Id :: EarningOf(market, payments, i, reference, db.earnings[reference])
    {
      var i: Id :| EarningOf(db.market, db.payments, i, reference, db.earnings[reference]);
      assert PaymentEvolves(db.payments[i], payments[i]);
      ProviderStays(db.market, market, db.payments[i].request);
      assert EarningOf(market, payments, i, reference, db.earnings[reference]);
    }
  }

  lemma MarketMoves(db: Db, market: M.Db)
    requires MoneyInv(db) && R.Inv(market) && R.Evolves(db.market, market)
    ensures MoneyInv(db.(market := market)) && TradeEvolves(db, db.(market := market))
  {
    var db' := db.(market := market);
    LedgerStaysExplained(db, market, db.payments);
    forall i | 0 <= i < |db.orders| ensures OrderOk(db', db.orders[i]) { assert OrderOk(db, db.orders[i]); }
    forall i: Id | i < |db.orders| ensures JobSent(db', i) {
      assert JobSent(db, i);
      JobsStay(db.market, market, i);
    }
  }

  lemma JobsStay(a: M.Db, b: M.Db, order: Id)
    requires R.Evolves(a, b)
    ensures M.HasJob(a.jobs, order) ==> M.HasJob(b.jobs, order)
  {
    if M.HasJob(a.jobs, order) {
      var j :| 0 <= j < |a.jobs| && a.jobs[j].order == order;
      assert R.JobEvolves(a.jobs[j], b.jobs[j]);
    }
  }

  lemma PaymentsMove(db: Db, payments: seq<Payment>)
    requires MoneyInv(db) && ReferencesUnique(payments)
    requires |db.payments| <= |payments| && forall i :: 0 <= i < |db.payments| ==> PaymentEvolves(db.payments[i], payments[i])
    ensures MoneyInv(db.(payments := payments)) && TradeEvolves(db, db.(payments := payments))
  {
    var db' := db.(payments := payments);
    R.Same(db.market);
    LedgerStaysExplained(db, db.market, payments);
    forall i | 0 <= i < |db.orders| ensures OrderOk(db', db.orders[i]) {
      assert OrderOk(db, db.orders[i]);
      assert PaymentEvolves(db.payments[db.orders[i].payment], payments[db.orders[i].payment]);
    }
    forall i: Id | i < |db.orders| ensures JobSent(db', i) { assert JobSent(db, i); }
  }

  lemma PayWithKeeps(db: Db, pid: Id, status: Pay.Status)
    requires MoneyInv(db) && pid < |db.payments|
    ensures MoneyInv(PayWith(db, pid, status)) && TradeEvolves(db, PayWith(db, pid, status))
  {
    PaymentsMove(db, PayWith(db, pid, status).payments);
  }

  lemma NewPaymentKeeps(db: Db, user: Id, amount: int, reference: string, request: Option<Id>, currency: string)
    requires MoneyInv(db)
    ensures var payments := WithPayment(db.payments, user, amount, reference, request, currency);
            MoneyInv(db.(payments := payments)) && TradeEvolves(db, db.(payments := payments))
  {
    PaymentsMove(db, WithPayment(db.payments, user, amount, reference, request, currency));
  }

  /** Carts and stock are no concern of the ledger. */
  lemma ShelvesMove(db: Db, after: Db)
    requires MoneyInv(db)
    requires OnlyShelves(db, after)
    ensures MoneyInv(after) && TradeEvolves(db, after)
  {
    R.Same(db.market);
    OrdersStay(db, after);
  }

  /** One order changes status; once paid for it may only move on or be cancelled. */
  lemma OrderMoves(db: Db, oid: Id, status: OrderStatus)
    requires MoneyInv(db) && oid < |db.orders|
    requires OrderEvolves(db.orders[oid], db.orders[oid].(status := status))
    requires status in PAID_OR_LATER ==> BuyerKey(db.payments[db.orders[oid].payment]) in db.entries
    requires status == OutForDelivery ==> M.HasJob(db.market.jobs, oid)
    ensures MoneyInv(WithOrder(db, oid, status)) && TradeEvolves(db, WithOrder(db, oid, status))
  {
    var after := WithOrder(db, oid, status);
    R.Same(db.market);
    assert OrderOk(db, db.orders[oid]);
    forall i | 0 <= i < |db.orders| ensures OrderOk(after, after.orders[i]) { assert OrderOk(db, db.orders[i]); }
    forall i: Id | i < |db.orders| ensures JobSent(after, i) { assert JobSent(db, i); }
  }

  // ----- settlement -----

  /** Orders stay in order while neither they nor the payments and the market move. */
  lemma OrdersStay(db: Db, after: Db)
    requires MoneyInv(db) && after.market == db.market && after.payments == db.payments && after.orders == db.orders
    requires forall key :: key in db.entries ==> key in after.entries
    ensures forall i :: 0 <= i < |after.orders| ==> OrderOk(after, after.orders[i])
    ensures forall i: Id :: i < |after.orders| ==> JobSent(after, i)
  {
    forall i | 0 <= i < |db.orders| ensures OrderOk(after, db.orders[i]) { assert OrderOk(db, db.orders[i]); }
    forall i: Id | i < |db.orders| ensures JobSent(after, i) { assert JobSent(db, i); }
  }

  /** Posting an explained entry, and possibly an explained earning, keeps the books in order. */
  lemma PostKeeps(db: Db, key: EntryKey, amount: int)
    requires MoneyInv(db) && EntryOk(db.market, db.payments, key, amount)
    ensures var after := db.(entries := Post(db.entries, key, amount)); MoneyInv(after) && TradeEvolves(db, after)
    ensures key in Post(db.entries, key, amount)
  {
    var after := db.(entries := Post(db.entries, key, amount));
    OrdersStay(db, after);
    SameButLedger(db, after);
  }

  lemma SameButLedger(db: Db, after: Db)
    requires after == db.(entries := after.entries, earnings := after.earnings)
    requires forall key :: key in db.entries ==> key in after.entries && after.entries[key] == db.entries[key]
    requires forall reference :: reference in db.earnings ==>
      reference in after.earnings && after.earnings[reference] == db.earnings[reference]
    ensures TradeEvolves(db, after)
  {
    R.Same(db.market);
  }

  lemma EarnKeeps(db: Db, reference: string, i: Id, e: Earning)
    requires MoneyInv(db) && EarningOf(db.market, db.payments, i, reference, e)
    ensures var after := db.(earnings := if reference in db.earnings then db.earnings else db.earnings[reference := e]);
            MoneyInv(after) && TradeEvolves(db, after)
  {
    var after := db.(earnings := if reference in db.earnings then db.earnings else db.earnings[reference := e]);
    OrdersStay(db, after);
    SameButLedger(db, after);
  }

  lemma MarkKeeps(db: Db, pid: Id)
    requires MoneyInv(db) && pid < |db.payments| && BuyerKey(db.payments[pid]) in db.entries
    ensures var after := db.(orders := MarkOrderPaid(db.orders, pid)); MoneyInv(after) && TradeEvolves(db, after)
  {
    SameTrade(db);
    var found := FindOrder(db.orders, pid);
    if found.Some? && db.orders[found.value].status == AwaitingPayment {
      OrderMoves(db, found.value, Paid);
    }
  }

  /** The provider's share: a credit and, the first time, an earning. */
  lemma SellerKeeps(db: Db, pid: Id, provider: Id)
    requires MoneyInv(db) && pid < |db.payments| && AcceptedProvider(db.market, db.payments[pid].request) == Some(provider)
    ensures var p := db.payments[pid];
            var after := db.(entries := Post(db.entries, SellerKey(p, provider), p.amount),
                             earnings := if p.reference in db.earnings then db.earnings
                                         else db.earnings[p.reference := Earning(provider, p.request.value, p.amount)]);
            MoneyInv(after) && TradeEvolves(db, after)
  {
    var p := db.payments[pid];
    assert CreditOf(db.market, db.payments, pid, SellerKey(p, provider), p.amount);
    PostKeeps(db, SellerKey(p, provider), p.amount);
    var credited := db.(entries := Post(db.entries, SellerKey(p, provider), p.amount));
    var e := Earning(provider, p.request.value, p.amount);
    assert EarningOf(credited.market, credited.payments, pid, p.reference, e);
    EarnKeeps(credited, p.reference, pid, e);
    TradeEvolvesTransitively(db, credited,
      credited.(earnings := if p.reference in db.earnings then db.earnings else db.earnings[p.reference := e]));
  }

  /** The buyer's share: the payment is captured and debited. */
  lemma BuyerKeeps(db: Db, pid: Id)
    requires MoneyInv(db) && pid < |db.payments|
    ensures var p := db.payments[pid];
            var paid := PayWith(db, pid, Pay.Paid);
            var after := paid.(entries := Post(paid.entries, BuyerKey(p), p.amount));
            MoneyInv(after) && TradeEvolves(db, after) && BuyerKey(p) in after.entries
  {
    var p := db.payments[pid];
    var paid := PayWith(db, pid, Pay.Paid);
    PayWithKeeps(db, pid, Pay.Paid);
    assert DebitOf(paid.payments, pid, BuyerKey(p), p.amount);
    PostKeeps(paid, BuyerKey(p), p.amount);
    TradeEvolvesTransitively(db, paid, paid.(entries := Post(paid.entries, BuyerKey(p), p.amount)));
  }

  /** Both shares are posted; the order is still to be marked. */
  lemma SharesKeep(db: Db, pid: Id)
    requires MoneyInv(db) && Settle(db, pid).error.None? && db.payments[pid].status != Pay.Paid
    ensures var after := Settle(db, pid).db.(orders := db.orders);
            MoneyInv(after) && TradeEvolves(db, after) && BuyerKey(after.payments[pid]) in after.entries
  {
    var p := db.payments[pid];
    BuyerKeeps(db, pid);
    var paid := PayWith(db, pid, Pay.Paid);
    var db2 := paid.(entries := Post(paid.entries, BuyerKey(p), p.amount));
    var provider := AcceptedProvider(db.market, p.request);
    if provider.Some? {
      SellerKeeps(db2, pid, provider.value);
      TradeEvolvesTransitively(db, db2, Settle(db, pid).db.(orders := db.orders));
    }
  }

  lemma MarkAfter(db: Db, posted: Db, pid: Id)
    requires MoneyInv(posted) && TradeEvolves(db, posted)
    requires pid < |posted.payments| && BuyerKey(posted.payments[pid]) in posted.entries
    ensures var after := posted.(orders := MarkOrderPaid(posted.orders, pid)); MoneyInv(after) && TradeEvolves(db, after)
  {
    MarkKeeps(posted, pid);
    TradeEvolvesTransitively(db, posted, posted.(orders := MarkOrderPaid(posted.orders, pid)));
  }

  lemma SettleKeeps(db: Db, pid: Id)
    requires MoneyInv(db)
    ensures MoneyInv(Settle(db, pid).db) && TradeEvolves(db, Settle(db, pid).db)
  {
    var r := Settle(db, pid);
    if r.db == db {
      SameTrade(db);
    } else if r.error.Some? {
      PayWithKeeps(db, pid, Pay.Paid);
    } else {
      var posted := r.db.(orders := db.orders);
      SharesKeep(db, pid);
      assert r.db == posted.(orders := MarkOrderPaid(posted.orders, pid));
      MarkAfter(db, posted, pid);
    }
  }

  // ----- checkout and orders -----

  /** The order a successful checkout writes, and what else it touches. */
  lemma CheckoutWrites(db: Db, user: Id, cid: Id, milliFee: int, reference: string)
    requires Checkout(db, user, cid, milliFee, reference).error.None?
    ensures var r := Checkout(db, user, cid, milliFee, reference);
            && |r.db.orders| == |db.orders| + 1
            && var o := r.db.orders[|db.orders|];
            && r.db == db.(products := r.db.products, carts := r.db.carts, history := r.db.history,
                           payments := WithPayment(db.payments, user, o.total, reference, None, "LSL"),
                           orders := db.orders + [o])
            && o.payment == PaymentOf(db.payments, reference) && FindOrder(db.orders, o.payment).None?
            && o.user == user && o.status == AwaitingPayment && o.currency == "LSL"
            && o.total == o.subtotal + o.fee && o.subtotal == Sum(o.lines) && o.fee == HalfUp(milliFee, 1000)
            && (forall k :: 0 <= k < |o.lines| ==> o.lines[k].total == HalfUp(o.lines[k].quantity * o.lines[k].unitPrice, 1000))
            && |r.db.carts| == |db.carts| && forall i :: 0 <= i < |db.carts| ==> CartEvolves(db.carts[i], r.db.carts[i])
  {
  }

  lemma CheckoutKeepsMoney(db: Db, user: Id, cid: Id, milliFee: int, reference: string)
    requires MoneyInv(db) && Checkout(db, user, cid, milliFee, reference).error.None?
    ensures MoneyInv(Checkout(db, user, cid, milliFee, reference).db)
            && TradeEvolves(db, Checkout(db, user, cid, milliFee, reference).db)
  {
    CheckoutWrites(db, user, cid, milliFee, reference);
    var after := Checkout(db, user, cid, milliFee, reference).db;
    var o := after.orders[|db.orders|];
    NewPaymentKeeps(db, user, o.total, reference, None, "LSL");
    var db1 := db.(payments := after.payments);
    var db2 := db1.(products := after.products, carts := after.carts, history := after.history);
    ShelvesMove(db1, db2);
    TradeEvolvesTransitively(db, db1, db2);
    AppendOrder(db2, o);
    TradeEvolvesTransitively(db, db2, after);
  }

  lemma AppendOrder(db: Db, o: Order)
    requires MoneyInv(db) && OrderOk(db, o) && o.status == AwaitingPayment
    requires FindOrder(db.orders, o.payment).None?
    ensures MoneyInv(db.(orders := db.orders + [o])) && TradeEvolves(db, db.(orders := db.orders + [o]))
  {
    var after := db.(orders := db.orders + [o]);
    R.Same(db.market);
    forall i | 0 <= i < |after.orders| ensures OrderOk(after, after.orders[i]) {
      if i < |db.orders| { assert OrderOk(db, db.orders[i]); }
    }
    forall i: Id | i < |after.orders| ensures JobSent(after, i) {
      if i < |db.orders| { assert JobSent(db, i); }
    }
  }

  lemma SendingOutKeeps(db: Db, oid: Id, ranked: seq<Id>, now: int)
    requires MoneyInv(db) && oid < |db.orders| && OrderOk(db, db.orders[oid])
    requires Ready in OrderSuccessors(db.orders[oid].status)
    requires M.CreateJob(db.market, oid, db.orders[oid].user, ranked, now).error.None?
    ensures var job := M.CreateJob(db.market, oid, db.orders[oid].user, ranked, now);
            var after := WithOrder(db.(market := job.db), oid, OutForDelivery);
            MoneyInv(after) && TradeEvolves(db, after)
  {
    R.CreateJobKeeps(db.market, oid, db.orders[oid].user, ranked, now);
    JobIsThere(db.market, oid, db.orders[oid].user, ranked, now);
    var market := M.CreateJob(db.market, oid, db.orders[oid].user, ranked, now).db;
    MarketMoves(db, market);
    OrderMoves(db.(market := market), oid, OutForDelivery);
    TradeEvolvesTransitively(db, db.(market := market), WithOrder(db.(market := market), oid, OutForDelivery));
  }

  lemma MerchantKeeps(db: Db, merchant: Id, oid: Id, action: Action, deliverable: bool, ranked: seq<Id>, now: int)
    requires MoneyInv(db)
    ensures var r := MerchantTransition(db, merchant, oid, action, deliverable, ranked, now);
            MoneyInv(r.db) && TradeEvolves(db, r.db)
  {
    SameTrade(db);
    if MerchantTransition(db, merchant, oid, action, deliverable, ranked, now).error.None? {
      assert OrderOk(db, db.orders[oid]);
      if TargetOf(action) == Ready && deliverable {
        SendingOutKeeps(db, oid, ranked, now);
      } else {
        OrderMoves(db, oid, TargetOf(action));
      }
    }
  }

  lemma JobIsThere(market: M.Db, oid: Id, user: Id, ranked: seq<Id>, now: int)
    requires M.CreateJob(market, oid, user, ranked, now).error.None?
    ensures M.HasJob(M.CreateJob(market, oid, user, ranked, now).db.jobs, oid)
  {
    if !M.HasJob(market.jobs, oid) {
      assert M.CreateJob(market, oid, user, ranked, now).db.jobs[|market.jobs|].order == oid;
    }
  }

  // ----- every operation, every run -----

  /** Product, cart and counter-sale operations touch only the shelves. */
  ghost predicate OnlyShelves(db: Db, after: Db) {
    && after == db.(products := after.products, carts := after.carts, counterSales := after.counterSales, history := after.history)
    && |db.carts| <= |after.carts| && forall i :: 0 <= i < |db.carts| ==> CartEvolves(db.carts[i], after.carts[i])
  }

  lemma AddingMoves(db: Db, user: Id, merchant: Id, pid: Id, quantity: int)
    ensures OnlyShelves(db, AddToCart(db, user, merchant, pid, quantity).db)
  {
  }

  lemma UpdatingMoves(db: Db, user: Id, cid: Id, pid: Id, quantity: int)
    ensures OnlyShelves(db, UpdateCartItem(db, user, cid, pid, quantity).db)
  {
  }

  lemma CartOpMoves(db: Db, op: Op)
    requires op.OpAddToCart? || op.OpUpdateCartItem?
    ensures OnlyShelves(db, Execute(db, op).db)
  {
    match op
    case OpAddToCart(user, merchant, pid, quantity) =>
      assert Execute(db, op) == AddToCart(db, user, merchant, pid, quantity);
      AddingMoves(db, user, merchant, pid, quantity);
    case OpUpdateCartItem(user, cid, pid, quantity) =>
      assert Execute(db, op) == UpdateCartItem(db, user, cid, pid, quantity);
      UpdatingMoves(db, user, cid, pid, quantity);
  }

  lemma ShelfOpMoves(db: Db, op: Op)
    requires op.OpCreateProduct? || op.OpUpdateStock? || op.OpAddToCart? || op.OpUpdateCartItem? || op.OpCounterSale?
    ensures OnlyShelves(db, Execute(db, op).db)
  {
    if op.OpAddToCart? || op.OpUpdateCartItem? { CartOpMoves(db, op); }
  }

  ghost predicate Keeps(db: Db, op: Op) {
    MoneyInv(Execute(db, op).db) && TradeEvolves(db, Execute(db, op).db)
  }

  lemma ShelfOpKeeps(db: Db, op: Op)
    requires MoneyInv(db)
    requires op.OpCreateProduct? || op.OpUpdateStock? || op.OpAddToCart? || op.OpUpdateCartItem? || op.OpCounterSale?
    ensures Keeps(db, op)
  {
    ShelfOpMoves(db, op);
    ShelvesMove(db, Execute(db, op).db);
  }

  lemma CreatePaymentKeeps(db: Db, user: Id, amount: int, reference: string, request: Option<Id>, currency: string)
    requires MoneyInv(db)
    ensures var after := CreatePayment(db, user, amount, reference, request, currency).db;
            MoneyInv(after) && TradeEvolves(db, after)
  {
    if CreatePayment(db, user, amount, reference, request, currency).error.None? {
      NewPaymentKeeps(db, user, amount, reference, request, currency);
    } else {
      SameTrade(db);
    }
  }

  lemma CreatePaymentOpKeeps(db: Db, op: Op)
    requires MoneyInv(db) && op.OpCreatePayment?
    ensures Keeps(db, op)
  {
    CreatePaymentKeeps(db, op.user, op.amount, op.reference, op.request, op.currency);
  }

  lemma AuthorizeKeeps(db: Db, pid: Id)
    requires MoneyInv(db)
    ensures MoneyInv(Authorize(db, pid).db) && TradeEvolves(db, Authorize(db, pid).db)
  {
    if Authorize(db, pid).error.None? { PayWithKeeps(db, pid, Pay.Authorized); } else { SameTrade(db); }
  }

  lemma CaptureKeeps(db: Db, pid: Id)
    requires MoneyInv(db)
    ensures MoneyInv(Capture(db, pid).db) && TradeEvolves(db, Capture(db, pid).db)
  {
    if Capture(db, pid).error.None? { PayWithKeeps(db, pid, Pay.Paid); } else { SameTrade(db); }
  }

  lemma RewriteKeeps(db: Db, pid: Id, status: Pay.Status)
    requires MoneyInv(db)
    ensures MoneyInv(RewriteStatus(db, pid, status).db) && TradeEvolves(db, RewriteStatus(db, pid, status).db)
  {
    if RewriteStatus(db, pid, status).error.None? { PayWithKeeps(db, pid, status); } else { SameTrade(db); }
  }

  lemma CheckoutOpKeeps(db: Db, op: Op)
    requires MoneyInv(db) && op.OpCheckout?
    ensures Keeps(db, op)
  {
    SameTrade(db);
    if Checkout(db, op.user, op.cid, op.milliFee, op.reference).error.None? {
      CheckoutKeepsMoney(db, op.user, op.cid, op.milliFee, op.reference);
    }
  }

  lemma CancelOrderKeeps(db: Db, user: Id, oid: Id)
    requires MoneyInv(db)
    ensures MoneyInv(CancelOrder(db, user, oid).db) && TradeEvolves(db, CancelOrder(db, user, oid).db)
  {
    if CancelOrder(db, user, oid).error.None? { OrderMoves(db, oid, Cancelled); } else { SameTrade(db); }
  }

  lemma MarketOpKeeps(db: Db, op: Op)
    requires MoneyInv(db) && op.OpMarket?
    ensures Keeps(db, op)
  {
    R.ExecuteKeeps(db.market, op.call.op);
    R.Same(db.market);
    MarketMoves(db, M.Commit(db.market, op.call));
  }

  lemma StatusOpKeeps(db: Db, op: Op)
    requires MoneyInv(db) && (op.OpAuthorize? || op.OpCapture? || op.OpRewrite?)
    ensures Keeps(db, op)
  {
    match op
    case OpAuthorize(pid) =>
      assert Execute(db, op) == Authorize(db, pid);
      AuthorizeKeeps(db, pid);
    case OpCapture(pid) =>
      assert Execute(db, op) == Capture(db, pid);
      CaptureKeeps(db, pid);
    case OpRewrite(pid, status) =>
      assert Execute(db, op) == RewriteStatus(db, pid, status);
      RewriteKeeps(db, pid, status);
  }

  /** Every operation of every writer keeps the books in order and rewrites no ledger row. */
  lemma ExecuteKeepsMoney(db: Db, op: Op)
    requires MoneyInv(db)
    ensures Keeps(db, op)
  {
    match op
    case OpMarket(_) => MarketOpKeeps(db, op);
    case OpCheckout(_, _, _, _) => CheckoutOpKeeps(db, op);
    case OpSettle(pid) => SettleKeeps(db, pid);
    case OpMerchant(merchant, oid, action, deliverable, ranked, now) =>
      MerchantKeeps(db, merchant, oid, action, deliverable, ranked, now);
    case OpCancelOrder(user, oid) => CancelOrderKeeps(db, user, oid);
    case OpCreatePayment(_, _, _, _, _) => CreatePaymentOpKeeps(db, op);
    case OpAuthorize(_) => StatusOpKeeps(db, op);
    case OpCapture(_) => StatusOpKeeps(db, op);
    case OpRewrite(_, _) => StatusOpKeeps(db, op);
    case _ => ShelfOpKeeps(db, op);
  }

  lemma CommitKeepsMoney(db: Db, call: Call)
    requires MoneyInv(db) && Keeps(db, call.op)
    ensures MoneyInv(Commit(db, call)) && TradeEvolves(db, Commit(db, call))
  {
    SameTrade(db);
  }

  lemma {:induction false} RunKeepsMoney(db: Db, calls: seq<Call>)
    requires MoneyInv(db)
    ensures MoneyInv(Run(db, calls)) && TradeEvolves(db, Run(db, calls))
    decreases |calls|
  {
    SameTrade(db);
    if calls != [] {
      ExecuteKeepsMoney(db, calls[0].op);
      CommitKeepsMoney(db, calls[0]);
      var next := Commit(db, calls[0]);
      RunKeepsMoney(next, calls[1..]);
      TradeEvolvesTransitively(db, next, Run(db, calls));
    }
  }

  ghost predicate Reachable(db: Db) {
    exists calls :: db == Run(EmptyDb, calls)
  }

  lemma ReachableIsInOrder(db: Db)
    requires Reachable(db)
    ensures MoneyInv(db)
  {
    var calls :| db == Run(EmptyDb, calls);
    RunKeepsMoney(EmptyDb, calls);
  }
}
