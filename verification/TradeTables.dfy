/** The trade operations as the services perform them, on tables updated in place. Each
    method leaves exactly the rows, and the error, of its specification in Trade.dfy. */
module TradeTables {
  import opened Prelude
  import opened Money
  import opened Trade
  import M = Marketplace
  import Pay = Payments

  /** The first i lines are sold: what is left to take leads to the same shelves, and the
      products still to come are as they were. */
  ghost predicate Selling(was: seq<Product>, now: seq<Product>, lines: seq<Line>, i: nat) {
    && i <= |lines| && KnownProducts(was, lines) && |now| == |was|
    && TakeStock(now, lines[i..]) == TakeStock(was, lines)
    && Stocked(was, lines[..i])
    && forall k :: i <= k < |lines| ==> now[lines[k].product] == was[lines[k].product]
  }

  lemma SellingStep(was: seq<Product>, now: seq<Product>, lines: seq<Line>, i: nat)
    requires Selling(was, now, lines, i) && i < |lines| && DistinctProducts(lines)
    requires lines[i].quantity <= now[lines[i].product].stock
    ensures var p := lines[i].product;
            Selling(was, now[p := now[p].(stock := now[p].stock - lines[i].quantity)], lines, i + 1)
  {
    assert lines[i..][1..] == lines[i + 1..];
  }

  lemma WorthGrows(products: seq<Product>, lines: seq<Line>, i: nat)
    requires KnownProducts(products, lines) && i < |lines|
    ensures Worth(Priced(products, lines[..i + 1]))
            == Worth(Priced(products, lines[..i])) + lines[i].quantity * products[lines[i].product].price
  {
    assert lines[..i + 1][..i] == lines[..i];
    assert Priced(products, lines[..i + 1])[..i] == Priced(products, lines[..i]);
  }

  class Tables {
    var market: M.Db
    var products: seq<Product>
    var carts: seq<Cart>
    var orders: seq<Order>
    var counterSales: seq<Sale>
    var payments: seq<Payment>
    var entries: map<EntryKey, int>
    var earnings: map<string, Earning>
    ghost var history: seq<StockEvent>

    ghost function Rows(): Db
      reads this
    {
      Db(market, products, carts, orders, counterSales, payments, entries, earnings, history)
    }

    method UpdateStock(merchant: Id, pid: Id, quantity: int) returns (error: Option<Error>)
      modifies this
      ensures Reply(Rows(), error) == Trade.UpdateStock(old(Rows()), merchant, pid, quantity)
    {
      if quantity < 0 { return Some(BadQuantity); }
      if pid >= |products| || products[pid].merchant != merchant { return Some(NotFound); }
      products := products[pid := products[pid].(stock := quantity)];
      history := history + [Set(pid, quantity)];
      error := None;
    }

    method GetOrCreateCart(user: Id, merchant: Id) returns (cid: Id)
      modifies this`carts
      ensures carts == WithCart(old(carts), user, merchant) && cid == CartOf(old(carts), user, merchant)
    {
      var found := FindCart(carts, user, merchant, Active);
      if found.Some? { return found.value; }
      cid := |carts|;
      carts := carts + [Cart(user, merchant, Active, [], map[])];
    }

    method AddToCart(user: Id, merchant: Id, pid: Id, quantity: int) returns (error: Option<Error>)
      modifies this
      ensures Reply(Rows(), error) == Trade.AddToCart(old(Rows()), user, merchant, pid, quantity)
    {
      if quantity <= 0 { return Some(BadQuantity); }
      var cid := GetOrCreateCart(user, merchant);
      if pid >= |products| || products[pid].merchant != merchant { return Some(NotFound); }
      var wanted := QuantityOf(carts[cid].lines, pid) + quantity;
      if wanted > products[pid].stock { return Some(OutOfStock); }
      carts := carts[cid := carts[cid].(lines := PutLine(carts[cid].lines, pid, wanted),
                                        prices := carts[cid].prices[pid := products[pid].price])];
      error := None;
    }

    method UpdateCartItem(user: Id, cid: Id, pid: Id, quantity: int) returns (error: Option<Error>)
      modifies this
      ensures Reply(Rows(), error) == Trade.UpdateCartItem(old(Rows()), user, cid, pid, quantity)
    {
      if cid >= |carts| || carts[cid].user != user || carts[cid].status != Active
         || FindLine(carts[cid].lines, pid).None? || pid >= |products| {
        return Some(NotFound);
      }
      if quantity < 0 { return Some(BadQuantity); }
      if quantity == 0 {
        carts := carts[cid := carts[cid].(lines := DropLine(carts[cid].lines, pid), prices := carts[cid].prices - {pid})];
      } else {
        if quantity > products[pid].stock { return Some(OutOfStock); }
        carts := carts[cid := carts[cid].(lines := PutLine(carts[cid].lines, pid, quantity),
                                          prices := carts[cid].prices[pid := products[pid].price])];
      }
      error := None;
    }

    /** The first loop of checkout: every line against the stock, and the subtotal. */
    method CheckLines(lines: seq<Line>) returns (stocked: bool, subtotal: int)
      requires KnownProducts(products, lines)
      ensures stocked == Stocked(products, lines)
      ensures stocked ==> subtotal == Sum(Priced(products, lines))
    {
      subtotal := 0;
      for i := 0 to |lines|
        invariant Stocked(products, lines[..i])
        invariant subtotal == Sum(Priced(products, lines[..i]))
      {
        var p := products[lines[i].product];
        if lines[i].quantity > p.stock { return false, subtotal; }
        subtotal := subtotal + HalfUp(lines[i].quantity * p.price, 1000);
        assert lines[..i + 1][..i] == lines[..i];
        assert Priced(products, lines[..i + 1])[..i] == Priced(products, lines[..i]);
      }
      assert lines[..|lines|] == lines;
      stocked := true;
    }

    /** The second loop: one decrement per line. */
    method DecrementStock(lines: seq<Line>)
      requires KnownProducts(products, lines)
      modifies this`products, this`history
      ensures products == TakeStock(old(products), lines)
      ensures history == old(history) + TookEvents(lines)
    {
      for i := 0 to |lines|
        invariant |products| == |old(products)|
        invariant TakeStock(products, lines[i..]) == TakeStock(old(products), lines)
        invariant history == old(history) + TookEvents(lines[..i])
      {
        var p := lines[i].product;
        assert lines[i..][1..] == lines[i + 1..];
        products := products[p := products[p].(stock := products[p].stock - lines[i].quantity)];
        history := history + [Took(p, lines[i].quantity)];
        assert TookEvents(lines[..i + 1]) == TookEvents(lines[..i]) + [Took(p, lines[i].quantity)];
      }
      assert lines[..|lines|] == lines;
    }

    method GetOrCreatePayment(user: Id, amount: int, reference: string, request: Option<Id>, currency: string) returns (pid: Id)
      modifies this`payments
      ensures payments == WithPayment(old(payments), user, amount, reference, request, currency)
      ensures pid == PaymentOf(old(payments), reference)
    {
      var found := FindReference(payments, reference);
      if found.Some? { return found.value; }
      pid := |payments|;
      payments := payments + [Payment(user, request, reference, amount, currency, Pay.Pending)];
    }

    /** What checkout writes once nothing refuses it. */
    method PlaceOrder(user: Id, cid: Id, subtotal: int, fee: int, reference: string)
      requires cid < |carts| && KnownProducts(products, carts[cid].lines)
      modifies this
      ensures var cart := old(carts)[cid];
              var total := subtotal + fee;
              Rows() == old(Rows()).(
                products := TakeStock(old(products), cart.lines),
                history := old(history) + TookEvents(cart.lines),
                payments := WithPayment(old(payments), user, total, reference, None, "LSL"),
                orders := old(orders) + [Order(user, cart.merchant, PaymentOf(old(payments), reference), AwaitingPayment,
                                               "LSL", Priced(old(products), cart.lines), subtotal, fee, total)],
                carts := old(carts)[cid := cart.(status := CheckedOut)])
    {
      var cart := carts[cid];
      var lines := Priced(products, cart.lines);
      DecrementStock(cart.lines);
      var pid := GetOrCreatePayment(user, subtotal + fee, reference, None, "LSL");
      orders := orders + [Order(user, cart.merchant, pid, AwaitingPayment, "LSL", lines, subtotal, fee, subtotal + fee)];
      carts := carts[cid := cart.(status := CheckedOut)];
    }

    method Checkout(user: Id, cid: Id, milliFee: int, reference: string) returns (error: Option<Error>)
      modifies this
      ensures Reply(Rows(), error) == Trade.Checkout(old(Rows()), user, cid, milliFee, reference)
    {
      if cid >= |carts| || carts[cid].user != user || carts[cid].status != Active { return Some(NotFound); }
      var cart := carts[cid];
      if cart.lines == [] { return Some(EmptyCart); }
      if !KnownProducts(products, cart.lines) { return Some(NotFound); }
      var stocked, subtotal := CheckLines(cart.lines);
      if !stocked { return Some(OutOfStock); }
      var fee := HalfUp(milliFee, 1000);
      var total := subtotal + fee;
      if fee < 0 || total < 0 { return Some(BadAmount); }
      var pid := PaymentOf(payments, reference);
      // Both unique indexes abort the transaction, so nothing of it stays.
      if FindOrder(orders, pid).Some? || FindCart(carts, user, cart.merchant, CheckedOut).Some? { return Some(UniqueViolation); }
      PlaceOrder(user, cid, subtotal, fee, reference);
      error := None;
    }

    /** The loop of pos.create_order interleaves check and decrement, and adds up the total. */
    method SellLines(lines: seq<Line>) returns (sold: bool, worth: int)
      requires KnownProducts(products, lines) && DistinctProducts(lines)
      modifies this`products, this`history
      ensures sold <==> Stocked(old(products), lines)
      ensures sold ==> products == TakeStock(old(products), lines) && history == old(history) + TookEvents(lines)
      ensures sold ==> worth == Worth(Priced(old(products), lines))
    {
      worth := 0;
      ghost var was := products;
      for i := 0 to |lines|
        invariant Selling(was, products, lines, i) && worth == Worth(Priced(was, lines[..i]))
        invariant history == old(history) + TookEvents(lines[..i])
      {
        var p := lines[i].product;
        if products[p].stock < lines[i].quantity { return false, worth; }
        SellingStep(was, products, lines, i);
        WorthGrows(was, lines, i);
        assert TookEvents(lines[..i + 1]) == TookEvents(lines[..i]) + [Took(p, lines[i].quantity)];
        worth := worth + lines[i].quantity * products[p].price;
        history := history + [Took(p, lines[i].quantity)];
        products := products[p := products[p].(stock := products[p].stock - lines[i].quantity)];
      }
      assert lines[..|lines|] == lines;
      sold := true;
    }

    /** A shortage found half-way rolls the earlier decrements back. */
    method CounterSale(merchant: Id, lines: seq<Line>) returns (error: Option<Error>)
      modifies this
      ensures Reply(Rows(), error) == Trade.CounterSale(old(Rows()), merchant, lines)
    {
      if !KnownProducts(products, lines) || !DistinctProducts(lines) { return Some(NotFound); }
      if exists i :: 0 <= i < |lines| && lines[i].quantity <= 0 { return Some(BadQuantity); }
      var before := products;
      ghost var beforeHistory := history;
      var sold, worth := SellLines(lines);
      if !sold {
        products, history := before, beforeHistory;
        return Some(OutOfStock);
      }
      counterSales := counterSales + [Sale(merchant, Priced(before, lines), HalfUp(worth, 1000))];
      error := None;
    }

    method Capture(pid: Id) returns (error: Option<Error>)
      modifies this
      ensures Reply(Rows(), error) == Trade.Capture(old(Rows()), pid)
    {
      if pid >= |payments| || payments[pid].status !in {Pay.Pending, Pay.Authorized} { return Some(BadState); }
      payments := payments[pid := payments[pid].(status := Pay.Paid)];
      error := None;
    }

    method PostEntry(key: EntryKey, amount: int)
      modifies this`entries
      ensures entries == Post(old(entries), key, amount)
    {
      if key !in entries { entries := entries[key := amount]; }
    }

    method MarkOrderPaid(pid: Id)
      modifies this`orders
      ensures orders == Trade.MarkOrderPaid(old(orders), pid)
    {
      var found := FindOrder(orders, pid);
      if found.Some? && orders[found.value].status == AwaitingPayment {
        orders := orders[found.value := orders[found.value].(status := Paid)];
      }
    }

    method Settle(pid: Id) returns (error: Option<Error>)
      modifies this
      ensures Reply(Rows(), error) == Trade.Settle(old(Rows()), pid)
    {
      if pid >= |payments| { return Some(NotFound); }
      var p := payments[pid];
      if p.status == Pay.Paid { return None; }
      if p.status !in {Pay.Pending, Pay.Authorized} { return Some(BadState); }
      error := Capture(pid);
      if p.amount <= 0 { return Some(BadAmount); }
      PostEntry(BuyerKey(p), p.amount);
      if p.request.Some? {
        var accepted := AcceptedProvider(market, p.request);
        if accepted.Some? {
          PostEntry(SellerKey(p, accepted.value), p.amount);
          if p.reference !in earnings {
            earnings := earnings[p.reference := Earning(accepted.value, p.request.value, p.amount)];
          }
        }
      }
      MarkOrderPaid(pid);
    }

    method MerchantTransition(merchant: Id, oid: Id, action: Action, deliverable: bool, ranked: seq<Id>, now: int)
      returns (error: Option<Error>)
      modifies this
      ensures Reply(Rows(), error) == Trade.MerchantTransition(old(Rows()), merchant, oid, action, deliverable, ranked, now)
    {
      if oid >= |orders| || orders[oid].merchant != merchant { return Some(NotFound); }
      var target := TargetOf(action);
      if target !in OrderSuccessors(orders[oid].status) { return Some(BadAction); }
      var before := orders;
      orders := orders[oid := orders[oid].(status := target)];
      if target == Ready && deliverable {
        var job := M.CreateJob(market, oid, orders[oid].user, ranked, now);
        if job.error.Some? {
          orders := before;
          return Some(UniqueViolation);
        }
        market := job.db;
        orders := orders[oid := orders[oid].(status := OutForDelivery)];
      }
      error := None;
    }

    method CancelOrder(user: Id, oid: Id) returns (error: Option<Error>)
      modifies this
      ensures Reply(Rows(), error) == Trade.CancelOrder(old(Rows()), user, oid)
    {
      if oid >= |orders| || orders[oid].user != user || orders[oid].status != AwaitingPayment { return Some(BadState); }
      orders := orders[oid := orders[oid].(status := Cancelled)];
      error := None;
    }
  }
}
