/** Refunds of a captured payment (financial.py): requested against what has not been refunded
    yet, completed later, while webhooks may rewrite the payment's status in between. */
module Refunds {
  import opened Prelude
  import opened Money
  import opened Payments

  datatype Payment = Payment(amount: nat, refunded: int, status: Status)
  datatype RefundStatus = Requested | Processing | Succeeded | Declined | Withdrawn
  datatype Refund = Refund(payment: Id, amount: int, status: RefundStatus)
  datatype Db = Db(payments: seq<Payment>, refunds: seq<Refund>)

  datatype Error = NotFound | NotRefundable | NotCompletable | ExceedsRemaining | ConstraintViolated
  datatype Result = Ok(refund: Id) | Err(error: Error)

  function Request(db: Db, payment: Id, amount: Decimal): (Db, Result) {
    var a := Rounded(amount);
    if payment >= |db.payments| then (db, Err(NotFound))
    else if db.payments[payment].status != Paid then (db, Err(NotRefundable))
    else if a > db.payments[payment].amount - db.payments[payment].refunded then (db, Err(ExceedsRemaining))
    else if a <= 0 then (db, Err(ConstraintViolated))
    else (db.(refunds := db.refunds + [Refund(payment, a, Requested)]), Ok(|db.refunds|))
  }

  function Credited(p: Payment, a: int): Payment {
    p.(refunded := p.refunded + a, status := if p.refunded + a >= p.amount then Refunded else p.status)
  }

  function Complete(db: Db, refund: Id): (Db, Result) {
    if refund >= |db.refunds| then (db, Err(NotFound))
    else if db.refunds[refund].status == Succeeded then (db, Ok(refund))
    else if db.refunds[refund].status != Requested then (db, Err(NotCompletable))
    else
      var r := db.refunds[refund];
      var payments :=
        if r.payment < |db.payments| then db.payments[r.payment := Credited(db.payments[r.payment], r.amount)]
        else db.payments;
      (Db(payments, db.refunds[refund := r.(status := Succeeded)]), Ok(refund))
  }

  class Tables {
    var payments: seq<Payment>
    var refunds: seq<Refund>

    ghost function Contents(): Db
      reads this
    {
      Db(payments, refunds)
    }

    method RequestRefund(payment: Id, amount: Decimal) returns (result: Result)
      modifies this`refunds
      ensures (Contents(), result) == Request(old(Contents()), payment, amount)
    {
      var a := Rounded(amount);
      if payment >= |payments| { return Err(NotFound); }
      if payments[payment].status != Paid { return Err(NotRefundable); }
      var remaining := payments[payment].amount - payments[payment].refunded;
      if a > remaining { return Err(ExceedsRemaining); }
      if a <= 0 { return Err(ConstraintViolated); }
      refunds := refunds + [Refund(payment, a, Requested)];
      result := Ok(|refunds| - 1);
    }

    method CompleteRefund(refund: Id) returns (result: Result)
      modifies this
      ensures (Contents(), result) == Complete(old(Contents()), refund)
    {
      if refund >= |refunds| { return Err(NotFound); }
      var row := refunds[refund];
      if row.status == Succeeded { return Ok(refund); }
      if row.status != Requested { return Err(NotCompletable); }
      refunds := refunds[refund := row.(status := Succeeded)];
      if row.payment < |payments| {
        var p := payments[row.payment];
        var status := if p.refunded + row.amount >= p.amount then Refunded else p.status;
        payments := payments[row.payment := p.(refunded := p.refunded + row.amount, status := status)];
      }
      result := Ok(refund);
    }
  }

  // ----- runs -----

  datatype Op =
    | CreatePayment(total: nat)
    | Rewrite(payment: Id, status: Status)     // capture, webhooks and verification: never to refunded
    | OpRequest(payment: Id, amount: Decimal)
    | OpComplete(refund: Id)

  const EMPTY := Db([], [])

  function Execute(db: Db, op: Op): Db {
    match op
    case CreatePayment(total) => db.(payments := db.payments + [Payment(total, 0, Pending)])
    case Rewrite(p, status) =>
      if p < |db.payments| && status != Refunded then db.(payments := db.payments[p := db.payments[p].(status := status)]) else db
    case OpRequest(payment, amount) => Request(db, payment, amount).0
    case OpComplete(refund) => Complete(db, refund).0
  }

  function Run(db: Db, ops: seq<Op>): Db
    decreases |ops|
  {
    if ops == [] then db else Run(Execute(db, ops[0]), ops[1..])
  }

  /** The sum of the payment's refunds in one status. */
  function Sum(refunds: seq<Refund>, payment: Id, status: RefundStatus): int {
    if refunds == [] then 0
    else
      var r := refunds[|refunds| - 1];
      Sum(refunds[..|refunds| - 1], payment, status) + if r.payment == payment && r.status == status then r.amount else 0
  }

  lemma {:induction false} SumOfUpdate(refunds: seq<Refund>, i: Id, payment: Id)
    requires i < |refunds| && refunds[i].status == Requested
    ensures var after := refunds[i := refunds[i].(status := Succeeded)];
            var a := if refunds[i].payment == payment then refunds[i].amount else 0;
            && Sum(after, payment, Succeeded) == Sum(refunds, payment, Succeeded) + a
            && Sum(after, payment, Requested) == Sum(refunds, payment, Requested) - a
    decreases |refunds|
  {
    var after := refunds[i := refunds[i].(status := Succeeded)];
    var n := |refunds| - 1;
    if i < n {
      SumOfUpdate(refunds[..n], i, payment);
      assert after[..n] == refunds[..n][i := refunds[i].(status := Succeeded)];
    } else {
      assert after[..n] == refunds[..n];
    }
  }

  lemma {:induction false} SumIsNotNegative(refunds: seq<Refund>, payment: Id, status: RefundStatus)
    requires forall i :: 0 <= i < |refunds| ==> refunds[i].amount > 0
    ensures Sum(refunds, payment, status) >= 0
  {
    if refunds != [] { SumIsNotNegative(refunds[..|refunds| - 1], payment, status); }
  }

  ghost predicate PaymentOk(db: Db, p: Id)
    requires p < |db.payments|
  {
    && db.payments[p].refunded == Sum(db.refunds, p, Succeeded)
    && (db.payments[p].status == Refunded ==> db.payments[p].refunded >= db.payments[p].amount)
  }

  ghost predicate Inv(db: Db) {
    && (forall i :: 0 <= i < |db.refunds| ==>
         && db.refunds[i].payment < |db.payments| && db.refunds[i].amount > 0
         && db.refunds[i].status in {Requested, Succeeded})
    && (forall p :: 0 <= p < |db.payments| ==> PaymentOk(db, p))
  }

  /** What will have been paid back once every outstanding refund completes. */
  function Exposure(db: Db, p: Id): int {
    Sum(db.refunds, p, Succeeded) + Sum(db.refunds, p, Requested)
  }

  lemma NothingForNewPayments(refunds: seq<Refund>, p: Id, status: RefundStatus)
    requires forall i :: 0 <= i < |refunds| ==> refunds[i].payment < p
    ensures Sum(refunds, p, status) == 0
  {
  }

  lemma RequestKeeps(db: Db, payment: Id, amount: Decimal)
    requires Inv(db)
    ensures Inv(Request(db, payment, amount).0)
  {
    var after := Request(db, payment, amount).0;
    if after != db { assert after.refunds[..|db.refunds|] == db.refunds; }
    forall p | 0 <= p < |after.payments| ensures PaymentOk(after, p) { assert PaymentOk(db, p); }
  }

  lemma CompleteKeeps(db: Db, refund: Id)
    requires Inv(db)
    ensures Inv(Complete(db, refund).0)
  {
    var after := Complete(db, refund).0;
    forall p | 0 <= p < |after.payments| ensures PaymentOk(after, p) {
      assert PaymentOk(db, p);
      if after != db { SumOfUpdate(db.refunds, refund, p); }
    }
  }

  lemma ExecuteKeeps(db: Db, op: Op)
    requires Inv(db)
    ensures Inv(Execute(db, op))
    ensures |db.payments| <= |Execute(db, op).payments|
    ensures forall p :: 0 <= p < |db.payments| ==> Execute(db, op).payments[p].amount == db.payments[p].amount
  {
    match op
    case OpRequest(payment, amount) => RequestKeeps(db, payment, amount);
    case OpComplete(refund) => CompleteKeeps(db, refund);
    case _ =>
      var after := Execute(db, op);
      NothingForNewPayments(db.refunds, |db.payments|, Succeeded);
      forall p | 0 <= p < |after.payments| ensures PaymentOk(after, p) { if p < |db.payments| { assert PaymentOk(db, p); } }
  }

  lemma {:induction false} RunKeeps(db: Db, ops: seq<Op>)
    requires Inv(db)
    ensures Inv(Run(db, ops)) && |db.payments| <= |Run(db, ops).payments|
    ensures forall p :: 0 <= p < |db.payments| ==> Run(db, ops).payments[p].amount == db.payments[p].amount
    decreases |ops|
  {
    if ops != [] {
      ExecuteKeeps(db, ops[0]);
      RunKeeps(Execute(db, ops[0]), ops[1..]);
    }
  }

  // ----- guarantees -----

  /** After every run the refunded amount is the sum of the payment's completed refunds, and a
      payment is called refunded only when that covers its whole amount. */
  lemma RefundedIsTheSum(ops: seq<Op>, p: Id)
    ensures var db := Run(EMPTY, ops);
            p < |db.payments| ==>
              && db.payments[p].refunded == Sum(db.refunds, p, Succeeded)
              && (db.payments[p].status == Refunded ==> db.payments[p].refunded >= db.payments[p].amount)
  {
    RunKeeps(EMPTY, ops);
    var db := Run(EMPTY, ops);
    if p < |db.payments| { assert PaymentOk(db, p); }
  }

  lemma {:induction false} CompletedStays(db: Db, ops: seq<Op>, refund: Id)
    requires refund < |db.refunds| && db.refunds[refund].status == Succeeded
    ensures refund < |Run(db, ops).refunds| && Run(db, ops).refunds[refund] == db.refunds[refund]
    decreases |ops|
  {
    if ops != [] { CompletedStays(Execute(db, ops[0]), ops[1..], refund); }
  }

  /** Completing a refund a second time, whatever happened since the first, is accepted and
      changes nothing. */
  lemma CompletesOnce(db: Db, refund: Id, more: seq<Op>)
    requires Complete(db, refund).1.Ok?
    ensures var later := Run(Complete(db, refund).0, more);
            Complete(later, refund) == (later, Ok(refund))
  {
    CompletedStays(Complete(db, refund).0, more, refund);
  }

  // ----- when more than the amount can be paid back -----

  ghost predicate OnlyCompletes(ops: seq<Op>) {
    forall i :: 0 <= i < |ops| ==> ops[i].OpComplete?
  }

  /** Completing moves an amount from outstanding to refunded: their total is conserved. */
  lemma {:induction false} CompletingConserves(db: Db, ops: seq<Op>, p: Id)
    requires Inv(db) && OnlyCompletes(ops)
    ensures Exposure(Run(db, ops), p) == Exposure(db, p)
    decreases |ops|
  {
    if ops != [] {
      assert ops[0].OpComplete?;
      ExecuteKeeps(db, ops[0]);
      if ops[0].refund < |db.refunds| && db.refunds[ops[0].refund].status == Requested {
        SumOfUpdate(db.refunds, ops[0].refund, p);
      }
      CompletingConserves(Execute(db, ops[0]), ops[1..], p);
    }
  }

  function Completions(k: nat, n: nat): (ops: seq<Op>)
    ensures OnlyCompletes(ops)
    decreases n - k
  {
    if k >= n then [] else [OpComplete(k)] + Completions(k + 1, n)
  }

  lemma {:induction false} CompletingAll(db: Db, k: nat)
    requires k <= |db.refunds| && forall i :: 0 <= i < |db.refunds| ==> db.refunds[i].status in {Requested, Succeeded}
    requires forall i :: 0 <= i < k ==> db.refunds[i].status == Succeeded
    ensures var after := Run(db, Completions(k, |db.refunds|));
            |after.refunds| == |db.refunds| && forall i :: 0 <= i < |after.refunds| ==> after.refunds[i].status == Succeeded
    decreases |db.refunds| - k
  {
    if k < |db.refunds| {
      CompletingAll(Execute(db, OpComplete(k)), k + 1);
    }
  }

  lemma {:induction false} NothingOutstanding(refunds: seq<Refund>, p: Id)
    requires forall i :: 0 <= i < |refunds| ==> refunds[i].status == Succeeded
    ensures Sum(refunds, p, Requested) == 0
  {
    if refunds != [] { NothingOutstanding(refunds[..|refunds| - 1], p); }
  }

  /** However the outstanding refunds are completed from here on, p is not paid back too much. */
  ghost predicate StaysWithin(db: Db, p: Id) {
    forall ops :: OnlyCompletes(ops) ==> WithinAfter(db, ops, p)
  }

  ghost predicate WithinAfter(db: Db, ops: seq<Op>, p: Id) {
    p < |Run(db, ops).payments| ==> Run(db, ops).payments[p].refunded <= Run(db, ops).payments[p].amount
  }

  lemma RefundedWithinExposure(db: Db, ops: seq<Op>, p: Id)
    requires Inv(db) && OnlyCompletes(ops) && p < |db.payments|
    ensures p < |Run(db, ops).payments| && Run(db, ops).payments[p].refunded <= Exposure(db, p)
    ensures Run(db, ops).payments[p].amount == db.payments[p].amount
  {
    CompletingConserves(db, ops, p);
    RunKeeps(db, ops);
    assert PaymentOk(Run(db, ops), p);
    SumIsNotNegative(Run(db, ops).refunds, p, Requested);
  }

  lemma ExposureIsReached(db: Db, p: Id)
    requires Inv(db) && p < |db.payments|
    ensures var after := Run(db, Completions(0, |db.refunds|));
            p < |after.payments| && after.payments[p].refunded == Exposure(db, p) && after.payments[p].amount == db.payments[p].amount
  {
    var all := Completions(0, |db.refunds|);
    CompletingConserves(db, all, p);
    RunKeeps(db, all);
    CompletingAll(db, 0);
    NothingOutstanding(Run(db, all).refunds, p);
    assert PaymentOk(Run(db, all), p);
  }

  /** The refunds requested so far can be completed, in any order and however many of them,
      without paying back more than the amount exactly when the refunded and outstanding
      amounts together stay within it. */
  lemma OverRefundedWhen(before: seq<Op>, p: Id)
    requires p < |Run(EMPTY, before).payments|
    ensures var db := Run(EMPTY, before); StaysWithin(db, p) <==> Exposure(db, p) <= db.payments[p].amount
  {
    RunKeeps(EMPTY, before);
    var db := Run(EMPTY, before);
    if Exposure(db, p) <= db.payments[p].amount {
      forall ops | OnlyCompletes(ops) ensures WithinAfter(db, ops, p) { RefundedWithinExposure(db, ops, p); }
    } else {
      ExposureIsReached(db, p);
      assert !WithinAfter(db, Completions(0, |db.refunds|), p);
    }
  }

  /** A request is checked against what is not refunded yet, not against what is still
      outstanding: it keeps the amounts together within the payment exactly when it also fits
      in what the outstanding requests leave. */
  lemma RequestFitsWhen(before: seq<Op>, payment: Id, amount: Decimal)
    requires Request(Run(EMPTY, before), payment, amount).1.Ok?
    ensures var db := Run(EMPTY, before);
            var after := Request(db, payment, amount).0;
            && Exposure(after, payment) == Exposure(db, payment) + Rounded(amount)
            && (Exposure(after, payment) <= after.payments[payment].amount
                <==> Rounded(amount) <= db.payments[payment].amount - db.payments[payment].refunded - Sum(db.refunds, payment, Requested))
            && (Sum(db.refunds, payment, Requested) == 0 ==> Exposure(after, payment) <= after.payments[payment].amount)
  {
    RunKeeps(EMPTY, before);
    var db := Run(EMPTY, before);
    assert PaymentOk(db, payment);
    assert (db.refunds + [Refund(payment, Rounded(amount), Requested)])[..|db.refunds|] == db.refunds;
  }

  /** Every accepted request of the run was made with nothing outstanding for its payment. */
  ghost predicate OneAtATime(db: Db, ops: seq<Op>)
    decreases |ops|
  {
    ops == [] ||
    (&& (ops[0].OpRequest? && Execute(db, ops[0]) != db ==> Sum(db.refunds, ops[0].payment, Requested) == 0)
     && OneAtATime(Execute(db, ops[0]), ops[1..]))
  }

  lemma ExposureAfterRequest(db: Db, payment: Id, amount: Decimal, p: Id)
    requires Inv(db) && p < |db.payments|
    requires Request(db, payment, amount).0 != db ==> Sum(db.refunds, payment, Requested) == 0
    requires Exposure(db, p) <= db.payments[p].amount
    ensures Exposure(Request(db, payment, amount).0, p) <= db.payments[p].amount
  {
    if Request(db, payment, amount).0 != db {
      assert PaymentOk(db, payment);
      assert (db.refunds + [Refund(payment, Rounded(amount), Requested)])[..|db.refunds|] == db.refunds;
    }
  }

  lemma ExposureAfter(db: Db, op: Op, p: Id)
    requires Inv(db) && p < |db.payments|
    requires op.OpRequest? && Execute(db, op) != db ==> Sum(db.refunds, op.payment, Requested) == 0
    requires Exposure(db, p) <= db.payments[p].amount
    ensures Exposure(Execute(db, op), p) <= db.payments[p].amount
  {
    if op.OpRequest? { ExposureAfterRequest(db, op.payment, op.amount, p); }
    if op.OpComplete? && op.refund < |db.refunds| && db.refunds[op.refund].status == Requested {
      SumOfUpdate(db.refunds, op.refund, p);
    }
  }

  lemma {:induction false} OneAtATimeStaysWithin(db: Db, ops: seq<Op>)
    requires Inv(db) && OneAtATime(db, ops)
    requires forall p :: 0 <= p < |db.payments| ==> Exposure(db, p) <= db.payments[p].amount
    ensures forall p :: 0 <= p < |Run(db, ops).payments| ==> Exposure(Run(db, ops), p) <= Run(db, ops).payments[p].amount
    decreases |ops|
  {
    if ops != [] {
      var next := Execute(db, ops[0]);
      ExecuteKeeps(db, ops[0]);
      forall p | 0 <= p < |next.payments| ensures Exposure(next, p) <= next.payments[p].amount {
        if p < |db.payments| {
          ExposureAfter(db, ops[0], p);
        } else {
          NothingForNewPayments(db.refunds, p, Succeeded);
          NothingForNewPayments(db.refunds, p, Requested);
        }
      }
      OneAtATimeStaysWithin(next, ops[1..]);
    }
  }

  /** When refunds are requested one at a time, no run pays back more than the amount. */
  lemma RefundsAreBounded(ops: seq<Op>, p: Id)
    requires OneAtATime(EMPTY, ops)
    ensures var db := Run(EMPTY, ops); p < |db.payments| ==> 0 <= db.payments[p].refunded <= db.payments[p].amount
  {
    RunKeeps(EMPTY, ops);
    OneAtATimeStaysWithin(EMPTY, ops);
    var db := Run(EMPTY, ops);
    if p < |db.payments| {
      assert PaymentOk(db, p);
      SumIsNotNegative(db.refunds, p, Succeeded);
      SumIsNotNegative(db.refunds, p, Requested);
    }
  }

  const TWO_FULL_REFUNDS := [
    CreatePayment(1000), Rewrite(0, Paid), OpRequest(0, Ratio(1000, 1)), OpRequest(0, Ratio(1000, 1)),
    OpComplete(0), OpComplete(1)]

  lemma SixOps(db: Db, ops: seq<Op>)
    requires |ops| == 6
    ensures Run(db, ops) == Execute(Execute(Execute(Execute(Execute(Execute(db, ops[0]), ops[1]), ops[2]), ops[3]), ops[4]), ops[5])
  {
    assert ops[1..][1..] == ops[2..] && ops[2..][1..] == ops[3..] && ops[3..][1..] == ops[4..];
    assert ops[4..][1..] == ops[5..] && ops[5..][1..] == [];
    var db2 := Execute(Execute(db, ops[0]), ops[1]);
    assert Run(db, ops) == Run(db2, ops[2..]);
    var db4 := Execute(Execute(db2, ops[2]), ops[3]);
    assert Run(db2, ops[2..]) == Run(db4, ops[4..]);
    assert Run(Execute(db4, ops[4]), ops[5..]) == Run(Execute(Execute(db4, ops[4]), ops[5]), []);
  }

  /** Without that the bound fails: two full refunds requested before either completes are both paid. */
  lemma TwoFullRefunds()
    ensures Run(EMPTY, TWO_FULL_REFUNDS).payments == [Payment(1000, 2000, Refunded)]
  {
    HalfUpExact(1000, 1);
    SixOps(EMPTY, TWO_FULL_REFUNDS);
    var s2 := Execute(Execute(EMPTY, TWO_FULL_REFUNDS[0]), TWO_FULL_REFUNDS[1]);
    assert s2.payments == [Payment(1000, 0, Paid)];
    var r := Refund(0, 1000, Requested);
    var s4 := Execute(Execute(s2, TWO_FULL_REFUNDS[2]), TWO_FULL_REFUNDS[3]);
    assert s4.refunds == [r, r];
  }

  // ----- exactly when -----

  /** A refund is requested exactly on a paid payment, for an amount that rounds to at least a
      cent and to no more than what has not been refunded. It is one new row and nothing else. */
  lemma RequestsWhen(db: Db, payment: Id, amount: Decimal)
    ensures var (after, r) := Request(db, payment, amount);
            && (r.Ok? <==>
                 && payment < |db.payments| && db.payments[payment].status == Paid
                 && 1 <= Rounded(amount) <= db.payments[payment].amount - db.payments[payment].refunded)
            && (if r.Ok? then
                  after == db.(refunds := db.refunds + [Refund(payment, Rounded(amount), Requested)]) && r.refund == |db.refunds|
                else after == db)
  {
  }

  /** A refund completes exactly when it is requested or has completed before; the first time
      its amount is added to what is refunded, and a payment refunded in full is called so. */
  lemma CompletesWhen(db: Db, refund: Id)
    requires Inv(db)
    ensures var (after, r) := Complete(db, refund);
            && (r.Ok? <==> refund < |db.refunds|)
            && (r.Err? || db.refunds[refund].status == Succeeded ==> after == db)
            && (r.Ok? && db.refunds[refund].status == Requested ==>
                 && after.refunds == db.refunds[refund := Refund(db.refunds[refund].payment, db.refunds[refund].amount, Succeeded)]
                 && db.refunds[refund].payment < |db.payments| && |after.payments| == |db.payments|
                 && PaysBack(db.payments[db.refunds[refund].payment], after.payments[db.refunds[refund].payment], db.refunds[refund].amount)
                 && forall p :: 0 <= p < |db.payments| && p != db.refunds[refund].payment ==> after.payments[p] == db.payments[p])
  {
  }

  ghost predicate PaysBack(before: Payment, after: Payment, amount: int) {
    && after.amount == before.amount && after.refunded == before.refunded + amount
    && (after.refunded >= after.amount ==> after.status == Refunded)
    && (after.refunded < after.amount ==> after.status == before.status)
  }
}
