/** Settling captured payments into double-entry journals (settlement.py) and splitting quotes
    (financial.py). Amounts are whole cents; what callers pass may be any fraction of a cent. */
module Settlement {
  import opened Prelude
  import opened Money
  import opened Payments

  // ----- splitting an amount -----

  datatype Split = Split(gross: int, fee: int, earning: int)

  function SplitSettlement(gross: Decimal, fee: Decimal): Option<Split> {
    var g, f := Rounded(gross), Rounded(fee);
    if g <= 0 || f < 0 || f > g then None else Some(Split(g, f, g - f))
  }

  /** A split is exact and within the gross amount, and it exists whenever the rounded fee
      lies between nothing and everything. */
  lemma SplitIsExact(gross: Decimal, fee: Decimal)
    ensures var s := SplitSettlement(gross, fee);
            && (s.Some? <==> 0 < Rounded(gross) && 0 <= Rounded(fee) <= Rounded(gross))
            && (s.Some? ==>
                 && s.value.fee + s.value.earning == s.value.gross
                 && 0 <= s.value.fee <= s.value.gross && 0 <= s.value.earning <= s.value.gross
                 && Nearest(s.value.gross, gross.n, gross.d) && Nearest(s.value.fee, fee.n, fee.d))
  {
    HalfUpIsNearest(gross.n, gross.d);
    HalfUpIsNearest(fee.n, fee.d);
  }

  // ----- quotes -----

  datatype Quote = Quote(subtotal: int, fee: int, earning: int, total: int)

  /** create_quote with a fee rate of r.n/r.d; the table refuses negative columns. */
  function CreateQuote(subtotal: Decimal, rate: Decimal): Option<Quote> {
    var s := Rounded(subtotal);
    var fee := HalfUp(s * rate.n, rate.d);
    if s <= 0 || s - fee < 0 || fee < 0 then None else Some(Quote(s, fee, s - fee, s))
  }

  lemma MulOrder(a: int, b: int, c: int)
    requires a >= 0 && b <= c
    ensures a * b <= a * c
  {
  }

  /** For every rate in [0,1] and every subtotal of at least half a cent a quote is made; it
      conserves the subtotal, its fee is the nearest cent and both shares are within it. */
  lemma QuotesConserve(subtotal: Decimal, rate: Decimal)
    requires 0 <= rate.n <= rate.d
    ensures var q := CreateQuote(subtotal, rate);
            && (q.Some? <==> Rounded(subtotal) > 0)
            && (q.Some? ==>
                 && q.value.fee + q.value.earning == q.value.total == q.value.subtotal == Rounded(subtotal)
                 && 0 <= q.value.fee <= q.value.total && 0 <= q.value.earning
                 && Nearest(q.value.fee, q.value.subtotal * rate.n, rate.d))
  {
    var s := Rounded(subtotal);
    if s > 0 {
      MulOrder(s, 0, rate.n);
      MulOrder(s, rate.n, rate.d);
      HalfUpMonotone(0, s * rate.n, rate.d);
      HalfUpMonotone(s * rate.n, s * rate.d, rate.d);
      HalfUpExact(0, rate.d);
      HalfUpExact(s, rate.d);
      HalfUpIsNearest(s * rate.n, rate.d);
    }
  }

  /** For any rate at all: a quote is made exactly when there is something to charge and the
      fee lies between nothing and everything. */
  lemma QuotesWhen(subtotal: Decimal, rate: Decimal)
    ensures CreateQuote(subtotal, rate).Some? <==>
              Rounded(subtotal) >= 1 && 0 <= HalfUp(Rounded(subtotal) * rate.n, rate.d) <= Rounded(subtotal)
  {
  }

  /** A higher rate never lowers the platform's share. */
  lemma QuoteFeeGrows(subtotal: Decimal, low: Decimal, high: Decimal)
    requires low.d == high.d && 0 <= low.n <= high.n <= high.d && Rounded(subtotal) > 0
    ensures CreateQuote(subtotal, low).Some? && CreateQuote(subtotal, high).Some?
    ensures CreateQuote(subtotal, low).value.fee <= CreateQuote(subtotal, high).value.fee
  {
    QuotesConserve(subtotal, low);
    QuotesConserve(subtotal, high);
    MulOrder(Rounded(subtotal), low.n, high.n);
    HalfUpMonotone(Rounded(subtotal) * low.n, Rounded(subtotal) * high.n, low.d);
  }

  // ----- the tables -----

  datatype Payment = Payment(amount: nat, status: Status)
  datatype Account = PaymentClearing | PlatformRevenue | ProviderPayable
  datatype Line = Line(journal: Id, account: Account, debit: bool, amount: int)
  datatype Row = Row(payment: Id, provider: Id, gross: int, fee: int, earning: int, settled: bool, journal: Id)

  // `journals` holds the payment each journal's unique reference is derived from.
  datatype Db = Db(payments: seq<Payment>, journals: seq<Id>, lines: seq<Line>, rows: seq<Row>)

  datatype Error = NotFound | NotCaptured | InvalidAmounts | ConstraintViolated

  datatype Result<T> = Ok(value: T) | Err(error: Error)

  function FindJournal(journals: seq<Id>, payment: Id): (r: Option<Id>)
    ensures r.Some? ==> r.value < |journals| && journals[r.value] == payment
    ensures r == None ==> payment !in journals
  {
    Find(journals, (p: Id) => p == payment)
  }

  function FindRow(rows: seq<Row>, payment: Id): (r: Option<Id>)
    ensures r.Some? ==> r.value < |rows| && rows[r.value].payment == payment
    ensures r == None ==> forall i :: 0 <= i < |rows| ==> rows[i].payment != payment
  {
    Find(rows, (row: Row) => row.payment == payment)
  }

  /** platform_fee when it is given, and a tenth of the gross amount otherwise. */
  function FeeOf(gross: nat, fee: Option<Decimal>): int {
    if fee.Some? then Rounded(fee.value) else HalfUp(gross, 10)
  }

  function ThreeLines(journal: Id, s: Split): seq<Line> {
    [Line(journal, PaymentClearing, true, s.gross),
     Line(journal, PlatformRevenue, false, s.fee),
     Line(journal, ProviderPayable, false, s.earning)]
  }

  /** The writes of settle_payment once the amounts are accepted: an existing journal is used
      again, the table refuses a line that is not positive, and an existing settlement keeps
      its amounts. */
  function Post(db: Db, payment: Id, provider: Id, s: Split): (Db, Result<Id>) {
    var found := FindJournal(db.journals, payment);
    var journals := if found.Some? then db.journals else db.journals + [payment];
    var journal := if found.Some? then found.value else |db.journals|;
    if s.fee <= 0 || s.earning <= 0 then (db, Err(ConstraintViolated))
    else
      var lines := db.lines + ThreeLines(journal, s);
      var row := FindRow(db.rows, payment);
      if row.Some? then
        (db.(journals := journals, lines := lines,
             rows := db.rows[row.value := db.rows[row.value].(settled := true, journal := journal)]), Ok(row.value))
      else
        (db.(journals := journals, lines := lines,
             rows := db.rows + [Row(payment, provider, s.gross, s.fee, s.earning, true, journal)]), Ok(|db.rows|))
  }

  function Settle(db: Db, payment: Id, provider: Id, fee: Option<Decimal>): (Db, Result<Id>) {
    if payment >= |db.payments| then (db, Err(NotFound))
    else if db.payments[payment].status != Paid then (db, Err(NotCaptured))
    else
      var existing := FindRow(db.rows, payment);
      if existing.Some? && db.rows[existing.value].settled then (db, Ok(existing.value))
      else
        var gross := db.payments[payment].amount;
        var f := FeeOf(gross, fee);
        if gross <= 0 || f < 0 || f > gross then (db, Err(InvalidAmounts))
        else Post(db, payment, provider, Split(gross, f, gross - f))
  }

  /** The tables updated statement by statement; a refused line rolls the journal back. */
  class Tables {
    var payments: seq<Payment>
    var journals: seq<Id>
    var lines: seq<Line>
    var rows: seq<Row>

    ghost function Contents(): Db
      reads this
    {
      Db(payments, journals, lines, rows)
    }

    method SettlePayment(payment: Id, provider: Id, fee: Option<Decimal>) returns (result: Result<Id>)
      modifies this
      ensures (Contents(), result) == Settle(old(Contents()), payment, provider, fee)
    {
      if payment >= |payments| { return Err(NotFound); }
      if payments[payment].status != Paid { return Err(NotCaptured); }
      var existing := FindRow(rows, payment);
      if existing.Some? && rows[existing.value].settled { return Ok(existing.value); }
      var gross := payments[payment].amount;
      var f := FeeOf(gross, fee);
      if gross <= 0 || f < 0 || f > gross { return Err(InvalidAmounts); }
      var savepoint := journals;
      var found := FindJournal(journals, payment);
      var journal := |journals|;
      if found.Some? {
        journal := found.value;
      } else {
        journals := journals + [payment];
      }
      if f <= 0 || gross - f <= 0 {
        journals := savepoint;
        return Err(ConstraintViolated);
      }
      lines := lines + ThreeLines(journal, Split(gross, f, gross - f));
      if existing.Some? {
        rows := rows[existing.value := rows[existing.value].(settled := true, journal := journal)];
        return Ok(existing.value);
      }
      rows := rows + [Row(payment, provider, gross, f, gross - f, true, journal)];
      result := Ok(|rows| - 1);
    }
  }

  // ----- runs -----

  datatype Op =
    | CreatePayment(amount: nat)
    | SetStatus(payment: Id, status: Status)     // capture, webhooks, verification, refunds
    | OpSettle(payment: Id, provider: Id, fee: Option<Decimal>)

  const EMPTY := Db([], [], [], [])

  function Execute(db: Db, op: Op): Db {
    match op
    case CreatePayment(amount) => db.(payments := db.payments + [Payment(amount, Pending)])
    case SetStatus(p, status) =>
      if p < |db.payments| then db.(payments := db.payments[p := db.payments[p].(status := status)]) else db
    case OpSettle(payment, provider, fee) => Settle(db, payment, provider, fee).0
  }

  function Run(db: Db, ops: seq<Op>): Db
    decreases |ops|
  {
    if ops == [] then db else Run(Execute(db, ops[0]), ops[1..])
  }

  /** Settlement k has journal k, of exactly the three lines 3k, 3k+1 and 3k+2. */
  ghost predicate RowOk(db: Db, k: Id)
    requires k < |db.rows| && |db.journals| == |db.rows| && |db.lines| == 3 * |db.rows|
  {
    var row := db.rows[k];
    && row.payment < |db.payments| && row.gross == db.payments[row.payment].amount
    && row.settled && row.journal == k && db.journals[k] == row.payment
    && row.fee + row.earning == row.gross && 0 < row.fee && 0 < row.earning
    && db.lines[3 * k..3 * k + 3] == ThreeLines(k, Split(row.gross, row.fee, row.earning))
  }

  ghost predicate Inv(db: Db) {
    && |db.journals| == |db.rows| && |db.lines| == 3 * |db.rows|
    && (forall k :: 0 <= k < |db.rows| ==> RowOk(db, k))
    && (forall j, k :: 0 <= j < k < |db.rows| ==> db.rows[j].payment != db.rows[k].payment)
  }

  /** In reachable states settling either returns what exists or adds one settlement. */
  lemma SettleAdds(db: Db, payment: Id, provider: Id, fee: Option<Decimal>)
    requires Inv(db)
    ensures var (db', r) := Settle(db, payment, provider, fee);
            && db'.payments == db.payments
            && (db' != db ==>
                 && r == Ok(|db.rows|) && FindRow(db.rows, payment) == None && payment < |db.payments|
                 && var gross := db.payments[payment].amount;
                    var f := FeeOf(gross, fee);
                    && 0 < f < gross
                    && db'.rows == db.rows + [Row(payment, provider, gross, f, gross - f, true, |db.rows|)]
                    && db'.journals == db.journals + [payment]
                    && db'.lines == db.lines + [Line(|db.rows|, PaymentClearing, true, gross),
                                                Line(|db.rows|, PlatformRevenue, false, f),
                                                Line(|db.rows|, ProviderPayable, false, gross - f)])
  {
    if FindJournal(db.journals, payment).Some? {
      assert RowOk(db, FindJournal(db.journals, payment).value);
    }
    if FindRow(db.rows, payment).Some? {
      assert RowOk(db, FindRow(db.rows, payment).value);
    }
  }

  lemma SettleKeeps(db: Db, payment: Id, provider: Id, fee: Option<Decimal>)
    requires Inv(db)
    ensures Inv(Settle(db, payment, provider, fee).0)
  {
    SettleAdds(db, payment, provider, fee);
    var db' := Settle(db, payment, provider, fee).0;
    if db' != db {
      forall k | 0 <= k < |db'.rows| ensures RowOk(db', k) {
        if k < |db.rows| {
          assert RowOk(db, k);
          assert db'.lines[3 * k..3 * k + 3] == db.lines[3 * k..3 * k + 3];
        }
      }
    }
  }

  lemma ExecuteKeeps(db: Db, op: Op)
    requires Inv(db)
    ensures Inv(Execute(db, op))
    ensures db.rows <= Execute(db, op).rows
  {
    if op.OpSettle? {
      SettleKeeps(db, op.payment, op.provider, op.fee);
      SettleAdds(db, op.payment, op.provider, op.fee);
    } else {
      forall k | 0 <= k < |db.rows| ensures RowOk(Execute(db, op), k) { assert RowOk(db, k); }
    }
  }

  /** Settlements are written once: a run only appends them. */
  lemma {:induction false} RunKeeps(db: Db, ops: seq<Op>)
    requires Inv(db)
    ensures Inv(Run(db, ops)) && db.rows <= Run(db, ops).rows
    decreases |ops|
  {
    if ops != [] {
      ExecuteKeeps(db, ops[0]);
      RunKeeps(Execute(db, ops[0]), ops[1..]);
    }
  }

  // ----- guarantees -----

  /** The sum of the debit, or of the credit, lines selected by `journal` (all when None). */
  function Total(lines: seq<Line>, debit: bool, journal: Option<Id>): int {
    if lines == [] then 0
    else
      var line := lines[|lines| - 1];
      Total(lines[..|lines| - 1], debit, journal)
      + if line.debit == debit && (journal == None || journal.value == line.journal) then line.amount else 0
  }

  function CountLines(lines: seq<Line>, journal: Id): nat {
    if lines == [] then 0
    else CountLines(lines[..|lines| - 1], journal) + if lines[|lines| - 1].journal == journal then 1 else 0
  }

  lemma OneLine(lines: seq<Line>, line: Line, journal: Option<Id>)
    ensures forall debit :: Total(lines + [line], debit, journal) == Total(lines, debit, journal) +
              if line.debit == debit && (journal == None || journal.value == line.journal) then line.amount else 0
    ensures forall k: Id :: CountLines(lines + [line], k) == CountLines(lines, k) + if line.journal == k then 1 else 0
  {
    assert (lines + [line])[..|lines|] == lines;
  }

  lemma ThreeMore(lines: seq<Line>, j: Id, s: Split, journal: Option<Id>)
    ensures var more := lines + ThreeLines(j, s);
            var mine := journal == None || journal.value == j;
            && Total(more, true, journal) == Total(lines, true, journal) + (if mine then s.gross else 0)
            && Total(more, false, journal) == Total(lines, false, journal) + (if mine then s.fee + s.earning else 0)
            && forall k: Id :: CountLines(more, k) == CountLines(lines, k) + (if k == j then 3 else 0)
  {
    var three := ThreeLines(j, s);
    assert lines + three == lines + [three[0]] + [three[1]] + [three[2]];
    OneLine(lines, three[0], journal);
    OneLine(lines + [three[0]], three[1], journal);
    OneLine(lines + [three[0]] + [three[1]], three[2], journal);
  }

  function Gross(rows: seq<Row>, n: nat): int
    requires n <= |rows|
  {
    if n == 0 then 0 else Gross(rows, n - 1) + rows[n - 1].gross
  }

  ghost predicate Balanced(db: Db, lines: seq<Line>, n: nat)
    requires n <= |db.rows|
  {
    && Total(lines, true, None) == Total(lines, false, None) == Gross(db.rows, n)
    && forall j: Id :: j < n ==>
         && CountLines(lines, j) == 3
         && Total(lines, true, Some(j)) == Total(lines, false, Some(j)) == db.rows[j].gross
  }

  lemma {:induction false} JournalsBalance(db: Db, n: nat)
    requires Inv(db) && n <= |db.rows|
    ensures Balanced(db, db.lines[..3 * n], n)
    ensures forall j: Id :: j >= n ==> CountLines(db.lines[..3 * n], j) == 0
    ensures forall j: Id :: j >= n ==> Total(db.lines[..3 * n], true, Some(j)) == 0 == Total(db.lines[..3 * n], false, Some(j))
    decreases n
  {
    if n > 0 {
      JournalsBalance(db, n - 1);
      assert RowOk(db, n - 1);
      var row := db.rows[n - 1];
      var s := Split(row.gross, row.fee, row.earning);
      var before := db.lines[..3 * (n - 1)];
      assert db.lines[..3 * n] == before + ThreeLines(n - 1, s);
      ThreeMore(before, n - 1, s, None);
      forall j: Id ensures Total(db.lines[..3 * n], true, Some(j)) == Total(before, true, Some(j)) + (if j == n - 1 then row.gross else 0)
               ensures Total(db.lines[..3 * n], false, Some(j)) == Total(before, false, Some(j)) + (if j == n - 1 then row.gross else 0)
      {
        ThreeMore(before, n - 1, s, Some(j));
      }
    }
  }

  /** The books balance after every run: every settlement's journal has exactly three lines
      whose debit equals its credits and the payment's amount, so all debits equal all credits
      and the total of the settled payments. */
  lemma BooksBalance(ops: seq<Op>)
    ensures var db := Run(EMPTY, ops);
            && Balanced(db, db.lines, |db.rows|)
            && forall k :: 0 <= k < |db.rows| ==>
                 db.rows[k].payment < |db.payments| && db.rows[k].gross == db.payments[db.rows[k].payment].amount
  {
    RunKeeps(EMPTY, ops);
    var db := Run(EMPTY, ops);
    JournalsBalance(db, |db.rows|);
    assert db.lines[..3 * |db.rows|] == db.lines;
    forall k | 0 <= k < |db.rows|
      ensures db.rows[k].payment < |db.payments| && db.rows[k].gross == db.payments[db.rows[k].payment].amount
    {
      assert RowOk(db, k);
    }
  }

  /** What is posted to one account on one side of a journal. */
  function Posted(lines: seq<Line>, journal: Id, account: Account, debit: bool): int {
    if lines == [] then 0
    else
      var line := lines[|lines| - 1];
      Posted(lines[..|lines| - 1], journal, account, debit)
      + if line.journal == journal && line.account == account && line.debit == debit then line.amount else 0
  }

  /** What a settlement owes each account: the gross amount is taken from clearing, the fee goes
      to the platform and the rest to the provider. */
  function Share(row: Row, account: Account, debit: bool): int {
    match account
    case PaymentClearing => if debit then row.gross else 0
    case PlatformRevenue => if debit then 0 else row.fee
    case ProviderPayable => if debit then 0 else row.earning
  }

  lemma OnePosted(lines: seq<Line>, line: Line, journal: Id, account: Account, debit: bool)
    ensures Posted(lines + [line], journal, account, debit) == Posted(lines, journal, account, debit) +
              if line.journal == journal && line.account == account && line.debit == debit then line.amount else 0
  {
    assert (lines + [line])[..|lines|] == lines;
  }

  lemma {:induction false} PostedUpTo(db: Db, n: nat, journal: Id, account: Account, debit: bool)
    requires Inv(db) && n <= |db.rows|
    ensures Posted(db.lines[..3 * n], journal, account, debit) == if journal < n then Share(db.rows[journal], account, debit) else 0
    decreases n
  {
    if n > 0 {
      PostedUpTo(db, n - 1, journal, account, debit);
      assert RowOk(db, n - 1);
      var row := db.rows[n - 1];
      var three := ThreeLines(n - 1, Split(row.gross, row.fee, row.earning));
      var before := db.lines[..3 * (n - 1)];
      assert db.lines[..3 * n] == before + [three[0]] + [three[1]] + [three[2]];
      OnePosted(before, three[0], journal, account, debit);
      OnePosted(before + [three[0]], three[1], journal, account, debit);
      OnePosted(before + [three[0]] + [three[1]], three[2], journal, account, debit);
    }
  }

  /** After every run each settlement's journal holds exactly its shares: the gross amount
      debited to clearing, the fee credited to the platform and the earning to the provider. */
  lemma SharesArePosted(ops: seq<Op>, k: Id, account: Account, debit: bool)
    requires k < |Run(EMPTY, ops).rows|
    ensures var db := Run(EMPTY, ops);
            && Posted(db.lines, db.rows[k].journal, account, debit) == Share(db.rows[k], account, debit)
            && db.rows[k].fee + db.rows[k].earning == db.rows[k].gross
  {
    RunKeeps(EMPTY, ops);
    var db := Run(EMPTY, ops);
    assert RowOk(db, k);
    PostedUpTo(db, |db.rows|, k, account, debit);
    assert db.lines[..3 * |db.rows|] == db.lines;
  }

  /** Exactly when a payment can be settled. The journal takes no line of zero, so a first
      settlement needs a fee strictly between nothing and everything: waiving the fee is refused. */
  lemma SettlesWhen(ops: seq<Op>, payment: Id, provider: Id, fee: Option<Decimal>)
    ensures var db := Run(EMPTY, ops);
            Settle(db, payment, provider, fee).1.Ok? <==>
              && payment < |db.payments| && db.payments[payment].status == Paid
              && (FindRow(db.rows, payment).Some? || 0 < FeeOf(db.payments[payment].amount, fee) < db.payments[payment].amount)
  {
    RunKeeps(EMPTY, ops);
    var db := Run(EMPTY, ops);
    if FindRow(db.rows, payment).Some? {
      assert RowOk(db, FindRow(db.rows, payment).value);
    }
  }

  /** Why a payment is refused: it is not there, it is not paid, its fee is beyond the amount,
      or its fee would leave a line of nothing. Nothing is left behind then. */
  lemma RefusedBecause(ops: seq<Op>, payment: Id, provider: Id, fee: Option<Decimal>)
    ensures var db := Run(EMPTY, ops);
            var (after, r) := Settle(db, payment, provider, fee);
            && (r == Err(NotFound) <==> payment >= |db.payments|)
            && (r == Err(NotCaptured) <==> payment < |db.payments| && db.payments[payment].status != Paid)
            && (payment < |db.payments| && db.payments[payment].status == Paid && FindRow(db.rows, payment) == None ==>
                 var gross, f := db.payments[payment].amount, FeeOf(db.payments[payment].amount, fee);
                 && (r == Err(InvalidAmounts) <==> gross == 0 || !(0 <= f <= gross))
                 && (r == Err(ConstraintViolated) <==> 1 <= gross && (f == 0 || f == gross)))
            && (r.Err? ==> after == db)
  {
    RunKeeps(EMPTY, ops);
    var db := Run(EMPTY, ops);
    if FindRow(db.rows, payment).Some? { assert RowOk(db, FindRow(db.rows, payment).value); }
  }

  /** A settlement row that were there but not settled would be settled with the amounts it
      has, whatever is asked for now. */
  lemma UnsettledRowIsSettled(db: Db, payment: Id, provider: Id, fee: Option<Decimal>)
    requires FindRow(db.rows, payment).Some? && !db.rows[FindRow(db.rows, payment).value].settled
    requires Settle(db, payment, provider, fee).1.Ok?
    ensures var k := FindRow(db.rows, payment).value;
            var (after, r) := Settle(db, payment, provider, fee);
            && r == Ok(k) && |after.rows| == |db.rows| && after.rows[k].journal < |after.journals|
            && after.rows == db.rows[k := db.rows[k].(settled := true, journal := after.rows[k].journal)]
            && after.journals[after.rows[k].journal] == payment
            && (payment in db.journals ==> after.journals == db.journals)
            && (payment !in db.journals ==> after.journals == db.journals + [payment])
            && |after.lines| == |db.lines| + 3 && after.lines[..|db.lines|] == db.lines
  {
  }

  /** The default fee is within half a cent of a tenth, and with it exactly the payments of at
      least five cents can be settled. */
  lemma DefaultFee(gross: nat)
    ensures -5 <= 10 * FeeOf(gross, None) - gross <= 5
    ensures 0 < FeeOf(gross, None) < gross <==> gross >= 5
  {
    HalfUpIsNearest(gross, 10);
  }

  /** Settling again, by whomever and for whatever fee and however the payment's status was
      rewritten meanwhile, changes nothing; when it succeeds it returns the first settlement. */
  lemma SettledOnce(ops: seq<Op>, more: seq<Op>, payment: Id, provider: Id, fee: Option<Decimal>, again: Id, other: Option<Decimal>)
    requires Settle(Run(EMPTY, ops), payment, provider, fee).1.Ok?
    ensures var (first, result) := Settle(Run(EMPTY, ops), payment, provider, fee);
            var later := Run(first, more);
            var (db, r) := Settle(later, payment, again, other);
            && db == later
            && (r.Ok? ==> r == result && result.value < |first.rows| && db.rows[r.value] == first.rows[r.value])
            && (payment < |later.payments| && later.payments[payment].status == Paid ==> r.Ok?)
  {
    RunKeeps(EMPTY, ops);
    var db := Run(EMPTY, ops);
    var (first, result) := Settle(db, payment, provider, fee);
    SettleAdds(db, payment, provider, fee);
    SettleKeeps(db, payment, provider, fee);
    assert result.value < |first.rows| && first.rows[result.value].payment == payment;
    RunKeeps(first, more);
    var later := Run(first, more);
    assert later.rows[result.value] == first.rows[result.value];
    assert RowOk(later, FindRow(later.rows, payment).value);
  }
}
