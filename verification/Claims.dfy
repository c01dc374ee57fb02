/** What every queue's claim statement picks: `select ... order by created_at for update
    skip locked limit n`. Rows are in order of creation. */
module Claims {
  import opened Prelude

  /** The oldest ready rows from position k on that no other transaction has locked. */
  function Picked<R>(rows: seq<R>, ready: R -> bool, limit: nat, skipped: set<Id>, k: nat): (r: seq<Id>)
    requires k <= |rows|
    ensures forall i :: 0 <= i < |r| ==> k <= r[i] < |rows| && ready(rows[r[i]]) && r[i] !in skipped
    ensures forall i, j :: 0 <= i < j < |r| ==> r[i] < r[j]
    ensures |r| <= limit
    decreases |rows| - k
  {
    if k == |rows| || limit == 0 then []
    else if ready(rows[k]) && k !in skipped then [k] + Picked(rows, ready, limit - 1, skipped, k + 1)
    else Picked(rows, ready, limit, skipped, k + 1)
  }

  /** Nothing older is passed over: a ready, unlocked row that was not picked comes after
      every picked one, and the limit was reached. */
  lemma {:induction false} PickedOldestFirst<R>(rows: seq<R>, ready: R -> bool, limit: nat, skipped: set<Id>, k: nat, i: Id)
    requires k <= i < |rows| && ready(rows[i]) && i !in skipped
    ensures var r := Picked(rows, ready, limit, skipped, k);
            i in r || (|r| == limit && forall j :: 0 <= j < |r| ==> r[j] < i)
    decreases |rows| - k
  {
    if limit > 0 {
      var taken := ready(rows[k]) && k !in skipped;
      if k < i {
        PickedOldestFirst(rows, ready, if taken then limit - 1 else limit, skipped, k + 1, i);
      } else {
        assert Picked(rows, ready, limit, skipped, k)[0] == i;
      }
    }
  }

  /** With room for every row up to it, a ready and unlocked row is picked. */
  lemma {:induction false} PickedWithRoom<R>(rows: seq<R>, ready: R -> bool, limit: nat, skipped: set<Id>, k: nat, i: Id)
    requires k <= i < |rows| && ready(rows[i]) && i !in skipped && limit > i - k
    ensures i in Picked(rows, ready, limit, skipped, k)
    decreases |rows| - k
  {
    var taken := ready(rows[k]) && k !in skipped;
    if k < i {
      PickedWithRoom(rows, ready, if taken then limit - 1 else limit, skipped, k + 1, i);
    } else {
      assert Picked(rows, ready, limit, skipped, k)[0] == i;
    }
  }

  /** One row of a claiming loop: the rows picked so far, and what is still to be picked. */
  lemma PickedStep<R>(rows: seq<R>, ready: R -> bool, limit: nat, skipped: set<Id>, k: nat, soFar: seq<Id>)
    requires k < |rows| && |soFar| <= limit
    ensures soFar + Picked(rows, ready, limit - |soFar|, skipped, k) ==
            if |soFar| < limit && ready(rows[k]) && k !in skipped
            then soFar + [k] + Picked(rows, ready, limit - |soFar| - 1, skipped, k + 1)
            else soFar + Picked(rows, ready, limit - |soFar|, skipped, k + 1)
  {
    if |soFar| < limit && ready(rows[k]) && k !in skipped {
      var rest := Picked(rows, ready, limit - |soFar| - 1, skipped, k + 1);
      assert soFar + ([k] + rest) == soFar + [k] + rest;
    }
  }

  method Pick<R>(rows: seq<R>, ready: R -> bool, limit: nat, skipped: set<Id>) returns (r: seq<Id>)
    ensures r == Picked(rows, ready, limit, skipped, 0)
  {
    r := [];
    for k := 0 to |rows|
      invariant |r| <= limit
      invariant Picked(rows, ready, limit, skipped, 0) == r + Picked(rows, ready, limit - |r|, skipped, k)
    {
      PickedStep(rows, ready, limit, skipped, k, r);
      if |r| < limit && ready(rows[k]) && k !in skipped {
        r := r + [k];
      }
    }
  }
}
