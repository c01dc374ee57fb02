/** Small vocabulary shared by every module: row identifiers, optional values
    and the counting fact the bounds over whole runs rest on. */
module Prelude {

  /** A table is a sequence of rows and a row's identifier is its position:
      rows are inserted at the end and never deleted by the modelled code. */
  type Id = nat

  datatype Option<+T> = None | Some(value: T)

  function Min(a: nat, b: nat): nat {
    if a <= b then a else b
  }

  /** The first row that matches: what a select by a unique key finds. */
  function Find<R>(rows: seq<R>, matches: R -> bool): (r: Option<Id>)
    ensures r.Some? ==> r.value < |rows| && matches(rows[r.value])
    ensures r.None? ==> forall i :: 0 <= i < |rows| ==> !matches(rows[i])
    ensures r.Some? ==> forall i :: 0 <= i < r.value ==> !matches(rows[i])
  {
    if rows == [] then None
    else
      var n := |rows| - 1;
      var rest := Find(rows[..n], matches);
      if rest.Some? then rest else if matches(rows[n]) then Some(n) else None
  }

  /** How many rows match: what an update reports as its row count. */
  function CountOf<R>(rows: seq<R>, matches: R -> bool): nat {
    if rows == [] then 0
    else CountOf(rows[..|rows| - 1], matches) + if matches(rows[|rows| - 1]) then 1 else 0
  }

  lemma CountOneMore<R>(rows: seq<R>, k: nat, matches: R -> bool)
    requires k < |rows|
    ensures CountOf(rows[..k + 1], matches) == CountOf(rows[..k], matches) + if matches(rows[k]) then 1 else 0
  {
    assert rows[..k + 1][..k] == rows[..k];
  }

  function Power2(n: nat): nat {
    if n == 0 then 1 else 2 * Power2(n - 1)
  }

  lemma {:induction false} PowersBound(n: nat)
    ensures Power2(n) >= 1
  {
    if n > 0 { PowersBound(n - 1); }
  }

  lemma {:induction false} PowersGrow(m: nat, n: nat)
    requires m <= n
    ensures Power2(m) <= Power2(n)
    decreases n
  {
    if m < n {
      PowersGrow(m, n - 1);
      PowersBound(n - 1);
    }
  }

  /** A finite set that maps injectively into another set is no larger than it. */
  lemma {:induction false} InjectionBound<X, Y>(xs: set<X>, ys: set<Y>, f: X -> Y)
    requires forall x :: x in xs ==> f(x) in ys
    requires forall x, y :: x in xs && y in xs && f(x) == f(y) ==> x == y
    ensures |xs| <= |ys|
  {
    if xs != {} {
      var x :| x in xs;
      var rest := xs - {x};
      InjectionBound(rest, ys - {f(x)}, f);
      assert xs == rest + {x};
    }
  }

  /** There is always an identifier that is not in use. */
  lemma {:induction false} Unused(used: set<Id>) returns (id: Id)
    ensures id !in used && forall u :: u in used ==> u < id
  {
    if used == {} {
      id := 0;
    } else {
      var u :| u in used;
      var above := Unused(used - {u});
      id := if above > u then above else u + 1;
      assert used == (used - {u}) + {u};
    }
  }
}
