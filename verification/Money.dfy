/** Rounding to whole cents. Amounts are integers: cents, or cents divided by some `d`. */
module Money {

  /** quantize(0.01, ROUND_HALF_UP) of n/d cents: to the nearest cent, ties away from zero. */
  function HalfUp(n: int, d: int): int
    requires d > 0
  {
    if n >= 0 then (2 * n + d) / (2 * d) else -((2 * -n + d) / (2 * d))
  }

  /** A decimal amount of n/d cents. */
  datatype Ratio = Ratio(n: int, d: int)
  type Decimal = x: Ratio | x.d > 0 witness Ratio(0, 1)

  /** money(): every amount that enters the services is rounded half-up. */
  function Rounded(x: Decimal): int {
    HalfUp(x.n, x.d)
  }

  /** quantize(0.01) in the default context of n/d cents: to the nearest cent, ties to even. */
  function HalfEven(n: int, d: int): int
    requires d > 0
  {
    var floor, rest := n / d, n % d;
    if 2 * rest < d || (2 * rest == d && floor % 2 == 0) then floor else floor + 1
  }

  /** r is a nearest whole cent to n/d. */
  ghost predicate Nearest(r: int, n: int, d: int) {
    -d <= 2 * (r * d - n) <= d
  }

  ghost predicate IsTie(r: int, n: int, d: int) {
    2 * (r * d - n) == d || 2 * (r * d - n) == -d
  }

  lemma FloorBounds(a: int, b: int)
    requires b > 0
    ensures a / b * b <= a < a / b * b + b
  {
  }

  lemma HalfUpOfPositive(m: int, d: int)
    requires d > 0 && m >= 0
    ensures var r := HalfUp(m, d); -d < 2 * (r * d - m) <= d
  {
    var q := (2 * m + d) / (2 * d);
    FloorBounds(2 * m + d, 2 * d);
    assert q * (2 * d) == 2 * (q * d);
  }

  /** Half-up is the nearest cent, and on a tie the one further from zero. */
  lemma HalfUpIsNearest(n: int, d: int)
    requires d > 0
    ensures Nearest(HalfUp(n, d), n, d)
    ensures IsTie(HalfUp(n, d), n, d) && n >= 0 ==> HalfUp(n, d) * d >= n
    ensures IsTie(HalfUp(n, d), n, d) && n <= 0 ==> HalfUp(n, d) * d <= n
    ensures HalfUp(-n, d) == -HalfUp(n, d)
  {
    if n >= 0 {
      HalfUpOfPositive(n, d);
      if n > 0 { assert HalfUp(-n, d) == -HalfUp(n, d); }
    } else {
      HalfUpOfPositive(-n, d);
      assert HalfUp(n, d) == -HalfUp(-n, d);
      Negates(HalfUp(-n, d), d);
    }
  }

  lemma Negates(r: int, d: int)
    ensures (-r) * d == -(r * d)
  {
  }

  /** Half-even is the nearest cent, and on a tie the even one. */
  lemma HalfEvenIsNearest(n: int, d: int)
    requires d > 0
    ensures Nearest(HalfEven(n, d), n, d)
    ensures IsTie(HalfEven(n, d), n, d) ==> HalfEven(n, d) % 2 == 0
  {
    var floor, rest := n / d, n % d;
    assert floor * d + rest == n;
    assert (floor + 1) * d == floor * d + d;
  }

  /** Nearest values of ordered numbers are ordered, unless they are the two sides of one tie. */
  lemma NearestMonotone(r: int, m: int, s: int, n: int, d: int)
    requires d > 0 && m <= n && Nearest(r, m, d) && Nearest(s, n, d)
    ensures r <= s || (m == n && IsTie(r, m, d) && IsTie(s, n, d))
  {
    if r > s {
      assert (r - s) * d >= d by { MulAtLeast(r - s, d); }
      assert (r - s) * d == r * d - s * d;
    }
  }

  lemma MulAtLeast(k: int, d: int)
    requires k >= 1 && d > 0
    ensures k * d >= d
  {
  }

  lemma HalfEvenMonotone(m: int, n: int, d: int)
    requires d > 0 && m <= n
    ensures HalfEven(m, d) <= HalfEven(n, d)
  {
    HalfEvenIsNearest(m, d);
    HalfEvenIsNearest(n, d);
    NearestMonotone(HalfEven(m, d), m, HalfEven(n, d), n, d);
  }

  lemma HalfUpMonotone(m: int, n: int, d: int)
    requires d > 0 && m <= n
    ensures HalfUp(m, d) <= HalfUp(n, d)
  {
    HalfUpIsNearest(m, d);
    HalfUpIsNearest(n, d);
    NearestMonotone(HalfUp(m, d), m, HalfUp(n, d), n, d);
  }

  lemma HalfUpExact(n: int, d: int)
    requires d > 0
    ensures HalfUp(n * d, d) == n
  {
    HalfUpIsNearest(n * d, d);
    var r := HalfUp(n * d, d);
    assert (r - n) * d == r * d - n * d;
    if r > n { MulAtLeast(r - n, d); }
    if r < n { MulAtLeast(n - r, d); }
  }
}
