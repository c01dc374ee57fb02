/** Choosing a payment route (payment_routing.py): the eligible candidates are scored and
    sorted. Amounts are cents and fee rates millionths, as the policy table stores them. */
module Routing {
  import opened Prelude
  import opened Money

  datatype Candidate = Candidate(
    provider: string, channel: string, feeFixed: int, feeRate: int, priority: int,
    healthy: bool, available: bool, maxAmount: Option<int>)

  datatype Route = Route(candidate: Candidate, fee: int, score: int)

  datatype Decision = Decision(provider: string, channel: string, fee: int, score: int, fallbacks: seq<string>)

  const MILLION := 1000000

  function EstimateFee(amount: int, c: Candidate): int {
    HalfEven(c.feeFixed * MILLION + amount * c.feeRate, MILLION)
  }

  predicate Eligible(amount: int, c: Candidate) {
    c.healthy && c.available && (c.maxAmount.Some? ==> amount <= c.maxAmount.value)
  }

  /** A whole priority point outweighs a fee of ninety-nine cents. */
  function RouteOf(amount: int, c: Candidate): Route {
    Route(c, EstimateFee(amount, c), c.priority * 100 + EstimateFee(amount, c))
  }

  // ----- the order -----

  /** Python's order on strings: character by character, a prefix first. */
  predicate TextAtMost(s: string, t: string) {
    s == [] || (t != [] && (s[0] < t[0] || (s[0] == t[0] && TextAtMost(s[1..], t[1..]))))
  }

  lemma {:induction false} TextIsTotal(s: string, t: string)
    ensures TextAtMost(s, t) || TextAtMost(t, s)
    ensures TextAtMost(s, t) && TextAtMost(t, s) <==> s == t
    decreases |s|
  {
    if s != [] && t != [] && s[0] == t[0] {
      TextIsTotal(s[1..], t[1..]);
      assert s == [s[0]] + s[1..] && t == [t[0]] + t[1..];
    }
  }

  lemma {:induction false} TextIsTransitive(s: string, t: string, u: string)
    requires TextAtMost(s, t) && TextAtMost(t, u)
    ensures TextAtMost(s, u)
    decreases |s|
  {
    if s != [] && s[0] == t[0] == u[0] { TextIsTransitive(s[1..], t[1..], u[1..]); }
  }

  datatype Key = Key(score: int, provider: string, channel: string)

  /** The lexicographic order on sort keys. */
  predicate KeyAtMost(x: Key, y: Key) {
    || x.score < y.score
    || (x.score == y.score && x.provider != y.provider && TextAtMost(x.provider, y.provider))
    || (x.score == y.score && x.provider == y.provider && TextAtMost(x.channel, y.channel))
  }

  function KeyOf(x: Route): Key {
    Key(x.score, x.candidate.provider, x.candidate.channel)
  }

  predicate AtMost(x: Route, y: Route) {
    KeyAtMost(KeyOf(x), KeyOf(y))
  }

  lemma OrderIsTotal(x: Key, y: Key)
    ensures KeyAtMost(x, y) || KeyAtMost(y, x)
    ensures KeyAtMost(x, y) && KeyAtMost(y, x) <==> x == y
  {
    TextIsTotal(x.provider, y.provider);
    TextIsTotal(x.channel, y.channel);
  }

  lemma OrderIsTransitive(x: Key, y: Key, z: Key)
    requires KeyAtMost(x, y) && KeyAtMost(y, z)
    ensures KeyAtMost(x, z)
  {
    var (p, q, r) := (x.provider, y.provider, z.provider);
    if x.score == y.score == z.score {
      TextIsTotal(p, q);
      TextIsTotal(q, r);
      TextIsTotal(p, r);
      if TextAtMost(p, q) && TextAtMost(q, r) { TextIsTransitive(p, q, r); }
      if p == q == r { TextIsTransitive(x.channel, y.channel, z.channel); }
    }
  }

  /** Text is ordered like a dictionary: a prefix first, and otherwise by the first character
      in which the two differ. */
  lemma {:induction false} TextOrder(s: string, t: string)
    ensures TextAtMost(s, t) <==> s <= t || exists k :: 0 <= k < |s| && k < |t| && s[..k] == t[..k] && s[k] < t[k]
    decreases |s|
  {
    if s != [] && t != [] {
      assert s == [s[0]] + s[1..] && t == [t[0]] + t[1..];
      if s[0] == t[0] {
        TextOrder(s[1..], t[1..]);
        TextOrderOnward(s, t);
      } else if TextAtMost(s, t) {
        assert s[..0] == t[..0] && s[0] < t[0];
      }
    }
  }

  lemma TextOrderOnward(s: string, t: string)
    requires s != [] && t != [] && s[0] == t[0]
    ensures s <= t <==> s[1..] <= t[1..]
    ensures (exists k :: 0 <= k < |s| && k < |t| && s[..k] == t[..k] && s[k] < t[k]) <==>
            (exists k :: 0 <= k < |s[1..]| && k < |t[1..]| && s[1..][..k] == t[1..][..k] && s[1..][k] < t[1..][k])
  {
    assert s == [s[0]] + s[1..] && t == [t[0]] + t[1..];
    if k :| 0 <= k < |s| && k < |t| && s[..k] == t[..k] && s[k] < t[k] {
      assert s[1..][..k - 1] == s[..k][1..] == t[..k][1..] == t[1..][..k - 1];
      assert s[1..][k - 1] < t[1..][k - 1];
    }
    if k :| 0 <= k < |s[1..]| && k < |t[1..]| && s[1..][..k] == t[1..][..k] && s[1..][k] < t[1..][k] {
      assert s[..k + 1] == [s[0]] + s[1..][..k] == t[..k + 1];
      assert s[k + 1] < t[k + 1];
    }
  }

  /** Routes are ordered by score, then by provider, then by channel. */
  lemma RoutesOrder(x: Route, y: Route)
    ensures AtMost(x, y) <==>
              || x.score < y.score
              || (x.score == y.score
                  && if x.candidate.provider == y.candidate.provider then TextAtMost(x.candidate.channel, y.candidate.channel)
                     else TextAtMost(x.candidate.provider, y.candidate.provider))
  {
  }

  ghost predicate Ordered(xs: seq<Route>) {
    forall i, j :: 0 <= i < j < |xs| ==> AtMost(xs[i], xs[j])
  }

  // ----- ranking -----

  /** A new element goes after everything that is at most it. */
  function Insert(x: Route, xs: seq<Route>): seq<Route> {
    if xs == [] || !AtMost(xs[0], x) then [x] + xs else [xs[0]] + Insert(x, xs[1..])
  }

  /** sorted(): the stable sort. */
  function Sort(xs: seq<Route>): seq<Route> {
    if xs == [] then [] else Insert(xs[|xs| - 1], Sort(xs[..|xs| - 1]))
  }

  function Routes(amount: int, candidates: seq<Candidate>): seq<Route> {
    if candidates == [] then []
    else
      var last := candidates[|candidates| - 1];
      Routes(amount, candidates[..|candidates| - 1]) + if Eligible(amount, last) then [RouteOf(amount, last)] else []
  }

  function RankRoutes(amount: int, candidates: seq<Candidate>): seq<Route> {
    Sort(Routes(amount, candidates))
  }

  function ChooseRoute(amount: int, candidates: seq<Candidate>): Option<Decision> {
    var ranked := RankRoutes(amount, candidates);
    if ranked == [] then None
    else
      var best := ranked[0];
      Some(Decision(best.candidate.provider, best.candidate.channel, best.fee, best.score,
                    seq(|ranked| - 1, i requires 0 <= i < |ranked| - 1 => ranked[i + 1].candidate.provider)))
  }

  /** The ranking loop: skip, score, append, and sort at the end. */
  method Rank(amount: int, candidates: seq<Candidate>) returns (ranked: seq<Route>)
    ensures ranked == RankRoutes(amount, candidates)
  {
    ranked := [];
    for k := 0 to |candidates|
      invariant ranked == Routes(amount, candidates[..k])
    {
      var c := candidates[k];
      assert candidates[..k + 1][..k] == candidates[..k];
      if !c.healthy || !c.available || (c.maxAmount.Some? && amount > c.maxAmount.value) { continue; }
      var fee := EstimateFee(amount, c);
      ranked := ranked + [Route(c, fee, c.priority * 100 + fee)];
    }
    assert candidates[..|candidates|] == candidates;
    ranked := Sort(ranked);
  }

  // ----- the ranking is a sorted, stable permutation of the eligible -----

  lemma {:induction false} InsertPermutes(x: Route, xs: seq<Route>)
    ensures multiset(Insert(x, xs)) == multiset(xs) + multiset{x}
    decreases |xs|
  {
    if xs != [] && AtMost(xs[0], x) {
      InsertPermutes(x, xs[1..]);
      assert xs == [xs[0]] + xs[1..];
    }
  }

  lemma {:induction false} InsertOrders(x: Route, xs: seq<Route>)
    requires Ordered(xs)
    ensures Ordered(Insert(x, xs))
    decreases |xs|
  {
    if xs == [] {
    } else if AtMost(xs[0], x) {
      var rest := Insert(x, xs[1..]);
      InsertOrders(x, xs[1..]);
      InsertPermutes(x, xs[1..]);
      forall j | 0 <= j < |rest| ensures AtMost(xs[0], rest[j]) {
        assert rest[j] in multiset(rest);
        assert rest[j] == x || rest[j] in xs[1..];
      }
    } else {
      OrderIsTotal(KeyOf(xs[0]), KeyOf(x));
      forall j | 0 <= j < |xs| ensures AtMost(x, xs[j]) {
        if j > 0 { OrderIsTransitive(KeyOf(x), KeyOf(xs[0]), KeyOf(xs[j])); }
      }
    }
  }

  lemma {:induction false} SortOrders(xs: seq<Route>)
    ensures Ordered(Sort(xs)) && multiset(Sort(xs)) == multiset(xs)
    decreases |xs|
  {
    if xs != [] {
      SortOrders(xs[..|xs| - 1]);
      InsertOrders(xs[|xs| - 1], Sort(xs[..|xs| - 1]));
      InsertPermutes(xs[|xs| - 1], Sort(xs[..|xs| - 1]));
      assert xs == xs[..|xs| - 1] + [xs[|xs| - 1]];
    }
  }

  function WithKey(xs: seq<Route>, key: Key): seq<Route> {
    if xs == [] then [] else (if KeyOf(xs[0]) == key then [xs[0]] else []) + WithKey(xs[1..], key)
  }

  lemma {:induction false} NoneAbove(xs: seq<Route>, x: Route)
    requires forall i :: 0 <= i < |xs| ==> !AtMost(xs[i], x)
    ensures WithKey(xs, KeyOf(x)) == []
    decreases |xs|
  {
    if xs != [] {
      OrderIsTotal(KeyOf(xs[0]), KeyOf(x));
      NoneAbove(xs[1..], x);
    }
  }

  lemma {:induction false} InsertIsStable(x: Route, xs: seq<Route>, key: Key)
    requires Ordered(xs)
    ensures WithKey(Insert(x, xs), key) == WithKey(xs, key) + if KeyOf(x) == key then [x] else []
    decreases |xs|
  {
    if xs == [] {
    } else if AtMost(xs[0], x) {
      InsertIsStable(x, xs[1..], key);
      assert Insert(x, xs)[1..] == Insert(x, xs[1..]);
    } else {
      assert Insert(x, xs)[1..] == xs;
      if KeyOf(x) == key {
        forall i | 0 <= i < |xs| ensures !AtMost(xs[i], x) {
          if i > 0 && AtMost(xs[i], x) { OrderIsTransitive(KeyOf(xs[0]), KeyOf(xs[i]), KeyOf(x)); }
        }
        NoneAbove(xs, x);
      }
    }
  }

  lemma {:induction false} WithKeyOfAppend(xs: seq<Route>, x: Route, key: Key)
    ensures WithKey(xs + [x], key) == WithKey(xs, key) + if KeyOf(x) == key then [x] else []
    decreases |xs|
  {
    if xs == [] {
      assert xs + [x] == [x] && [x][1..] == [];
    } else {
      assert (xs + [x])[1..] == xs[1..] + [x];
      WithKeyOfAppend(xs[1..], x, key);
    }
  }

  lemma {:induction false} SortIsStable(xs: seq<Route>, key: Key)
    ensures WithKey(Sort(xs), key) == WithKey(xs, key)
    decreases |xs|
  {
    if xs != [] {
      var rest, last := xs[..|xs| - 1], xs[|xs| - 1];
      SortIsStable(rest, key);
      SortOrders(rest);
      InsertIsStable(last, Sort(rest), key);
      WithKeyOfAppend(rest, last, key);
      assert xs == rest + [last];
    }
  }

  lemma {:induction false} RoutesAreEligible(amount: int, candidates: seq<Candidate>, r: Route)
    ensures multiset(Routes(amount, candidates))[r] ==
            if Eligible(amount, r.candidate) && r == RouteOf(amount, r.candidate) then multiset(candidates)[r.candidate] else 0
    decreases |candidates|
  {
    if candidates != [] {
      var rest, last := candidates[..|candidates| - 1], candidates[|candidates| - 1];
      RoutesAreEligible(amount, rest, r);
      assert candidates == rest + [last];
    }
  }

  /** The ranking holds each eligible candidate, with its own fee and score, as often as it was
      given and no other; it is ordered by score, provider and channel; and candidates equal in
      all three keep the order they came in. */
  lemma RankingIsSorted(amount: int, candidates: seq<Candidate>, r: Route)
    ensures var ranked := RankRoutes(amount, candidates);
            && Ordered(ranked)
            && multiset(ranked)[r] == (if Eligible(amount, r.candidate) && r == RouteOf(amount, r.candidate)
                                       then multiset(candidates)[r.candidate] else 0)
            && WithKey(ranked, KeyOf(r)) == WithKey(Routes(amount, candidates), KeyOf(r))
  {
    SortOrders(Routes(amount, candidates));
    SortIsStable(Routes(amount, candidates), KeyOf(r));
    RoutesAreEligible(amount, candidates, r);
  }

  function CountEligible(amount: int, candidates: seq<Candidate>): nat {
    if candidates == [] then 0
    else CountEligible(amount, candidates[..|candidates| - 1]) + if Eligible(amount, candidates[|candidates| - 1]) then 1 else 0
  }

  lemma {:induction false} RoutesCount(amount: int, candidates: seq<Candidate>)
    ensures |Routes(amount, candidates)| == CountEligible(amount, candidates)
    decreases |candidates|
  {
    if candidates != [] { RoutesCount(amount, candidates[..|candidates| - 1]); }
  }

  lemma EligibleIsRanked(amount: int, candidates: seq<Candidate>, c: Candidate)
    requires c in candidates && Eligible(amount, c)
    ensures RouteOf(amount, c) in RankRoutes(amount, candidates)
  {
    RankingIsSorted(amount, candidates, RouteOf(amount, c));
    assert RouteOf(amount, c) in multiset(RankRoutes(amount, candidates));
  }

  lemma RankedIsEligible(amount: int, candidates: seq<Candidate>, r: Route)
    requires r in RankRoutes(amount, candidates)
    ensures r.candidate in candidates && Eligible(amount, r.candidate) && r == RouteOf(amount, r.candidate)
  {
    RankingIsSorted(amount, candidates, r);
    assert r in multiset(RankRoutes(amount, candidates));
    assert r.candidate in multiset(candidates);
  }

  /** The candidates a decision may quote: eligible, with a key no eligible one's is below. */
  ghost predicate Leading(amount: int, candidates: seq<Candidate>, c: Candidate) {
    && c in candidates && Eligible(amount, c)
    && forall e :: e in candidates && Eligible(amount, e) ==> AtMost(RouteOf(amount, c), RouteOf(amount, e))
  }

  lemma FirstLeads(amount: int, candidates: seq<Candidate>)
    requires RankRoutes(amount, candidates) != []
    ensures var best := RankRoutes(amount, candidates)[0];
            Leading(amount, candidates, best.candidate) && best == RouteOf(amount, best.candidate)
  {
    var ranked := RankRoutes(amount, candidates);
    SortOrders(Routes(amount, candidates));
    RankedIsEligible(amount, candidates, ranked[0]);
    forall e | e in candidates && Eligible(amount, e) ensures AtMost(ranked[0], RouteOf(amount, e)) {
      EligibleIsRanked(amount, candidates, e);
      OrderIsTotal(KeyOf(ranked[0]), KeyOf(ranked[0]));
    }
  }

  lemma RankedCount(amount: int, candidates: seq<Candidate>)
    ensures |RankRoutes(amount, candidates)| == CountEligible(amount, candidates)
  {
    SortOrders(Routes(amount, candidates));
    RoutesCount(amount, candidates);
    assert |RankRoutes(amount, candidates)| == |multiset(RankRoutes(amount, candidates))| == |Routes(amount, candidates)|;
  }

  /** A route is chosen exactly when some candidate is eligible; it is one of the leading
      candidates, so none has a lower score, and every other eligible one is a fallback. */
  lemma ChosenIsBest(amount: int, candidates: seq<Candidate>)
    ensures var d := ChooseRoute(amount, candidates);
            && (d.Some? <==> exists c :: c in candidates && Eligible(amount, c))
            && (d.Some? ==>
                 && |d.value.fallbacks| == CountEligible(amount, candidates) - 1
                 && (exists c :: Leading(amount, candidates, c)
                      && d.value.provider == c.provider && d.value.channel == c.channel
                      && d.value.fee == EstimateFee(amount, c) && d.value.score == RouteOf(amount, c).score)
                 && (forall c :: c in candidates && Eligible(amount, c) ==> d.value.score <= RouteOf(amount, c).score))
  {
    RankedCount(amount, candidates);
    if RankRoutes(amount, candidates) == [] {
      forall c | c in candidates ensures !Eligible(amount, c) {
        if Eligible(amount, c) { EligibleIsRanked(amount, candidates, c); }
      }
    } else {
      FirstLeads(amount, candidates);
    }
  }

  /** A route is eligible when its provider is healthy and available and the amount is within
      its limit, if it has one; a point of priority weighs a hundred cents of fee. */
  lemma ScoredWhen(amount: int, c: Candidate)
    ensures Eligible(amount, c) <==> c.healthy && c.available && (c.maxAmount == None || amount <= c.maxAmount.value)
    ensures RouteOf(amount, c).score == 100 * c.priority + RouteOf(amount, c).fee && RouteOf(amount, c).fee == EstimateFee(amount, c)
  {
  }

  // ----- the decision does not depend on the order of the candidates -----

  function KeysOf(xs: seq<Route>): (keys: seq<Key>)
    ensures |keys| == |xs| && forall i :: 0 <= i < |xs| ==> keys[i] == KeyOf(xs[i])
  {
    seq(|xs|, i requires 0 <= i < |xs| => KeyOf(xs[i]))
  }

  lemma Tail<T>(s: seq<T>)
    requires s != []
    ensures multiset(s[1..]) == multiset(s) - multiset{s[0]} && s[0] in multiset(s)
  {
    assert s == [s[0]] + s[1..];
  }

  lemma WithoutOne<T>(s: seq<T>, j: nat)
    requires j < |s|
    ensures multiset(s[..j] + s[j + 1..]) == multiset(s) - multiset{s[j]} && s[j] in multiset(s)
  {
    assert s == s[..j] + [s[j]] + s[j + 1..];
  }

  lemma KeysWithout(xs: seq<Route>, j: nat)
    requires j < |xs|
    ensures multiset(KeysOf(xs)) == multiset(KeysOf(xs[..j] + xs[j + 1..])) + multiset{KeyOf(xs[j])}
  {
    var keys := KeysOf(xs);
    WithoutOne(keys, j);
    var rest := xs[..j] + xs[j + 1..];
    forall i | 0 <= i < |rest| ensures KeysOf(rest)[i] == (keys[..j] + keys[j + 1..])[i] {
      assert rest[i] == if i < j then xs[i] else xs[i + 1];
    }
    assert KeysOf(rest) == keys[..j] + keys[j + 1..];
  }

  lemma KeysOfTail(xs: seq<Route>)
    requires xs != []
    ensures multiset(KeysOf(xs)) == multiset(KeysOf(xs[1..])) + multiset{KeyOf(xs[0])}
  {
    Tail(KeysOf(xs));
    assert KeysOf(xs)[1..] == KeysOf(xs[1..]);
  }

  lemma SamePlace(xs: seq<Route>, ys: seq<Route>) returns (j: nat)
    requires multiset(xs) == multiset(ys) && xs != []
    ensures j < |ys| && ys[j] == xs[0] && multiset(xs[1..]) == multiset(ys[..j] + ys[j + 1..])
  {
    Tail(xs);
    assert xs[0] in ys;
    j :| 0 <= j < |ys| && ys[j] == xs[0];
    WithoutOne(ys, j);
  }

  lemma {:induction false} KeysPermute(xs: seq<Route>, ys: seq<Route>)
    requires multiset(xs) == multiset(ys)
    ensures multiset(KeysOf(xs)) == multiset(KeysOf(ys))
    decreases |xs|
  {
    assert |xs| == |multiset(xs)| == |ys|;
    if xs != [] {
      var j := SamePlace(xs, ys);
      KeysPermute(xs[1..], ys[..j] + ys[j + 1..]);
      KeysWithout(ys, j);
      KeysOfTail(xs);
    }
  }

  ghost predicate KeysOrdered(keys: seq<Key>) {
    forall i, j :: 0 <= i < j < |keys| ==> KeyAtMost(keys[i], keys[j])
  }

  lemma FirstIsLeast(xs: seq<Key>, y: Key)
    requires KeysOrdered(xs) && y in xs
    ensures KeyAtMost(xs[0], y)
  {
    OrderIsTotal(y, y);
  }

  lemma {:induction false} SortedIsUnique(xs: seq<Key>, ys: seq<Key>)
    requires KeysOrdered(xs) && KeysOrdered(ys) && multiset(xs) == multiset(ys)
    ensures xs == ys
    decreases |xs|
  {
    assert |xs| == |multiset(xs)| == |ys|;
    if xs != [] {
      Tail(xs);
      Tail(ys);
      FirstIsLeast(xs, ys[0]);
      FirstIsLeast(ys, xs[0]);
      OrderIsTotal(xs[0], ys[0]);
      SortedIsUnique(xs[1..], ys[1..]);
      assert xs == [xs[0]] + xs[1..] && ys == [ys[0]] + ys[1..];
    }
  }

  lemma RankingsPermute(amount: int, a: seq<Candidate>, b: seq<Candidate>)
    requires multiset(a) == multiset(b)
    ensures multiset(RankRoutes(amount, a)) == multiset(RankRoutes(amount, b))
  {
    forall r ensures multiset(RankRoutes(amount, a))[r] == multiset(RankRoutes(amount, b))[r] {
      RankingIsSorted(amount, a, r);
      RankingIsSorted(amount, b, r);
    }
  }

  lemma KeysAgree(xs: seq<Route>, ys: seq<Route>)
    requires Ordered(xs) && Ordered(ys) && multiset(xs) == multiset(ys)
    ensures KeysOf(xs) == KeysOf(ys)
  {
    KeysPermute(xs, ys);
    SortedIsUnique(KeysOf(xs), KeysOf(ys));
  }

  /** However the candidates are listed, and whatever they are, the scores, providers and
      channels come out in the same order: the decision is the same up to the fee it quotes. */
  lemma DecisionIgnoresOrder(amount: int, a: seq<Candidate>, b: seq<Candidate>)
    requires multiset(a) == multiset(b)
    ensures KeysOf(RankRoutes(amount, a)) == KeysOf(RankRoutes(amount, b))
    ensures var (d, e) := (ChooseRoute(amount, a), ChooseRoute(amount, b));
            d.Some? == e.Some? && (d.Some? ==> d.value == e.value.(fee := d.value.fee))
  {
    var (xs, ys) := (RankRoutes(amount, a), RankRoutes(amount, b));
    RankingsPermute(amount, a, b);
    KeysAgree(xs, ys) by {
      SortOrders(Routes(amount, a));
      SortOrders(Routes(amount, b));
    }
    forall i | 0 <= i < |xs| ensures KeyOf(xs[i]) == KeyOf(ys[i]) { assert KeysOf(xs)[i] == KeysOf(ys)[i]; }
  }

  ghost predicate PairsDistinct(candidates: seq<Candidate>) {
    forall i, j :: 0 <= i < j < |candidates| ==>
      !(candidates[i].provider == candidates[j].provider && candidates[i].channel == candidates[j].channel)
  }

  /** With at most one policy for each provider and channel, as the policy table guarantees, the
      fee is the same too: the whole ranking is. */
  lemma RankingIgnoresOrder(amount: int, a: seq<Candidate>, b: seq<Candidate>)
    requires multiset(a) == multiset(b) && PairsDistinct(a)
    ensures RankRoutes(amount, a) == RankRoutes(amount, b) && ChooseRoute(amount, a) == ChooseRoute(amount, b)
  {
    var (xs, ys) := (RankRoutes(amount, a), RankRoutes(amount, b));
    DecisionIgnoresOrder(amount, a, b);
    RankingsPermute(amount, a, b);
    forall i | 0 <= i < |xs| ensures xs[i] == ys[i] {
      assert KeysOf(xs)[i] == KeysOf(ys)[i];
      assert xs[i] in multiset(xs) && ys[i] in multiset(xs);
      RankingIsSorted(amount, a, xs[i]);
      RankingIsSorted(amount, a, ys[i]);
      assert xs[i].candidate in multiset(a) && ys[i].candidate in multiset(a);
    }
  }

  // ----- when the quoted fee is settled -----

  /** The same decision, fee included, in whatever order the candidates are listed. */
  ghost predicate OrderIsIgnored(amount: int, a: seq<Candidate>) {
    forall b: seq<Candidate> :: multiset(b) == multiset(a) ==> ChooseRoute(amount, b) == ChooseRoute(amount, a)
  }

  ghost predicate LeadersAgree(amount: int, a: seq<Candidate>) {
    forall c, d :: Leading(amount, a, c) && Leading(amount, a, d) ==> EstimateFee(amount, c) == EstimateFee(amount, d)
  }

  lemma LeadersPermute(amount: int, a: seq<Candidate>, b: seq<Candidate>, c: Candidate)
    requires multiset(a) == multiset(b) && Leading(amount, a, c)
    ensures Leading(amount, b, c)
  {
    assert c in multiset(a);
    forall e | e in b ensures e in a { assert e in multiset(b); }
  }

  lemma AgreeingLeadersSettle(amount: int, a: seq<Candidate>, b: seq<Candidate>)
    requires LeadersAgree(amount, a) && multiset(b) == multiset(a)
    ensures ChooseRoute(amount, b) == ChooseRoute(amount, a)
  {
    DecisionIgnoresOrder(amount, a, b);
    if RankRoutes(amount, a) != [] && RankRoutes(amount, b) != [] {
      FirstLeads(amount, a);
      FirstLeads(amount, b);
      LeadersPermute(amount, b, a, RankRoutes(amount, b)[0].candidate);
    }
  }

  lemma {:induction false} RoutesOfFront(amount: int, c: Candidate, rest: seq<Candidate>)
    ensures Routes(amount, [c] + rest) == (if Eligible(amount, c) then [RouteOf(amount, c)] else []) + Routes(amount, rest)
    decreases |rest|
  {
    var all := [c] + rest;
    if rest == [] {
      assert all[..|all| - 1] == [] && Routes(amount, all[..|all| - 1]) == [];
    } else {
      assert all[..|all| - 1] == [c] + rest[..|rest| - 1];
      RoutesOfFront(amount, c, rest[..|rest| - 1]);
    }
  }

  /** Stability: a leading candidate that is listed first is the one chosen. */
  lemma ListedFirst(amount: int, c: Candidate, rest: seq<Candidate>)
    requires Leading(amount, [c] + rest, c)
    ensures RankRoutes(amount, [c] + rest) != [] && RankRoutes(amount, [c] + rest)[0] == RouteOf(amount, c)
  {
    var all, first := [c] + rest, RouteOf(amount, c);
    var ranked := RankRoutes(amount, all);
    EligibleIsRanked(amount, all, c);
    FirstLeads(amount, all);
    OrderIsTotal(KeyOf(ranked[0]), KeyOf(first));
    RankingIsSorted(amount, all, first);
    RoutesOfFront(amount, c, rest);
    assert WithKey(Routes(amount, all), KeyOf(first))[0] == first;
    assert WithKey(ranked, KeyOf(first))[0] == ranked[0];
  }

  lemma LeaderCanBeChosen(amount: int, a: seq<Candidate>, c: Candidate) returns (b: seq<Candidate>)
    requires Leading(amount, a, c)
    ensures multiset(b) == multiset(a)
    ensures ChooseRoute(amount, b).Some? && ChooseRoute(amount, b).value.fee == EstimateFee(amount, c)
  {
    var i :| 0 <= i < |a| && a[i] == c;
    var rest := a[..i] + a[i + 1..];
    b := [c] + rest;
    WithoutOne(a, i);
    LeadersPermute(amount, a, b, c);
    ListedFirst(amount, c, rest);
  }

  /** Exactly when the fee is settled: the decision is the same for every order of the
      candidates if and only if all leading candidates charge the same fee. */
  lemma OrderIsIgnoredWhen(amount: int, a: seq<Candidate>)
    ensures OrderIsIgnored(amount, a) <==> LeadersAgree(amount, a)
  {
    if LeadersAgree(amount, a) {
      forall b: seq<Candidate> | multiset(b) == multiset(a) ensures ChooseRoute(amount, b) == ChooseRoute(amount, a) {
        AgreeingLeadersSettle(amount, a, b);
      }
    }
    if OrderIsIgnored(amount, a) {
      forall c, d | Leading(amount, a, c) && Leading(amount, a, d) ensures EstimateFee(amount, c) == EstimateFee(amount, d) {
        var b := LeaderCanBeChosen(amount, a, c);
        var e := LeaderCanBeChosen(amount, a, d);
        assert ChooseRoute(amount, b) == ChooseRoute(amount, a) == ChooseRoute(amount, e);
      }
    }
  }

  /** Two policies for one provider and channel, with the same score from different fees, do it
      for every amount. */
  lemma FeeDependsOnOrder(amount: int)
    ensures exists a :: !OrderIsIgnored(amount, a)
  {
    var x := Candidate("p", "c", 100, 0, 1, true, true, None);
    var y := Candidate("p", "c", 0, 0, 2, true, true, None);
    assert EstimateFee(amount, x) == 100 && EstimateFee(amount, y) == 0;
    assert KeyOf(RouteOf(amount, x)) == KeyOf(RouteOf(amount, y));
    OrderIsTotal(KeyOf(RouteOf(amount, x)), KeyOf(RouteOf(amount, y)));
    assert Leading(amount, [x, y], x) && Leading(amount, [x, y], y);
    OrderIsIgnoredWhen(amount, [x, y]);
  }

  // ----- fees -----

  lemma RateOrders(a: int, b: int, rate: int)
    requires rate >= 0 && a <= b
    ensures a * rate <= b * rate
  {
  }

  /** The fee never falls as the amount grows, and is within half a cent of the exact one. */
  lemma FeeIsMonotone(c: Candidate, a: int, b: int)
    requires c.feeRate >= 0 && a <= b
    ensures EstimateFee(a, c) <= EstimateFee(b, c)
    ensures Nearest(EstimateFee(a, c), c.feeFixed * MILLION + a * c.feeRate, MILLION)
  {
    RateOrders(a, b, c.feeRate);
    HalfEvenMonotone(c.feeFixed * MILLION + a * c.feeRate, c.feeFixed * MILLION + b * c.feeRate, MILLION);
    HalfEvenIsNearest(c.feeFixed * MILLION + a * c.feeRate, MILLION);
  }
}
