/** Ranking quality metrics: hit@k, reciprocal rank and nDCG@k. */
module Retrieval {
  import opened Sorting
  import opened Reciprocals

  /** One item of the relevance mapping; a mapping has each id once. */
  datatype Judgement = Judgement(id: int, gain: real)

  predicate IsMapping(rel: seq<Judgement>) {
    forall i, j :: 0 <= i < j < |rel| ==> rel[i].id != rel[j].id
  }

  /** `relevance.get(id, 0.0)` */
  function Gain(rel: seq<Judgement>, id: int): real {
    if rel == [] then 0.0 else if rel[0].id == id then rel[0].gain else Gain(rel[1..], id)
  }

  /** The base-2 logarithm, of which only positivity and strict growth above 1 matter. */
  ghost predicate IsLog(lg: nat -> real) {
    forall i: nat, j: nat :: 1 < i < j ==> 0.0 < lg(i) < lg(j)
  }

  // ---------- reference definitions ----------

  function Clip(g: real): real { if g > 0.0 then g else 0.0 }

  /** Gains down the ranking; an item without positive gain contributes nothing. */
  function Clipped(rel: seq<Judgement>, ids: seq<int>): (gs: seq<real>)
    ensures |gs| == |ids|
    ensures forall i :: 0 <= i < |ids| ==> gs[i] == Clip(Gain(rel, ids[i]))
  {
    if ids == [] then [] else [Clip(Gain(rel, ids[0]))] + Clipped(rel, ids[1..])
  }

  function PositiveGains(rel: seq<Judgement>): seq<real> {
    if rel == [] then []
    else (if rel[0].gain > 0.0 then [rel[0].gain] else []) + PositiveGains(rel[1..])
  }

  function Negated(x: real): real { -x }

  /** All positive gains, largest first. */
  function IdealOrder(rel: seq<Judgement>): seq<real> { SortBy(PositiveGains(rel), Negated) }

  /** Discounted cumulative gain; position `i` counts from zero. */
  function Dcg(gs: seq<real>, lg: nat -> real): real
    requires IsLog(lg)
  {
    if gs == [] then 0.0 else Dcg(gs[..|gs| - 1], lg) + gs[|gs| - 1] / Divisor(lg, |gs| - 1)
  }

  function Divisor(lg: nat -> real, i: nat): (d: real)
    requires IsLog(lg)
    ensures d > 0.0
  {
    var here: nat := i + 2;
    var next: nat := i + 3;
    assert lg(here) < lg(next);
    lg(here)
  }

  function Ndcg(ranked: seq<int>, rel: seq<Judgement>, k: int, lg: nat -> real): real
    requires IsLog(lg)
  {
    if k <= 0 || ranked == [] || PositiveGains(rel) == [] then 0.0
    else
      var ideal := Dcg(Prefix(IdealOrder(rel), k), lg);
      if ideal == 0.0 then 0.0 else Dcg(Clipped(rel, Prefix(ranked, k)), lg) / ideal
  }

  // ---------- the code ----------

  method NdcgAtK(ranked: seq<int>, relevance: seq<Judgement>, k: int, lg: nat -> real) returns (score: real)
    requires IsMapping(relevance) && IsLog(lg)
    ensures score == Ndcg(ranked, relevance, k, lg)
  {
    if k <= 0 || |ranked| == 0 {
      return 0.0;
    }
    var dcg := RankedDcg(Prefix(ranked, k), relevance, lg);
    var gains := PositiveValues(relevance);
    if gains == [] {
      return 0.0;
    }
    var idealDcg := IdealDcg(Prefix(SortBy(gains, Negated), k), lg);
    if idealDcg == 0.0 {
      return 0.0;
    }
    score := dcg / idealDcg;
  }

  lemma DcgStep(gs: seq<real>, i: nat, lg: nat -> real)
    requires IsLog(lg) && i < |gs|
    ensures Dcg(gs[..i + 1], lg) == Dcg(gs[..i], lg) + gs[i] / Divisor(lg, i)
    ensures gs[i] == 0.0 ==> Dcg(gs[..i + 1], lg) == Dcg(gs[..i], lg)
  {
    hide Divisor;
    assert gs[..i + 1][..i] == gs[..i];
  }

  /** First loop: accumulates discounted gains, skipping those that are not positive. */
  method RankedDcg(top: seq<int>, relevance: seq<Judgement>, lg: nat -> real) returns (dcg: real)
    requires IsLog(lg)
    ensures dcg == Dcg(Clipped(relevance, top), lg)
  {
    ghost var clipped := Clipped(relevance, top);
    dcg := 0.0;
    assert clipped[..0] == [];
    for i := 0 to |top|
      invariant dcg == Dcg(clipped[..i], lg)
    {
      hide Dcg, Divisor, Gain, Clipped, IsLog;
      DcgStep(clipped, i, lg);
      var gain := Gain(relevance, top[i]);
      if gain > 0.0 {
        dcg := dcg + gain / Divisor(lg, i);
      }
    }
    assert clipped[..|top|] == clipped;
  }

  method PositiveValues(relevance: seq<Judgement>) returns (gains: seq<real>)
    ensures gains == PositiveGains(relevance)
  {
    gains := [];
    for i := 0 to |relevance|
      invariant gains + PositiveGains(relevance[i..]) == PositiveGains(relevance)
    {
      assert relevance[i..][1..] == relevance[i + 1..];
      if relevance[i].gain > 0.0 {
        gains := gains + [relevance[i].gain];
      }
    }
  }

  method IdealDcg(best: seq<real>, lg: nat -> real) returns (dcg: real)
    requires IsLog(lg)
    ensures dcg == Dcg(best, lg)
  {
    dcg := 0.0;
    for i := 0 to |best|
      invariant dcg == Dcg(best[..i], lg)
    {
      assert best[..i + 1][..i] == best[..i];
      dcg := dcg + best[i] / Divisor(lg, i);
    }
    assert best[..|best|] == best;
  }

  method HitAtK(ranked: seq<int>, relevant: set<int>, k: int) returns (hit: real)
    ensures hit == if exists i :: 0 <= i < |Prefix(ranked, k)| && Prefix(ranked, k)[i] in relevant then 1.0 else 0.0
  {
    var top := Prefix(ranked, k);
    for i := 0 to |top|
      invariant forall j :: 0 <= j < i ==> top[j] !in relevant
    {
      if top[i] in relevant {
        return 1.0;
      }
    }
    return 0.0;
  }

  method ReciprocalRank(ranked: seq<int>, relevant: set<int>) returns (rr: real)
    ensures rr == FirstRank(ranked, relevant, 1)
  {
    for i := 0 to |ranked|
      invariant FirstRank(ranked[i..], relevant, i + 1) == FirstRank(ranked, relevant, 1)
    {
      assert ranked[i..][1..] == ranked[i + 1..];
      if ranked[i] in relevant {
        return 1.0 / (i + 1) as real;
      }
    }
    return 0.0;
  }

  function FirstRank(ranked: seq<int>, relevant: set<int>, start: nat): real
    requires start > 0
  {
    if ranked == [] then 0.0
    else if ranked[0] in relevant then 1.0 / start as real
    else FirstRank(ranked[1..], relevant, start + 1)
  }

  /** The two metrics agree: there is a hit in the top k exactly when the reciprocal rank is at least 1/k. */
  lemma {:induction false} HitIffReciprocalRank(ranked: seq<int>, relevant: set<int>, k: nat, start: nat)
    requires start > 0 && k > 0
    ensures (exists i :: 0 <= i < |ranked| && start + i <= k && ranked[i] in relevant)
       <==> FirstRank(ranked, relevant, start) >= 1.0 / k as real
  {
    if ranked == [] {
    } else if ranked[0] in relevant {
      InverseOrder(start, k);
      if start > k {
        FirstRankBound(ranked, relevant, start);
      }
    } else {
      HitIffReciprocalRank(ranked[1..], relevant, k, start + 1);
      if i :| 0 <= i < |ranked| && start + i <= k && ranked[i] in relevant {
        assert ranked[1..][i - 1] in relevant;
      }
      if i :| 0 <= i < |ranked[1..]| && start + 1 + i <= k && ranked[1..][i] in relevant {
        assert ranked[i + 1] in relevant;
      }
    }
  }

  lemma FirstRankBound(ranked: seq<int>, relevant: set<int>, start: nat)
    requires start > 0
    ensures 0.0 <= FirstRank(ranked, relevant, start) <= 1.0 / start as real
  {
    if ranked != [] && ranked[0] !in relevant {
      FirstRankBound(ranked[1..], relevant, start + 1);
      InverseOrder(start, start + 1);
    }
  }

  lemma InverseOrder(a: nat, b: nat)
    requires a > 0 && b > 0
    ensures a <= b <==> 1.0 / a as real >= 1.0 / b as real
  {
    if a < b {
      LargerInverse(a as real, b as real);
    } else if b < a {
      LargerInverse(b as real, a as real);
    }
  }
}

/** nDCG lies in [0, 1], by rearrangement; when it reaches 1; and why the ids must be distinct. */
module RetrievalProperties {
  import opened Sorting
  import opened Retrieval

  // ---------- partial sums decide the order of discounted sums ----------

  lemma LogPositive(lg: nat -> real)
    requires IsLog(lg)
    ensures forall n: nat :: n >= 2 ==> lg(n) > 0.0
  {
    forall n: nat | n >= 2
      ensures lg(n) > 0.0
    {
      assert lg(n) < lg(n + 1);
    }
  }

  /** `gain / log2(position + 2)` for every position, counted from zero. */
  function DiscountedGains(gs: seq<real>, lg: nat -> real): (terms: seq<real>)
    requires IsLog(lg)
    ensures |terms| == |gs|
    ensures forall i: nat :: i < |gs| ==> terms[i] * lg(i + 2) == gs[i]
  {
    LogPositive(lg);
    seq(|gs|, i requires 0 <= i < |gs| => gs[i] / lg(i + 2))
  }

  /** What the two loops accumulate is the sum of the discounted gains. */
  lemma {:induction false} DcgIsDiscountedSum(gs: seq<real>, lg: nat -> real)
    requires IsLog(lg)
    ensures Dcg(gs, lg) == Sum(DiscountedGains(gs, lg))
  {
    if gs != [] {
      var n := |gs| - 1;
      var terms := DiscountedGains(gs, lg);
      DcgIsDiscountedSum(gs[..n], lg);
      assert terms[..n] == DiscountedGains(gs[..n], lg);
      SumSplitLast(terms);
      SameQuotient(gs[n], Divisor(lg, n), terms[n]);
    }
  }

  lemma NdcgIsRatioOfSums(ranked: seq<int>, rel: seq<Judgement>, k: int, lg: nat -> real)
    requires IsLog(lg) && k > 0 && ranked != [] && PositiveGains(rel) != []
    ensures var got := Sum(DiscountedGains(Clipped(rel, Prefix(ranked, k)), lg));
      var best := Sum(DiscountedGains(Prefix(IdealOrder(rel), k), lg));
      best > 0.0 && Ndcg(ranked, rel, k, lg) == got / best
  {
    var c, s := Clipped(rel, Prefix(ranked, k)), Prefix(IdealOrder(rel), k);
    DcgIsDiscountedSum(c, lg);
    DcgIsDiscountedSum(s, lg);
    IdealPositive(rel, k, lg);
  }

  lemma SameQuotient(x: real, d: real, q: real)
    requires d > 0.0
    ensures q * d == x <==> q == x / d
  {
    assert (x / d) * d == x;
    assert (q - x / d) * d == q * d - x;
  }

  lemma {:induction false} ZeroGains(gs: seq<real>, lg: nat -> real)
    requires IsLog(lg) && forall i :: 0 <= i < |gs| ==> gs[i] == 0.0
    ensures Dcg(gs, lg) == 0.0
  {
    if gs != [] {
      ZeroGains(gs[..|gs| - 1], lg);
    }
  }

  lemma {:induction false} OneGain(gs: seq<real>, p: nat, lg: nat -> real)
    requires IsLog(lg) && p < |gs| && forall i :: 0 <= i < |gs| && i != p ==> gs[i] == 0.0
    ensures lg(p + 2) != 0.0 && Dcg(gs, lg) == gs[p] / lg(p + 2)
  {
    LogPositive(lg);
    var n := |gs| - 1;
    if p == n {
      ZeroGains(gs[..n], lg);
    } else {
      OneGain(gs[..n], p, lg);
    }
  }

  /** With one relevant id the metric is the discount of its position, relative to that of the first, and 0 below the
      cut. */
  lemma OneRelevantId(ranked: seq<int>, p: nat, g: real, k: int, lg: nat -> real)
    requires IsLog(lg) && Distinct(ranked) && p < |ranked| && g > 0.0
    ensures lg(p + 2) > 0.0
    ensures Ndcg(ranked, [Judgement(ranked[p], g)], k, lg) == if p < k then lg(2) / lg(p + 2) else 0.0
  {
    var rel, top := [Judgement(ranked[p], g)], Prefix(ranked, k);
    LogPositive(lg);
    assert [g][1..] == [] && rel[1..] == [];
    assert PositiveGains(rel) == [g];
    assert IdealOrder(rel) == [g] by { assert SortBy([], Negated) == []; }
    if k > 0 {
      assert Prefix([g], k) == [g];
      OneGain([g], 0, lg);
      assert forall i :: 0 <= i < |top| ==> Gain(rel, top[i]) == if i == p then g else 0.0;
      if p < k {
        OneGain(Clipped(rel, top), p, lg);
        SameNumerator(g, lg(p + 2), lg(2));
      } else {
        ZeroGains(Clipped(rel, top), lg);
      }
    }
  }

  lemma SameNumerator(g: real, c: real, d: real)
    requires g > 0.0 && c > 0.0 && d > 0.0
    ensures g / d != 0.0 && (g / c) / (g / d) == d / c
  {
    var x, y := g / c, g / d;
    assert x * c == g && y * d == g;
    assert y != 0.0;
    assert (d / c) * c == d;
    assert (x / y) * y == x;
    assert (d / c) * y * c == d * y == g == x * c;
    assert (d / c) * y == x;
  }

  /** A mapping gives every listed id its gain, and no other id any. */
  lemma {:induction false} GainMeaning(rel: seq<Judgement>, id: int)
    requires IsMapping(rel)
    ensures forall j :: 0 <= j < |rel| && rel[j].id == id ==> Gain(rel, id) == rel[j].gain
    ensures (forall j :: 0 <= j < |rel| ==> rel[j].id != id) ==> Gain(rel, id) == 0.0
  {
    if rel != [] && rel[0].id != id {
      GainMeaning(rel[1..], id);
      assert forall j :: 1 <= j < |rel| ==> rel[j] == rel[1..][j - 1];
    }
  }

  /** Every partial sum of `a` is at most that of `b`. */
  predicate Dominated(a: seq<real>, b: seq<real>) {
    |a| == |b| && forall i :: 0 <= i <= |a| ==> Sum(a[..i]) <= Sum(b[..i])
  }

  lemma DominatedPrefix(a: seq<real>, b: seq<real>)
    requires Dominated(a, b) && a != []
    ensures Dominated(a[..|a| - 1], b[..|b| - 1])
  {
    var n := |a| - 1;
    forall i | 0 <= i <= n
      ensures Sum(a[..n][..i]) <= Sum(b[..n][..i])
    {
      assert a[..n][..i] == a[..i] && b[..n][..i] == b[..i];
    }
  }

  lemma DivideBoth(x: real, y: real, c: real)
    requires c > 0.0
    ensures y / c - x / c == (y - x) / c
    ensures x >= 0.0 <==> x / c >= 0.0
    ensures x <= 0.0 <==> x / c <= 0.0
  {
  }

  lemma LargerDivisor(t: real, c: real, d: real)
    requires t >= 0.0 && 0.0 < c < d
    ensures t / d <= t / c
    ensures t > 0.0 ==> t / d < t / c
  {
    assert t / c == (t * d) / (c * d) && t / d == (t * c) / (c * d);
    assert t * c <= t * d;
  }

  /** Summation by parts: the surplus of `b` is at least its surplus in plain sum over the last divisor. */
  lemma {:induction false} Surplus(a: seq<real>, b: seq<real>, lg: nat -> real)
    requires IsLog(lg) && Dominated(a, b) && a != []
    ensures Dcg(b, lg) - Dcg(a, lg) >= (Sum(b) - Sum(a)) / Divisor(lg, |a| - 1) >= 0.0
    ensures Dcg(b, lg) == Dcg(a, lg) ==> a == b
  {
    var n := |a| - 1;
    var a', b', d := a[..n], b[..n], Divisor(lg, n);
    assert a[..n + 1] == a && b[..n + 1] == b;
    SumSplitLast(a);
    SumSplitLast(b);
    DominatedPrefix(a, b);
    var t', t := Sum(b') - Sum(a'), Sum(b) - Sum(a);
    DivideBoth(a[n], b[n], d);
    DivideBoth(t, t', d);
    DivideBoth(t', t, d);
    DivideBoth(t, t, d);
    if n > 0 {
      assert 0.0 < lg(n + 1) < lg(n + 2);
      Surplus(a', b', lg);
      LargerDivisor(t', Divisor(lg, n - 1), d);
      if Dcg(b, lg) == Dcg(a, lg) {
        assert t / d == 0.0;
        assert t == (t / d) * d == 0.0;
        assert t' / Divisor(lg, n - 1) <= t' / d;
        assert t' == 0.0;
        assert b[n] == a[n];
        assert a == a' + [a[n]] && b == b' + [b[n]];
      }
    } else {
      assert a' == [] && b' == [];
      if Dcg(b, lg) == Dcg(a, lg) {
        assert a[0] == (a[0] / d) * d && b[0] == (b[0] / d) * d;
        assert a == [a[0]] && b == [b[0]];
      }
    }
  }

  // ---------- padding with zeros changes nothing ----------

  function PadTo(s: seq<real>, k: nat): (r: seq<real>)
    ensures |r| == Max(k, |s|)
    ensures forall i :: 0 <= i < |r| ==> r[i] == if i < |s| then s[i] else 0.0
  {
    s + seq(Max(k, |s|) - |s|, _ => 0.0)
  }

  lemma ZeroKeepsDcg(s: seq<real>, lg: nat -> real)
    requires IsLog(lg)
    ensures Dcg(s + [0.0], lg) == Dcg(s, lg)
  {
    assert (s + [0.0])[..|s|] == s;
  }

  lemma {:induction false} PadKeepsDcg(s: seq<real>, k: nat, lg: nat -> real)
    requires IsLog(lg)
    ensures Dcg(PadTo(s, k), lg) == Dcg(s, lg)
    decreases k
  {
    if k <= |s| {
      assert PadTo(s, k) == s;
    } else {
      PadKeepsDcg(s, k - 1, lg);
      assert PadTo(s, k) == PadTo(s, k - 1) + [0.0];
      ZeroKeepsDcg(PadTo(s, k - 1), lg);
    }
  }

  lemma {:induction false} PadKeepsSum(s: seq<real>, k: nat)
    ensures Sum(PadTo(s, k)) == Sum(s)
    decreases k
  {
    if k <= |s| {
      assert PadTo(s, k) == s;
    } else {
      PadKeepsSum(s, k - 1);
      assert PadTo(s, k) == PadTo(s, k - 1) + [0.0];
      SumAppend(PadTo(s, k - 1), 0.0);
    }
  }

  // ---------- gains of distinct ids are some of the mapping's gains ----------

  function Positives(gs: seq<real>): seq<real> {
    if gs == [] then [] else (if gs[0] > 0.0 then [gs[0]] else []) + Positives(gs[1..])
  }

  lemma {:induction false} PositivesSum(gs: seq<real>)
    requires forall i :: 0 <= i < |gs| ==> gs[i] >= 0.0
    ensures Sum(Positives(gs)) == Sum(gs) && |Positives(gs)| <= |gs|
  {
    if gs != [] {
      PositivesSum(gs[1..]);
      assert ([gs[0]] + Positives(gs[1..]))[1..] == Positives(gs[1..]);
      assert [] + Positives(gs[1..]) == Positives(gs[1..]);
    }
  }

  lemma {:induction false} PositivesAppend(s: seq<real>, t: seq<real>)
    ensures Positives(s + t) == Positives(s) + Positives(t)
  {
    if s == [] {
      assert s + t == t;
    } else {
      assert (s + t)[1..] == s[1..] + t;
      PositivesAppend(s[1..], t);
    }
  }

  lemma {:induction false} UnlistedHasNoGain(rel: seq<Judgement>, id: int)
    requires forall i :: 0 <= i < |rel| ==> rel[i].id != id
    ensures Gain(rel, id) == 0.0
  {
    if rel != [] {
      UnlistedHasNoGain(rel[1..], id);
    }
  }

  lemma ClippedSplit(rel: seq<Judgement>, s: seq<int>, t: seq<int>)
    ensures Clipped(rel, s + t) == Clipped(rel, s) + Clipped(rel, t)
  {
  }

  /** Ids other than the first entry's see only the rest of the mapping. */
  lemma ClippedSkips(rel: seq<Judgement>, ids: seq<int>)
    requires rel != [] && rel[0].id !in ids
    ensures Clipped(rel, ids) == Clipped(rel[1..], ids)
  {
  }

  lemma {:induction false} GainsAreAmongAll(rel: seq<Judgement>, ids: seq<int>)
    requires IsMapping(rel) && Distinct(ids)
    ensures multiset(Positives(Clipped(rel, ids))) <= multiset(PositiveGains(rel))
  {
    if rel == [] {
      NoPositives(Clipped(rel, ids));
      return;
    }
    hide Clipped, Positives, PositiveGains;
    HeadGain(rel);
    if j :| 0 <= j < |ids| && ids[j] == rel[0].id {
      GainsAreAmongAll(rel[1..], ids[..j] + ids[j + 1..]);
      PositivesWithout(rel, ids, j);
    } else {
      ClippedSkips(rel, ids);
      GainsAreAmongAll(rel[1..], ids);
    }
  }

  lemma HeadGain(rel: seq<Judgement>)
    requires rel != []
    ensures PositiveGains(rel) == Positives([Clip(rel[0].gain)]) + PositiveGains(rel[1..])
  {
  }

  /** Taking out the id of the first entry takes out exactly that entry's gain. */
  lemma PositivesWithout(rel: seq<Judgement>, ids: seq<int>, j: nat)
    requires rel != [] && Distinct(ids) && j < |ids| && ids[j] == rel[0].id
    ensures multiset(Positives(Clipped(rel, ids)))
         == multiset(Positives([Clip(rel[0].gain)])) + multiset(Positives(Clipped(rel[1..], ids[..j] + ids[j + 1..])))
  {
    hide Clipped, Positives;
    var l, m, r := ids[..j], [ids[j]], ids[j + 1..];
    assert ids == l + (m + r);
    ClippedSplit(rel, l, m + r);
    ClippedSplit(rel, m, r);
    ClippedSkips(rel, l);
    ClippedSkips(rel, r);
    ClippedSplit(rel[1..], l, r);
    var cl, cm, cr := Clipped(rel, l), Clipped(rel, m), Clipped(rel, r);
    assert cm == [Clip(rel[0].gain)];
    PositivesAppend(cl, cm + cr);
    PositivesAppend(cm, cr);
    PositivesAppend(cl, cr);
  }

  lemma {:induction false} NoPositives(gs: seq<real>)
    requires forall i :: 0 <= i < |gs| ==> gs[i] == 0.0
    ensures Positives(gs) == []
  {
    if gs != [] {
      NoPositives(gs[1..]);
    }
  }

  // ---------- no choice of n gains beats the n largest ----------

  predicate Descending(s: seq<real>) {
    forall i, j :: 0 <= i < j < |s| ==> s[i] >= s[j]
  }

  lemma {:induction false} SumRemove(s: seq<real>, j: nat)
    requires j < |s|
    ensures Sum(s) == s[j] + Sum(s[..j] + s[j + 1..])
    ensures multiset(s) == multiset{s[j]} + multiset(s[..j] + s[j + 1..])
  {
    assert s == s[..j] + [s[j]] + s[j + 1..];
    if j == 0 {
      assert s[..0] + s[1..] == s[1..];
    } else {
      SumRemove(s[1..], j - 1);
      assert s[1..][..j - 1] + s[1..][j..] == (s[..j] + s[j + 1..])[1..];
    }
  }

  lemma RemoveFromBoth(q: multiset<real>, s: multiset<real>, rest: multiset<real>, tail: multiset<real>,
                       x: real, y: real)
    requires q == multiset{x} + rest && s == multiset{y} + tail && q <= s
    requires x == y || y !in q
    ensures rest <= tail
  {
    forall z
      ensures rest[z] <= tail[z]
    {
      assert q[z] <= s[z];
    }
  }

  lemma AlsoIn(q: seq<real>, s: seq<real>, x: real)
    requires multiset(q) <= multiset(s) && x in q
    ensures x in s
  {
    assert x in multiset(q);
  }

  /** An element of `q` to set against the largest of `s`, that very value when `q` has it, and what remains of `q`. */
  lemma Pick(q: seq<real>, s: seq<real>) returns (x: real, rest: seq<real>)
    requires q != [] && multiset(q) <= multiset(s)
    ensures x in s && s != [] && |rest| == |q| - 1
    ensures multiset(rest) <= multiset(s[1..])
    ensures Sum(q) == x + Sum(rest)
  {
    hide Sum;
    AlsoIn(q, s, q[0]);
    var j := if s[0] in q then Position(q, s[0]) else 0;
    x, rest := q[j], q[..j] + q[j + 1..];
    AlsoIn(q, s, x);
    SumRemove(q, j);
    SumRemove(s, 0);
    assert s[..0] + s[1..] == s[1..];
    assert s[0] in q <==> s[0] in multiset(q);
    RemoveFromBoth(multiset(q), multiset(s), multiset(rest), multiset(s[1..]), x, s[0]);
  }

  predicate NonNegative(s: seq<real>) { forall i :: 0 <= i < |s| ==> s[i] >= 0.0 }

  lemma {:induction false} LargestSum(q: seq<real>, s: seq<real>, n: nat)
    requires Descending(s) && NonNegative(s) && multiset(q) <= multiset(s) && |q| <= n
    ensures Sum(q) <= Sum(Prefix(s, n))
    decreases |s|
  {
    if q == [] {
      NonNegativeSum(Prefix(s, n));
    } else {
      var x, rest := Pick(q, s);
      TailDescends(s, x);
      PrefixSum(s, n);
      LargestSum(rest, s[1..], n - 1);
    }
  }

  lemma TailDescends(s: seq<real>, x: real)
    requires Descending(s) && x in s
    ensures Descending(s[1..]) && x <= s[0]
    ensures NonNegative(s) ==> NonNegative(s[1..])
  {
  }

  lemma PrefixSum(s: seq<real>, n: nat)
    requires s != [] && n > 0
    ensures Sum(Prefix(s, n)) == s[0] + Sum(Prefix(s[1..], n - 1))
  {
    assert Prefix(s, n)[1..] == Prefix(s[1..], n - 1);
  }

  function Position(q: seq<real>, x: real): (j: nat)
    requires x in q
    ensures j < |q| && q[j] == x
  {
    if q[0] == x then 0 else 1 + Position(q[1..], x)
  }

  lemma {:induction false} NonNegativeSum(s: seq<real>)
    requires forall i :: 0 <= i < |s| ==> s[i] >= 0.0
    ensures Sum(s) >= 0.0
  {
    if s != [] {
      NonNegativeSum(s[1..]);
    }
  }

  lemma IdealIsDescending(rel: seq<Judgement>)
    ensures Descending(IdealOrder(rel))
    ensures multiset(IdealOrder(rel)) == multiset(PositiveGains(rel))
    ensures forall i :: 0 <= i < |IdealOrder(rel)| ==> IdealOrder(rel)[i] > 0.0
  {
    SortBySorts(PositiveGains(rel), Negated);
    var s := IdealOrder(rel);
    assert forall i, j :: 0 <= i < j < |s| ==> Negated(s[i]) <= Negated(s[j]);
    forall i | 0 <= i < |s|
      ensures s[i] > 0.0
    {
      InMultiset(s, PositiveGains(rel), s[i]);
      AllPositive(rel);
    }
  }

  lemma {:induction false} AllPositive(rel: seq<Judgement>)
    ensures forall g :: g in PositiveGains(rel) ==> g > 0.0
  {
    if rel != [] {
      AllPositive(rel[1..]);
    }
  }

  // ---------- the metric ----------

  lemma TopSumAtMostIdeal(top: seq<int>, rel: seq<Judgement>, i: nat)
    requires IsMapping(rel) && Distinct(top) && |top| <= i
    ensures Sum(Clipped(rel, top)) <= Sum(Prefix(IdealOrder(rel), i))
  {
    hide Clipped, IdealOrder, Prefix;
    IdealIsDescending(rel);
    GainsAreAmongAll(rel, top);
    PositivesSum(Clipped(rel, top));
    LargestSum(Positives(Clipped(rel, top)), IdealOrder(rel), i);
  }

  lemma PaddedPrefix(s: seq<real>, k: nat, i: nat)
    requires |s| <= k && i <= k
    ensures Sum(PadTo(s, k)[..i]) == Sum(Prefix(s, i))
  {
    assert PadTo(s, k)[..i] == PadTo(Prefix(s, i), i);
    PadKeepsSum(Prefix(s, i), i);
  }

  /** The ranking's gains and the ideal gains, both padded to length k, compared by partial sums. */
  lemma TopIsDominated(top: seq<int>, rel: seq<Judgement>, k: nat)
    requires IsMapping(rel) && Distinct(top) && |top| <= k
    ensures Dominated(PadTo(Clipped(rel, top), k), PadTo(Prefix(IdealOrder(rel), k), k))
  {
    hide Clipped, IdealOrder, Sum;
    var c, s := Clipped(rel, top), IdealOrder(rel);
    forall i | 0 <= i <= k
      ensures Sum(PadTo(c, k)[..i]) <= Sum(PadTo(Prefix(s, k), k)[..i])
    {
      var n := Min(i, |top|);
      PaddedPrefix(c, k, i);
      PaddedPrefix(Prefix(s, k), k, i);
      TopSumAtMostIdeal(top[..n], rel, i);
      assert Prefix(c, i) == Clipped(rel, top[..n]);
      assert Prefix(Prefix(s, k), i) == Prefix(s, i);
    }
  }

  lemma {:induction false} DcgPositive(gs: seq<real>, lg: nat -> real)
    requires IsLog(lg) && forall i :: 0 <= i < |gs| ==> gs[i] >= 0.0
    ensures Dcg(gs, lg) >= 0.0
    ensures gs != [] && gs[0] > 0.0 ==> Dcg(gs, lg) > 0.0
  {
    if gs != [] {
      var n := |gs| - 1;
      DcgPositive(gs[..n], lg);
      DivideBoth(gs[n], gs[n], Divisor(lg, n));
    }
  }

  lemma IdealPositive(rel: seq<Judgement>, k: int, lg: nat -> real)
    requires IsLog(lg) && k > 0 && PositiveGains(rel) != []
    ensures Dcg(Prefix(IdealOrder(rel), k), lg) > 0.0
  {
    SortBySorts(PositiveGains(rel), Negated);
    IdealIsDescending(rel);
    DcgPositive(Prefix(IdealOrder(rel), k), lg);
  }

  /** With distinct ids among the top k, nDCG is a fraction, whatever the gains' signs. */
  lemma NdcgInUnitInterval(ranked: seq<int>, rel: seq<Judgement>, k: int, lg: nat -> real)
    requires IsMapping(rel) && IsLog(lg) && Distinct(Prefix(ranked, k))
    ensures 0.0 <= Ndcg(ranked, rel, k, lg) <= 1.0
  {
    if k > 0 && ranked != [] && PositiveGains(rel) != [] {
      var top, s := Prefix(ranked, k), Prefix(IdealOrder(rel), k);
      var c := Clipped(rel, top);
      IdealPositive(rel, k, lg);
      DcgPositive(c, lg);
      TopIsDominated(top, rel, k);
      PadKeepsDcg(c, k, lg);
      PadKeepsDcg(s, k, lg);
      Surplus(PadTo(c, k), PadTo(s, k), lg);
      FractionBounds(Dcg(c, lg), Dcg(s, lg));
    }
  }

  lemma FractionBounds(x: real, y: real)
    requires 0.0 <= x <= y && y > 0.0
    ensures 0.0 <= x / y <= 1.0
    ensures x / y == 1.0 <==> x == y
  {
    assert (x / y) * y == x;
  }

  /** nDCG is 1 exactly when the ranking carries the largest gains in descending order and nothing else of value. */
  lemma NdcgIsOneIffIdeal(ranked: seq<int>, rel: seq<Judgement>, k: int, lg: nat -> real)
    requires IsMapping(rel) && IsLog(lg) && Distinct(Prefix(ranked, k))
    ensures Ndcg(ranked, rel, k, lg) == 1.0 <==>
            k > 0 && ranked != [] && PositiveGains(rel) != []
            && PadTo(Clipped(rel, Prefix(ranked, k)), k) == PadTo(Prefix(IdealOrder(rel), k), k)
  {
    if k > 0 && ranked != [] && PositiveGains(rel) != [] {
      var top, s := Prefix(ranked, k), Prefix(IdealOrder(rel), k);
      var c := Clipped(rel, top);
      IdealPositive(rel, k, lg);
      DcgPositive(c, lg);
      TopIsDominated(top, rel, k);
      PadKeepsDcg(c, k, lg);
      PadKeepsDcg(s, k, lg);
      Surplus(PadTo(c, k), PadTo(s, k), lg);
      FractionBounds(Dcg(c, lg), Dcg(s, lg));
    }
  }

  // ---------- distinctness is needed ----------

  function Ids(rel: seq<Judgement>): seq<int> {
    if rel == [] then [] else [rel[0].id] + Ids(rel[1..])
  }

  /** Gives gain 1 to every id of `ids`, once each. */
  function UnitGains(ids: seq<int>): (rel: seq<Judgement>)
    ensures |rel| <= |ids|
    ensures forall i :: 0 <= i < |rel| ==> rel[i].gain == 1.0 && rel[i].id in ids
    ensures IsMapping(rel)
    ensures !Distinct(ids) ==> |rel| < |ids|
  {
    if ids == [] then []
    else if ids[0] in ids[1..] then UnitGains(ids[1..])
    else
      assert Distinct(ids[1..]) ==> Distinct(ids);
      [Judgement(ids[0], 1.0)] + UnitGains(ids[1..])
  }

  lemma {:induction false} UnitGain(ids: seq<int>, id: int)
    requires id in ids
    ensures Gain(UnitGains(ids), id) == 1.0
  {
    if ids[0] in ids[1..] || id != ids[0] {
      UnitGain(ids[1..], id);
    }
  }

  lemma {:induction false} UnitIdeal(rel: seq<Judgement>)
    requires forall i :: 0 <= i < |rel| ==> rel[i].gain == 1.0
    ensures |PositiveGains(rel)| == |rel| && forall g :: g in PositiveGains(rel) ==> g == 1.0
  {
    if rel != [] {
      UnitIdeal(rel[1..]);
    }
  }

  function Ones(n: nat): (s: seq<real>)
    ensures |s| == n && forall i :: 0 <= i < n ==> s[i] == 1.0
  {
    seq(n, _ => 1.0)
  }

  lemma {:induction false} MoreOnesMoreDcg(m: nat, n: nat, lg: nat -> real)
    requires IsLog(lg) && m < n
    ensures Dcg(Ones(m), lg) < Dcg(Ones(n), lg)
  {
    assert Ones(n)[..n - 1] == Ones(n - 1);
    assert 1.0 / Divisor(lg, n - 1) > 0.0;
    if m < n - 1 {
      MoreOnesMoreDcg(m, n - 1, lg);
    }
  }

  lemma UnitGainsIdeal(ids: seq<int>, k: int)
    requires k >= |ids|
    ensures Prefix(IdealOrder(UnitGains(ids)), k) == Ones(|UnitGains(ids)|)
    ensures |PositiveGains(UnitGains(ids))| == |UnitGains(ids)|
  {
    var rel := UnitGains(ids);
    var s := IdealOrder(rel);
    UnitIdeal(rel);
    SortBySorts(PositiveGains(rel), Negated);
    forall i | 0 <= i < |s|
      ensures s[i] == 1.0
    {
      InMultiset(s, PositiveGains(rel), s[i]);
    }
  }

  lemma UnitGainsClipped(ids: seq<int>)
    ensures Clipped(UnitGains(ids), ids) == Ones(|ids|)
  {
    forall i | 0 <= i < |ids|
      ensures Clipped(UnitGains(ids), ids)[i] == 1.0
    {
      UnitGain(ids, ids[i]);
    }
  }

  lemma RepeatedIdsExceedOne(ranked: seq<int>, k: int, lg: nat -> real)
    requires IsLog(lg) && k > 0 && !Distinct(Prefix(ranked, k))
    ensures Ndcg(ranked, UnitGains(Prefix(ranked, k)), k, lg) > 1.0
  {
    hide Clipped, UnitGains, IdealOrder, PositiveGains, Dcg;
    var top := Prefix(ranked, k);
    var rel := UnitGains(top);
    UnitGain(top, top[0]);
    assert rel != [];
    UnitGainsIdeal(top, k);
    UnitGainsClipped(top);
    MoreOnesMoreDcg(|rel|, |top|, lg);
    IdealPositive(rel, k, lg);
    LargerFraction(Dcg(Ones(|top|), lg), Dcg(Ones(|rel|), lg));
  }

  lemma LargerFraction(x: real, y: real)
    requires x > y > 0.0
    ensures x / y > 1.0
  {
    assert (x / y) * y == x;
  }

  /** The metric stays within 1 for every relevance mapping exactly when the top k ids are distinct. */
  lemma BoundedIffDistinct(ranked: seq<int>, k: int, lg: nat -> real)
    requires IsLog(lg) && k > 0
    ensures (forall rel :: IsMapping(rel) ==> Ndcg(ranked, rel, k, lg) <= 1.0) <==> Distinct(Prefix(ranked, k))
  {
    if Distinct(Prefix(ranked, k)) {
      forall rel | IsMapping(rel)
        ensures Ndcg(ranked, rel, k, lg) <= 1.0
      {
        NdcgInUnitInterval(ranked, rel, k, lg);
      }
    } else {
      RepeatedIdsExceedOne(ranked, k, lg);
    }
  }
}
