/** Grouping a sequence of events by a key, as an insertion-ordered dictionary of accumulators does. */
module Grouping {
  import opened Sorting

  function Total<E>(es: seq<E>, f: E -> real): real {
    if es == [] then 0.0 else Total(es[..|es| - 1], f) + f(es[|es| - 1])
  }

  function One<E>(e: E): real { 1.0 }

  /** The keys in order of first appearance. */
  function Keys<E, K(==)>(es: seq<E>, key: E -> K): seq<K> {
    if es == [] then []
    else
      var ks, k := Keys(es[..|es| - 1], key), key(es[|es| - 1]);
      if k in ks then ks else ks + [k]
  }

  function Of<E, K(==)>(es: seq<E>, key: E -> K, k: K): seq<E> {
    if es == [] then []
    else
      var init, e := es[..|es| - 1], es[|es| - 1];
      Of(init, key, k) + (if key(e) == k then [e] else [])
  }

  /** The totals of the groups of `ks`, added up. */
  function GroupTotals<E, K(==)>(ks: seq<K>, es: seq<E>, key: E -> K, f: E -> real): real {
    if ks == [] then 0.0 else Total(Of(es, key, ks[0]), f) + GroupTotals(ks[1..], es, key, f)
  }

  lemma GroupTotalsStep<E, K>(ks: seq<K>, i: nat, es: seq<E>, key: E -> K, f: E -> real)
    requires i < |ks|
    ensures GroupTotals(ks[i..], es, key, f) == Total(Of(es, key, ks[i]), f) + GroupTotals(ks[i + 1..], es, key, f)
  {
    assert ks[i..][0] == ks[i] && ks[i..][1..] == ks[i + 1..];
  }

  lemma GroupTotalsEnd<E, K>(ks: seq<K>, es: seq<E>, key: E -> K, f: E -> real)
    ensures GroupTotals(ks[|ks|..], es, key, f) == 0.0
  {
    assert ks[|ks|..] == [];
  }

  lemma {:induction false} KeysAreDistinct<E, K>(es: seq<E>, key: E -> K)
    ensures Distinct(Keys(es, key))
    ensures forall e :: e in es ==> key(e) in Keys(es, key)
  {
    if es != [] {
      var init := es[..|es| - 1];
      KeysAreDistinct(init, key);
      assert es == init + [es[|es| - 1]];
    }
  }

  lemma {:induction false} NoGroups<E, K>(ks: seq<K>, key: E -> K, f: E -> real)
    ensures GroupTotals(ks, [], key, f) == 0.0
  {
    if ks != [] {
      NoGroups(ks[1..], key, f);
    }
  }

  lemma {:induction false} OneGroupGrows<E, K>(ks: seq<K>, es: seq<E>, key: E -> K, f: E -> real)
    requires Distinct(ks) && es != []
    ensures var init, e := es[..|es| - 1], es[|es| - 1];
      GroupTotals(ks, es, key, f) == GroupTotals(ks, init, key, f) + (if key(e) in ks then f(e) else 0.0)
  {
    if ks != [] {
      var init, e := es[..|es| - 1], es[|es| - 1];
      OneGroupGrows(ks[1..], es, key, f);
      var group := Of(init, key, ks[0]);
      if key(e) == ks[0] {
        assert (group + [e])[..|group|] == group;
      } else {
        assert group + [] == group;
      }
      assert key(e) in ks <==> key(e) == ks[0] || key(e) in ks[1..];
    }
  }

  lemma {:induction false} CoveredGroups<E, K>(ks: seq<K>, es: seq<E>, key: E -> K, f: E -> real)
    requires Distinct(ks) && forall e :: e in es ==> key(e) in ks
    ensures GroupTotals(ks, es, key, f) == Total(es, f)
  {
    if es == [] {
      NoGroups(ks, key, f);
    } else {
      var init := es[..|es| - 1];
      assert forall e :: e in init ==> e in es;
      CoveredGroups(ks, init, key, f);
      OneGroupGrows(ks, es, key, f);
    }
  }

  /** Whatever is added up per group adds up to the whole. */
  lemma GroupsConserve<E, K>(es: seq<E>, key: E -> K, f: E -> real)
    ensures GroupTotals(Keys(es, key), es, key, f) == Total(es, f)
  {
    KeysAreDistinct(es, key);
    CoveredGroups(Keys(es, key), es, key, f);
  }

  lemma GroupStep<E, K>(es: seq<E>, e: E, key: E -> K, k: K)
    ensures Of(es + [e], key, k) == Of(es, key, k) + (if key(e) == k then [e] else [])
    ensures Keys(es + [e], key) == Keys(es, key) + (if key(e) in Keys(es, key) then [] else [key(e)])
    ensures k !in Keys(es, key) ==> Of(es, key, k) == []
  {
    assert (es + [e])[..|es|] == es;
    assert Keys(es, key) + [] == Keys(es, key);
    UnseenKey(es, key, k);
  }

  lemma {:induction false} UnseenKey<E, K>(es: seq<E>, key: E -> K, k: K)
    ensures k !in Keys(es, key) ==> Of(es, key, k) == []
  {
    if es != [] {
      UnseenKey(es[..|es| - 1], key, k);
    }
  }

  lemma {:induction false} TotalOfOnes<E>(es: seq<E>)
    ensures Total(es, One) == |es| as real
  {
    if es != [] {
      TotalOfOnes(es[..|es| - 1]);
    }
  }
}

/** The aggregator of LLM calls and cache lookups. */
module Metrics {
  import opened Sorting
  import opened Grouping

  datatype Provider = Provider(name: string)

  datatype Namespace = Namespace(name: string)

  datatype Record = Record(
    ts: real, provider: Provider, input: int, output: int, latency: real, cost: real, error: string)

  datatype Lookup = Lookup(space: Namespace, hit: bool)

  datatype Counter = Counter(space: Namespace, hits: nat, misses: nat)

  datatype Bucket = Bucket(provider: Provider, calls: nat, cost: real, latency: real)

  datatype ProviderRow = ProviderRow(provider: Provider, calls: nat, cost: real, avgLatency: real)

  datatype CacheRow = CacheRow(space: Namespace, hits: nat, misses: nat, hitRate: real)

  datatype Report = Report(
    calls: nat, input: int, output: int, cost: real, avgLatency: real, p95: real, errorRate: real,
    byProvider: seq<ProviderRow>, namespaces: seq<CacheRow>, hitRate: real)

  /** Rounding to a number of decimals. */
  type Rounding = (real, nat) -> real

  // ---------- reference ----------

  function ProviderOf(r: Record): Provider { r.provider }
  function CostOf(r: Record): real { r.cost }
  function LatencyOf(r: Record): real { r.latency }
  function InputOf(r: Record): int { r.input }
  function OutputOf(r: Record): int { r.output }
  function SpaceOf(l: Lookup): Namespace { l.space }
  function HitOf(l: Lookup): real { if l.hit then 1.0 else 0.0 }
  function MissOf(l: Lookup): real { if l.hit then 0.0 else 1.0 }

  function InWindow(rs: seq<Record>, cutoff: real): seq<Record> {
    if rs == [] then []
    else InWindow(rs[..|rs| - 1], cutoff) + (if rs[|rs| - 1].ts >= cutoff then [rs[|rs| - 1]] else [])
  }

  function Tokens(rs: seq<Record>, f: Record -> int): int {
    if rs == [] then 0 else Tokens(rs[..|rs| - 1], f) + f(rs[|rs| - 1])
  }

  function Errors(rs: seq<Record>): nat {
    if rs == [] then 0 else Errors(rs[..|rs| - 1]) + (if rs[|rs| - 1].error != "" then 1 else 0)
  }

  function Hits(ls: seq<Lookup>): nat {
    if ls == [] then 0 else Hits(ls[..|ls| - 1]) + (if ls[|ls| - 1].hit then 1 else 0)
  }

  function Misses(ls: seq<Lookup>): nat {
    if ls == [] then 0 else Misses(ls[..|ls| - 1]) + (if ls[|ls| - 1].hit then 0 else 1)
  }

  function Latencies(rs: seq<Record>): (ls: seq<real>)
    ensures |ls| == |rs| && forall i :: 0 <= i < |rs| ==> ls[i] == rs[i].latency
  {
    seq(|rs|, i requires 0 <= i < |rs| => rs[i].latency)
  }

  function Share(part: nat, whole: nat): real { if whole == 0 then 0.0 else part as real / whole as real }

  function Mean(total: real, n: nat): real { if n == 0 then 0.0 else total / n as real }

  /** A rate is the part of the whole, and a mean the total shared out; of nothing, they and the percentile are zero. */
  lemma RatesMean(part: nat, whole: nat, total: real, pct: real, round: Rounding)
    ensures Share(part, whole) * whole as real == if whole == 0 then 0.0 else part as real
    ensures Mean(total, whole) * whole as real == if whole == 0 then 0.0 else total
    ensures whole == 0 ==> Share(part, whole) == Mean(total, whole) == 0.0
    ensures part <= whole ==> 0.0 <= Share(part, whole) <= 1.0
    ensures RoundedShare(part, whole, round) == (if whole == 0 then 0.0 else round(Share(part, whole), 4))
    ensures Percentile([], pct) == 0.0
  {
    if whole > 0 {
      var x, n := Share(part, whole), whole as real;
      assert x * n == part as real;
      if part <= whole {
        assert n * (1.0 - x) == n - x * n >= 0.0;
      }
    }
  }

  /** One counter per namespace, with what was recorded under it. */
  predicate Counts(counters: seq<Counter>, ls: seq<Lookup>) {
    var ks := Keys(ls, SpaceOf);
    |counters| == |ks|
    && forall i :: 0 <= i < |ks| ==>
         counters[i] == Counter(ks[i], Hits(Of(ls, SpaceOf, ks[i])), Misses(Of(ls, SpaceOf, ks[i])))
  }

  function BucketOf(rs: seq<Record>, p: Provider): Bucket {
    var mine := Of(rs, ProviderOf, p);
    Bucket(p, |mine|, Total(mine, CostOf), Total(mine, LatencyOf))
  }

  predicate Buckets(buckets: seq<Bucket>, rs: seq<Record>) {
    var ks := Keys(rs, ProviderOf);
    |buckets| == |ks| && forall i :: 0 <= i < |ks| ==> buckets[i] == BucketOf(rs, ks[i])
  }

  /** Zero attempts count as a rate of zero, unrounded. */
  function RoundedShare(part: nat, whole: nat, round: Rounding): real {
    if whole == 0 then 0.0 else round(Share(part, whole), 4)
  }

  function ProviderRowOf(rs: seq<Record>, p: Provider, round: Rounding): ProviderRow {
    var mine := Of(rs, ProviderOf, p);
    ProviderRow(p, |mine|, round(Total(mine, CostOf), 6), round(Mean(Total(mine, LatencyOf), |mine|), 3))
  }

  predicate ProviderTable(rows: seq<ProviderRow>, rs: seq<Record>, round: Rounding) {
    var ps := Keys(rs, ProviderOf);
    |rows| == |ps| && forall i :: 0 <= i < |ps| ==> rows[i] == ProviderRowOf(rs, ps[i], round)
  }

  function CacheRowOf(ls: seq<Lookup>, k: Namespace, round: Rounding): CacheRow {
    var mine := Of(ls, SpaceOf, k);
    CacheRow(k, Hits(mine), Misses(mine), RoundedShare(Hits(mine), |mine|, round))
  }

  predicate CacheTable(rows: seq<CacheRow>, ls: seq<Lookup>, round: Rounding) {
    var ns := Keys(ls, SpaceOf);
    |rows| == |ns| && forall i :: 0 <= i < |ns| ==> rows[i] == CacheRowOf(ls, ns[i], round)
  }

  // ---------- the percentile ----------

  /** Python's `math.ceil`. */
  function Ceil(x: real): int { -((-x).Floor) }

  /** The nearest rank, before clamping. */
  function Rank(pct: real, n: nat): int { Ceil(pct / 100.0 * n as real) }

  /** `count` of `n` values are at least `pct` percent. */
  predicate Covers(count: nat, pct: real, n: nat) { count as real * 100.0 >= pct * n as real }

  function Id(x: real): real { x }

  function Percentile(values: seq<real>, pct: real): real {
    if values == [] then 0.0
    else
      SortBySorts(values, Id);
      var ordered := SortBy(values, Id);
      var k := Max(1, Rank(pct, |ordered|));
      ordered[Min(k - 1, |ordered| - 1)]
  }

  function AtMost(values: seq<real>, v: real): nat {
    if values == [] then 0 else (if values[0] <= v then 1 else 0) + AtMost(values[1..], v)
  }

  lemma {:induction false} AtMostInsert(x: real, s: seq<real>, v: real)
    ensures AtMost(Insert(x, s, Id), v) == AtMost(s, v) + (if x <= v then 1 else 0)
  {
    assert ([x] + s)[1..] == s;
    if s != [] && x > s[0] {
      AtMostInsert(x, s[1..], v);
      var r := Insert(x, s[1..], Id);
      assert ([s[0]] + r)[1..] == r;
    }
  }

  lemma {:induction false} AtMostSorted(s: seq<real>, v: real)
    ensures AtMost(SortBy(s, Id), v) == AtMost(s, v)
  {
    if s != [] {
      AtMostSorted(s[1..], v);
      AtMostInsert(s[0], SortBy(s[1..], Id), v);
    }
  }

  /** In an ordered list, `i + 1` elements are at most `v` exactly when element `i` is. */
  lemma {:induction false} AtMostInOrder(o: seq<real>, v: real, i: nat)
    requires SortedBy(o, Id) && i < |o|
    ensures AtMost(o, v) <= |o|
    ensures AtMost(o, v) >= i + 1 <==> o[i] <= v
  {
    assert forall j, k :: 0 <= j < k < |o| ==> Id(o[j]) <= Id(o[k]);
    if |o| > 1 {
      if i > 0 {
        AtMostInOrder(o[1..], v, i - 1);
      } else {
        AtMostInOrder(o[1..], v, 0);
      }
      assert Id(o[0]) <= Id(o[1]) && (i > 0 ==> Id(o[0]) <= Id(o[i]));
    } else {
      assert o[1..] == [];
    }
  }

  /** The rank of the percentile: the least count that is at least `pct` percent of `n`. */
  lemma RankIsLeastShare(pct: real, n: nat, m: nat)
    requires n > 0 && 0.0 < pct <= 100.0
    ensures 1 <= Rank(pct, n) <= n
    ensures Covers(m, pct, n) <==> m >= Rank(pct, n)
  {
    var x := pct / 100.0 * n as real;
    assert 100.0 * x == pct * n as real;
    assert 0.0 < x <= n as real by {
      assert pct * n as real <= 100.0 * n as real;
      assert pct * n as real > 0.0;
    }
    assert m >= Ceil(x) <==> m as real >= x;
  }

  lemma SameElements(s: seq<real>, x: real)
    ensures x in SortBy(s, Id) <==> x in s
  {
    SortBySorts(s, Id);
    InMultiset(SortBy(s, Id), s, x);
  }

  /** Nearest rank: the least element with at least `pct` percent of the values at or below it: a bound covers that
      share exactly when it is no smaller. */
  lemma PercentileIsNearestRank(values: seq<real>, pct: real, w: real)
    requires values != [] && 0.0 < pct <= 100.0
    ensures var v := Percentile(values, pct);
      v in values && (Covers(AtMost(values, w), pct, |values|) <==> v <= w)
  {
    hide SortBy, SortedBy, AtMost, Rank, Covers;
    SortBySorts(values, Id);
    var o, v := SortBy(values, Id), Percentile(values, pct);
    var k := Rank(pct, |values|);
    RankIsLeastShare(pct, |values|, AtMost(values, w));
    assert v == o[k - 1];
    SameElements(values, v);
    AtMostSorted(values, w);
    AtMostInOrder(o, w, k - 1);
  }

  /** Outside that range it is clamped: to the smallest value from 0 down, to the largest from 100 up. */
  lemma PercentileIsClamped(values: seq<real>, pct: real, x: real)
    requires x in values
    ensures Percentile(values, pct) in values
    ensures pct <= 0.0 ==> Percentile(values, pct) <= x
    ensures pct >= 100.0 ==> Percentile(values, pct) >= x
  {
    hide SortBy, Rank;
    SortBySorts(values, Id);
    var o, n := SortBy(values, Id), |values|;
    SameElements(values, x);
    SameElements(values, Percentile(values, pct));
    var j :| 0 <= j < |o| && o[j] == x;
    assert j > 0 ==> Id(o[0]) <= Id(o[j]);
    assert j < n - 1 ==> Id(o[j]) <= Id(o[n - 1]);
    RankIsClamped(pct, n);
  }

  lemma RankIsClamped(pct: real, n: nat)
    ensures pct <= 0.0 ==> Rank(pct, n) <= 0
    ensures pct >= 100.0 ==> Rank(pct, n) >= n
  {
    if pct <= 0.0 {
      assert pct / 100.0 * n as real <= 0.0;
    } else if pct >= 100.0 {
      assert (pct / 100.0 - 1.0) * n as real >= 0.0;
      assert pct / 100.0 * n as real == n as real + (pct / 100.0 - 1.0) * n as real;
    }
  }

  // ---------- the code ----------

  /** Appending and dropping the oldest record when there are too many keeps the last `n`. */
  lemma RingStep<T>(s: seq<T>, x: T, n: nat)
    ensures var wide := Last(s, n) + [x];
      (if |wide| > n then wide[1..] else wide) == Last(s + [x], n)
  {
  }

  class Metrics {
    const maxRecords: nat
    var records: seq<Record>
    var counters: seq<Counter>
    /** Everything recorded since the start or the last reset. */
    ghost var calls: seq<Record>
    ghost var lookups: seq<Lookup>

    /** The buffer holds the last `maxRecords` calls; the counters have missed no lookup. */
    ghost predicate Valid()
      reads this
    {
      records == Last(calls, maxRecords) && Counts(counters, lookups)
    }

    constructor (maxRecords: nat)
      ensures Valid() && calls == [] && lookups == [] && this.maxRecords == maxRecords
    {
      this.maxRecords, records, counters, calls, lookups := maxRecords, [], [], [], [];
    }

    method RecordLlmCall(r: Record)
      requires Valid()
      modifies this
      ensures Valid() && calls == old(calls) + [r] && lookups == old(lookups)
    {
      hide Last, Counts;
      RingStep(calls, r, maxRecords);
      records := records + [r];
      if |records| > maxRecords {
        records := records[1..];
      }
      calls := calls + [r];
    }

    method RecordCache(space: Namespace, hit: bool)
      requires Valid()
      modifies this
      ensures Valid() && lookups == old(lookups) + [Lookup(space, hit)] && calls == old(calls)
    {
      hide Keys, Of, Hits, Misses, Last, Counts;
      ghost var ls, l := lookups, Lookup(space, hit);
      var i := CounterIndex(space);
      if i == |counters| {
        counters := counters + [Counter(space, 0, 0)];
      }
      counters := counters[i := if hit then counters[i].(hits := counters[i].hits + 1)
                                else counters[i].(misses := counters[i].misses + 1)];
      lookups := lookups + [l];
      CountOne(old(counters), ls, l, i);
    }

    method CounterIndex(space: Namespace) returns (i: nat)
      requires Valid()
      ensures i <= |counters| && |counters| == |Keys(lookups, SpaceOf)|
      ensures i < |counters| ==> Keys(lookups, SpaceOf)[i] == space
      ensures i == |counters| ==> space !in Keys(lookups, SpaceOf)
    {
      i := 0;
      while i < |counters| && counters[i].space != space
        invariant i <= |counters| && forall j :: 0 <= j < i ==> counters[j].space != space
      {
        i := i + 1;
      }
    }

    method Summary(windowSeconds: int, now: real, round: Rounding) returns (s: Report)
      requires Valid()
      ensures var rs := InWindow(Last(calls, maxRecords), now - Max(1, windowSeconds) as real);
        s.calls == |rs| && s.input == Tokens(rs, InputOf) && s.output == Tokens(rs, OutputOf)
        && s.cost == round(Total(rs, CostOf), 6)
        && s.avgLatency == round(Mean(Total(rs, LatencyOf), |rs|), 3)
        && s.p95 == round(Percentile(Latencies(rs), 95.0), 3)
        && s.errorRate == round(Share(Errors(rs), |rs|), 4)
        && ProviderTable(s.byProvider, rs, round)
      ensures CacheTable(s.namespaces, lookups, round) && s.hitRate == RoundedShare(Hits(lookups), |lookups|, round)
    {
      hide InWindow, Tokens, Total, Errors, Hits, Misses, Percentile, ProviderTable, CacheTable, RoundedShare, Keys, Of;
      var rs := Recent(now - Max(1, windowSeconds) as real);
      var buckets := ByProvider(rs);
      var rows := ProviderRows(buckets, rs, round);
      var namespaces, hits, misses := CacheRows(round);
      var input, output, cost, latency, errors := Sums(rs);
      s := Report(|rs|, input, output, round(cost, 6), round(Mean(latency, |rs|), 3),
                  round(Percentile(Latencies(rs), 95.0), 3), round(Share(errors, |rs|), 4), rows, namespaces,
                  RoundedShare(hits, hits + misses, round));
    }

    method Recent(cutoff: real) returns (rs: seq<Record>)
      ensures rs == InWindow(records, cutoff)
    {
      rs := [];
      for i := 0 to |records|
        invariant rs == InWindow(records[..i], cutoff)
      {
        assert records[..i + 1][..i] == records[..i];
        if records[i].ts >= cutoff {
          rs := rs + [records[i]];
        }
      }
      assert records[..|records|] == records;
    }

    method CacheRows(round: Rounding) returns (rows: seq<CacheRow>, hits: nat, misses: nat)
      requires Valid()
      ensures hits == Hits(lookups) && hits + misses == |lookups|
      ensures CacheTable(rows, lookups, round)
    {
      ghost var ns := Keys(lookups, SpaceOf);
      rows, hits, misses := [], 0, 0;
      GroupsConserve(lookups, SpaceOf, HitOf);
      GroupsConserve(lookups, SpaceOf, MissOf);
      HitsAsTotal(lookups);
      assert ns[0..] == ns;
      hide Total, Keys, Of, Hits, Misses, GroupTotals, RoundedShare;
      for i := 0 to |counters|
        invariant |rows| == i
        invariant hits as real + GroupTotals(ns[i..], lookups, SpaceOf, HitOf) == Total(lookups, HitOf)
        invariant misses as real + GroupTotals(ns[i..], lookups, SpaceOf, MissOf) == Total(lookups, MissOf)
        invariant forall j :: 0 <= j < i ==> rows[j] == CacheRowOf(lookups, ns[j], round)
      {
        var c := counters[i];
        GroupTotalsStep(ns, i, lookups, SpaceOf, HitOf);
        GroupTotalsStep(ns, i, lookups, SpaceOf, MissOf);
        HitsAsTotal(Of(lookups, SpaceOf, ns[i]));
        hits, misses := hits + c.hits, misses + c.misses;
        rows := rows + [CacheRow(c.space, c.hits, c.misses, RoundedShare(c.hits, c.hits + c.misses, round))];
      }
      GroupTotalsEnd(ns, lookups, SpaceOf, HitOf);
      GroupTotalsEnd(ns, lookups, SpaceOf, MissOf);
    }
  }

  lemma LookupStep(ls: seq<Lookup>, l: Lookup)
    ensures Hits(ls + [l]) == Hits(ls) + (if l.hit then 1 else 0)
    ensures Misses(ls + [l]) == Misses(ls) + (if l.hit then 0 else 1)
  {
    assert (ls + [l])[..|ls|] == ls;
  }

  /** Counting one lookup in the counter of its namespace, which may be new. */
  lemma CountOne(counters: seq<Counter>, ls: seq<Lookup>, l: Lookup, i: nat)
    requires Counts(counters, ls)
    requires var ks := Keys(ls, SpaceOf); if i < |ks| then ks[i] == l.space else i == |ks| && l.space !in ks
    ensures var wide := if i < |counters| then counters else counters + [Counter(l.space, 0, 0)];
      var c := wide[i];
      Counts(wide[i := if l.hit then c.(hits := c.hits + 1) else c.(misses := c.misses + 1)], ls + [l])
  {
    hide Hits, Misses, Keys, Of;
    KeysAreDistinct(ls, SpaceOf);
    var ks, all := Keys(ls, SpaceOf), Keys(ls + [l], SpaceOf);
    GroupStep(ls, l, SpaceOf, l.space);
    NoLookups();
    forall j | 0 <= j < |all|
      ensures var mine, before := Of(ls + [l], SpaceOf, all[j]), Of(ls, SpaceOf, all[j]);
        if j == i then Hits(mine) == Hits(before) + (if l.hit then 1 else 0)
                       && Misses(mine) == Misses(before) + (if l.hit then 0 else 1)
        else mine == before
    {
      var before := Of(ls, SpaceOf, all[j]);
      GroupStep(ls, l, SpaceOf, all[j]);
      LookupStep(before, l);
      assert before + [] == before;
    }
  }

  lemma NoLookups()
    ensures Hits([]) == 0 && Misses([]) == 0
  {
  }

  lemma RecordStep(rs: seq<Record>, r: Record, f: Record -> real)
    ensures Total(rs + [r], f) == Total(rs, f) + f(r)
  {
    assert (rs + [r])[..|rs|] == rs;
  }

  /** Adding one call to the bucket of its provider, which may be new. */
  lemma BucketOne(buckets: seq<Bucket>, rs: seq<Record>, r: Record, i: nat)
    requires Buckets(buckets, rs)
    requires var ks := Keys(rs, ProviderOf); if i < |ks| then ks[i] == r.provider else i == |ks| && r.provider !in ks
    ensures var wide := if i < |buckets| then buckets else buckets + [Bucket(r.provider, 0, 0.0, 0.0)];
      var b := wide[i];
      Buckets(wide[i := b.(calls := b.calls + 1, cost := b.cost + r.cost, latency := b.latency + r.latency)], rs + [r])
  {
    hide Total, Keys, Of;
    KeysAreDistinct(rs, ProviderOf);
    var all := Keys(rs + [r], ProviderOf);
    GroupStep(rs, r, ProviderOf, r.provider);
    NoCalls();
    forall j | 0 <= j < |all|
      ensures var mine, before := BucketOf(rs + [r], all[j]), BucketOf(rs, all[j]);
        if j == i then mine == Bucket(r.provider, before.calls + 1, before.cost + r.cost, before.latency + r.latency)
        else mine == before
    {
      var before := Of(rs, ProviderOf, all[j]);
      GroupStep(rs, r, ProviderOf, all[j]);
      RecordStep(before, r, CostOf);
      RecordStep(before, r, LatencyOf);
      assert before + [] == before;
    }
  }

  lemma NoCalls()
    ensures Total([], CostOf) == 0.0 && Total([], LatencyOf) == 0.0
  {
  }

  lemma NoBuckets()
    ensures Buckets([], [])
  {
  }

  method BucketIndex(buckets: seq<Bucket>, rs: seq<Record>, p: Provider) returns (i: nat)
    requires Buckets(buckets, rs)
    ensures var ks := Keys(rs, ProviderOf);
      i <= |buckets| == |ks| && (if i < |ks| then ks[i] == p else p !in ks)
  {
    i := 0;
    while i < |buckets| && buckets[i].provider != p
      invariant i <= |buckets| && forall j :: 0 <= j < i ==> buckets[j].provider != p
    {
      i := i + 1;
    }
  }

  method ByProvider(rs: seq<Record>) returns (buckets: seq<Bucket>)
    ensures Buckets(buckets, rs)
  {
    buckets := [];
    hide Total, Keys, Of, Buckets, BucketOf;
    NoBuckets();
    assert rs[..0] == [];
    for n := 0 to |rs|
      invariant Buckets(buckets, rs[..n])
    {
      var r := rs[n];
      var i := BucketIndex(buckets, rs[..n], r.provider);
      BucketOne(buckets, rs[..n], r, i);
      assert rs[..n + 1] == rs[..n] + [r];
      if i == |buckets| {
        buckets := buckets + [Bucket(r.provider, 0, 0.0, 0.0)];
      }
      var b := buckets[i];
      buckets := buckets[i := b.(calls := b.calls + 1, cost := b.cost + r.cost, latency := b.latency + r.latency)];
    }
    assert rs[..|rs|] == rs;
  }

  method ProviderRows(buckets: seq<Bucket>, ghost rs: seq<Record>, round: Rounding) returns (rows: seq<ProviderRow>)
    requires Buckets(buckets, rs)
    ensures ProviderTable(rows, rs, round)
  {
    ghost var ps := Keys(rs, ProviderOf);
    rows := [];
    for n := 0 to |buckets|
      invariant |rows| == n
      invariant forall i :: 0 <= i < n ==> rows[i] == ProviderRowOf(rs, ps[i], round)
    {
      hide Total, Keys, Of;
      var b := buckets[n];
      SomeCalls(rs, ProviderOf, ps, n);
      var divisor := if b.calls == 0 then 1 else b.calls;
      rows := rows + [ProviderRow(b.provider, b.calls, round(b.cost, 6), round(b.latency / divisor as real, 3))];
    }
  }

  /** No provider in the list is without calls. */
  lemma {:induction false} SomeCalls<E, K>(es: seq<E>, key: E -> K, ks: seq<K>, i: nat)
    requires ks == Keys(es, key) && i < |ks|
    ensures Of(es, key, ks[i]) != []
  {
    var init := es[..|es| - 1];
    if i < |Keys(init, key)| {
      SomeCalls(init, key, Keys(init, key), i);
    }
  }

  method Sums(rs: seq<Record>) returns (input: int, output: int, cost: real, latency: real, errors: nat)
    ensures input == Tokens(rs, InputOf) && output == Tokens(rs, OutputOf)
    ensures cost == Total(rs, CostOf) && latency == Total(rs, LatencyOf) && errors == Errors(rs)
  {
    input, output, cost, latency, errors := 0, 0, 0.0, 0.0, 0;
    for i := 0 to |rs|
      invariant input == Tokens(rs[..i], InputOf) && output == Tokens(rs[..i], OutputOf)
      invariant cost == Total(rs[..i], CostOf) && latency == Total(rs[..i], LatencyOf) && errors == Errors(rs[..i])
    {
      assert rs[..i + 1][..i] == rs[..i];
      var r := rs[i];
      input, output, cost, latency := input + r.input, output + r.output, cost + r.cost, latency + r.latency;
      errors := errors + if r.error != "" then 1 else 0;
    }
    assert rs[..|rs|] == rs;
  }

  lemma {:induction false} HitsAsTotal(ls: seq<Lookup>)
    ensures Total(ls, HitOf) == Hits(ls) as real && Total(ls, MissOf) == Misses(ls) as real
    ensures Hits(ls) + Misses(ls) == |ls|
  {
    if ls != [] {
      HitsAsTotal(ls[..|ls| - 1]);
    }
  }

  /** The breakdown by provider accounts for every call, every cent and every millisecond in the window: with `One`,
      `CostOf` and `LatencyOf` for `f`. */
  lemma ProvidersConserve(rs: seq<Record>, f: Record -> real)
    ensures GroupTotals(Keys(rs, ProviderOf), rs, ProviderOf, f) == Total(rs, f)
  {
    GroupsConserve(rs, ProviderOf, f);
  }

  /** In particular the calls per provider add up to the number of calls. */
  lemma CallsConserve(rs: seq<Record>)
    ensures GroupTotals(Keys(rs, ProviderOf), rs, ProviderOf, One) == |rs| as real
  {
    GroupsConserve(rs, ProviderOf, One);
    TotalOfOnes(rs);
  }
}
