/** Content-based recommendation with masking, top-k and an early break. */
module Recommender {
  import opened Menu
  import opened Sorting

  datatype Item = Item(food: Food, score: real, reason: string)

  datatype Strategy = ByContent | ByPopularity

  datatype Recommendation = Recommendation(strategy: Strategy, hasHistory: bool, items: seq<Item>)

  const MAX_LIMIT: nat := 20

  /** A similarity, or minus infinity for an item the user already had. */
  datatype Score = NegInf | Fin(value: real)

  predicate AtMost(a: Score, b: Score) {
    a.NegInf? || (b.Fin? && a.value <= b.value)
  }

  // ---------- top-k ----------

  /** `idx` holds k positions, best first, and none left out is better than one chosen. */
  predicate IsTopK(idx: seq<nat>, scores: seq<Score>, k: nat) {
    |idx| == k && Distinct(idx)
    && (forall p :: 0 <= p < k ==> idx[p] < |scores|)
    && (forall p, q :: 0 <= p < q < k ==> AtMost(scores[idx[q]], scores[idx[p]]))
    && (forall d, p :: 0 <= d < |scores| && d !in idx && 0 <= p < k ==> AtMost(scores[d], scores[idx[p]]))
  }

  method TopK(scores: seq<Score>, k: nat) returns (idx: seq<nat>)
    requires k <= |scores|
    ensures IsTopK(idx, scores, k)
  {
    idx := [];
    for n := 0 to k
      invariant IsTopK(idx, scores, n)
    {
      var best := Best(scores, idx);
      idx := idx + [best];
    }
  }

  /** The first best position outside `taken`. */
  method Best(scores: seq<Score>, taken: seq<nat>) returns (best: nat)
    requires Distinct(taken) && |taken| < |scores|
    ensures best < |scores| && best !in taken
    ensures forall d :: 0 <= d < |scores| && d !in taken ==> AtMost(scores[d], scores[best])
  {
    var found := false;
    best := 0;
    for i := 0 to |scores|
      invariant found ==> best < i && best !in taken
      invariant found ==> forall d :: 0 <= d < i && d !in taken ==> AtMost(scores[d], scores[best])
      invariant !found ==> forall d :: 0 <= d < i ==> d in taken
    {
      if i !in taken && (!found || !AtMost(scores[i], scores[best])) {
        found, best := true, i;
      }
    }
    if !found {
      TakenAll(taken, |scores|);
    }
  }

  lemma TakenAll(taken: seq<nat>, n: nat)
    requires Distinct(taken) && forall d :: 0 <= d < n ==> d in taken
    ensures n <= |taken|
  {
    var all := Range(n);
    assert forall i, j :: 0 <= i < j < n ==> all[i] != all[j];
    MembersSize(taken);
    MembersSize(all);
    SubsetSize(Members(all), Members(taken));
  }

  function Members(s: seq<nat>): set<nat> { set x | x in s }

  lemma {:induction false} MembersSize(s: seq<nat>)
    requires Distinct(s)
    ensures |Members(s)| == |s|
  {
    if s != [] {
      var init, last := s[..|s| - 1], s[|s| - 1];
      MembersSize(init);
      assert s == init + [last];
      assert Members(s) == Members(init) + {last};
      assert last !in init;
    }
  }

  // ---------- reference ----------

  /** Positions of the corpus items the user has had, and of those he has not. */
  function Positions(corpus: seq<Food>, seen: set<int>, had: bool): (r: seq<nat>)
    ensures forall i :: i in r <==> 0 <= i < |corpus| && (corpus[i].id in seen) == had
    ensures Distinct(r) && forall i :: i in r ==> i < |corpus|
  {
    if corpus == [] then []
    else
      var n := |corpus| - 1;
      var rest := Positions(corpus[..n], seen, had);
      assert n !in rest;
      if (corpus[n].id in seen) == had then rest + [n] else rest
  }

  function Masked(corpus: seq<Food>, seen: set<int>, sims: seq<real>): (scores: seq<Score>)
    requires |sims| == |corpus|
    ensures |scores| == |corpus|
    ensures forall i :: 0 <= i < |scores| ==> scores[i] == if corpus[i].id in seen then NegInf else Fin(sims[i])
  {
    seq(|corpus|, i requires 0 <= i < |corpus| => if corpus[i].id in seen then NegInf else Fin(sims[i]))
  }

  /** `picks` are the best unseen positions, as many as the limit and the corpus allow. */
  predicate BestUnseen(picks: seq<nat>, corpus: seq<Food>, seen: set<int>, sims: seq<real>, limit: nat)
    requires |sims| == |corpus|
  {
    |picks| == Min(limit, |Positions(corpus, seen, false)|)
    && Distinct(picks)
    && (forall p :: 0 <= p < |picks| ==> picks[p] < |corpus| && corpus[picks[p]].id !in seen)
    && (forall p, q :: 0 <= p < q < |picks| ==> sims[picks[p]] >= sims[picks[q]])
    && (forall d, p :: 0 <= d < |corpus| && corpus[d].id !in seen && d !in picks && 0 <= p < |picks| ==>
          sims[d] <= sims[picks[p]])
  }

  predicate Shows(items: seq<Item>, picks: seq<nat>, corpus: seq<Food>, sims: seq<real>, round: real -> real)
    requires |sims| == |corpus|
  {
    |items| == |picks|
    && forall p :: 0 <= p < |picks| ==>
         picks[p] < |corpus|
         && items[p] == Item(corpus[picks[p]], round(sims[picks[p]]), "Similar to items in your past orders")
  }

  function Popular(corpus: seq<Food>, limit: nat): Recommendation {
    var top := corpus[..Min(limit, |corpus|)];
    Recommendation(ByPopularity, false,
                   seq(|top|, i requires 0 <= i < |top| => Item(top[i], 0.0, "Popular item")))
  }

  /** What the content-based path owes its caller. */
  ghost predicate IsContentBased(r: Recommendation, corpus: seq<Food>, seen: set<int>, sims: seq<real>, limit: nat,
                                 round: real -> real)
    requires |sims| == |corpus|
  {
    r.strategy.ByContent? && r.hasHistory
    && exists picks :: BestUnseen(picks, corpus, seen, sims, limit) && Shows(r.items, picks, corpus, sims, round)
  }

  // ---------- masking, top-k and the break work together ----------

  /** How many leading picks come before the first masked one. */
  function Leading(idx: seq<nat>, scores: seq<Score>): (m: nat)
    requires forall p :: 0 <= p < |idx| ==> idx[p] < |scores|
    ensures m <= |idx| && (forall p :: 0 <= p < m ==> scores[idx[p]].Fin?)
    ensures m < |idx| ==> scores[idx[m]].NegInf?
  {
    if idx == [] || scores[idx[0]].NegInf? then 0 else 1 + Leading(idx[1..], scores)
  }

  lemma LeadingIs(idx: seq<nat>, scores: seq<Score>, m: nat)
    requires m <= |idx| && forall p :: 0 <= p < |idx| ==> idx[p] < |scores|
    requires (forall p :: 0 <= p < m ==> scores[idx[p]].Fin?) && (m < |idx| ==> scores[idx[m]].NegInf?)
    ensures Leading(idx, scores) == m
  {
    hide Leading;
    var n := Leading(idx, scores);
  }

  /** An unseen item that is not among the leading picks was not picked at all. */
  lemma UnseenOutsideLeading(idx: seq<nat>, corpus: seq<Food>, seen: set<int>, sims: seq<real>, d: nat)
    requires |sims| == |corpus| && d < |corpus| && corpus[d].id !in seen
    requires IsTopK(idx, Masked(corpus, seen, sims), |idx|)
    requires d !in idx[..Leading(idx, Masked(corpus, seen, sims))]
    ensures d !in idx
  {
    var scores := Masked(corpus, seen, sims);
    var m := Leading(idx, scores);
    if m < |idx| {
      LaterPicksMasked(idx, scores, m);
    }
    var picks := idx[..m];
    assert forall q :: 0 <= q < m ==> picks[q] == idx[q] && picks[q] in picks;
    assert scores[d].Fin?;
  }

  /** The break happens only once every unseen item has been collected. */
  lemma LeadingCount(idx: seq<nat>, corpus: seq<Food>, seen: set<int>, sims: seq<real>, limit: nat)
    requires |sims| == |corpus|
    requires IsTopK(idx, Masked(corpus, seen, sims), Min(limit, |corpus|))
    ensures Leading(idx, Masked(corpus, seen, sims)) == Min(limit, |Positions(corpus, seen, false)|)
  {
    var scores := Masked(corpus, seen, sims);
    var m := Leading(idx, scores);
    var picks, unseen := idx[..m], Positions(corpus, seen, false);
    MembersSize(picks);
    MembersSize(unseen);
    assert forall p :: 0 <= p < m ==> picks[p] == idx[p] && picks[p] in unseen;
    SubsetSize(Members(picks), Members(unseen));
    TakenAllBound(unseen, |corpus|);
    if m < |idx| {
      forall d | d in unseen
        ensures d in picks
      {
        assert !AtMost(scores[d], scores[idx[m]]);
        if d !in picks {
          UnseenOutsideLeading(idx, corpus, seen, sims, d);
        }
      }
      SubsetSize(Members(unseen), Members(picks));
    }
  }

  lemma TakenAllBound(s: seq<nat>, n: nat)
    requires Distinct(s) && forall i :: i in s ==> i < n
    ensures |s| <= n
  {
    var all := Range(n);
    assert forall i, j :: 0 <= i < j < n ==> all[i] != all[j];
    MembersSize(s);
    MembersSize(all);
    forall x | x in Members(s)
      ensures x in Members(all)
    {
      assert all[x] == x;
    }
    SubsetSize(Members(s), Members(all));
  }

  /** An unseen item left out is no better than any leading pick. */
  lemma LeftOutIsNoBetter(idx: seq<nat>, corpus: seq<Food>, seen: set<int>, sims: seq<real>, d: nat, p: nat)
    requires |sims| == |corpus| && IsTopK(idx, Masked(corpus, seen, sims), |idx|)
    requires d < |corpus| && corpus[d].id !in seen && p < Leading(idx, Masked(corpus, seen, sims))
    requires d !in idx[..Leading(idx, Masked(corpus, seen, sims))]
    ensures sims[d] <= sims[idx[p]]
  {
    hide Leading;
    var scores := Masked(corpus, seen, sims);
    UnseenOutsideLeading(idx, corpus, seen, sims, d);
    assert AtMost(scores[d], scores[idx[p]]) && scores[d] == Fin(sims[d]);
  }

  lemma LeadingInOrder(idx: seq<nat>, corpus: seq<Food>, seen: set<int>, sims: seq<real>, p: nat, q: nat)
    requires |sims| == |corpus| && IsTopK(idx, Masked(corpus, seen, sims), |idx|)
    requires p < q < Leading(idx, Masked(corpus, seen, sims))
    ensures sims[idx[p]] >= sims[idx[q]]
  {
    hide Leading;
    var scores := Masked(corpus, seen, sims);
    assert AtMost(scores[idx[q]], scores[idx[p]]);
  }

  /** The leading picks of any top-k of the masked scores are the best unseen items. */
  lemma LeadingPicksAreBest(idx: seq<nat>, corpus: seq<Food>, seen: set<int>, sims: seq<real>, limit: nat)
    requires |sims| == |corpus|
    requires IsTopK(idx, Masked(corpus, seen, sims), Min(limit, |corpus|))
    ensures var scores := Masked(corpus, seen, sims);
      BestUnseen(idx[..Leading(idx, scores)], corpus, seen, sims, limit)
  {
    var scores := Masked(corpus, seen, sims);
    var m := Leading(idx, scores);
    var picks := idx[..m];
    LeadingCount(idx, corpus, seen, sims, limit);
    assert Distinct(picks) && |idx| == Min(limit, |corpus|);
    assert forall p :: 0 <= p < m ==> idx[p] < |scores| && scores[idx[p]].Fin?;
    hide IsTopK, Leading, Positions;
    forall d, p | 0 <= d < |corpus| && corpus[d].id !in seen && d !in picks && 0 <= p < |picks|
      ensures sims[d] <= sims[picks[p]]
    {
      LeftOutIsNoBetter(idx, corpus, seen, sims, d, p);
    }
    forall p, q | 0 <= p < q < m
      ensures sims[picks[p]] >= sims[picks[q]]
    {
      LeadingInOrder(idx, corpus, seen, sims, p, q);
    }
  }

  lemma LaterPicksMasked(idx: seq<nat>, scores: seq<Score>, m: nat)
    requires IsTopK(idx, scores, |idx|) && m < |idx| && scores[idx[m]].NegInf?
    ensures forall p :: m <= p < |idx| ==> scores[idx[p]].NegInf?
  {
    forall p | m < p < |idx|
      ensures scores[idx[p]].NegInf?
    {
      assert AtMost(scores[idx[p]], scores[idx[m]]);
    }
  }

  // ---------- the code ----------

  method PopularityFallback(corpus: seq<Food>, limit: nat) returns (r: Recommendation)
    ensures r == Popular(corpus, limit)
    ensures r.strategy.ByPopularity? && !r.hasHistory && |r.items| == Min(limit, |corpus|)
    ensures forall j :: 0 <= j < |r.items| ==> r.items[j] == Item(corpus[j], 0.0, "Popular item")
  {
    var k := Min(limit, |corpus|);
    var items: seq<Item> := [];
    for i := 0 to k
      invariant |items| == i && forall j :: 0 <= j < i ==> items[j] == Item(corpus[j], 0.0, "Popular item")
    {
      items := items + [Item(corpus[i], 0.0, "Popular item")];
    }
    r := Recommendation(ByPopularity, false, items);
    assert r.items == Popular(corpus, limit).items;
  }

  /** `similarity` gives each corpus item's likeness to the mean of the items at the given positions. */
  method ContentBased(corpus: seq<Food>, ordered: seq<int>, limit: nat, similarity: seq<nat> -> seq<real>,
                      round: real -> real) returns (r: Recommendation)
    requires forall ps :: |similarity(ps)| == |corpus|
    ensures var seen := set x | x in ordered;
      var had := Positions(corpus, seen, true);
      if had == [] then r == Popular(corpus, limit)
      else IsContentBased(r, corpus, seen, similarity(had), limit, round)
  {
    var seen := set x | x in ordered;
    var had: seq<nat> := [];
    for i := 0 to |corpus|
      invariant had == Positions(corpus[..i], seen, true)
    {
      assert corpus[..i + 1][..i] == corpus[..i];
      if corpus[i].id in seen {
        had := had + [i];
      }
    }
    assert corpus[..|corpus|] == corpus;
    if had == [] {
      r := PopularityFallback(corpus, limit);
      return;
    }
    var sims := similarity(had);
    var scores := Mask(corpus, seen, sims);
    var idx := TopK(scores, Min(limit, |corpus|));
    var items := Collect(corpus, sims, scores, idx, round);
    r := Recommendation(ByContent, true, items);
    LeadingPicksAreBest(idx, corpus, seen, sims, limit);
    assert Shows(r.items, idx[..Leading(idx, scores)], corpus, sims, round);
  }

  /** Overwrites the scores of items already had. */
  method Mask(corpus: seq<Food>, seen: set<int>, sims: seq<real>) returns (scores: seq<Score>)
    requires |sims| == |corpus|
    ensures scores == Masked(corpus, seen, sims)
  {
    scores := seq(|sims|, i requires 0 <= i < |sims| => Fin(sims[i]));
    for i := 0 to |corpus|
      invariant |scores| == |corpus|
      invariant forall j :: 0 <= j < i ==> scores[j] == Masked(corpus, seen, sims)[j]
      invariant forall j :: i <= j < |corpus| ==> scores[j] == Fin(sims[j])
    {
      if corpus[i].id in seen {
        scores := scores[i := NegInf];
      }
    }
  }

  /** Appends items until the first masked one. */
  method Collect(corpus: seq<Food>, sims: seq<real>, scores: seq<Score>, idx: seq<nat>, round: real -> real)
    returns (items: seq<Item>)
    requires |sims| == |corpus| == |scores|
    requires forall p :: 0 <= p < |idx| ==> idx[p] < |scores|
    ensures Shows(items, idx[..Leading(idx, scores)], corpus, sims, round)
  {
    hide Leading;
    items := [];
    for p := 0 to |idx|
      invariant |items| == p && forall j :: 0 <= j < p ==> scores[idx[j]].Fin?
      invariant Shows(items, idx[..p], corpus, sims, round)
    {
      if scores[idx[p]].NegInf? {
        LeadingIs(idx, scores, p);
        return;
      }
      var food, score := corpus[idx[p]], round(sims[idx[p]]);
      items := items + [Item(food, score, "Similar to items in your past orders")];
    }
    LeadingIs(idx, scores, |idx|);
  }

  method Recommend(corpus: seq<Food>, ordered: seq<int>, limit: int, similarity: seq<nat> -> seq<real>,
                   round: real -> real) returns (r: Recommendation)
    requires forall ps :: |similarity(ps)| == |corpus|
    ensures corpus == [] ==> r == Recommendation(ByPopularity, false, [])
    ensures |r.items| <= 20
    ensures corpus != [] ==>
      var n := Max(1, Min(limit, MAX_LIMIT));
      var seen := set x | x in ordered;
      var had := Positions(corpus, seen, true);
      if had == [] then r == Popular(corpus, n) else IsContentBased(r, corpus, seen, similarity(had), n, round)
  {
    if corpus == [] {
      return Recommendation(ByPopularity, false, []);
    }
    var n := Max(1, Min(limit, MAX_LIMIT));
    if ordered != [] {
      r := ContentBased(corpus, ordered, n, similarity, round);
    } else {
      assert (set x | x in ordered) == {};
      NothingHad(corpus);
      r := PopularityFallback(corpus, n);
    }
  }

  lemma {:induction false} NothingHad(corpus: seq<Food>)
    ensures Positions(corpus, {}, true) == []
  {
    if corpus != [] {
      NothingHad(corpus[..|corpus| - 1]);
    }
  }

  /** A user who has had the whole known menu gets nothing back, not even popular items. */
  lemma NothingLeftToRecommend(r: Recommendation, corpus: seq<Food>, seen: set<int>, sims: seq<real>, limit: nat,
                               round: real -> real)
    requires |sims| == |corpus| && IsContentBased(r, corpus, seen, sims, limit, round) && limit > 0
    ensures r.items == [] <==> forall i :: 0 <= i < |corpus| ==> corpus[i].id in seen
  {
    var unseen := Positions(corpus, seen, false);
    if unseen != [] {
      assert unseen[0] in unseen;
    } else {
      assert forall i :: 0 <= i < |corpus| && corpus[i].id !in seen ==> i in unseen;
    }
  }

  /** With distinct corpus ids no dish is recommended twice, and none the user has had. */
  lemma RecommendedAreNew(r: Recommendation, corpus: seq<Food>, seen: set<int>, sims: seq<real>, limit: nat,
                          round: real -> real)
    requires |sims| == |corpus| && IsContentBased(r, corpus, seen, sims, limit, round)
    ensures forall p :: 0 <= p < |r.items| ==> r.items[p].food in corpus && r.items[p].food.id !in seen
    ensures (forall i, j :: 0 <= i < j < |corpus| ==> corpus[i].id != corpus[j].id) ==>
              forall p, q :: 0 <= p < q < |r.items| ==> r.items[p].food.id != r.items[q].food.id
  {
    var picks :| BestUnseen(picks, corpus, seen, sims, limit) && Shows(r.items, picks, corpus, sims, round);
    forall p | 0 <= p < |r.items|
      ensures r.items[p].food == corpus[picks[p]] && r.items[p].food in corpus && r.items[p].food.id !in seen
    {
      assert corpus[picks[p]].id !in seen;
    }
    if forall i, j :: 0 <= i < j < |corpus| ==> corpus[i].id != corpus[j].id {
      forall p, q | 0 <= p < q < |r.items|
        ensures r.items[p].food.id != r.items[q].food.id
      {
        var i, j := picks[p], picks[q];
        assert i != j;
        assert i < j ==> corpus[i].id != corpus[j].id;
        assert j < i ==> corpus[j].id != corpus[i].id;
      }
    }
  }
}
