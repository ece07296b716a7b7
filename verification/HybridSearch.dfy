/** Reciprocal rank fusion of several rankings. */
module RankFusion {
  import opened Sorting
  import opened Reciprocals

  datatype Scored = Scored(id: int, score: real)

  function Ids(r: seq<Scored>): (ids: seq<int>)
    ensures |ids| == |r| && forall i :: 0 <= i < |r| ==> ids[i] == r[i].id
  {
    seq(|r|, i requires 0 <= i < |r| => r[i].id)
  }

  function Weight(k: nat, position: nat): real { 1.0 / (k + position + 1) as real }

  // ---------- reference: what an id is worth ----------

  /** What one ranking, continued from position `start`, gives to `id`. */
  function Worth(ranking: seq<Scored>, id: int, k: nat, start: nat): real {
    if ranking == [] then 0.0
    else (if ranking[0].id == id then 1.0 / (k + start + 1) as real else 0.0) + Worth(ranking[1..], id, k, start + 1)
  }

  function TotalWorth(rankings: seq<seq<Scored>>, id: int, k: nat): real {
    if rankings == [] then 0.0 else Worth(rankings[0], id, k, 0) + TotalWorth(rankings[1..], id, k)
  }

  predicate Occurs(rankings: seq<seq<Scored>>, id: int) {
    exists r :: 0 <= r < |rankings| && id in Ids(rankings[r])
  }

  /** Descending score; ties in insertion order. */
  function Minus(s: Scored): real { -s.score }

  // ---------- the totals table, in insertion order ----------

  function Position(t: seq<Scored>, id: int): (i: nat)
    ensures i <= |t| && (i < |t| ==> t[i].id == id) && (i < |t| <==> id in Ids(t))
  {
    if t == [] then 0
    else
      assert Ids(t) == [t[0].id] + Ids(t[1..]);
      if t[0].id == id then 0 else 1 + Position(t[1..], id)
  }

  /** `totals.get(id, 0.0)` */
  function ScoreOf(t: seq<Scored>, id: int): real {
    if t == [] then 0.0 else if t[0].id == id then t[0].score else ScoreOf(t[1..], id)
  }

  /** `totals[id] = totals.get(id, 0.0) + x`; a new id goes to the end. */
  function Add(t: seq<Scored>, id: int, x: real): seq<Scored> {
    if t == [] then [Scored(id, 0.0 + x)]
    else if t[0].id == id then [Scored(id, t[0].score + x)] + t[1..]
    else [t[0]] + Add(t[1..], id, x)
  }

  function AddRanking(t: seq<Scored>, ranking: seq<Scored>, k: nat, start: nat): seq<Scored>
    decreases |ranking|
  {
    if ranking == [] then t else AddRanking(Add(t, ranking[0].id, Weight(k, start)), ranking[1..], k, start + 1)
  }

  function AddRankings(t: seq<Scored>, rankings: seq<seq<Scored>>, k: nat): seq<Scored>
    decreases |rankings|
  {
    if rankings == [] then t else AddRankings(AddRanking(t, rankings[0], k, 0), rankings[1..], k)
  }

  function Fused(rankings: seq<seq<Scored>>, k: nat): seq<Scored> {
    SortBy(AddRankings([], rankings, k), Minus)
  }

  method RrfFuse(rankings: seq<seq<Scored>>, k: nat) returns (fused: seq<Scored>)
    ensures fused == Fused(rankings, k)
  {
    var totals: seq<Scored> := [];
    for r := 0 to |rankings|
      invariant AddRankings(totals, rankings[r..], k) == AddRankings([], rankings, k)
    {
      var ranking := rankings[r];
      assert rankings[r..][1..] == rankings[r + 1..];
      ghost var before := totals;
      for p := 0 to |ranking|
        invariant AddRanking(totals, ranking[p..], k, p) == AddRanking(before, ranking, k, 0)
      {
        assert ranking[p..][1..] == ranking[p + 1..];
        totals := Add(totals, ranking[p].id, Weight(k, p));
      }
      assert ranking[|ranking|..] == [];
    }
    assert rankings[|rankings|..] == [];
    fused := SortBy(totals, Minus);
  }

  // ---------- the table holds each id's worth ----------

  lemma {:induction false} AddScores(t: seq<Scored>, id: int, x: real, y: int)
    ensures ScoreOf(Add(t, id, x), y) == ScoreOf(t, y) + (if y == id then x else 0.0)
  {
    if t != [] && t[0].id != id {
      AddScores(t[1..], id, x, y);
      assert ([t[0]] + Add(t[1..], id, x))[1..] == Add(t[1..], id, x);
    } else if t != [] {
      assert ([Scored(id, t[0].score + x)] + t[1..])[1..] == t[1..];
    }
  }

  lemma {:induction false} AddIds(t: seq<Scored>, id: int, x: real)
    ensures Ids(Add(t, id, x)) == if id in Ids(t) then Ids(t) else Ids(t) + [id]
  {
    if t != [] {
      AddIds(t[1..], id, x);
      assert Ids(t) == [t[0].id] + Ids(t[1..]);
      if t[0].id != id {
        assert Ids([t[0]] + Add(t[1..], id, x)) == [t[0].id] + Ids(Add(t[1..], id, x));
      }
    }
  }

  lemma AddMeaning(t: seq<Scored>, id: int, x: real)
    requires Distinct(Ids(t))
    ensures Distinct(Ids(Add(t, id, x)))
    ensures forall y :: y in Ids(Add(t, id, x)) <==> y in Ids(t) || y == id
    ensures forall y :: ScoreOf(Add(t, id, x), y) == ScoreOf(t, y) + (if y == id then x else 0.0)
  {
    hide Add, ScoreOf;
    AddIds(t, id, x);
    forall y
      ensures ScoreOf(Add(t, id, x), y) == ScoreOf(t, y) + (if y == id then x else 0.0)
    {
      AddScores(t, id, x, y);
    }
  }

  lemma {:induction false} AddRankingMeaning(t: seq<Scored>, ranking: seq<Scored>, k: nat, start: nat)
    requires Distinct(Ids(t))
    ensures var t' := AddRanking(t, ranking, k, start);
      Distinct(Ids(t')) && (forall y :: y in Ids(t') <==> y in Ids(t) || y in Ids(ranking))
      && forall y :: ScoreOf(t', y) == ScoreOf(t, y) + Worth(ranking, y, k, start)
    decreases |ranking|
  {
    hide Add, ScoreOf;
    if ranking != [] {
      var x := Weight(k, start);
      AddMeaning(t, ranking[0].id, x);
      AddRankingMeaning(Add(t, ranking[0].id, x), ranking[1..], k, start + 1);
      assert Ids(ranking) == [ranking[0].id] + Ids(ranking[1..]);
    }
  }

  lemma {:induction false} AddRankingsMeaning(t: seq<Scored>, rankings: seq<seq<Scored>>, k: nat)
    requires Distinct(Ids(t))
    ensures var t' := AddRankings(t, rankings, k);
      Distinct(Ids(t')) && (forall y :: y in Ids(t') <==> y in Ids(t) || Occurs(rankings, y))
      && forall y :: ScoreOf(t', y) == ScoreOf(t, y) + TotalWorth(rankings, y, k)
    decreases |rankings|
  {
    hide AddRanking, ScoreOf, Worth;
    if rankings != [] {
      AddRankingMeaning(t, rankings[0], k, 0);
      AddRankingsMeaning(AddRanking(t, rankings[0], k, 0), rankings[1..], k);
      forall y
        ensures Occurs(rankings, y) <==> y in Ids(rankings[0]) || Occurs(rankings[1..], y)
      {
        OccursStep(rankings, y);
      }
    }
  }

  lemma OccursStep(rankings: seq<seq<Scored>>, y: int)
    requires rankings != []
    ensures Occurs(rankings, y) <==> y in Ids(rankings[0]) || Occurs(rankings[1..], y)
  {
    if Occurs(rankings[1..], y) {
      var r :| 0 <= r < |rankings[1..]| && y in Ids(rankings[1..][r]);
      assert y in Ids(rankings[r + 1]);
    }
    if Occurs(rankings, y) {
      var r :| 0 <= r < |rankings| && y in Ids(rankings[r]);
      if r > 0 {
        assert y in Ids(rankings[1..][r - 1]);
      }
    }
  }

  lemma {:induction false} ScoreInTable(t: seq<Scored>, i: nat)
    requires Distinct(Ids(t)) && i < |t|
    ensures ScoreOf(t, t[i].id) == t[i].score
  {
    if i > 0 {
      DistinctSplit(t);
      assert t[i].id == Ids(t[1..])[i - 1];
      ScoreInTable(t[1..], i - 1);
    }
  }

  /** A sorted list of scores: each occurring id once, with its total worth, highest first. */
  lemma FusedMeaning(rankings: seq<seq<Scored>>, k: nat)
    ensures var f := Fused(rankings, k);
      Distinct(Ids(f)) && (forall y :: y in Ids(f) <==> Occurs(rankings, y))
      && (forall i :: 0 <= i < |f| ==> f[i].score == TotalWorth(rankings, f[i].id, k))
      && forall i, j :: 0 <= i < j < |f| ==> f[i].score >= f[j].score
  {
    hide AddRankings, ScoreOf;
    var t, f := AddRankings([], rankings, k), Fused(rankings, k);
    AddRankingsMeaning([], rankings, k);
    NoScore();
    SortBySorts(t, Minus);
    PermutedIds(t, f);
    forall i | 0 <= i < |f|
      ensures f[i].score == TotalWorth(rankings, f[i].id, k)
    {
      InMultiset(f, t, f[i]);
      var j :| 0 <= j < |t| && t[j] == f[i];
      ScoreInTable(t, j);
    }
    forall i, j | 0 <= i < j < |f|
      ensures f[i].score >= f[j].score
    {
      assert Minus(f[i]) <= Minus(f[j]);
    }
  }

  lemma NoScore()
    ensures forall y :: ScoreOf([], y) == 0.0
  {
  }

  lemma PermutedIds(t: seq<Scored>, f: seq<Scored>)
    requires multiset(t) == multiset(f)
    ensures forall y :: y in Ids(t) <==> y in Ids(f)
    ensures Distinct(Ids(t)) ==> Distinct(Ids(f))
  {
    forall y
      ensures y in Ids(t) <==> y in Ids(f)
    {
      if i :| 0 <= i < |t| && Ids(t)[i] == y {
        InMultiset(t, f, t[i]);
        var j :| 0 <= j < |f| && f[j] == t[i];
        assert Ids(f)[j] == y;
      }
      if i :| 0 <= i < |f| && Ids(f)[i] == y {
        InMultiset(t, f, f[i]);
        var j :| 0 <= j < |t| && t[j] == f[i];
        assert Ids(t)[j] == y;
      }
    }
    if Distinct(Ids(t)) {
      forall i, j | 0 <= i < j < |t|
        ensures t[i] != t[j]
      {
        assert Ids(t)[i] != Ids(t)[j];
      }
      PermutationIsDistinct(t, f);
      forall i, j | 0 <= i < j < |f|
        ensures f[i].id != f[j].id
      {
        InMultiset(t, f, f[i]);
        InMultiset(t, f, f[j]);
        var a :| 0 <= a < |t| && t[a] == f[i];
        var b :| 0 <= b < |t| && t[b] == f[j];
        assert Ids(t)[a] == f[i].id && Ids(t)[b] == f[j].id;
      }
    }
  }

  // ---------- an id above another everywhere wins ----------

  /** The id of rank r, counted from 1, is worth 1 / (k + r). */
  lemma {:induction false} WorthAt(ranking: seq<Scored>, k: nat, start: nat, p: nat)
    requires Distinct(Ids(ranking)) && p < |ranking|
    ensures Worth(ranking, ranking[p].id, k, start) == 1.0 / (k + start + p + 1) as real == Weight(k, start + p)
  {
    var id := ranking[p].id;
    DistinctSplit(ranking);
    if p == 0 {
      WorthAbsent(ranking[1..], id, k, start + 1);
    } else {
      assert ranking[1..][p - 1].id == Ids(ranking[1..])[p - 1];
      WorthAt(ranking[1..], k, start + 1, p - 1);
    }
  }

  lemma DistinctSplit(ranking: seq<Scored>)
    requires Distinct(Ids(ranking)) && ranking != []
    ensures Distinct(Ids(ranking[1..])) && ranking[0].id !in Ids(ranking[1..])
  {
    assert forall i :: 0 <= i < |ranking| - 1 ==> Ids(ranking[1..])[i] == Ids(ranking)[i + 1];
  }

  lemma {:induction false} WorthAbsent(ranking: seq<Scored>, id: int, k: nat, start: nat)
    requires id !in Ids(ranking)
    ensures Worth(ranking, id, k, start) == 0.0
  {
    if ranking != [] {
      assert Ids(ranking) == [ranking[0].id] + Ids(ranking[1..]);
      WorthAbsent(ranking[1..], id, k, start + 1);
    }
  }

  lemma {:induction false} WorthNonNegative(ranking: seq<Scored>, id: int, k: nat, start: nat)
    ensures Worth(ranking, id, k, start) >= 0.0
  {
    if ranking != [] {
      WorthNonNegative(ranking[1..], id, k, start + 1);
    }
  }

  lemma WeightDecreases(k: nat, p: nat, q: nat)
    requires p < q
    ensures Weight(k, p) > Weight(k, q) > 0.0
  {
    LargerInverse((k + p + 1) as real, (k + q + 1) as real);
  }

  /** `x` stands above `y` in this ranking, or `y` is not in it. */
  predicate Above(ranking: seq<Scored>, x: int, y: int) {
    y in Ids(ranking) ==> exists p, q :: 0 <= p < q < |ranking| && Ids(ranking)[p] == x && Ids(ranking)[q] == y
  }

  lemma AboveIsWorthMore(ranking: seq<Scored>, x: int, y: int, k: nat)
    requires Distinct(Ids(ranking)) && Above(ranking, x, y)
    ensures Worth(ranking, x, k, 0) >= Worth(ranking, y, k, 0)
    ensures y in Ids(ranking) ==> Worth(ranking, x, k, 0) > Worth(ranking, y, k, 0)
  {
    if y in Ids(ranking) {
      var p, q :| 0 <= p < q < |ranking| && Ids(ranking)[p] == x && Ids(ranking)[q] == y;
      WorthAt(ranking, k, 0, p);
      WorthAt(ranking, k, 0, q);
      WeightDecreases(k, p, q);
    } else {
      WorthAbsent(ranking, y, k, 0);
      WorthNonNegative(ranking, x, k, 0);
    }
  }

  lemma {:induction false} AboveEverywhere(rankings: seq<seq<Scored>>, x: int, y: int, k: nat)
    requires forall r :: 0 <= r < |rankings| ==> Distinct(Ids(rankings[r])) && Above(rankings[r], x, y)
    ensures TotalWorth(rankings, x, k) >= TotalWorth(rankings, y, k)
    ensures Occurs(rankings, y) ==> TotalWorth(rankings, x, k) > TotalWorth(rankings, y, k)
    ensures Occurs(rankings, y) ==> Occurs(rankings, x)
  {
    if rankings != [] {
      AboveIsWorthMore(rankings[0], x, y, k);
      AboveEverywhere(rankings[1..], x, y, k);
      OccursStep(rankings, y);
      OccursStep(rankings, x);
    }
  }

  /** An id above another in every ranking that has the other scores strictly more and comes first. */
  lemma DominatorComesFirst(rankings: seq<seq<Scored>>, x: int, y: int, k: nat)
    requires forall r :: 0 <= r < |rankings| ==> Distinct(Ids(rankings[r])) && Above(rankings[r], x, y)
    requires Occurs(rankings, y)
    ensures var f := Fused(rankings, k);
      exists p, q :: 0 <= p < q < |f| && Ids(f)[p] == x && Ids(f)[q] == y && f[p].score > f[q].score
  {
    hide Fused;
    FusedMeaning(rankings, k);
    AboveEverywhere(rankings, x, y, k);
    var f := Fused(rankings, k);
    var p :| 0 <= p < |f| && Ids(f)[p] == x;
    var q :| 0 <= q < |f| && Ids(f)[q] == y;
    assert f[p].score > f[q].score;
    assert p < q;
  }

  // ---------- the order of the rankings does not matter ----------

  lemma {:induction false} TotalWorthRemove(rankings: seq<seq<Scored>>, j: nat, id: int, k: nat)
    requires j < |rankings|
    ensures TotalWorth(rankings, id, k)
         == Worth(rankings[j], id, k, 0) + TotalWorth(rankings[..j] + rankings[j + 1..], id, k)
  {
    hide Worth;
    if j == 0 {
      assert rankings[..0] + rankings[1..] == rankings[1..];
    } else {
      TotalWorthRemove(rankings[1..], j - 1, id, k);
      assert (rankings[..j] + rankings[j + 1..])[1..] == rankings[1..][..j - 1] + rankings[1..][j..];
    }
  }

  lemma {:induction false} PermutationKeepsWorth(rankings: seq<seq<Scored>>, others: seq<seq<Scored>>, id: int, k: nat)
    requires multiset(rankings) == multiset(others)
    ensures TotalWorth(rankings, id, k) == TotalWorth(others, id, k)
  {
    hide Worth;
    SameMultisetSameLength(rankings, others);
    if rankings != [] {
      InMultiset(rankings, others, rankings[0]);
      var j :| 0 <= j < |others| && others[j] == rankings[0];
      TotalWorthRemove(others, j, id, k);
      RemoveAt(rankings, 0);
      RemoveAt(others, j);
      assert rankings[..0] + rankings[1..] == rankings[1..];
      CancelOne(rankings[0], multiset(rankings[1..]), multiset(others[..j] + others[j + 1..]));
      PermutationKeepsWorth(rankings[1..], others[..j] + others[j + 1..], id, k);
    }
  }

  /** Permuting the rankings keeps every id's total, so the two fusions hold the same ids with the same scores. */
  lemma PermutationKeepsFusion(rankings: seq<seq<Scored>>, others: seq<seq<Scored>>, k: nat)
    requires multiset(rankings) == multiset(others)
    ensures forall e :: e in Fused(rankings, k) <==> e in Fused(others, k)
  {
    hide Fused;
    OneWay(rankings, others, k);
    OneWay(others, rankings, k);
  }

  lemma OneWay(rankings: seq<seq<Scored>>, others: seq<seq<Scored>>, k: nat)
    requires multiset(rankings) == multiset(others)
    ensures forall e :: e in Fused(rankings, k) ==> e in Fused(others, k)
  {
    hide Fused;
    FusedMeaning(rankings, k);
    FusedMeaning(others, k);
    var f, g := Fused(rankings, k), Fused(others, k);
    forall e | e in f
      ensures e in g
    {
      var i :| 0 <= i < |f| && f[i] == e;
      assert Ids(f)[i] == e.id;
      assert Occurs(rankings, e.id);
      var r :| 0 <= r < |rankings| && e.id in Ids(rankings[r]);
      InMultiset(rankings, others, rankings[r]);
      var s :| 0 <= s < |others| && others[s] == rankings[r];
      assert Occurs(others, e.id);
      var j :| 0 <= j < |g| && Ids(g)[j] == e.id;
      PermutationKeepsWorth(rankings, others, e.id, k);
      assert g[j] == e;
    }
  }

  // ---------- conservation of score ----------

  function Mass(t: seq<Scored>): real {
    if t == [] then 0.0 else t[0].score + Mass(t[1..])
  }

  /** The weights of `n` positions from `start` on. */
  function Weights(k: nat, start: nat, n: nat): real
    decreases n
  {
    if n == 0 then 0.0 else Weight(k, start) + Weights(k, start + 1, n - 1)
  }

  function AllWeights(rankings: seq<seq<Scored>>, k: nat): real {
    if rankings == [] then 0.0 else Weights(k, 0, |rankings[0]|) + AllWeights(rankings[1..], k)
  }

  lemma {:induction false} AddMass(t: seq<Scored>, id: int, x: real)
    ensures Mass(Add(t, id, x)) == Mass(t) + x
  {
    if t != [] && t[0].id == id {
      assert ([Scored(id, t[0].score + x)] + t[1..])[1..] == t[1..];
    } else if t != [] {
      AddMass(t[1..], id, x);
      assert ([t[0]] + Add(t[1..], id, x))[1..] == Add(t[1..], id, x);
    } else {
      assert [Scored(id, 0.0 + x)][1..] == [];
    }
  }

  lemma {:induction false} RankingMass(t: seq<Scored>, ranking: seq<Scored>, k: nat, start: nat)
    ensures Mass(AddRanking(t, ranking, k, start)) == Mass(t) + Weights(k, start, |ranking|)
    decreases |ranking|
  {
    hide Add, Weight;
    if ranking != [] {
      AddMass(t, ranking[0].id, Weight(k, start));
      RankingMass(Add(t, ranking[0].id, Weight(k, start)), ranking[1..], k, start + 1);
    }
  }

  lemma {:induction false} RankingsMass(t: seq<Scored>, rankings: seq<seq<Scored>>, k: nat)
    ensures Mass(AddRankings(t, rankings, k)) == Mass(t) + AllWeights(rankings, k)
    decreases |rankings|
  {
    if rankings != [] {
      RankingMass(t, rankings[0], k, 0);
      RankingsMass(AddRanking(t, rankings[0], k, 0), rankings[1..], k);
    }
  }

  lemma {:induction false} InsertMass(e: Scored, t: seq<Scored>)
    ensures Mass(Insert(e, t, Minus)) == e.score + Mass(t)
  {
    if t == [] || Minus(e) <= Minus(t[0]) {
      assert ([e] + t)[1..] == t;
    } else {
      InsertMass(e, t[1..]);
      assert ([t[0]] + Insert(e, t[1..], Minus))[1..] == Insert(e, t[1..], Minus);
    }
  }

  lemma {:induction false} SortMass(t: seq<Scored>)
    ensures Mass(SortBy(t, Minus)) == Mass(t)
  {
    if t != [] {
      SortMass(t[1..]);
      InsertMass(t[0], SortBy(t[1..], Minus));
    }
  }

  /** Fusion spreads exactly the weights of all positions over the ids. */
  lemma FusionConservesMass(rankings: seq<seq<Scored>>, k: nat)
    ensures Mass(Fused(rankings, k)) == AllWeights(rankings, k)
  {
    RankingsMass([], rankings, k);
    SortMass(AddRankings([], rankings, k));
  }

  // ---------- fusing one ranking ----------

  /** Fusing a single ranking keeps its order of ids, so skipping the fusion then changes no order. */
  lemma SingleRankingKeepsOrder(ranking: seq<Scored>, k: nat)
    requires Distinct(Ids(ranking))
    ensures Ids(Fused([ranking], k)) == Ids(ranking)
  {
    hide Fused;
    FusedMeaning([ranking], k);
    var f := Fused([ranking], k);
    assert [ranking][1..] == [];
    forall y
      ensures y in Ids(f) <==> y in Ids(ranking)
      ensures TotalWorth([ranking], y, k) == Worth(ranking, y, k, 0)
    {
      OccursStep([ranking], y);
    }
    SameOrder(f, ranking, k);
  }

  lemma WeightsDecide(k: nat, p: nat, q: nat)
    requires Weight(k, p) >= Weight(k, q) && p != q
    ensures p < q
  {
    hide Weight;
    if q < p {
      WeightDecreases(k, q, p);
    }
  }

  /** Two lists of the same distinct ids, one sorted by the weights of positions in the other, are in the same order. */
  lemma SameOrder(f: seq<Scored>, ranking: seq<Scored>, k: nat)
    requires Distinct(Ids(f)) && Distinct(Ids(ranking))
    requires forall y :: y in Ids(f) <==> y in Ids(ranking)
    requires forall i :: 0 <= i < |f| ==> f[i].score == Worth(ranking, f[i].id, k, 0)
    requires forall i, j :: 0 <= i < j < |f| ==> f[i].score >= f[j].score
    ensures Ids(f) == Ids(ranking)
  {
    hide Worth;
    var at := seq(|f|, i requires 0 <= i < |f| => Position(ranking, f[i].id));
    forall i | 0 <= i < |f|
      ensures at[i] < |ranking| && Ids(ranking)[at[i]] == Ids(f)[i] && f[i].score == Weight(k, at[i])
    {
      assert f[i].id == Ids(f)[i];
      WorthAt(ranking, k, 0, at[i]);
    }
    hide Weight, Position;
    forall i, j | 0 <= i < j < |f|
      ensures at[i] < at[j]
    {
      assert Ids(f)[i] != Ids(f)[j];
      WeightsDecide(k, at[i], at[j]);
    }
    forall p | 0 <= p < |ranking|
      ensures p in at
    {
      assert Ids(ranking)[p] in Ids(f);
      var i :| 0 <= i < |f| && Ids(f)[i] == Ids(ranking)[p];
      assert at[i] == p;
    }
    IncreasingOnto(at, |ranking|);
  }

  /** A strictly increasing sequence that hits every number below n is 0, 1, ..., n - 1. */
  lemma {:induction false} IncreasingOnto(at: seq<nat>, n: nat)
    requires forall i :: 0 <= i < |at| ==> at[i] < n
    requires forall i, j :: 0 <= i < j < |at| ==> at[i] < at[j]
    requires forall p :: 0 <= p < n ==> p in at
    ensures |at| == n && forall i :: 0 <= i < n ==> at[i] == i
  {
    if at == [] {
      assert n > 0 ==> 0 in at;
    } else {
      var m := |at| - 1;
      assert n - 1 in at;
      var i :| 0 <= i < |at| && at[i] == n - 1;
      assert at[m] == n - 1;
      forall p | 0 <= p < n - 1
        ensures p in at[..m]
      {
        assert p in at;
      }
      IncreasingOnto(at[..m], n - 1);
    }
  }
}

/** The search pipeline: keyword ranking, dense ranking, fusion, optional reranking. */
module HybridSearch {
  import opened Menu
  import opened Sorting
  import opened Wrappers
  import opened RankFusion

  datatype SearchResult = SearchResult(food: Food, score: real)

  const RRF_K: nat := 60
  const CANDIDATE_POOL: nat := 50
  const MAX_LIMIT: nat := 20

  /** The vector store: absent, raising, or holding `count` points and answering with its best n. */
  datatype Dense = NoStore | Raising | Store(count: int, hits: nat -> seq<Scored>)

  datatype RerankOutcome = Ranked(list: seq<Scored>) | Unavailable

  /** A reranker is shown candidate ids and asked for its best n. */
  type Reranker = (seq<int>, nat) -> RerankOutcome

  /** A query as the indexes see it: whether it has tokens, and each document's keyword score. */
  datatype Query = Query(hasTokens: bool, scores: seq<real>, dense: Dense)

  // ---------- reference ----------

  /** `by_id.get(id)`; a later item replaces an earlier one of the same id. */
  function Lookup(items: seq<Food>, id: int): (f: Option<Food>)
    ensures f.Some? ==> f.value in items && f.value.id == id
    ensures f.None? ==> forall i :: 0 <= i < |items| ==> items[i].id != id
  {
    if items == [] then None
    else if items[|items| - 1].id == id then Some(items[|items| - 1])
    else Lookup(items[..|items| - 1], id)
  }

  function Known(ranked: seq<Scored>, items: seq<Food>): seq<Scored> {
    if ranked == [] then []
    else (if Lookup(items, ranked[0].id).Some? then [ranked[0]] else []) + Known(ranked[1..], items)
  }

  function ResultOf(e: Scored, items: seq<Food>, round: real -> real): (r: SearchResult)
    requires Lookup(items, e.id).Some?
    ensures r.food.id == e.id && r.food in items
  {
    SearchResult(Lookup(items, e.id).value, round(e.score))
  }

  function Materialise(known: seq<Scored>, items: seq<Food>, round: real -> real): (r: seq<SearchResult>)
    requires forall i :: 0 <= i < |known| ==> Lookup(items, known[i].id).Some?
    ensures |r| == |known|
    ensures forall i :: 0 <= i < |r| ==> r[i] == ResultOf(known[i], items, round)
  {
    seq(|known|, i requires 0 <= i < |known| => ResultOf(known[i], items, round))
  }

  /** The first `limit` known entries (at least one, if there is one). */
  function Results(ranked: seq<Scored>, items: seq<Food>, limit: int, round: real -> real): seq<SearchResult> {
    KnownIsKnown(ranked, items);
    Materialise(Prefix(Known(ranked, items), Max(limit, 1)), items, round)
  }

  lemma {:induction false} KnownIsKnown(ranked: seq<Scored>, items: seq<Food>)
    ensures forall e :: e in Known(ranked, items) <==> e in ranked && Lookup(items, e.id).Some?
  {
    if ranked != [] {
      KnownIsKnown(ranked[1..], items);
      assert ranked == [ranked[0]] + ranked[1..];
    }
  }

  function ScoreKey(scores: seq<real>): int -> real {
    i => if 0 <= i < |scores| then -scores[i] else 0.0
  }

  function Bm25Rank(items: seq<Food>, q: Query, topN: nat): seq<Scored>
    requires |q.scores| == |items|
  {
    if !q.hasTokens then []
    else
      var order := Prefix(SortBy<int>(Range(|items|), ScoreKey(q.scores)), topN);
      seq(|order|, p requires 0 <= p < |order| =>
        if 0 <= order[p] < |items| then Scored(items[order[p]].id, q.scores[order[p]]) else Scored(0, 0.0))
  }

  function DenseRank(dense: Dense, topN: nat): seq<Scored> {
    if dense.Store? && dense.count > 0 then dense.hits(topN) else []
  }

  /** The list before reranking: nothing, the only ranking as it is, or the fusion of both. */
  function FirstStage(items: seq<Food>, q: Query, pool: nat): seq<Scored>
    requires |q.scores| == |items|
  {
    var bm25, dense := Bm25Rank(items, q, pool), DenseRank(q.dense, pool);
    if bm25 == [] then dense else if dense == [] then bm25 else Fused([bm25, dense], RRF_K)
  }

  function Clamp(limit: int): nat { Max(1, Min(limit, MAX_LIMIT)) }

  function ApplyReranker(fused: seq<Scored>, items: seq<Food>, rerank: Reranker, candidates: nat, limit: nat)
    : Option<seq<Scored>>
  {
    var shown := Ids(Known(Prefix(fused, candidates), items));
    if shown == [] then Some(Prefix(fused, limit))
    else match rerank(shown, limit)
         case Ranked(list) => Some(list)
         case Unavailable => None
  }

  function PoolSize(reranker: Option<Reranker>, candidates: nat): (n: nat)
    ensures n >= 50 && (reranker.Some? ==> n >= candidates)
    ensures n == 50 || (reranker.Some? && n == candidates)
  {
    if reranker.Some? then Max(CANDIDATE_POOL, candidates) else CANDIDATE_POOL
  }

  function Search(items: seq<Food>, q: Query, limit: int, reranker: Option<Reranker>, rerankCandidates: int,
                  round: real -> real): seq<SearchResult>
    requires |q.scores| == |items|
  {
    var n := Clamp(limit);
    var candidates := Max(n, rerankCandidates);
    var fused := FirstStage(items, q, PoolSize(reranker, candidates));
    var reranked := if reranker.None? then None else ApplyReranker(fused, items, reranker.value, candidates, n);
    Results(if reranked.Some? then reranked.value else fused, items, n, round)
  }

  // ---------- the code ----------

  method ToResults(ranked: seq<Scored>, items: seq<Food>, limit: int, round: real -> real)
    returns (results: seq<SearchResult>)
    ensures results == Results(ranked, items, limit, round)
  {
    hide Lookup, Known, ResultOf;
    results := [];
    var n := Max(limit, 1);
    KnownIsKnown(ranked, items);
    ghost var known := Known(ranked, items);
    assert ranked[0..] == ranked;
    for i := 0 to |ranked|
      invariant |results| < n && |results| <= |known|
      invariant results == Materialise(known[..|results|], items, round)
      invariant known[|results|..] == Known(ranked[i..], items)
    {
      KnownStep(ranked, i, items);
      var food := Lookup(items, ranked[i].id);
      if food.None? {
        continue;
      }
      ghost var m := |results|;
      assert known[m..][0] == ranked[i] && known[m..][1..] == known[m + 1..];
      results := results + [ResultOf(ranked[i], items, round)];
      assert known[..m + 1] == known[..m] + [ranked[i]];
      if |results| >= limit {
        assert Prefix(known, n) == known[..m + 1];
        return;
      }
    }
    assert ranked[|ranked|..] == [];
    assert Known([], items) == [] by { NothingFound(items, n, round); }
    assert Prefix(known, n) == known == known[..|results|];
  }

  lemma KnownStep(ranked: seq<Scored>, i: nat, items: seq<Food>)
    requires i < |ranked|
    ensures Known(ranked[i..], items)
         == (if Lookup(items, ranked[i].id).Some? then [ranked[i]] else []) + Known(ranked[i + 1..], items)
  {
    assert ranked[i..][1..] == ranked[i + 1..] && ranked[i..][0] == ranked[i];
  }

  lemma {:induction false} EmptyCorpus(ranked: seq<Scored>, limit: int, round: real -> real)
    ensures Known(ranked, []) == [] && Results(ranked, [], limit, round) == []
  {
    if ranked != [] {
      EmptyCorpus(ranked[1..], limit, round);
    }
  }

  lemma NothingFound(items: seq<Food>, limit: int, round: real -> real)
    ensures Known([], items) == [] && Results([], items, limit, round) == []
  {
  }

  method HybridSearch(items: seq<Food>, q: Query, limit: int, reranker: Option<Reranker>, rerankCandidates: int,
                      round: real -> real) returns (results: seq<SearchResult>)
    requires |q.scores| == |items|
    ensures results == Search(items, q, limit, reranker, rerankCandidates, round)
  {
    hide Fused, Results, Known, SortBy;
    if items == [] {
      forall ranked
        ensures Results(ranked, items, Clamp(limit), round) == []
      {
        EmptyCorpus(ranked, Clamp(limit), round);
      }
      return [];
    }
    var n := Clamp(limit);
    var candidates := Max(n, rerankCandidates);
    var pool := PoolSize(reranker, candidates);
    var bm25 := Bm25Rank(items, q, pool);
    var rankings := [];
    if bm25 != [] {
      rankings := rankings + [bm25];
    }
    var dense := DenseRank(q.dense, pool);
    if dense != [] {
      rankings := rankings + [dense];
    }
    if rankings == [] {
      NothingFound(items, n, round);
      return [];
    }
    var fused := rankings[0];
    if |rankings| > 1 {
      assert rankings == [bm25, dense];
      fused := RrfFuse(rankings, RRF_K);
    }
    assert fused == FirstStage(items, q, pool);
    if reranker.Some? {
      var reranked := ApplyReranker(fused, items, reranker.value, candidates, n);
      if reranked.Some? {
        results := ToResults(reranked.value, items, n, round);
        return;
      }
    }
    results := ToResults(fused, items, n, round);
  }

}

/** What the pipeline promises its callers. */
module HybridSearchProperties {
  import opened Menu
  import opened Sorting
  import opened Wrappers
  import opened RankFusion
  import opened HybridSearch

  function ResultIds(r: seq<SearchResult>): (ids: seq<int>)
    ensures |ids| == |r| && forall i :: 0 <= i < |r| ==> ids[i] == r[i].food.id
  {
    seq(|r|, i requires 0 <= i < |r| => r[i].food.id)
  }

  function FoodIds(items: seq<Food>): (ids: seq<int>)
    ensures |ids| == |items| && forall i :: 0 <= i < |items| ==> ids[i] == items[i].id
  {
    seq(|items|, i requires 0 <= i < |items| => items[i].id)
  }

  lemma {:induction false} KnownDistinct(ranked: seq<Scored>, items: seq<Food>)
    requires Distinct(Ids(ranked))
    ensures Distinct(Ids(Known(ranked, items)))
    ensures forall y :: y in Ids(Known(ranked, items)) ==> y in Ids(ranked)
  {
    if ranked != [] {
      hide Known;
      var rest := Known(ranked[1..], items);
      DistinctSplit(ranked);
      KnownDistinct(ranked[1..], items);
      KnownStep(ranked, 0, items);
      assert ranked[0..] == ranked;
      assert Ids(ranked) == [ranked[0].id] + Ids(ranked[1..]);
      if Lookup(items, ranked[0].id).Some? {
        assert Ids([ranked[0]] + rest) == [ranked[0].id] + Ids(rest);
      } else {
        assert [] + rest == rest;
      }
    }
  }

  lemma ResultIdsAre(ranked: seq<Scored>, items: seq<Food>, limit: int, round: real -> real)
    ensures ResultIds(Results(ranked, items, limit, round)) == Prefix(Ids(Known(ranked, items)), Max(limit, 1))
  {
    KnownIsKnown(ranked, items);
  }

  lemma PrefixDistinct(s: seq<int>, n: nat)
    requires Distinct(s)
    ensures Distinct(Prefix(s, n))
  {
  }

  // ---------- the keyword stage is a top-n by score, ties in corpus order ----------

  lemma RangeDistinct(n: nat)
    ensures Distinct(Range(n)) && forall i :: i in Range(n) <==> 0 <= i < n
  {
    forall i | 0 <= i < n
      ensures i in Range(n)
    {
      assert Range(n)[i] == i;
    }
  }

  function Order(items: seq<Food>, q: Query): seq<int> { SortBy<int>(Range(|items|), ScoreKey(q.scores)) }

  predicate BestFirst(o: seq<int>, scores: seq<real>) {
    (forall p :: 0 <= p < |o| ==> 0 <= o[p] < |scores|)
    && forall p, r :: 0 <= p < r < |o| ==> scores[o[p]] >= scores[o[r]]
  }

  lemma OrderPermutes(items: seq<Food>, q: Query)
    requires |q.scores| == |items|
    ensures var o, range: seq<int> := Order(items, q), Range(|items|);
      multiset(o) == multiset(range) && |o| == |items| && Distinct(o) && SortedBy(o, ScoreKey(q.scores))
  {
    hide SortBy, SortedBy, ScoreKey;
    var range: seq<int> := Range(|items|);
    SortBySorts<int>(range, ScoreKey(q.scores));
    RangeDistinct(|items|);
    PermutationIsDistinct<int>(range, Order(items, q));
  }

  lemma OrderHasAll(items: seq<Food>, q: Query, d: int)
    requires |q.scores| == |items|
    ensures d in Order(items, q) <==> 0 <= d < |items|
  {
    hide SortBy, SortedBy, ScoreKey, Distinct;
    OrderPermutes(items, q);
    RangeDistinct(|items|);
    var range: seq<int> := Range(|items|);
    InMultiset<int>(Order(items, q), range, d);
    assert d in range <==> 0 <= d < |items|;
  }

  lemma OrderDescends(items: seq<Food>, q: Query)
    requires |q.scores| == |items|
    ensures BestFirst(Order(items, q), q.scores)
  {
    hide Order, Distinct;
    OrderPermutes(items, q);
    var o, key := Order(items, q), ScoreKey(q.scores);
    forall p | 0 <= p < |o|
      ensures 0 <= o[p] < |q.scores|
    {
      OrderHasAll(items, q, o[p]);
    }
    forall p, r | 0 <= p < r < |o|
      ensures q.scores[o[p]] >= q.scores[o[r]]
    {
      assert key(o[p]) <= key(o[r]);
    }
  }

  /** The keyword ranking has min(n, corpus size) entries, best first, and no document left out scores above one
      kept. */
  lemma Bm25IsTopN(items: seq<Food>, q: Query, topN: nat)
    requires |q.scores| == |items| && q.hasTokens
    ensures var r := Bm25Rank(items, q, topN); var o := Prefix(Order(items, q), topN);
      |r| == |o| == Min(topN, |items|) && Distinct(o)
      && (forall p :: 0 <= p < |r| ==> 0 <= o[p] < |items| && r[p] == Scored(items[o[p]].id, q.scores[o[p]]))
      && (forall p, p' :: 0 <= p < p' < |r| ==> r[p].score >= r[p'].score)
      && forall d, p :: 0 <= d < |items| && d !in o && 0 <= p < |r| ==> q.scores[d] <= r[p].score
  {
    PrefixFacts(items, q, topN);
    RankIsPrefix(items, q, topN);
    var o := Prefix(Order(items, q), topN);
    hide Bm25Rank, Order, Prefix, SortBy;
    forall d, p | 0 <= d < |items| && d !in o && 0 <= p < |o|
      ensures q.scores[d] <= q.scores[o[p]]
    {
      LeftOutScoresLess(items, q, topN, d, p);
    }
  }

  lemma RankIsPrefix(items: seq<Food>, q: Query, topN: nat)
    requires |q.scores| == |items| && q.hasTokens
    ensures var r, o := Bm25Rank(items, q, topN), Prefix(Order(items, q), topN);
      |r| == |o| == Min(topN, |items|)
      && forall p :: 0 <= p < |r| && 0 <= o[p] < |items| ==> r[p] == Scored(items[o[p]].id, q.scores[o[p]])
  {
    hide SortBy, SortedBy, Distinct;
    OrderPermutes(items, q);
  }

  lemma PrefixFacts(items: seq<Food>, q: Query, topN: nat)
    requires |q.scores| == |items|
    ensures var o := Prefix(Order(items, q), topN);
      Distinct(o) && BestFirst(o, q.scores)
  {
    hide Order, SortedBy;
    OrderPermutes(items, q);
    OrderDescends(items, q);
    PrefixIs(Order(items, q), topN);
  }

  lemma PrefixIs(full: seq<int>, n: nat)
    ensures Prefix(full, n) <= full
  {
  }

  lemma LeftOutScoresLess(items: seq<Food>, q: Query, topN: nat, d: int, p: nat)
    requires |q.scores| == |items| && 0 <= d < |items|
    requires d !in Prefix(Order(items, q), topN) && p < |Prefix(Order(items, q), topN)|
    ensures var o := Prefix(Order(items, q), topN); 0 <= o[p] < |items| && q.scores[d] <= q.scores[o[p]]
  {
    hide Order, Prefix, SortedBy, Distinct;
    OrderDescends(items, q);
    OrderHasAll(items, q, d);
    var full, o := Order(items, q), Prefix(Order(items, q), topN);
    PrefixIs(full, topN);
    var j :| 0 <= j < |full| && full[j] == d;
    assert full[p] == o[p];
    assert j >= |o|;
  }

  lemma Bm25Distinct(items: seq<Food>, q: Query, topN: nat)
    requires |q.scores| == |items| && Distinct(FoodIds(items))
    ensures Distinct(Ids(Bm25Rank(items, q, topN)))
  {
    if q.hasTokens {
      hide Bm25Rank, Order;
      Bm25IsTopN(items, q, topN);
      var r, o := Bm25Rank(items, q, topN), Prefix(Order(items, q), topN);
      forall p, p' | 0 <= p < p' < |r|
        ensures r[p].id != r[p'].id
      {
        assert o[p] != o[p'];
        assert FoodIds(items)[o[p]] == r[p].id && FoodIds(items)[o[p']] == r[p'].id;
      }
    }
  }

  lemma FirstStageDistinct(items: seq<Food>, q: Query, pool: nat)
    requires |q.scores| == |items| && Distinct(FoodIds(items)) && Distinct(Ids(DenseRank(q.dense, pool)))
    ensures Distinct(Ids(FirstStage(items, q, pool)))
  {
    hide Fused, Bm25Rank;
    Bm25Distinct(items, q, pool);
    FusedMeaning([Bm25Rank(items, q, pool), DenseRank(q.dense, pool)], RRF_K);
  }

  // ---------- the whole search ----------

  /** Without reranking: exactly the first corpus-known ids of the first stage, up to the clamped limit, none twice. */
  lemma PlainSearch(items: seq<Food>, q: Query, limit: int, candidates: int, round: real -> real)
    requires |q.scores| == |items| && Distinct(FoodIds(items))
    requires Distinct(Ids(DenseRank(q.dense, CANDIDATE_POOL)))
    ensures var r := Search(items, q, limit, None, candidates, round);
      var known := Ids(Known(FirstStage(items, q, CANDIDATE_POOL), items));
      ResultIds(r) == Prefix(known, Clamp(limit)) && Distinct(ResultIds(r)) && |r| <= 20
      && |r| == Min(|known|, Clamp(limit)) && forall i :: 0 <= i < |r| ==> r[i].food in items
  {
    hide FirstStage, Known, Results;
    var ranked := FirstStage(items, q, CANDIDATE_POOL);
    ResultIdsAre(ranked, items, Clamp(limit), round);
    FirstStageDistinct(items, q, CANDIDATE_POOL);
    KnownDistinct(ranked, items);
    PrefixDistinct(Ids(Known(ranked, items)), Clamp(limit));
    ResultsInCorpus(ranked, items, Clamp(limit), round);
  }

  lemma ClampMeaning(limit: int)
    ensures Clamp(limit) == if limit < 1 then 1 else if limit > 20 then 20 else limit
  {
  }

  /** A result is the corpus item of its ranked entry, the last with that id, with the entry's score rounded. */
  predicate IsResultOf(r: SearchResult, e: Scored, items: seq<Food>, round: real -> real) {
    r.score == round(e.score)
    && exists i :: 0 <= i < |items| && items[i] == r.food && IsLastWithId(items, i, e.id)
  }

  predicate IsLastWithId(items: seq<Food>, i: nat, id: int) {
    i < |items| && items[i].id == id && forall j :: i < j < |items| ==> items[j].id != id
  }

  lemma {:induction false} LookupIsLast(items: seq<Food>, id: int)
    requires Lookup(items, id).Some?
    ensures exists i :: 0 <= i < |items| && items[i] == Lookup(items, id).value && IsLastWithId(items, i, id)
  {
    var n := |items| - 1;
    if items[n].id != id {
      var init := items[..n];
      LookupIsLast(init, id);
      var i :| 0 <= i < n && init[i] == Lookup(init, id).value && IsLastWithId(init, i, id);
      LastInLonger(items, i, id);
    } else {
      assert IsLastWithId(items, n, id);
    }
  }

  lemma LastInLonger(items: seq<Food>, i: nat, id: int)
    requires items != [] && items[|items| - 1].id != id && IsLastWithId(items[..|items| - 1], i, id)
    ensures IsLastWithId(items, i, id)
  {
    var n := |items| - 1;
    forall j | i < j < |items|
      ensures items[j].id != id
    {
      if j < n {
        assert items[..n][j] == items[j];
      }
    }
  }

  lemma ResultsShow(ranked: seq<Scored>, items: seq<Food>, limit: int, round: real -> real)
    ensures var r, shown := Results(ranked, items, limit, round), Prefix(Known(ranked, items), Max(limit, 1));
      |r| == |shown| && forall i :: 0 <= i < |r| ==> IsResultOf(r[i], shown[i], items, round)
  {
    KnownIsKnown(ranked, items);
    var r, shown := Results(ranked, items, limit, round), Prefix(Known(ranked, items), Max(limit, 1));
    forall i | 0 <= i < |r|
      ensures IsResultOf(r[i], shown[i], items, round)
    {
      assert shown[i] in Known(ranked, items);
      LookupIsLast(items, shown[i].id);
    }
  }

  /** Without a usable vector store the search is a keyword search, and for a query without tokens a dense one: the
      first corpus-known entries of that ranking, with its own scores. */
  lemma SearchDegrades(items: seq<Food>, q: Query, limit: int, candidates: int, round: real -> real)
    requires |q.scores| == |items|
    ensures var r := Search(items, q, limit, None, candidates, round);
      (!q.dense.Store? || q.dense.count <= 0 ==> r == Results(Bm25Rank(items, q, 50), items, Clamp(limit), round))
      && (!q.hasTokens && q.dense.Store? && q.dense.count > 0 ==>
            r == Results(q.dense.hits(50), items, Clamp(limit), round))
  {
  }

  /** A reranker is shown the corpus-known ids among the first candidates and asked for as many as are wanted; what it
      answers is the result. */
  lemma RerankedSearch(items: seq<Food>, q: Query, limit: int, rerank: Reranker, rerankCandidates: int,
                       round: real -> real)
    requires |q.scores| == |items|
    ensures var n := if limit < 1 then 1 else if limit > 20 then 20 else limit;
      var candidates := if rerankCandidates < n then n else rerankCandidates;
      var fused := FirstStage(items, q, if candidates < 50 then 50 else candidates);
      var shown := Ids(Known(Prefix(fused, candidates), items));
      shown != [] && rerank(shown, n).Ranked? ==>
        Search(items, q, limit, Some(rerank), rerankCandidates, round)
        == Results(rerank(shown, n).list, items, n, round)
  {
    ClampMeaning(limit);
    hide Clamp, FirstStage, Results, Known;
  }

  lemma ResultsInCorpus(ranked: seq<Scored>, items: seq<Food>, limit: int, round: real -> real)
    ensures var r := Results(ranked, items, limit, round);
      |r| <= Max(limit, 1)
      && forall i :: 0 <= i < |r| ==> r[i].food in items && r[i].food.id in Ids(ranked)
  {
    KnownIsKnown(ranked, items);
    var r, k := Results(ranked, items, limit, round), Known(ranked, items);
    forall i | 0 <= i < |r|
      ensures r[i].food.id in Ids(ranked)
    {
      assert k[i] in k;
      var j :| 0 <= j < |ranked| && ranked[j] == k[i];
      assert Ids(ranked)[j] == r[i].food.id;
    }
  }

  /** The reranker's contract: it returns candidates it was shown. */
  ghost predicate ReturnsCandidates(rerank: Reranker) {
    forall shown, n, e :: rerank(shown, n).Ranked? && e in rerank(shown, n).list ==> e.id in shown
  }

  lemma KnownIdsAreRanked(ranked: seq<Scored>, items: seq<Food>)
    ensures forall y :: y in Ids(Known(ranked, items)) ==> y in Ids(ranked)
  {
    KnownIsKnown(ranked, items);
    var k := Known(ranked, items);
    forall i | 0 <= i < |k|
      ensures k[i].id in Ids(ranked)
    {
      assert k[i] in k;
      var j :| 0 <= j < |ranked| && ranked[j] == k[i];
      assert Ids(ranked)[j] == k[i].id;
    }
  }

  /** With a reranker that answers, every result comes from the candidate pool. */
  lemma RerankedFromPool(items: seq<Food>, q: Query, limit: int, rerank: Reranker, rerankCandidates: int,
                         round: real -> real)
    requires |q.scores| == |items| && ReturnsCandidates(rerank)
    ensures var candidates := Max(Clamp(limit), rerankCandidates);
      var fused := FirstStage(items, q, PoolSize(Some(rerank), candidates));
      var r := Search(items, q, limit, Some(rerank), rerankCandidates, round);
      ApplyReranker(fused, items, rerank, candidates, Clamp(limit)).Some? ==>
        forall i :: 0 <= i < |r| ==> r[i].food in items && r[i].food.id in Ids(Prefix(fused, candidates))
  {
    hide FirstStage, Known, Results;
    var n := Clamp(limit);
    var candidates := Max(n, rerankCandidates);
    var fused := FirstStage(items, q, PoolSize(Some(rerank), candidates));
    var pool := Prefix(fused, candidates);
    var shown := Ids(Known(pool, items));
    var reranked := ApplyReranker(fused, items, rerank, candidates, n);
    if reranked.Some? {
      ResultsInCorpus(reranked.value, items, n, round);
      KnownIdsAreRanked(pool, items);
      forall e | e in reranked.value
        ensures e.id in Ids(pool)
      {
        if shown == [] {
          var i :| 0 <= i < |Prefix(fused, n)| && Prefix(fused, n)[i] == e;
          assert Ids(pool)[i] == e.id;
        } else {
          assert e.id in shown;
        }
      }
      assert forall i :: 0 <= i < |reranked.value| ==> reranked.value[i] in reranked.value;
    }
  }

  // ---------- falling back when the reranker is unavailable ----------

  /** The documented fallback: a reranker that cannot run leaves the plain result. */
  predicate FallsBack(items: seq<Food>, q: Query, limit: int, rerank: Reranker, rerankCandidates: int,
                      round: real -> real)
    requires |q.scores| == |items|
  {
    Search(items, q, limit, Some(rerank), rerankCandidates, round)
    == Search(items, q, limit, None, rerankCandidates, round)
  }

  lemma {:induction false} KnownPrefix(ranked: seq<Scored>, items: seq<Food>, n: nat)
    ensures Known(Prefix(ranked, n), items) <= Known(ranked, items)
  {
    if ranked == [] || n == 0 {
      assert Prefix(ranked, n) == [];
    } else {
      KnownPrefix(ranked[1..], items, n - 1);
      assert Prefix(ranked, n)[1..] == Prefix(ranked[1..], n - 1);
    }
  }

  /** With up to 50 candidates the fallback holds exactly when the candidates include an id of the corpus, or no ranked
      id is in the corpus at all: with no known candidate the reranker is not asked and nothing is returned. */
  lemma FallbackIff(items: seq<Food>, q: Query, limit: int, rerank: Reranker, rerankCandidates: int,
                    round: real -> real)
    requires |q.scores| == |items| && rerankCandidates <= CANDIDATE_POOL
    requires forall shown, n :: rerank(shown, n) == Unavailable
    ensures var fused := FirstStage(items, q, CANDIDATE_POOL);
      var candidates := Max(Clamp(limit), rerankCandidates);
      FallsBack(items, q, limit, rerank, rerankCandidates, round) <==>
        Known(Prefix(fused, candidates), items) != [] || Known(fused, items) == []
  {
    hide FirstStage, Known;
    var n := Clamp(limit);
    var candidates := Max(n, rerankCandidates);
    var fused := FirstStage(items, q, CANDIDATE_POOL);
    KnownPrefix(fused, items, candidates);
    var pool := Prefix(fused, candidates);
    KnownPrefix(pool, items, n);
    assert Prefix(pool, n) == Prefix(fused, n);
    assert PoolSize(Some(rerank), candidates) == CANDIDATE_POOL;
    if Known(pool, items) == [] {
      assert Results(Prefix(fused, n), items, n, round) == [];
      assert Results(fused, items, n, round) == [] <==> Known(fused, items) == [];
    }
  }

  /** A query without tokens whose best dense hit is not in the corpus: the fallback returns nothing. */
  lemma FallbackCanFail(food: Food, rerank: Reranker, round: real -> real)
    requires food.id != 9999 && forall shown, n :: rerank(shown, n) == Unavailable
    ensures var q := Query(false, [0.0], Store(2, (n: nat) => [Scored(9999, 0.9), Scored(food.id, 0.5)]));
      !FallsBack([food], q, 1, rerank, 1, round)
  {
    var items := [food];
    var ranked := [Scored(9999, 0.9), Scored(food.id, 0.5)];
    var q := Query(false, [0.0], Store(2, (n: nat) => ranked));
    assert FirstStage(items, q, CANDIDATE_POOL) == ranked;
    FallbackIff(items, q, 1, rerank, 1, round);
    assert Prefix(ranked, 1) == [ranked[0]] && [ranked[0]][1..] == [] && ranked[1..] == [ranked[1]];
    assert Lookup(items, 9999).None? && Lookup(items, food.id).Some?;
    assert Known(Prefix(ranked, 1), items) == [];
    assert Known([ranked[1]], items) == [ranked[1]] by { assert [ranked[1]][1..] == []; }
    assert Known(ranked, items) == [ranked[1]];
  }

  // ---------- with keywords the fallback always holds ----------

  lemma {:induction false} FirstWithKey(s: seq<Scored>, v: real)
    requires s != [] && Minus(s[0]) == v
    ensures WithKey(s, Minus, v) != [] && WithKey(s, Minus, v)[0] == s[0]
  {
    var key := Minus;
    assert key(s[0]) == v;
    assert WithKey(s, key, v) == [s[0]] + WithKey(s[1..], key, v);
  }

  lemma {:induction false} HeadStays(t: seq<Scored>, ranking: seq<Scored>, k: nat, start: nat)
    requires t != []
    ensures AddRanking(t, ranking, k, start) != [] && AddRanking(t, ranking, k, start)[0].id == t[0].id
    decreases |ranking|
  {
    if ranking != [] {
      HeadStays(Add(t, ranking[0].id, Weight(k, start)), ranking[1..], k, start + 1);
    }
  }

  lemma TableHead(bm25: seq<Scored>, dense: seq<Scored>, k: nat)
    requires bm25 != []
    ensures var t := AddRankings([], [bm25, dense], k); t != [] && t[0].id == bm25[0].id
  {
    var one := Add([], bm25[0].id, Weight(k, 0));
    var t1 := AddRanking([], bm25, k, 0);
    var t2 := AddRanking(t1, dense, k, 0);
    assert one[0].id == bm25[0].id;
    assert t1 == AddRanking(one, bm25[1..], k, 1);
    HeadStays(one, bm25[1..], k, 1);
    HeadStays(t1, dense, k, 0);
    hide AddRanking;
    assert [bm25, dense][1..] == [dense] && [dense][1..] == [];
    assert AddRankings(t2, [], k) == t2;
    assert AddRankings(t1, [dense], k) == t2;
    assert AddRankings([], [bm25, dense], k) == t2;
  }

  lemma {:induction false} WorthAtMost(ranking: seq<Scored>, id: int, k: nat, start: nat)
    requires Distinct(Ids(ranking))
    ensures Worth(ranking, id, k, start) <= Weight(k, start)
  {
    if ranking != [] {
      DistinctSplit(ranking);
      if ranking[0].id == id {
        WorthAbsent(ranking[1..], id, k, start + 1);
      } else {
        WorthAtMost(ranking[1..], id, k, start + 1);
        WeightDecreases(k, start, start + 1);
      }
    } else {
      WeightDecreases(k, start, start + 1);
    }
  }

  lemma TwoWorths(bm25: seq<Scored>, dense: seq<Scored>, id: int, k: nat)
    ensures TotalWorth([bm25, dense], id, k) == Worth(bm25, id, k, 0) + Worth(dense, id, k, 0)
  {
    assert [bm25, dense][1..] == [dense] && [dense][1..] == [];
    assert TotalWorth([dense], id, k) == Worth(dense, id, k, 0) + 0.0;
  }

  lemma OutsiderWorth(bm25: seq<Scored>, dense: seq<Scored>, id: int, k: nat)
    requires Distinct(Ids(dense))
    ensures id in Ids(bm25) || TotalWorth([bm25, dense], id, k) <= Weight(k, 0)
  {
    if id !in Ids(bm25) {
      TwoWorths(bm25, dense, id, k);
      WorthAbsent(bm25, id, k, 0);
      WorthAtMost(dense, id, k, 0);
    }
  }

  lemma TieGoesToHead(t: seq<Scored>, f: seq<Scored>)
    requires t != [] && f == SortBy(t, Minus) && f != [] && f[0].score == t[0].score
    ensures f[0] == t[0]
  {
    var v := Minus(f[0]);
    FirstWithKey(f, v);
    FirstWithKey(t, v);
    SortByIsStable(t, Minus, v);
  }

  /** The first fused id always comes from the keyword ranking when there is one: it can at worst tie, and ties keep
      insertion order. */
  lemma FirstFusedFromKeywords(bm25: seq<Scored>, dense: seq<Scored>, k: nat)
    requires bm25 != [] && Distinct(Ids(bm25)) && Distinct(Ids(dense))
    ensures var f := Fused([bm25, dense], k); f != [] && f[0].id in Ids(bm25)
  {
    hide AddRankings, Worth, SortBy, TotalWorth, ScoreOf;
    var t, f := AddRankings([], [bm25, dense], k), Fused([bm25, dense], k);
    TableHead(bm25, dense, k);
    FusedMeaning([bm25, dense], k);
    SortBySorts(t, Minus);
    AddRankingsMeaning([], [bm25, dense], k);
    NoScore();
    ScoreInTable(t, 0);
    TwoWorths(bm25, dense, t[0].id, k);
    WorthAt(bm25, k, 0, 0);
    WorthNonNegative(dense, t[0].id, k, 0);
    InMultiset(t, f, t[0]);
    var h :| 0 <= h < |f| && f[h] == t[0];
    assert Ids(bm25)[0] == t[0].id;
    if f[0].score == t[0].score {
      TieGoesToHead(t, f);
    } else {
      OutsiderWorth(bm25, dense, f[0].id, k);
    }
  }

  /** Whenever the query has tokens, an unavailable reranker with up to 50 candidates changes nothing. */
  lemma FallbackWithKeywords(items: seq<Food>, q: Query, limit: int, rerank: Reranker, rerankCandidates: int,
                             round: real -> real)
    requires |q.scores| == |items| && Distinct(FoodIds(items)) && q.hasTokens && items != []
    requires Distinct(Ids(DenseRank(q.dense, CANDIDATE_POOL)))
    requires rerankCandidates <= CANDIDATE_POOL && forall shown, n :: rerank(shown, n) == Unavailable
    ensures FallsBack(items, q, limit, rerank, rerankCandidates, round)
  {
    hide Fused, Bm25Rank, Known, FallsBack, Order;
    var bm25, dense := Bm25Rank(items, q, CANDIDATE_POOL), DenseRank(q.dense, CANDIDATE_POOL);
    Bm25IsTopN(items, q, CANDIDATE_POOL);
    Bm25Distinct(items, q, CANDIDATE_POOL);
    FirstFusedFromKeywords(bm25, dense, RRF_K);
    var fused := FirstStage(items, q, CANDIDATE_POOL);
    assert fused != [] && fused[0].id in Ids(bm25) by { assert Ids(bm25)[0] == bm25[0].id; }
    var p :| 0 <= p < |bm25| && Ids(bm25)[p] == fused[0].id;
    assert Lookup(items, fused[0].id).Some?;
    var candidates := Max(Clamp(limit), rerankCandidates);
    var pool := Prefix(fused, candidates);
    KnownIsKnown(pool, items);
    assert pool[0] == fused[0] && pool[0] in pool;
    assert pool[0] in Known(pool, items);
    FallbackIff(items, q, limit, rerank, rerankCandidates, round);
  }
}
