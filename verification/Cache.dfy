/** The TTL + LRU cache around a function, used by one caller at a time. */
module Cache {
  import opened Sorting

  /** The digest of a call's arguments; only equality matters. */
  type Key = int

  datatype Outcome<+V> = Returned(value: V) | Raised(error: string)

  /** One entry; the store lists them least recently used first, as the ordered dictionary does. */
  datatype Item<+V> = Item(key: Key, expiresAt: real, value: V)

  /** One call: its key, the clock at lookup, what the function would do, and the clock after that. */
  datatype Op<+V> = Op(key: Key, now: real, outcome: Outcome<V>, later: real)

  datatype State<+V> = State(store: seq<Item<V>>, hits: nat, misses: nat)

  // ---------- the ordered dictionary ----------

  function Keys<V>(store: seq<Item<V>>): (ks: seq<Key>)
    ensures |ks| == |store| && forall i :: 0 <= i < |store| ==> ks[i] == store[i].key
  {
    seq(|store|, i requires 0 <= i < |store| => store[i].key)
  }

  function Find<V>(store: seq<Item<V>>, key: Key): (i: nat)
    ensures i <= |store| && (i < |store| ==> store[i].key == key)
    ensures i < |store| <==> key in Keys(store)
  {
    if store == [] then 0 else if store[0].key == key then 0 else
    assert Keys(store) == [store[0].key] + Keys(store[1..]);
    1 + Find(store[1..], key)
  }

  /** The store without its entry at `i`. */
  function Drop<V>(store: seq<Item<V>>, i: nat): seq<Item<V>> {
    if i < |store| then store[..i] + store[i + 1..] else store
  }

  // ---------- reference: one call on the state ----------

  predicate Hits<V>(store: seq<Item<V>>, op: Op<V>) {
    var i := Find(store, op.key);
    i < |store| && store[i].expiresAt > op.now
  }

  function Step<V>(s: State<V>, op: Op<V>, ttl: real, maxsize: int): (State<V>, Outcome<V>) {
    var i := Find(s.store, op.key);
    if Hits(s.store, op) then
      (State(Drop(s.store, i) + [s.store[i]], s.hits + 1, s.misses), Returned(s.store[i].value))
    else
      var kept := Drop(s.store, i);
      match op.outcome
      case Raised(e) => (State(kept, s.hits, s.misses), op.outcome)
      case Returned(v) =>
        if maxsize < 0 then (State([], s.hits, s.misses), Raised("dictionary is empty"))
        else (State(Last(kept + [Item(op.key, op.later + ttl, v)], maxsize), s.hits, s.misses + 1), op.outcome)
  }

  function Run<V>(ops: seq<Op<V>>, ttl: real, maxsize: int): State<V> {
    if ops == [] then State([], 0, 0)
    else Step(Run(ops[..|ops| - 1], ttl, maxsize), ops[|ops| - 1], ttl, maxsize).0
  }

  // ---------- the code ----------

  class Cached<V> {
    const ttl: real
    const maxsize: int
    var store: seq<Item<V>>
    var hits: nat
    var misses: nat

    constructor (ttl: real, maxsize: int)
      ensures this.ttl == ttl && this.maxsize == maxsize
      ensures Contents() == State([], 0, 0)
    {
      this.ttl := ttl;
      this.maxsize := maxsize;
      store, hits, misses := [], 0, 0;
    }

    function Contents(): State<V>
      reads this
    {
      State(store, hits, misses)
    }

    method Call(op: Op<V>) returns (r: Outcome<V>)
      modifies this
      ensures (Contents(), r) == Step(old(Contents()), op, ttl, maxsize)
    {
      hide Find, Keys, Last;
      var i := Find(store, op.key);
      if i < |store| {
        if store[i].expiresAt > op.now {
          var entry := store[i];
          store := store[..i] + store[i + 1..];
          store := store + [entry];
          hits := hits + 1;
          return Returned(entry.value);
        }
        store := store[..i] + store[i + 1..];
      }
      if op.outcome.Raised? {
        return op.outcome;
      }
      store := store + [Item(op.key, op.later + ttl, op.outcome.value)];
      var fits := Trim();
      if !fits {
        return Raised("dictionary is empty");
      }
      misses := misses + 1;
      r := op.outcome;
    }

    /** Pops the least recently used entries while there are too many; popping from an empty dictionary fails. */
    method Trim() returns (fits: bool)
      modifies `store
      ensures fits <==> maxsize >= 0
      ensures store == if maxsize < 0 then [] else Last(old(store), maxsize)
    {
      ghost var full := store;
      while |store| > maxsize
        invariant |store| <= |full| && store == full[|full| - |store|..]
        invariant maxsize >= 0 ==> |store| >= if |full| < maxsize then |full| else maxsize
        decreases |store|
      {
        if |store| == 0 {
          return false;
        }
        store := store[1..];
      }
      return true;
    }

    method Clear()
      modifies this
      ensures Contents() == State([], 0, 0)
    {
      store, hits, misses := [], 0, 0;
    }
  }
}

/** Which keys the cache holds after any sequence of calls. */
module CacheProperties {
  import opened Sorting
  import opened Cache

  function Without(ks: seq<Key>, k: Key): seq<Key> {
    if ks == [] then [] else if ks[0] == k then Without(ks[1..], k) else [ks[0]] + Without(ks[1..], k)
  }

  function Used<V>(ops: seq<Op<V>>): (ks: seq<Key>)
    ensures |ks| == |ops| && forall i :: 0 <= i < |ops| ==> ks[i] == ops[i].key
  {
    seq(|ops|, i requires 0 <= i < |ops| => ops[i].key)
  }

  /** The distinct keys of `used`, ordered by last use. */
  function Recency(used: seq<Key>): seq<Key> {
    if used == [] then [] else Without(Recency(used[..|used| - 1]), used[|used| - 1]) + [used[|used| - 1]]
  }

  /** The position of the last use of `k`. */
  function LastUse(used: seq<Key>, k: Key): (p: nat)
    requires k in used
    ensures p < |used| && used[p] == k && forall j :: p < j < |used| ==> used[j] != k
  {
    if used[|used| - 1] == k then |used| - 1 else LastUse(used[..|used| - 1], k)
  }

  lemma {:induction false} WithoutMembers(ks: seq<Key>, k: Key)
    ensures forall x :: x in Without(ks, k) <==> x in ks && x != k
    ensures k !in ks ==> Without(ks, k) == ks
    ensures |Without(ks, k)| <= |ks|
  {
    if ks != [] {
      WithoutMembers(ks[1..], k);
      assert ks == [ks[0]] + ks[1..];
    }
  }

  lemma DistinctTail(ks: seq<Key>)
    requires ks != []
    ensures Distinct(ks) <==> ks[0] !in ks[1..] && Distinct(ks[1..])
  {
    assert forall i :: 0 < i < |ks| ==> ks[i] == ks[1..][i - 1];
  }

  lemma {:induction false} WithoutFacts(ks: seq<Key>, k: Key)
    requires Distinct(ks)
    ensures forall x :: x in Without(ks, k) <==> x in ks && x != k
    ensures Distinct(Without(ks, k))
    ensures k !in ks ==> Without(ks, k) == ks
    ensures k in ks ==> |Without(ks, k)| + 1 == |ks|
  {
    WithoutMembers(ks, k);
    if ks != [] {
      DistinctTail(ks);
      WithoutFacts(ks[1..], k);
      if ks[0] != k {
        DistinctTail(Without(ks, k));
      }
    }
  }

  predicate OrderedByUse(ks: seq<Key>, used: seq<Key>) {
    (forall i :: 0 <= i < |ks| ==> ks[i] in used)
    && forall i, j :: 0 <= i < j < |ks| ==> LastUse(used, ks[i]) < LastUse(used, ks[j])
  }

  lemma OrderedTail(ks: seq<Key>, used: seq<Key>)
    requires OrderedByUse(ks, used) && ks != []
    ensures ks[0] in used && OrderedByUse(ks[1..], used)
    ensures forall x :: x in ks[1..] ==> x in used && LastUse(used, ks[0]) < LastUse(used, x)
  {
    forall i | 0 <= i < |ks[1..]|
      ensures ks[1..][i] == ks[i + 1]
    {
    }
  }

  lemma OrderedCons(x: Key, ks: seq<Key>, used: seq<Key>)
    requires x in used && OrderedByUse(ks, used)
    requires forall y :: y in ks ==> y in used && LastUse(used, x) < LastUse(used, y)
    ensures OrderedByUse([x] + ks, used)
  {
  }

  lemma {:induction false} WithoutKeepsOrder(ks: seq<Key>, k: Key, used: seq<Key>)
    requires OrderedByUse(ks, used)
    ensures OrderedByUse(Without(ks, k), used)
  {
    hide OrderedByUse, LastUse;
    if ks != [] {
      OrderedTail(ks, used);
      WithoutKeepsOrder(ks[1..], k, used);
      WithoutMembers(ks[1..], k);
      if ks[0] != k {
        OrderedCons(ks[0], Without(ks[1..], k), used);
      }
    } else {
      assert Without(ks, k) == ks;
    }
  }

  lemma UseOneMore(init: seq<Key>, k: Key, ks: seq<Key>)
    requires OrderedByUse(ks, init) && k !in ks
    ensures OrderedByUse(ks + [k], init + [k])
  {
    var used := init + [k];
    forall i | 0 <= i < |ks|
      ensures ks[i] in used && LastUse(used, ks[i]) == LastUse(init, ks[i])
    {
      assert used[..|used| - 1] == init;
      assert used[LastUse(init, ks[i])] == ks[i];
    }
    assert used[|init|] == k;
  }

  /** `Recency` is what its name says: exactly the used keys, once each, in ascending order of last use. */
  lemma {:induction false} RecencyMeaning(used: seq<Key>)
    ensures forall k :: k in Recency(used) <==> k in used
    ensures OrderedByUse(Recency(used), used)
    ensures Distinct(Recency(used))
  {
    if used != [] {
      var init, k := used[..|used| - 1], used[|used| - 1];
      assert used == init + [k];
      RecencyMeaning(init);
      WithoutFacts(Recency(init), k);
      WithoutKeepsOrder(Recency(init), k, init);
      UseOneMore(init, k, Without(Recency(init), k));
    }
  }

  lemma DropIsWithout<V>(store: seq<Item<V>>, k: Key)
    requires Distinct(Keys(store))
    ensures Keys(Drop(store, Find(store, k))) == Without(Keys(store), k)
  {
    var i := Find(store, k);
    WithoutOne(Keys(store), k, i);
    assert Keys(Drop(store, i)) == if i < |store| then Keys(store)[..i] + Keys(store)[i + 1..] else Keys(store);
  }

  lemma {:induction false} WithoutOne(ks: seq<Key>, k: Key, i: nat)
    requires Distinct(ks) && i <= |ks| && (i < |ks| ==> ks[i] == k) && (i == |ks| ==> k !in ks)
    ensures Without(ks, k) == if i < |ks| then ks[..i] + ks[i + 1..] else ks
  {
    if i == |ks| {
      WithoutFacts(ks, k);
    } else if i == 0 {
      DistinctTail(ks);
      WithoutFacts(ks[1..], k);
    } else {
      DistinctTail(ks);
      WithoutOne(ks[1..], k, i - 1);
    }
  }

  lemma LastIgnoresHead(x: Key, a: seq<Key>, n: nat)
    requires |a| >= n
    ensures Last([x] + a, n) == Last(a, n)
  {
  }

  lemma WithoutCons(x: Key, a: seq<Key>, k: Key)
    ensures Without([x] + a, k) + [k] == if x == k then Without(a, k) + [k] else [x] + (Without(a, k) + [k])
  {
    assert ([x] + a)[1..] == a;
  }

  /** Removing one key and truncating commute as far as the last n keys after re-adding it are concerned. */
  lemma {:induction false} TruncateThenUse(r: seq<Key>, n: nat, k: Key)
    requires Distinct(r)
    ensures Last(Without(Last(r, n), k) + [k], n) == Last(Without(r, k) + [k], n)
  {
    if |r| <= n {
      assert Last(r, n) == r;
    } else {
      hide Last, Without;
      var x, a := r[0], r[1..];
      assert r == [x] + a;
      DistinctTail(r);
      WithoutFacts(a, k);
      TruncateThenUse(a, n, k);
      LastIgnoresHead(x, a, n);
      WithoutCons(x, a, k);
      if x != k {
        LastIgnoresHead(x, Without(a, k) + [k], n);
      }
    }
  }

  /** When a truncated list contains k, moving k to its end is moving k to the end of the full list. */
  lemma MoveToEnd(r: seq<Key>, n: nat, k: Key)
    requires Distinct(r) && k in Last(r, n)
    ensures Without(Last(r, n), k) + [k] == Last(Without(r, k) + [k], n)
  {
    TruncateThenUse(r, n, k);
    LastDistinct(r, n);
    WithoutFacts(Last(r, n), k);
  }

  lemma LastDistinct(r: seq<Key>, n: nat)
    requires Distinct(r)
    ensures Distinct(Last(r, n))
  {
  }

  /** A call raises while its own expired entry is stored: the one event that takes a key out early. */
  predicate LosesKey<V>(store: seq<Item<V>>, op: Op<V>) {
    op.outcome.Raised? && op.key in Keys(store) && !Hits(store, op)
  }

  function RecencyAfter<V>(r: seq<Key>, op: Op<V>, hit: bool): seq<Key> {
    if hit || op.outcome.Returned? then Without(r, op.key) + [op.key] else r
  }

  lemma KeysAppend<V>(store: seq<Item<V>>, item: Item<V>)
    ensures Keys(store + [item]) == Keys(store) + [item.key]
  {
  }

  lemma KeysOfLast<V>(store: seq<Item<V>>, n: nat)
    ensures Keys(Last(store, n)) == Last(Keys(store), n)
  {
  }

  lemma HitKeys<V>(s: State<V>, op: Op<V>, ttl: real, n: nat, r: seq<Key>)
    requires Distinct(r) && Keys(s.store) == Last(r, n) && Hits(s.store, op)
    ensures Keys(Step(s, op, ttl, n).0.store) == Last(Without(r, op.key) + [op.key], n)
  {
    hide Without, Last, Keys;
    var i := Find(s.store, op.key);
    LastDistinct(r, n);
    DropIsWithout(s.store, op.key);
    KeysAppend(Drop(s.store, i), s.store[i]);
    MoveToEnd(r, n, op.key);
  }

  lemma MissKeys<V>(s: State<V>, op: Op<V>, ttl: real, n: nat, r: seq<Key>)
    requires Distinct(r) && Keys(s.store) == Last(r, n) && !Hits(s.store, op) && op.outcome.Returned?
    ensures Keys(Step(s, op, ttl, n).0.store) == Last(Without(r, op.key) + [op.key], n)
  {
    hide Without, Hits, Last, Keys;
    LastDistinct(r, n);
    DropIsWithout(s.store, op.key);
    var kept, item := Drop(s.store, Find(s.store, op.key)), Item(op.key, op.later + ttl, op.outcome.value);
    KeysAppend(kept, item);
    KeysOfLast(kept + [item], n);
    TruncateThenUse(r, n, op.key);
  }

  lemma RaiseKeys<V>(s: State<V>, op: Op<V>, ttl: real, n: nat, r: seq<Key>)
    requires Distinct(r) && Keys(s.store) == Last(r, n) && !Hits(s.store, op) && op.outcome.Raised?
    ensures Keys(Step(s, op, ttl, n).0.store) == Last(r, n) <==> op.key !in Keys(s.store)
  {
    hide Last, Hits;
    LastDistinct(r, n);
    DropIsWithout(s.store, op.key);
    WithoutFacts(Keys(s.store), op.key);
  }

  /** From the last n distinct keys by last use, a call leads to the last n again, exactly unless it loses its key. */
  lemma StepKeys<V>(s: State<V>, op: Op<V>, ttl: real, n: nat, r: seq<Key>)
    requires Distinct(r) && Keys(s.store) == Last(r, n)
    ensures Keys(Step(s, op, ttl, n).0.store) == Last(RecencyAfter(r, op, Hits(s.store, op)), n)
            <==> !LosesKey(s.store, op)
  {
    hide Step, Last, Without, Hits;
    if Hits(s.store, op) {
      HitKeys(s, op, ttl, n, r);
    } else if op.outcome.Returned? {
      MissKeys(s, op, ttl, n, r);
    } else {
      RaiseKeys(s, op, ttl, n, r);
    }
  }

  /** The keys of the calls that returned, from the cache or from the function. */
  function Completed<V>(ops: seq<Op<V>>, ttl: real, n: nat): seq<Key> {
    if ops == [] then []
    else
      var init, op := ops[..|ops| - 1], ops[|ops| - 1];
      Completed(init, ttl, n) + (if Hits(Run(init, ttl, n).store, op) || op.outcome.Returned? then [op.key] else [])
  }

  /** No call raises on its own stored but expired entry. */
  predicate NeverLoses<V>(ops: seq<Op<V>>, ttl: real, n: nat) {
    ops == []
    || (NeverLoses(ops[..|ops| - 1], ttl, n) && !LosesKey(Run(ops[..|ops| - 1], ttl, n).store, ops[|ops| - 1]))
  }

  /** After every call of the run the store's key order is the last `n` distinct completed keys by last use. */
  predicate AlwaysRecent<V>(ops: seq<Op<V>>, ttl: real, n: nat) {
    (ops == [] || AlwaysRecent(ops[..|ops| - 1], ttl, n))
    && Keys(Run(ops, ttl, n).store) == Last(Recency(Completed(ops, ttl, n)), n)
  }

  /** The key order is always the recency order, whatever expires, exactly when no call loses its key. */
  lemma {:induction false} AlwaysRecentIff<V>(ops: seq<Op<V>>, ttl: real, n: nat)
    ensures AlwaysRecent(ops, ttl, n) <==> NeverLoses(ops, ttl, n)
  {
    hide Step, Hits, LosesKey, Recency;
    if ops == [] {
      NothingUsed();
    } else {
      var init, op := ops[..|ops| - 1], ops[|ops| - 1];
      AlwaysRecentIff(init, ttl, n);
      if AlwaysRecent(init, ttl, n) {
        var done := Completed(init, ttl, n);
        RecencyMeaning(done);
        RecencyStep(done, op.key);
        assert done + [] == done;
        StepKeys(Run(init, ttl, n), op, ttl, n, Recency(done));
      }
    }
  }

  lemma NothingUsed()
    ensures Recency([]) == []
  {
  }

  lemma RecencyStep(used: seq<Key>, k: Key)
    ensures Recency(used + [k]) == Without(Recency(used), k) + [k]
  {
    assert (used + [k])[..|used|] == used;
  }

  /** A call that loses its key: its entry has expired and the function raises. */
  lemma ExpiredRaiseLosesKey()
    ensures var first: Op<int>, again: Op<int> := Op(0, 0.0, Returned(0), 0.0), Op(0, 20.0, Raised("down"), 20.0);
      LosesKey(Run([first], 10.0, 5).store, again)
      && Run([first, again], 10.0, 5).store == [] && Recency(Completed([first, again], 10.0, 5)) == [0]
  {
    var first: Op<int>, again: Op<int> := Op(0, 0.0, Returned(0), 0.0), Op(0, 20.0, Raised("down"), 20.0);
    assert [first, again][..1] == [first] && [first][..0] == [];
    assert Run([first], 10.0, 5) == State([Item(0, 10.0, 0)], 0, 1);
    assert Completed([first], 10.0, 5) == [0] && [0][..0] == [];
    assert [0] + [] == [0];
    assert Completed([first, again], 10.0, 5) == [0];
  }

  /** No call of the run raises. */
  predicate AllReturn<V>(ops: seq<Op<V>>) {
    forall i :: 0 <= i < |ops| ==> ops[i].outcome.Returned?
  }

  lemma {:induction false} AllReturnCompletes<V>(ops: seq<Op<V>>, ttl: real, n: nat)
    requires AllReturn(ops)
    ensures NeverLoses(ops, ttl, n) && Completed(ops, ttl, n) == Used(ops)
  {
    hide Run, Hits;
    if ops != [] {
      AllReturnCompletes(ops[..|ops| - 1], ttl, n);
      assert Used(ops) == Used(ops[..|ops| - 1]) + [ops[|ops| - 1].key];
    }
  }

  /** When all calls return, that is the last `maxsize` distinct keys by last use. */
  lemma StoreIsMostRecent<V>(ops: seq<Op<V>>, ttl: real, maxsize: nat)
    requires AllReturn(ops)
    ensures Keys(Run(ops, ttl, maxsize).store) == Last(Recency(Used(ops)), maxsize)
  {
    hide NeverLoses, Run, Recency, Completed, Used;
    AllReturnCompletes(ops, ttl, maxsize);
    AlwaysRecentIff(ops, ttl, maxsize);
  }

  // ---------- what an entry holds, in terms of the calls ----------

  /** Call `i` is for `k`, misses and returns. */
  predicate Computes<V>(ops: seq<Op<V>>, i: nat, k: Key, ttl: real, n: nat)
    requires i < |ops|
  {
    ops[i].key == k && ops[i].outcome.Returned? && !Hits(Run(ops[..i], ttl, n).store, ops[i])
  }

  /** The last such call; past the end when there is none. */
  function LastMiss<V>(ops: seq<Op<V>>, k: Key, ttl: real, n: nat): (i: nat)
    ensures i <= |ops|
  {
    if ops == [] then 0
    else
      var end: nat := |ops| - 1;
      if Computes(ops, end, k, ttl, n) then end
      else
        var i := LastMiss(ops[..end], k, ttl, n);
        if i < end then i else |ops|
  }

  /** It is one, and none comes later. */
  lemma {:induction false} LastMissMeaning<V>(ops: seq<Op<V>>, k: Key, ttl: real, n: nat)
    ensures var i := LastMiss(ops, k, ttl, n);
      (i < |ops| ==> Computes(ops, i, k, ttl, n))
      && forall j :: 0 <= j < |ops| && Computes(ops, j, k, ttl, n) ==> j <= i < |ops|
  {
    hide Run, Hits;
    if ops != [] {
      var end := |ops| - 1;
      LastMissMeaning(ops[..end], k, ttl, n);
      forall j | 0 <= j < end
        ensures Computes(ops, j, k, ttl, n) <==> Computes(ops[..end], j, k, ttl, n)
      {
        assert ops[..end][..j] == ops[..j];
      }
    }
  }

  /** What that call stored. */
  ghost predicate StoredBy<V>(x: Item<V>, ops: seq<Op<V>>, i: nat, ttl: real) {
    i < |ops| && ops[i].outcome.Returned? && x == Item(ops[i].key, ops[i].later + ttl, ops[i].outcome.value)
  }

  /** Every entry was stored by the last call for its key that missed and returned. */
  ghost predicate StoredByLastMiss<V>(ops: seq<Op<V>>, ttl: real, n: nat) {
    var store := Run(ops, ttl, n).store;
    forall p :: 0 <= p < |store| ==> StoredBy(store[p], ops, LastMiss(ops, store[p].key, ttl, n), ttl)
  }

  lemma {:induction false} EntriesAreFromLastMiss<V>(ops: seq<Op<V>>, ttl: real, n: nat)
    requires NeverLoses(ops, ttl, n)
    ensures StoredByLastMiss(ops, ttl, n)
  {
    hide Recency, Last, Step, LastMiss, StoredBy, Hits, Completed, LosesKey;
    if ops != [] {
      var init, op := ops[..|ops| - 1], ops[|ops| - 1];
      EntriesAreFromLastMiss(init, ttl, n);
      AlwaysRecentIff(init, ttl, n);
      RecencyMeaning(Completed(init, ttl, n));
      LastDistinct(Recency(Completed(init, ttl, n)), n);
      var s, store' := Run(init, ttl, n), Run(ops, ttl, n).store;
      forall p | 0 <= p < |store'|
        ensures StoredBy(store'[p], ops, LastMiss(ops, store'[p].key, ttl, n), ttl)
      {
        EntryBefore(s, op, ttl, n, store'[p]);
        EntryStaysFromLastMiss(ops, ttl, n, store'[p]);
      }
    }
  }

  /** An entry after a call was there before, under another key or kept by a hit, or is what the call stored. */
  ghost predicate CameFrom<V>(x: Item<V>, store: seq<Item<V>>, op: Op<V>, ttl: real) {
    if Hits(store, op) then x in store
    else (x in store && x.key != op.key)
         || (op.outcome.Returned? && x == Item(op.key, op.later + ttl, op.outcome.value))
  }

  lemma EntryStaysFromLastMiss<V>(ops: seq<Op<V>>, ttl: real, n: nat, x: Item<V>)
    requires ops != [] && StoredByLastMiss(ops[..|ops| - 1], ttl, n)
    requires CameFrom(x, Run(ops[..|ops| - 1], ttl, n).store, ops[|ops| - 1], ttl)
    ensures StoredBy(x, ops, LastMiss(ops, x.key, ttl, n), ttl)
  {
    hide Run, Hits;
    var init := ops[..|ops| - 1];
    var store := Run(init, ttl, n).store;
    if x in store {
      var q :| 0 <= q < |store| && store[q] == x;
      assert StoredBy(store[q], init, LastMiss(init, store[q].key, ttl, n), ttl);
    }
  }

  lemma EntryBefore<V>(s: State<V>, op: Op<V>, ttl: real, n: nat, x: Item<V>)
    requires Distinct(Keys(s.store)) && x in Step(s, op, ttl, n).0.store
    ensures CameFrom(x, s.store, op, ttl)
  {
    hide Hits, Find, Drop, Keys;
    if Hits(s.store, op) {
      EntryOfHit(s, op, ttl, n, x);
    } else {
      DropEntry(s.store, op.key);
      var kept := Drop(s.store, Find(s.store, op.key));
      if op.outcome.Returned? {
        assert x in kept + [Item(op.key, op.later + ttl, op.outcome.value)];
      } else {
        assert x in kept;
      }
    }
  }

  lemma EntryOfHit<V>(s: State<V>, op: Op<V>, ttl: real, n: nat, x: Item<V>)
    requires Hits(s.store, op) && x in Step(s, op, ttl, n).0.store
    ensures x in s.store
  {
    hide Find, Keys;
  }

  lemma DropEntry<V>(store: seq<Item<V>>, k: Key)
    requires Distinct(Keys(store))
    ensures forall p :: 0 <= p < |Drop(store, Find(store, k))| ==>
              Drop(store, Find(store, k))[p] in store && Drop(store, Find(store, k))[p].key != k
  {
    var i := Find(store, k);
    if i < |store| {
      assert forall p :: 0 <= p < |store| && p != i ==> Keys(store)[p] != Keys(store)[i];
    } else {
      assert forall p :: 0 <= p < |store| ==> store[p].key == Keys(store)[p];
    }
  }

  /** Over any run in which no call loses its key: a call hits exactly when its key is among the last `maxsize`
      completed ones and the last call to compute it is within the TTL; it then returns what that call computed. */
  lemma HitIff<V>(ops: seq<Op<V>>, op: Op<V>, ttl: real, maxsize: nat)
    requires NeverLoses(ops, ttl, maxsize)
    ensures var store, i := Run(ops, ttl, maxsize).store, LastMiss(ops, op.key, ttl, maxsize);
      var recent := op.key in Last(Recency(Completed(ops, ttl, maxsize)), maxsize);
      (recent ==> i < |ops|)
      && (Hits(store, op) <==> recent && i < |ops| && ops[i].later + ttl > op.now)
      && (Hits(store, op) ==> Step(Run(ops, ttl, maxsize), op, ttl, maxsize).1 == ops[i].outcome)
  {
    hide Run, Recency, LastMiss, Last, NeverLoses, Completed;
    AlwaysRecentIff(ops, ttl, maxsize);
    EntriesAreFromLastMiss(ops, ttl, maxsize);
    var store := Run(ops, ttl, maxsize).store;
    var f := Find(store, op.key);
    if f < |store| {
      assert StoredBy(store[f], ops, LastMiss(ops, store[f].key, ttl, maxsize), ttl);
    }
  }

  /** On the same calls, a larger cache holds at least the keys of a smaller one. */
  lemma LargerCacheContains<V>(ops: seq<Op<V>>, ttl: real, small: nat, large: nat)
    requires AllReturn(ops) && small <= large
    ensures forall k :: k in Keys(Run(ops, ttl, small).store) ==> k in Keys(Run(ops, ttl, large).store)
  {
    StoreIsMostRecent(ops, ttl, small);
    StoreIsMostRecent(ops, ttl, large);
    var r := Recency(Used(ops));
    forall k | k in Last(r, small)
      ensures k in Last(r, large)
    {
      assert Last(Last(r, large), small) == Last(r, small);
    }
  }

  /** Yet it may miss where the smaller one hits: a key that stayed keeps its old expiry, an evicted one gets a new
      one. */
  lemma LargerCacheMayMissMore()
    ensures var v := Returned(0);
      var ops: seq<Op<int>> := [Op(0, 0.0, v, 0.0), Op(1, 1.0, v, 1.0), Op(0, 5.0, v, 5.0)];
      var again := Op(0, 12.0, v, 12.0);
      AllReturn(ops) && Hits(Run(ops, 10.0, 1).store, again) && !Hits(Run(ops, 10.0, 2).store, again)
  {
    hide Run, Step, Hits;
    var v := Returned(0);
    var a, b, c := Op(0, 0.0, v, 0.0), Op(1, 1.0, v, 1.0), Op(0, 5.0, v, 5.0);
    var ia, ib, ic := Item(0, 10.0, 0), Item(1, 11.0, 0), Item(0, 15.0, 0);
    SmallCacheSteps(a, b, c, ia, ib, ic);
    LargeCacheSteps(a, b, c, ia, ib);
    RunThree(a, b, c, 10.0, 1);
    RunThree(a, b, c, 10.0, 2);
    FinalHits(Op(0, 12.0, v, 12.0), ia, ib, ic);
  }

  lemma RunThree<V>(a: Op<V>, b: Op<V>, c: Op<V>, ttl: real, maxsize: int)
    ensures var s1 := Step(State([], 0, 0), a, ttl, maxsize).0;
      var s2 := Step(s1, b, ttl, maxsize).0;
      Run([a, b, c], ttl, maxsize) == Step(s2, c, ttl, maxsize).0
  {
    hide Step;
    RunSnoc([], a, ttl, maxsize);
    RunSnoc([a], b, ttl, maxsize);
    RunSnoc([a, b], c, ttl, maxsize);
    assert [] + [a] == [a] && [a] + [b] == [a, b] && [a, b] + [c] == [a, b, c];
  }

  lemma RunSnoc<V>(ops: seq<Op<V>>, op: Op<V>, ttl: real, maxsize: int)
    ensures Run(ops + [op], ttl, maxsize) == Step(Run(ops, ttl, maxsize), op, ttl, maxsize).0
    ensures Run<V>([], ttl, maxsize) == State([], 0, 0)
  {
    hide Step;
    assert (ops + [op])[..|ops|] == ops;
  }

  lemma FinalHits(again: Op<int>, ia: Item<int>, ib: Item<int>, ic: Item<int>)
    requires again.key == 0 && again.now == 12.0
    requires ia == Item(0, 10.0, 0) && ib == Item(1, 11.0, 0) && ic == Item(0, 15.0, 0)
    ensures Hits([ic], again) && !Hits([ib, ia], again)
  {
    assert [ib, ia][1..] == [ia];
    assert Find([ib, ia], 0) == 1;
  }

  lemma SmallCacheSteps(a: Op<int>, b: Op<int>, c: Op<int>, ia: Item<int>, ib: Item<int>, ic: Item<int>)
    requires a == Op(0, 0.0, Returned(0), 0.0) && ia == Item(0, 10.0, 0)
    requires b == Op(1, 1.0, Returned(0), 1.0) && ib == Item(1, 11.0, 0)
    requires c == Op(0, 5.0, Returned(0), 5.0) && ic == Item(0, 15.0, 0)
    ensures forall h: nat, m: nat :: Step(State([], h, m), a, 10.0, 1).0.store == [ia]
    ensures forall h: nat, m: nat :: Step(State([ia], h, m), b, 10.0, 1).0.store == [ib]
    ensures forall h: nat, m: nat :: Step(State([ib], h, m), c, 10.0, 1).0.store == [ic]
  {
  }

  lemma LargeCacheSteps(a: Op<int>, b: Op<int>, c: Op<int>, ia: Item<int>, ib: Item<int>)
    requires a == Op(0, 0.0, Returned(0), 0.0) && ia == Item(0, 10.0, 0)
    requires b == Op(1, 1.0, Returned(0), 1.0) && ib == Item(1, 11.0, 0)
    requires c == Op(0, 5.0, Returned(0), 5.0)
    ensures forall h: nat, m: nat :: Step(State([], h, m), a, 10.0, 2).0.store == [ia]
    ensures forall h: nat, m: nat :: Step(State([ia], h, m), b, 10.0, 2).0.store == [ia, ib]
    ensures forall h: nat, m: nat :: Step(State([ia, ib], h, m), c, 10.0, 2).0.store == [ib, ia]
  {
    assert [ia, ib][1..] == [ib];
  }

  /** Where the smaller cache holds the key, so does the larger one, and it hits exactly when its entry has not expired:
      when the last call to compute the key there is within the TTL. */
  lemma LargerCacheHitsIff<V>(ops: seq<Op<V>>, op: Op<V>, ttl: real, small: nat, large: nat)
    requires AllReturn(ops) && small <= large
    ensures op.key in Keys(Run(ops, ttl, small).store) ==>
              var s, i := Run(ops, ttl, large).store, LastMiss(ops, op.key, ttl, large);
              op.key in Keys(s) && i < |ops|
              && (Hits(s, op) <==> s[Find(s, op.key)].expiresAt > op.now)
              && (Hits(s, op) <==> ops[i].later + ttl > op.now)
  {
    hide Run, Recency, LastMiss, NeverLoses, Completed;
    LargerCacheContains(ops, ttl, small, large);
    StoreIsMostRecent(ops, ttl, large);
    AllReturnCompletes(ops, ttl, large);
    HitIff(ops, op, ttl, large);
  }

  /** With a negative limit nothing is ever stored, and no call returns. */
  lemma {:induction false} NegativeLimit<V>(ops: seq<Op<V>>, op: Op<V>, ttl: real, maxsize: int)
    requires maxsize < 0
    ensures Run(ops, ttl, maxsize).store == []
    ensures Step(Run(ops, ttl, maxsize), op, ttl, maxsize).1.Raised?
  {
    if ops != [] {
      NegativeLimit(ops[..|ops| - 1], ops[|ops| - 1], ttl, maxsize);
    }
  }

  /** Every call is counted once, as a hit or as a miss, unless the function raised. */
  lemma {:induction false} CountersAddUp<V>(ops: seq<Op<V>>, ttl: real, maxsize: nat)
    requires AllReturn(ops)
    ensures Run(ops, ttl, maxsize).hits + Run(ops, ttl, maxsize).misses == |ops|
  {
    if ops != [] {
      CountersAddUp(ops[..|ops| - 1], ttl, maxsize);
    }
  }
}
