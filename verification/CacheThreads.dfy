/** The same cache shared by any number of threads: the wrapper cut into its atomic steps. */
module CacheThreads {
  import opened Sorting
  import opened Cache

  /** Where a thread is. The states from `Deciding` to `Releasing` and from `Storing` to `Counted` hold the lock. */
  datatype Pc<+V> =
    | Idle
    | Timed(key: Key, now: real)
    | Deciding(key: Key, now: real)
    | Moved(key: Key, now: real, entry: Item<V>)
    | HitCounted(key: Key, now: real, entry: Item<V>)
    | HitRecorded(key: Key, now: real, entry: Item<V>)
    | Releasing(key: Key)
    | Computing(key: Key)
    | Computed(key: Key, value: V)
    | Stamped(key: Key, value: V, expiresAt: real)
    | Storing(key: Key, value: V, expiresAt: real)
    | Trimming(key: Key, value: V)
    | Counted(key: Key, value: V)
    | Unrecorded(key: Key, value: V)
    | DoneHit(key: Key, now: real, entry: Item<V>)
    | DoneMiss(key: Key, value: V)
    | Failed(key: Key, error: string)

  /** The store, the cache's counters, the metrics' counters, the clock, the lock and the threads. */
  datatype System<+V> = System(
    store: seq<Item<V>>, hits: nat, misses: nat, metricHits: nat, metricMisses: nat,
    clock: real, lock: LockState, pcs: seq<Pc<V>>)

  datatype LockState = Free | Held(holder: nat)

  /** The function under the cache: its n-th invocation on a key. */
  type Func<V> = (Key, nat) -> Outcome<V>

  /** One step of an interleaving: time passes, or a thread moves. A thread that cannot move waits. */
  datatype Event = Tick(delta: real) | Begin(t: nat, key: Key) | Move(t: nat) | Invoke(t: nat, n: nat)

  datatype Config<!V> = Config(func: Func<V>, ttl: real, maxsize: nat)

  function Start<V>(threads: nat, clock: real): System<V> {
    System([], 0, 0, 0, 0, clock, Free, AllIdle(threads))
  }

  function AllIdle<V>(n: nat): (pcs: seq<Pc<V>>)
    ensures |pcs| == n && forall t :: 0 <= t < n ==> pcs[t] == Idle
  {
    seq(n, _ => Idle)
  }

  function At<V>(s: System<V>, t: nat, pc: Pc<V>): System<V>
    requires t < |s.pcs|
  {
    s.(pcs := s.pcs[t := pc])
  }

  function Apply<V>(s: System<V>, e: Event, c: Config<V>): (s': System<V>)
    ensures |s'.pcs| == |s.pcs|
  {
    match e
    case Tick(delta) => if delta >= 0.0 then s.(clock := s.clock + delta) else s
    case Begin(t, key) => if t < |s.pcs| && Resting(s.pcs[t]) then At(s, t, Timed(key, s.clock)) else s
    case Invoke(t, n) =>
      if t < |s.pcs| && s.pcs[t].Computing? then
        match c.func(s.pcs[t].key, n)
        case Returned(v) => At(s, t, Computed(s.pcs[t].key, v))
        case Raised(m) => At(s, t, Failed(s.pcs[t].key, m))
      else s
    case Move(t) => if t < |s.pcs| then MoveThread(s, t, c) else s
  }

  predicate Resting<V>(pc: Pc<V>) { pc.Idle? || pc.DoneHit? || pc.DoneMiss? || pc.Failed? }

  function MoveThread<V>(s: System<V>, t: nat, c: Config<V>): System<V>
    requires t < |s.pcs|
  {
    match s.pcs[t]
    case Timed(key, now) =>
      if s.lock.Free? then At(s, t, Deciding(key, now)).(lock := Held(t)) else s
    case Deciding(key, now) =>
      var i := Find(s.store, key);
      if i < |s.store| && s.store[i].expiresAt > now then
        At(s, t, Moved(key, now, s.store[i])).(store := Drop(s.store, i) + [s.store[i]])
      else
        At(s, t, Releasing(key)).(store := Drop(s.store, i))
    case Moved(key, now, entry) => At(s, t, HitCounted(key, now, entry)).(hits := s.hits + 1)
    case HitCounted(key, now, entry) => At(s, t, HitRecorded(key, now, entry)).(metricHits := s.metricHits + 1)
    case HitRecorded(key, now, entry) => At(s, t, DoneHit(key, now, entry)).(lock := Free)
    case Releasing(key) => At(s, t, Computing(key)).(lock := Free)
    case Computed(key, value) => At(s, t, Stamped(key, value, s.clock + c.ttl))
    case Stamped(key, value, expiresAt) =>
      if s.lock.Free? then At(s, t, Storing(key, value, expiresAt)).(lock := Held(t)) else s
    case Storing(key, value, expiresAt) =>
      At(s, t, Trimming(key, value)).(store := Drop(s.store, Find(s.store, key)) + [Item(key, expiresAt, value)])
    case Trimming(key, value) =>
      if |s.store| > c.maxsize then s.(store := s.store[1..])
      else At(s, t, Counted(key, value)).(misses := s.misses + 1)
    case Counted(key, value) => At(s, t, Unrecorded(key, value)).(lock := Free)
    case Unrecorded(key, value) => At(s, t, DoneMiss(key, value)).(metricMisses := s.metricMisses + 1)
    case _ => s
  }

  function RunEvents<V>(threads: nat, clock: real, events: seq<Event>, c: Config<V>): System<V> {
    if events == [] then Start(threads, clock)
    else Apply(RunEvents(threads, clock, events[..|events| - 1], c), events[|events| - 1], c)
  }

  // ---------- what every interleaving keeps ----------

  predicate Inside<V>(pc: Pc<V>) {
    pc.Deciding? || pc.Moved? || pc.HitCounted? || pc.HitRecorded? || pc.Releasing?
    || pc.Storing? || pc.Trimming? || pc.Counted?
  }

  /** Exactly the lock's holder is inside a critical section. */
  predicate Exclusive<V>(s: System<V>) {
    (s.lock.Held? ==> s.lock.holder < |s.pcs|)
    && forall t :: 0 <= t < |s.pcs| ==> (Inside(s.pcs[t]) <==> s.lock == Held(t))
  }

  predicate DistinctKeys<V>(s: System<V>) {
    forall i, j :: 0 <= i < j < |s.store| ==> s.store[i].key != s.store[j].key
  }

  /** The size limit, which only a thread between its insert and its evictions may exceed, by one. */
  predicate WithinLimit<V>(s: System<V>, maxsize: nat) {
    |s.store| <= maxsize + (if s.lock.Held? && s.lock.holder < |s.pcs| && s.pcs[s.lock.holder].Trimming? then 1 else 0)
  }

  /** The function gave `v` for `key`. */
  ghost predicate Made<V>(c: Config<V>, key: Key, v: V) {
    exists n :: c.func(key, n) == Returned(v)
  }

  ghost predicate StoreMade<V>(s: System<V>, c: Config<V>) {
    forall i :: 0 <= i < |s.store| ==> Made(c, s.store[i].key, s.store[i].value)
  }

  /** A thread's value was made for its own key, and a hit's entry was unexpired at the clock value it had read. */
  /** An entry that a hit at `now` may hand out. */
  ghost predicate Served<V>(key: Key, now: real, e: Item<V>, c: Config<V>, clock: real) {
    e.key == key && Made(c, key, e.value) && now < e.expiresAt <= clock + c.ttl && now <= clock
  }

  ghost predicate PcSound<V>(pc: Pc<V>, c: Config<V>, clock: real) {
    match pc
    case Timed(_, now) => now <= clock
    case Deciding(_, now) => now <= clock
    case Moved(key, now, e) => Served(key, now, e, c, clock)
    case HitCounted(key, now, e) => Served(key, now, e, c, clock)
    case HitRecorded(key, now, e) => Served(key, now, e, c, clock)
    case DoneHit(key, now, e) => Served(key, now, e, c, clock)
    case Computed(key, v) => Made(c, key, v)
    case Stamped(key, v, x) => Made(c, key, v) && x <= clock + c.ttl
    case Storing(key, v, x) => Made(c, key, v) && x <= clock + c.ttl
    case Trimming(key, v) => Made(c, key, v)
    case Counted(key, v) => Made(c, key, v)
    case Unrecorded(key, v) => Made(c, key, v)
    case DoneMiss(key, v) => Made(c, key, v)
    case _ => true
  }

  ghost predicate PcsSound<V>(s: System<V>, c: Config<V>) {
    forall t :: 0 <= t < |s.pcs| ==> PcSound(s.pcs[t], c, s.clock)
  }

  /** No entry outlives the time to live from now. */
  predicate ExpiryBounded<V>(s: System<V>, ttl: real) {
    forall i :: 0 <= i < |s.store| ==> s.store[i].expiresAt <= s.clock + ttl
  }

  predicate OwesMiss<V>(pc: Pc<V>) { pc.Counted? || pc.Unrecorded? }

  predicate OwesHit<V>(pc: Pc<V>) { pc.HitCounted? }

  function MissesOwed<V>(pcs: seq<Pc<V>>): nat {
    if pcs == [] then 0 else MissesOwed(pcs[..|pcs| - 1]) + (if OwesMiss(pcs[|pcs| - 1]) then 1 else 0)
  }

  function HitsOwed<V>(pcs: seq<Pc<V>>): nat {
    if pcs == [] then 0 else HitsOwed(pcs[..|pcs| - 1]) + (if OwesHit(pcs[|pcs| - 1]) then 1 else 0)
  }

  /** The metrics trail the cache's counters by exactly the calls between counting and recording. */
  predicate CountersAgree<V>(s: System<V>) {
    s.misses == s.metricMisses + MissesOwed(s.pcs) && s.hits == s.metricHits + HitsOwed(s.pcs)
  }

  ghost predicate Inv<V>(s: System<V>, c: Config<V>) {
    Exclusive(s) && DistinctKeys(s) && WithinLimit(s, c.maxsize) && StoreMade(s, c) && PcsSound(s, c)
    && ExpiryBounded(s, c.ttl) && CountersAgree(s)
  }

  lemma {:induction false} OwedUpdate<V>(pcs: seq<Pc<V>>, t: nat, pc: Pc<V>)
    requires t < |pcs|
    ensures MissesOwed(pcs[t := pc]) + (if OwesMiss(pcs[t]) then 1 else 0)
         == MissesOwed(pcs) + (if OwesMiss(pc) then 1 else 0)
    ensures HitsOwed(pcs[t := pc]) + (if OwesHit(pcs[t]) then 1 else 0)
         == HitsOwed(pcs) + (if OwesHit(pc) then 1 else 0)
  {
    var n := |pcs| - 1;
    if t == n {
      assert pcs[t := pc][..n] == pcs[..n];
    } else {
      assert pcs[t := pc][..n] == pcs[..n][t := pc];
      OwedUpdate(pcs[..n], t, pc);
    }
  }


  // ---------- preservation, one part at a time ----------

  /** A step changes no other thread, takes the lock only when it is free, and releases only its own. */
  lemma MoverAndLock<V>(s: System<V>, e: Event, c: Config<V>)
    requires !e.Tick? && e.t < |s.pcs| && (Inside(s.pcs[e.t]) <==> s.lock == Held(e.t))
    ensures var s', t := Apply(s, e, c), e.t;
      s'.pcs == s.pcs[t := s'.pcs[t]] && (Inside(s'.pcs[t]) <==> s'.lock == Held(t))
      && (s'.lock == s.lock || (s.lock.Free? && s'.lock == Held(t)) || (s.lock == Held(t) && s'.lock.Free?))
  {
    hide Find, Drop;
    assert s.pcs[e.t := s.pcs[e.t]] == s.pcs;
  }

  lemma KeepsExclusive<V>(s: System<V>, e: Event, c: Config<V>)
    requires Exclusive(s)
    ensures Exclusive(Apply(s, e, c))
  {
    if !e.Tick? && e.t < |s.pcs| {
      MoverAndLock(s, e, c);
      hide Apply, Inside;
    } else {
      hide Inside, MoveThread;
    }
  }

  lemma DropKeepsDistinct<V>(s: System<V>, i: nat)
    requires DistinctKeys(s)
    ensures DistinctKeys(s.(store := Drop(s.store, i)))
    ensures i < |s.store| ==> forall j :: 0 <= j < |Drop(s.store, i)| ==> Drop(s.store, i)[j].key != s.store[i].key
    ensures i == |s.store| ==> Drop(s.store, i) == s.store
  {
  }

  lemma KeepsDistinct<V>(s: System<V>, e: Event, c: Config<V>)
    requires DistinctKeys(s)
    ensures DistinctKeys(Apply(s, e, c))
  {
    hide Drop;
    if e.Move? && e.t < |s.pcs| {
      var pc := s.pcs[e.t];
      if pc.Deciding? || pc.Storing? {
        var i := Find(s.store, pc.key);
        DropKeepsDistinct(s, i);
        assert forall j :: 0 <= j < |s.store| ==> Keys(s.store)[j] == s.store[j].key;
      }
    }
  }

  lemma KeepsLimit<V>(s: System<V>, e: Event, c: Config<V>)
    requires WithinLimit(s, c.maxsize) && Exclusive(s)
    ensures WithinLimit(Apply(s, e, c), c.maxsize)
  {
  }

  ghost predicate Stores<V>(s: System<V>, e: Event, x: Item<V>) {
    e.Move? && e.t < |s.pcs| && s.pcs[e.t].Storing?
    && x == Item(s.pcs[e.t].key, s.pcs[e.t].expiresAt, s.pcs[e.t].value)
  }

  /** Entries only come from the store itself or from a thread that is storing. */
  lemma StoreOrigin<V>(s: System<V>, e: Event, c: Config<V>)
    ensures s.clock <= Apply(s, e, c).clock
    ensures forall x :: x in Apply(s, e, c).store ==> x in s.store || Stores(s, e, x)
  {
    hide Find, Drop, Keys;
    forall key
      ensures var kept := Drop(s.store, Find(s.store, key));
        forall p :: 0 <= p < |kept| ==> kept[p] in s.store
    {
      DropKeeps(s.store, Find(s.store, key));
    }
  }

  lemma DropKeeps<V>(store: seq<Item<V>>, i: nat)
    ensures forall p :: 0 <= p < |Drop(store, i)| ==> Drop(store, i)[p] in store
  {
  }

  lemma KeepsStoreMade<V>(s: System<V>, e: Event, c: Config<V>)
    requires StoreMade(s, c) && PcsSound(s, c)
    ensures StoreMade(Apply(s, e, c), c)
  {
    hide Made, Apply;
    var s' := Apply(s, e, c);
    StoreOrigin(s, e, c);
    forall i | 0 <= i < |s'.store|
      ensures Made(c, s'.store[i].key, s'.store[i].value)
    {
      assert s'.store[i] in s'.store;
    }
  }

  lemma KeepsExpiry<V>(s: System<V>, e: Event, c: Config<V>)
    requires ExpiryBounded(s, c.ttl) && PcsSound(s, c)
    ensures ExpiryBounded(Apply(s, e, c), c.ttl)
  {
    hide Made, Apply;
    var s' := Apply(s, e, c);
    StoreOrigin(s, e, c);
    forall i | 0 <= i < |s'.store|
      ensures s'.store[i].expiresAt <= s'.clock + c.ttl
    {
      assert s'.store[i] in s'.store;
    }
  }

  /** The thread that moves. */
  function Mover(e: Event): int { if e.Tick? then -1 else e.t }

  lemma MoverSound<V>(s: System<V>, e: Event, c: Config<V>)
    requires StoreMade(s, c) && ExpiryBounded(s, c.ttl) && PcsSound(s, c) && 0 <= Mover(e) < |s.pcs|
    ensures PcSound(Apply(s, e, c).pcs[Mover(e)], c, Apply(s, e, c).clock)
  {
    hide Drop, Keys;
    assert PcSound(s.pcs[e.t], c, s.clock);
  }

  lemma OthersStay<V>(s: System<V>, e: Event, c: Config<V>, t: nat)
    requires t < |s.pcs| && t != Mover(e)
    ensures Apply(s, e, c).pcs[t] == s.pcs[t] && s.clock <= Apply(s, e, c).clock
  {
    hide Drop, Find;
  }

  lemma KeepsSound<V>(s: System<V>, e: Event, c: Config<V>)
    requires StoreMade(s, c) && ExpiryBounded(s, c.ttl) && PcsSound(s, c)
    ensures PcsSound(Apply(s, e, c), c)
  {
    hide Apply, Made;
    var s' := Apply(s, e, c);
    forall t | 0 <= t < |s'.pcs|
      ensures PcSound(s'.pcs[t], c, s'.clock)
    {
      if t == Mover(e) {
        MoverSound(s, e, c);
      } else {
        OthersStay(s, e, c, t);
        assert PcSound(s.pcs[t], c, s.clock);
      }
    }
  }

  /** A step changes what is counted but not recorded by what its thread comes to owe. */
  predicate BooksMove<V>(s: System<V>, s': System<V>, t: nat)
    requires t < |s.pcs| == |s'.pcs|
  {
    s'.misses - s'.metricMisses - (if OwesMiss(s'.pcs[t]) then 1 else 0)
    == s.misses - s.metricMisses - (if OwesMiss(s.pcs[t]) then 1 else 0)
    && s'.hits - s'.metricHits - (if OwesHit(s'.pcs[t]) then 1 else 0)
       == s.hits - s.metricHits - (if OwesHit(s.pcs[t]) then 1 else 0)
  }

  lemma MoverAndCounters<V>(s: System<V>, e: Event, c: Config<V>)
    requires !e.Tick? && e.t < |s.pcs|
    ensures BooksMove(s, Apply(s, e, c), e.t)
  {
    hide Find, Drop;
  }

  lemma OthersStayPut<V>(s: System<V>, e: Event, c: Config<V>)
    requires !e.Tick? && e.t < |s.pcs|
    ensures Apply(s, e, c).pcs == s.pcs[e.t := Apply(s, e, c).pcs[e.t]]
  {
    hide Find, Drop, Resting;
    assert s.pcs[e.t := s.pcs[e.t]] == s.pcs;
  }

  lemma KeepsCounters<V>(s: System<V>, e: Event, c: Config<V>)
    requires CountersAgree(s)
    ensures CountersAgree(Apply(s, e, c))
  {
    hide MissesOwed, HitsOwed, MoveThread;
    if !e.Tick? && e.t < |s.pcs| {
      MoverAndCounters(s, e, c);
      OthersStayPut(s, e, c);
      hide Apply;
      OwedUpdate(s.pcs, e.t, Apply(s, e, c).pcs[e.t]);
    }
  }

  lemma StartHolds<V>(threads: nat, clock: real, c: Config<V>)
    ensures Inv(Start(threads, clock), c)
  {
    NoOwing(AllIdle<V>(threads));
  }

  /** Every interleaving of any number of threads keeps the invariant. */
  lemma {:induction false} AlwaysInv<V>(threads: nat, clock: real, events: seq<Event>, c: Config<V>)
    ensures Inv(RunEvents(threads, clock, events, c), c)
  {
    if events == [] {
      StartHolds(threads, clock, c);
    } else {
      var n := |events| - 1;
      var s, e := RunEvents(threads, clock, events[..n], c), events[n];
      AlwaysInv(threads, clock, events[..n], c);
      hide Apply, Exclusive, DistinctKeys, WithinLimit, StoreMade, PcsSound, ExpiryBounded, CountersAgree;
      KeepsExclusive(s, e, c);
      KeepsDistinct(s, e, c);
      KeepsLimit(s, e, c);
      KeepsStoreMade(s, e, c);
      KeepsExpiry(s, e, c);
      KeepsSound(s, e, c);
      KeepsCounters(s, e, c);
    }
  }

  // ---------- what callers and operators see ----------

  /** Whenever the lock is free the cache is within its limit, and at most one thread is ever inside it. */
  lemma SizeWithinLimit<V>(threads: nat, clock: real, events: seq<Event>, c: Config<V>)
    ensures var s := RunEvents(threads, clock, events, c);
      (s.lock.Free? ==> |s.store| <= c.maxsize) && |s.store| <= c.maxsize + 1
      && forall t, u :: 0 <= t < |s.pcs| && 0 <= u < |s.pcs| && Inside(s.pcs[t]) && Inside(s.pcs[u]) ==> t == u
  {
    AlwaysInv(threads, clock, events, c);
  }

  /** Every value returned was produced by the function for the caller's own key; one served from the cache had not
      expired at the clock value that the call read, and expires at most the time to live from now. */
  lemma ReturnedValues<V>(threads: nat, clock: real, events: seq<Event>, c: Config<V>, t: nat)
    requires t < |RunEvents(threads, clock, events, c).pcs|
    ensures var pc := RunEvents(threads, clock, events, c).pcs[t];
      (pc.DoneMiss? ==> Made(c, pc.key, pc.value))
      && (pc.DoneHit? ==> pc.entry.key == pc.key && Made(c, pc.key, pc.entry.value)
                          && pc.now < pc.entry.expiresAt <= RunEvents(threads, clock, events, c).clock + c.ttl)
  {
    AlwaysInv(threads, clock, events, c);
    var s := RunEvents(threads, clock, events, c);
    assert PcSound(s.pcs[t], c, s.clock);
  }

  /** With no call between counting and recording, the metrics equal the cache's own counters. */
  lemma QuietCountersEqual<V>(threads: nat, clock: real, events: seq<Event>, c: Config<V>)
    ensures var s := RunEvents(threads, clock, events, c);
      s.metricMisses <= s.misses && s.metricHits <= s.hits
      && s.misses - s.metricMisses == MissesOwed(s.pcs)
      && (s.lock.Free? ==> s.hits == s.metricHits)
      && ((forall t :: 0 <= t < |s.pcs| ==> Resting(s.pcs[t])) ==> s.misses == s.metricMisses && s.hits == s.metricHits)
  {
    AlwaysInv(threads, clock, events, c);
    var s := RunEvents(threads, clock, events, c);
    if s.lock.Free? {
      NoOwing(s.pcs);
    }
    if forall t :: 0 <= t < |s.pcs| ==> Resting(s.pcs[t]) {
      NoOwing(s.pcs);
    }
  }

  lemma {:induction false} NoOwing<V>(pcs: seq<Pc<V>>)
    ensures (forall t :: 0 <= t < |pcs| ==> !OwesHit(pcs[t])) ==> HitsOwed(pcs) == 0
    ensures (forall t :: 0 <= t < |pcs| ==> !OwesMiss(pcs[t])) ==> MissesOwed(pcs) == 0
  {
    if pcs != [] {
      NoOwing(pcs[..|pcs| - 1]);
    }
  }

  // ---------- one thread left alone makes exactly the sequential call ----------

  function Moves<V>(s: System<V>, t: nat, k: nat, c: Config<V>): (s': System<V>)
    ensures |s'.pcs| == |s.pcs|
    decreases k
  {
    if k == 0 then s else Moves(Apply(s, Move(t), c), t, k - 1, c)
  }

  function Contents<V>(s: System<V>): State<V> { State(s.store, s.hits, s.misses) }

  predicate Quiet<V>(s: System<V>, t: nat, maxsize: nat) {
    t < |s.pcs| && Resting(s.pcs[t]) && s.lock.Free? && |s.store| <= maxsize
  }

  lemma SoloHit<V>(s: System<V>, t: nat, key: Key, n: nat, c: Config<V>)
    requires Quiet(s, t, c.maxsize)
    requires Hits(s.store, Op(key, s.clock, c.func(key, n), s.clock))
    ensures var s' := Moves(Apply(s, Begin(t, key), c), t, 5, c);
      var r := Step(Contents(s), Op(key, s.clock, c.func(key, n), s.clock), c.ttl, c.maxsize);
      Contents(s') == r.0 && s'.lock.Free? && s'.pcs[t].DoneHit? && Returned(s'.pcs[t].entry.value) == r.1
  {
    hide Find, Drop, Moves;
    var i := Find(s.store, key);
    var entry := s.store[i];
    var s0 := Apply(s, Begin(t, key), c);
    var s1 := Apply(s0, Move(t), c);
    var s2 := Apply(s1, Move(t), c);
    assert s2 == At(s, t, Moved(key, s.clock, entry)).(lock := Held(t), store := Drop(s.store, i) + [entry]);
    var s3, s4, s5 := AfterMove(s2, t, c);
    MovesFive(s0, s1, s2, s3, s4, s5, t, c);
  }

  /** The rest of a hit: counted, recorded, lock released. */
  lemma AfterMove<V>(s2: System<V>, t: nat, c: Config<V>) returns (s3: System<V>, s4: System<V>, s5: System<V>)
    requires t < |s2.pcs| && s2.pcs[t].Moved?
    ensures s3 == Apply(s2, Move(t), c) && s4 == Apply(s3, Move(t), c) && s5 == Apply(s4, Move(t), c)
    ensures s5.store == s2.store && s5.hits == s2.hits + 1 && s5.misses == s2.misses && s5.lock.Free?
    ensures s5.pcs[t] == DoneHit(s2.pcs[t].key, s2.pcs[t].now, s2.pcs[t].entry)
  {
    s3 := Apply(s2, Move(t), c);
    s4 := Apply(s3, Move(t), c);
    s5 := Apply(s4, Move(t), c);
  }

  lemma MovesFive<V>(s0: System<V>, s1: System<V>, s2: System<V>, s3: System<V>, s4: System<V>, s5: System<V>,
                     t: nat, c: Config<V>)
    requires s1 == Apply(s0, Move(t), c) && s2 == Apply(s1, Move(t), c) && s3 == Apply(s2, Move(t), c)
    requires s4 == Apply(s3, Move(t), c) && s5 == Apply(s4, Move(t), c)
    ensures Moves(s0, t, 3, c) == s3 && Moves(s0, t, 5, c) == s5
  {
    hide Apply;
    assert Moves(s4, t, 1, c) == s5 && Moves(s3, t, 2, c) == s5 && Moves(s2, t, 3, c) == s5;
    assert Moves(s2, t, 1, c) == s3 && Moves(s1, t, 2, c) == s3;
  }

  /** Up to the point where the function runs. */
  lemma SoloMissLookup<V>(s: System<V>, t: nat, key: Key, op: Op<V>, c: Config<V>)
    requires Quiet(s, t, c.maxsize) && op.key == key && op.now == s.clock && !Hits(s.store, op)
    ensures var s' := Moves(Apply(s, Begin(t, key), c), t, 3, c);
      s' == At(s, t, Computing(key)).(store := Drop(s.store, Find(s.store, key)))
  {
    hide Find, Drop, Moves;
    var s0 := Apply(s, Begin(t, key), c);
    var s1 := Apply(s0, Move(t), c);
    var s2 := Apply(s1, Move(t), c);
    var s3 := Apply(s2, Move(t), c);
    assert s1 == At(s, t, Deciding(key, s.clock)).(lock := Held(t));
    assert s2 == At(s1, t, Releasing(key)).(store := Drop(s.store, Find(s.store, key)));
    assert s3 == At(s2, t, Computing(key)).(lock := Free);
    ThreeMoves(s0, t, c);
  }

  lemma ThreeMoves<V>(s: System<V>, t: nat, c: Config<V>)
    ensures Moves(s, t, 3, c) == Apply(Apply(Apply(s, Move(t), c), Move(t), c), Move(t), c)
  {
    hide Apply;
    var s1 := Apply(s, Move(t), c);
    var s2 := Apply(s1, Move(t), c);
    var s3 := Apply(s2, Move(t), c);
    assert Moves(s3, t, 0, c) == s3 && Moves(s2, t, 1, c) == s3 && Moves(s1, t, 2, c) == s3;
  }

  /** From the function's return to the end, with `pops` evictions. */
  lemma SoloMissInsert<V>(s: System<V>, t: nat, key: Key, v: V, pops: nat, c: Config<V>)
    requires t < |s.pcs| && s.pcs[t] == Computed(key, v) && s.lock.Free?
    requires key !in Keys(s.store) && |s.store| <= c.maxsize
    requires pops == if |s.store| == c.maxsize then 1 else 0
    ensures var s' := Moves(s, t, 6 + pops, c);
      s'.store == Last(s.store + [Item(key, s.clock + c.ttl, v)], c.maxsize)
      && s'.hits == s.hits && s'.misses == s.misses + 1 && s'.lock.Free? && s'.pcs[t] == DoneMiss(key, v)
  {
    var s1 := Apply(s, Move(t), c);
    var s2 := Apply(s1, Move(t), c);
    var s3 := Apply(s2, Move(t), c);
    var item := Item(key, s.clock + c.ttl, v);
    assert s3 == At(s, t, Trimming(key, v)).(store := s.store + [item], lock := Held(t));
    hide Apply;
    TrimAndFinish(s3, t, key, v, pops, c);
    assert Moves(s2, t, 4 + pops, c) == Moves(s3, t, 3 + pops, c);
    assert Moves(s1, t, 5 + pops, c) == Moves(s2, t, 4 + pops, c);
  }

  /** Counted, released, recorded. */
  lemma FinishMiss<V>(s: System<V>, t: nat, key: Key, v: V, c: Config<V>)
    requires t < |s.pcs| && s.pcs[t] == Trimming(key, v) && |s.store| <= c.maxsize
    ensures var s' := Moves(s, t, 3, c);
      s'.store == s.store && s'.hits == s.hits && s'.misses == s.misses + 1 && s'.lock.Free?
      && s'.pcs[t] == DoneMiss(key, v)
  {
    hide Find, Drop, Moves;
    ThreeMoves(s, t, c);
    var s4 := Apply(s, Move(t), c);
    var s5 := Apply(s4, Move(t), c);
    assert s4 == At(s, t, Counted(key, v)).(misses := s.misses + 1);
    assert s5 == At(s4, t, Unrecorded(key, v)).(lock := Free);
  }

  lemma FirstMove<V>(s: System<V>, t: nat, k: nat, c: Config<V>)
    requires k > 0
    ensures Moves(s, t, k, c) == Moves(Apply(s, Move(t), c), t, k - 1, c)
  {
    hide Apply;
  }

  lemma TrimAndFinish<V>(s3: System<V>, t: nat, key: Key, v: V, pops: nat, c: Config<V>)
    requires t < |s3.pcs| && s3.pcs[t] == Trimming(key, v) && |s3.store| <= c.maxsize + 1
    requires pops == if |s3.store| == c.maxsize + 1 then 1 else 0
    ensures var s' := Moves(s3, t, 3 + pops, c);
      s'.store == Last(s3.store, c.maxsize) && s'.hits == s3.hits && s'.misses == s3.misses + 1
      && s'.lock.Free? && s'.pcs[t] == DoneMiss(key, v)
  {
    hide Find, Drop, Moves;
    var popped := if pops == 1 then Apply(s3, Move(t), c) else s3;
    assert popped == s3.(store := Last(s3.store, c.maxsize));
    FinishMiss(popped, t, key, v, c);
    FirstMove(s3, t, 3 + pops, c);
  }

  lemma NotThere<V>(store: seq<Item<V>>, key: Key)
    requires forall i, j :: 0 <= i < j < |store| ==> store[i].key != store[j].key
    ensures key !in Keys(Drop(store, Find(store, key))) && |Drop(store, Find(store, key))| <= |store|
  {
    var i := Find(store, key);
    assert forall j :: 0 <= j < |store| ==> Keys(store)[j] == store[j].key;
  }

  lemma MissStep<V>(s: State<V>, op: Op<V>, ttl: real, n: nat)
    requires !Hits(s.store, op) && op.outcome.Returned?
    ensures Step(s, op, ttl, n)
         == (State(Last(Drop(s.store, Find(s.store, op.key)) + [Item(op.key, op.later + ttl, op.outcome.value)], n),
                   s.hits, s.misses + 1), op.outcome)
  {
    hide Hits, Find, Drop, Last;
  }

  /** Alone, a missing call whose function returns does what the sequential call does. */
  lemma SoloMiss<V>(s: System<V>, t: nat, key: Key, n: nat, c: Config<V>)
    requires Quiet(s, t, c.maxsize) && DistinctKeys(s) && c.func(key, n).Returned?
    requires !Hits(s.store, Op(key, s.clock, c.func(key, n), s.clock))
    ensures var asked := Moves(Apply(s, Begin(t, key), c), t, 3, c);
      var pops := if |asked.store| == c.maxsize then 1 else 0;
      var s' := Moves(Apply(asked, Invoke(t, n), c), t, 6 + pops, c);
      var r := Step(Contents(s), Op(key, s.clock, c.func(key, n), s.clock), c.ttl, c.maxsize);
      Contents(s') == r.0 && s'.lock.Free? && s'.pcs[t].DoneMiss? && Returned(s'.pcs[t].value) == r.1
  {
    hide Moves, Hits, Last, Find, Keys;
    var op := Op(key, s.clock, c.func(key, n), s.clock);
    SoloMissLookup(s, t, key, op, c);
    var asked := At(s, t, Computing(key)).(store := Drop(s.store, Find(s.store, key)));
    DropKeepsDistinct(s, Find(s.store, key));
    NotThere(s.store, key);
    MissStep(Contents(s), op, c.ttl, c.maxsize);
    hide Drop, Step;
    var back := Apply(asked, Invoke(t, n), c);
    assert back == At(asked, t, Computed(key, op.outcome.value));
    SoloMissInsert(back, t, key, op.outcome.value, if |asked.store| == c.maxsize then 1 else 0, c);
  }
}
