/** The in-memory chat session store. */
module SessionStore {
  import opened Sorting

  /** A session id; an absent one is like an empty one. */
  datatype Id = Id(text: string)

  const NO_ID: Id := Id("")

  class Session {
    const id: Id
    const userId: int
    var lastActive: real

    constructor (id: Id, userId: int, now: real)
      ensures this.id == id && this.userId == userId && lastActive == now
    {
      this.id, this.userId, lastActive := id, userId, now;
    }

    method Touch(now: real)
      modifies this
      ensures lastActive == now
    {
      lastActive := now;
    }
  }

  /** What the store knows of a session. */
  datatype Rec = Rec(userId: int, lastActive: real)

  type View = map<Id, Rec>

  // ---------- reference: the locked operations on the view ----------

  predicate Expired(r: Rec, now: real, ttl: real) { now - r.lastActive > ttl }

  function Evicted(v: View, now: real, ttl: real): View {
    map id | id in v && !Expired(v[id], now, ttl) :: v[id]
  }

  function Created(v: View, id: Id, userId: int, now: real, ttl: real, max: int): View {
    var kept := Evicted(v, now, ttl);
    if |kept| >= max then kept else kept[id := Rec(userId, now)]
  }

  predicate Found(v: View, id: Id, userId: int, now: real, ttl: real) {
    id in v && v[id].userId == userId && !Expired(v[id], now, ttl)
  }

  function Gotten(v: View, id: Id, userId: int, now: real, ttl: real): View {
    if id !in v || v[id].userId != userId then v
    else if Expired(v[id], now, ttl) then v - {id}
    else v[id := v[id].(lastActive := now)]
  }

  // ---------- the code ----------

  class Store {
    const ttl: real
    const max: int
    var sessions: map<Id, Session>

    constructor (ttl: real, max: int)
      ensures this.ttl == ttl && this.max == max && sessions == map[]
    {
      this.ttl, this.max, sessions := ttl, max, map[];
    }

    /** Every session is stored under its own id. */
    ghost predicate Valid()
      reads this
    {
      forall id :: id in sessions ==> sessions[id].id == id
    }

    ghost function View(): View
      reads this, sessions.Values
    {
      map id | id in sessions :: Rec(sessions[id].userId, sessions[id].lastActive)
    }

    method IsExpired(s: Session, now: real) returns (b: bool)
      ensures b == Expired(Rec(s.userId, s.lastActive), now, ttl)
    {
      b := now - s.lastActive > ttl;
    }

    method EvictExpired(now: real) returns (n: nat)
      requires Valid()
      modifies this
      ensures Valid() && View() == Evicted(old(View()), now, ttl)
      ensures forall id :: id in sessions ==> id in old(sessions) && sessions[id] == old(sessions)[id]
      ensures n == |old(sessions)| - |sessions|
    {
      ghost var before := View();
      var kept := map id | id in sessions && !(now - sessions[id].lastActive > ttl) :: sessions[id];
      assert kept.Keys <= sessions.Keys;
      SubsetSize(kept.Keys, sessions.Keys);
      n := |sessions| - |kept|;
      sessions := kept;
      SameView(View(), Evicted(before, now, ttl));
    }

    /** Null when the store is full. */
    method Create(userId: int, newId: Id, now: real) returns (s: Session?)
      requires Valid()
      modifies this
      ensures Valid() && View() == Created(old(View()), newId, userId, now, ttl, max)
      ensures s == null <==> |Evicted(old(View()), now, ttl)| >= max
      ensures s != null ==> fresh(s) && s.userId == userId && newId in sessions && sessions[newId] == s
    {
      hide Evicted;
      var _ := EvictExpired(now);
      ghost var kept := View();
      assert kept.Keys == sessions.Keys;
      if |sessions| >= max {
        return null;
      }
      s := new Session(newId, userId, now);
      sessions := sessions[newId := s];
      SameView(View(), kept[newId := Rec(userId, now)]);
    }

    method Get(id: Id, userId: int, now: real) returns (s: Session?)
      requires Valid()
      modifies this, sessions.Values
      ensures Valid() && View() == Gotten(old(View()), id, userId, now, ttl)
      ensures s != null <==> Found(old(View()), id, userId, now, ttl)
      ensures s != null ==> s.id == id && s.userId == userId && s.lastActive == now
                            && now - old(sessions[id].lastActive) <= ttl && id in sessions && sessions[id] == s
    {
      if id !in sessions {
        return null;
      }
      s := sessions[id];
      if s.userId != userId {
        return null;
      }
      var expired := IsExpired(s, now);
      if expired {
        ghost var whole := View();
        sessions := sessions - {id};
        SameView(View(), whole - {id});
        return null;
      }
      ghost var before := View();
      s.Touch(now);
      assert forall other :: other in sessions && other != id ==> sessions[other] != s;
      SameView(View(), before[id := before[id].(lastActive := now)]);
    }

    method GetOrCreate(id: Id, userId: int, newId: Id, now: real, later: real) returns (s: Session?)
      requires Valid()
      modifies this, sessions.Values
      ensures Valid()
      ensures s != null ==> s.userId == userId && s.id in sessions && sessions[s.id] == s
      ensures var looked := if id == NO_ID then old(View()) else Gotten(old(View()), id, userId, now, ttl);
        if id != NO_ID && Found(old(View()), id, userId, now, ttl) then s != null && s.id == id && View() == looked
        else View() == Created(looked, newId, userId, later, ttl, max)
             && (s == null <==> |Evicted(looked, later, ttl)| >= max) && (s != null ==> s.id == newId && fresh(s))
    {
      if id != NO_ID {
        s := Get(id, userId, now);
        if s != null {
          return;
        }
      }
      s := Create(userId, newId, later);
    }

    method Save(s: Session, now: real)
      requires Valid()
      modifies this, s
      ensures Valid() && sessions == old(sessions)[s.id := s] && s.lastActive == now
      ensures View() == old(View())[s.id := Rec(s.userId, now)]
    {
      ghost var before := View();
      s.Touch(now);
      sessions := sessions[s.id := s];
      assert forall other :: other in sessions && other != s.id ==> sessions[other] != s;
      SameView(View(), before[s.id := Rec(s.userId, now)]);
    }

    method Delete(id: Id) returns (removed: bool)
      requires Valid()
      modifies this
      ensures Valid() && View() == old(View()) - {id} && removed == (id in old(sessions))
    {
      removed := id in sessions;
      sessions := sessions - {id};
    }
  }

  lemma SameView(a: View, b: View)
    requires forall id :: id in a <==> id in b
    requires forall id :: id in a ==> a[id] == b[id]
    ensures a == b
  {
    assert a.Keys == b.Keys;
  }
}

/** What any sequence of store operations keeps, each locked operation being one step. */
module SessionProperties {
  import opened Sorting
  import opened SessionStore

  /** `Touched` is activity on a stored session outside the store; `Saved` carries the session's owner. */
  datatype Event =
    | DidCreate(newId: Id, userId: int, now: real)
    | DidGet(id: Id, userId: int, now: real)
    | DidSave(id: Id, userId: int, now: real)
    | DidDelete(id: Id, now: real)
    | DidEvict(now: real)
    | Touched(id: Id, now: real)

  function After(v: View, e: Event, ttl: real, max: int): View {
    match e
    case DidCreate(id, u, now) => Created(v, id, u, now, ttl, max)
    case DidGet(id, u, now) => Gotten(v, id, u, now, ttl)
    case DidSave(id, u, now) => v[id := Rec(u, now)]
    case DidDelete(id, now) => v - {id}
    case DidEvict(now) => Evicted(v, now, ttl)
    case Touched(id, now) => if id in v then v[id := v[id].(lastActive := now)] else v
  }

  function RunFrom(v: View, events: seq<Event>, ttl: real, max: int): View {
    if events == [] then v
    else After(RunFrom(v, events[..|events| - 1], ttl, max), events[|events| - 1], ttl, max)
  }

  /** Saves of sessions that the store no longer holds. */
  function Reinserted(events: seq<Event>, ttl: real, max: int): nat {
    if events == [] then 0
    else
      var init, e := events[..|events| - 1], events[|events| - 1];
      Reinserted(init, ttl, max) + (if e.DidSave? && e.id !in RunFrom(map[], init, ttl, max) then 1 else 0)
  }

  lemma EvictedSize(v: View, now: real, ttl: real)
    ensures |Evicted(v, now, ttl)| <= |v|
  {
    SubsetSize(Evicted(v, now, ttl).Keys, v.Keys);
  }

  lemma PutSize(v: View, id: Id, r: Rec)
    ensures |v[id := r]| == |v| + (if id in v then 0 else 1)
  {
    assert v[id := r].Keys == v.Keys + {id};
  }

  lemma RemoveSize(v: View, id: Id)
    ensures |v - {id}| <= |v|
  {
    SubsetSize((v - {id}).Keys, v.Keys);
  }

  /** The store holds at most its maximum plus the sessions that saves have put back. */
  lemma {:induction false} SizeBound(events: seq<Event>, ttl: real, max: int)
    ensures |RunFrom(map[], events, ttl, max)| <= (if max < 0 then 0 else max) + Reinserted(events, ttl, max)
  {
    if events != [] {
      var init, e := events[..|events| - 1], events[|events| - 1];
      var v := RunFrom(map[], init, ttl, max);
      SizeBound(init, ttl, max);
      match e
      case DidCreate(id, u, now) =>
        EvictedSize(v, now, ttl);
        PutSize(Evicted(v, now, ttl), id, Rec(u, now));
      case DidGet(id, u, now) =>
        RemoveSize(v, id);
        PutSize(v, id, Rec(u, now));
      case DidSave(id, u, now) => PutSize(v, id, Rec(u, now));
      case DidDelete(id, now) => RemoveSize(v, id);
      case DidEvict(now) => EvictedSize(v, now, ttl);
      case Touched(id, now) => PutSize(v, id, Rec(0, now));
    }
  }

  /** A creation never leaves more than the maximum, however many saves came before. */
  lemma CreateWithinMax(v: View, id: Id, u: int, now: real, ttl: real, max: int)
    requires |Evicted(v, now, ttl)| < max
    ensures |Created(v, id, u, now, ttl, max)| <= max
  {
    PutSize(Evicted(v, now, ttl), id, Rec(u, now));
  }

  /** A lookup by anyone but the owner changes nothing and finds nothing, as if the session did not exist. */
  lemma StrangerLearnsNothing(v: View, id: Id, u: int, now: real, ttl: real)
    requires id !in v || v[id].userId != u
    ensures Gotten(v, id, u, now, ttl) == v && !Found(v, id, u, now, ttl)
    ensures !Found(v - {id}, id, u, now, ttl)
  {
  }

  // ---------- the life of one session ----------

  datatype Fate = Gone | UsedBy(owner: int, time: real)

  function FateIn(v: View, id: Id): Fate { if id in v then UsedBy(v[id].userId, v[id].lastActive) else Gone }

  predicate Lapsed(f: Fate, now: real, ttl: real) { f.UsedBy? && now - f.time > ttl }

  /** Lookups by the owner, saves and touches are uses; a deletion ends the session, and so does whatever first looks at
      it after its time to live. */
  function FateAfter(f: Fate, e: Event, id: Id, ttl: real): Fate {
    match e
    case DidGet(i, u, now) =>
      if i != id || f.Gone? || f.owner != u then f else if Lapsed(f, now, ttl) then Gone else UsedBy(u, now)
    case DidSave(i, u, now) => if i == id then UsedBy(u, now) else f
    case DidDelete(i, _) => if i == id then Gone else f
    case Touched(i, now) => if i == id && f.UsedBy? then f.(time := now) else f
    case _ => if Lapsed(f, e.now, ttl) then Gone else f
  }

  function FateOf(f: Fate, events: seq<Event>, id: Id, ttl: real): Fate {
    if events == [] then f
    else FateAfter(FateOf(f, events[..|events| - 1], id, ttl), events[|events| - 1], id, ttl)
  }

  /** No other session is created under `id`. */
  predicate NotMinted(events: seq<Event>, id: Id) {
    forall i :: 0 <= i < |events| && events[i].DidCreate? ==> events[i].newId != id
  }

  /** What the store holds of a session follows from what was done to it: other sessions and the capacity play no
      part. */
  lemma {:induction false} StoredIsFate(v: View, events: seq<Event>, id: Id, ttl: real, max: int)
    requires NotMinted(events, id)
    ensures FateIn(RunFrom(v, events, ttl, max), id) == FateOf(FateIn(v, id), events, id, ttl)
  {
    if events != [] {
      var init, e := events[..|events| - 1], events[|events| - 1];
      StoredIsFate(v, init, id, ttl, max);
      StepIsFate(RunFrom(v, init, ttl, max), e, id, ttl, max);
    }
  }

  lemma StepIsFate(v: View, e: Event, id: Id, ttl: real, max: int)
    requires e.DidCreate? ==> e.newId != id
    ensures FateIn(After(v, e, ttl, max), id) == FateAfter(FateIn(v, id), e, id, ttl)
  {
  }

  /** A lookup finds a session exactly when it was last used, by whatever means, by the caller's own and within the TTL,
      after any lookups, saves, touches, deletions, evictions and creations. */
  lemma FoundIff(v: View, events: seq<Event>, id: Id, ttl: real, max: int, u: int, now: real)
    requires NotMinted(events, id)
    ensures var f := FateOf(FateIn(v, id), events, id, ttl);
      Found(RunFrom(v, events, ttl, max), id, u, now, ttl) <==> LiveFor(f, u, now, ttl)
  {
    StoredIsFate(v, events, id, ttl, max);
  }

  predicate LiveFor(f: Fate, u: int, now: real, ttl: real) { f.UsedBy? && f.owner == u && now - f.time <= ttl }

  // ---------- when evictions and creations show ----------

  predicate IsUse(e: Event) { !e.DidEvict? && !e.DidCreate? }

  /** The events without evictions and creations. */
  function Uses(events: seq<Event>): seq<Event> {
    if events == [] then []
    else Uses(events[..|events| - 1]) + (if IsUse(events[|events| - 1]) then [events[|events| - 1]] else [])
  }

  /** What was done to a session, blind to evictions and creations. */
  function UseOf(f: Fate, events: seq<Event>, id: Id, ttl: real): Fate {
    if events == [] then f
    else
      var before, e := UseOf(f, events[..|events| - 1], id, ttl), events[|events| - 1];
      if IsUse(e) then FateAfter(before, e, id, ttl) else before
  }

  predicate InTimeOrder(events: seq<Event>, start: real) {
    && (forall i :: 0 <= i < |events| ==> start <= events[i].now)
    && (forall i, j :: 0 <= i < j < |events| ==> events[i].now <= events[j].now)
  }

  function Latest(events: seq<Event>, start: real): real {
    if events == [] then start else events[|events| - 1].now
  }

  /** A touch from outside has revived the session after its time to live, where an eviction might have come first;
      a save, a deletion or the owner's coming back too late settles it again. */
  predicate Exposed(f: Fate, events: seq<Event>, id: Id, ttl: real) {
    events != []
    && var init, e := events[..|events| - 1], events[|events| - 1];
       var before, use := Exposed(f, init, id, ttl), UseOf(f, init, id, ttl);
       match e
       case Touched(i, now) => before || (i == id && Lapsed(use, now, ttl))
       case DidSave(i, _, _) => before && i != id
       case DidDelete(i, _) => before && i != id
       case DidGet(i, u, now) => before && !(i == id && Lapsed(use, now, ttl) && use.owner == u)
       case _ => before
  }

  /** `all` is `base` with evictions and creations of other sessions put in, in time order. */
  ghost predicate Interleaves(all: seq<Event>, base: seq<Event>, id: Id, start: real) {
    Uses(all) == base && InTimeOrder(all, start) && NotMinted(all, id)
  }

  /** After `all`, lookups find the session exactly when it is live by `use`. */
  ghost predicate AnsweredBy(use: Fate, v: View, all: seq<Event>, id: Id, start: real, ttl: real, max: int) {
    forall u, now :: now >= Latest(all, start) ==>
      (Found(RunFrom(v, all, ttl, max), id, u, now, ttl) <==> LiveFor(use, u, now, ttl))
  }

  lemma {:induction false} UsesDecide(f: Fate, all: seq<Event>, id: Id, ttl: real)
    ensures UseOf(f, all, id, ttl) == UseOf(f, Uses(all), id, ttl)
    ensures Exposed(f, all, id, ttl) == Exposed(f, Uses(all), id, ttl)
  {
    if all != [] {
      var init, e := all[..|all| - 1], all[|all| - 1];
      UsesDecide(f, init, id, ttl);
      var base := Uses(init);
      if IsUse(e) {
        assert (base + [e])[..|base|] == base;
      } else {
        assert base + [] == base;
      }
    }
  }

  /** The store may have forgotten a session that was used, but unless it is exposed only after its time to live. */
  lemma {:induction false} FateIsUseOrGone(f: Fate, events: seq<Event>, id: Id, start: real, ttl: real)
    requires InTimeOrder(events, start)
    ensures var fate, use := FateOf(f, events, id, ttl), UseOf(f, events, id, ttl);
      (fate == use || fate.Gone?)
      && (Exposed(f, events, id, ttl) ==> use.UsedBy?)
      && (!Exposed(f, events, id, ttl) ==> fate == use || Lapsed(use, Latest(events, start), ttl))
  {
    if events != [] {
      var init, e := events[..|events| - 1], events[|events| - 1];
      FateIsUseOrGone(f, init, id, start, ttl);
      assert Latest(init, start) <= e.now;
    }
  }

  /** Evictions and creations make no difference to what is found, unless the session is exposed and still live. */
  lemma EvictionsDoNotShow(v: View, all: seq<Event>, id: Id, start: real, ttl: real, max: int)
    requires NotMinted(all, id) && InTimeOrder(all, start)
    requires var f, base := FateIn(v, id), Uses(all);
      !Exposed(f, base, id, ttl) || Lapsed(UseOf(f, base, id, ttl), Latest(base, start), ttl)
    ensures AnsweredBy(UseOf(FateIn(v, id), Uses(all), id, ttl), v, all, id, start, ttl, max)
  {
    var f := FateIn(v, id);
    UsesDecide(f, all, id, ttl);
    FateIsUseOrGone(f, all, id, start, ttl);
    UsesAreEarlier(all, start);
    hide FateOf, UseOf, Exposed, RunFrom, Found;
    forall u, now | now >= Latest(all, start)
      ensures Found(RunFrom(v, all, ttl, max), id, u, now, ttl) <==> LiveFor(UseOf(f, Uses(all), id, ttl), u, now, ttl)
    {
      FoundIff(v, all, id, ttl, max, u, now);
    }
  }

  lemma {:induction false} UsesAreEarlier(all: seq<Event>, start: real)
    requires InTimeOrder(all, start)
    ensures Latest(Uses(all), start) <= Latest(all, start)
  {
    if all != [] {
      UsesAreEarlier(all[..|all| - 1], start);
      assert Latest(all[..|all| - 1], start) <= all[|all| - 1].now;
      assert Uses(all[..|all| - 1]) + [] == Uses(all[..|all| - 1]);
    }
  }

  /** The interleaving that evicts right before every event. */
  function Evicting(base: seq<Event>): seq<Event> {
    if base == [] then []
    else Evicting(base[..|base| - 1]) + [DidEvict(base[|base| - 1].now)] + [base[|base| - 1]]
  }

  lemma OneMore(f: Fate, events: seq<Event>, e: Event, id: Id, ttl: real)
    ensures FateOf(f, events + [e], id, ttl) == FateAfter(FateOf(f, events, id, ttl), e, id, ttl)
    ensures Uses(events + [e]) == Uses(events) + (if IsUse(e) then [e] else [])
  {
    assert (events + [e])[..|events|] == events;
  }

  lemma OneMoreInOrder(events: seq<Event>, e: Event, id: Id, start: real)
    requires InTimeOrder(events, start) && NotMinted(events, id) && !e.DidCreate? && Latest(events, start) <= e.now
    ensures InTimeOrder(events + [e], start) && NotMinted(events + [e], id) && Latest(events + [e], start) == e.now
  {
    LatestIsLast(events, start);
  }

  lemma LatestIsLast(events: seq<Event>, start: real)
    requires InTimeOrder(events, start)
    ensures start <= Latest(events, start) && forall i :: 0 <= i < |events| ==> events[i].now <= Latest(events, start)
  {
  }

  lemma {:induction false} EvictingInterleaves(base: seq<Event>, id: Id, start: real)
    requires (forall i :: 0 <= i < |base| ==> IsUse(base[i])) && InTimeOrder(base, start)
    ensures Interleaves(Evicting(base), base, id, start) && Latest(Evicting(base), start) == Latest(base, start)
  {
    if base != [] {
      var init, e := base[..|base| - 1], base[|base| - 1];
      EvictingInterleaves(init, id, start);
      var before, evict := Evicting(init), DidEvict(e.now);
      assert Evicting(base) == before + [evict] + [e];
      assert Latest(init, start) <= e.now && IsUse(e);
      OneMoreInOrder(before, evict, id, start);
      OneMoreInOrder(before + [evict], e, id, start);
      OneMore(Gone, before, evict, id, 0.0);
      OneMore(Gone, before + [evict], e, id, 0.0);
      hide *;
      assert init + [] == init && init + [e] == base;
    }
  }

  lemma {:induction false} EvictingForgets(f: Fate, base: seq<Event>, id: Id, start: real, ttl: real)
    requires (forall i :: 0 <= i < |base| ==> IsUse(base[i])) && InTimeOrder(base, start)
    requires Exposed(f, base, id, ttl)
    ensures FateOf(f, Evicting(base), id, ttl).Gone?
  {
    var init, e := base[..|base| - 1], base[|base| - 1];
    var before, evict := Evicting(init), DidEvict(e.now);
    assert Latest(init, start) <= e.now;
    EvictingInterleaves(init, id, start);
    UsesDecide(f, before, id, ttl);
    FateIsUseOrGone(f, before, id, start, ttl);
    assert Evicting(base) == before + [evict] + [e];
    OneMore(f, before, evict, id, ttl);
    OneMore(f, before + [evict], e, id, ttl);
    if Exposed(f, init, id, ttl) {
      EvictingForgets(f, init, id, start, ttl);
    }
    hide FateOf, UseOf, Uses, Evicting, InTimeOrder, NotMinted;
  }

  /** Wherever evictions and creations are put in, they make no difference to what is found exactly when the session
      is not exposed, or has lapsed by the last event. */
  lemma EvictionsShowIff(v: View, base: seq<Event>, id: Id, start: real, ttl: real, max: int)
    requires (forall i :: 0 <= i < |base| ==> IsUse(base[i])) && InTimeOrder(base, start)
    ensures var f := FateIn(v, id);
      var use := UseOf(f, base, id, ttl);
      (forall all :: Interleaves(all, base, id, start) ==> AnsweredBy(use, v, all, id, start, ttl, max))
      <==> !Exposed(f, base, id, ttl) || Lapsed(use, Latest(base, start), ttl)
  {
    var f := FateIn(v, id);
    var use, now := UseOf(f, base, id, ttl), Latest(base, start);
    if !Exposed(f, base, id, ttl) || Lapsed(use, now, ttl) {
      forall all | Interleaves(all, base, id, start)
        ensures AnsweredBy(use, v, all, id, start, ttl, max)
      {
        EvictionsDoNotShow(v, all, id, start, ttl, max);
      }
    } else {
      var all := Evicting(base);
      EvictingInterleaves(base, id, start);
      EvictingForgets(f, base, id, start, ttl);
      FateIsUseOrGone(f, base, id, start, ttl);
      FoundIff(v, all, id, ttl, max, use.owner, now);
      assert LiveFor(use, use.owner, now, ttl);
      assert !AnsweredBy(use, v, all, id, start, ttl, max);
    }
  }

  /** A save settles the session, so a chat turn that outlasts the time to live but ends in its save shows no
      eviction. */
  lemma SaveSettles(v: View, base: seq<Event>, id: Id, u: int, now: real, start: real, ttl: real, max: int)
    requires (forall i :: 0 <= i < |base| ==> IsUse(base[i])) && InTimeOrder(base + [DidSave(id, u, now)], start)
    ensures forall all :: Interleaves(all, base + [DidSave(id, u, now)], id, start) ==>
              AnsweredBy(UsedBy(u, now), v, all, id, start, ttl, max)
  {
    var whole := base + [DidSave(id, u, now)];
    assert whole[..|base|] == base;
    EvictionsShowIff(v, whole, id, start, ttl, max);
  }

  /** A touch after the time to live is where they show: it revives a session that no eviction has reached yet. */
  lemma LateTouchShowsEviction(id: Id, max: int)
    ensures var v: View := map[id := Rec(1, 0.0)];
      Found(RunFrom(v, [Touched(id, 20.0)], 10.0, max), id, 1, 20.0, 10.0)
      && !Found(RunFrom(v, [DidEvict(20.0), Touched(id, 20.0)], 10.0, max), id, 1, 20.0, 10.0)
  {
    var v: View := map[id := Rec(1, 0.0)];
    var touch, evict := Touched(id, 20.0), DidEvict(20.0);
    assert [touch][..0] == [] && [evict, touch][..1] == [evict] && [evict][..0] == [];
    FoundIff(v, [touch], id, 10.0, max, 1, 20.0);
    FoundIff(v, [evict, touch], id, 10.0, max, 1, 20.0);
  }
}
