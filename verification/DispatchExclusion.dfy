/** Without declines a trip asks every driver at most once: each timed-out offer extends the exclusion list of the
    trip. */
module DispatchExclusion {
  import opened Common
  import opened Dispatch
  import opened DispatchTimers
  import DS = DriverStore

  predicate NoRepeats(xs: seq<DriverId>) {
    forall i, j | 0 <= i < j < |xs| :: xs[i] != xs[j]
  }

  lemma {:induction false} NoRepeatsFit(xs: seq<DriverId>, pool: set<DriverId>)
    requires NoRepeats(xs) && forall d | d in xs :: d in pool
    ensures |xs| <= |pool|
  {
    if xs != [] {
      var front, last := xs[..|xs| - 1], xs[|xs| - 1];
      assert last !in front;
      NoRepeatsFit(front, pool - {last});
    }
  }

  /** How many offers of trip `t` have timed out. */
  function Timeouts(log: seq<TripId>, t: TripId): nat {
    if log == [] then 0 else Timeouts(log[..|log| - 1], t) + if log[|log| - 1] == t then 1 else 0
  }

  lemma TimeoutsSnoc(log: seq<TripId>, x: TripId, t: TripId)
    ensures Timeouts(log + [x], t) == Timeouts(log, t) + if x == t then 1 else 0
  {
    assert (log + [x])[..|log|] == log;
  }

  // ---------------------------------------------------------------- what is kept

  /** How many timeouts of a trip its exclusion list has forgotten; none unless the trip was declined. */
  function Base(base: map<TripId, int>, t: TripId): int {
    if t in base then base[t] else 0
  }

  /** The list names pool drivers without repetition, one for each timed-out offer of the trip that is not forgotten. */
  ghost predicate Listed(e: Event, log: seq<TripId>, pool: set<DriverId>, base: map<TripId, int>) {
    && NoRepeats(e.excluded)
    && (forall d | d in e.excluded :: d in pool)
    && Base(base, e.trip) + |e.excluded| == Timeouts(log, e.trip)
  }

  ghost predicate EventsListed(s: State, pool: set<DriverId>, base: map<TripId, int>) {
    && (forall i | 0 <= i < |s.requeued| :: Listed(s.requeued[i], s.timedOut, pool, base))
    && (forall t | t in s.waiting :: Listed(s.waiting[t], s.timedOut, pool, base))
    && (forall t | t in s.pending ::
          Listed(s.pending[t].event, s.timedOut, pool, base) && s.pending[t].driver !in s.pending[t].event.excluded
              && s.pending[t].driver in pool)
  }

  /** A trip is in one place at most: in flight once, waiting, or offered. */
  ghost predicate OnePlace(s: State) {
    && (forall i | 0 <= i < |s.requeued| :: s.requeued[i].trip !in s.pending && s.requeued[i].trip !in s.waiting)
    && (forall i, j | 0 <= i < j < |s.requeued| :: s.requeued[i].trip != s.requeued[j].trip)
  }

  ghost predicate AllSeen(s: State, base: map<TripId, int>) {
    && (forall i | 0 <= i < |s.requeued| :: s.requeued[i].trip in s.seen)
    && (forall t | t in s.waiting || t in s.pending :: t in s.seen)
    && (forall t | t !in s.seen :: Timeouts(s.timedOut, t) == 0 && Base(base, t) == 0)
  }

  ghost predicate InPool(store: DS.State, pool: set<DriverId>) {
    forall pkg, d | d in DS.Entries(store, pkg) :: d in pool
  }

  ghost predicate Inv(s: State, pool: set<DriverId>, base: map<TripId, int>) {
    && Keyed(s) && TimersSound(s)
    && EventsListed(s, pool, base) && OnePlace(s) && AllSeen(s, base) && InPool(s.store, pool)
    && forall t :: Timeouts(s.timedOut, t) <= Base(base, t) + |pool|
  }

  /** Nobody declines, every search message is delivered at most once, and only drivers of the pool register. A
      created-message starts with an empty list. */
  predicate Undisturbed(s: State, a: Action, pool: set<DriverId>) {
    match a
    case Search(e, source, _, picked, sent) =>
      && (source.None? ==> e.trip !in s.seen && e.excluded == [])
      && (picked.None? ==> sent)
    case Respond(_, _, decline) => !decline
    case Register(d, _, _, _, _) => d in pool
    case Move(d, _) => d in pool
    case _ => true
  }

  // ---------------------------------------------------------------- the steps

  lemma PoolReaped(store: DS.State, store': DS.State, pkg: PackageSlug, pool: set<DriverId>)
    requires DS.Reaped(store, store', pkg) && InPool(store, pool)
    ensures InPool(store', pool)
  {
    forall q, d | d in DS.Entries(store', q) ensures d in pool {
      assert d in DS.Entries(store, q);
    }
  }

  lemma PoolAdded(store: DS.State, pkg: PackageSlug, d: DriverId, p: DS.Point, pool: set<DriverId>)
    requires InPool(store, pool) && d in pool
    ensures InPool(DS.GeoAdd(store, pkg, d, p), pool)
  {
    forall q, x | x in DS.Entries(DS.GeoAdd(store, pkg, d, p), q) ensures x in pool {
      if x != d || q != pkg { assert x in DS.Entries(store, q); }
    }
  }

  lemma PoolSameGeo(store: DS.State, store': DS.State, pool: set<DriverId>)
    requires InPool(store, pool) && store'.geo == store.geo
    ensures InPool(store', pool)
  {
    forall q, d | d in DS.Entries(store', q) ensures d in pool {
      assert d in DS.Entries(store, q);
    }
  }

  lemma SearchGeo(s: State, e: Event, store': DS.State, picked: Option<DriverId>, sent: bool)
    ensures FindAndNotify(s, e, store', picked, sent).store.geo == store'.geo
  {
  }

  lemma MatchGeo(s: State, pkg: PackageSlug, t: TripId, store': DS.State, picked: Option<DriverId>, sent: bool)
    ensures MatchOne(s, pkg, t, store', picked, sent).store.geo == if t in s.waiting then store'.geo else s.store.geo
  {
  }

  lemma FireGeo(s: State, k: TimerId, sent: bool)
    requires k in s.timers
    ensures TimerFires(s, k, sent).store.geo == s.store.geo
  {
  }

  lemma EndGeo(s: State, t: TripId, d: DriverId, b: bool)
    ensures DriverResponse(s, t, d, b).store.geo == s.store.geo && TripCompleted(s, t, d).store.geo == s.store.geo
  {
  }

  lemma CancelGeo(s: State, t: TripId, d: DriverId)
    ensures TripCancelled(s, t, d).store.geo == s.store.geo
  {
  }

  lemma PoolMove(store: DS.State, d: DriverId, p: DS.Point, pool: set<DriverId>)
    requires InPool(store, pool)
    ensures d in pool ==> InPool(DS.UpdateLocation(store, d, p), pool)
    ensures InPool(DS.GoOffline(store, d), pool)
  {
    if d in pool && DS.Slug in DS.Hash(store, d) {
      PoolAdded(store, DS.Hash(store, d)[DS.Slug], d, p, pool);
      if p.lat != 0.0 && p.lng != 0.0 {
        PoolSameGeo(DS.GeoAdd(store, DS.Hash(store, d)[DS.Slug], d, p), DS.UpdateLocation(store, d, p), pool);
      }
    }
    forall q, x | x in DS.Entries(DS.GoOffline(store, d), q) ensures x in pool {
      assert x in DS.Entries(store, q);
    }
  }

  lemma PoolStep(s: State, a: Action, pool: set<DriverId>)
    requires PendingKeyed(s.pending) && Valid(s, a) && InPool(s.store, pool) && (a.Register? || a.Move? ==> a.d in pool)
    ensures InPool(Apply(s, a).store, pool)
  {
    match a
    case Search(e, source, found, picked, sent) =>
      PoolReaped(s.store, found, e.pkg, pool);
      SearchGeo(Consumed(s, source), e, found, picked, sent);
      PoolSameGeo(found, Apply(s, a).store, pool);
    case Match(pkg, t, found, picked, sent) =>
      if t in s.waiting { PoolReaped(s.store, found, s.waiting[t].pkg, pool); }
      MatchGeo(s, pkg, t, found, picked, sent);
      PoolSameGeo(if t in s.waiting then found else s.store, Apply(s, a).store, pool);
    case Register(d, pkg, name, p, demo) => PoolRegister(s, d, pkg, name, p, demo, pool);
    case Move(d, p) => PoolMove(s.store, d, p, pool);
    case Offline(d) => PoolMove(s.store, d, DS.Point(0.0, 0.0), pool);
    case HeartbeatExpires(_) => PoolSameGeo(s.store, Apply(s, a).store, pool);
    case WaitingExpires(_) =>
    case ContextEnds(_) =>
    case GiveUp(_) =>
    case Restart =>
    case Fire(k, sent) =>
      if k in s.timers {
        FireGeo(s, k, sent);
        PoolSameGeo(s.store, TimerFires(s, k, sent).store, pool);
      }
    case Respond(t, d, decline) => PoolEnd(s, t, d, decline, pool);
    case Cancel(t, d) => PoolEnd(s, t, d, true, pool);
    case Complete(t, d) => PoolEnd(s, t, d, true, pool);
  }

  lemma PoolRegister(s: State, d: DriverId, pkg: PackageSlug, name: string, p: DS.Point, demo: DS.Point,
      pool: set<DriverId>)
    requires PendingKeyed(s.pending) && InPool(s.store, pool) && d in pool
    ensures InPool(Reconnect(s, d, pkg, name, p, demo).store, pool)
  {
    var at := if p.lat == 0.0 || p.lng == 0.0 then demo else p;
    var registered := DS.RegisterDriver(s.store, d, pkg, name, p, demo);
    PoolAdded(s.store, pkg, d, at, pool);
    PoolSameGeo(DS.GeoAdd(s.store, pkg, d, at), registered, pool);
    ResumeOnlyDrops(s.(store := registered), d);
    PoolSameGeo(registered, Reconnect(s, d, pkg, name, p, demo).store, pool);
  }

  lemma PoolEnd(s: State, t: TripId, d: DriverId, b: bool, pool: set<DriverId>)
    requires InPool(s.store, pool)
    ensures InPool(DriverResponse(s, t, d, b).store, pool) && InPool(TripCancelled(s, t, d).store, pool)
        && InPool(TripCompleted(s, t, d).store, pool)
  {
    EndGeo(s, t, d, b);
    CancelGeo(s, t, d);
    PoolSameGeo(s.store, DriverResponse(s, t, d, b).store, pool);
    PoolSameGeo(s.store, TripCancelled(s, t, d).store, pool);
    PoolSameGeo(s.store, TripCompleted(s, t, d).store, pool);
  }

  /** A picked driver is in the pool and not on the list of the event. */
  lemma PickIsNew(store: DS.State, e: Event, store': DS.State, d: DriverId, pool: set<DriverId>)
    requires SearchResult(store, e, store', Some(d)) && InPool(store, pool)
    ensures d in pool && d !in e.excluded
  {
    assert d in DS.Entries(store, e.pkg);
    assert d in ExcludedSet(e) <==> d in e.excluded;
  }

  /** Everything a step that is no search, timeout, match or give-up can do to the places of a trip: it leaves an
      event where it is, with its driver, or drops it. */
  ghost predicate OnlyDrops(s: State, s': State) {
    && s'.seen == s.seen && s'.timedOut == s.timedOut && s'.requeued == s.requeued
    && (forall t | t in s'.waiting :: t in s.waiting && s'.waiting[t] == s.waiting[t])
    && (forall t | t in s'.pending ::
          t in s.pending && s'.pending[t].event == s.pending[t].event
          && s'.pending[t].driver == s.pending[t].driver)
  }

  lemma ResumeOnlyDrops(s: State, d: DriverId)
    requires PendingKeyed(s.pending)
    ensures OnlyDrops(s, Resume(s, d)) && Resume(s, d).store.geo == s.store.geo
  {
  }

  lemma ResponseOnlyDrops(s: State, t: TripId, d: DriverId, decline: bool)
    ensures OnlyDrops(s, DriverResponse(s, t, d, decline))
  {
  }

  lemma CancelOnlyDrops(s: State, t: TripId, d: DriverId)
    ensures OnlyDrops(s, TripCancelled(s, t, d))
  {
  }

  lemma OtherStep(s: State, a: Action)
    requires PendingKeyed(s.pending) && !a.Search? && !a.Fire? && !a.Match? && !a.GiveUp?
    ensures OnlyDrops(s, Apply(s, a))
  {
    match a
    case Register(d, pkg, name, p, demo) => ResumeOnlyDrops(s.(store := DS.RegisterDriver(s.store, d, pkg, name, p,
        demo)), d);
    case Respond(t, d, decline) => ResponseOnlyDrops(s, t, d, decline);
    case Cancel(t, d) => CancelOnlyDrops(s, t, d);
    case Complete(_, _) =>
    case WaitingExpires(_) =>
    case Move(_, _) =>
    case Offline(_) =>
    case HeartbeatExpires(_) =>
    case ContextEnds(_) =>
    case Restart =>
  }

  lemma GiveUpKeeps(s: State, n: nat, pool: set<DriverId>, base: map<TripId, int>)
    requires Places(s, pool, base)
    ensures Places(Consumed(s, Some(n)), pool, base)
  {
    var c := Consumed(s, Some(n));
    forall i | 0 <= i < |c.requeued| && n < |s.requeued|
        ensures c.requeued[i] == s.requeued[if i < n then i else i + 1] {}
  }

  lemma DropsKeep(s: State, s': State, pool: set<DriverId>, base: map<TripId, int>)
    requires OnlyDrops(s, s') && EventsListed(s, pool, base) && OnePlace(s) && AllSeen(s, base)
    ensures EventsListed(s', pool, base) && OnePlace(s') && AllSeen(s', base)
  {
  }

  /** The three properties of the places together. */
  ghost predicate Places(s: State, pool: set<DriverId>, base: map<TripId, int>) {
    EventsListed(s, pool, base) && OnePlace(s) && AllSeen(s, base)
  }

  /** The trip is nowhere: it has just been taken out of its place. */
  ghost predicate Homeless(s: State, t: TripId) {
    && t !in s.pending && t !in s.waiting && t in s.seen
    && forall i | 0 <= i < |s.requeued| :: s.requeued[i].trip != t
  }

  lemma PlaceWaiting(s: State, e: Event, pool: set<DriverId>, base: map<TripId, int>)
    requires Places(s, pool, base) && Homeless(s, e.trip) && Listed(e, s.timedOut, pool, base)
    ensures Places(WaitingStore(s, e), pool, base)
  {
  }

  lemma PlaceRequeued(s: State, e: Event, pool: set<DriverId>, base: map<TripId, int>)
    requires Places(s, pool, base) && Homeless(s, e.trip) && Listed(e, s.timedOut, pool, base)
    ensures Places(s.(requeued := s.requeued + [e]), pool, base)
  {
  }

  lemma PlaceOffer(s: State, e: Event, d: DriverId, pool: set<DriverId>, base: map<TripId, int>)
    requires Places(s, pool, base) && Homeless(s, e.trip) && Listed(e, s.timedOut, pool, base) && d in pool
        && d !in e.excluded
    ensures Places(SpawnTimer(s, e, d), pool, base)
  {
  }

  /** An arriving search message takes its trip out of flight, or is the first for a new trip. */
  lemma Arrival(s: State, e: Event, source: Option<nat>, pool: set<DriverId>, base: map<TripId, int>)
    requires Places(s, pool, base) && PendingKeyed(s.pending) && WaitingKeyed(s.waiting, s.index)
    requires source.Some? ==> source.value < |s.requeued| && s.requeued[source.value] == e
    requires source.None? ==> e.trip !in s.seen && e.excluded == []
    ensures var c := Consumed(s, source).(seen := s.seen + {e.trip});
            Places(c, pool, base) && Homeless(c, e.trip) && Listed(e, c.timedOut, pool, base)
  {
    var c := Consumed(s, source).(seen := s.seen + {e.trip});
    if source.Some? {
      var n := source.value;
      forall i | 0 <= i < |c.requeued| ensures c.requeued[i] == s.requeued[if i < n then i else i + 1] {}
    }
  }

  /** A search places its homeless trip: in the queue, on offer, or back in flight. */
  lemma SearchPlaced(c: State, e: Event, store': DS.State, picked: Option<DriverId>, sent: bool,
                     pool: set<DriverId>, base: map<TripId, int>)
    requires Places(c, pool, base) && Homeless(c, e.trip) && Listed(e, c.timedOut, pool, base)
    requires InPool(c.store, pool) && SearchResult(c.store, e, store', picked) && (picked.None? ==> sent)
    ensures Places(FindAndNotify(c, e, store', picked, sent), pool, base)
  {
    var s1 := c.(store := store', seen := c.seen + {e.trip});
    assert s1.seen == c.seen;
    assert Places(s1, pool, base) && Homeless(s1, e.trip);
    if picked.None? {
      PlaceWaiting(s1, e, pool, base);
    } else if sent {
      PickIsNew(c.store, e, store', picked.value, pool);
      PlaceOffer(s1.(store := DS.SetBusy(store', picked.value, e.trip)), e, picked.value, pool, base);
    } else {
      PlaceRequeued(s1, e, pool, base);
    }
  }

  lemma SearchStep(s: State, e: Event, source: Option<nat>, store': DS.State, picked: Option<DriverId>, sent: bool,
                   pool: set<DriverId>, base: map<TripId, int>)
    requires Places(s, pool, base) && Keyed(s) && InPool(s.store, pool)
    requires Valid(s, Search(e, source, store', picked, sent))
        && Undisturbed(s, Search(e, source, store', picked, sent), pool)
    ensures Places(Apply(s, Search(e, source, store', picked, sent)), pool, base)
  {
    Arrival(s, e, source, pool, base);
    var c := Consumed(s, source).(seen := s.seen + {e.trip});
    SearchPlaced(c, e, store', picked, sent, pool, base);
    assert FindAndNotify(c, e, store', picked, sent) == FindAndNotify(Consumed(s, source), e, store', picked, sent);
  }

  lemma MatchStep(s: State, pkg: PackageSlug, t: TripId, store': DS.State, picked: Option<DriverId>, sent: bool,
      pool: set<DriverId>, base: map<TripId, int>)
    requires Places(s, pool, base) && Keyed(s) && InPool(s.store, pool) && NotBoth(s.pending, s.waiting)
    requires t in s.waiting ==> SearchResult(s.store, s.waiting[t], store', picked)
    ensures Places(MatchOne(s, pkg, t, store', picked, sent), pool, base)
  {
    if t in s.waiting {
      var e := s.waiting[t];
      var s1 := IndexRemove(s, pkg, t).(waiting := s.waiting - {t}, store := store');
      assert Places(s1, pool, base) && Homeless(s1, t);
      if picked.Some? && sent {
        PickIsNew(s.store, e, store', picked.value, pool);
        PlaceOffer(s1.(store := DS.SetBusy(store', picked.value, t)), e, picked.value, pool, base);
      } else {
        PlaceWaiting(s1, e, pool, base);
      }
    }
  }

  /** A timed-out offer: its driver joins the list, which was free of it and stays within the pool. */
  lemma ExtendedIsListed(e: Event, d: DriverId, log: seq<TripId>, pool: set<DriverId>, base: map<TripId, int>)
    requires Listed(e, log, pool, base) && d in pool && d !in e.excluded
    ensures Listed(Extended(e, d), log + [e.trip], pool, base)
        && Timeouts(log + [e.trip], e.trip) <= Base(base, e.trip) + |pool|
  {
    TimeoutsSnoc(log, e.trip, e.trip);
    NoRepeatsFit(Extended(e, d).excluded, pool);
  }

  lemma FireStep(s: State, k: TimerId, sent: bool, pool: set<DriverId>, base: map<TripId, int>)
    requires Inv(s, pool, base) && k in s.timers
    ensures var s' := TimerFires(s, k, sent);
          Places(s', pool, base)
          && forall t :: Timeouts(s'.timedOut, t) <= Base(base, t) + |pool|
  {
    var t := s.timers[k].event.trip;
    var o := s.pending[t];
    assert s.timers[k] == Timer(o.event, o.driver);
    ExtendedIsListed(o.event, o.driver, s.timedOut, pool, base);
    forall u ensures Timeouts(s.timedOut + [t], u) == Timeouts(s.timedOut, u) + if u == t then 1 else 0 {
      TimeoutsSnoc(s.timedOut, t, u);
    }
    var taken := TakeAndCancel(s.(timers := s.timers - {k}), t).(store := DS.ClearBusy(s.store, o.driver, t),
        timedOut := s.timedOut + [t]);
    TakenPlaces(s, taken, t, pool, base);
    if sent { PlaceRequeued(taken, Extended(o.event, o.driver), pool, base); }
  }

  lemma TakenPlaces(s: State, taken: State, t: TripId, pool: set<DriverId>, base: map<TripId, int>)
    requires Places(s, pool, base) && Keyed(s) && NotBoth(s.pending, s.waiting) && t in s.pending
    requires taken.pending == s.pending - {t} && taken.waiting == s.waiting && taken.requeued == s.requeued
        && taken.seen == s.seen
    requires taken.timedOut == s.timedOut + [t]
    requires forall u :: Timeouts(taken.timedOut, u) == Timeouts(s.timedOut, u) + if u == t then 1 else 0
    ensures Places(taken, pool, base) && Homeless(taken, t)
  {
  }

  lemma UndisturbedIsOrderly(s: State, a: Action, pool: set<DriverId>, base: map<TripId, int>)
    requires Places(s, pool, base) && Valid(s, a) && Undisturbed(s, a, pool)
    ensures SearchOrderly(s, a)
  {
  }

  lemma InvStep(s: State, a: Action, pool: set<DriverId>, base: map<TripId, int>)
    requires Inv(s, pool, base) && Valid(s, a) && Undisturbed(s, a, pool)
    ensures Inv(Apply(s, a), pool, base)
  {
    UndisturbedIsOrderly(s, a, pool, base);
    KeyedStep(s, a);
    TimersSoundStep(s, a);
    PoolStep(s, a, pool);
    PlacesStep(s, a, pool, base);
  }

  lemma PlacesStep(s: State, a: Action, pool: set<DriverId>, base: map<TripId, int>)
    requires Inv(s, pool, base) && Valid(s, a) && Undisturbed(s, a, pool)
    ensures Places(Apply(s, a), pool, base) && forall t :: Timeouts(Apply(s, a).timedOut, t) <= Base(base, t) + |pool|
  {
    if a.Search? {
      SearchStep(s, a.e, a.source, a.store', a.picked, a.sent, pool, base);
      SearchKeepsTimeouts(s, a);
    } else if a.Match? {
      MatchStep(s, a.pkg, a.t, a.store', a.picked, a.sent, pool, base);
      MatchKeepsTimeouts(s, a);
    } else if a.Fire? {
      if a.k in s.timers { FireStep(s, a.k, a.sent, pool, base); }
    } else if a.GiveUp? {
      GiveUpKeeps(s, a.n, pool, base);
    } else {
      OtherStep(s, a);
      DropsKeep(s, Apply(s, a), pool, base);
    }
  }

  lemma SearchKeepsTimeouts(s: State, a: Action)
    requires a.Search?
    ensures Apply(s, a).timedOut == s.timedOut
  {
  }

  lemma MatchKeepsTimeouts(s: State, a: Action)
    requires a.Match?
    ensures Apply(s, a).timedOut == s.timedOut
  {
  }

  // ---------------------------------------------------------------- whole runs

  ghost predicate UndisturbedRun(acts: seq<Action>, pool: set<DriverId>) {
    forall i | 0 <= i < |acts| :: Undisturbed(Run(Initial, acts[..i]), acts[i], pool)
  }

  lemma UndisturbedPrefix(acts: seq<Action>, pool: set<DriverId>)
    requires UndisturbedRun(acts, pool) && acts != []
    ensures var n := |acts| - 1; UndisturbedRun(acts[..n], pool) && Undisturbed(Run(Initial, acts[..n]), acts[n], pool)
  {
    var before := acts[..|acts| - 1];
    forall i | 0 <= i < |before| ensures Undisturbed(Run(Initial, before[..i]), before[i], pool) {
      assert before[..i] == acts[..i];
    }
  }

  lemma {:induction false} InvRun(acts: seq<Action>, pool: set<DriverId>)
    requires ValidRun(acts) && UndisturbedRun(acts, pool)
    ensures Inv(Run(Initial, acts), pool, map[])
  {
    if acts != [] {
      ValidPrefix(acts);
      UndisturbedPrefix(acts, pool);
      InvRun(acts[..|acts| - 1], pool);
      InvStep(Run(Initial, acts[..|acts| - 1]), acts[|acts| - 1], pool, map[]);
    }
  }

  /** A pool of n drivers gives at most n timed-out offers per trip. */
  lemma {:induction false} TimeoutsBoundedByPool(acts: seq<Action>, pool: set<DriverId>, t: TripId)
    requires ValidRun(acts) && UndisturbedRun(acts, pool)
    ensures Timeouts(Run(Initial, acts).timedOut, t) <= |pool|
  {
    InvRun(acts, pool);
  }

  /** The exclusion list counts the timeouts exactly, wherever the trip is, also after the waiting queue; and an offer
      goes to a pool driver that is not on it, so |pool| - |excluded| falls with every timeout. */
  lemma {:induction false} ListSurvives(acts: seq<Action>, pool: set<DriverId>, t: TripId)
    requires ValidRun(acts) && UndisturbedRun(acts, pool)
    ensures var s := Run(Initial, acts);
            && (t in s.waiting ==>
                  |s.waiting[t].excluded| == Timeouts(s.timedOut, t)
                  && NoRepeats(s.waiting[t].excluded))
            && (t in s.pending ==>
                  var o := s.pending[t];
                  && |o.event.excluded| == Timeouts(s.timedOut, t) && NoRepeats(o.event.excluded)
                  && o.driver in pool && o.driver !in o.event.excluded
                  && |o.event.excluded| + 1 <= |pool|)
  {
    InvRun(acts, pool);
    var s := Run(Initial, acts);
    if t in s.pending {
      var o := s.pending[t];
      assert Listed(o.event, s.timedOut, pool, map[]) && o.event.trip == t;
      NoRepeatsFit(o.event.excluded + [o.driver], pool);
    }
  }

  /** The search message the trip service sends after a decline names the decliner only. */
  function AfterDecline(e: Event, decliner: DriverId): Event {
    e.(excluded := [decliner])
  }

  /** So the bound needs the absence of declines: any other available driver can be asked again, also one that timed
      out. */
  lemma DeclineForgetsTimeouts(store: DS.State, e: Event, decliner: DriverId, d: DriverId)
    requires d in DS.Entries(store, e.pkg) && DS.Eligible(store, {}, d)
    ensures SearchResult(store, AfterDecline(e, decliner), store, Some(d)) <==> d != decliner
  {
    assert ExcludedSet(AfterDecline(e, decliner)) == {decliner};
  }
}
