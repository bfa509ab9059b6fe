/** Outstanding offers and running timers correspond one to one, as long as searches do not overlap an offer. */
module DispatchTimers {
  import opened Common
  import opened Dispatch
  import DS = DriverStore

  /** Every offer has its running timer, with the same event and driver, and the stored cancel function stops that
      timer. */
  ghost predicate OffersTimed(pending: map<TripId, Offered>, timers: map<TimerId, Timer>) {
    forall t | t in pending :: pending[t].timer in timers
        && timers[pending[t].timer] == Timer(pending[t].event, pending[t].driver)
  }

  /** Every running timer is the one stored with the offer of its trip. */
  ghost predicate TimersOffered(pending: map<TripId, Offered>, timers: map<TimerId, Timer>) {
    forall k | k in timers :: timers[k].event.trip in pending && pending[timers[k].event.trip].timer == k
  }

  ghost predicate NotBoth(pending: map<TripId, Offered>, waiting: map<TripId, Event>) {
    forall t | t in pending :: t !in waiting
  }

  ghost predicate OneToOne(s: State) {
    OffersTimed(s.pending, s.timers) && TimersOffered(s.pending, s.timers) && NotBoth(s.pending, s.waiting)
  }

  /** A search for a trip finds it neither offered nor, if a driver is picked, waiting; and no parent context ends under
      a running timer. */
  predicate Orderly(s: State, a: Action) {
    match a
    case Search(e, _, _, picked, sent) =>
      if picked.Some? then sent ==> e.trip !in s.pending && e.trip !in s.waiting
      else e.trip !in s.pending
    case ContextEnds(k) => k !in s.timers
    case _ => true
  }

  lemma SpawnKeeps(s: State, e: Event, d: DriverId)
    requires Keyed(s) && OneToOne(s) && e.trip !in s.pending && e.trip !in s.waiting
    ensures OneToOne(SpawnTimer(s, e, d))
  {
  }

  /** Storing an offer over another one leaves the older timer running, without an offer of its own. */
  lemma SpawnOverOfferBreaks(s: State, e: Event, d: DriverId)
    requires Keyed(s) && OneToOne(s) && (e.trip in s.pending || e.trip in s.waiting)
    ensures !OneToOne(SpawnTimer(s, e, d))
  {
    var s' := SpawnTimer(s, e, d);
    if e.trip in s.pending {
      var k := s.pending[e.trip].timer;
      assert k in s'.timers && s'.timers[k].event.trip == e.trip && s'.pending[e.trip].timer != k;
    } else {
      assert e.trip in s'.pending && e.trip in s'.waiting;
    }
  }

  lemma TakeKeeps(s: State, t: TripId)
    requires Keyed(s) && OneToOne(s)
    ensures OneToOne(TakeAndCancel(s, t)) && t !in TakeAndCancel(s, t).pending
  {
  }

  /** A timer that fires under the correspondence always meets its own offer. */
  lemma FireKeeps(s: State, k: TimerId, sent: bool)
    requires Keyed(s) && OneToOne(s) && k in s.timers
    ensures OneToOne(TimerFires(s, k, sent))
  {
    var t := s.timers[k].event.trip;
    TakeKeeps(s, t);
    assert s.timers - {k} - {k} == s.timers - {k};
    assert TimerFires(s, k, sent).timers == TakeAndCancel(s, t).timers;
  }

  lemma ReconnectKeeps(s: State, d: DriverId, pkg: PackageSlug, name: string, p: DS.Point, demo: DS.Point)
    requires Keyed(s) && OneToOne(s)
    ensures OneToOne(Reconnect(s, d, pkg, name, p, demo))
  {
    var s1 := s.(store := DS.RegisterDriver(s.store, d, pkg, name, p, demo));
    var t := DS.BusyTrip(s1.store, d);
    if t in s1.pending {
      TakeKeeps(s1, t);
      KeyedTake(s1, t);
      SpawnKeeps(TakeAndCancel(s1, t), s1.pending[t].event, d);
    }
  }

  lemma MatchKeeps(s: State, pkg: PackageSlug, t: TripId, store': DS.State, picked: Option<DriverId>, sent: bool)
    requires Keyed(s) && OneToOne(s)
    ensures OneToOne(MatchOne(s, pkg, t, store', picked, sent))
  {
    if t in s.waiting {
      var e := s.waiting[t];
      KeyedUnwait(s, pkg, t);
      var s1 := IndexRemove(s, pkg, t).(waiting := s.waiting - {t}, store := store');
      assert OneToOne(s1);
      if picked.Some? && sent {
        SpawnKeeps(s1.(store := DS.SetBusy(store', picked.value, t)), e, picked.value);
      }
    }
  }

  lemma SearchKeepsIff(s: State, e: Event, store': DS.State, picked: Option<DriverId>, sent: bool)
    requires Keyed(s) && OneToOne(s) && e.trip != ""
    ensures OneToOne(FindAndNotify(s, e, store', picked, sent)) <==> Orderly(s, Search(e, None, store', picked, sent))
  {
    var s1 := s.(store := store', seen := s.seen + {e.trip});
    if picked.Some? {
      var marked := s1.(store := DS.SetBusy(store', picked.value, e.trip));
      if e.trip in s.pending || e.trip in s.waiting { SpawnOverOfferBreaks(marked, e, picked.value); }
      else { SpawnKeeps(marked, e, picked.value); }
    } else if e.trip in s.pending {
      assert e.trip in FindAndNotify(s, e, store', picked, sent).waiting;
    }
  }

  lemma ContextKeepsIff(s: State, k: TimerId)
    requires OneToOne(s)
    ensures OneToOne(s.(timers := s.timers - {k})) <==> k !in s.timers
  {
    if k in s.timers {
      var t := s.timers[k].event.trip;
      assert t in s.pending && s.pending[t].timer == k;
    } else {
      assert s.timers - {k} == s.timers;
    }
  }

  /** A step keeps the correspondence if and only if it is orderly. */
  lemma OneToOneStep(s: State, a: Action)
    requires Keyed(s) && OneToOne(s) && Valid(s, a)
    ensures OneToOne(Apply(s, a)) <==> Orderly(s, a)
  {
    match a
    case Search(e, source, store', picked, sent) => SearchKeepsIff(Consumed(s, source), e, store', picked, sent);
    case Fire(k, sent) => if k in s.timers { FireKeeps(s, k, sent); }
    case Register(d, pkg, name, p, demo) => ReconnectKeeps(s, d, pkg, name, p, demo);
    case Respond(t, _, _) => TakeKeeps(s, t);
    case Cancel(t, _) =>
      if t in s.waiting { KeyedUnwait(s, s.waiting[t].pkg, t); }
      TakeKeeps(WaitingDelete(s, t), t);
    case Match(pkg, t, store', picked, sent) => MatchKeeps(s, pkg, t, store', picked, sent);
    case ContextEnds(k) => ContextKeepsIff(s, k);
    case _ =>
  }

  ghost predicate OrderlyRun(acts: seq<Action>) {
    forall i | 0 <= i < |acts| :: Orderly(Run(Initial, acts[..i]), acts[i])
  }

  lemma {:induction false} OneToOneRun(acts: seq<Action>)
    requires ValidRun(acts) && OrderlyRun(acts)
    ensures OneToOne(Run(Initial, acts))
  {
    if acts != [] {
      var before := acts[..|acts| - 1];
      ValidPrefix(acts);
      forall i | 0 <= i < |before| ensures Orderly(Run(Initial, before[..i]), before[i]) {
        assert before[..i] == acts[..i];
      }
      OneToOneRun(before);
      KeyedRun(before);
      OneToOneStep(Run(Initial, before), acts[|acts| - 1]);
    }
  }

  /** Whenever an offer is open its timer is running, and firing it removes exactly that offer, frees exactly its
      driver, and asks again with the driver excluded. */
  lemma {:induction false} OpenOfferCanTimeOut(acts: seq<Action>, t: TripId, sent: bool)
    requires ValidRun(acts) && OrderlyRun(acts) && NoEarlyCompletion(acts) && t in Run(Initial, acts).pending
    ensures var s := Run(Initial, acts);
            var o := s.pending[t];
            && o.timer in s.timers && s.timers[o.timer] == Timer(o.event, o.driver)
            && var s' := TimerFires(s, o.timer, sent);
               && s'.pending == s.pending - {t}
               && s'.timers == s.timers - {o.timer}
               && s'.waiting == s.waiting
               && DS.BusyTrip(s'.store, o.driver) == ""
               && (forall d | d != o.driver :: DS.BusyTrip(s'.store, d) == DS.BusyTrip(s.store, d))
               && s'.requeued == (if sent then s.requeued + [o.event.(excluded := o.event.excluded + [o.driver])]
                   else s.requeued)
  {
    OneToOneRun(acts);
    OffersHeldRun(acts);
    KeyedRun(acts);
    var s := Run(Initial, acts);
    var o := s.pending[t];
    assert s.timers - {o.timer} - {o.timer} == s.timers - {o.timer};
  }

  lemma {:induction false} NoTwoTimersPerOffer(acts: seq<Action>, k1: TimerId, k2: TimerId)
    requires ValidRun(acts) && OrderlyRun(acts)
    requires var s := Run(Initial, acts);
          k1 in s.timers && k2 in s.timers
          && s.timers[k1].event.trip == s.timers[k2].event.trip
    ensures k1 == k2
  {
    OneToOneRun(acts);
  }

  /** A reconnect restarts the timer under the context of the call; when that context ends with the call, the offer is
      left without any timer and can no longer time out. */
  lemma ReconnectContextLosesTimer(s: State, t: TripId, d: DriverId)
    requires Keyed(s) && OneToOne(s) && t in s.pending && s.pending[t].driver == d
    ensures var (s1, extended) := ExtendTimer(s, t, d);
            var s2 := Apply(s1, ContextEnds(s1.pending[t].timer));
            && extended && t in s2.pending && s2.pending[t].event == s.pending[t].event
            && forall k | k in s2.timers :: s2.timers[k].event.trip != t
  {
    TakeKeeps(s, t);
    KeyedTake(s, t);
    SpawnKeeps(TakeAndCancel(s, t), s.pending[t].event, d);
  }

  // ---------------------------------------------------------------- when timers get lost

  /** The stored timer of an offer runs for that offer, or was lost when its parent context ended. */
  ghost predicate TimedOrLost(pending: map<TripId, Offered>, timers: map<TimerId, Timer>, next: TimerId) {
    forall t | t in pending ::
      && pending[t].timer < next
      && (pending[t].timer in timers ==> timers[pending[t].timer] == Timer(pending[t].event, pending[t].driver))
  }

  /** What is left of the correspondence when contexts may end: no timer runs without its offer. */
  ghost predicate TimersSound(s: State) {
    && TimersOffered(s.pending, s.timers)
    && NotBoth(s.pending, s.waiting)
    && TimedOrLost(s.pending, s.timers, s.nextTimer)
  }

  /** The two differ exactly by the lost timers. */
  lemma OneToOneIsSoundAndRunning(s: State)
    requires Keyed(s)
    ensures OneToOne(s) <==> TimersSound(s) && forall t | t in s.pending :: s.pending[t].timer in s.timers
  {
  }

  predicate SearchOrderly(s: State, a: Action) {
    a.Search? ==> Orderly(s, a)
  }

  lemma SoundSpawn(s: State, e: Event, d: DriverId)
    requires Keyed(s) && TimersSound(s) && e.trip !in s.pending && e.trip !in s.waiting
    ensures TimersSound(SpawnTimer(s, e, d))
  {
  }

  lemma SoundTake(s: State, t: TripId)
    requires Keyed(s) && TimersSound(s)
    ensures TimersSound(TakeAndCancel(s, t)) && t !in TakeAndCancel(s, t).pending
  {
  }

  lemma SoundFire(s: State, k: TimerId, sent: bool)
    requires Keyed(s) && TimersSound(s) && k in s.timers
    ensures TimersSound(TimerFires(s, k, sent))
  {
    var t := s.timers[k].event.trip;
    SoundTake(s, t);
    assert s.timers - {k} - {k} == s.timers - {k};
    assert TimerFires(s, k, sent).timers == TakeAndCancel(s, t).timers;
  }

  lemma SoundReconnect(s: State, d: DriverId, pkg: PackageSlug, name: string, p: DS.Point, demo: DS.Point)
    requires Keyed(s) && TimersSound(s)
    ensures TimersSound(Reconnect(s, d, pkg, name, p, demo))
  {
    var s1 := s.(store := DS.RegisterDriver(s.store, d, pkg, name, p, demo));
    var t := DS.BusyTrip(s1.store, d);
    if t in s1.pending {
      SoundTake(s1, t);
      KeyedTake(s1, t);
      SoundSpawn(TakeAndCancel(s1, t), s1.pending[t].event, d);
    }
  }

  lemma SoundMatch(s: State, pkg: PackageSlug, t: TripId, store': DS.State, picked: Option<DriverId>, sent: bool)
    requires Keyed(s) && TimersSound(s)
    ensures TimersSound(MatchOne(s, pkg, t, store', picked, sent))
  {
    if t in s.waiting {
      KeyedUnwait(s, pkg, t);
      var s1 := IndexRemove(s, pkg, t).(waiting := s.waiting - {t}, store := store');
      assert TimersSound(s1);
      if picked.Some? && sent {
        SoundSpawn(s1.(store := DS.SetBusy(store', picked.value, t)), s.waiting[t], picked.value);
      }
    }
  }

  lemma SoundSearch(s: State, e: Event, store': DS.State, picked: Option<DriverId>, sent: bool)
    requires Keyed(s) && TimersSound(s) && e.trip != "" && Orderly(s, Search(e, None, store', picked, sent))
    ensures TimersSound(FindAndNotify(s, e, store', picked, sent))
  {
    if picked.Some? && sent {
      var s1 := s.(store := DS.SetBusy(store', picked.value, e.trip), seen := s.seen + {e.trip});
      SoundSpawn(s1, e, picked.value);
    }
  }

  /** Every step with an orderly search keeps it, the end of any context included. */
  lemma TimersSoundStep(s: State, a: Action)
    requires Keyed(s) && TimersSound(s) && Valid(s, a) && SearchOrderly(s, a)
    ensures TimersSound(Apply(s, a))
  {
    match a
    case Search(e, source, store', picked, sent) => SoundSearch(Consumed(s, source), e, store', picked, sent);
    case Fire(k, sent) => if k in s.timers { SoundFire(s, k, sent); }
    case Register(d, pkg, name, p, demo) => SoundReconnect(s, d, pkg, name, p, demo);
    case Respond(t, _, _) => SoundTake(s, t);
    case Cancel(t, _) =>
      if t in s.waiting { KeyedUnwait(s, s.waiting[t].pkg, t); }
      SoundTake(WaitingDelete(s, t), t);
    case Match(pkg, t, store', picked, sent) => SoundMatch(s, pkg, t, store', picked, sent);
    case _ =>
  }

  // ---------------------------------------------------------------- the context of a reconnect

  /** The reconnect restarts a timer exactly if the driver has an open offer. */
  lemma ReconnectSpawnsIff(s: State, d: DriverId, pkg: PackageSlug, name: string, p: DS.Point, demo: DS.Point)
    requires Keyed(s) && OneToOne(s) && OffersHeld(s)
    ensures var s' := Reconnect(s, d, pkg, name, p, demo);
            s.nextTimer in s'.timers <==> exists t :: t in s.pending && s.pending[t].driver == d
  {
    var store' := DS.RegisterDriver(s.store, d, pkg, name, p, demo);
    var t := DS.BusyTrip(s.store, d);
    if t == "" {
      DS.FreeStep(s.store, DS.Register(d, pkg, name, p, demo), store', d);
    } else {
      DS.BusyStep(s.store, DS.Register(d, pkg, name, p, demo), store', d);
    }
    assert forall u | u in s.pending && s.pending[u].driver == d :: u == t;
  }

  /** A registration after which the context of the call ends keeps every offer under its timer if and only if the
      driver had no open offer when it called. */
  lemma ReconnectKeepsTimersIff(s: State, d: DriverId, pkg: PackageSlug, name: string, p: DS.Point, demo: DS.Point)
    requires Keyed(s) && OneToOne(s) && OffersHeld(s)
    ensures var s' := Apply(Apply(s, Register(d, pkg, name, p, demo)), ContextEnds(s.nextTimer));
            OneToOne(s') <==> forall t | t in s.pending :: s.pending[t].driver != d
  {
    ReconnectKeeps(s, d, pkg, name, p, demo);
    ReconnectSpawnsIff(s, d, pkg, name, p, demo);
    ContextKeepsIff(Reconnect(s, d, pkg, name, p, demo), s.nextTimer);
  }

  /** A restarted offer: its new timer is the only one that changes. */
  lemma ExtendedOffer(s: State, t: TripId, d: DriverId)
    requires Keyed(s) && OneToOne(s) && t in s.pending && s.pending[t].driver == d && DS.BusyTrip(s.store, d) == t
    ensures var s' := Resume(s, d);
            && s'.pending == s.pending[t := Offered(s.pending[t].event, d, s.nextTimer)]
            && s'.timers == (s.timers - {s.pending[t].timer})[s.nextTimer := Timer(s.pending[t].event, d)]
  {
  }

  lemma ExtendedThenLost(s: State, t: TripId, d: DriverId)
    requires Keyed(s) && OneToOne(s) && t in s.pending && s.pending[t].driver == d && DS.BusyTrip(s.store, d) == t
    ensures var s' := Apply(Resume(s, d), ContextEnds(s.nextTimer));
            && s'.pending == s.pending[t := Offered(s.pending[t].event, d, s.nextTimer)]
            && s'.timers == s.timers - {s.pending[t].timer}
  {
    ExtendedOffer(s, t, d);
    assert s.nextTimer !in s.timers;
  }

  /** And if it had one, that offer stays open and it alone loses its timer. */
  lemma ReconnectLosesOneTimer(s: State, t: TripId, d: DriverId, pkg: PackageSlug, name: string, p: DS.Point,
                               demo: DS.Point)
    requires Keyed(s) && OneToOne(s) && OffersHeld(s) && t in s.pending && s.pending[t].driver == d
    ensures var s' := Apply(Apply(s, Register(d, pkg, name, p, demo)), ContextEnds(s.nextTimer));
            && s'.pending == s.pending[t := Offered(s.pending[t].event, d, s.nextTimer)]
            && s'.timers == s.timers - {s.pending[t].timer}
            && (forall k | k in s'.timers :: s'.timers[k].event.trip != t)
  {
    var store' := DS.RegisterDriver(s.store, d, pkg, name, p, demo);
    DS.BusyStep(s.store, DS.Register(d, pkg, name, p, demo), store', d);
    ExtendedThenLost(s.(store := store'), t, d);
  }
}
