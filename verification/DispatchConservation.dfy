/**
 When dispatch loses a trip: a trip that was searched for stays in flight, waiting or on offer until an answer, a
 cancel, the expiry of its waiting entry, a timeout whose search message could not be published, a search message that
 is given up, or a restart while it is on offer.
 */
module DispatchConservation {
  import opened Common
  import opened Dispatch
  import opened DispatchTimers
  import opened DispatchExclusion
  import DS = DriverStore

  predicate InFlight(events: seq<Event>, t: TripId) {
    exists i :: 0 <= i < |events| && events[i].trip == t
  }

  predicate Somewhere(s: State, t: TripId) {
    t in s.pending || t in s.waiting || InFlight(s.requeued, t)
  }

  /** The steps that end the search of trip `t`. The publish error of a timer is ignored, so it is one of them. */
  predicate Ends(s: State, a: Action, t: TripId) {
    match a
    case Respond(u, _, _) => u == t && t in s.pending
    case Cancel(u, _) => u == t && (t in s.pending || t in s.waiting)
    case WaitingExpires(u) => u == t && t in s.waiting
    case Fire(k, sent) => !sent && k in s.timers && s.timers[k].event.trip == t
    case GiveUp(n) => n < |s.requeued| && s.requeued[n].trip == t
    case Restart => t in s.pending
    case _ => false
  }

  lemma Appended(events: seq<Event>, e: Event, t: TripId)
    ensures InFlight(events + [e], t) <==> InFlight(events, t) || e.trip == t
  {
    assert (events + [e])[|events|] == e;
    forall i | 0 <= i < |events| ensures (events + [e])[i] == events[i] {}
  }

  lemma Removed(events: seq<Event>, n: nat, t: TripId)
    requires n < |events|
    ensures InFlight(events, t) <==> InFlight(events[..n] + events[n + 1..], t) || events[n].trip == t
  {
    var rest := events[..n] + events[n + 1..];
    forall i | 0 <= i < |rest| ensures rest[i] == events[if i < n then i else i + 1] {}
    forall i | 0 <= i < |events| && i != n ensures events[i] == rest[if i < n then i else i - 1] {}
  }

  /** A search puts its trip somewhere, and no other trip anywhere else. */
  lemma SearchPlaces(s: State, e: Event, store': DS.State, picked: Option<DriverId>, sent: bool, t: TripId)
    ensures Somewhere(FindAndNotify(s, e, store', picked, sent), t) <==> Somewhere(s, t) || t == e.trip
  {
    Appended(s.requeued, e, t);
  }

  lemma SearchConserves(s: State, e: Event, source: Option<nat>, store': DS.State, picked: Option<DriverId>, sent: bool,
      t: TripId)
    requires source.Some? ==> source.value < |s.requeued| && s.requeued[source.value] == e
    ensures Somewhere(Apply(s, Search(e, source, store', picked, sent)), t) <==> Somewhere(s, t) || t == e.trip
  {
    if source.Some? { Removed(s.requeued, source.value, t); }
    SearchPlaces(Consumed(s, source), e, store', picked, sent, t);
  }

  lemma FireConserves(s: State, k: TimerId, sent: bool, t: TripId)
    requires TimersSound(s) && OnePlace(s) && k in s.timers
    ensures Somewhere(TimerFires(s, k, sent), t) <==> Somewhere(s, t) && (sent || s.timers[k].event.trip != t)
  {
    var tm := s.timers[k];
    Appended(s.requeued, Extended(tm.event, tm.driver), t);
    assert tm.event.trip in s.pending && s.pending[tm.event.trip].driver == tm.driver;
  }

  lemma MatchConserves(s: State, pkg: PackageSlug, u: TripId, store': DS.State, picked: Option<DriverId>, sent: bool,
      t: TripId)
    requires Keyed(s)
    ensures Somewhere(MatchOne(s, pkg, u, store', picked, sent), t) <==> Somewhere(s, t)
  {
  }

  lemma ReconnectConserves(s: State, d: DriverId, pkg: PackageSlug, name: string, p: DS.Point, demo: DS.Point,
      t: TripId)
    requires PendingKeyed(s.pending)
    ensures Somewhere(Reconnect(s, d, pkg, name, p, demo), t) <==> Somewhere(s, t)
  {
  }

  lemma ResponseConserves(s: State, u: TripId, d: DriverId, decline: bool, t: TripId)
    requires TimersSound(s) && OnePlace(s)
    ensures Somewhere(DriverResponse(s, u, d, decline), t) <==> Somewhere(s, t) && !(u == t && t in s.pending)
  {
  }

  lemma CancelConserves(s: State, u: TripId, d: DriverId, t: TripId)
    requires TimersSound(s) && OnePlace(s)
    ensures Somewhere(TripCancelled(s, u, d), t) <==> Somewhere(s, t) && !(u == t && (t in s.pending || t in s.waiting))
  {
  }

  lemma GiveUpConserves(s: State, n: nat, t: TripId)
    requires OnePlace(s)
    ensures Somewhere(Consumed(s, Some(n)), t) <==> Somewhere(s, t) && !(n < |s.requeued| && s.requeued[n].trip == t)
  {
    if n < |s.requeued| {
      Removed(s.requeued, n, t);
      var rest := s.requeued[..n] + s.requeued[n + 1..];
      forall i | 0 <= i < |rest| ensures rest[i].trip != s.requeued[n].trip {
        assert rest[i] == s.requeued[if i < n then i else i + 1];
      }
    }
  }

  lemma RestartConserves(s: State, t: TripId)
    requires NotBoth(s.pending, s.waiting) && OnePlace(s)
    ensures Somewhere(Apply(s, Restart), t) <==> Somewhere(s, t) && t !in s.pending
  {
  }

  /** A trip that is somewhere leaves in a step if and only if the step ends its search. */
  lemma LeavesIffEnds(s: State, a: Action, t: TripId)
    requires Keyed(s) && TimersSound(s) && OnePlace(s) && Valid(s, a) && Somewhere(s, t)
    ensures Somewhere(Apply(s, a), t) <==> !Ends(s, a, t)
  {
    match a
    case Search(e, source, store', picked, sent) => SearchConserves(s, e, source, store', picked, sent, t);
    case Fire(k, sent) => if k in s.timers { FireConserves(s, k, sent, t); }
    case Register(d, pkg, name, p, demo) => ReconnectConserves(s, d, pkg, name, p, demo, t);
    case Respond(u, d, decline) => ResponseConserves(s, u, d, decline, t);
    case Cancel(u, d) => CancelConserves(s, u, d, t);
    case Match(pkg, u, store', picked, sent) => MatchConserves(s, pkg, u, store', picked, sent, t);
    case WaitingExpires(_) =>
    case Complete(_, _) =>
    case Move(_, _) =>
    case Offline(_) =>
    case HeartbeatExpires(_) =>
    case ContextEnds(_) =>
    case GiveUp(n) => GiveUpConserves(s, n, t);
    case Restart => RestartConserves(s, t);
  }

  /** Only a first search brings a trip in; one that has left does not come back. */
  lemma GoneStaysGone(s: State, a: Action, t: TripId, pool: set<DriverId>)
    requires Keyed(s) && TimersSound(s) && OnePlace(s) && Valid(s, a) && Undisturbed(s, a, pool)
    requires !Somewhere(s, t) && !(a.Search? && a.e.trip == t)
    ensures !Somewhere(Apply(s, a), t)
  {
    match a
    case Search(e, source, store', picked, sent) => SearchConserves(s, e, source, store', picked, sent, t);
    case Fire(k, sent) => if k in s.timers { FireConserves(s, k, sent, t); }
    case Register(d, pkg, name, p, demo) => ReconnectConserves(s, d, pkg, name, p, demo, t);
    case Respond(u, d, decline) => ResponseConserves(s, u, d, decline, t);
    case Cancel(u, d) => CancelConserves(s, u, d, t);
    case Match(pkg, u, store', picked, sent) => MatchConserves(s, pkg, u, store', picked, sent, t);
    case WaitingExpires(_) =>
    case Complete(_, _) =>
    case Move(_, _) =>
    case Offline(_) =>
    case HeartbeatExpires(_) =>
    case ContextEnds(_) =>
    case GiveUp(n) => GiveUpConserves(s, n, t);
    case Restart => RestartConserves(s, t);
  }

  lemma SeenStep(s: State, a: Action)
    ensures Apply(s, a).seen == if a.Search? then s.seen + {a.e.trip} else s.seen
  {
  }

  // ---------------------------------------------------------------- whole runs

  ghost predicate EndsAt(acts: seq<Action>, i: nat, t: TripId)
    requires i < |acts|
  {
    Ends(Run(Initial, acts[..i]), acts[i], t)
  }

  ghost predicate NeverEnded(acts: seq<Action>, t: TripId) {
    forall i | 0 <= i < |acts| :: !EndsAt(acts, i, t)
  }

  lemma {:induction false} NeverEndedPrefix(acts: seq<Action>, t: TripId)
    requires acts != []
    ensures var n := |acts| - 1; NeverEnded(acts, t) <==>
          NeverEnded(acts[..n], t)
          && !Ends(Run(Initial, acts[..n]), acts[n], t)
  {
    var n := |acts| - 1;
    forall i | 0 <= i < n ensures EndsAt(acts[..n], i, t) <==> EndsAt(acts, i, t) {
      assert acts[..n][..i] == acts[..i];
    }
    assert EndsAt(acts, n, t) <==> Ends(Run(Initial, acts[..n]), acts[n], t);
  }

  /** A step on trip `t` that is not a search of an unseen trip can only end the search of a trip that is somewhere. */
  lemma EndsNeedsPlace(s: State, a: Action, t: TripId)
    requires TimersSound(s) && Ends(s, a, t)
    ensures Somewhere(s, t) && !a.Search?
  {
  }

  /** In runs that nothing disturbs, a trip that was searched for is in flight, waiting or on offer if and only if no
      step ended its search; a trip that was not is nowhere. */
  lemma {:induction false} TripLostIffEnded(acts: seq<Action>, pool: set<DriverId>, t: TripId)
    requires ValidRun(acts) && UndisturbedRun(acts, pool)
    ensures var s := Run(Initial, acts); Somewhere(s, t) <==> t in s.seen && NeverEnded(acts, t)
    ensures t !in Run(Initial, acts).seen ==> NeverEnded(acts, t)
  {
    if acts != [] {
      var before, a := acts[..|acts| - 1], acts[|acts| - 1];
      var s := Run(Initial, before);
      ValidPrefix(acts);
      UndisturbedPrefix(acts, pool);
      NeverEndedPrefix(acts, t);
      TripLostIffEnded(before, pool, t);
      InvRun(before, pool);
      SeenStep(s, a);
      if Ends(s, a, t) { EndsNeedsPlace(s, a, t); }
      TripStep(s, a, pool, t);
    }
  }

  lemma TripStep(s: State, a: Action, pool: set<DriverId>, t: TripId)
    requires Inv(s, pool, map[]) && Valid(s, a) && Undisturbed(s, a, pool)
    ensures Somewhere(s, t) ==> (Somewhere(Apply(s, a), t) <==> !Ends(s, a, t))
    ensures !Somewhere(s, t) ==> (Somewhere(Apply(s, a), t) <==> a.Search? && a.e.trip == t && t !in s.seen)
  {
    if Somewhere(s, t) {
      LeavesIffEnds(s, a, t);
    } else if a.Search? && a.e.trip == t {
      SearchConserves(s, a.e, a.source, a.store', a.picked, a.sent, t);
    } else {
      GoneStaysGone(s, a, t, pool);
    }
  }

  // ---------------------------------------------------------------- ends leave nothing behind

  /** Nothing about the other trips changed. */
  ghost predicate OthersUntouched(s: State, s': State, t: TripId) {
    && (forall u | u != t ::
          (u in s'.pending <==> u in s.pending)
          && (u in s.pending ==> s'.pending[u] == s.pending[u]))
    && (forall u | u != t ::
          (u in s'.waiting <==> u in s.waiting)
          && (u in s.waiting ==> s'.waiting[u] == s.waiting[u]))
    && (forall k | k in s.timers && s.timers[k].event.trip != t :: k in s'.timers && s'.timers[k] == s.timers[k])
    && s'.requeued == s.requeued
    && forall d | DS.BusyTrip(s.store, d) != t :: DS.BusyTrip(s'.store, d) == DS.BusyTrip(s.store, d)
  }

  ghost predicate NoTimer(s: State, t: TripId) {
    forall k | k in s.timers :: s.timers[k].event.trip != t
  }

  lemma TakeLeavesNothing(s: State, t: TripId)
    requires Keyed(s) && TimersSound(s)
    ensures var s' := TakeAndCancel(s, t);
            && t !in s'.pending && NoTimer(s', t) && OthersUntouched(s, s', t)
            && s'.waiting == s.waiting && s'.index == s.index && s'.store == s.store
  {
    SoundTake(s, t);
  }

  lemma ClearTouchesHolder(store: DS.State, d: DriverId, t: TripId)
    ensures var store' := DS.ClearBusy(store, d, t);
            && (forall x | DS.BusyTrip(store, x) != t || x != d :: DS.BusyTrip(store', x) == DS.BusyTrip(store, x))
            && (DS.BusyTrip(store, d) == t ==> DS.BusyTrip(store', d) == "")
  {
  }

  lemma UntouchedByClear(s: State, mid: State, store': DS.State, t: TripId)
    requires OthersUntouched(s, mid, t)
    requires forall x | DS.BusyTrip(mid.store, x) != t :: DS.BusyTrip(store', x) == DS.BusyTrip(mid.store, x)
    ensures OthersUntouched(s, mid.(store := store'), t)
  {
  }

  lemma UnwaitLeavesOthers(s: State, t: TripId)
    requires Keyed(s) && TimersSound(s)
    ensures var s' := WaitingDelete(s, t);
            && Keyed(s') && TimersSound(s') && t !in s'.waiting && OthersUntouched(s, s', t) && s'.pending == s.pending
                && s'.store == s.store
            && (t in s.waiting ==> t !in Members(s', s.waiting[t].pkg))
  {
    if t in s.waiting { KeyedUnwait(s, s.waiting[t].pkg, t); }
  }

  lemma UntouchedTwice(s: State, mid: State, s': State, t: TripId)
    requires OthersUntouched(s, mid, t) && OthersUntouched(mid, s', t)
    requires mid.store == s.store
    ensures OthersUntouched(s, s', t)
  {
  }

  /** A cancelled trip leaves neither offer nor timer nor queue entry, frees the driver on offer, or else the driver the
      event names, and disturbs no other trip. */
  lemma CancelLeavesNothing(s: State, t: TripId, d: DriverId)
    requires Keyed(s) && TimersSound(s) && OffersHeld(s)
    ensures var s' := TripCancelled(s, t, d);
            && t !in s'.pending && t !in s'.waiting && NoTimer(s', t) && OthersUntouched(s, s', t)
            && (t in s.waiting ==> t !in Members(s', s.waiting[t].pkg))
            && (t in s.pending ==> DS.BusyTrip(s'.store, s.pending[t].driver) == "")
            && (t !in s.pending && d != "" && DS.BusyTrip(s.store, d) == t ==> DS.BusyTrip(s'.store, d) == "")
  {
    var s1 := WaitingDelete(s, t);
    var s2 := TakeAndCancel(s1, t);
    UnwaitLeavesOthers(s, t);
    TakeLeavesNothing(s1, t);
    UntouchedTwice(s, s1, s2, t);
    var named := if t in s.pending then s.pending[t].driver else d;
    ClearTouchesHolder(s.store, named, t);
    UntouchedByClear(s, s2, DS.ClearBusy(s.store, named, t), t);
  }

  /** An answer closes the offer and its timer. An accept keeps the driver marked with the trip, its own decline frees
      it; an answer that names another driver closes the offer too, but does not free the driver on offer. */
  lemma ResponseClosesOffer(s: State, t: TripId, d: DriverId, decline: bool)
    requires Keyed(s) && TimersSound(s) && OffersHeld(s) && t in s.pending
    ensures var s', holder := DriverResponse(s, t, d, decline), s.pending[t].driver;
            && t !in s'.pending && NoTimer(s', t) && OthersUntouched(s, s', t) && s'.waiting == s.waiting
            && DS.BusyTrip(s'.store, holder) == if decline && d == holder then "" else t
  {
    TakeLeavesNothing(s, t);
    ClearTouchesHolder(s.store, d, t);
    UntouchedByClear(s, TakeAndCancel(s, t), DS.ClearBusy(s.store, d, t), t);
  }
}
