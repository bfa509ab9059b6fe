/**
 Driver dispatch: a trip is offered to one free driver under a response timer, and then answered, timed out,
 cancelled, extended on reconnect, or queued until a driver is free. Every handler call, timer firing,
 reconnect and queue iteration is one step.
 */
module Dispatch {
  import opened Common
  import DS = DriverStore

  type TripId = DS.TripId
  type DriverId = DS.DriverId
  type PackageSlug = DS.PackageSlug
  type TimerId = nat

  /** The search message of a trip; `excluded` are the drivers that must not be asked again. */
  datatype Event = Event(trip: TripId, pkg: PackageSlug, pickup: DS.Point, excluded: seq<DriverId>)

  /** An outstanding offer and the timer its stored cancel function stops. */
  datatype Offered = Offered(event: Event, driver: DriverId, timer: TimerId)

  /** A running timer goroutine. */
  datatype Timer = Timer(event: Event, driver: DriverId)

  /** `requeued` are the search messages in flight: published by a timer, or left to the retry topics by a failed call.
      `seen` and `timedOut` remember which trips were searched for and which offers timed out. */
  datatype State = State(
    store: DS.State,
    pending: map<TripId, Offered>,
    timers: map<TimerId, Timer>,
    nextTimer: TimerId,
    waiting: map<TripId, Event>,
    index: map<PackageSlug, set<TripId>>,
    requeued: seq<Event>,
    seen: set<TripId>,
    timedOut: seq<TripId>)

  const Initial: State := State(DS.Initial, map[], map[], 0, map[], map[], [], {}, [])

  // ---------------------------------------------------------------- pieces of the handlers

  function Members(s: State, pkg: PackageSlug): set<TripId> {
    if pkg in s.index then s.index[pkg] else {}
  }

  function WaitingStore(s: State, e: Event): State {
    s.(waiting := s.waiting[e.trip := e], index := s.index[e.pkg := Members(s, e.pkg) + {e.trip}])
  }

  function IndexRemove(s: State, pkg: PackageSlug, t: TripId): State {
    s.(index := s.index[pkg := Members(s, pkg) - {t}])
  }

  function WaitingDelete(s: State, t: TripId): State {
    if t !in s.waiting then s else IndexRemove(s, s.waiting[t].pkg, t).(waiting := s.waiting - {t})
  }

  /** Stores the offer and starts its timer; an offer already stored for the trip is overwritten, its timer left
      running. */
  function SpawnTimer(s: State, e: Event, d: DriverId): State {
    s.(pending := s.pending[e.trip := Offered(e, d, s.nextTimer)],
       timers := s.timers[s.nextTimer := Timer(e, d)],
       nextTimer := s.nextTimer + 1)
  }

  function Offer(s: State, e: Event, d: DriverId): State {
    SpawnTimer(s.(store := DS.SetBusy(s.store, d, e.trip)), e, d)
  }

  /** LoadAndDelete on the offers, and the call of the stored cancel function. */
  function TakeAndCancel(s: State, t: TripId): State {
    if t !in s.pending then s else s.(pending := s.pending - {t}, timers := s.timers - {s.pending[t].timer})
  }

  // ---------------------------------------------------------------- the steps

  /** A search message is handled. `store'` and `picked` are what the ring search left and found; `sent` is whether the
      publish that follows (trip request, or no-drivers-found) succeeded. On an error the message is delivered again. */
  function FindAndNotify(s: State, e: Event, store': DS.State, picked: Option<DriverId>, sent: bool): State {
    var s1 := s.(store := store', seen := s.seen + {e.trip});
    if picked.None? then
      var s2 := WaitingStore(s1, e);
      if sent then s2 else s2.(requeued := s2.requeued + [e])
    else if sent then Offer(s1, e, picked.value)
    else s1.(requeued := s1.requeued + [e])
  }

  function Extended(e: Event, d: DriverId): Event {
    e.(excluded := e.excluded + [d])
  }

  /** Timer `k` reaches its 15 seconds. It acts only on an offer to its own driver. */
  function TimerFires(s: State, k: TimerId, sent: bool): State
    requires k in s.timers
  {
    var tm := s.timers[k];
    var t := tm.event.trip;
    var s1 := s.(timers := s.timers - {k});
    if t !in s.pending || s.pending[t].driver != tm.driver then s1
    else
      TakeAndCancel(s1, t).(
        store := DS.ClearBusy(s.store, tm.driver, t),
        requeued := if sent then s.requeued + [Extended(tm.event, tm.driver)] else s.requeued,
        timedOut := s.timedOut + [t])
  }

  function ExtendTimer(s: State, t: TripId, d: DriverId): (State, bool) {
    if t !in s.pending || s.pending[t].driver != d then (s, false)
    else (SpawnTimer(TakeAndCancel(s, t), s.pending[t].event, d), true)
  }

  /** After registering: the timer of the driver's outstanding offer restarts, any other busy marker is cleared. */
  function Resume(s: State, d: DriverId): State {
    var t := DS.BusyTrip(s.store, d);
    if t == "" then s
    else
      var (s', extended) := ExtendTimer(s, t, d);
      if extended then s' else s.(store := DS.ClearBusy(s.store, d, t))
  }

  function Reconnect(s: State, d: DriverId, pkg: PackageSlug, name: string, p: DS.Point, demo: DS.Point): State {
    Resume(s.(store := DS.RegisterDriver(s.store, d, pkg, name, p, demo)), d)
  }

  function DriverResponse(s: State, t: TripId, d: DriverId, decline: bool): State {
    var s1 := TakeAndCancel(s, t);
    if decline then s1.(store := DS.ClearBusy(s1.store, d, t)) else s1
  }

  function TripCancelled(s: State, t: TripId, d: DriverId): State {
    var s1 := WaitingDelete(s, t);
    if t in s1.pending then TakeAndCancel(s1, t).(store := DS.ClearBusy(s1.store, s1.pending[t].driver, t))
    else if d != "" then s1.(store := DS.ClearBusy(s1.store, d, t))
    else s1
  }

  function TripCompleted(s: State, t: TripId, d: DriverId): State {
    if d != "" then s.(store := DS.ClearBusy(s.store, d, t)) else s
  }

  /** One iteration over the queue of a package: claim the trip, search, and offer it or put it back. */
  function MatchOne(s: State, pkg: PackageSlug, t: TripId, store': DS.State, picked: Option<DriverId>,
      sent: bool): State {
    if t !in s.waiting then IndexRemove(s, pkg, t)
    else
      var e := s.waiting[t];
      var s1 := IndexRemove(s, pkg, t).(waiting := s.waiting - {t}, store := store');
      if picked.Some? && sent then Offer(s1, e, picked.value) else WaitingStore(s1, e)
  }

  datatype Action =
    | Search(e: Event, source: Option<nat>, store': DS.State, picked: Option<DriverId>, sent: bool)
    | Fire(k: TimerId, sent: bool)
    | Register(d: DriverId, pkg: PackageSlug, name: string, p: DS.Point, demo: DS.Point)
    | Respond(t: TripId, d: DriverId, decline: bool)
    | Cancel(t: TripId, d: DriverId)
    | Complete(t: TripId, d: DriverId)
    | Match(pkg: PackageSlug, t: TripId, store': DS.State, picked: Option<DriverId>, sent: bool)
    | WaitingExpires(t: TripId)
    | Move(d: DriverId, p: DS.Point)
    | Offline(d: DriverId)
    | HeartbeatExpires(d: DriverId)
    | ContextEnds(k: TimerId)
    | GiveUp(n: nat)
    | Restart

  /** The requeued message a search consumes, if it does; other searches are created-messages or redeliveries. */
  function Consumed(s: State, source: Option<nat>): State {
    if source.Some? && source.value < |s.requeued|
    then s.(requeued := s.requeued[..source.value] + s.requeued[source.value + 1..])
    else s
  }

  /** `GiveUp` is a message in flight that is dropped after failed retry publishes, or ends as a dead letter.
      `Restart` is the death and restart of the process: offers and timers live in its memory, the store and the queue
      do not. */
  function Apply(s: State, a: Action): State {
    match a
    case Search(e, source, store', picked, sent) => FindAndNotify(Consumed(s, source), e, store', picked, sent)
    case Fire(k, sent) => if k in s.timers then TimerFires(s, k, sent) else s
    case Register(d, pkg, name, p, demo) => Reconnect(s, d, pkg, name, p, demo)
    case Respond(t, d, decline) => DriverResponse(s, t, d, decline)
    case Cancel(t, d) => TripCancelled(s, t, d)
    case Complete(t, d) => TripCompleted(s, t, d)
    case Match(pkg, t, store', picked, sent) => MatchOne(s, pkg, t, store', picked, sent)
    case WaitingExpires(t) => s.(waiting := s.waiting - {t})
    case Move(d, p) => s.(store := DS.UpdateLocation(s.store, d, p))
    case Offline(d) => s.(store := DS.GoOffline(s.store, d))
    case HeartbeatExpires(d) => s.(store := DS.ExpireHeartbeat(s.store, d))
    case ContextEnds(k) => s.(timers := s.timers - {k})
    case GiveUp(n) => Consumed(s, Some(n))
    case Restart => s.(pending := map[], timers := map[])
  }

  function ExcludedSet(e: Event): set<DriverId> {
    set d | d in e.excluded
  }

  /** What the ring search guarantees about its effect and its first result (`HeadIsClosestEligible`). */
  ghost predicate SearchResult(store: DS.State, e: Event, store': DS.State, picked: Option<DriverId>) {
    && DS.Reaped(store, store', e.pkg)
    && (picked.Some? ==> picked.value in DS.Entries(store, e.pkg) && DS.Eligible(store, ExcludedSet(e), picked.value))
  }

  /** Trip ids are not empty, and searches return what the ring search can return. */
  ghost predicate Valid(s: State, a: Action) {
    match a
    case Search(e, source, store', picked, _) =>
      && e.trip != "" && SearchResult(s.store, e, store', picked)
      && (source.Some? ==> source.value < |s.requeued| && s.requeued[source.value] == e)
    case Match(_, t, store', picked, _) => t in s.waiting ==> SearchResult(s.store, s.waiting[t], store', picked)
    case _ => true
  }

  function Run(s: State, acts: seq<Action>): State {
    if acts == [] then s else Apply(Run(s, acts[..|acts| - 1]), acts[|acts| - 1])
  }

  ghost predicate ValidRun(acts: seq<Action>) {
    forall i | 0 <= i < |acts| :: Valid(Run(Initial, acts[..i]), acts[i])
  }

  // ---------------------------------------------------------------- offers and busy markers

  ghost predicate PendingKeyed(pending: map<TripId, Offered>) {
    forall t | t in pending :: t != "" && pending[t].event.trip == t
  }

  ghost predicate WaitingKeyed(waiting: map<TripId, Event>, index: map<PackageSlug, set<TripId>>) {
    forall t | t in waiting :: t != "" && waiting[t].trip == t && waiting[t].pkg in index && t in index[waiting[t].pkg]
  }

  ghost predicate TimersKeyed(timers: map<TimerId, Timer>, next: TimerId) {
    forall k | k in timers :: k < next && timers[k].event.trip != ""
  }

  ghost predicate EventsKeyed(events: seq<Event>) {
    forall i | 0 <= i < |events| :: events[i].trip != ""
  }

  /** Offers and waiting events are stored under their own, non-empty trip id, and every waiting trip is in the index
      of its package. */
  ghost predicate Keyed(s: State) {
    && PendingKeyed(s.pending)
    && WaitingKeyed(s.waiting, s.index)
    && TimersKeyed(s.timers, s.nextTimer)
    && EventsKeyed(s.requeued)
  }

  /** The driver of every outstanding offer is marked busy with that trip. */
  ghost predicate OffersHeld(s: State) {
    forall t | t in s.pending :: DS.BusyTrip(s.store, s.pending[t].driver) == t
  }

  /** The one step that can break it: a completed event that names the driver of a still outstanding offer. */
  predicate CompletesOffer(s: State, a: Action) {
    a.Complete? && a.d != "" && a.t in s.pending && s.pending[a.t].driver == a.d
  }

  lemma KeyedStoreAndSpawn(s: State, e: Event, d: DriverId)
    requires Keyed(s) && e.trip != ""
    ensures Keyed(WaitingStore(s, e)) && Keyed(SpawnTimer(s, e, d)) && Keyed(s.(requeued := s.requeued + [e]))
  {
  }

  lemma KeyedTake(s: State, t: TripId)
    requires Keyed(s)
    ensures Keyed(TakeAndCancel(s, t))
  {
  }

  lemma KeyedUnwait(s: State, pkg: PackageSlug, t: TripId)
    requires Keyed(s)
    ensures Keyed(IndexRemove(s, pkg, t).(waiting := s.waiting - {t}))
  {
  }

  lemma KeyedSearch(s: State, e: Event, store': DS.State, picked: Option<DriverId>, sent: bool)
    requires Keyed(s) && e.trip != ""
    ensures Keyed(FindAndNotify(s, e, store', picked, sent))
  {
    var s1 := s.(store := store', seen := s.seen + {e.trip});
    KeyedStoreAndSpawn(s1, e, "");
    if picked.Some? { KeyedStoreAndSpawn(s1.(store := DS.SetBusy(store', picked.value, e.trip)), e, picked.value); }
  }

  lemma KeyedFire(s: State, k: TimerId, sent: bool)
    requires Keyed(s) && k in s.timers
    ensures Keyed(TimerFires(s, k, sent))
  {
    var s1 := s.(timers := s.timers - {k});
    KeyedTake(s1, s.timers[k].event.trip);
  }

  lemma KeyedReconnect(s: State, d: DriverId, pkg: PackageSlug, name: string, p: DS.Point, demo: DS.Point)
    requires Keyed(s)
    ensures Keyed(Reconnect(s, d, pkg, name, p, demo))
  {
    var s1 := s.(store := DS.RegisterDriver(s.store, d, pkg, name, p, demo));
    var t := DS.BusyTrip(s1.store, d);
    if t in s1.pending {
      KeyedTake(s1, t);
      KeyedStoreAndSpawn(TakeAndCancel(s1, t), s1.pending[t].event, d);
    }
  }

  lemma KeyedMatch(s: State, pkg: PackageSlug, t: TripId, store': DS.State, picked: Option<DriverId>, sent: bool)
    requires Keyed(s)
    ensures Keyed(MatchOne(s, pkg, t, store', picked, sent))
  {
    KeyedUnwait(s, pkg, t);
    if t in s.waiting {
      var s1 := IndexRemove(s, pkg, t).(waiting := s.waiting - {t}, store := store');
      KeyedStoreAndSpawn(s1, s.waiting[t], "");
      if picked.Some? { KeyedStoreAndSpawn(s1.(store := DS.SetBusy(store', picked.value, t)), s.waiting[t],
          picked.value); }
    } else {
      assert s.waiting - {t} == s.waiting;
    }
  }

  lemma KeyedStep(s: State, a: Action)
    requires Keyed(s) && Valid(s, a)
    ensures Keyed(Apply(s, a))
  {
    match a
    case Search(e, source, store', picked, sent) => KeyedSearch(Consumed(s, source), e, store', picked, sent);
    case Fire(k, sent) => if k in s.timers { KeyedFire(s, k, sent); }
    case Register(d, pkg, name, p, demo) => KeyedReconnect(s, d, pkg, name, p, demo);
    case Match(pkg, t, store', picked, sent) => KeyedMatch(s, pkg, t, store', picked, sent);
    case Respond(t, _, _) => KeyedTake(s, t);
    case Cancel(t, _) =>
      if t in s.waiting { KeyedUnwait(s, s.waiting[t].pkg, t); }
      KeyedTake(WaitingDelete(s, t), t);
    case _ =>
  }

  lemma HeldOffer(s: State, e: Event, d: DriverId)
    requires PendingKeyed(s.pending) && OffersHeld(s) && e.trip != ""
    ensures OffersHeld(Offer(s, e, d)) <==> forall t | t in s.pending && t != e.trip :: s.pending[t].driver != d
  {
    var s' := Offer(s, e, d);
    if OffersHeld(s') {
      forall t | t in s.pending && t != e.trip ensures s.pending[t].driver != d {
        assert s'.pending[t] == s.pending[t];
      }
    }
  }

  lemma HeldSearch(s: State, e: Event, store': DS.State, picked: Option<DriverId>)
    requires PendingKeyed(s.pending) && OffersHeld(s) && e.trip != "" && SearchResult(s.store, e, store', picked)
    ensures OffersHeld(s.(store := store'))
    ensures picked.Some? ==> OffersHeld(Offer(s.(store := store'), e, picked.value))
  {
    var s1 := s.(store := store');
    forall d ensures DS.BusyTrip(store', d) == DS.BusyTrip(s.store, d) {
      DS.ReapedKeepsEligible(s.store, store', e.pkg, {}, d);
    }
    if picked.Some? { HeldOffer(s1, e, picked.value); }
  }

  lemma HeldTake(s: State, t: TripId, d: DriverId)
    requires OffersHeld(s)
    ensures OffersHeld(TakeAndCancel(s, t).(store := DS.ClearBusy(s.store, d, t))) && OffersHeld(TakeAndCancel(s, t))
  {
  }

  /** An operation that frees and marks nobody. */
  lemma HeldByStore(s: State, op: DS.Op, store': DS.State)
    requires PendingKeyed(s.pending) && OffersHeld(s) && DS.Step(s.store, op, store') && !op.Mark? && !op.Clear?
    ensures OffersHeld(s.(store := store'))
  {
    forall t | t in s.pending ensures DS.BusyTrip(store', s.pending[t].driver) == t {
      DS.BusyStep(s.store, op, store', s.pending[t].driver);
    }
  }

  lemma HeldReconnect(s: State, d: DriverId, pkg: PackageSlug, name: string, p: DS.Point, demo: DS.Point)
    requires PendingKeyed(s.pending) && OffersHeld(s)
    ensures OffersHeld(Reconnect(s, d, pkg, name, p, demo))
  {
    var store' := DS.RegisterDriver(s.store, d, pkg, name, p, demo);
    HeldByStore(s, DS.Register(d, pkg, name, p, demo), store');
    HeldReconnected(s.(store := store'), d);
  }

  lemma HeldReconnected(s1: State, d: DriverId)
    requires PendingKeyed(s1.pending) && OffersHeld(s1)
    ensures OffersHeld(Resume(s1, d))
  {
    var t := DS.BusyTrip(s1.store, d);
    if !ExtendTimer(s1, t, d).1 {
      assert forall u | u in s1.pending :: s1.pending[u].driver != d;
    }
  }

  lemma HeldComplete(s: State, t: TripId, d: DriverId)
    requires PendingKeyed(s.pending) && OffersHeld(s)
    ensures OffersHeld(TripCompleted(s, t, d)) <==> !CompletesOffer(s, Complete(t, d))
  {
    if CompletesOffer(s, Complete(t, d)) {
      assert DS.BusyTrip(TripCompleted(s, t, d).store, d) == "";
    }
  }

  lemma HeldMatch(s: State, pkg: PackageSlug, t: TripId, store': DS.State, picked: Option<DriverId>, sent: bool)
    requires Keyed(s) && OffersHeld(s) && (t in s.waiting ==> SearchResult(s.store, s.waiting[t], store', picked))
    ensures OffersHeld(MatchOne(s, pkg, t, store', picked, sent))
  {
    if t in s.waiting {
      HeldSearch(IndexRemove(s, pkg, t).(waiting := s.waiting - {t}), s.waiting[t], store', picked);
    }
  }

  lemma HeldFire(s: State, k: TimerId, sent: bool)
    requires OffersHeld(s) && k in s.timers
    ensures OffersHeld(TimerFires(s, k, sent))
  {
    HeldTake(s.(timers := s.timers - {k}), s.timers[k].event.trip, s.timers[k].driver);
  }

  /** A step keeps "every offer holds its driver" if and only if it is not a completion of an outstanding offer. */
  lemma OffersHeldStep(s: State, a: Action)
    requires Keyed(s) && Valid(s, a) && OffersHeld(s)
    ensures OffersHeld(Apply(s, a)) <==> !CompletesOffer(s, a)
  {
    match a
    case Search(e, source, store', picked, sent) =>
      HeldSearch(Consumed(s, source).(seen := s.seen + {e.trip}), e, store', picked);
    case Fire(k, sent) => if k in s.timers { HeldFire(s, k, sent); }
    case Register(d, pkg, name, p, demo) => HeldReconnect(s, d, pkg, name, p, demo);
    case Respond(t, d, _) => HeldTake(s, t, d);
    case Cancel(t, d) => HeldCancel(s, t, d);
    case Complete(t, d) => HeldComplete(s, t, d);
    case Match(pkg, t, store', picked, sent) => HeldMatch(s, pkg, t, store', picked, sent);
    case Move(d, p) => HeldByStore(s, DS.Move(d, p), Apply(s, a).store);
    case Offline(d) => HeldByStore(s, DS.Offline(d), Apply(s, a).store);
    case HeartbeatExpires(d) => HeldByStore(s, DS.Expire(d), Apply(s, a).store);
    case _ =>
  }

  lemma HeldCancel(s: State, t: TripId, d: DriverId)
    requires OffersHeld(s)
    ensures OffersHeld(TripCancelled(s, t, d))
  {
    HeldTake(WaitingDelete(s, t), t, if t in s.pending then s.pending[t].driver else d);
  }

  /** No completed event arrives for an offer that is still outstanding. */
  ghost predicate NoEarlyCompletion(acts: seq<Action>) {
    forall i | 0 <= i < |acts| :: !CompletesOffer(Run(Initial, acts[..i]), acts[i])
  }

  lemma ValidPrefix(acts: seq<Action>)
    requires ValidRun(acts) && acts != []
    ensures var n := |acts| - 1; ValidRun(acts[..n]) && Valid(Run(Initial, acts[..n]), acts[n])
    ensures NoEarlyCompletion(acts) ==> NoEarlyCompletion(acts[..|acts| - 1])
  {
    var n := |acts| - 1;
    forall i | 0 <= i < n
      ensures Valid(Run(Initial, acts[..n][..i]), acts[..n][i])
      ensures NoEarlyCompletion(acts) ==> !CompletesOffer(Run(Initial, acts[..n][..i]), acts[..n][i])
    {
      assert acts[..n][..i] == acts[..i];
    }
  }

  lemma {:induction false} KeyedRun(acts: seq<Action>)
    requires ValidRun(acts)
    ensures Keyed(Run(Initial, acts))
  {
    if acts != [] {
      ValidPrefix(acts);
      KeyedRun(acts[..|acts| - 1]);
      KeyedStep(Run(Initial, acts[..|acts| - 1]), acts[|acts| - 1]);
    }
  }

  lemma {:induction false} OffersHeldRun(acts: seq<Action>)
    requires ValidRun(acts) && NoEarlyCompletion(acts)
    ensures OffersHeld(Run(Initial, acts))
  {
    if acts != [] {
      ValidPrefix(acts);
      OffersHeldRun(acts[..|acts| - 1]);
      KeyedRun(acts[..|acts| - 1]);
      OffersHeldStep(Run(Initial, acts[..|acts| - 1]), acts[|acts| - 1]);
    }
  }

  /** In every reachable state an outstanding offer marks its driver busy with that trip, so no driver ever holds two.
      */
  lemma {:induction false} NoDriverHoldsTwoOffers(acts: seq<Action>, t1: TripId, t2: TripId)
    requires ValidRun(acts) && NoEarlyCompletion(acts)
    ensures var s := Run(Initial, acts);
            t1 in s.pending && t2 in s.pending ==>
              && DS.BusyTrip(s.store, s.pending[t1].driver) == t1
              && (s.pending[t1].driver == s.pending[t2].driver ==> t1 == t2)
  {
    OffersHeldRun(acts);
  }

  /** After a reconnect the driver is marked busy exactly for an outstanding offer: with a trip it has already accepted,
      and is still driving, it becomes free. */
  lemma ReconnectKeepsOnlyOffers(s: State, d: DriverId, pkg: PackageSlug, name: string, p: DS.Point, demo: DS.Point)
    requires PendingKeyed(s.pending)
    ensures var t := DS.BusyTrip(s.store, d);
            DS.BusyTrip(Reconnect(s, d, pkg, name, p, demo).store, d) == if t in s.pending && s.pending[t].driver == d
                then t else ""
  {
    var store' := DS.RegisterDriver(s.store, d, pkg, name, p, demo);
    if DS.BusyTrip(s.store, d) == "" {
      DS.FreeStep(s.store, DS.Register(d, pkg, name, p, demo), store', d);
    } else {
      DS.BusyStep(s.store, DS.Register(d, pkg, name, p, demo), store', d);
    }
  }

  /** A driver that accepts an offer and then reconnects is free again in the middle of its trip. */
  lemma AcceptedThenReconnected(s: State, t: TripId, d: DriverId, pkg: PackageSlug, name: string, p: DS.Point,
      demo: DS.Point)
    requires PendingKeyed(s.pending) && OffersHeld(s) && t in s.pending && s.pending[t].driver == d
    ensures var accepted := DriverResponse(s, t, d, false);
            && DS.BusyTrip(accepted.store, d) == t
            && DS.BusyTrip(Reconnect(accepted, d, pkg, name, p, demo).store, d) == ""
  {
    ReconnectKeepsOnlyOffers(DriverResponse(s, t, d, false), d, pkg, name, p, demo);
  }

  // ---------------------------------------------------------------- what a restart leaves behind

  /** The driver is marked with trip `t`, which is not on offer to it: it accepted the trip, or a restart lost the
      offer. */
  predicate MarkedWithoutOffer(s: State, d: DriverId, t: TripId) {
    t != "" && DS.BusyTrip(s.store, d) == t && !(t in s.pending && s.pending[t].driver == d)
  }

  /** The steps that free such a driver: its reconnect, its decline, a completed event, or a cancel of a trip not on
      offer. */
  predicate FreesMarked(s: State, a: Action, d: DriverId, t: TripId) {
    match a
    case Register(x, _, _, _, _) => x == d
    case Respond(u, x, decline) => decline && u == t && x == d
    case Cancel(u, x) => u == t && x == d && d != "" && t !in s.pending
    case Complete(u, x) => u == t && x == d && d != ""
    case _ => false
  }

  /** A restart leaves every busy marker, and no offer to any of the marked drivers. */
  lemma RestartStrandsMarkers(s: State, d: DriverId)
    ensures var s' := Apply(s, Restart);
            && s'.store == s.store && s'.waiting == s.waiting && s'.requeued == s.requeued
            && (DS.BusyTrip(s.store, d) != "" ==> MarkedWithoutOffer(s', d, DS.BusyTrip(s.store, d)))
  {
  }

  lemma SearchKeepsMarked(s: State, e: Event, store': DS.State, picked: Option<DriverId>, d: DriverId)
    requires SearchResult(s.store, e, store', picked) && DS.BusyTrip(s.store, d) != ""
    ensures DS.BusyTrip(store', d) == DS.BusyTrip(s.store, d) && picked != Some(d)
  {
    DS.ReapedKeepsEligible(s.store, store', e.pkg, {}, d);
  }

  lemma MarkedOverOffer(s: State, e: Event, x: DriverId, d: DriverId, t: TripId)
    requires MarkedWithoutOffer(s, d, t) && x != d
    ensures MarkedWithoutOffer(Offer(s, e, x), d, t)
  {
  }

  lemma MarkedOverSearch(s: State, e: Event, store': DS.State, picked: Option<DriverId>, sent: bool, d: DriverId,
      t: TripId)
    requires SearchResult(s.store, e, store', picked) && MarkedWithoutOffer(s, d, t)
    ensures MarkedWithoutOffer(FindAndNotify(s, e, store', picked, sent), d, t)
  {
    SearchKeepsMarked(s, e, store', picked, d);
    var s1 := s.(store := store', seen := s.seen + {e.trip});
    assert MarkedWithoutOffer(s1, d, t);
    if picked.Some? { MarkedOverOffer(s1, e, picked.value, d, t); }
  }

  lemma MarkedOverMatch(s: State, pkg: PackageSlug, u: TripId, store': DS.State, picked: Option<DriverId>, sent: bool,
                        d: DriverId, t: TripId)
    requires MarkedWithoutOffer(s, d, t) && (u in s.waiting ==> SearchResult(s.store, s.waiting[u], store', picked))
    ensures MarkedWithoutOffer(MatchOne(s, pkg, u, store', picked, sent), d, t)
  {
    if u in s.waiting {
      SearchKeepsMarked(s, s.waiting[u], store', picked, d);
      var s1 := IndexRemove(s, pkg, u).(waiting := s.waiting - {u}, store := store');
      assert MarkedWithoutOffer(s1, d, t);
      if picked.Some? { MarkedOverOffer(s1, s.waiting[u], picked.value, d, t); }
    }
  }

  lemma MarkedOverResume(s: State, x: DriverId, d: DriverId, t: TripId)
    requires PendingKeyed(s.pending) && MarkedWithoutOffer(s, d, t) && x != d
    ensures MarkedWithoutOffer(Resume(s, x), d, t)
  {
  }

  lemma MarkedOverReconnect(s: State, x: DriverId, pkg: PackageSlug, name: string, p: DS.Point, demo: DS.Point,
                            d: DriverId, t: TripId)
    requires PendingKeyed(s.pending) && MarkedWithoutOffer(s, d, t)
    ensures var s' := Reconnect(s, x, pkg, name, p, demo);
            if x == d then DS.BusyTrip(s'.store, d) == "" else MarkedWithoutOffer(s', d, t)
  {
    if x == d {
      ReconnectKeepsOnlyOffers(s, d, pkg, name, p, demo);
    } else {
      var store' := DS.RegisterDriver(s.store, x, pkg, name, p, demo);
      DS.BusyStep(s.store, DS.Register(x, pkg, name, p, demo), store', d);
      MarkedOverResume(s.(store := store'), x, d, t);
    }
  }

  lemma MarkedOverFire(s: State, k: TimerId, sent: bool, d: DriverId, t: TripId)
    requires k in s.timers && MarkedWithoutOffer(s, d, t)
    ensures MarkedWithoutOffer(TimerFires(s, k, sent), d, t)
  {
  }

  lemma MarkedOverRespond(s: State, u: TripId, x: DriverId, decline: bool, d: DriverId, t: TripId)
    requires MarkedWithoutOffer(s, d, t)
    ensures var s' := DriverResponse(s, u, x, decline);
            if decline && u == t && x == d then DS.BusyTrip(s'.store, d) == "" else MarkedWithoutOffer(s', d, t)
  {
  }

  lemma MarkedOverCancel(s: State, u: TripId, x: DriverId, d: DriverId, t: TripId)
    requires MarkedWithoutOffer(s, d, t)
    ensures var s' := TripCancelled(s, u, x);
            if u == t && x == d && d != "" && t !in s.pending then DS.BusyTrip(s'.store, d) == ""
            else MarkedWithoutOffer(s', d, t)
  {
    var s1 := WaitingDelete(s, u);
    assert s1.store == s.store && s1.pending == s.pending;
    if u in s.pending {
      MarkedOverRespond(s1, u, s.pending[u].driver, true, d, t);
    } else {
      assert TripCancelled(s, u, x) == if x != "" then s1.(store := DS.ClearBusy(s1.store, x, u)) else s1;
    }
  }

  lemma MarkedOverStore(s: State, op: DS.Op, store': DS.State, d: DriverId, t: TripId)
    requires MarkedWithoutOffer(s, d, t) && DS.Step(s.store, op, store') && !op.Mark? && !op.Clear?
    ensures MarkedWithoutOffer(s.(store := store'), d, t)
  {
    DS.BusyStep(s.store, op, store', d);
  }

  lemma MarkedOverRest(s: State, a: Action, d: DriverId, t: TripId)
    requires MarkedWithoutOffer(s, d, t)
    requires !a.Search? && !a.Match? && !a.Register? && !a.Fire? && !a.Respond? && !a.Cancel?
    ensures if FreesMarked(s, a, d, t) then DS.BusyTrip(Apply(s, a).store, d) == ""
            else MarkedWithoutOffer(Apply(s, a), d, t)
  {
    match a
    case Move(x, p) => MarkedOverStore(s, DS.Move(x, p), Apply(s, a).store, d, t);
    case Offline(x) => MarkedOverStore(s, DS.Offline(x), Apply(s, a).store, d, t);
    case HeartbeatExpires(x) => MarkedOverStore(s, DS.Expire(x), Apply(s, a).store, d, t);
    case Complete(_, _) =>
    case WaitingExpires(_) =>
    case ContextEnds(_) =>
    case GiveUp(_) =>
    case Restart =>
  }

  /** A driver marked without an offer is freed by a step if and only if the step is one of the four; otherwise it stays
      marked, and no step offers it its own trip. */
  lemma MarkedUntilFreed(s: State, a: Action, d: DriverId, t: TripId)
    requires Keyed(s) && Valid(s, a) && MarkedWithoutOffer(s, d, t)
    ensures if FreesMarked(s, a, d, t) then DS.BusyTrip(Apply(s, a).store, d) == ""
            else MarkedWithoutOffer(Apply(s, a), d, t)
  {
    match a
    case Search(e, source, store', picked, sent) => MarkedOverSearch(Consumed(s, source), e, store', picked, sent, d,
        t);
    case Match(pkg, u, store', picked, sent) => MarkedOverMatch(s, pkg, u, store', picked, sent, d, t);
    case Register(x, pkg, name, p, demo) => MarkedOverReconnect(s, x, pkg, name, p, demo, d, t);
    case Fire(k, sent) => if k in s.timers { MarkedOverFire(s, k, sent, d, t); }
    case Respond(u, x, decline) => MarkedOverRespond(s, u, x, decline, d, t);
    case Cancel(u, x) => MarkedOverCancel(s, u, x, d, t);
    case _ => MarkedOverRest(s, a, d, t);
  }

  ghost predicate FreesAt(acts: seq<Action>, j: nat, d: DriverId, t: TripId)
    requires j < |acts|
  {
    FreesMarked(Run(Initial, acts[..j]), acts[j], d, t)
  }

  ghost predicate NotFreedFrom(acts: seq<Action>, i: nat, d: DriverId, t: TripId) {
    forall j | i <= j < |acts| :: !FreesAt(acts, j, d, t)
  }

  lemma {:induction false} NotFreedPrefix(acts: seq<Action>, i: nat, d: DriverId, t: TripId)
    requires i < |acts| && NotFreedFrom(acts, i, d, t)
    ensures var n := |acts| - 1;
            NotFreedFrom(acts[..n], i, d, t) && !FreesMarked(Run(Initial, acts[..n]), acts[n], d, t)
                && acts[..n][..i] == acts[..i]
  {
    var n := |acts| - 1;
    forall j | i <= j < n ensures !FreesAt(acts[..n], j, d, t) {
      assert acts[..n][..j] == acts[..j];
      assert !FreesAt(acts, j, d, t);
    }
    assert !FreesAt(acts, n, d, t);
  }

  /** Over whole runs: a marker without an offer stays until the first step that frees it. */
  lemma {:induction false} MarkedThroughout(acts: seq<Action>, i: nat, d: DriverId, t: TripId)
    requires ValidRun(acts) && i <= |acts| && MarkedWithoutOffer(Run(Initial, acts[..i]), d, t)
    requires NotFreedFrom(acts, i, d, t)
    ensures MarkedWithoutOffer(Run(Initial, acts), d, t)
    decreases |acts|
  {
    if i == |acts| {
      assert acts[..i] == acts;
    } else {
      var before := acts[..|acts| - 1];
      ValidPrefix(acts);
      NotFreedPrefix(acts, i, d, t);
      MarkedThroughout(before, i, d, t);
      KeyedRun(before);
      MarkedUntilFreed(Run(Initial, before), acts[|acts| - 1], d, t);
    }
  }

  /** The search and the marking must not be separated: when two searches pick the same driver before either marks it,
      the second offer breaks the first, and that is the only way an offer can break one. */
  lemma OverlappingSearchesBreakIt(s: State, e1: Event, e2: Event, d: DriverId)
    requires Keyed(s) && OffersHeld(s) && e1.trip != "" && e2.trip != "" && e1.trip != e2.trip
        && DS.BusyTrip(s.store, d) == ""
    ensures OffersHeld(Offer(s, e1, d)) && !OffersHeld(Offer(Offer(s, e1, d), e2, d))
  {
    HeldOffer(s, e1, d);
    HeldOffer(Offer(s, e1, d), e2, d);
    assert Offer(s, e1, d).pending[e1.trip].driver == d;
  }
}
