/**
 Where the events of dispatch come from: whatever happens to a trip, its event asks for the package and the pickup of
 its first search, and its exclusion list is the drivers that let its offers time out, in order.
 */
module DispatchOrigin {
  import opened Common
  import opened Dispatch
  import opened DispatchTimers
  import opened DispatchExclusion
  import opened DispatchConservation
  import DS = DriverStore

  // ---------------------------------------------------------------- what a search leaves

  /** Whether the search left an offer, a queue entry, a message to deliver again, or a queue entry and a message; and
      nothing else, for no other trip and no other driver. */
  lemma SearchEffect(s: State, e: Event, store': DS.State, picked: Option<DriverId>, sent: bool)
    requires SearchResult(s.store, e, store', picked) && e.trip != ""
    ensures var s' := FindAndNotify(s, e, store', picked, sent);
            && (if picked.Some? && sent then
                  && e.trip in s'.pending && s'.pending[e.trip].event == e && s'.pending[e.trip].driver == picked.value
                  && s'.pending[e.trip].timer == s.nextTimer
                  && s'.timers == s.timers[s.nextTimer := Timer(e, picked.value)]
                  && s'.pending - {e.trip} == s.pending - {e.trip}
                else s'.pending == s.pending && s'.timers == s.timers)
            && s'.waiting == (if picked.None? then s.waiting[e.trip := e] else s.waiting)
            && s'.requeued == (if sent then s.requeued else s.requeued + [e])
            && (forall d :: DS.BusyTrip(s'.store, d) ==
                  if picked == Some(d) && sent then e.trip else DS.BusyTrip(s.store, d))
  {
    forall d ensures DS.BusyTrip(store', d) == DS.BusyTrip(s.store, d) {
      DS.ReapedKeepsEligible(s.store, store', e.pkg, {}, d);
    }
  }

  /** A search that fails is delivered again unchanged: its own event is the newest message in flight. */
  lemma FailedSearchComesBack(s: State, e: Event, store': DS.State, picked: Option<DriverId>)
    ensures var s' := FindAndNotify(s, e, store', picked, false);
            && |s'.requeued| == |s.requeued| + 1 && s'.requeued[|s.requeued|] == e && s.requeued <= s'.requeued
            && s'.pending == s.pending && s'.timers == s.timers
            && (e.trip in s'.waiting <==> e.trip in s.waiting || picked.None?)
  {
  }

  // ---------------------------------------------------------------- every event of a trip

  /** Every event of trip `t`, in flight, waiting, on offer or under a timer, satisfies `ok`. */
  ghost predicate AllOk(s: State, t: TripId, ok: Event -> bool) {
    && (forall i | 0 <= i < |s.requeued| && s.requeued[i].trip == t :: ok(s.requeued[i]))
    && (forall u | u in s.waiting && s.waiting[u].trip == t :: ok(s.waiting[u]))
    && (forall u | u in s.pending && s.pending[u].event.trip == t :: ok(s.pending[u].event))
    && (forall k | k in s.timers && s.timers[k].event.trip == t :: ok(s.timers[k].event))
  }

  /** The timer `k` fires on the offer of trip `t`. */
  predicate TimesOut(s: State, a: Action, t: TripId) {
    && a.Fire? && a.k in s.timers && s.timers[a.k].event.trip == t
    && t in s.pending && s.pending[t].driver == s.timers[a.k].driver
  }

  lemma ConsumedKeepsOk(s: State, source: Option<nat>, t: TripId, ok: Event -> bool)
    requires AllOk(s, t, ok)
    ensures AllOk(Consumed(s, source), t, ok)
  {
    var s1 := Consumed(s, source);
    if source.Some? && source.value < |s.requeued| {
      var n := source.value;
      forall i | 0 <= i < |s1.requeued| ensures s1.requeued[i] == s.requeued[if i < n then i else i + 1] {}
    }
  }

  lemma FindKeepsOk(s: State, e: Event, store': DS.State, picked: Option<DriverId>, sent: bool, t: TripId,
      ok: Event -> bool)
    requires AllOk(s, t, ok) && (e.trip == t ==> ok(e))
    ensures AllOk(FindAndNotify(s, e, store', picked, sent), t, ok)
  {
  }

  lemma FireKeepsOk(s: State, k: TimerId, sent: bool, t: TripId, ok: Event -> bool)
    requires AllOk(s, t, ok) && k in s.timers
    requires s.timers[k].event.trip == t && sent ==> ok(Extended(s.timers[k].event, s.timers[k].driver))
    ensures AllOk(TimerFires(s, k, sent), t, ok)
  {
  }

  lemma ReconnectKeepsOk(s: State, d: DriverId, pkg: PackageSlug, name: string, p: DS.Point, demo: DS.Point, t: TripId,
      ok: Event -> bool)
    requires AllOk(s, t, ok) && PendingKeyed(s.pending)
    ensures AllOk(Reconnect(s, d, pkg, name, p, demo), t, ok)
  {
  }

  lemma OfferKeepsOk(s: State, e: Event, d: DriverId, t: TripId, ok: Event -> bool)
    requires AllOk(s, t, ok) && (e.trip == t ==> ok(e))
    ensures AllOk(Offer(s, e, d), t, ok) && AllOk(WaitingStore(s, e), t, ok)
  {
  }

  lemma MatchKeepsOk(s: State, pkg: PackageSlug, u: TripId, store': DS.State, picked: Option<DriverId>, sent: bool,
      t: TripId, ok: Event -> bool)
    requires AllOk(s, t, ok)
    ensures AllOk(MatchOne(s, pkg, u, store', picked, sent), t, ok)
  {
    if u in s.waiting {
      var s1 := IndexRemove(s, pkg, u).(waiting := s.waiting - {u}, store := store');
      OfferKeepsOk(s1, s.waiting[u], if picked.Some? then picked.value else "", t, ok);
    }
  }

  lemma TakeKeepsOk(s: State, u: TripId, store': DS.State, t: TripId, ok: Event -> bool)
    requires AllOk(s, t, ok)
    ensures AllOk(TakeAndCancel(s, u), t, ok) && AllOk(TakeAndCancel(s, u).(store := store'), t, ok)
  {
  }

  lemma CancelKeepsOk(s: State, u: TripId, d: DriverId, t: TripId, ok: Event -> bool)
    requires AllOk(s, t, ok)
    ensures AllOk(TripCancelled(s, u, d), t, ok)
  {
    var s1 := WaitingDelete(s, u);
    assert AllOk(s1, t, ok);
    if u in s1.pending {
      TakeKeepsOk(s1, u, DS.ClearBusy(s1.store, s1.pending[u].driver, u), t, ok);
    } else {
      assert AllOk(s1.(store := DS.ClearBusy(s1.store, d, u)), t, ok);
    }
  }

  lemma RestKeepsOk(s: State, a: Action, t: TripId, ok: Event -> bool)
    requires AllOk(s, t, ok)
    requires || a.Complete? || a.WaitingExpires? || a.Move? || a.Offline? || a.HeartbeatExpires? || a.ContextEnds?
             || a.Restart?
    ensures AllOk(Apply(s, a), t, ok)
  {
  }

  /** No step makes up an event: only a search that consumes no message and a timeout bring new ones. */
  lemma OkStep(s: State, a: Action, t: TripId, ok: Event -> bool)
    requires AllOk(s, t, ok) && Valid(s, a) && PendingKeyed(s.pending)
    requires a.Search? && a.source.None? && a.e.trip == t ==> ok(a.e)
    requires a.Fire? && a.k in s.timers && s.timers[a.k].event.trip == t && a.sent
             ==> ok(Extended(s.timers[a.k].event, s.timers[a.k].driver))
    ensures AllOk(Apply(s, a), t, ok)
  {
    if a.Search? {
      ConsumedKeepsOk(s, a.source, t, ok);
      FindKeepsOk(Consumed(s, a.source), a.e, a.store', a.picked, a.sent, t, ok);
    } else if a.Fire? {
      if a.k in s.timers { FireKeepsOk(s, a.k, a.sent, t, ok); }
    } else if a.Register? {
      ReconnectKeepsOk(s, a.d, a.pkg, a.name, a.p, a.demo, t, ok);
    } else if a.Match? {
      MatchKeepsOk(s, a.pkg, a.t, a.store', a.picked, a.sent, t, ok);
    } else if a.GiveUp? {
      ConsumedKeepsOk(s, Some(a.n), t, ok);
    } else if a.Respond? {
      TakeKeepsOk(s, a.t, DS.ClearBusy(s.store, a.d, a.t), t, ok);
    } else if a.Cancel? {
      CancelKeepsOk(s, a.t, a.d, t, ok);
    } else {
      RestKeepsOk(s, a, t, ok);
    }
  }

  // ---------------------------------------------------------------- package and pickup

  /** Every search of `t` that consumes no message, first or delivered again, asks for this package at this place. */
  predicate SearchedAs(acts: seq<Action>, t: TripId, pkg: PackageSlug, pickup: DS.Point) {
    forall i | 0 <= i < |acts| && acts[i].Search? && acts[i].source.None? && acts[i].e.trip == t ::
      acts[i].e.pkg == pkg && acts[i].e.pickup == pickup
  }

  /** So does then every event of the trip, in flight, in the queue, on offer, and under a timer: failed searches,
      timeouts, passes over the queue, reconnects, declines and restarts do not change what is asked for. */
  lemma {:induction false} SamePackageAndPickup(acts: seq<Action>, t: TripId, pkg: PackageSlug, pickup: DS.Point)
    requires ValidRun(acts) && SearchedAs(acts, t, pkg, pickup)
    ensures AllOk(Run(Initial, acts), t, (e: Event) => e.pkg == pkg && e.pickup == pickup)
  {
    if acts != [] {
      var n := |acts| - 1;
      ValidPrefix(acts);
      forall i | 0 <= i < n ensures acts[..n][i] == acts[i] {}
      SamePackageAndPickup(acts[..n], t, pkg, pickup);
      KeyedRun(acts[..n]);
      OkStep(Run(Initial, acts[..n]), acts[n], t, (e: Event) => e.pkg == pkg && e.pickup == pickup);
    }
  }

  // ---------------------------------------------------------------- the exclusion list

  /** The first search of `t`. */
  function FirstSearch(acts: seq<Action>, t: TripId): Option<Event> {
    if acts == [] then None
    else
      var before, a := FirstSearch(acts[..|acts| - 1], t), acts[|acts| - 1];
      if before.None? && a.Search? && a.e.trip == t then Some(a.e) else before
  }

  /** The drivers whose offers of `t` have timed out, in order. */
  function TimedOutDrivers(acts: seq<Action>, t: TripId): seq<DriverId> {
    if acts == [] then []
    else
      var before, a := acts[..|acts| - 1], acts[|acts| - 1];
      var s := Run(Initial, before);
      TimedOutDrivers(before, t) + if TimesOut(s, a, t) then [s.timers[a.k].driver] else []
  }

  /** The event of `t` as its first search and its timeouts make it. */
  function PresentEvent(acts: seq<Action>, t: TripId): Option<Event> {
    match FirstSearch(acts, t)
    case None => None
    case Some(e) => Some(e.(excluded := TimedOutDrivers(acts, t)))
  }

  /** A trip is unseen exactly until its first search. */
  lemma {:induction false} SeenIffSearched(acts: seq<Action>, t: TripId)
    ensures t in Run(Initial, acts).seen <==> FirstSearch(acts, t).Some?
    ensures FirstSearch(acts, t).Some? ==> FirstSearch(acts, t).value.trip == t
  {
    if acts != [] {
      SeenIffSearched(acts[..|acts| - 1], t);
      SeenStep(Run(Initial, acts[..|acts| - 1]), acts[|acts| - 1]);
    }
  }

  /** Every event of `t` is the given one; without one there is none. */
  ghost predicate AllAre(s: State, t: TripId, e: Option<Event>) {
    AllOk(s, t, (x: Event) => e == Some(x))
  }

  /** After a timeout the extended event is the only one of its trip. */
  lemma TimeoutLeavesExtended(s: State, a: Action, t: TripId, e: Event)
    requires Keyed(s) && TimersSound(s) && OnePlace(s) && TimesOut(s, a, t) && AllAre(s, t, Some(e))
    ensures AllAre(Apply(s, a), t, Some(Extended(e, s.timers[a.k].driver)))
  {
    assert s.pending[t].timer == a.k && s.timers[a.k] == Timer(e, s.pending[t].driver);
    var s' := TimerFires(s, a.k, a.sent);
    assert t !in s'.pending && t !in s'.waiting;
    assert forall k | k in s'.timers :: s'.timers[k].event.trip != t;
  }

  /** What the run is known to keep about trip `t`. */
  ghost predicate Traced(acts: seq<Action>, pool: set<DriverId>, t: TripId) {
    var s := Run(Initial, acts);
    && Inv(s, pool, map[])
    && AllAre(s, t, PresentEvent(acts, t))
    && (t in s.seen <==> FirstSearch(acts, t).Some?)
    && (t !in s.seen ==> TimedOutDrivers(acts, t) == [])
  }

  lemma HistoryStep(acts: seq<Action>, pool: set<DriverId>, t: TripId)
    requires acts != [] && Traced(acts[..|acts| - 1], pool, t)
    requires var s, a := Run(Initial, acts[..|acts| - 1]), acts[|acts| - 1]; Valid(s, a) && Undisturbed(s, a, pool)
    ensures AllAre(Run(Initial, acts), t, PresentEvent(acts, t))
  {
    var before, a := acts[..|acts| - 1], acts[|acts| - 1];
    var s, now := Run(Initial, before), PresentEvent(acts, t);
    if TimesOut(s, a, t) {
      assert t in s.seen;
      TimeoutLeavesExtended(s, a, t, PresentEvent(before, t).value);
    } else {
      if a.Search? { SourceIsSeen(s, a, pool); }
      EventStays(acts, t);
      if a.Search? && a.e.trip == t && t !in s.seen {
        UnseenHasNoEvent(s, pool, t, (x: Event) => now == Some(x));
      }
      OkStep(s, a, t, (x: Event) => now == Some(x));
    }
  }

  /** Only a timeout and a first search change the event. */
  lemma EventStays(acts: seq<Action>, t: TripId)
    requires acts != []
    requires var before, a := acts[..|acts| - 1], acts[|acts| - 1];
             !TimesOut(Run(Initial, before), a, t) && (t in Run(Initial, before).seen <==> FirstSearch(before, t).Some?)
             && (t !in Run(Initial, before).seen ==> TimedOutDrivers(before, t) == [])
    ensures var before, a := acts[..|acts| - 1], acts[|acts| - 1];
            PresentEvent(acts, t) ==
              if a.Search? && a.e.trip == t && t !in Run(Initial, before).seen then Some(a.e.(excluded := []))
              else PresentEvent(before, t)
  {
    var before := acts[..|acts| - 1];
    assert TimedOutDrivers(before, t) + [] == TimedOutDrivers(before, t);
  }

  /** A message in flight is of a trip that was searched for. */
  lemma SourceIsSeen(s: State, a: Action, pool: set<DriverId>)
    requires Inv(s, pool, map[]) && Valid(s, a) && Undisturbed(s, a, pool) && a.Search?
    ensures a.source.Some? <==> a.e.trip in s.seen
  {
  }

  /** In runs that nothing disturbs, every event of a trip is its first search with exactly the timed-out drivers on the
      list, in the order in which they were asked. */
  lemma {:induction false} EventIsItsHistory(acts: seq<Action>, pool: set<DriverId>, t: TripId)
    requires ValidRun(acts) && UndisturbedRun(acts, pool)
    ensures AllAre(Run(Initial, acts), t, PresentEvent(acts, t))
  {
    if acts != [] {
      ValidPrefix(acts);
      UndisturbedPrefix(acts, pool);
      EventIsItsHistory(acts[..|acts| - 1], pool, t);
      TracedRun(acts[..|acts| - 1], pool, t);
      HistoryStep(acts, pool, t);
    }
  }

  lemma TracedRun(acts: seq<Action>, pool: set<DriverId>, t: TripId)
    requires ValidRun(acts) && UndisturbedRun(acts, pool) && AllAre(Run(Initial, acts), t, PresentEvent(acts, t))
    ensures Traced(acts, pool, t)
  {
    InvRun(acts, pool);
    SeenIffSearched(acts, t);
    if t !in Run(Initial, acts).seen { NoTimeoutUnseen(acts, pool, t); }
  }

  /** A trip that was never searched for has no event. */
  lemma UnseenHasNoEvent(s: State, pool: set<DriverId>, t: TripId, ok: Event -> bool)
    requires Inv(s, pool, map[]) && t !in s.seen
    ensures AllOk(s, t, ok)
  {
  }

  lemma {:induction false} NoTimeoutUnseen(acts: seq<Action>, pool: set<DriverId>, t: TripId)
    requires ValidRun(acts) && UndisturbedRun(acts, pool) && t !in Run(Initial, acts).seen
    ensures TimedOutDrivers(acts, t) == []
  {
    if acts != [] {
      var before, a := acts[..|acts| - 1], acts[|acts| - 1];
      ValidPrefix(acts);
      UndisturbedPrefix(acts, pool);
      SeenStep(Run(Initial, before), a);
      NoTimeoutUnseen(before, pool, t);
      InvRun(before, pool);
    }
  }
}
