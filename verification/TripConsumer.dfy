/** The dispatch handlers on the state they mutate: the offers, the timers, the waiting queue, and the driver store. */
module TripConsumer {
  import opened Common
  import opened Dispatch
  import opened DispatchQueue
  import DS = DriverStore
  import DriverService

  /** The pick is a closest driver that may be offered the trip; without a pick, every one within 1500 km is hidden
      behind a hundred others. */
  ghost predicate PickIsClosest(store: DS.State, e: Event, dist: DS.Point -> real, picked: Option<DriverId>) {
    match picked
    case Some(d) =>
      && d in DS.Entries(store, e.pkg) && DS.Eligible(store, ExcludedSet(e), d)
      && forall x | x in DS.Entries(store, e.pkg) && DS.Eligible(store, ExcludedSet(e), x) ::
           dist(DS.Entries(store, e.pkg)[d]) <= dist(DS.Entries(store, e.pkg)[x])
    case None => DS.NoneVisible(store, e.pkg, dist, ExcludedSet(e), 1500.0)
  }

  /** The contract of the ring search, as dispatch uses it. */
  lemma FoundIsSearchResult(s: DS.State, s': DS.State, mid: DS.State, e: Event, dist: DS.Point -> real, k: nat,
      ring: seq<DriverId>, drivers: seq<DriverId>, scanned: set<DriverId>)
    requires DS.Cleaned(s, s', e.pkg, ExcludedSet(e), scanned)
    requires DS.FoundIn(s, mid, e.pkg, dist, ExcludedSet(e), k, ring, drivers)
    ensures SearchResult(s, e, s', First(drivers)) && PickIsClosest(s, e, dist, First(drivers))
  {
    DS.CleanedIsReaped(s, s', e.pkg, ExcludedSet(e), scanned);
    if drivers != [] {
      DS.HeadIsClosestEligible(s, mid, e.pkg, dist, ExcludedSet(e), k, ring, drivers);
    } else {
      DS.EmptyRingHides(s, mid, e.pkg, dist, ExcludedSet(e), 1500.0, ring);
    }
  }

  function First(drivers: seq<DriverId>): Option<DriverId> {
    if drivers == [] then None else Some(drivers[0])
  }

  class Consumer {
    const service: DriverService.Service
    var pending: map<TripId, Offered>
    var timers: map<TimerId, Timer>
    var nextTimer: TimerId
    var waiting: map<TripId, Event>
    var index: map<PackageSlug, set<TripId>>
    var requeued: seq<Event>
    var seen: set<TripId>
    var timedOut: seq<TripId>

    constructor ()
      ensures View() == Initial && fresh(service)
    {
      service := new DriverService.Service();
      pending, timers, nextTimer, waiting, index := map[], map[], 0, map[], map[];
      requeued, seen, timedOut := [], {}, [];
    }

    function View(): State
      reads this, service
    {
      State(service.View(), pending, timers, nextTimer, waiting, index, requeued, seen, timedOut)
    }

    // -------------------------------------------------------------- the waiting queue

    method WaitingStore(e: Event)
      modifies this`waiting, this`index
      ensures View() == Dispatch.WaitingStore(old(View()), e)
    {
      waiting := waiting[e.trip := e];
      index := index[e.pkg := Members(View(), e.pkg) + {e.trip}];
    }

    method SRem(pkg: PackageSlug, t: TripId)
      modifies this`index
      ensures View() == IndexRemove(old(View()), pkg, t)
    {
      index := index[pkg := Members(View(), pkg) - {t}];
    }

    method WaitingDelete(t: TripId)
      modifies this`waiting, this`index
      ensures View() == Dispatch.WaitingDelete(old(View()), t)
    {
      if t !in waiting { return; }
      SRem(waiting[t].pkg, t);
      waiting := waiting - {t};
    }

    /** GETDEL: at most one caller gets the event. */
    method WaitingClaim(t: TripId) returns (e: Option<Event>)
      modifies this`waiting
      ensures e == if t in old(waiting) then Some(old(waiting)[t]) else None
      ensures waiting == old(waiting) - {t}
    {
      if t !in waiting { return None; }
      e := Some(waiting[t]);
      waiting := waiting - {t};
    }

    // -------------------------------------------------------------- offers and timers

    method SpawnTimer(e: Event, d: DriverId)
      modifies this`pending, this`timers, this`nextTimer
      ensures View() == Dispatch.SpawnTimer(old(View()), e, d)
    {
      pending := pending[e.trip := Offered(e, d, nextTimer)];
      timers := timers[nextTimer := Timer(e, d)];
      nextTimer := nextTimer + 1;
    }

    /** LoadAndDelete; the stored cancel function stops the timer goroutine. */
    method LoadAndDelete(t: TripId) returns (o: Option<Offered>)
      modifies this`pending, this`timers
      ensures o == if t in old(pending) then Some(old(pending)[t]) else None
      ensures View() == TakeAndCancel(old(View()), t)
    {
      if t !in pending { return None; }
      o := Some(pending[t]);
      timers := timers - {pending[t].timer};
      pending := pending - {t};
    }

    method OfferTrip(e: Event, d: DriverId)
      modifies this, service
      ensures View() == Offer(old(View()), e, d)
    {
      service.SetBusy(d, e.trip);
      SpawnTimer(e, d);
    }

    /** `sent` is the outcome of the publish that follows the search. */
    method HandleFindAndNotifyDrivers(e: Event, dist: DS.Point -> real, sent: bool)
        returns (ghost store': DS.State, ghost picked: Option<DriverId>)
      modifies this, service
      ensures SearchResult(old(View()).store, e, store', picked) && PickIsClosest(old(View()).store, e, dist, picked)
      ensures View() == FindAndNotify(old(View()), e, store', picked, sent)
    {
      ghost var before := service.View();
      var drivers, mid, k, ring, scanned := service.FindAvailableDrivers(e.pkg, dist, e.excluded);
      FoundIsSearchResult(before, service.View(), mid, e, dist, k, ring, drivers, scanned);
      store', picked := service.View(), First(drivers);
      seen := seen + {e.trip};
      if |drivers| == 0 {
        WaitingStore(e);
        if !sent {
          requeued := requeued + [e];
        }
        return;
      }
      if !sent {
        requeued := requeued + [e];
        return;
      }
      OfferTrip(e, drivers[0]);
    }

    /** The timer goroutine `k` after 15 seconds. */
    method ResponseTimeout(k: TimerId, sent: bool)
      requires k in timers
      modifies this, service
      ensures View() == TimerFires(old(View()), k, sent)
    {
      var tm := timers[k];
      timers := timers - {k};
      var t := tm.event.trip;
      if t !in pending { return; }
      if pending[t].driver != tm.driver { return; } // restored: another driver owns the entry
      var o := LoadAndDelete(t);
      service.ClearBusy(tm.driver, t);
      if sent {
        requeued := requeued + [tm.event.(excluded := tm.event.excluded + [tm.driver])];
      }
      timedOut := timedOut + [t];
    }

    method ExtendTimerForDriver(t: TripId, d: DriverId) returns (extended: bool)
      modifies this`pending, this`timers, this`nextTimer
      ensures (View(), extended) == ExtendTimer(old(View()), t, d)
    {
      if t !in pending { return false; }
      if pending[t].driver != d { return false; } // put back
      var o := LoadAndDelete(t);
      SpawnTimer(o.value.event, d);
      return true;
    }

    /** The RPC: the result names the trip the driver is still busy with. */
    method RegisterDriver(d: DriverId, pkg: PackageSlug, name: string, p: DS.Point, demo: DS.Point)
        returns (busyTrip: TripId)
      modifies this, service
      ensures View() == Reconnect(old(View()), d, pkg, name, p, demo)
      ensures var t := DS.BusyTrip(old(View()).store, d);
              busyTrip == if t != "" && t in old(pending) && old(pending)[t].driver == d then t else ""
    {
      service.RegisterDriver(d, pkg, name, p, demo);
      busyTrip := service.GetBusyTripID(d);
      if busyTrip != "" {
        var extended := ExtendTimerForDriver(busyTrip, d);
        if !extended {
          service.ClearBusy(d, busyTrip);
          busyTrip := "";
        }
      }
    }

    /** The process dies and starts again: its memory is empty, Redis is not. */
    method Restart()
      modifies this`pending, this`timers
      ensures View() == Apply(old(View()), Dispatch.Restart)
    {
      pending, timers := map[], map[];
    }

    // -------------------------------------------------------------- answers and ends

    method HandleDriverResponse(t: TripId, d: DriverId, decline: bool)
      modifies this, service
      ensures View() == DriverResponse(old(View()), t, d, decline)
    {
      var o := LoadAndDelete(t);
      if decline {
        service.ClearBusy(d, t);
      }
    }

    method HandleTripCancelled(t: TripId, d: DriverId)
      modifies this, service
      ensures View() == TripCancelled(old(View()), t, d)
    {
      WaitingDelete(t);
      var o := LoadAndDelete(t);
      if o.Some? {
        service.ClearBusy(o.value.driver, t);
        return;
      }
      if d != "" {
        service.ClearBusy(d, t);
      }
    }

    method HandleTripCompleted(t: TripId, d: DriverId)
      modifies this, service
      ensures View() == TripCompleted(old(View()), t, d)
    {
      if d != "" {
        service.ClearBusy(d, t);
      }
    }

    // -------------------------------------------------------------- the pass over the queue

    method MatchWaitingTrip(pkg: PackageSlug, t: TripId, distFrom: DS.Point -> (DS.Point -> real),
        notify: TripId -> bool) returns (ghost c: Claim)
      modifies this, service
      ensures c.trip == t && c.sent == (t in old(waiting) && notify(old(waiting)[t].trip))
      ensures Valid(old(View()), ToMatch(pkg, c))
      ensures t in old(waiting) ==>
                var e := old(waiting)[t]; PickIsClosest(old(View()).store, e, distFrom(e.pickup), c.picked)
      ensures View() == Apply(old(View()), ToMatch(pkg, c))
    {
      ghost var before := View();
      var claimed := WaitingClaim(t);
      SRem(pkg, t);
      if claimed.None? {
        assert waiting == before.waiting;
        return Claim(t, before.store, None, false);
      }
      var e := claimed.value;
      var drivers, mid, k, ring, scanned := service.FindAvailableDrivers(e.pkg, distFrom(e.pickup), e.excluded);
      FoundIsSearchResult(before.store, service.View(), mid, e, distFrom(e.pickup), k, ring, drivers, scanned);
      c := Claim(t, service.View(), First(drivers), notify(e.trip));
      if |drivers| == 0 {
        WaitingStore(e);
        return;
      }
      if !notify(e.trip) {
        WaitingStore(e);
        return;
      }
      OfferTrip(e, drivers[0]);
    }

    /** The body of the loop, with the `claims` since `start`. */
    method TryNext(pkg: PackageSlug, t: TripId, distFrom: DS.Point -> (DS.Point -> real), notify: TripId -> bool,
                   ghost start: State, ghost claims: seq<Claim>, ghost members: set<TripId>, ghost left: set<TripId>)
        returns (ghost claims': seq<Claim>)
      requires t in left && Tried(claims, members, left)
      requires View() == Pass(start, pkg, claims) && ValidPass(start, pkg, claims)
      modifies this, service
      ensures Tried(claims', members, left - {t})
      ensures View() == Pass(start, pkg, claims') && ValidPass(start, pkg, claims')
    {
      ghost var c := MatchWaitingTrip(pkg, t, distFrom, notify);
      PassSnoc(start, pkg, claims, c);
      TriedSnoc(claims, c, members, left);
      claims' := claims + [c];
    }

    /** One pass over the members the package set has at the start, in any order. */
    method TryMatchWaiting(pkg: PackageSlug, distFrom: DS.Point -> (DS.Point -> real), notify: TripId -> bool)
        returns (ghost claims: seq<Claim>)
      requires Keyed(View())
      modifies this, service
      ensures ValidPass(old(View()), pkg, claims) && View() == Pass(old(View()), pkg, claims)
      ensures View() == Run(old(View()), Actions(pkg, claims))
      ensures forall t :: t in Members(old(View()), pkg) <==> exists i :: 0 <= i < |claims| && claims[i].trip == t
      ensures Keyed(View()) && NothingLost(old(View()), View())
    {
      claims := [];
      var members := Members(View(), pkg);
      var left := members;
      while left != {}
        invariant Tried(claims, members, left)
        invariant View() == Pass(old(View()), pkg, claims) && ValidPass(old(View()), pkg, claims)
        decreases |left|
      {
        var t :| t in left;
        claims := TryNext(pkg, t, distFrom, notify, old(View()), claims, members, left);
        left := left - {t};
      }
      PassRun(old(View()), pkg, claims);
      PassIsRun(old(View()), pkg, claims);
    }
  }

  /** The pass has tried exactly the `members` that are not `left`. */
  ghost predicate Tried(claims: seq<Claim>, members: set<TripId>, left: set<TripId>) {
    && left <= members
    && (forall t | t in members && t !in left :: exists i :: 0 <= i < |claims| && claims[i].trip == t)
    && (forall i | 0 <= i < |claims| :: claims[i].trip in members && claims[i].trip !in left)
  }

  lemma TriedSnoc(claims: seq<Claim>, c: Claim, members: set<TripId>, left: set<TripId>)
    requires Tried(claims, members, left) && c.trip in left
    ensures Tried(claims + [c], members, left - {c.trip})
  {
    var all := claims + [c];
    assert all[|claims|] == c && forall i | 0 <= i < |claims| :: all[i] == claims[i];
    forall t | t in members && t !in left - {c.trip} ensures exists i :: 0 <= i < |all| && all[i].trip == t {
      if t != c.trip {
        var i :| 0 <= i < |claims| && claims[i].trip == t;
        assert all[i].trip == t;
      }
    }
  }

  lemma PassSnoc(s: State, pkg: PackageSlug, claims: seq<Claim>, c: Claim)
    requires ValidPass(s, pkg, claims) && Valid(Pass(s, pkg, claims), ToMatch(pkg, c))
    requires forall i | 0 <= i < |claims| :: claims[i].trip != c.trip
    ensures ValidPass(s, pkg, claims + [c])
    ensures Pass(s, pkg, claims + [c]) == Apply(Pass(s, pkg, claims), ToMatch(pkg, c))
  {
    var all := claims + [c];
    assert all[..|claims|] == claims;
    forall i | 0 <= i < |all| ensures Valid(Pass(s, pkg, all[..i]), ToMatch(pkg, all[i])) {
      if i < |claims| { assert all[..i] == claims[..i]; }
    }
  }
}
