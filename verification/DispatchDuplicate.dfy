/**
 The no-drivers-found message is published after the trip was queued, and its failure makes the search message come
 again. From then on the trip is in two places, and the bound on timed-out offers no longer holds.
 */
module DispatchDuplicate {
  import opened Common
  import opened Dispatch
  import opened DispatchExclusion
  import opened DispatchDecline
  import DS = DriverStore

  ghost predicate InTwoPlaces(s: State, t: TripId) {
    t in s.waiting && exists i :: 0 <= i < |s.requeued| && s.requeued[i].trip == t
  }

  /** A search that finds nobody leaves its trip in two places if and only if the publish that follows fails. */
  lemma FailedNoticeDuplicates(s: State, e: Event, store': DS.State, sent: bool)
    requires forall i | 0 <= i < |s.requeued| :: s.requeued[i].trip != e.trip
    ensures InTwoPlaces(FindAndNotify(s, e, store', None, sent), e.trip) <==> !sent
  {
    var s' := FindAndNotify(s, e, store', None, sent);
    if !sent { assert s'.requeued[|s.requeued|] == e; }
  }

  /** The queued trip is offered to the only driver, who lets it time out. */
  lemma QueuedTimesOut(s: State, e: Event, d: DriverId)
    requires Ready(s.store, e.pkg, {d}) && e.trip != "" && e.excluded == []
    requires s.pending == map[] && s.timers == map[] && s.waiting == map[e.trip := e]
    ensures var match_ := Match(e.pkg, e.trip, s.store, Some(d), true);
            var s' := Apply(Apply(s, match_), Fire(s.nextTimer, true));
            && Valid(s, match_)
            && Ready(s'.store, e.pkg, {d}) && s'.pending == map[] && s'.timers == map[] && s'.waiting == map[]
            && s'.requeued == s.requeued + [Extended(e, d)] && s'.timedOut == s.timedOut + [e.trip]
  {
    assert DS.Eligible(s.store, {}, d) && d in DS.Entries(s.store, e.pkg);
    assert ExcludedSet(e) == {};
    FreedAgain(s.store, e.pkg, {d}, d, e.trip);
    var s1 := Apply(s, Match(e.pkg, e.trip, s.store, Some(d), true));
    assert s1.pending == map[e.trip := Offered(e, d, s.nextTimer)] && s1.timers == map[s.nextTimer := Timer(e, d)];
    var s2 := Apply(s1, Fire(s.nextTimer, true));
    assert s2.pending == map[] && s2.timers == map[];
  }

  /** The message that came again is handled with its old, empty list, and the same driver is asked again. */
  lemma RedeliveredTimesOut(s: State, e: Event, d: DriverId)
    requires Ready(s.store, e.pkg, {d}) && e.trip != "" && e.excluded == []
    requires s.pending == map[] && s.timers == map[] && s.waiting == map[] && |s.requeued| > 0 && s.requeued[0] == e
    ensures var ask := Search(e, Some(0), s.store, Some(d), true);
            var s' := Apply(Apply(s, ask), Fire(s.nextTimer, true));
            Valid(s, ask) && s'.timedOut == s.timedOut + [e.trip]
  {
    assert DS.Eligible(s.store, {}, d) && d in DS.Entries(s.store, e.pkg);
    assert ExcludedSet(e) == {};
    var s1 := Apply(s, Search(e, Some(0), s.store, Some(d), true));
    assert s1.pending == map[e.trip := Offered(e, d, s.nextTimer)] && s1.timers == map[s.nextTimer := Timer(e, d)];
  }

  /** Nobody is there, the trip is queued, the publish fails, and then driver `d` registers. */
  function QueuedTwice(e: Event, p: DS.Point, d: DriverId): State {
    Apply(Apply(Initial, Search(e, None, DS.Initial, None, false)), Register(d, e.pkg, "Driver", p, p))
  }

  lemma QueuedTwiceIsReady(e: Event, p: DS.Point, d: DriverId)
    requires e.trip != ""
    ensures Valid(Initial, Search(e, None, DS.Initial, None, false))
    ensures var s := QueuedTwice(e, p, d);
            && Ready(s.store, e.pkg, {d}) && s.pending == map[] && s.timers == map[] && s.waiting == map[e.trip := e]
            && s.requeued == [e] && s.nextTimer == 0 && s.timedOut == []
  {
    var s1 := Apply(Initial, Search(e, None, DS.Initial, None, false));
    Registered(s1.store, d, d, e.pkg, p);
    assert QueuedTwice(e, p, d) == s1.(store := DS.RegisterDriver(s1.store, d, e.pkg, "Driver", p, p));
  }

  /** With a single driver and no decline, one failed no-drivers publish lets the trip time out twice. */
  lemma DuplicateBreaksBound(t: TripId, pkg: PackageSlug, p: DS.Point, d: DriverId)
    requires t != ""
    ensures var e := Event(t, pkg, p, []);
            var s2 := QueuedTwice(e, p, d);
            var s3 := Apply(Apply(s2, Match(pkg, t, s2.store, Some(d), true)), Fire(s2.nextTimer, true));
            var s4 := Apply(Apply(s3, Search(e, Some(0), s3.store, Some(d), true)), Fire(s3.nextTimer, true));
            && Valid(Initial, Search(e, None, DS.Initial, None, false))
                && Valid(s2, Match(pkg, t, s2.store, Some(d), true))
            && Valid(s3, Search(e, Some(0), s3.store, Some(d), true))
            && Timeouts(s4.timedOut, t) == 2
  {
    var e := Event(t, pkg, p, []);
    var s2 := QueuedTwice(e, p, d);
    QueuedTwiceIsReady(e, p, d);
    QueuedTimesOut(s2, e, d);
    var s3 := Apply(Apply(s2, Match(pkg, t, s2.store, Some(d), true)), Fire(s2.nextTimer, true));
    RedeliveredTimesOut(s3, e, d);
    assert [] + [t] == [t];
    TimeoutsSnoc([], t, t);
    TimeoutsSnoc([t], t, t);
  }
}
