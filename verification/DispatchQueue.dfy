/** One pass over the waiting queue of a package: nothing is lost, nothing is offered twice. */
module DispatchQueue {
  import opened Common
  import opened Dispatch
  import DS = DriverStore

  /** One iteration of the pass: the trip read from the package set, what the search left and found, and whether the
      driver could be notified. */
  datatype Claim = Claim(trip: TripId, store': DS.State, picked: Option<DriverId>, sent: bool)

  function ToMatch(pkg: PackageSlug, c: Claim): Action {
    Match(pkg, c.trip, c.store', c.picked, c.sent)
  }

  function Pass(s: State, pkg: PackageSlug, claims: seq<Claim>): State {
    if claims == [] then s else Apply(Pass(s, pkg, claims[..|claims| - 1]), ToMatch(pkg, claims[|claims| - 1]))
  }

  /** The members of a set come in some order without repetition, and every search returns a possible result. */
  ghost predicate ValidPass(s: State, pkg: PackageSlug, claims: seq<Claim>) {
    && (forall i, j | 0 <= i < j < |claims| :: claims[i].trip != claims[j].trip)
    && (forall i | 0 <= i < |claims| :: Valid(Pass(s, pkg, claims[..i]), ToMatch(pkg, claims[i])))
  }

  ghost predicate StillWaiting(s: State, s': State, t: TripId) {
    t in s.waiting && t in s'.waiting && s'.waiting[t] == s.waiting[t]
  }

  /** The trip left the queue for an offer to a driver that was free before the pass and is marked with it now. */
  ghost predicate NowOffered(s: State, s': State, t: TripId) {
    && t in s.waiting && t !in s'.waiting
    && t in s'.pending && s'.pending[t].event == s.waiting[t]
    && DS.BusyTrip(s.store, s'.pending[t].driver) == ""
    && DS.BusyTrip(s'.store, s'.pending[t].driver) == t
  }

  ghost predicate NothingLost(s: State, s': State) {
    && (forall t | t in s.waiting :: StillWaiting(s, s', t) || NowOffered(s, s', t))
    && (forall t | t in s'.waiting :: t in s.waiting)
    && (forall t | t in s'.pending :: (t in s.pending && s'.pending[t] == s.pending[t]) || NowOffered(s, s', t))
    && (forall t | t in s.pending :: t in s'.pending)
    && (forall d | DS.BusyTrip(s'.store, d) == "" :: DS.BusyTrip(s.store, d) == "")
  }

  /** The search inside an iteration leaves every busy marker alone, and its pick is free. */
  lemma SearchLeavesMarkers(store: DS.State, e: Event, store': DS.State, picked: Option<DriverId>, d: DriverId)
    requires SearchResult(store, e, store', picked)
    ensures DS.BusyTrip(store', d) == DS.BusyTrip(store, d)
    ensures picked == Some(d) ==> DS.BusyTrip(store, d) == ""
  {
    DS.ReapedKeepsEligible(store, store', e.pkg, {}, d);
  }

  /** What one iteration does to the queue, the offers and the busy markers. */
  lemma IterationEffect(s: State, pkg: PackageSlug, t: TripId, store': DS.State, picked: Option<DriverId>, sent: bool)
    requires WaitingKeyed(s.waiting, s.index)
        && (t in s.waiting ==> SearchResult(s.store, s.waiting[t], store', picked))
    ensures var s' := MatchOne(s, pkg, t, store', picked, sent);
            if t in s.waiting && picked.Some? && sent
            then && s'.waiting == s.waiting - {t}
                 && s'.pending == s.pending[t := Offered(s.waiting[t], picked.value, s.nextTimer)]
                 && DS.BusyTrip(s.store, picked.value) == ""
                 && forall d :: DS.BusyTrip(s'.store, d) == if d == picked.value then t else DS.BusyTrip(s.store, d)
            else && s'.waiting == s.waiting && s'.pending == s.pending
                 && forall d :: DS.BusyTrip(s'.store, d) == DS.BusyTrip(s.store, d)
  {
    if t in s.waiting {
      forall d ensures DS.BusyTrip(store', d) == DS.BusyTrip(s.store, d) {
        SearchLeavesMarkers(s.store, s.waiting[t], store', picked, d);
      }
      if picked.Some? && sent {
        SearchLeavesMarkers(s.store, s.waiting[t], store', picked, picked.value);
      } else {
        assert (s.waiting - {t})[t := s.waiting[t]] == s.waiting;
      }
    }
  }

  /** The index afterwards: the claimed trip is in the set of its own package if it is still waiting, and leaves the
      set it was read from otherwise; no other trip moves. */
  lemma IterationIndex(s: State, pkg: PackageSlug, t: TripId, store': DS.State, picked: Option<DriverId>, sent: bool)
    requires WaitingKeyed(s.waiting, s.index)
    ensures var s' := MatchOne(s, pkg, t, store', picked, sent);
            && (forall q :: t in Members(s', q) <==>
                  (t in s'.waiting && s'.waiting[t].pkg == q) || (q != pkg && t in Members(s, q)))
            && (forall q, u | u != t :: u in Members(s', q) <==> u in Members(s, q))
  {
  }

  /** One iteration after some others: the claimed trip is offered, or is waiting as before. */
  lemma IterationLosesNothing(s: State, mid: State, pkg: PackageSlug, c: Claim)
    requires WaitingKeyed(s.waiting, s.index) && WaitingKeyed(mid.waiting, mid.index) && NothingLost(s, mid)
    requires Valid(mid, ToMatch(pkg, c))
    ensures NothingLost(s, Apply(mid, ToMatch(pkg, c)))
  {
    var s' := MatchOne(mid, pkg, c.trip, c.store', c.picked, c.sent);
    IterationEffect(mid, pkg, c.trip, c.store', c.picked, c.sent);
    if c.trip in mid.waiting && c.picked.Some? && c.sent {
      OfferedLosesNothing(s, mid, s', c.trip, c.picked.value);
    } else {
      UnchangedLosesNothing(s, mid, s');
    }
  }

  lemma UnchangedLosesNothing(s: State, mid: State, s': State)
    requires NothingLost(s, mid) && s'.waiting == mid.waiting && s'.pending == mid.pending
    requires forall d :: DS.BusyTrip(s'.store, d) == DS.BusyTrip(mid.store, d)
    ensures NothingLost(s, s')
  {
    forall t | t in s.waiting ensures StillWaiting(s, s', t) || NowOffered(s, s', t) {
      assert StillWaiting(s, mid, t) || NowOffered(s, mid, t);
    }
    forall t | t in s'.pending ensures (t in s.pending && s'.pending[t] == s.pending[t]) || NowOffered(s, s', t) {
      assert (t in s.pending && mid.pending[t] == s.pending[t]) || NowOffered(s, mid, t);
    }
  }

  lemma OfferedLosesNothing(s: State, mid: State, s': State, u: TripId, d: DriverId)
    requires NothingLost(s, mid) && u in mid.waiting && u != "" && DS.BusyTrip(mid.store, d) == ""
    requires s'.waiting == mid.waiting - {u}
        && s'.pending == mid.pending[u := Offered(mid.waiting[u], d, mid.nextTimer)]
    requires forall x :: DS.BusyTrip(s'.store, x) == if x == d then u else DS.BusyTrip(mid.store, x)
    requires forall t | t in s.waiting :: t != ""
    ensures NothingLost(s, s')
  {
    assert StillWaiting(s, mid, u);
    assert NowOffered(s, s', u);
    forall t | t in s.waiting ensures StillWaiting(s, s', t) || NowOffered(s, s', t) {
      assert StillWaiting(s, mid, t) || NowOffered(s, mid, t);
    }
    forall t | t in s'.pending ensures (t in s.pending && s'.pending[t] == s.pending[t]) || NowOffered(s, s', t) {
      if t != u { assert (t in s.pending && mid.pending[t] == s.pending[t]) || NowOffered(s, mid, t); }
    }
  }

  lemma {:induction false} PassRun(s: State, pkg: PackageSlug, claims: seq<Claim>)
    requires Keyed(s) && ValidPass(s, pkg, claims)
    ensures Keyed(Pass(s, pkg, claims)) && NothingLost(s, Pass(s, pkg, claims))
  {
    if claims != [] {
      var before, c := claims[..|claims| - 1], claims[|claims| - 1];
      forall i | 0 <= i < |before| ensures Valid(Pass(s, pkg, before[..i]), ToMatch(pkg, before[i])) {
        assert before[..i] == claims[..i];
      }
      PassRun(s, pkg, before);
      KeyedStep(Pass(s, pkg, before), ToMatch(pkg, c));
      IterationLosesNothing(s, Pass(s, pkg, before), pkg, c);
    }
  }

  /** One pass loses and duplicates nothing: every trip waiting at the start is still waiting with an equal event or
      is offered with that event to a driver that was free; distinct trips get distinct drivers; no offer is dropped,
      no trip starts waiting, and every waiting trip is in the set of its package, also when notifying fails. */
  lemma {:induction false} PassLosesAndDuplicatesNothing(s: State, pkg: PackageSlug, claims: seq<Claim>)
    requires Keyed(s) && ValidPass(s, pkg, claims)
    ensures var s' := Pass(s, pkg, claims);
            && (forall t | t in s.waiting ::
                  || (t in s'.waiting && s'.waiting[t] == s.waiting[t])
                  || (t !in s'.waiting && t in s'.pending && s'.pending[t].event == s.waiting[t]
                      && DS.BusyTrip(s.store, s'.pending[t].driver) == ""
                          && DS.BusyTrip(s'.store, s'.pending[t].driver) == t))
            && (forall t1, t2 | t1 in s.waiting && t2 in s.waiting && t1 !in s'.waiting && t2 !in s'.waiting
                && t1 != t2 ::
                  t1 in s'.pending && t2 in s'.pending && s'.pending[t1].driver != s'.pending[t2].driver)
            && (forall t | t in s'.waiting :: t in s.waiting && t in Members(s', s'.waiting[t].pkg))
            && (forall t | t in s.pending && t !in s.waiting :: t in s'.pending && s'.pending[t] == s.pending[t])
  {
    PassRun(s, pkg, claims);
    var s' := Pass(s, pkg, claims);
    forall t | t in s.waiting
      ensures || (t in s'.waiting && s'.waiting[t] == s.waiting[t])
              || (t !in s'.waiting && t in s'.pending && s'.pending[t].event == s.waiting[t]
                  && DS.BusyTrip(s.store, s'.pending[t].driver) == ""
                      && DS.BusyTrip(s'.store, s'.pending[t].driver) == t)
    {
      assert StillWaiting(s, s', t) || NowOffered(s, s', t);
    }
    forall t1, t2 | t1 in s.waiting && t2 in s.waiting && t1 !in s'.waiting && t2 !in s'.waiting && t1 != t2
      ensures t1 in s'.pending && t2 in s'.pending && s'.pending[t1].driver != s'.pending[t2].driver
    {
      assert NowOffered(s, s', t1) && NowOffered(s, s', t2);
    }
  }

  function Actions(pkg: PackageSlug, claims: seq<Claim>): (acts: seq<Action>)
    ensures |acts| == |claims| && forall i | 0 <= i < |claims| :: acts[i] == ToMatch(pkg, claims[i])
  {
    seq(|claims|, i requires 0 <= i < |claims| => ToMatch(pkg, claims[i]))
  }

  /** A pass is a run of its iterations, so what holds over all runs holds over passes. */
  lemma {:induction false} PassIsRun(s: State, pkg: PackageSlug, claims: seq<Claim>)
    ensures Pass(s, pkg, claims) == Run(s, Actions(pkg, claims))
  {
    if claims != [] {
      PassIsRun(s, pkg, claims[..|claims| - 1]);
      assert Actions(pkg, claims)[..|claims| - 1] == Actions(pkg, claims[..|claims| - 1]);
    }
  }
}
