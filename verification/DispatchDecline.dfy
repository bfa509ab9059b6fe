/**
 Declines take the bound of `DispatchExclusion` away: the search message after a decline names the decliner only, so
 with three drivers one trip can time out any number of times, once for each decline after the first.
 */
module DispatchDecline {
  import opened Common
  import opened Dispatch
  import opened DispatchExclusion
  import opened DispatchDeclineBound
  import DS = DriverStore

  lemma {:induction false} Extend(acts: seq<Action>, a: Action, pool: set<DriverId>)
    requires DecliningRun(acts, pool) && DecliningStep(acts, a, pool)
    ensures DecliningRun(acts + [a], pool) && Run(Initial, acts + [a]) == Apply(Run(Initial, acts), a)
    ensures Owed(acts + [a]) == OwedAfter(Run(Initial, acts), a, Owed(acts))
    ensures forall t ::
          Declines(acts + [a], t) == Declines(acts, t) +
          if OfferedDecline(Run(Initial, acts), a) && a.t == t then 1 else 0
  {
    var all := acts + [a];
    assert all[..|acts|] == acts;
    forall i | 0 <= i < |all| ensures DecliningStep(all[..i], all[i], pool) {
      if i < |acts| { assert all[..i] == acts[..i]; }
    }
  }

  // ---------------------------------------------------------------- between two offers

  ghost predicate Ready(store: DS.State, pkg: PackageSlug, pool: set<DriverId>) {
    forall d | d in pool :: d in DS.Entries(store, pkg) && DS.Eligible(store, {}, d)
  }

  /** Every driver of the pool is free and in reach, and the only message in flight, if any, is `e`. */
  ghost predicate Idle(s: State, pkg: PackageSlug, pool: set<DriverId>, inFlight: seq<Event>) {
    && Ready(s.store, pkg, pool)
    && s.pending == map[] && s.timers == map[] && s.waiting == map[] && s.requeued == inFlight
  }

  lemma FreedAgain(store: DS.State, pkg: PackageSlug, pool: set<DriverId>, d: DriverId, t: TripId)
    requires Ready(store, pkg, pool) && t != ""
    ensures Ready(DS.ClearBusy(DS.SetBusy(store, d, t), d, t), pkg, pool)
  {
    var store' := DS.ClearBusy(DS.SetBusy(store, d, t), d, t);
    forall x | x in pool ensures x in DS.Entries(store', pkg) && DS.Eligible(store', {}, x) {
      assert DS.Eligible(store, {}, x);
      assert x in DS.Entries(store, pkg);
    }
  }

  /** The only offer is `e` to `d`, made out of an idle state with store `store`. */
  ghost predicate OnOffer(s: State, store: DS.State, e: Event, d: DriverId, k: TimerId) {
    && s.store == DS.SetBusy(store, d, e.trip)
    && s.pending == map[e.trip := Offered(e, d, k)] && s.timers == map[k := Timer(e, d)]
    && s.waiting == map[] && s.requeued == []
  }

  /** The search can pick any driver of the pool that is not on the list. */
  function Ask(s: State, e: Event, source: Option<nat>, d: DriverId): Action {
    Search(e, source, s.store, Some(d), true)
  }

  lemma Asked(s: State, e: Event, source: Option<nat>, d: DriverId, pool: set<DriverId>)
    requires Idle(s, e.pkg, pool, if source == None then [] else [e]) && (source == None || source == Some(0))
    requires e.trip != "" && d in pool && d !in e.excluded
    ensures Valid(s, Ask(s, e, source, d))
    ensures var s' := Apply(s, Ask(s, e, source, d));
            OnOffer(s', s.store, e, d, s.nextTimer) && s'.timedOut == s.timedOut && s'.seen == s.seen + {e.trip}
  {
    assert DS.Eligible(s.store, {}, d) && d in DS.Entries(s.store, e.pkg);
    assert d !in ExcludedSet(e);
    assert DS.Eligible(s.store, ExcludedSet(e), d);
    assert Consumed(s, source).requeued == [];
  }

  lemma TimedOut(s: State, store: DS.State, e: Event, d: DriverId, k: TimerId, pool: set<DriverId>)
    requires OnOffer(s, store, e, d, k) && Ready(store, e.pkg, pool) && e.trip != ""
    ensures var s' := Apply(s, Fire(k, true));
            && Idle(s', e.pkg, pool, [Extended(e, d)])
            && Timeouts(s'.timedOut, e.trip) == Timeouts(s.timedOut, e.trip) + 1 && s'.seen == s.seen
  {
    FreedAgain(store, e.pkg, pool, d, e.trip);
    TimeoutsSnoc(s.timedOut, e.trip, e.trip);
    var s' := Apply(s, Fire(k, true));
    assert s'.timers == map[] && s'.pending == map[];
  }

  lemma Declined(s: State, store: DS.State, e: Event, d: DriverId, k: TimerId, pool: set<DriverId>)
    requires OnOffer(s, store, e, d, k) && Ready(store, e.pkg, pool) && e.trip != ""
    ensures var s' := Apply(s, Respond(e.trip, d, true));
            Idle(s', e.pkg, pool, []) && s'.timedOut == s.timedOut && s'.seen == s.seen
  {
    FreedAgain(store, e.pkg, pool, d, e.trip);
    var s' := Apply(s, Respond(e.trip, d, true));
    assert s'.timers == map[] && s'.pending == map[];
  }

  // ---------------------------------------------------------------- rounds

  /** The last step is `d` declining the offer of `e`, after `n` timeouts of its trip, and everything is idle again. */
  ghost predicate JustDeclined(acts: seq<Action>, e: Event, d: DriverId, n: nat, pool: set<DriverId>) {
    && DecliningRun(acts, pool)
    && Idle(Run(Initial, acts), e.pkg, pool, []) && Timeouts(Run(Initial, acts).timedOut, e.trip) == n
    && e.trip in Owed(acts) && Owed(acts)[e.trip] == AfterDecline(e, d)
    && Declines(acts, e.trip) == n + 1
  }

  /** The offer of `e`, which is in flight or fresh, to `d`, who declines it. */
  lemma {:induction false} OfferAndDecline(acts: seq<Action>, e: Event, source: Option<nat>, d: DriverId, n: nat,
      pool: set<DriverId>) returns (acts': seq<Action>)
    requires DecliningRun(acts, pool) && e.trip != "" && d in pool && d !in e.excluded
    requires var s := Run(Initial, acts);
             && Idle(s, e.pkg, pool, if source == None then [] else [e]) && (source == None || source == Some(0))
             && Timeouts(s.timedOut, e.trip) == n && Declines(acts, e.trip) == n
             && (source == None ==> e.trip !in s.seen && e.excluded == [])
    ensures JustDeclined(acts', e, d, n, pool)
  {
    var s := Run(Initial, acts);
    var ask, answer := Ask(s, e, source, d), Respond(e.trip, d, true);
    Asked(s, e, source, d, pool);
    Extend(acts, ask, pool);
    var s1 := Run(Initial, acts + [ask]);
    Declined(s1, s.store, e, d, s.nextTimer, pool);
    Extend(acts + [ask], answer, pool);
    acts' := acts + [ask] + [answer];
    assert acts'[..|acts| + 1] == acts + [ask];
  }

  /** After `d` declined: the new search asks `a`, who times out. */
  lemma {:induction false} OfferAndTimeout(acts: seq<Action>, e: Event, d: DriverId, a: DriverId, n: nat,
      pool: set<DriverId>)
    returns (acts': seq<Action>, e': Event)
    requires JustDeclined(acts, e, d, n, pool) && e.trip != "" && a in pool && a != d
    ensures e' == Extended(AfterDecline(e, d), a) && DecliningRun(acts', pool)
    ensures Idle(Run(Initial, acts'), e.pkg, pool, [e']) && Timeouts(Run(Initial, acts').timedOut, e.trip) == n + 1
    ensures Declines(acts', e.trip) == n + 1
  {
    var s, again := Run(Initial, acts), AfterDecline(e, d);
    var ask, expire := Ask(s, again, None, a), Fire(s.nextTimer, true);
    Asked(s, again, None, a, pool);
    Extend(acts, ask, pool);
    TimedOut(Run(Initial, acts + [ask]), s.store, again, a, s.nextTimer, pool);
    Extend(acts + [ask], expire, pool);
    acts', e' := acts + [ask] + [expire], Extended(again, a);
  }

  /** One round: `a` times out, and the search that follows asks `y`, who declines. */
  lemma {:induction false} Round(acts: seq<Action>, e: Event, d: DriverId, a: DriverId, y: DriverId, n: nat,
      pool: set<DriverId>)
    returns (acts': seq<Action>, e': Event)
    requires JustDeclined(acts, e, d, n, pool) && e.trip != "" && a in pool && y in pool && d != a && a != y && y != d
    ensures e'.trip == e.trip && JustDeclined(acts', e', y, n + 1, pool)
  {
    acts', e' := OfferAndTimeout(acts, e, d, a, n, pool);
    acts' := OfferAndDecline(acts', e', Some(0), y, n + 1, pool);
  }

  lemma Registered(store: DS.State, d: DriverId, e: DriverId, pkg: PackageSlug, p: DS.Point)
    requires DS.BusyTrip(store, d) == ""
    ensures var store' := DS.RegisterDriver(store, d, pkg, "Driver", p, p);
            && d in DS.Entries(store', pkg) && DS.Eligible(store', {}, d)
            && (e in DS.Entries(store, pkg) && DS.Eligible(store, {}, e) ==>
                  e in DS.Entries(store', pkg)
                  && DS.Eligible(store', {}, e))
            && forall x :: DS.BusyTrip(store, x) == "" ==> DS.BusyTrip(store', x) == ""
  {
  }

  /** Nothing has happened yet but registrations of the drivers `present`. */
  ghost predicate Opened(acts: seq<Action>, pkg: PackageSlug, present: set<DriverId>, pool: set<DriverId>) {
    var s := Run(Initial, acts);
    && DecliningRun(acts, pool) && Idle(s, pkg, present, []) && s.seen == {} && s.timedOut == []
    && (forall t :: Declines(acts, t) == 0)
    && forall x :: DS.BusyTrip(s.store, x) == ""
  }

  lemma {:induction false} Join(acts: seq<Action>, d: DriverId, pkg: PackageSlug, p: DS.Point, present: set<DriverId>,
      pool: set<DriverId>) returns (acts': seq<Action>)
    requires Opened(acts, pkg, present, pool) && d in pool
    ensures Opened(acts', pkg, present + {d}, pool)
  {
    var join := Register(d, pkg, "Driver", p, p);
    acts' := acts + [join];
    Extend(acts, join, pool);
    var s, s' := Run(Initial, acts), Run(Initial, acts');
    Registered(s.store, d, d, pkg, p);
    assert s' == s.(store := DS.RegisterDriver(s.store, d, pkg, "Driver", p, p));
    forall x | x in present + {d} ensures x in DS.Entries(s'.store, pkg) && DS.Eligible(s'.store, {}, x) {
      Registered(s.store, d, x, pkg, p);
    }
  }

  lemma FirstDecline(t: TripId, pkg: PackageSlug, p: DS.Point, a: DriverId, b: DriverId, c: DriverId)
      returns (acts: seq<Action>, e: Event)
    requires t != ""
    ensures e.trip == t && JustDeclined(acts, e, b, 0, {a, b, c})
  {
    var pool := {a, b, c};
    var joined := Join([], a, pkg, p, {}, pool);
    joined := Join(joined, b, pkg, p, {} + {a}, pool);
    joined := Join(joined, c, pkg, p, {} + {a} + {b}, pool);
    assert {} + {a} + {b} + {c} == pool;
    e := Event(t, pkg, p, []);
    acts := OfferAndDecline(joined, e, None, b, 0, pool);
  }

  /** For every n there is a run over three drivers, disturbed by nothing but declines, in which the offers of one trip
      time out n times, with one decline more; without declines three would be the most. */
  lemma {:induction false} DeclinesRemoveTheBound(n: nat, t: TripId, pkg: PackageSlug, p: DS.Point, a: DriverId,
      b: DriverId, c: DriverId)
    returns (acts: seq<Action>, e: Event, last: DriverId)
    requires t != "" && a != b && b != c && a != c
    ensures DecliningRun(acts, {a, b, c}) && Timeouts(Run(Initial, acts).timedOut, t) == n && Declines(acts, t) == n + 1
    ensures e.trip == t && (last == b || last == c) && JustDeclined(acts, e, last, n, {a, b, c})
  {
    if n == 0 {
      acts, e := FirstDecline(t, pkg, p, a, b, c);
      last := b;
    } else {
      acts, e, last := DeclinesRemoveTheBound(n - 1, t, pkg, p, a, b, c);
      var next := if last == b then c else b;
      acts, e := Round(acts, e, last, a, next, n - 1, {a, b, c});
      last := next;
    }
  }
}
