/**
 The bound of `DispatchDeclineBound` is exact: for every pool of at least two drivers and every number of declines there
 is a run that reaches it.
 */
module DispatchDeclineTight {
  import opened Common
  import opened Dispatch
  import opened DispatchExclusion
  import opened DispatchDeclineBound
  import opened DispatchDecline
  import DS = DriverStore

  /** The search message `e` may arrive next: it is in flight, is a created-message, or is owed after a decline. */
  ghost predicate MayAsk(acts: seq<Action>, e: Event, source: Option<nat>) {
    || source == Some(0)
    || (source == None && e.trip !in Run(Initial, acts).seen && e.excluded == [])
    || (source == None && e.trip in Owed(acts) && Owed(acts)[e.trip] == e)
  }

  /** Everybody is free, `e` may arrive next, and its trip has had `n` timeouts and `d` declines. */
  ghost predicate Between(acts: seq<Action>, e: Event, source: Option<nat>, n: nat, d: nat, pool: set<DriverId>) {
    && DecliningRun(acts, pool) && e.trip != ""
    && Idle(Run(Initial, acts), e.pkg, pool, if source == None then [] else [e])
    && MayAsk(acts, e, source)
    && Timeouts(Run(Initial, acts).timedOut, e.trip) == n && Declines(acts, e.trip) == d
  }

  lemma {:induction false} AskOne(acts: seq<Action>, e: Event, source: Option<nat>, x: DriverId, n: nat, d: nat,
                                  pool: set<DriverId>) returns (acts': seq<Action>)
    requires Between(acts, e, source, n, d, pool) && x in pool && x !in e.excluded
    ensures DecliningRun(acts', pool) && Declines(acts', e.trip) == d
    ensures var s, s' := Run(Initial, acts), Run(Initial, acts');
            OnOffer(s', s.store, e, x, s.nextTimer) && s'.timedOut == s.timedOut && Ready(s.store, e.pkg, pool)
  {
    var ask := Ask(Run(Initial, acts), e, source, x);
    Asked(Run(Initial, acts), e, source, x, pool);
    Extend(acts, ask, pool);
    acts' := acts + [ask];
  }

  lemma {:induction false} AskedTimesOut(acts: seq<Action>, e: Event, source: Option<nat>, x: DriverId, n: nat, d: nat,
                                         pool: set<DriverId>) returns (acts': seq<Action>)
    requires Between(acts, e, source, n, d, pool) && x in pool && x !in e.excluded
    ensures Between(acts', Extended(e, x), Some(0), n + 1, d, pool)
  {
    var s := Run(Initial, acts);
    var asked := AskOne(acts, e, source, x, n, d, pool);
    TimedOut(Run(Initial, asked), s.store, e, x, s.nextTimer, pool);
    Extend(asked, Fire(s.nextTimer, true), pool);
    acts' := asked + [Fire(s.nextTimer, true)];
  }

  lemma {:induction false} AskedDeclines(acts: seq<Action>, e: Event, source: Option<nat>, x: DriverId, n: nat, d: nat,
                                         pool: set<DriverId>) returns (acts': seq<Action>)
    requires Between(acts, e, source, n, d, pool) && x in pool && x !in e.excluded
    ensures Between(acts', AfterDecline(e, x), None, n, d + 1, pool)
  {
    var s := Run(Initial, acts);
    var asked := AskOne(acts, e, source, x, n, d, pool);
    Declined(Run(Initial, asked), s.store, e, x, s.nextTimer, pool);
    Extend(asked, Respond(e.trip, x, true), pool);
    acts' := asked + [Respond(e.trip, x, true)];
  }

  /** The drivers `xs` are new to the list of `e`. */
  ghost predicate NewTo(e: Event, xs: seq<DriverId>, pool: set<DriverId>) {
    NoRepeats(xs) && forall x | x in xs :: x in pool && x !in e.excluded
  }

  lemma TailIsNew(e: Event, xs: seq<DriverId>, pool: set<DriverId>)
    requires NewTo(e, xs, pool) && xs != []
    ensures NewTo(Extended(e, xs[0]), xs[1..], pool)
    ensures e.excluded + xs == Extended(e, xs[0]).excluded + xs[1..]
  {
    forall x | x in xs[1..] ensures x in pool && x !in Extended(e, xs[0]).excluded {
      var i :| 0 <= i < |xs| - 1 && xs[1..][i] == x;
      assert xs[i + 1] == x;
    }
  }

  /** All of `xs` are asked in turn and let the offer time out. */
  lemma {:induction false} AllTimeOut(acts: seq<Action>, e: Event, source: Option<nat>, xs: seq<DriverId>, n: nat,
      d: nat, pool: set<DriverId>)
    returns (acts': seq<Action>, e': Event, source': Option<nat>)
    requires Between(acts, e, source, n, d, pool) && NewTo(e, xs, pool)
    ensures e' == e.(excluded := e.excluded + xs) && Between(acts', e', source', n + |xs|, d, pool)
    decreases |xs|
  {
    if xs == [] {
      assert e.excluded + xs == e.excluded;
      acts', e', source' := acts, e, source;
    } else {
      var first := AskedTimesOut(acts, e, source, xs[0], n, d, pool);
      TailIsNew(e, xs, pool);
      acts', e', source' := AllTimeOut(first, Extended(e, xs[0]), Some(0), xs[1..], n + 1, d, pool);
    }
  }

  /** The drivers of `xs` as a pool. */
  function Pool(xs: seq<DriverId>): set<DriverId> {
    set x | x in xs
  }

  lemma PoolSnoc(xs: seq<DriverId>, n: nat)
    requires 0 < n <= |xs|
    ensures Pool(xs[..n]) == Pool(xs[..n - 1]) + {xs[n - 1]} && xs[n - 1] in Pool(xs)
  {
    assert xs[..n] == xs[..n - 1] + [xs[n - 1]];
  }

  lemma {:induction false} AllJoin(xs: seq<DriverId>, n: nat, pkg: PackageSlug, p: DS.Point) returns (acts: seq<Action>)
    requires n <= |xs|
    ensures Opened(acts, pkg, Pool(xs[..n]), Pool(xs))
  {
    if n == 0 {
      acts := [];
    } else {
      acts := AllJoin(xs, n - 1, pkg, p);
      acts := Join(acts, xs[n - 1], pkg, p, Pool(xs[..n - 1]), Pool(xs));
      PoolSnoc(xs, n);
    }
  }

  /** Before the first decline: the created-message can arrive. */
  lemma Start(xs: seq<DriverId>, t: TripId, pkg: PackageSlug, p: DS.Point) returns (acts: seq<Action>)
    requires t != ""
    ensures Between(acts, Event(t, pkg, p, []), None, 0, 0, Pool(xs))
  {
    acts := AllJoin(xs, |xs|, pkg, p);
    assert xs[..|xs|] == xs;
  }

  /** All but two of `xs`, and all but the given one of the first two. */
  function Rest(xs: seq<DriverId>): seq<DriverId>
    requires |xs| >= 2
  {
    xs[2..]
  }

  function Other(xs: seq<DriverId>, i: nat): DriverId
    requires |xs| >= 2 && i < 2
  {
    xs[1 - i]
  }

  lemma RestIsNew(xs: seq<DriverId>, i: nat)
    requires |xs| >= 2 && i < 2 && NoRepeats(xs)
    ensures NoRepeats([Other(xs, i)] + Rest(xs)) && |[Other(xs, i)] + Rest(xs)| == |xs| - 1
    ensures NoRepeats(Rest(xs))
    ensures forall x | x in [Other(xs, i)] + Rest(xs) :: x in Pool(xs) && x != xs[i]
    ensures Other(xs, i) !in Rest(xs)
  {
    forall j | 0 <= j < |Rest(xs)| ensures Rest(xs)[j] != Other(xs, i) {
      assert Rest(xs)[j] == xs[j + 2];
    }
    var ys := [Other(xs, i)] + Rest(xs);
    forall j, k | 0 <= j < k < |ys| ensures ys[j] != ys[k] {
      assert ys[k] == xs[k + 1] && ys[j] == if j == 0 then xs[1 - i] else xs[j + 1];
    }
    forall x | x in ys ensures x in Pool(xs) && x != xs[i] {
      var j :| 0 <= j < |ys| && ys[j] == x;
      assert x == if j == 0 then xs[1 - i] else xs[j + 1];
    }
  }

  /** The trip was declined last by `xs[i]`, and has had `d + 1` declines and `n` timeouts. */
  ghost predicate AfterRound(acts: seq<Action>, e: Event, i: nat, n: nat, d: nat, xs: seq<DriverId>)
    requires |xs| >= 2
  {
    i < 2 && e.excluded == [xs[i]] && Between(acts, e, None, n, d + 1, Pool(xs))
  }

  /** The first round: all but one time out, and that one declines. */
  lemma FirstRound(xs: seq<DriverId>, t: TripId, pkg: PackageSlug, p: DS.Point) returns (acts: seq<Action>, e: Event)
    requires t != "" && |xs| >= 2 && NoRepeats(xs)
    ensures e.trip == t && AfterRound(acts, e, 0, |xs| - 1, 0, xs)
  {
    RestIsNew(xs, 0);
    acts := Start(xs, t, pkg, p);
    var source;
    acts, e, source := AllTimeOut(acts, Event(t, pkg, p, []), None, [Other(xs, 0)] + Rest(xs), 0, 0, Pool(xs));
    assert xs[0] !in e.excluded;
    acts := AskedDeclines(acts, e, source, xs[0], |xs| - 1, 0, Pool(xs));
    e := AfterDecline(e, xs[0]);
  }

  /** A further round: all but the last decliner and the next one time out, and the next one declines. */
  lemma NextRound(acts: seq<Action>, e: Event, i: nat, n: nat, d: nat, xs: seq<DriverId>)
    returns (acts': seq<Action>, e': Event)
    requires |xs| >= 2 && NoRepeats(xs) && AfterRound(acts, e, i, n, d, xs)
    ensures e'.trip == e.trip && AfterRound(acts', e', 1 - i, n + |xs| - 2, d + 1, xs)
  {
    RestIsNew(xs, i);
    forall x | x in Rest(xs) ensures x in Pool(xs) && x !in e.excluded {
      assert x in [Other(xs, i)] + Rest(xs);
    }
    var source;
    acts', e', source := AllTimeOut(acts, e, None, Rest(xs), n, d + 1, Pool(xs));
    assert Other(xs, i) in [Other(xs, i)] + Rest(xs);
    acts' := AskedDeclines(acts', e', source, Other(xs, i), n + |xs| - 2, d + 1, Pool(xs));
    e' := AfterDecline(e', Other(xs, i));
  }

  lemma OneMoreRound(d: nat, m: int)
    requires d > 0
    ensures (d - 1) * m + m == d * m
  {
  }

  lemma {:induction false} Rounds(d: nat, xs: seq<DriverId>, t: TripId, pkg: PackageSlug, p: DS.Point)
    returns (acts: seq<Action>, e: Event, i: nat, n: nat)
    requires t != "" && |xs| >= 2 && NoRepeats(xs)
    ensures e.trip == t && n == d * (|xs| - 2) + |xs| - 1 && AfterRound(acts, e, i, n, d, xs)
  {
    if d == 0 {
      acts, e := FirstRound(xs, t, pkg, p);
      i, n := 0, |xs| - 1;
    } else {
      acts, e, i, n := Rounds(d - 1, xs, t, pkg, p);
      acts, e := NextRound(acts, e, i, n, d - 1, xs);
      OneMoreRound(d, |xs| - 2);
      i, n := 1 - i, n + |xs| - 2;
    }
  }

  lemma NoDeclines(xs: seq<DriverId>, t: TripId, pkg: PackageSlug, p: DS.Point) returns (acts: seq<Action>)
    requires t != "" && NoRepeats(xs)
    ensures DecliningRun(acts, Pool(xs)) && Declines(acts, t) == 0 && Timeouts(Run(Initial, acts).timedOut, t) == |xs|
  {
    acts := Start(xs, t, pkg, p);
    var e, source;
    acts, e, source := AllTimeOut(acts, Event(t, pkg, p, []), None, xs, 0, 0, Pool(xs));
  }

  /** After the last decline, all but the decliner time out once more. */
  lemma LastRound(acts: seq<Action>, e: Event, i: nat, n: nat, d: nat, xs: seq<DriverId>) returns (acts': seq<Action>)
    requires |xs| >= 2 && NoRepeats(xs) && AfterRound(acts, e, i, n, d, xs)
    ensures DecliningRun(acts', Pool(xs)) && Declines(acts', e.trip) == d + 1
    ensures Timeouts(Run(Initial, acts').timedOut, e.trip) == n + |xs| - 1
  {
    RestIsNew(xs, i);
    var e', source;
    acts', e', source := AllTimeOut(acts, e, None, [Other(xs, i)] + Rest(xs), n, d + 1, Pool(xs));
  }

  /** With a pool of n >= 2 drivers and any number d of declines, some run has exactly d (n - 2) + n timed-out offers of
      one trip, so the bound cannot be improved. */
  lemma DeclineBoundIsReached(d: nat, xs: seq<DriverId>, t: TripId, pkg: PackageSlug, p: DS.Point)
    returns (acts: seq<Action>)
    requires t != "" && |xs| >= 2 && NoRepeats(xs)
    ensures DecliningRun(acts, Pool(xs)) && Declines(acts, t) == d
    ensures Timeouts(Run(Initial, acts).timedOut, t) == d * (|xs| - 2) + |xs|
  {
    if d == 0 {
      acts := NoDeclines(xs, t, pkg, p);
    } else {
      var e, i, n;
      acts, e, i, n := Rounds(d - 1, xs, t, pkg, p);
      acts := LastRound(acts, e, i, n, d - 1, xs);
      OneMoreRound(d, |xs| - 2);
    }
  }
}
