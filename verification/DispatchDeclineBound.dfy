/**
 The bound on timed-out offers when drivers may decline. The search message after a decline names the decliner only, so
 the exclusion list forgets what it held; each decline can therefore buy the trip one more round over all but two of the
 pool, no more. A declined trip is not lost: it comes back when its search message arrives.
 */
module DispatchDeclineBound {
  import opened Common
  import opened Dispatch
  import opened DispatchTimers
  import opened DispatchExclusion
  import opened DispatchConservation
  import DS = DriverStore

  /** The driver on offer declines. */
  predicate OfferedDecline(s: State, a: Action) {
    a.Respond? && a.decline && a.t in s.pending && s.pending[a.t].driver == a.d
  }

  /** The search messages the trip service still has to send for declined offers. */
  ghost function Owed(acts: seq<Action>): map<TripId, Event> {
    if acts == [] then map[]
    else
      var before, a := acts[..|acts| - 1], acts[|acts| - 1];
      OwedAfter(Run(Initial, before), a, Owed(before))
  }

  ghost function OwedAfter(s: State, a: Action, owed: map<TripId, Event>): map<TripId, Event> {
    if OfferedDecline(s, a) then owed[a.t := AfterDecline(s.pending[a.t].event, a.d)]
    else if a.Search? && a.source.None? then owed - {a.e.trip}
    else owed
  }

  /** The timeouts that the exclusion lists have forgotten: all but the one entry for the decliner. */
  ghost function Forgotten(acts: seq<Action>): map<TripId, int> {
    if acts == [] then map[]
    else
      var before, a := acts[..|acts| - 1], acts[|acts| - 1];
      ForgottenAfter(Run(Initial, before), a, Forgotten(before))
  }

  ghost function ForgottenAfter(s: State, a: Action, base: map<TripId, int>): map<TripId, int> {
    if OfferedDecline(s, a) then base[a.t := Timeouts(s.timedOut, a.t) - 1] else base
  }

  ghost function Declines(acts: seq<Action>, t: TripId): nat {
    if acts == [] then 0
    else
      var before, a := acts[..|acts| - 1], acts[|acts| - 1];
      Declines(before, t) + if OfferedDecline(Run(Initial, before), a) && a.t == t then 1 else 0
  }

  /** The search message for a declined offer arrives. */
  predicate Answers(a: Action, owed: map<TripId, Event>) {
    a.Search? && a.source.None? && a.e.trip in owed && owed[a.e.trip] == a.e && (a.picked.None? ==> a.sent)
  }

  /** As undisturbed as in `DispatchExclusion`, except that a driver on offer may decline, and that its search message
      then arrives once, at any later time. */
  ghost predicate DecliningStep(before: seq<Action>, a: Action, pool: set<DriverId>) {
    var s := Run(Initial, before);
    Valid(s, a) && (Undisturbed(s, a, pool) || OfferedDecline(s, a) || Answers(a, Owed(before)))
  }

  ghost predicate DecliningRun(acts: seq<Action>, pool: set<DriverId>) {
    forall i | 0 <= i < |acts| :: DecliningStep(acts[..i], acts[i], pool)
  }

  lemma {:induction false} DecliningPrefix(acts: seq<Action>, pool: set<DriverId>)
    requires DecliningRun(acts, pool) && acts != []
    ensures var n := |acts| - 1; DecliningRun(acts[..n], pool) && DecliningStep(acts[..n], acts[n], pool)
  {
    var before := acts[..|acts| - 1];
    forall i | 0 <= i < |before| ensures DecliningStep(before[..i], before[i], pool) {
      assert before[..i] == acts[..i];
    }
  }

  // ---------------------------------------------------------------- one step

  /** A declined trip is nowhere until its search message arrives, and the list in that message is a good one. */
  ghost predicate OwedSound(s: State, owed: map<TripId, Event>, pool: set<DriverId>, base: map<TripId, int>) {
    forall t | t in owed :: t != "" && owed[t].trip == t && Homeless(s, t) && Listed(owed[t], s.timedOut, pool, base)
  }

  lemma HomelessIsNowhere(s: State, t: TripId)
    ensures Homeless(s, t) <==> t in s.seen && !Somewhere(s, t)
  {
  }

  /** Only the timer of an open offer adds a timeout. */
  lemma TimeoutsStay(s: State, a: Action, t: TripId)
    requires t !in s.pending
    ensures Timeouts(Apply(s, a).timedOut, t) == Timeouts(s.timedOut, t)
  {
    if a.Fire? && a.k in s.timers { TimeoutsSnoc(s.timedOut, s.timers[a.k].event.trip, t); }
    else if a.Search? { SearchKeepsTimeouts(s, a); }
    else if a.Match? { MatchKeepsTimeouts(s, a); }
    else if !a.Fire? { OthersKeepTimeouts(s, a); }
  }

  lemma OthersKeepTimeouts(s: State, a: Action)
    requires !a.Fire? && !a.Search? && !a.Match?
    ensures Apply(s, a).timedOut == s.timedOut
  {
  }

  lemma SeenGrows(s: State, a: Action)
    ensures s.seen <= Apply(s, a).seen
  {
    SeenStep(s, a);
  }

  /** A trip that is owed a message stays homeless, with the same timeouts, over every step that is not its search. */
  lemma OwedStays(s: State, a: Action, t: TripId, pool: set<DriverId>)
    requires Keyed(s) && TimersSound(s) && OnePlace(s) && Valid(s, a) && Homeless(s, t)
    requires (Undisturbed(s, a, pool) || OfferedDecline(s, a) || (a.Search? && a.source.None?))
        && !(a.Search? && a.e.trip == t)
    ensures Homeless(Apply(s, a), t) && Timeouts(Apply(s, a).timedOut, t) == Timeouts(s.timedOut, t)
  {
    TimeoutsStay(s, a, t);
    SeenGrows(s, a);
    HomelessIsNowhere(s, t);
    HomelessIsNowhere(Apply(s, a), t);
    if a.Search? { SearchConserves(s, a.e, a.source, a.store', a.picked, a.sent, t); }
    else if a.Respond? { ResponseConserves(s, a.t, a.d, a.decline, t); }
    else { GoneStaysGone(s, a, t, pool); }
  }

  lemma UndisturbedKeepsOwed(s: State, a: Action, owed: map<TripId, Event>, pool: set<DriverId>, base: map<TripId, int>)
    requires Inv(s, pool, base) && OwedSound(s, owed, pool, base) && Valid(s, a) && Undisturbed(s, a, pool)
    ensures OwedSound(Apply(s, a), OwedAfter(s, a, owed), pool, base)
  {
    forall t | t in OwedAfter(s, a, owed)
        ensures Homeless(Apply(s, a), t) && Listed(owed[t], Apply(s, a).timedOut, pool, base) {
      if a.Search? && a.source.Some? { assert Homeless(s, t); }
      OwedStays(s, a, t, pool);
    }
  }

  /** New base for a homeless trip: no stored event speaks about it. */
  lemma Rebase(s: State, t: TripId, pool: set<DriverId>, base: map<TripId, int>, forgotten: int)
    requires Places(s, pool, base) && Keyed(s) && Homeless(s, t)
    ensures Places(s, pool, base[t := forgotten])
  {
  }

  lemma DeclineOpens(s: State, a: Action, pool: set<DriverId>, base: map<TripId, int>)
    requires Inv(s, pool, base) && OfferedDecline(s, a)
    ensures var s' := Apply(s, a);
            && Keyed(s') && TimersSound(s') && InPool(s'.store, pool) && Places(s', pool, base)
                && s'.timedOut == s.timedOut
            && Homeless(s', a.t)
  {
    var s' := Apply(s, a);
    KeyedStep(s, a);
    TimersSoundStep(s, a);
    PoolStep(s, a, pool);
    OtherStep(s, a);
    DropsKeep(s, s', pool, base);
    SoundTake(s, a.t);
    assert s'.pending == TakeAndCancel(s, a.t).pending;
  }

  /** The list of the offer fits into the pool, beside its driver. */
  lemma ListFits(s: State, t: TripId, pool: set<DriverId>, base: map<TripId, int>)
    requires Inv(s, pool, base) && t in s.pending
    ensures 1 <= |pool| && Timeouts(s.timedOut, t) + 1 <= Base(base, t) + |pool|
  {
    var o := s.pending[t];
    assert Listed(o.event, s.timedOut, pool, base) && o.event.trip == t;
    NoRepeatsFit(o.event.excluded + [o.driver], pool);
  }

  lemma DeclineInv(s: State, a: Action, pool: set<DriverId>, base: map<TripId, int>)
    requires Inv(s, pool, base) && OfferedDecline(s, a)
    ensures Inv(Apply(s, a), pool, ForgottenAfter(s, a, base))
    ensures Base(ForgottenAfter(s, a, base), a.t) <= Base(base, a.t) + |pool| - 2
  {
    var s', base' := Apply(s, a), ForgottenAfter(s, a, base);
    DeclineOpens(s, a, pool, base);
    ListFits(s, a.t, pool, base);
    Rebase(s', a.t, pool, base, Timeouts(s.timedOut, a.t) - 1);
    forall t ensures Timeouts(s'.timedOut, t) <= Base(base', t) + |pool| {
      assert t != a.t ==> Base(base', t) == Base(base, t);
    }
  }

  lemma DeclineOwes(s: State, a: Action, owed: map<TripId, Event>, pool: set<DriverId>, base: map<TripId, int>)
    requires Inv(s, pool, base) && OwedSound(s, owed, pool, base) && OfferedDecline(s, a)
    ensures OwedSound(Apply(s, a), OwedAfter(s, a, owed), pool, ForgottenAfter(s, a, base))
  {
    var s', base', owed' := Apply(s, a), ForgottenAfter(s, a, base), OwedAfter(s, a, owed);
    DeclineOpens(s, a, pool, base);
    ListFits(s, a.t, pool, base);
    forall t | t in owed'
      ensures t != "" && owed'[t].trip == t && Homeless(s', t) && Listed(owed'[t], s'.timedOut, pool, base')
    {
      if t != a.t {
        OwedStays(s, a, t, pool);
        assert Base(base', t) == Base(base, t);
      }
    }
  }

  lemma AnswerStep(s: State, a: Action, owed: map<TripId, Event>, pool: set<DriverId>, base: map<TripId, int>)
    requires Inv(s, pool, base) && OwedSound(s, owed, pool, base) && Valid(s, a) && Answers(a, owed)
    ensures Inv(Apply(s, a), pool, base) && OwedSound(Apply(s, a), OwedAfter(s, a, owed), pool, base)
  {
    var s' := Apply(s, a);
    KeyedStep(s, a);
    TimersSoundStep(s, a);
    PoolStep(s, a, pool);
    SearchPlaced(s, a.e, a.store', a.picked, a.sent, pool, base);
    SearchKeepsTimeouts(s, a);
    forall t | t in OwedAfter(s, a, owed) ensures Homeless(s', t) && Listed(owed[t], s'.timedOut, pool, base) {
      OwedStays(s, a, t, pool);
    }
  }

  // ---------------------------------------------------------------- whole runs

  ghost predicate Accounted(acts: seq<Action>, pool: set<DriverId>) {
    && Inv(Run(Initial, acts), pool, Forgotten(acts))
    && OwedSound(Run(Initial, acts), Owed(acts), pool, Forgotten(acts))
    && forall t :: Base(Forgotten(acts), t) <= Declines(acts, t) * (|pool| - 2)
  }

  lemma AccountedStep(before: seq<Action>, a: Action, pool: set<DriverId>)
    requires Accounted(before, pool) && DecliningStep(before, a, pool)
    ensures var s := Run(Initial, before);
            var base' := ForgottenAfter(s, a, Forgotten(before));
            && Inv(Apply(s, a), pool, base') && OwedSound(Apply(s, a), OwedAfter(s, a, Owed(before)), pool, base')
            && (OfferedDecline(s, a) ==> Base(base', a.t) <= Base(Forgotten(before), a.t) + |pool| - 2)
  {
    var s, base := Run(Initial, before), Forgotten(before);
    if OfferedDecline(s, a) {
      DeclineInv(s, a, pool, base);
      DeclineOwes(s, a, Owed(before), pool, base);
    } else if Undisturbed(s, a, pool) {
      InvStep(s, a, pool, base);
      UndisturbedKeepsOwed(s, a, Owed(before), pool, base);
    } else {
      AnswerStep(s, a, Owed(before), pool, base);
    }
  }

  lemma OneMoreRound(d: nat, d': nat, n: int, b: int, b': int, mine: bool)
    requires b <= d * n && d' == d + (if mine then 1 else 0) && b' <= b + (if mine then n else 0)
    ensures b' <= d' * n
  {
    if mine { assert d' * n == d * n + n; }
  }

  lemma BasesBounded(acts: seq<Action>, n: int, t: TripId)
    requires acts != []
    requires var before, a := acts[..|acts| - 1], acts[|acts| - 1];
             && Base(Forgotten(before), t) <= Declines(before, t) * n
             && (OfferedDecline(Run(Initial, before), a) && a.t == t ==>
                   Base(Forgotten(acts), t) <= Base(Forgotten(before), t) + n)
    ensures Base(Forgotten(acts), t) <= Declines(acts, t) * n
  {
    var before, a := acts[..|acts| - 1], acts[|acts| - 1];
    var mine := OfferedDecline(Run(Initial, before), a) && a.t == t;
    OneMoreRound(Declines(before, t), Declines(acts, t), n, Base(Forgotten(before), t), Base(Forgotten(acts), t), mine);
  }

  lemma {:induction false} AccountedRun(acts: seq<Action>, pool: set<DriverId>)
    requires DecliningRun(acts, pool)
    ensures Accounted(acts, pool)
  {
    if acts == [] {
      InvRun([], pool);
    } else {
      var before := acts[..|acts| - 1];
      DecliningPrefix(acts, pool);
      AccountedRun(before, pool);
      AccountedStep(before, acts[|acts| - 1], pool);
      forall t ensures Base(Forgotten(acts), t) <= Declines(acts, t) * (|pool| - 2) {
        BasesBounded(acts, |pool| - 2, t);
      }
    }
  }

  /** With a pool of n drivers, the offers of a trip that was declined d times time out at most d (n - 2) + n times:
      each decline lets at most n - 2 of them be asked again. With two drivers, declines add nothing. */
  lemma {:induction false} TimeoutsBoundedByDeclines(acts: seq<Action>, pool: set<DriverId>, t: TripId)
    requires DecliningRun(acts, pool)
    ensures Timeouts(Run(Initial, acts).timedOut, t) <= Declines(acts, t) * (|pool| - 2) + |pool|
  {
    AccountedRun(acts, pool);
    assert Base(Forgotten(acts), t) <= Declines(acts, t) * (|pool| - 2);
  }

  // ---------------------------------------------------------------- a declined trip is not lost

  /** The step ends the search of `t` for good; a decline does not, since its search message is still owed. */
  predicate EndsForGood(s: State, a: Action, t: TripId) {
    Ends(s, a, t) && !OfferedDecline(s, a)
  }

  ghost predicate EndsForGoodAt(acts: seq<Action>, i: nat, t: TripId)
    requires i < |acts|
  {
    EndsForGood(Run(Initial, acts[..i]), acts[i], t)
  }

  ghost predicate NeverEndedForGood(acts: seq<Action>, t: TripId) {
    forall i | 0 <= i < |acts| :: !EndsForGoodAt(acts, i, t)
  }

  lemma {:induction false} NeverEndedForGoodPrefix(acts: seq<Action>, t: TripId)
    requires acts != []
    ensures var n := |acts| - 1;
            NeverEndedForGood(acts, t) <==>
              NeverEndedForGood(acts[..n], t) && !EndsForGood(Run(Initial, acts[..n]), acts[n], t)
  {
    var n := |acts| - 1;
    forall i | 0 <= i < n ensures EndsForGoodAt(acts[..n], i, t) <==> EndsForGoodAt(acts, i, t) {
      assert acts[..n][..i] == acts[..i];
    }
    assert EndsForGoodAt(acts, n, t) <==> EndsForGood(Run(Initial, acts[..n]), acts[n], t);
  }

  /** While its message is owed, a declined trip is nowhere; it comes back exactly when the message arrives. */
  lemma OwedComesBackIff(before: seq<Action>, a: Action, pool: set<DriverId>, t: TripId)
    requires Accounted(before, pool) && DecliningStep(before, a, pool) && t in Owed(before)
    ensures var s := Run(Initial, before);
            && !Somewhere(s, t) && !Ends(s, a, t)
            && (Somewhere(Apply(s, a), t) <==> a.Search? && a.e.trip == t)
            && (t in OwedAfter(s, a, Owed(before)) <==> !(a.Search? && a.e.trip == t))
  {
    var s := Run(Initial, before);
    assert Homeless(s, t);
    HomelessIsNowhere(s, t);
    if Ends(s, a, t) { EndsNeedsPlace(s, a, t); }
    if a.Search? && a.e.trip == t {
      SearchConserves(s, a.e, a.source, a.store', a.picked, a.sent, t);
    } else {
      OwedStays(s, a, t, pool);
      HomelessIsNowhere(Apply(s, a), t);
    }
  }

  lemma SomewhereOrOwed(before: seq<Action>, a: Action, pool: set<DriverId>, t: TripId)
    requires Accounted(before, pool) && DecliningStep(before, a, pool) && Somewhere(Run(Initial, before), t)
    ensures var s := Run(Initial, before);
            && t !in Owed(before)
            && (Somewhere(Apply(s, a), t) <==> !Ends(s, a, t))
            && (t in OwedAfter(s, a, Owed(before)) <==> Ends(s, a, t) && OfferedDecline(s, a))
  {
    var s := Run(Initial, before);
    if t in Owed(before) { HomelessIsNowhere(s, t); }
    LeavesIffEnds(s, a, t);
  }

  lemma NeitherStaysNeither(before: seq<Action>, a: Action, pool: set<DriverId>, t: TripId)
    requires Accounted(before, pool) && DecliningStep(before, a, pool)
    requires !Somewhere(Run(Initial, before), t) && t !in Owed(before)
    ensures var s := Run(Initial, before);
            && t !in OwedAfter(s, a, Owed(before)) && !Ends(s, a, t)
            && (Somewhere(Apply(s, a), t) <==> a.Search? && a.e.trip == t)
            && (a.Search? && a.e.trip == t ==> t !in s.seen)
  {
    var s := Run(Initial, before);
    if Ends(s, a, t) { EndsNeedsPlace(s, a, t); }
    if a.Search? {
      if a.source.Some? { assert InFlight(s.requeued, a.e.trip); }
      SearchConserves(s, a.e, a.source, a.store', a.picked, a.sent, t);
    } else if a.Respond? {
      ResponseConserves(s, a.t, a.d, a.decline, t);
    } else {
      GoneStaysGone(s, a, t, pool);
    }
  }

  /** Over whole runs with declines: a trip that was searched for is in flight, waiting, on offer, or owed its search
      message after a decline, and never both, if and only if no step ended its search for good. */
  lemma {:induction false} TrackedIffNotEnded(acts: seq<Action>, pool: set<DriverId>, t: TripId)
    requires DecliningRun(acts, pool)
    ensures var s := Run(Initial, acts);
            && (Somewhere(s, t) || t in Owed(acts) <==> t in s.seen && NeverEndedForGood(acts, t))
            && !(Somewhere(s, t) && t in Owed(acts))
            && (t !in s.seen ==> NeverEndedForGood(acts, t))
  {
    if acts != [] {
      var before, a := acts[..|acts| - 1], acts[|acts| - 1];
      var s := Run(Initial, before);
      DecliningPrefix(acts, pool);
      AccountedRun(before, pool);
      NeverEndedForGoodPrefix(acts, t);
      TrackedIffNotEnded(before, pool, t);
      SeenStep(s, a);
      if t in Owed(before) {
        OwedComesBackIff(before, a, pool, t);
      } else if Somewhere(s, t) {
        SomewhereOrOwed(before, a, pool, t);
      } else {
        NeitherStaysNeither(before, a, pool, t);
      }
    }
  }
}
