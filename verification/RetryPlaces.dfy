/**
 Where each message is when one service handles its topic: at every moment in exactly one of awaiting, retry 1, 2 or 3,
 dead letters, succeeded and dropped, with as many handler runs behind it as its place says.
 */
module RetryPlaces {
  import opened RetryLadder
  import opened RetryBounds

  /** `v` is the only service with a handler for the topic. */
  ghost predicate Sole(handles: seq<bool>, v: Service) {
    v < |handles| && forall i | 0 <= i < |handles| :: handles[i] <==> i == v
  }

  /** The selected records that service `v` has yet to consume of level `l`. */
  ghost function Open(s: State, v: Service, l: nat, w: Which): nat
    requires WellFormed(s) && v < |s.handles| && l < 4
  {
    Count(Origins(s.topics[l])[s.pos[l][v]..], w)
  }

  function Done(s: State, w: Which): nat {
    Count(Origins(s.done), w)
  }

  function Dropped(s: State, w: Which): nat {
    Count(Origins(s.dropped), w)
  }

  /** The runs behind the selected succeeded records. */
  function TrailSum(recs: seq<Record>, w: Which): nat {
    if recs == [] then 0
    else
      var last := recs[|recs| - 1];
      TrailSum(recs[..|recs| - 1], w) + if Selected(w, last.origin) then |last.trail| else 0
  }

  /** How many selected records each place holds, and the runs behind the succeeded ones. */
  datatype Tally = Tally(
    open0: int, open1: int, open2: int, open3: int, letters: int, done: int, dropped: int, doneRuns: int)

  ghost function TallyOf(s: State, v: Service, w: Which): Tally
    requires WellFormed(s) && v < |s.handles|
  {
    Tally(Open(s, v, 0, w), Open(s, v, 1, w), Open(s, v, 2, w), Open(s, v, 3, w),
          Letters(s, w), Done(s, w), Dropped(s, w), TrailSum(s.done, w))
  }

  function Total(t: Tally): int {
    t.open0 + t.open1 + t.open2 + t.open3 + t.letters + t.done + t.dropped
  }

  function TotalRuns(t: Tally): int {
    t.open1 + 2 * t.open2 + 3 * t.open3 + 4 * t.letters + t.doneRuns + t.dropped
  }

  /** So many messages and so many runs are what the tally accounts for. */
  predicate Balanced(messages: int, runs: int, t: Tally) {
    messages == Total(t) && runs == TotalRuns(t)
  }

  ghost predicate Conserved(s: State, v: Service, w: Which) {
    WellFormed(s) && v < |s.handles| && Balanced(Messages(s, w), Runs(s, w), TallyOf(s, v, w))
  }

  // ---------------------------------------------------------------- one step

  lemma OpenAppended(tags: seq<nat>, p: nat, x: nat, w: Which)
    requires p <= |tags|
    ensures Count((tags + [x])[p..], w) == Count(tags[p..], w) + if Selected(w, x) then 1 else 0
  {
    assert (tags + [x])[p..] == tags[p..] + [x];
    CountSnoc(tags[p..], x, w);
  }

  lemma OriginsSnoc(recs: seq<Record>, r: Record, w: Which)
    ensures Origins(recs + [r]) == Origins(recs) + [r.origin]
    ensures Count(Origins(recs + [r]), w) == Count(Origins(recs), w) + if Selected(w, r.origin) then 1 else 0
  {
    assert Origins(recs + [r]) == Origins(recs) + [r.origin];
    CountSnoc(Origins(recs), r.origin, w);
  }

  /** Moving past a record takes it out of its place. */
  lemma AdvanceOpen(s: State, v: Service, l: nat, w: Which)
    requires WellFormed(s) && l < 4 && v < |s.handles| && s.pos[l][v] < |s.topics[l]|
    ensures var s', one := Advance(s, v, l), if Selected(w, s.topics[l][s.pos[l][v]].origin) then 1 else 0;
            && WellFormed(s') && s'.topics == s.topics && s'.handles == s.handles
            && (forall k | 0 <= k < 4 :: Open(s', v, k, w) == Open(s, v, k, w) - if k == l then one else 0)
  {
    var tags, p := Origins(s.topics[l]), s.pos[l][v];
    CountFirst(tags[p..], w);
    assert tags[p..][1..] == tags[p + 1..];
  }

  /** What handling a record, already taken out of its place, does: `mine` records go to one more place, with `runs`
      runs behind each. */
  ghost predicate Moved(s: State, s': State, v: Service, mine: bool, runs: nat, w: Which)
    requires WellFormed(s) && v < |s.handles|
  {
    && WellFormed(s') && s'.handles == s.handles && s'.topics[0] == s.topics[0]
    && Total(TallyOf(s', v, w)) == Total(TallyOf(s, v, w)) + (if mine then 1 else 0)
    && TotalRuns(TallyOf(s', v, w)) == TotalRuns(TallyOf(s, v, w)) + (if mine then runs else 0)
    && Runs(s', w) == Runs(s, w) + (if mine then 1 else 0)
  }

  lemma SameOpen(s: State, s': State, v: Service, w: Which)
    requires WellFormed(s) && v < |s.handles| && s'.topics == s.topics && s'.pos == s.pos && s'.handles == s.handles
    ensures WellFormed(s') && forall k | 0 <= k < 4 :: Open(s', v, k, w) == Open(s, v, k, w)
  {
  }

  lemma DoneTally(s: State, v: Service, run: Record, w: Which) returns (s': State)
    requires WellFormed(s) && v < |s.handles|
    ensures s' == s.(runs := s.runs + [run.origin], done := s.done + [run]) && WellFormed(s')
    ensures var t := TallyOf(s, v, w);
            TallyOf(s', v, w) ==
              if Selected(w, run.origin) then t.(done := t.done + 1, doneRuns := t.doneRuns + |run.trail|) else t
  {
    s' := s.(runs := s.runs + [run.origin], done := s.done + [run]);
    SameOpen(s, s', v, w);
    OriginsSnoc(s.done, run, w);
    assert (s.done + [run])[..|s.done|] == s.done;
  }

  lemma DroppedTally(s: State, v: Service, run: Record, w: Which) returns (s': State)
    requires WellFormed(s) && v < |s.handles|
    ensures s' == s.(runs := s.runs + [run.origin], dropped := s.dropped + [run]) && WellFormed(s')
    ensures var t := TallyOf(s, v, w);
            TallyOf(s', v, w) == if Selected(w, run.origin) then t.(dropped := t.dropped + 1) else t
  {
    s' := s.(runs := s.runs + [run.origin], dropped := s.dropped + [run]);
    SameOpen(s, s', v, w);
    OriginsSnoc(s.dropped, run, w);
  }

  lemma DeadTally(s: State, v: Service, d: DeadLetter, w: Which) returns (s': State)
    requires WellFormed(s) && v < |s.handles|
    ensures s' == s.(runs := s.runs + [d.origin], deadLetters := s.deadLetters + [d]) && WellFormed(s')
    ensures var t := TallyOf(s, v, w);
            TallyOf(s', v, w) == if Selected(w, d.origin) then t.(letters := t.letters + 1) else t
  {
    s' := s.(runs := s.runs + [d.origin], deadLetters := s.deadLetters + [d]);
    SameOpen(s, s', v, w);
    assert LetterOrigins(s.deadLetters + [d]) == LetterOrigins(s.deadLetters) + [d.origin];
    CountSnoc(LetterOrigins(s.deadLetters), d.origin, w);
  }

  /** One record more on level `l`. */
  function OneMore(t: Tally, l: nat): Tally
    requires l < 4
  {
    if l == 0 then t.(open0 := t.open0 + 1)
    else if l == 1 then t.(open1 := t.open1 + 1)
    else if l == 2 then t.(open2 := t.open2 + 1)
    else t.(open3 := t.open3 + 1)
  }

  lemma AppendOpen(s: State, v: Service, l: nat, rec: Record, w: Which)
    requires WellFormed(s) && v < |s.handles| && l < 4
    ensures var s' := s.(topics := s.topics[l := s.topics[l] + [rec]]);
            && WellFormed(s')
            && forall k | 0 <= k < 4 ::
                 Open(s', v, k, w) == Open(s, v, k, w) + if k == l && Selected(w, rec.origin) then 1 else 0
  {
    OriginsSnoc(s.topics[l], rec, w);
    OpenAppended(Origins(s.topics[l]), s.pos[l][v], rec.origin, w);
  }

  lemma UpTally(s: State, v: Service, l: nat, rec: Record, w: Which) returns (s': State)
    requires WellFormed(s) && v < |s.handles| && l < 3
    ensures s' == s.(runs := s.runs + [rec.origin], topics := s.topics[l + 1 := s.topics[l + 1] + [rec]])
    ensures WellFormed(s')
    ensures var t := TallyOf(s, v, w);
            TallyOf(s', v, w) == if Selected(w, rec.origin) then OneMore(t, l + 1) else t
  {
    var s1 := s.(runs := s.runs + [rec.origin]);
    s' := s1.(topics := s1.topics[l + 1 := s1.topics[l + 1] + [rec]]);
    SameOpen(s, s1, v, w);
    AppendOpen(s1, v, l + 1, rec, w);
  }

  /** One record more in a place, on bare numbers. */
  lemma OneMoreTotals(t: Tally, l: nat, runs: int)
    requires l < 4
    ensures Total(OneMore(t, l)) == Total(t) + 1 && TotalRuns(OneMore(t, l)) == TotalRuns(t) + l
    ensures var t' := t.(done := t.done + 1, doneRuns := t.doneRuns + runs);
            Total(t') == Total(t) + 1 && TotalRuns(t') == TotalRuns(t) + runs
    ensures var t' := t.(dropped := t.dropped + 1); Total(t') == Total(t) + 1 && TotalRuns(t') == TotalRuns(t) + 1
    ensures var t' := t.(letters := t.letters + 1); Total(t') == Total(t) + 1 && TotalRuns(t') == TotalRuns(t) + 4
  {
  }

  lemma MovedTo(s: State, s': State, v: Service, origin: nat, runs: nat, t': Tally, w: Which)
    requires WellFormed(s) && WellFormed(s') && v < |s.handles| && s'.handles == s.handles
    requires s'.topics[0] == s.topics[0] && s'.runs == s.runs + [origin]
    requires TallyOf(s', v, w) == if Selected(w, origin) then t' else TallyOf(s, v, w)
    requires Total(t') == Total(TallyOf(s, v, w)) + 1 && TotalRuns(t') == TotalRuns(TallyOf(s, v, w)) + runs
    ensures Moved(s, s', v, Selected(w, origin), runs, w)
  {
    CountSnoc(s.runs, origin, w);
  }

  lemma FailureMovesUp(s: State, v: Service, l: nat, rec: Record, w: Which)
    requires WellFormed(s) && l < 3 && v < |s.handles| && (l > 0 || rec.original.validJson)
    ensures Moved(s, Handle(s, v, l, rec, false), v, Selected(w, rec.origin), l + 1, w)
  {
    var group := if l == 0 then v else rec.group;
    var up := Record(rec.original, group, l + 1, s.now + DELAYS[l], rec.trail + [s.now], rec.origin);
    var s' := UpTally(s, v, l, up, w);
    assert Handle(s, v, l, rec, false) == s';
    OneMoreTotals(TallyOf(s, v, w), l + 1, 0);
    MovedTo(s, s', v, rec.origin, l + 1, OneMore(TallyOf(s, v, w), l + 1), w);
  }

  lemma FailureMovesOut(s: State, v: Service, rec: Record, w: Which)
    requires WellFormed(s) && v < |s.handles|
    ensures Moved(s, Handle(s, v, 3, rec, false), v, Selected(w, rec.origin), 4, w)
  {
    var t := TallyOf(s, v, w);
    var s' := DeadTally(s, v, DeadLetter(rec.original, 3, rec.trail + [s.now], rec.origin), w);
    assert Handle(s, v, 3, rec, false) == s';
    OneMoreTotals(t, 0, 0);
    MovedTo(s, s', v, rec.origin, 4, t.(letters := t.letters + 1), w);
  }

  lemma FailureDrops(s: State, v: Service, rec: Record, w: Which)
    requires WellFormed(s) && v < |s.handles| && !rec.original.validJson
    ensures Moved(s, Handle(s, v, 0, rec, false), v, Selected(w, rec.origin), 1, w)
  {
    var t := TallyOf(s, v, w);
    var s' := DroppedTally(s, v, rec.(trail := rec.trail + [s.now]), w);
    assert Handle(s, v, 0, rec, false) == s';
    OneMoreTotals(t, 0, 0);
    MovedTo(s, s', v, rec.origin, 1, t.(dropped := t.dropped + 1), w);
  }

  lemma SuccessSettles(s: State, v: Service, l: nat, rec: Record, w: Which)
    requires WellFormed(s) && l < 4 && v < |s.handles| && |rec.trail| == l
    ensures Moved(s, Handle(s, v, l, rec, true), v, Selected(w, rec.origin), l + 1, w)
  {
    var t := TallyOf(s, v, w);
    var s' := DoneTally(s, v, rec.(trail := rec.trail + [s.now]), w);
    assert Handle(s, v, l, rec, true) == s';
    OneMoreTotals(t, 0, l + 1);
    MovedTo(s, s', v, rec.origin, l + 1, t.(done := t.done + 1, doneRuns := t.doneRuns + l + 1), w);
  }

  lemma HandleMoves(s: State, v: Service, l: nat, rec: Record, ok: bool, w: Which)
    requires WellFormed(s) && l < 4 && v < |s.handles| && |rec.trail| == l
    ensures Moved(s, Handle(s, v, l, rec, ok), v, Selected(w, rec.origin), l + 1, w)
  {
    if ok {
      SuccessSettles(s, v, l, rec, w);
    } else if l == 0 && !rec.original.validJson {
      FailureDrops(s, v, rec, w);
    } else if l < 3 {
      FailureMovesUp(s, v, l, rec, w);
    } else {
      FailureMovesOut(s, v, rec, w);
    }
  }

  lemma AdvanceAccounts(s: State, v: Service, l: nat, w: Which)
    requires WellFormed(s) && l < 4 && v < |s.handles| && s.pos[l][v] < |s.topics[l]|
    ensures var mid, mine := Advance(s, v, l), Selected(w, s.topics[l][s.pos[l][v]].origin);
            && WellFormed(mid) && mid.topics == s.topics && mid.handles == s.handles && mid.runs == s.runs
            && TallyOf(s, v, w) == if mine then OneMore(TallyOf(mid, v, w), l) else TallyOf(mid, v, w)
  {
    AdvanceOpen(s, v, l, w);
  }

  /** Out of one place and into another, on bare numbers. */
  lemma BalancedMoved(messages: int, runs: int, was: Tally, mid: Tally, now: Tally, mine: bool, l: nat)
    requires l < 4 && Balanced(messages, runs, was) && was == (if mine then OneMore(mid, l) else mid)
    requires Total(now) == Total(mid) + (if mine then 1 else 0)
    requires TotalRuns(now) == TotalRuns(mid) + (if mine then l + 1 else 0)
    ensures Balanced(messages, runs + (if mine then 1 else 0), now)
  {
  }

  lemma ConservedMoved(s: State, mid: State, s': State, v: Service, l: nat, mine: bool, w: Which)
    requires Conserved(s, v, w) && l < 4 && WellFormed(mid) && mid.handles == s.handles && mid.topics == s.topics
    requires mid.runs == s.runs
    requires TallyOf(s, v, w) == if mine then OneMore(TallyOf(mid, v, w), l) else TallyOf(mid, v, w)
    requires Moved(mid, s', v, mine, l + 1, w)
    ensures Conserved(s', v, w)
  {
    BalancedMoved(Messages(s, w), Runs(s, w), TallyOf(s, v, w), TallyOf(mid, v, w), TallyOf(s', v, w), mine, l);
    assert Messages(s', w) == Messages(s, w) && Runs(s', w) == Runs(s, w) + if mine then 1 else 0;
  }

  lemma ConservedConsume(s: State, v: Service, l: nat, ok: bool, w: Which)
    requires Conserved(s, v, w) && Enabled(s, Consume(v, l, ok)) && s.handles[v]
    requires |s.topics[l][s.pos[l][v]].trail| == l
    ensures Conserved(Apply(s, Consume(v, l, ok)), v, w)
  {
    var mid, rec := Advance(s, v, l), s.topics[l][s.pos[l][v]];
    AdvanceAccounts(s, v, l, w);
    HandleMoves(mid, v, l, rec, ok, w);
    assert Apply(s, Consume(v, l, ok)) == Handle(mid, v, l, rec, ok);
    ConservedMoved(s, mid, Handle(mid, v, l, rec, ok), v, l, Selected(w, rec.origin), w);
  }

  lemma ProduceTally(s: State, v: Service, m: Original, w: Which)
    requires WellFormed(s) && v < |s.handles|
    ensures var s', t := Apply(s, Produce(m)), TallyOf(s, v, w);
            && WellFormed(s') && s'.handles == s.handles && s'.runs == s.runs
            && TallyOf(s', v, w) == (if Selected(w, |s.topics[0]|) then OneMore(t, 0) else t)
            && Messages(s', w) == Messages(s, w) + (if Selected(w, |s.topics[0]|) then 1 else 0)
  {
    WellFormedStep(s, Produce(m));
    OriginsSnoc(s.topics[0], MainRecord(s, m), w);
    AppendOpen(s, v, 0, MainRecord(s, m), w);
  }

  lemma BalancedProduced(messages: int, runs: int, t: Tally, mine: bool)
    requires Balanced(messages, runs, t)
    ensures Balanced(messages + (if mine then 1 else 0), runs, if mine then OneMore(t, 0) else t)
  {
  }

  lemma ConservedProduce(s: State, v: Service, m: Original, w: Which)
    requires Conserved(s, v, w)
    ensures Conserved(Apply(s, Produce(m)), v, w)
  {
    ProduceTally(s, v, m, w);
    BalancedProduced(Messages(s, w), Runs(s, w), TallyOf(s, v, w), Selected(w, |s.topics[0]|));
  }

  lemma SkipTally(s: State, v: Service, u: Service, l: nat, ok: bool, w: Which)
    requires WellFormed(s) && v < |s.handles| && Enabled(s, Consume(u, l, ok)) && u != v && !s.handles[u]
    ensures var s' := Apply(s, Consume(u, l, ok));
            && WellFormed(s') && s'.handles == s.handles && s'.runs == s.runs && s'.topics == s.topics
            && TallyOf(s', v, w) == TallyOf(s, v, w)
  {
    var s' := Apply(s, Consume(u, l, ok));
    WellFormedStep(s, Consume(u, l, ok));
    forall k | 0 <= k < 4 ensures Open(s', v, k, w) == Open(s, v, k, w) {}
  }

  lemma ConservedSkip(s: State, v: Service, u: Service, l: nat, ok: bool, w: Which)
    requires Conserved(s, v, w) && Enabled(s, Consume(u, l, ok)) && u != v && !s.handles[u]
    ensures Conserved(Apply(s, Consume(u, l, ok)), v, w)
  {
    SkipTally(s, v, u, l, ok, w);
  }

  lemma ConservedTick(s: State, v: Service, dt: nat, w: Which)
    requires Conserved(s, v, w)
    ensures Conserved(Apply(s, Tick(dt)), v, w)
  {
    SameOpen(s, Apply(s, Tick(dt)), v, w);
    assert TallyOf(Apply(s, Tick(dt)), v, w) == TallyOf(s, v, w);
  }

  /** A record on level `l` has `l` runs behind it. */
  lemma TrailIsLevel(s: State, v: Service, l: nat, ok: bool)
    requires Sound(s) && Enabled(s, Consume(v, l, ok))
    ensures |s.topics[l][s.pos[l][v]].trail| == l
  {
    var rec := s.topics[l][s.pos[l][v]];
    assert LogSound(s.handles, s.topics[0], l, s.topics[l]) && rec in s.topics[l];
    assert RecordSound(s.handles, s.topics[0], l, rec);
  }

  lemma ConservedConsumeStep(s: State, u: Service, l: nat, ok: bool, v: Service, w: Which)
    requires Sound(s) && Conserved(s, v, w) && Sole(s.handles, v) && Enabled(s, Consume(u, l, ok))
    ensures Conserved(Apply(s, Consume(u, l, ok)), v, w)
  {
    if u == v {
      TrailIsLevel(s, v, l, ok);
      ConservedConsume(s, v, l, ok, w);
    } else {
      ConservedSkip(s, v, u, l, ok, w);
    }
  }

  lemma ConservedStep(s: State, a: Action, v: Service, w: Which)
    requires Sound(s) && Conserved(s, v, w) && Sole(s.handles, v)
    ensures Conserved(Apply(s, a), v, w)
  {
    if !Enabled(s, a) {
      assert Apply(s, a) == s;
    } else {
      match a
      case Tick(dt) => ConservedTick(s, v, dt, w);
      case Produce(m) => ConservedProduce(s, v, m, w);
      case Consume(u, l, ok) => ConservedConsumeStep(s, u, l, ok, v, w);
    }
  }

  lemma NothingOpen(handles: seq<bool>, v: Service, l: nat, w: Which)
    requires v < |handles| && l < 4
    ensures WellFormed(Initial(handles)) && Open(Initial(handles), v, l, w) == 0
  {
    assert Origins(Initial(handles).topics[l])[Initial(handles).pos[l][v]..] == [];
  }

  lemma InitialTally(handles: seq<bool>, v: Service, w: Which)
    requires v < |handles|
    ensures var s := Initial(handles);
            && WellFormed(s) && s.handles == handles && Messages(s, w) == 0 && Runs(s, w) == 0
            && TallyOf(s, v, w) == Tally(0, 0, 0, 0, 0, 0, 0, 0)
  {
    forall l | 0 <= l < 4 ensures Open(Initial(handles), v, l, w) == 0 { NothingOpen(handles, v, l, w); }
  }

  lemma NothingBalanced()
    ensures Balanced(0, 0, Tally(0, 0, 0, 0, 0, 0, 0, 0))
  {
  }

  lemma InitialConserved(handles: seq<bool>, v: Service, w: Which)
    requires v < |handles|
    ensures Conserved(Initial(handles), v, w)
  {
    InitialTally(handles, v, w);
    NothingBalanced();
  }

  lemma {:induction false} ConservedRun(handles: seq<bool>, acts: seq<Action>, v: Service, w: Which)
    requires Sole(handles, v)
    ensures Conserved(Run(Initial(handles), acts), v, w) && Run(Initial(handles), acts).handles == handles
  {
    WellFormedRun(handles, acts);
    if acts == [] {
      InitialConserved(handles, v, w);
    } else {
      var before := acts[..|acts| - 1];
      ConservedRun(handles, before, v, w);
      SoundRun(handles, before);
      ConservedStep(Run(Initial(handles), before), acts[|acts| - 1], v, w);
    }
  }

  // ---------------------------------------------------------------- one message among others

  lemma {:induction false} CountNone(tags: seq<nat>, i: nat)
    requires forall j | 0 <= j < |tags| :: tags[j] != i
    ensures Count(tags, Only(i)) == 0
  {
    if tags != [] { CountNone(tags[..|tags| - 1], i); }
  }

  /** A message that can be wrapped is never dropped. */
  lemma WrappableNeverDropped(s: State, i: nat)
    requires Sound(s) && i < |s.topics[0]| && s.topics[0][i].original.validJson
    ensures Dropped(s, Only(i)) == 0
  {
    forall j | 0 <= j < |s.dropped| ensures Origins(s.dropped)[j] != i {
      assert s.dropped[j] in s.dropped;
      assert DroppedSound(s.topics[0], s.dropped[j]);
    }
    CountNone(Origins(s.dropped), i);
  }

  /** A message that cannot be wrapped never reaches a retry topic or the dead letters. */
  lemma UnwrappableNeverRetried(s: State, v: Service, i: nat)
    requires Sound(s) && v < |s.handles| && i < |s.topics[0]| && !s.topics[0][i].original.validJson
    ensures Letters(s, Only(i)) == 0 && forall l | 1 <= l < 4 :: Open(s, v, l, Only(i)) == 0
  {
    forall j | 0 <= j < |s.deadLetters| ensures LetterOrigins(s.deadLetters)[j] != i {
      assert LetterSound(s.topics[0], s.deadLetters[j]);
    }
    CountNone(LetterOrigins(s.deadLetters), i);
    forall l | 1 <= l < 4 ensures Open(s, v, l, Only(i)) == 0 {
      var open := Origins(s.topics[l])[s.pos[l][v]..];
      forall j | 0 <= j < |open| ensures open[j] != i {
        assert LogSound(s.handles, s.topics[0], l, s.topics[l]);
        assert s.topics[l][s.pos[l][v] + j] in s.topics[l];
        assert RecordSound(s.handles, s.topics[0], l, s.topics[l][s.pos[l][v] + j]);
      }
      CountNone(open, i);
    }
  }

  /** With one handling service, at every moment a message with a valid JSON payload is in exactly one of six places:
      awaiting, retry 1, 2 or 3, dead letters, succeeded; one that cannot be wrapped is in exactly one of awaiting,
      succeeded, dropped. The runs behind a message are those its place accounts for, and it stays with its service. */
  lemma {:induction false} ExactlyOnePlace(handles: seq<bool>, acts: seq<Action>, v: Service, i: nat)
    requires Sole(handles, v) && |Run(Initial(handles), acts).topics| == 4
    requires i < |Run(Initial(handles), acts).topics[0]|
    ensures var s, w := Run(Initial(handles), acts), Only(i);
            && WellFormed(s) && v < |s.handles|
            && (if s.topics[0][i].original.validJson then
                  && Dropped(s, w) == 0
                  && Open(s, v, 0, w) + Open(s, v, 1, w) + Open(s, v, 2, w) + Open(s, v, 3, w)
                     + Letters(s, w) + Done(s, w) == 1
                else
                  && Open(s, v, 1, w) == Open(s, v, 2, w) == Open(s, v, 3, w) == Letters(s, w) == 0
                  && Open(s, v, 0, w) + Done(s, w) + Dropped(s, w) == 1)
            && Runs(s, w) == Open(s, v, 1, w) + 2 * Open(s, v, 2, w) + 3 * Open(s, v, 3, w) + 4 * Letters(s, w)
                             + TrailSum(s.done, w) + Dropped(s, w)
            && (forall l, rec | 1 <= l <= 3 && rec in s.topics[l] :: rec.group == v)
  {
    ConservedRun(handles, acts, v, Only(i));
    MessagesCounted(handles, acts, i);
    SoundRun(handles, acts);
    var s := Run(Initial(handles), acts);
    if s.topics[0][i].original.validJson { WrappableNeverDropped(s, i); } else { UnwrappableNeverRetried(s, v, i); }
    forall l, rec | 1 <= l <= 3 && rec in s.topics[l] ensures rec.group == v {
      assert LogSound(s.handles, s.topics[0], l, s.topics[l]);
      assert RecordSound(s.handles, s.topics[0], l, rec);
    }
  }

  /** A failed run of a wrappable record touches neither the succeeded nor the dropped records, and another record's run
      not the selected part of them. */
  lemma HandleNotDone(s: State, v: Service, l: nat, rec: Record, ok: bool, w: Which)
    requires l < 4 && |s.topics| == 4 && (Selected(w, rec.origin) ==> !ok && (l > 0 || rec.original.validJson))
    ensures var s' := Handle(s, v, l, rec, ok);
            Done(s', w) == Done(s, w) && TrailSum(s'.done, w) == TrailSum(s.done, w) && Dropped(s', w) == Dropped(s, w)
  {
    var run := rec.(trail := rec.trail + [s.now]);
    OriginsSnoc(s.done, run, w);
    OriginsSnoc(s.dropped, run, w);
    assert (s.done + [run])[..|s.done|] == s.done;
  }

  lemma FailedIsNotDone(s: State, a: Action, w: Which)
    requires Sound(s) && FailingStep(s, a, w) && Wrappable(s.topics[0], w)
    ensures var s' := Apply(s, a);
            Done(s', w) == Done(s, w) && TrailSum(s'.done, w) == TrailSum(s.done, w) && Dropped(s', w) == Dropped(s, w)
  {
    if a.Consume? && Enabled(s, a) && s.handles[a.s] {
      var rec := s.topics[a.level][s.pos[a.level][a.s]];
      assert LogSound(s.handles, s.topics[0], a.level, s.topics[a.level]) && rec in s.topics[a.level];
      assert RecordSound(s.handles, s.topics[0], a.level, rec);
      HandleNotDone(Advance(s, a.s, a.level), a.s, a.level, rec, a.ok, w);
    }
  }

  lemma {:induction false} FailingNeverDone(handles: seq<bool>, acts: seq<Action>, w: Which)
    requires FailingRun(handles, acts, w)
    ensures var s := Run(Initial(handles), acts); Done(s, w) == 0 && TrailSum(s.done, w) == 0 && Dropped(s, w) == 0
  {
    if acts != [] {
      var before := acts[..|acts| - 1];
      FailingPrefix(handles, acts, w);
      FailingNeverDone(handles, before, w);
      SoundRun(handles, before);
      BoundedRun(handles, before, w);
      FailedIsNotDone(Run(Initial(handles), before), acts[|acts| - 1], w);
    }
  }

  lemma {:induction false} LetterOf(letters: seq<DeadLetter>, i: nat)
    ensures Count(LetterOrigins(letters), Only(i)) > 0 <==> exists d :: d in letters && d.origin == i
  {
    if letters != [] {
      var n := |letters| - 1;
      LetterOf(letters[..n], i);
      assert LetterOrigins(letters)[..n] == LetterOrigins(letters[..n]);
      if letters[n].origin == i {
        assert letters[n] in letters;
      } else if exists d :: d in letters && d.origin == i {
        var d :| d in letters && d.origin == i;
        assert d in letters[..n];
      }
    }
  }

  /** With one handling service: a message whose every handler run fails, whatever the others do, is on the level of
      its run count until it was run four times, and then it is one dead letter: the message unchanged, with three
      retries, the last run at least 36 minutes after the first. */
  lemma {:induction false} AlwaysFailingRunsFourTimes(handles: seq<bool>, acts: seq<Action>, v: Service, i: nat)
    requires Sole(handles, v) && FailingRun(handles, acts, Only(i))
    requires |Run(Initial(handles), acts).topics| == 4 && i < |Run(Initial(handles), acts).topics[0]|
    ensures var s, w := Run(Initial(handles), acts), Only(i);
            && WellFormed(s) && v < |s.handles|
            && Runs(s, w) <= 4
            && (forall l | 0 <= l < 4 :: Open(s, v, l, w) == if Runs(s, w) == l then 1 else 0)
            && Letters(s, w) == (if Runs(s, w) == 4 then 1 else 0)
            && (Runs(s, w) == 4 <==> exists d :: d in s.deadLetters && d.origin == i)
            && (forall d | d in s.deadLetters && d.origin == i ::
                  && d.original == s.topics[0][i].original && d.retryCount == 3
                  && |d.trail| == 4 && d.trail[3] >= d.trail[0] + 36 * 60)
  {
    ExactlyOnePlace(handles, acts, v, i);
    FailingNeverDone(handles, acts, Only(i));
    LadderIsSound(handles, acts);
    LetterOf(Run(Initial(handles), acts).deadLetters, i);
  }
}
