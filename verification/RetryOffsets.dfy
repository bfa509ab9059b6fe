/**
 The retry loop of one service on one retry topic, with every call that can fail. When the publish of the next attempt
 fails the loop skips the commit and goes on; the next commit is cumulative and takes the skipped record along.
 */
module RetryOffsets {

  type Offset = nat

  /** Whether the envelope can be decoded, and whether the service has a handler for the topic it names. */
  datatype Record = Record(decodes: bool, handled: bool)

  /** How a blocking call ends. A lost acknowledgement took effect on the broker but reports an error. */
  datatype Outcome = Success | Failure | LostAck | Cancelled | Died

  datatype Phase = Stopped | Fetching | Waiting | Handling | Publishing | Committing

  /** `next` is the offset of the record in hand, or the next one to fetch. `ignored` are the records the loop discards,
      `forwarded` those with a record one level up or in the dead-letter queue, `skipped` those left without a commit.
      `gaps` are the offsets of the present run whose publish failed outright and that no earlier run had handled or
      forwarded; no step decides by them. */
  datatype State = State(
    topic: seq<Record>,
    committed: Offset,
    next: Offset,
    phase: Phase,
    ignored: set<Offset>,
    succeeded: set<Offset>,
    forwarded: set<Offset>,
    skipped: set<Offset>,
    gaps: set<Offset>)

  datatype Action = Produce(r: Record) | Start | Call(o: Outcome)

  const Initial: State := State([], 0, 0, Stopped, {}, {}, {}, {}, {})

  // ---------------------------------------------------------------- one step

  function AfterFetch(s: State, o: Outcome): State {
    if o == Cancelled then s.(phase := Stopped)
    else if o != Success || s.next >= |s.topic| then s
    else if !s.topic[s.next].decodes || !s.topic[s.next].handled
        then s.(ignored := s.ignored + {s.next}, phase := Committing)
    else s.(phase := Waiting)
  }

  function AfterWait(s: State, o: Outcome): State {
    s.(phase := if o == Cancelled then Stopped else Handling)
  }

  function AfterHandler(s: State, o: Outcome): State {
    if o == Success then s.(succeeded := s.succeeded + {s.next}, phase := Committing) else s.(phase := Publishing)
  }

  /** The publish failed outright, and no earlier run had handled the record or published its next attempt. */
  predicate LeavesGap(s: State, o: Outcome) {
    o != Success && o != LostAck && s.next !in s.succeeded && s.next !in s.forwarded
  }

  function AfterPublish(s: State, o: Outcome): State {
    var s' := if o == Success || o == LostAck then s.(forwarded := s.forwarded + {s.next}) else s;
    if o == Success then s'.(phase := Committing)
    else s'.(skipped := s.skipped + {s.next}, gaps := if LeavesGap(s, o) then s.gaps + {s.next} else s.gaps,
             next := s.next + 1, phase := Fetching)
  }

  function AfterCommit(s: State, o: Outcome): State {
    s.(committed := if o == Success || o == LostAck then s.next + 1
        else s.committed, next := s.next + 1, phase := Fetching)
  }

  function AfterCall(s: State, o: Outcome): State {
    if o == Died then s.(phase := Stopped) else
    match s.phase
    case Stopped => s
    case Fetching => AfterFetch(s, o)
    case Waiting => AfterWait(s, o)
    case Handling => AfterHandler(s, o)
    case Publishing => AfterPublish(s, o)
    case Committing => AfterCommit(s, o)
  }

  /** A restarted consumer resumes at the committed offset. */
  function Started(s: State): State {
    s.(next := s.committed, phase := Fetching, gaps := {})
  }

  function Apply(s: State, a: Action): State {
    match a
    case Produce(r) => s.(topic := s.topic + [r])
    case Start => if s.phase == Stopped then Started(s) else s
    case Call(o) => AfterCall(s, o)
  }

  function Run(s: State, acts: seq<Action>): State {
    if acts == [] then s else Apply(Run(s, acts[..|acts| - 1]), acts[|acts| - 1])
  }

  // ---------------------------------------------------------------- what every step keeps

  /** The record needs no further delivery: discarded on purpose, handled, or passed on to the next level. */
  predicate Settled(s: State, o: Offset) {
    o in s.ignored || o in s.succeeded || o in s.forwarded
  }

  ghost predicate Inv(s: State) {
    && s.committed <= |s.topic|
    && (s.phase != Stopped ==> s.committed <= s.next <= |s.topic|)
    && (s.phase != Stopped && s.phase != Fetching ==> s.next < |s.topic|)
    && (s.phase == Committing ==> Settled(s, s.next))
    && (forall o | o in s.ignored :: o < |s.topic| && !(s.topic[o].decodes && s.topic[o].handled))
    && (s.phase in {Waiting, Handling, Publishing} ==> s.topic[s.next].decodes && s.topic[s.next].handled)
    && (forall o | 0 <= o < s.committed :: Settled(s, o) || o in s.skipped)
    && (s.phase != Stopped ==> forall o | s.committed <= o < s.next :: Settled(s, o) || o in s.gaps)
    && (s.phase != Stopped ==> forall o | o in s.gaps :: o < s.next && !Settled(s, o) && o in s.skipped)
  }

  lemma InvStep(s: State, a: Action)
    requires Inv(s)
    ensures Inv(Apply(s, a))
  {
    assert forall o :: Settled(s, o) ==> Settled(Apply(s, a), o);
  }

  lemma {:induction false} InvRun(acts: seq<Action>)
    ensures Inv(Run(Initial, acts))
  {
    if acts != [] {
      InvRun(acts[..|acts| - 1]);
      InvStep(Run(Initial, acts[..|acts| - 1]), acts[|acts| - 1]);
    }
  }

  /** What is committed was settled, or the publish of its next attempt failed and its commit was skipped. */
  lemma {:induction false} CommittedIsSettledOrSkipped(acts: seq<Action>, o: Offset)
    requires o < Run(Initial, acts).committed
    ensures var s := Run(Initial, acts); Settled(s, o) || o in s.skipped
  {
    InvRun(acts);
  }

  // ---------------------------------------------------------------- exactly when a record is lost

  /** The offset is committed, but the record was neither discarded nor handled nor passed on. */
  predicate Lost(s: State, o: Offset) {
    o < s.committed && !Settled(s, o)
  }

  /** A commit of the present run reaches the broker. */
  predicate TakesEffect(s: State, a: Action) {
    s.phase == Committing && (a == Call(Success) || a == Call(LostAck))
  }

  /** The handler of offset `o` failed, the publish of its next attempt failed outright, and no earlier run had
      handled or forwarded it. */
  predicate OpensGap(s: State, a: Action, o: Offset) {
    s.phase == Publishing && s.next == o && a.Call? && a.o != Died && LeavesGap(s, a.o)
  }

  predicate Restarts(s: State, a: Action) {
    a == Start && s.phase == Stopped
  }

  /** What a step loses: a commit that takes effect loses the gaps of its run, and nothing else loses anything or
      brings a lost record back. */
  lemma LossStep(s: State, a: Action, o: Offset)
    requires Inv(s)
    ensures Lost(Apply(s, a), o) <==> Lost(s, o) || (TakesEffect(s, a) && o in s.gaps)
  {
    InvStep(s, a);
  }

  lemma LostStaysLost(s: State, a: Action, o: Offset)
    requires Inv(s) && Lost(s, o)
    ensures Lost(Apply(s, a), o)
  {
    LossStep(s, a, o);
  }

  lemma GapStep(s: State, a: Action, o: Offset)
    ensures o in Apply(s, a).gaps <==> OpensGap(s, a, o) || (o in s.gaps && !Restarts(s, a))
  {
  }

  ghost predicate OpensGapAt(acts: seq<Action>, i: nat, o: Offset)
    requires i < |acts|
  {
    OpensGap(Run(Initial, acts[..i]), acts[i], o)
  }

  ghost predicate TakesEffectAt(acts: seq<Action>, j: nat)
    requires j < |acts|
  {
    TakesEffect(Run(Initial, acts[..j]), acts[j])
  }

  ghost predicate RestartsAt(acts: seq<Action>, k: nat)
    requires k < |acts|
  {
    Restarts(Run(Initial, acts[..k]), acts[k])
  }

  /** No restart between step `i` and step `j`. */
  ghost predicate SameRun(acts: seq<Action>, i: nat, j: nat)
    requires j <= |acts|
  {
    forall k | i < k < j :: !RestartsAt(acts, k)
  }

  /** Step `i` opened a gap at offset `o`, and the run it belongs to is still the present one after `j` steps. */
  ghost predicate GapSince(acts: seq<Action>, i: nat, j: nat, o: Offset)
    requires j <= |acts|
  {
    i < j && OpensGapAt(acts, i, o) && SameRun(acts, i, j)
  }

  lemma {:induction false} GapOfPrefix(acts: seq<Action>, n: nat, i: nat, j: nat, o: Offset)
    requires j <= n <= |acts|
    ensures GapSince(acts[..n], i, j, o) <==> GapSince(acts, i, j, o)
  {
    if i < j { assert acts[..n][..i] == acts[..i]; }
    forall k | i < k < j ensures RestartsAt(acts[..n], k) <==> RestartsAt(acts, k) {
      assert acts[..n][..k] == acts[..k];
    }
  }

  lemma {:induction false} GapExtends(acts: seq<Action>, i: nat, o: Offset)
    requires acts != []
    ensures var n := |acts| - 1;
            GapSince(acts, i, |acts|, o) <==>
              (i < n && GapSince(acts, i, n, o) && !RestartsAt(acts, n)) || (i == n && OpensGapAt(acts, n, o))
  {
  }

  lemma {:induction false} GapNow(acts: seq<Action>, o: Offset)
    requires acts != []
    ensures var n := |acts| - 1;
            (exists i :: GapSince(acts, i, |acts|, o)) <==>
              OpensGapAt(acts, n, o) || (!RestartsAt(acts, n) && exists i :: GapSince(acts[..n], i, n, o))
  {
    var n := |acts| - 1;
    forall i: nat
      ensures GapSince(acts, i, |acts|, o) <==>
                (!RestartsAt(acts, n) && GapSince(acts[..n], i, n, o)) || (i == n && OpensGapAt(acts, n, o))
    {
      GapOfPrefix(acts, n, i, n, o);
      GapExtends(acts, i, o);
    }
    if OpensGapAt(acts, n, o) {
      assert GapSince(acts, n, |acts|, o);
    } else if !RestartsAt(acts, n) && exists i :: GapSince(acts[..n], i, n, o) {
      var i :| GapSince(acts[..n], i, n, o);
      assert GapSince(acts, i, |acts|, o);
    }
  }

  /** The recorded gaps are those opened in the present run. */
  lemma {:induction false} GapsRecorded(acts: seq<Action>, o: Offset)
    ensures o in Run(Initial, acts).gaps <==> exists i :: GapSince(acts, i, |acts|, o)
  {
    if acts != [] {
      var n := |acts| - 1;
      GapsRecorded(acts[..n], o);
      GapStep(Run(Initial, acts[..n]), acts[n], o);
      GapNow(acts, o);
    }
  }

  /** Step `j` is a commit that takes effect over the gap that step `i` opened at offset `o` in the same run. */
  ghost predicate LosesAt(acts: seq<Action>, i: nat, j: nat, o: Offset) {
    j < |acts| && TakesEffectAt(acts, j) && GapSince(acts, i, j, o)
  }

  lemma {:induction false} LosesInPrefix(acts: seq<Action>, i: nat, j: nat, o: Offset)
    requires acts != []
    ensures LosesAt(acts, i, j, o) <==>
              LosesAt(acts[..|acts| - 1], i, j, o)
              || (j == |acts| - 1 && TakesEffectAt(acts, j) && GapSince(acts[..j], i, j, o))
  {
    var n := |acts| - 1;
    if j < n {
      assert acts[..n][..j] == acts[..j];
      GapOfPrefix(acts, n, i, j, o);
    } else if j == n {
      GapOfPrefix(acts, n, i, n, o);
    }
  }

  /** Over whole runs with crashes and restarts: a record is lost if and only if, in one run of the consumer, its
      handler failed, the publish of its next attempt failed outright with no earlier run having handled or forwarded
      it, and a later commit of the same run took effect. */
  lemma {:induction false} LostIffCommittedOver(acts: seq<Action>, o: Offset)
    ensures Lost(Run(Initial, acts), o) <==> exists i, j :: LosesAt(acts, i, j, o)
  {
    if acts != [] {
      var n := |acts| - 1;
      var s := Run(Initial, acts[..n]);
      LostIffCommittedOver(acts[..n], o);
      InvRun(acts[..n]);
      LossStep(s, acts[n], o);
      GapsRecorded(acts[..n], o);
      LostNow(acts, o);
    }
  }

  lemma {:induction false} LostNow(acts: seq<Action>, o: Offset)
    requires acts != []
    ensures var n := |acts| - 1;
            (exists i, j :: LosesAt(acts, i, j, o)) <==>
              (exists i, j :: LosesAt(acts[..n], i, j, o))
              || (TakesEffectAt(acts, n) && exists i :: GapSince(acts[..n], i, n, o))
  {
    var n := |acts| - 1;
    forall i: nat, j: nat
      ensures LosesAt(acts, i, j, o) <==>
                LosesAt(acts[..n], i, j, o) || (j == n && TakesEffectAt(acts, n) && GapSince(acts[..n], i, n, o))
    {
      LosesInPrefix(acts, i, j, o);
    }
    if TakesEffectAt(acts, n) && exists i :: GapSince(acts[..n], i, n, o) {
      var i :| GapSince(acts[..n], i, n, o);
      assert LosesAt(acts, i, n, o);
    }
  }

  /** The step functions of a run of the loop over two records, whose first publish ends with `o`. */
  function TwoRecords(o: Outcome): seq<Action> {
    var r := Record(true, true);
    [Produce(r), Produce(r), Start, Call(Success), Call(Success), Call(Failure), Call(o),
     Call(Success), Call(Success), Call(Success), Call(Success)]
  }

  /** The shortest loss: one failed publish, then one ordinary commit. With a lost acknowledgement the commit is
      skipped as well, and passed by the next one as well, but nothing is lost. */
  lemma SkippedCommitIsUndone()
    ensures var s := Run(Initial, TwoRecords(Failure));
          s.committed == 2 && s.succeeded == {1} && s.skipped == {0}
          && Lost(s, 0)
    ensures var s := Run(Initial, TwoRecords(LostAck));
            s.committed == 2 && s.succeeded == {1} && s.skipped == {0} && s.forwarded == {0} && !Lost(s, 0)
  {
    TwoRecordsRun(Failure);
    TwoRecordsRun(LostAck);
  }

  /** After the first record: its commit was skipped. */
  function FirstSkipped(o: Outcome): State {
    var r := Record(true, true);
    State([r, r], 0, 1, Fetching, {}, {}, if o == LostAck then {0} else {}, {0}, if o == LostAck then {} else {0})
  }

  lemma FirstRecord(o: Outcome)
    requires o == Failure || o == LostAck
    ensures Run(Initial, TwoRecords(o)[..7]) == FirstSkipped(o)
  {
    var acts := TwoRecords(o);
    RunThree(Initial, acts[..3]);
    RunSplit(Initial, acts[..3], acts[3..7]);
    RunFour(Run(Initial, acts[..3]), acts[3..7]);
    assert acts[..7] == acts[..3] + acts[3..7];
  }

  lemma SecondRecord(o: Outcome)
    requires o == Failure || o == LostAck
    ensures Run(FirstSkipped(o), TwoRecords(o)[7..]) == FirstSkipped(o).(committed := 2, next := 2, succeeded := {1})
  {
    RunFour(FirstSkipped(o), TwoRecords(o)[7..]);
  }

  lemma TwoRecordsRun(o: Outcome)
    requires o == Failure || o == LostAck
    ensures Run(Initial, TwoRecords(o)) == FirstSkipped(o).(committed := 2, next := 2, succeeded := {1})
  {
    FirstRecord(o);
    SecondRecord(o);
    assert TwoRecords(o) == TwoRecords(o)[..7] + TwoRecords(o)[7..];
    RunSplit(Initial, TwoRecords(o)[..7], TwoRecords(o)[7..]);
  }

  lemma RunThree(s: State, acts: seq<Action>)
    requires |acts| == 3
    ensures Run(s, acts) == Apply(Apply(Apply(s, acts[0]), acts[1]), acts[2])
  {
    assert acts[..2][..1] == acts[..1] && acts[..1][..0] == [];
    assert Run(s, acts[..1]) == Apply(s, acts[0]);
    assert Run(s, acts[..2]) == Apply(Apply(s, acts[0]), acts[1]);
  }

  lemma RunFour(s: State, acts: seq<Action>)
    requires |acts| == 4
    ensures Run(s, acts) == Apply(Apply(Apply(Apply(s, acts[0]), acts[1]), acts[2]), acts[3])
  {
    RunThree(s, acts[..3]);
  }

  lemma {:induction false} RunSplit(s: State, first: seq<Action>, then_: seq<Action>)
    ensures Run(s, first + then_) == Run(Run(s, first), then_)
  {
    if then_ == [] {
      assert first + then_ == first;
    } else {
      var n := |then_| - 1;
      assert (first + then_)[..|first| + n] == first + then_[..n];
      RunSplit(s, first, then_[..n]);
    }
  }

  // ---------------------------------------------------------------- the loop

  class Consumer {
    var topic: seq<Record>
    var committed: Offset
    var next: Offset
    var phase: Phase
    var ignored: set<Offset>
    var succeeded: set<Offset>
    var forwarded: set<Offset>
    var skipped: set<Offset>
    var gaps: set<Offset>

    constructor ()
      ensures View() == Initial
    {
      topic, committed, next, phase := [], 0, 0, Stopped;
      ignored, succeeded, forwarded, skipped, gaps := {}, {}, {}, {}, {};
    }

    function View(): State
      reads this
    {
      State(topic, committed, next, phase, ignored, succeeded, forwarded, skipped, gaps)
    }

    /** Fetches, discards what cannot be decoded or is not this service's, and otherwise waits until the record is
        due. */
    method FetchMessage(o: Outcome)
      requires phase == Fetching && o != Died
      modifies this`phase, this`ignored
      ensures View() == AfterFetch(old(View()), o)
    {
      if o != Success {
        if o == Cancelled { phase := Stopped; }
        return;
      }
      if next >= |topic| { return; }
      if !topic[next].decodes {
        ignored, phase := ignored + {next}, Committing;
        return;
      }
      if !topic[next].handled {
        ignored, phase := ignored + {next}, Committing;
        return;
      }
      phase := Waiting;
    }

    method CallHandler(o: Outcome)
      requires phase == Handling && o != Died
      modifies this`phase, this`succeeded
      ensures View() == AfterHandler(old(View()), o)
    {
      if o == Success {
        succeeded, phase := succeeded + {next}, Committing;
      } else {
        phase := Publishing;
      }
    }

    /** On an error the loop continues with the next record, without a commit. */
    method PublishToRetry(o: Outcome)
      requires phase == Publishing && o != Died
      modifies this`phase, this`forwarded, this`skipped, this`gaps, this`next
      ensures View() == AfterPublish(old(View()), o)
    {
      if LeavesGap(View(), o) {
        gaps := gaps + {next};
      }
      if o == Success || o == LostAck {
        forwarded := forwarded + {next};
      }
      if o == Success {
        phase := Committing;
        return;
      }
      skipped, next, phase := skipped + {next}, next + 1, Fetching;
    }

    method CommitMessages(o: Outcome)
      requires phase == Committing && o != Died
      modifies this`phase, this`committed, this`next
      ensures View() == AfterCommit(old(View()), o)
    {
      if o == Success || o == LostAck {
        committed := next + 1;
      }
      next, phase := next + 1, Fetching;
    }

    method Resolve(o: Outcome)
      requires Inv(View())
      modifies this
      ensures Inv(View()) && View() == AfterCall(old(View()), o)
    {
      InvStep(View(), Call(o));
      if o == Died {
        phase := Stopped;
        return;
      }
      match phase
      case Stopped =>
      case Fetching => FetchMessage(o);
      case Waiting => phase := if o == Cancelled then Stopped else Handling;
      case Handling => CallHandler(o);
      case Publishing => PublishToRetry(o);
      case Committing => CommitMessages(o);
    }

    /** One run of the loop against the given outcomes, one for each blocking call; it ends at shutdown, when the
        process dies, or still blocked in the call whose outcome is not known yet. */
    method ConsumeRetryLoop(script: seq<Outcome>) returns (used: nat)
      requires Inv(View()) && phase == Stopped
      modifies this
      ensures Inv(View())
      ensures used <= |script| && View() == Run(Started(old(View())), Calls(script[..used]))
      ensures used < |script| ==> phase == Stopped
    {
      InvStep(View(), Start);
      next, phase, gaps := committed, Fetching, {};
      ghost var start := View();
      used := 0;
      while used < |script| && phase != Stopped
        invariant used <= |script| && Inv(View()) && View() == Run(start, Calls(script[..used]))
      {
        assert Calls(script[..used + 1])[..used] == Calls(script[..used]);
        Resolve(script[used]);
        used := used + 1;
      }
    }
  }

  function Calls(script: seq<Outcome>): (acts: seq<Action>)
    ensures |acts| == |script| && forall i | 0 <= i < |script| :: acts[i] == Call(script[i])
  {
    seq(|script|, i requires 0 <= i < |script| => Call(script[i]))
  }
}
