/**
 What the main consumer loop comes to: where the committed offset is after any run, and, when every call of a run is
 known, where each message ends.
 */
module ConsumeOutcomes {
  import opened ConsumeLoop

  // ---------------------------------------------------------------- the committed offset

  /** A commit that reaches the broker; a lost acknowledgement did. */
  predicate CommitTakes(s: State, a: Action) {
    s.phase == Committing && (a == Call(Success) || a == Call(LostAck))
  }

  /** One more than the offset handled last before the last commit that took effect; zero before the first. */
  function CommitPoint(acts: seq<Action>): int {
    if acts == [] then 0
    else
      var before, a := acts[..|acts| - 1], acts[|acts| - 1];
      var calls := Run(Initial, before).calls;
      if CommitTakes(Run(Initial, before), a) && calls != [] then calls[|calls| - 1] + 1 else CommitPoint(before)
  }

  ghost predicate HandledBefore(s: State) {
    s.phase.Publishing? || s.phase.Backoff? || s.phase == Committing ==> s.calls != []
  }

  lemma {:induction false} HandledBeforeRun(acts: seq<Action>)
    ensures HandledBefore(Run(Initial, acts))
  {
    if acts != [] { HandledBeforeRun(acts[..|acts| - 1]); }
  }

  /** Over all runs with crashes and restarts, the committed offset is that of the last commit that took effect. */
  lemma {:induction false} CommittedIsLastCommit(acts: seq<Action>)
    ensures Run(Initial, acts).committed == CommitPoint(acts)
  {
    if acts != [] {
      var before, a := acts[..|acts| - 1], acts[|acts| - 1];
      CommittedIsLastCommit(before);
      InvRun(before);
      HandledBeforeRun(before);
      var s := Run(Initial, before);
      if CommitTakes(s, a) { assert s.calls[|s.calls| - 1] == s.next; }
    }
  }

  /** After a crash or shutdown the next run handles first what the last effective commit left, whatever was handled
      before. */
  lemma RestartResumes(acts: seq<Action>)
    requires var s := Run(Initial, acts); s.phase == Stopped && s.committed < |s.topic|
    ensures var s := Run(Initial, acts + [Start, Call(Success), Call(Success)]);
            s.calls == [CommitPoint(acts)] && s.phase == Committing && s.fetchBackoff == 1
  {
    CommittedIsLastCommit(acts);
    var all := acts + [Start, Call(Success), Call(Success)];
    assert all[..|acts| + 2][..|acts| + 1][..|acts|] == acts;
    assert all[..|acts| + 2][..|acts| + 1] == acts + [Start] && all[..|acts| + 2] == acts + [Start, Call(Success)];
    var s0 := Run(Initial, acts);
    assert Run(Initial, acts + [Start]) == Started(s0);
    assert Run(Initial, acts + [Start, Call(Success)]) == AfterFetch(Started(s0), Success);
  }

  // ---------------------------------------------------------------- how a run stops

  /** A run stops exactly when the process dies, or shutdown cuts off a fetch or a pause; nothing else changes then. */
  lemma StopsIff(s: State, o: Outcome)
    ensures var s' := AfterCall(s, o);
            && (s'.phase == Stopped <==>
                  || o == Died || s.phase == Stopped
                  || (o == Cancelled && (s.phase == Fetching || s.phase.Backoff?)))
            && (s'.phase == Stopped ==> s' == s.(phase := Stopped))
  {
  }

  /** What shutdown does to the calls that it does not stop: it is a failure like any other. */
  lemma CancelledIsFailure(s: State)
    requires s.phase == Handling || s.phase.Publishing? || s.phase == Committing
    ensures AfterCall(s, Cancelled) == AfterCall(s, Failure)
  {
  }

  // ---------------------------------------------------------------- fetch backoff

  function Pow2(k: nat): nat {
    if k == 0 then 1 else 2 * Pow2(k - 1)
  }

  function Repeat<T>(x: T, k: nat): (xs: seq<T>)
    ensures |xs| == k && forall i | 0 <= i < k :: xs[i] == x
  {
    if k == 0 then [] else Repeat(x, k - 1) + [x]
  }

  /** Seconds to wait after `k` failures in a row. */
  function Pause(k: nat): nat {
    if Pow2(k) <= 30 then Pow2(k) else 30
  }

  lemma PauseDoubles(k: nat)
    ensures Pause(k + 1) == if Pause(k) * 2 <= 30 then Pause(k) * 2 else 30
  {
  }

  lemma FetchFails(s: State)
    requires s.phase == Fetching
    ensures AfterCall(s, Failure) == s.(fetchBackoff := if s.fetchBackoff * 2 <= 30 then s.fetchBackoff * 2 else 30)
  {
  }

  /** After k failed fetches in a row the loop pauses for 2^k seconds, but never longer than 30. */
  lemma {:induction false} FetchBacksOff(s: State, k: nat)
    requires s.phase == Fetching && s.fetchBackoff == 1
    ensures Run(s, Calls(Repeat(Failure, k))) == s.(fetchBackoff := if Pow2(k) <= 30 then Pow2(k) else 30)
  {
    if k == 0 {
      assert Calls(Repeat(Failure, 0)) == [];
    } else {
      FetchBacksOff(s, k - 1);
      FetchFails(s.(fetchBackoff := Pause(k - 1)));
      PauseDoubles(k - 1);
      SnocCall(s, Repeat(Failure, k - 1), Failure);
    }
  }

  lemma SnocCall(s: State, script: seq<Outcome>, o: Outcome)
    ensures Run(s, Calls(script + [o])) == AfterCall(Run(s, Calls(script)), o)
  {
    var all := script + [o];
    assert all[..|script|] == script && all[..|script| + 1] == all;
    CallsSnoc(s, all, |script|);
  }

  /** So does every new run, whatever the pause was when the one before it stopped; a running consumer is not started
      again. */
  lemma PausesFromOne(s: State, k: nat)
    ensures s.phase == Stopped ==>
              Run(Apply(s, Start), Calls(Repeat(Failure, k))).fetchBackoff == if Pow2(k) <= 30 then Pow2(k) else 30
    ensures s.phase != Stopped ==> Apply(s, Start) == s
  {
    if s.phase == Stopped { FetchBacksOff(Apply(s, Start), k); }
  }

  // ---------------------------------------------------------------- one message

  /** How one message ends: handled, published to the first retry topic after some failed attempts, or given up. */
  datatype Verdict = Handled | Retried(failures: nat) | GivenUp

  /** A payload that is not JSON cannot be wrapped; the third failed attempt is the last. */
  predicate Possible(m: Message, v: Verdict) {
    v.Retried? ==> m.validJson && v.failures < 3
  }

  function FailedAttempts(v: Verdict): nat {
    match v
    case Handled => 0
    case Retried(k) => k
    case GivenUp => 3
  }

  /** A failed publish and the pause after it, `k` times. */
  function Attempts(k: nat): seq<Outcome> {
    if k == 0 then [] else Attempts(k - 1) + [Failure, Success]
  }

  /** The outcomes of the calls for one message: fetch, handler, retry publishes and pauses, commit. */
  function Script(v: Verdict): seq<Outcome> {
    match v
    case Handled => [Success, Success] + [Success]
    case Retried(k) => [Success, Failure] + Attempts(k) + [Success] + [Success]
    case GivenUp => [Success, Failure] + Attempts(3) + [Success]
  }

  /** What the message at hand leaves behind. */
  function Ended(s: State, v: Verdict): State {
    s.(committed := s.next + 1, next := s.next + 1, phase := Fetching, fetchBackoff := 1,
       calls := s.calls + [s.next],
       succeeded := if v.Handled? then s.succeeded + {s.next} else s.succeeded,
       retry1 := if v.Retried? then s.retry1 + [s.next] else s.retry1,
       dropped := if v.GivenUp? then s.dropped + {s.next} else s.dropped,
       failed := s.failed + Repeat(s.next, FailedAttempts(v)))
  }

  lemma {:induction false} CallsSplit(s: State, first: seq<Outcome>, rest: seq<Outcome>)
    ensures Run(s, Calls(first + rest)) == Run(Run(s, Calls(first)), Calls(rest))
  {
    if rest == [] {
      assert first + rest == first && Calls(rest) == [];
    } else {
      var before, o := rest[..|rest| - 1], rest[|rest| - 1];
      CallsSplit(s, first, before);
      SnocCall(s, first + before, o);
      SnocCall(Run(s, Calls(first)), before, o);
      assert first + before + [o] == first + rest && before + [o] == rest;
    }
  }

  lemma OneCall(s: State, o: Outcome)
    ensures Run(s, Calls([o])) == AfterCall(s, o)
  {
    assert Calls([o]) == [Call(o)] && [Call(o)][..0] == [];
  }

  lemma TwoCalls(s: State, o: Outcome, p: Outcome)
    ensures Run(s, Calls([o, p])) == AfterCall(AfterCall(s, o), p)
  {
    CallsSplit(s, [o], [p]);
    OneCall(s, o);
    OneCall(AfterCall(s, o), p);
    assert [o] + [p] == [o, p];
  }

  /** Fetch and handler, up to the commit or the first retry publish. */
  lemma HandlerEnds(s: State, ok: bool)
    requires s.phase == Fetching && s.next < |s.topic|
    ensures Run(s, Calls([Success, if ok then Success else Failure])) ==
            s.(phase := if ok then Committing else Publishing(0), fetchBackoff := 1, calls := s.calls + [s.next],
               succeeded := if ok then s.succeeded + {s.next} else s.succeeded)
  {
    TwoCalls(s, Success, if ok then Success else Failure);
  }

  lemma AttemptFails(s: State, k: nat)
    requires s.phase == Publishing(k) && s.next < |s.topic| && k < 3
    ensures Run(s, Calls([Failure, Success])) ==
            s.(phase := if k < 2 then Publishing(k + 1) else Committing, failed := s.failed + [s.next],
               dropped := if k < 2 then s.dropped else s.dropped + {s.next})
  {
    TwoCalls(s, Failure, Success);
  }

  /** `k` failed attempts in a row. */
  lemma {:induction false} AttemptsFail(s: State, k: nat)
    requires s.phase == Publishing(0) && s.next < |s.topic| && k <= 3
    ensures Run(s, Calls(Attempts(k))) ==
            s.(phase := if k < 3 then Publishing(k) else Committing, failed := s.failed + Repeat(s.next, k),
               dropped := if k < 3 then s.dropped else s.dropped + {s.next})
  {
    if k == 0 {
      assert Calls(Attempts(0)) == [] && s.failed + Repeat(s.next, 0) == s.failed;
    } else {
      AttemptsFail(s, k - 1);
      CallsSplit(s, Attempts(k - 1), [Failure, Success]);
      AttemptFails(Run(s, Calls(Attempts(k - 1))), k - 1);
      assert s.failed + Repeat(s.next, k - 1) + [s.next] == s.failed + Repeat(s.next, k);
    }
  }

  lemma CommitEnds(s: State)
    requires s.phase == Committing
    ensures Run(s, Calls([Success])) == s.(committed := s.next + 1, next := s.next + 1, phase := Fetching)
  {
    OneCall(s, Success);
  }

  lemma PublishEnds(s: State, k: nat)
    requires s.phase == Publishing(k) && s.next < |s.topic| && s.topic[s.next].validJson
    ensures Run(s, Calls([Success])) == s.(retry1 := s.retry1 + [s.next], phase := Committing)
  {
    OneCall(s, Success);
  }

  lemma HandledEnds(s: State)
    requires s.phase == Fetching && s.next < |s.topic|
    ensures Run(s, Calls(Script(Handled))) == Ended(s, Handled)
  {
    HandlerEnds(s, true);
    CallsSplit(s, [Success, Success], [Success]);
    CommitEnds(Run(s, Calls([Success, Success])));
    assert s.failed + Repeat(s.next, 0) == s.failed;
  }

  /** A failed handler and `k` failed attempts. */
  lemma HandlerAndAttempts(s: State, k: nat)
    requires s.phase == Fetching && s.next < |s.topic| && k <= 3
    ensures Run(s, Calls([Success, Failure] + Attempts(k))) ==
            s.(phase := if k < 3 then Publishing(k) else Committing, fetchBackoff := 1, calls := s.calls + [s.next],
               failed := s.failed + Repeat(s.next, k), dropped := if k < 3 then s.dropped else s.dropped + {s.next})
  {
    HandlerEnds(s, false);
    CallsSplit(s, [Success, Failure], Attempts(k));
    AttemptsFail(Run(s, Calls([Success, Failure])), k);
  }

  lemma RetriedEnds(s: State, k: nat)
    requires s.phase == Fetching && s.next < |s.topic| && s.topic[s.next].validJson && k < 3
    ensures Run(s, Calls(Script(Retried(k)))) == Ended(s, Retried(k))
  {
    var tried := [Success, Failure] + Attempts(k);
    HandlerAndAttempts(s, k);
    var s1 := Run(s, Calls(tried));
    CallsSplit(s, tried, [Success]);
    PublishEnds(s1, k);
    CallsSplit(s, tried + [Success], [Success]);
    CommitEnds(Run(s1, Calls([Success])));
  }

  lemma GivenUpEnds(s: State)
    requires s.phase == Fetching && s.next < |s.topic|
    ensures Run(s, Calls(Script(GivenUp))) == Ended(s, GivenUp)
  {
    HandlerAndAttempts(s, 3);
    CallsSplit(s, [Success, Failure] + Attempts(3), [Success]);
    CommitEnds(Run(s, Calls([Success, Failure] + Attempts(3))));
  }

  lemma MessageEnds(s: State, v: Verdict)
    requires s.phase == Fetching && s.next < |s.topic| && Possible(s.topic[s.next], v)
    ensures Run(s, Calls(Script(v))) == Ended(s, v)
  {
    match v
    case Handled => HandledEnds(s);
    case Retried(k) => RetriedEnds(s, k);
    case GivenUp => GivenUpEnds(s);
  }

  // ---------------------------------------------------------------- a whole run

  function Scripts(vs: seq<Verdict>): seq<Outcome> {
    if vs == [] then [] else Scripts(vs[..|vs| - 1]) + Script(vs[|vs| - 1])
  }

  /** The offsets with a verdict of one kind, in order. */
  function RetriedOffsets(vs: seq<Verdict>): seq<Offset> {
    if vs == [] then []
    else
      var n := |vs| - 1;
      RetriedOffsets(vs[..n]) + if vs[n].Retried? then [n] else []
  }

  /** A fresh consumer on the messages `ms`. */
  function Fresh(ms: seq<Message>): State {
    Initial.(topic := ms, phase := Fetching)
  }

  /** The consumer started on a topic of these messages is reached by producing them and starting it. */
  lemma {:induction false} FreshIsReached(ms: seq<Message>)
    ensures Run(Initial, seq(|ms|, i requires 0 <= i < |ms| => Produce(ms[i])) + [Start]) == Fresh(ms)
  {
    var acts := seq(|ms|, i requires 0 <= i < |ms| => Produce(ms[i]));
    ProducedAll(ms);
    assert (acts + [Start])[..|ms|] == acts;
  }

  lemma {:induction false} ProducedAll(ms: seq<Message>)
    ensures Run(Initial, seq(|ms|, i requires 0 <= i < |ms| => Produce(ms[i]))) == Initial.(topic := ms)
  {
    var acts := seq(|ms|, i requires 0 <= i < |ms| => Produce(ms[i]));
    if ms != [] {
      var n := |ms| - 1;
      ProducedAll(ms[..n]);
      assert acts[..n] == seq(n, i requires 0 <= i < n => Produce(ms[..n][i]));
      assert ms == ms[..n] + [ms[n]];
    }
  }

  /** The loop served the first `n` messages and nothing else, each as its verdict says. */
  ghost predicate Served(s: State, ms: seq<Message>, vs: seq<Verdict>) {
    && s.topic == ms && s.phase == Fetching && s.fetchBackoff == 1
    && s.committed == s.next == |vs| && s.first == 0
    && s.calls == seq(|vs|, i => i)
    && (forall o: Offset :: o in s.succeeded <==> o < |vs| && vs[o] == Handled)
    && (forall o: Offset :: o in s.dropped <==> o < |vs| && vs[o] == GivenUp)
    && s.retry1 == RetriedOffsets(vs)
    && (forall o: Offset :: Occurrences(s.failed, o) == if o < |vs| then FailedAttempts(vs[o]) else 0)
  }

  lemma {:induction false} OccurrencesRepeated(offsets: seq<Offset>, x: Offset, k: nat, o: Offset)
    ensures Occurrences(offsets + Repeat(x, k), o) == Occurrences(offsets, o) + if o == x then k else 0
  {
    if k == 0 {
      assert offsets + Repeat(x, 0) == offsets;
    } else {
      var before := Repeat(x, k - 1);
      OccurrencesRepeated(offsets, x, k - 1, o);
      OccurrencesSnoc(offsets + before, x, o);
      assert offsets + (before + [x]) == offsets + before + [x];
    }
  }

  lemma ServedOneMore(s: State, ms: seq<Message>, vs: seq<Verdict>)
    requires vs != [] && Served(s, ms, vs[..|vs| - 1])
    ensures Served(Ended(s, vs[|vs| - 1]), ms, vs)
  {
    var n := |vs| - 1;
    var v := vs[n];
    assert seq(n + 1, i => i) == seq(n, i => i) + [n];
    forall o: Offset
      ensures Occurrences(Ended(s, v).failed, o) == if o < |vs| then FailedAttempts(vs[o]) else 0
    {
      OccurrencesRepeated(s.failed, n, FailedAttempts(v), o);
    }
  }

  lemma {:induction false} RunIsServed(ms: seq<Message>, vs: seq<Verdict>)
    requires |vs| <= |ms| && forall i | 0 <= i < |vs| :: Possible(ms[i], vs[i])
    ensures Served(Run(Fresh(ms), Calls(Scripts(vs))), ms, vs)
  {
    if vs == [] {
      assert Calls(Scripts(vs)) == [] && seq(0, i => i) == [];
    } else {
      var n := |vs| - 1;
      RunIsServed(ms, vs[..n]);
      var s := Run(Fresh(ms), Calls(Scripts(vs[..n])));
      CallsSplit(Fresh(ms), Scripts(vs[..n]), Script(vs[n]));
      MessageEnds(s, vs[n]);
      ServedOneMore(s, ms, vs);
    }
  }

  /** One run over any messages with any verdicts: everything is committed, exactly the handled messages succeeded, the
      first retry topic holds exactly the retried ones in order, exactly the given-up ones are dropped, and the
      publishes that failed for each are counted. */
  lemma VerdictsDecide(ms: seq<Message>, vs: seq<Verdict>)
    requires |vs| == |ms| && forall i | 0 <= i < |vs| :: Possible(ms[i], vs[i])
    ensures var s := Run(Fresh(ms), Calls(Scripts(vs)));
            && s.committed == |ms|
            && (forall o: Offset :: o in s.succeeded <==> o < |ms| && vs[o] == Handled)
            && (forall o: Offset :: o in s.dropped <==> o < |ms| && vs[o] == GivenUp)
            && s.retry1 == RetriedOffsets(vs)
            && (forall o | 0 <= o < |ms| :: Occurrences(s.failed, o) == FailedAttempts(vs[o]))
  {
    RunIsServed(ms, vs);
  }

  lemma {:induction false} AllHandledScript(n: nat)
    ensures Scripts(Repeat(Handled, n)) == Repeat(Success, 3 * n) && RetriedOffsets(Repeat(Handled, n)) == []
  {
    if n > 0 {
      AllHandledScript(n - 1);
      assert Repeat(Handled, n)[..n - 1] == Repeat(Handled, n - 1);
      assert Scripts(Repeat(Handled, n)) == Repeat(Success, 3 * (n - 1)) + Script(Handled);
    }
  }

  /** When every call succeeds, three calls a message leave all of them handled and committed. */
  lemma AllSucceed(ms: seq<Message>)
    ensures var s := Run(Fresh(ms), Calls(Repeat(Success, 3 * |ms|)));
            && s.committed == |ms| && s.retry1 == [] && s.dropped == {}
            && (forall o: Offset :: o in s.succeeded <==> o < |ms|)
  {
    AllHandledScript(|ms|);
    VerdictsDecide(ms, Repeat(Handled, |ms|));
  }
}
