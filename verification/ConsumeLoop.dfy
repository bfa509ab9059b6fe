/**
 The main consumer loop of one service on one topic partition: fetch, handle, route a failure to the first
 retry topic, commit. The commit is cumulative and each call can fail, be cut off by shutdown, or be the last
 one before the process dies; a restarted consumer resumes at the committed offset.
 */
module ConsumeLoop {

  type Offset = nat

  datatype Message = Message(key: string, payload: string, validJson: bool)

  /** How a blocking call ends. A lost acknowledgement took effect on the broker but reports an error. */
  datatype Outcome = Success | Failure | LostAck | Cancelled | Died

  /** The call the loop is in. `Publishing` and `Backoff` carry the number of the retry-publish attempt. */
  datatype Phase = Stopped | Fetching | Handling | Publishing(attempt: nat) | Backoff(attempt: nat) | Committing

  /** `next` is the offset of the message in hand, or the next one to fetch. `retry1` lists the offsets whose record
      was appended to the first retry topic, `failed` the offset of every failed publish, and `calls` the handler
      calls of the present run, which began at `first`. */
  datatype State = State(
    topic: seq<Message>,
    committed: Offset,
    next: Offset,
    phase: Phase,
    fetchBackoff: nat,
    succeeded: set<Offset>,
    retry1: seq<Offset>,
    failed: seq<Offset>,
    dropped: set<Offset>,
    first: Offset,
    calls: seq<Offset>)

  const FETCH_BACKOFF_INIT: nat := 1
  const FETCH_BACKOFF_MAX: nat := 30
  const PUBLISH_ATTEMPTS: nat := 3

  datatype Action = Produce(m: Message) | Start | Call(o: Outcome)

  const Initial: State := State([], 0, 0, Stopped, FETCH_BACKOFF_INIT, {}, [], [], {}, 0, [])

  // ---------------------------------------------------------------- one step

  function AfterFetch(s: State, o: Outcome): State {
    match o
    case Success => if s.next < |s.topic| then s.(phase := Handling, fetchBackoff := FETCH_BACKOFF_INIT) else s
    case Cancelled => s.(phase := Stopped)
    case _ =>
      s.(fetchBackoff := if s.fetchBackoff * 2 <= FETCH_BACKOFF_MAX then s.fetchBackoff * 2 else FETCH_BACKOFF_MAX)
  }

  function AfterHandler(s: State, o: Outcome): State {
    var s' := s.(calls := s.calls + [s.next]);
    if o == Success then s'.(succeeded := s.succeeded + {s.next}, phase := Committing)
    else s'.(phase := Publishing(0))
  }

  /** The envelope embeds the raw payload, so one that is not valid JSON cannot be encoded and is never sent. */
  function AfterPublish(s: State, attempt: nat, o: Outcome): State
    requires s.next < |s.topic|
  {
    var valid := s.topic[s.next].validJson;
    var s' := if valid && (o == Success || o == LostAck) then s.(retry1 := s.retry1 + [s.next]) else s;
    if valid && o == Success then s'.(phase := Committing)
    else s'.(failed := s.failed + [s.next], phase := Backoff(attempt))
  }

  function AfterBackoff(s: State, attempt: nat, o: Outcome): State {
    if o == Cancelled then s.(phase := Stopped)
    else if attempt + 1 < PUBLISH_ATTEMPTS then s.(phase := Publishing(attempt + 1))
    else s.(dropped := s.dropped + {s.next}, phase := Committing)
  }

  function AfterCommit(s: State, o: Outcome): State {
    s.(committed := if o == Success || o == LostAck then s.next + 1 else s.committed,
       next := s.next + 1, phase := Fetching)
  }

  function AfterCall(s: State, o: Outcome): State {
    if o == Died then s.(phase := Stopped) else
    match s.phase
    case Stopped => s
    case Fetching => AfterFetch(s, o)
    case Handling => AfterHandler(s, o)
    case Publishing(k) => if s.next < |s.topic| then AfterPublish(s, k, o) else s
    case Backoff(k) => AfterBackoff(s, k, o)
    case Committing => AfterCommit(s, o)
  }

  /** A new run resumes at the committed offset. */
  function Started(s: State): State {
    s.(next := s.committed, first := s.committed, calls := [], fetchBackoff := FETCH_BACKOFF_INIT, phase := Fetching)
  }

  function Apply(s: State, a: Action): State {
    match a
    case Produce(m) => s.(topic := s.topic + [m])
    case Start => if s.phase == Stopped then Started(s) else s
    case Call(o) => AfterCall(s, o)
  }

  function Run(s: State, acts: seq<Action>): State {
    if acts == [] then s else Apply(Run(s, acts[..|acts| - 1]), acts[|acts| - 1])
  }

  // ---------------------------------------------------------------- what every step keeps

  function Occurrences(offsets: seq<Offset>, o: Offset): nat {
    if offsets == [] then 0
    else Occurrences(offsets[..|offsets| - 1], o) + if offsets[|offsets| - 1] == o then 1 else 0
  }

  lemma OccurrencesSnoc(offsets: seq<Offset>, last: Offset, o: Offset)
    ensures Occurrences(offsets + [last], o) == Occurrences(offsets, o) + if last == o then 1 else 0
  {
    assert (offsets + [last])[..|offsets|] == offsets;
  }

  /** The offset was dealt with: handled, handed to the retry ladder, or given up after three failed publishes. */
  ghost predicate Settled(s: State, o: Offset) {
    o in s.succeeded || o in s.retry1 || o in s.dropped
  }

  ghost predicate Inv(s: State) {
    && (forall o | 0 <= o < s.committed :: Settled(s, o))
    && (s.phase != Stopped ==> forall o | s.committed <= o < s.next :: Settled(s, o))
    && s.committed <= |s.topic|
    && (s.phase != Stopped ==> s.committed <= s.next <= |s.topic|)
    && (s.phase.Handling? || s.phase.Publishing? || s.phase.Backoff? || s.phase == Committing ==> s.next < |s.topic|)
    && (s.phase == Committing ==> Settled(s, s.next))
    && (forall o | o in s.retry1 :: o < |s.topic| && s.topic[o].validJson)
    && 1 <= s.fetchBackoff <= FETCH_BACKOFF_MAX
  }

  /** Giving up means that three publishes of this very offset failed. */
  ghost predicate DropsEarned(s: State) {
    && (forall o | o in s.dropped :: Occurrences(s.failed, o) >= PUBLISH_ATTEMPTS)
    && (s.phase.Publishing? ==> Occurrences(s.failed, s.next) >= s.phase.attempt)
    && (s.phase.Backoff? ==> s.phase.attempt < PUBLISH_ATTEMPTS && Occurrences(s.failed, s.next) >= s.phase.attempt + 1)
    && (s.phase.Publishing? ==> s.phase.attempt < PUBLISH_ATTEMPTS)
  }

  /** The handler calls of one run are on consecutive offsets from the committed one the run began at. */
  ghost predicate Consecutive(s: State) {
    && (forall i | 0 <= i < |s.calls| :: s.calls[i] == s.first + i)
    && (s.phase == Fetching || s.phase == Handling ==> s.next == s.first + |s.calls|)
    && (s.phase.Publishing? || s.phase.Backoff? || s.phase == Committing ==> s.next + 1 == s.first + |s.calls|)
  }

  lemma InvCall(s: State, o: Outcome)
    requires Inv(s)
    ensures Inv(AfterCall(s, o))
  {
    var s' := AfterCall(s, o);
    assert forall x :: Settled(s, x) ==> Settled(s', x);
    if o != Died && s.phase.Publishing? && s.topic[s.next].validJson && o == Success {
      assert s'.retry1[|s.retry1|] == s.next;
    }
  }

  lemma InvStep(s: State, a: Action)
    requires Inv(s)
    ensures Inv(Apply(s, a))
  {
    match a
    case Call(o) => InvCall(s, o);
    case _ => assert forall x :: Settled(Apply(s, a), x) == Settled(s, x);
  }

  lemma DropsStep(s: State, a: Action)
    requires DropsEarned(s)
    ensures DropsEarned(Apply(s, a))
  {
    if a.Call? && s.next < |s.topic| {
      forall o
        ensures Occurrences(s.failed + [s.next], o) >= Occurrences(s.failed, o) + (if o == s.next then 1 else 0)
      {
        OccurrencesSnoc(s.failed, s.next, o);
      }
    }
  }

  lemma ConsecutiveStep(s: State, a: Action)
    requires Consecutive(s)
    ensures Consecutive(Apply(s, a))
  {
  }

  lemma {:induction false} InvRun(acts: seq<Action>)
    ensures var s := Run(Initial, acts); Inv(s) && DropsEarned(s) && Consecutive(s)
  {
    if acts != [] {
      var before := acts[..|acts| - 1];
      InvRun(before);
      InvStep(Run(Initial, before), acts[|acts| - 1]);
      DropsStep(Run(Initial, before), acts[|acts| - 1]);
      ConsecutiveStep(Run(Initial, before), acts[|acts| - 1]);
    }
  }

  /** Across all crashes and restarts, every offset below the committed one had its handler succeed, or has a record
      in the first retry topic, or three publishes for it failed. */
  lemma {:induction false} NoOffsetSkipped(acts: seq<Action>, o: Offset)
    requires o < Run(Initial, acts).committed
    ensures var s := Run(Initial, acts);
            o in s.succeeded || o in s.retry1 || (o in s.dropped && Occurrences(s.failed, o) >= 3)
  {
    InvRun(acts);
    assert Settled(Run(Initial, acts), o);
  }

  /** A payload that is not valid JSON never reaches a retry topic: once past it, it succeeded or was dropped. */
  lemma {:induction false} InvalidPayloadNotRetried(acts: seq<Action>, o: Offset)
    requires var s := Run(Initial, acts); o < s.committed && o < |s.topic| && !s.topic[o].validJson
    ensures var s := Run(Initial, acts); o !in s.retry1 && (o in s.succeeded || o in s.dropped)
  {
    InvRun(acts);
    assert Settled(Run(Initial, acts), o);
  }

  lemma {:induction false} CallsAreConsecutive(acts: seq<Action>, i: nat)
    requires i < |Run(Initial, acts).calls|
    ensures var s := Run(Initial, acts); s.calls[i] == s.first + i
  {
    InvRun(acts);
  }

  /** The committed offset never moves back, and moves only to just behind a message that is settled. */
  lemma {:induction false} CommitMovesForward(acts: seq<Action>, a: Action)
    ensures var s := Run(Initial, acts);
            var s' := Apply(s, a);
            s'.committed == s.committed || (s.committed < s'.committed == s.next + 1 && Settled(s, s.next))
  {
    InvRun(acts);
  }

  /** If no publish ever fails and every payload is valid JSON, nothing is dropped. */
  lemma {:induction false} NoFailureNoDrop(acts: seq<Action>, o: Offset)
    requires Run(Initial, acts).failed == []
    ensures o !in Run(Initial, acts).dropped
  {
    InvRun(acts);
  }

  // ---------------------------------------------------------------- the loop

  class Consumer {
    var topic: seq<Message>
    var committed: Offset
    var next: Offset
    var phase: Phase
    var fetchBackoff: nat
    var succeeded: set<Offset>
    var retry1: seq<Offset>
    var failed: seq<Offset>
    var dropped: set<Offset>
    var first: Offset
    var calls: seq<Offset>

    constructor ()
      ensures View() == Initial
    {
      topic, committed, next, phase, fetchBackoff := [], 0, 0, Stopped, FETCH_BACKOFF_INIT;
      succeeded, retry1, failed, dropped, first, calls := {}, [], [], {}, 0, [];
    }

    function View(): State
      reads this
    {
      State(topic, committed, next, phase, fetchBackoff, succeeded, retry1, failed, dropped, first, calls)
    }

    method FetchMessage(o: Outcome)
      requires phase == Fetching && o != Died
      modifies this
      ensures View() == AfterFetch(old(View()), o)
    {
      if o == Success {
        if next < |topic| {
          fetchBackoff := FETCH_BACKOFF_INIT;
          phase := Handling;
        }
        return;
      }
      if o == Cancelled {
        phase := Stopped;
        return;
      }
      fetchBackoff := if fetchBackoff * 2 <= FETCH_BACKOFF_MAX then fetchBackoff * 2 else FETCH_BACKOFF_MAX;
    }

    method CallHandler(o: Outcome)
      requires phase == Handling && o != Died
      modifies this
      ensures View() == AfterHandler(old(View()), o)
    {
      calls := calls + [next];
      if o == Success {
        succeeded := succeeded + {next};
        phase := Committing;
      } else {
        phase := Publishing(0);
      }
    }

    method PublishToRetry(attempt: nat, o: Outcome)
      requires phase == Publishing(attempt) && next < |topic| && o != Died
      modifies this
      ensures View() == AfterPublish(old(View()), attempt, o)
    {
      var encoded := topic[next].validJson;
      if encoded && (o == Success || o == LostAck) {
        retry1 := retry1 + [next];
      }
      if encoded && o == Success {
        phase := Committing;
      } else {
        failed := failed + [next];
        phase := Backoff(attempt);
      }
    }

    method WaitBackoff(attempt: nat, o: Outcome)
      requires phase == Backoff(attempt) && o != Died
      modifies this
      ensures View() == AfterBackoff(old(View()), attempt, o)
    {
      if o == Cancelled {
        phase := Stopped;
      } else if attempt + 1 < PUBLISH_ATTEMPTS {
        phase := Publishing(attempt + 1);
      } else {
        dropped := dropped + {next};
        phase := Committing;
      }
    }

    method CommitMessages(o: Outcome)
      requires phase == Committing && o != Died
      modifies this
      ensures View() == AfterCommit(old(View()), o)
    {
      if o == Success || o == LostAck {
        committed := next + 1;
      }
      next := next + 1;
      phase := Fetching;
    }

    /** The pending call ends with outcome `o`; the process may die in any of them. */
    method Resolve(o: Outcome)
      requires Inv(View())
      modifies this
      ensures Inv(View()) && View() == AfterCall(old(View()), o)
    {
      InvCall(View(), o);
      if o == Died {
        phase := Stopped;
        return;
      }
      match phase
      case Stopped =>
      case Fetching => FetchMessage(o);
      case Handling => CallHandler(o);
      case Publishing(attempt) => PublishToRetry(attempt, o);
      case Backoff(attempt) => WaitBackoff(attempt, o);
      case Committing => CommitMessages(o);
    }

    method Advance(ghost start: State, script: seq<Outcome>, from: nat) returns (used: nat)
      requires from < |script| && Inv(View()) && View() == Run(start, Calls(script[..from]))
      modifies this
      ensures used == from + 1 && Inv(View()) && View() == Run(start, Calls(script[..used]))
      ensures Follows(old(phase), phase)
    {
      CallsSnoc(start, script, from);
      Resolve(script[from]);
      used := from + 1;
    }

    /** The bounded retry-publish loop: at most three attempts, a pause after each failure. */
    method RouteToRetry(ghost start: State, script: seq<Outcome>, from: nat) returns (used: nat)
      requires from <= |script| && Inv(View()) && View() == Run(start, Calls(script[..from])) && phase == Publishing(0)
      modifies this
      ensures from <= used <= |script| && Inv(View()) && View() == Run(start, Calls(script[..used]))
      ensures phase == Committing || phase == Stopped || used == |script|
    {
      used := from;
      var attempt := 0;
      while attempt < PUBLISH_ATTEMPTS && used < |script| && phase == Publishing(attempt)
        invariant from <= used <= |script| && Inv(View()) && View() == Run(start, Calls(script[..used]))
        invariant phase == Committing || phase == Stopped
            || (phase == Publishing(attempt) && attempt < PUBLISH_ATTEMPTS) || used == |script|
      {
        used := Advance(start, script, used);
        if phase == Backoff(attempt) && used < |script| {
          used := Advance(start, script, used);
        }
        attempt := attempt + 1;
      }
    }

    /** One message: handle it, route a failure to the retry topic, commit. */
    method Process(ghost start: State, script: seq<Outcome>, from: nat) returns (used: nat)
      requires from < |script| && Inv(View()) && View() == Run(start, Calls(script[..from])) && phase == Handling
      modifies this
      ensures from < used <= |script| && Inv(View()) && View() == Run(start, Calls(script[..used]))
      ensures phase == Fetching || phase == Stopped || used == |script|
    {
      used := Advance(start, script, from);
      if phase.Publishing? {
        used := RouteToRetry(start, script, used);
      }
      if phase == Committing && used < |script| {
        used := Advance(start, script, used);
      }
    }

    /** One run of the loop against the given outcomes, one for each blocking call; it ends at shutdown, when the
        process dies, or still blocked in the call whose outcome is not known yet. */
    method Consume(script: seq<Outcome>) returns (used: nat)
      requires Inv(View()) && phase == Stopped
      modifies this
      ensures Inv(View())
      ensures used <= |script| && View() == Run(Started(old(View())), Calls(script[..used]))
      ensures used < |script| ==> phase == Stopped
    {
      InvStep(View(), Start);
      next, first, calls, fetchBackoff, phase := committed, committed, [], FETCH_BACKOFF_INIT, Fetching;
      ghost var start := View();
      used := 0;
      while used < |script| && phase != Stopped
        invariant used <= |script| && Inv(View()) && View() == Run(start, Calls(script[..used]))
        invariant phase == Stopped || phase == Fetching || used == |script|
      {
        used := Advance(start, script, used);
        if phase == Handling && used < |script| {
          used := Process(start, script, used);
        }
      }
    }
  }

  /** The control flow of the loop. */
  predicate Follows(p: Phase, q: Phase) {
    q == Stopped ||
    match p
    case Stopped => false
    case Fetching => q == Fetching || q == Handling
    case Handling => q == Publishing(0) || q == Committing
    case Publishing(k) => q == Committing || q == Backoff(k)
    case Backoff(k) => if k + 1 < PUBLISH_ATTEMPTS then q == Publishing(k + 1) else q == Committing
    case Committing => q == Fetching
  }

  function Calls(script: seq<Outcome>): (acts: seq<Action>)
    ensures |acts| == |script| && forall i | 0 <= i < |script| :: acts[i] == Call(script[i])
  {
    seq(|script|, i requires 0 <= i < |script| => Call(script[i]))
  }

  lemma CallsSnoc(s: State, script: seq<Outcome>, i: nat)
    requires i < |script|
    ensures Run(s, Calls(script[..i + 1])) == AfterCall(Run(s, Calls(script[..i])), script[i])
  {
    assert Calls(script[..i + 1])[..i] == Calls(script[..i]);
  }
}
