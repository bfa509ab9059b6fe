/** The publishing and consuming code of the retry ladder, on topics and consumer positions as mutable state. */
module RetryConsumer {
  import opened RetryLadder

  /** Committing after the handler reaches the same state as moving the position first. */
  lemma CommitLast(s: State, v: Service, l: nat, rec: Record, ok: bool)
    requires WellFormed(s) && v < |s.handles| && l < 4 && s.pos[l][v] < |s.topics[l]|
    ensures var s' := Handle(s, v, l, rec, ok);
            && WellFormed(s') && s'.handles == s.handles && s'.pos == s.pos && |s.topics[l]| <= |s'.topics[l]|
            && Advance(s', v, l) == Handle(Advance(s, v, l), v, l, rec, ok)
  {
  }

  /** What one round of the loop does: a wait, if a handled record is not due yet, and the consumption. */
  function RoundActions(s: State, v: Service, l: nat, ok: bool): seq<Action>
    requires |s.topics| == 4 && |s.pos| == 4 && v < |s.handles|
    requires l < 4 && v < |s.pos[l]| && s.pos[l][v] < |s.topics[l]|
  {
    var due := s.topics[l][s.pos[l][v]].nextAt;
    if s.handles[v] && due > s.now then [Tick(due - s.now), Consume(v, l, ok)] else [Consume(v, l, ok)]
  }

  lemma RunTwo(s: State, a: Action, mid: State, b: Action)
    requires Apply(s, a) == mid
    ensures Run(s, [a, b]) == Apply(mid, b)
  {
    RunOne(s, a);
    assert [a, b][..1] == [a];
  }

  lemma TickWaits(s: State, dt: nat)
    ensures Apply(s, Tick(dt)) == s.(now := s.now + dt)
  {
  }

  /** The state in which the handler runs. */
  function Waited(s: State, v: Service, l: nat): State
    requires |s.topics| == 4 && |s.pos| == 4 && v < |s.handles|
    requires l < 4 && v < |s.pos[l]| && s.pos[l][v] < |s.topics[l]|
  {
    var due := s.topics[l][s.pos[l][v]].nextAt;
    if s.handles[v] && due > s.now then s.(now := due) else s
  }

  lemma RoundRuns(s: State, v: Service, l: nat, ok: bool)
    requires WellFormed(s) && v < |s.handles| && l < 4 && s.pos[l][v] < |s.topics[l]|
    ensures Run(s, RoundActions(s, v, l, ok)) == Apply(Waited(s, v, l), Consume(v, l, ok))
  {
    var due := s.topics[l][s.pos[l][v]].nextAt;
    if s.handles[v] && due > s.now {
      TickWaits(s, due - s.now);
      RunTwo(s, Tick(due - s.now), Waited(s, v, l), Consume(v, l, ok));
    } else {
      RunOne(s, Consume(v, l, ok));
    }
  }

  lemma ConsumeAdvances(s: State, v: Service, l: nat, ok: bool)
    requires WellFormed(s) && Enabled(s, Consume(v, l, ok))
    ensures Apply(s, Consume(v, l, ok)).pos == Advance(s, v, l).pos
  {
  }

  /** The actions of a run that are consumptions, in order. */
  function Consumptions(acts: seq<Action>): seq<Action> {
    if acts == [] then []
    else
      var before, a := Consumptions(acts[..|acts| - 1]), acts[|acts| - 1];
      if a.Consume? then before + [a] else before
  }

  function InOrder(v: Service, l: nat, oks: seq<bool>): seq<Action> {
    seq(|oks|, i requires 0 <= i < |oks| => Consume(v, l, oks[i]))
  }

  lemma ConsumptionsOfRound(acts: seq<Action>, round: seq<Action>)
    requires |round| > 0 && round[|round| - 1].Consume?
    requires |round| == 1 || (|round| == 2 && round[0].Tick?)
    ensures Consumptions(acts + round) == Consumptions(acts) + [round[|round| - 1]]
  {
    assert (acts + round)[..|acts| + |round| - 1] == acts + round[..|round| - 1];
    if |round| == 1 {
      assert acts + round[..0] == acts;
    } else {
      assert (acts + round[..1])[..|acts|] == acts;
    }
  }

  class Broker {
    const handles: seq<bool>
    var now: int
    var topics: seq<seq<Record>>
    var pos: seq<seq<nat>>
    var deadLetters: seq<DeadLetter>
    var done: seq<Record>
    var dropped: seq<Record>
    var runs: seq<nat>

    constructor (handles: seq<bool>)
      ensures View() == Initial(handles)
    {
      this.handles := handles;
      var zeros := seq(|handles|, _ => 0);
      now, topics, pos := 0, [[], [], [], []], [zeros, zeros, zeros, zeros];
      deadLetters, done, dropped, runs := [], [], [], [];
    }

    function View(): State
      reads this
    {
      State(handles, now, topics, pos, deadLetters, done, dropped, runs)
    }

    /** Routes a failed message: attempts 1 to 3 to a retry topic, later ones to the dead-letter queue. */
    method PublishToRetryTopic(m: Original, group: Service, attempt: nat, trail: seq<int>, origin: nat)
      requires attempt >= 1 && |topics| == 4
      modifies this`topics, this`deadLetters
      ensures View() == Publish(old(View()), PublishToRetry(m, group, attempt, old(now), trail, origin))
    {
      if attempt > 3 {
        deadLetters := deadLetters + [DeadLetter(m, attempt - 1, trail, origin)];
        return;
      }
      var rec := Record(m, group, attempt, now + DELAYS[attempt - 1], trail, origin);
      topics := topics[attempt := topics[attempt] + [rec]];
    }

    method CommitMessages(v: Service, l: nat)
      requires WellFormed(View()) && l < 4 && v < |handles| && pos[l][v] < |topics[l]|
      modifies this`pos
      ensures View() == Advance(old(View()), v, l)
    {
      pos := pos[l := pos[l][v := pos[l][v] + 1]];
    }

    /** Runs the handler on record `rec` of level `l` and routes a failure; the position is not moved yet.
        A failure on the main topic becomes attempt 1, unless the payload cannot be wrapped. */
    method RunHandler(v: Service, l: nat, rec: Record, ok: bool)
      requires |topics| == 4 && l < 4
      modifies this`runs, this`done, this`dropped, this`topics, this`deadLetters
      ensures View() == Handle(old(View()), v, l, rec, ok)
    {
      var trail := rec.trail + [now];
      runs := runs + [rec.origin];
      if ok {
        done := done + [rec.(trail := trail)];
      } else if l == 0 && !rec.original.validJson {
        dropped := dropped + [rec.(trail := trail)];
      } else {
        PublishToRetryTopic(rec.original, if l == 0 then v else rec.group, l + 1, trail, rec.origin);
      }
    }

    method HandleMain(v: Service, ok: bool)
      requires WellFormed(View()) && v < |handles| && handles[v] && pos[0][v] < |topics[0]|
      modifies this
      ensures View() == Apply(old(View()), Consume(v, 0, ok))
    {
      var rec := topics[0][pos[0][v]];
      CommitLast(View(), v, 0, rec, ok);
      RunHandler(v, 0, rec, ok);
      CommitMessages(v, 0);
    }

    /** The record is due: run the handler, then commit. */
    method ProcessDue(v: Service, l: nat, ok: bool)
      requires WellFormed(View()) && v < |handles| && handles[v] && 1 <= l < 4 && pos[l][v] < |topics[l]|
          && now >= topics[l][pos[l][v]].nextAt
      modifies this`pos, this`runs, this`done, this`dropped, this`topics, this`deadLetters
      ensures WellFormed(View()) && View() == Apply(old(View()), Consume(v, l, ok))
    {
      var rec := topics[l][pos[l][v]];
      WellFormedStep(View(), Consume(v, l, ok));
      CommitLast(View(), v, l, rec, ok);
      RunHandler(v, l, rec, ok);
      CommitMessages(v, l);
    }

    /** One record: a service without a handler skips it; otherwise the loop waits until the record is due, runs the
        handler, and commits. */
    method RetryRound(v: Service, l: nat, ok: bool) returns (ghost acts: seq<Action>)
      requires WellFormed(View()) && v < |handles| && 1 <= l < 4 && pos[l][v] < |topics[l]|
      modifies this
      ensures WellFormed(View()) && acts == RoundActions(old(View()), v, l, ok) && View() == Run(old(View()), acts)
      ensures pos[l][v] == old(pos[l][v]) + 1
    {
      acts := RoundActions(View(), v, l, ok);
      RoundRuns(View(), v, l, ok);
      WellFormedStep(Waited(View(), v, l), Consume(v, l, ok));
      if !handles[v] {
        CommitMessages(v, l);
        return;
      }
      var due := topics[l][pos[l][v]].nextAt;
      if due > now {
        now := due;
      }
      ConsumeAdvances(View(), v, l, ok);
      ProcessDue(v, l, ok);
    }

    /** The body of the loop, with the actions `acts` since `start`. */
    method RetryNext(v: Service, l: nat, ok: bool, ghost start: State, ghost acts: seq<Action>)
      returns (ghost acts': seq<Action>)
      requires WellFormed(View()) && v < |handles| && 1 <= l < 4 && pos[l][v] < |topics[l]|
      requires View() == Run(start, acts)
      modifies this
      ensures WellFormed(View()) && View() == Run(start, acts') && pos[l][v] == old(pos[l][v]) + 1
      ensures Consumptions(acts') == Consumptions(acts) + [Consume(v, l, ok)]
    {
      ghost var round := RetryRound(v, l, ok);
      RunSplit(start, acts, round);
      ConsumptionsOfRound(acts, round);
      acts' := acts + round;
    }

    /** The retry loop of one service on one retry topic, until its outcomes or the records run out: a run of
        consumptions of consecutive records, each with its outcome, and of the waits between them. */
    method ConsumeRetryLoop(v: Service, l: nat, oks: seq<bool>) returns (consumed: nat, ghost acts: seq<Action>)
      requires WellFormed(View()) && v < |handles| && 1 <= l < 4
      modifies this
      ensures WellFormed(View()) && View() == Run(old(View()), acts)
      ensures consumed <= |oks| && Consumptions(acts) == InOrder(v, l, oks[..consumed])
      ensures pos[l][v] == old(pos[l][v]) + consumed
      ensures consumed == |oks| || pos[l][v] == |topics[l]|
    {
      consumed, acts := 0, [];
      while consumed < |oks| && pos[l][v] < |topics[l]|
        invariant consumed <= |oks| && WellFormed(View()) && View() == Run(old(View()), acts)
        invariant pos[l][v] == old(pos[l][v]) + consumed
        invariant Consumptions(acts) == InOrder(v, l, oks[..consumed])
      {
        acts := RetryNext(v, l, oks[consumed], old(View()), acts);
        assert InOrder(v, l, oks[..consumed + 1]) == InOrder(v, l, oks[..consumed]) + [Consume(v, l, oks[consumed])];
        consumed := consumed + 1;
      }
    }
  }
}
