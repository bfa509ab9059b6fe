/**
 The ladder from bottom to top: what one message leaves behind when its handler fails a given number of times, with
 every record and every time written out.
 */
module RetryClimb {
  import opened RetryLadder

  /** When the handler runs for the first to the fourth time, if it runs as soon as each record is due. */
  const TIMES: seq<int> := [0, 60, 360, 2160]

  /** The record on level `l` of a message produced at time 0. */
  function Rung(v: Service, m: Original, l: nat): Record
    requires l < 4
  {
    Record(m, if l == 0 then 0 else v, l, TIMES[l], TIMES[..l], 0)
  }

  /** The state after `k` failed runs. */
  function Climbed(handles: seq<bool>, v: Service, m: Original, k: nat): State
    requires 1 <= k <= 4 && v < |handles|
  {
    var zeros := Initial(handles).pos[0];
    var passed := zeros[v := 1];
    State(handles, TIMES[k - 1],
          [[Rung(v, m, 0)], [Rung(v, m, 1)], if k > 1 then [Rung(v, m, 2)] else [],
           if k > 2 then [Rung(v, m, 3)] else []],
          [passed, if k > 1 then passed else zeros, if k > 2 then passed else zeros, if k > 3 then passed else zeros],
          if k == 4 then [DeadLetter(m, 3, TIMES, 0)] else [], [], [], [0, 0, 0, 0][..k])
  }

  /** The wait for the record of level `l`, and a run of its handler. */
  function Rise(v: Service, l: nat, ok: bool): seq<Action>
    requires 1 <= l < 4
  {
    [Tick(TIMES[l] - TIMES[l - 1]), Consume(v, l, ok)]
  }

  lemma RunTwo(s: State, a: Action, b: Action)
    ensures Run(s, [a, b]) == Apply(Apply(s, a), b)
  {
    RunOne(s, a);
    assert [a, b][..1] == [a];
  }

  /** Two states with equal fields, the sequences compared entry by entry. */
  lemma SameState(s: State, s': State)
    requires s.handles == s'.handles && s.now == s'.now && |s.topics| == |s'.topics| == |s.pos| == |s'.pos| == 4
    requires forall l | 0 <= l < 4 :: s.topics[l] == s'.topics[l] && s.pos[l] == s'.pos[l]
    requires s.deadLetters == s'.deadLetters && s.done == s'.done && s.dropped == s'.dropped && s.runs == s'.runs
    ensures s == s'
  {
    assert s.topics == s'.topics && s.pos == s'.pos;
  }

  /** The message is on the main topic, and no service has consumed it. */
  function OnMainTopic(handles: seq<bool>, v: Service, m: Original): State {
    Initial(handles).(topics := [[Rung(v, m, 0)], [], [], []])
  }

  lemma ProducesIt(handles: seq<bool>, v: Service, m: Original)
    ensures Apply(Initial(handles), Produce(m)) == OnMainTopic(handles, v, m) && WellFormed(OnMainTopic(handles, v, m))
  {
    var s' := Apply(Initial(handles), Produce(m));
    assert TIMES[..0] == [] && TIMES[0] == 0;
    assert s'.topics[0] == [Rung(v, m, 0)] && s'.topics[1] == s'.topics[2] == s'.topics[3] == [];
    assert s'.topics == OnMainTopic(handles, v, m).topics;
  }

  /** A message is produced and its first run fails. */
  lemma FirstFailure(handles: seq<bool>, v: Service, m: Original)
    requires v < |handles| && handles[v] && m.validJson
    ensures Run(Initial(handles), [Produce(m), Consume(v, 0, false)]) == Climbed(handles, v, m, 1)
  {
    var s := OnMainTopic(handles, v, m);
    RunTwo(Initial(handles), Produce(m), Consume(v, 0, false));
    ProducesIt(handles, v, m);
    FailurePublishes(s, v, 0);
    var s' := Apply(s, Consume(v, 0, false));
    assert TIMES[..0] + [0] == TIMES[..1] && [0, 0, 0, 0][..1] == [0];
    assert s'.topics[1] == [Rung(v, m, 1)];
    SameState(s', Climbed(handles, v, m, 1));
  }

  /** The state in which the record of level `k` has become due. */
  function Due(handles: seq<bool>, v: Service, m: Original, k: nat): State
    requires 1 <= k < 4 && v < |handles|
  {
    Climbed(handles, v, m, k).(now := TIMES[k])
  }

  lemma BecomesDue(handles: seq<bool>, v: Service, m: Original, k: nat, ok: bool)
    requires v < |handles| && handles[v] && 1 <= k < 4
    ensures var s := Due(handles, v, m, k);
            && Run(Climbed(handles, v, m, k), Rise(v, k, ok)) == Apply(s, Consume(v, k, ok))
            && WellFormed(s) && Enabled(s, Consume(v, k, ok)) && s.pos[k][v] == 0 && s.topics[k] == [Rung(v, m, k)]
  {
    RunTwo(Climbed(handles, v, m, k), Tick(TIMES[k] - TIMES[k - 1]), Consume(v, k, ok));
  }

  /** One level further up. */
  lemma NextFailure(handles: seq<bool>, v: Service, m: Original, k: nat)
    requires v < |handles| && handles[v] && m.validJson && 1 <= k < 4
    ensures Run(Climbed(handles, v, m, k), Rise(v, k, false)) == Climbed(handles, v, m, k + 1)
  {
    var s := Due(handles, v, m, k);
    BecomesDue(handles, v, m, k, false);
    FailurePublishes(s, v, k);
    assert TIMES[..k] + [TIMES[k]] == TIMES[..k + 1] && TIMES[..4] == TIMES;
    assert [0, 0, 0, 0][..k + 1] == [0, 0, 0, 0][..k] + [0];
    SameState(Apply(s, Consume(v, k, false)), Climbed(handles, v, m, k + 1));
  }

  /** Or it ends there: the record is handled. */
  lemma Recovers(handles: seq<bool>, v: Service, m: Original, k: nat)
    requires v < |handles| && handles[v] && m.validJson && 1 <= k < 4
    ensures var s' := Run(Climbed(handles, v, m, k), Rise(v, k, true));
            && s'.done == [Rung(v, m, k).(trail := TIMES[..k + 1])] && s'.deadLetters == []
            && s'.topics == Climbed(handles, v, m, k).topics && |s'.pos| == 4 && |s'.pos[k]| > v && s'.pos[k][v] == 1
  {
    BecomesDue(handles, v, m, k, true);
    assert TIMES[..k] + [TIMES[k]] == TIMES[..k + 1];
  }

  /** `k` failures in a row, each as soon as it can be. */
  function Climb(v: Service, m: Original, k: nat): seq<Action>
    requires 1 <= k <= 4
  {
    if k == 1 then [Produce(m), Consume(v, 0, false)] else Climb(v, m, k - 1) + Rise(v, k - 1, false)
  }

  lemma {:induction false} ClimbReaches(handles: seq<bool>, v: Service, m: Original, k: nat)
    requires v < |handles| && handles[v] && m.validJson && 1 <= k <= 4
    ensures Run(Initial(handles), Climb(v, m, k)) == Climbed(handles, v, m, k)
  {
    if k == 1 {
      FirstFailure(handles, v, m);
    } else {
      ClimbReaches(handles, v, m, k - 1);
      RunSplit(Initial(handles), Climb(v, m, k - 1), Rise(v, k - 1, false));
      NextFailure(handles, v, m, k - 1);
    }
  }

  /** Any message that can be wrapped reaches the top when its four runs fail: one dead letter with 3 retries and runs
      after 0, 1, 6 and 36 minutes, one record on each level, and nothing succeeded or dropped. */
  lemma LadderIsClimbed(handles: seq<bool>, v: Service, m: Original)
    requires v < |handles| && handles[v] && m.validJson
    ensures var s := Run(Initial(handles), Climb(v, m, 4));
            && s.deadLetters == [DeadLetter(m, 3, [0, 60, 360, 2160], 0)] && s.runs == [0, 0, 0, 0]
            && s.done == [] && s.dropped == []
            && s.topics == [[Rung(v, m, 0)], [Rung(v, m, 1)], [Rung(v, m, 2)], [Rung(v, m, 3)]]
  {
    ClimbReaches(handles, v, m, 4);
  }

  /** A record of a topic the service does not handle is passed at once, whatever its time; a record that is not due is
      left alone; a message is appended to the main topic and waits there for every service. */
  lemma PassedOrLeft(s: State, v: Service, l: nat, ok: bool, m: Original)
    requires WellFormed(s) && v < |s.handles| && 1 <= l < 4 && s.pos[l][v] < |s.topics[l]|
    ensures !s.handles[v] ==>
              Apply(s, Consume(v, l, ok)) == s.(pos := s.pos[l := s.pos[l][v := s.pos[l][v] + 1]])
    ensures s.handles[v] && s.now < s.topics[l][s.pos[l][v]].nextAt ==> Apply(s, Consume(v, l, ok)) == s
    ensures var s', n := Apply(s, Produce(m)), |s.topics[0]|;
            && |s'.topics[0]| == n + 1 && s'.topics[0][n].original == m && s'.topics[0][n].origin == n
            && s'.topics[0][n].attempt == 0 && s'.topics[0][n].trail == []
            && s' == s.(topics := s.topics[0 := s.topics[0] + [s'.topics[0][n]]])
  {
  }
}
