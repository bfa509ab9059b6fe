/**
 The retry ladder: one main topic, three delayed retry topics shared by all services, and the dead-letter queue.
 Topics are append-only logs, every service reads each of them with a consumer group of its own, and publishes
 succeed. Consuming a record runs the handler; a failure appends a record one level up.
 */
module RetryLadder {

  type Service = nat

  /** What the retry envelope must carry unchanged. */
  datatype Original = Original(topic: string, key: string, payload: string, validJson: bool)

  /** A record of level 0 (main topic) or 1..3 (retry topics). `trail` remembers when the handler ran for it, and
      `origin` the offset on the main topic of the message it stems from; the program stores neither. */
  datatype Record = Record(original: Original, group: Service, attempt: nat, nextAt: int, trail: seq<int>, origin: nat)

  datatype DeadLetter = DeadLetter(original: Original, retryCount: int, trail: seq<int>, origin: nat)

  datatype Published = ToTopic(level: nat, rec: Record) | ToDeadLetters(letter: DeadLetter)

  /** `topics` are the main topic and the three retry topics, `pos[l][s]` is what service `s` consumes next of level
      `l`. `done` are the records whose handler succeeded, `dropped` those that could not be wrapped, `runs` lists the
      origins of the handler runs. */
  datatype State = State(
    handles: seq<bool>,
    now: int,
    topics: seq<seq<Record>>,
    pos: seq<seq<nat>>,
    deadLetters: seq<DeadLetter>,
    done: seq<Record>,
    dropped: seq<Record>,
    runs: seq<nat>)

  datatype Action = Tick(dt: nat) | Produce(m: Original) | Consume(s: Service, level: nat, ok: bool)

  /** Delays of the retry topics in seconds: 1, 5 and 30 minutes. */
  const DELAYS: seq<int> := [60, 300, 1800]

  function Initial(handles: seq<bool>): State {
    var zeros := seq(|handles|, _ => 0);
    State(handles, 0, [[], [], [], []], [zeros, zeros, zeros, zeros], [], [], [], [])
  }

  // ---------------------------------------------------------------- one step

  /** Attempts 1 to 3 go to the retry topics with growing delays, later ones to the dead-letter queue. */
  function PublishToRetry(m: Original, group: Service, attempt: nat, now: int, trail: seq<int>, origin: nat): Published
    requires attempt >= 1
  {
    if attempt > 3 then ToDeadLetters(DeadLetter(m, attempt - 1, trail, origin))
    else ToTopic(attempt, Record(m, group, attempt, now + DELAYS[attempt - 1], trail, origin))
  }

  ghost predicate WellFormed(s: State) {
    && |s.topics| == 4 && |s.pos| == 4
    && forall l | 0 <= l < 4 :: |s.pos[l]| == |s.handles|
        && forall i | 0 <= i < |s.handles| :: s.pos[l][i] <= |s.topics[l]|
  }

  /** A service that handles the topic waits for the scheduled time; one that does not skips retry records at once
      and has no consumer on the main topic. */
  predicate Enabled(s: State, a: Action) {
    match a
    case Tick(_) => true
    case Produce(_) => |s.topics| == 4
    case Consume(v, l, _) =>
      && l < 4 && |s.topics| == 4 && |s.pos| == 4 && v < |s.handles| && v < |s.pos[l]| && s.pos[l][v] < |s.topics[l]|
      && if s.handles[v] then l == 0 || s.now >= s.topics[l][s.pos[l][v]].nextAt else l > 0
  }

  function Advance(s: State, v: Service, l: nat): State
    requires l < |s.pos| && v < |s.pos[l]|
  {
    s.(pos := s.pos[l := s.pos[l][v := s.pos[l][v] + 1]])
  }

  function Publish(s: State, p: Published): State
    requires |s.topics| == 4 && (p.ToTopic? ==> p.level < 4)
  {
    match p
    case ToTopic(l, rec) => s.(topics := s.topics[l := s.topics[l] + [rec]])
    case ToDeadLetters(letter) => s.(deadLetters := s.deadLetters + [letter])
  }

  /** The handler of service `v` runs on `rec`, read from level `l`. */
  function Handle(s: State, v: Service, l: nat, rec: Record, ok: bool): State
    requires l < 4 && |s.topics| == 4
  {
    var run := rec.(trail := rec.trail + [s.now]);
    var s' := s.(runs := s.runs + [rec.origin]);
    if ok then s'.(done := s.done + [run])
    else if l == 0 && !rec.original.validJson then s'.(dropped := s.dropped + [run])
    else Publish(s', PublishToRetry(rec.original, if l == 0 then v else rec.group, l + 1, s.now, run.trail, rec.origin))
  }

  function MainRecord(s: State, m: Original): Record
    requires |s.topics| == 4
  {
    Record(m, 0, 0, 0, [], |s.topics[0]|)
  }

  function Apply(s: State, a: Action): State {
    if !Enabled(s, a) then s else
    match a
    case Tick(dt) => s.(now := s.now + dt)
    case Produce(m) => s.(topics := s.topics[0 := s.topics[0] + [MainRecord(s, m)]])
    case Consume(v, l, ok) =>
      if s.handles[v] then Handle(Advance(s, v, l), v, l, s.topics[l][s.pos[l][v]], ok) else Advance(s, v, l)
  }

  function Run(s: State, acts: seq<Action>): State {
    if acts == [] then s else Apply(Run(s, acts[..|acts| - 1]), acts[|acts| - 1])
  }

  lemma {:induction false} RunSplit(s: State, first: seq<Action>, rest: seq<Action>)
    ensures Run(s, first + rest) == Run(Run(s, first), rest)
  {
    if rest == [] {
      assert first + rest == first;
    } else {
      var n := |rest| - 1;
      assert (first + rest)[..|first| + n] == first + rest[..n];
      RunSplit(s, first, rest[..n]);
    }
  }

  lemma RunOne(s: State, a: Action)
    ensures Run(s, [a]) == Apply(s, a)
  {
    assert [a][..0] == [];
  }

  lemma WellFormedStep(s: State, a: Action)
    requires WellFormed(s)
    ensures WellFormed(Apply(s, a)) && Apply(s, a).handles == s.handles
  {
  }

  lemma {:induction false} WellFormedRun(handles: seq<bool>, acts: seq<Action>)
    ensures WellFormed(Run(Initial(handles), acts)) && Run(Initial(handles), acts).handles == handles
  {
    if acts != [] {
      WellFormedRun(handles, acts[..|acts| - 1]);
      WellFormedStep(Run(Initial(handles), acts[..|acts| - 1]), acts[|acts| - 1]);
    }
  }

  // ---------------------------------------------------------------- what a record carries

  /** The handler ran once on every level below, and the delays between the runs were kept. */
  ghost predicate Spaced(trail: seq<int>, level: nat) {
    && |trail| == level <= 4
    && forall i | 0 <= i < level - 1 :: trail[i + 1] >= trail[i] + DELAYS[i]
  }

  /** Message number `origin` of the main topic is exactly `m`. */
  ghost predicate Produced(main: seq<Record>, origin: nat, m: Original) {
    origin < |main| && main[origin].original == m
  }

  ghost predicate Numbered(main: seq<Record>) {
    forall i | 0 <= i < |main| :: main[i].origin == i
  }

  /** The attempt number is the level, the envelope is the message it stems from unchanged, it names a service that
      handles the topic, and the record waits for the delay of its level. */
  ghost predicate RecordSound(handles: seq<bool>, main: seq<Record>, l: nat, rec: Record)
    requires l < 4
  {
    && rec.attempt == l
    && Spaced(rec.trail, l)
    && Produced(main, rec.origin, rec.original)
    && (l > 0 ==> && rec.nextAt == rec.trail[l - 1] + DELAYS[l - 1] && rec.original.validJson
                  && rec.group < |handles| && handles[rec.group])
  }

  ghost predicate LetterSound(main: seq<Record>, d: DeadLetter) {
    d.retryCount == 3 && Spaced(d.trail, 4) && Produced(main, d.origin, d.original) && d.original.validJson
  }

  /** Only a main-topic message that cannot be wrapped is ever dropped. */
  ghost predicate DroppedSound(main: seq<Record>, rec: Record) {
    !rec.original.validJson && Produced(main, rec.origin, rec.original)
  }

  ghost predicate LogSound(handles: seq<bool>, main: seq<Record>, l: nat, log: seq<Record>)
    requires l < 4
  {
    forall rec | rec in log :: RecordSound(handles, main, l, rec)
  }

  ghost predicate Sound(s: State) {
    && WellFormed(s)
    && Numbered(s.topics[0])
    && (forall l | 0 <= l < 4 :: LogSound(s.handles, s.topics[0], l, s.topics[l]))
    && (forall d | d in s.deadLetters :: LetterSound(s.topics[0], d))
    && (forall rec | rec in s.dropped :: DroppedSound(s.topics[0], rec))
  }

  lemma LogGrows(handles: seq<bool>, main: seq<Record>, main': seq<Record>, l: nat, log: seq<Record>)
    requires l < 4 && main <= main' && LogSound(handles, main, l, log)
    ensures LogSound(handles, main', l, log)
  {
    forall rec | rec in log ensures RecordSound(handles, main', l, rec) {
      assert RecordSound(handles, main, l, rec);
    }
  }

  lemma LetterGrows(main: seq<Record>, main': seq<Record>, d: DeadLetter)
    requires main <= main' && LetterSound(main, d)
    ensures LetterSound(main', d)
  {
  }

  lemma SoundProduce(s: State, m: Original)
    requires Sound(s)
    ensures Sound(Apply(s, Produce(m)))
  {
    var s', rec := Apply(s, Produce(m)), MainRecord(s, m);
    WellFormedStep(s, Produce(m));
    forall l | 0 <= l < 4 ensures LogSound(s'.handles, s'.topics[0], l, s'.topics[l]) {
      LogGrows(s.handles, s.topics[0], s'.topics[0], l, s.topics[l]);
      assert s'.topics[0][rec.origin] == rec;
    }
    forall d | d in s'.deadLetters ensures LetterSound(s'.topics[0], d) {
      LetterGrows(s.topics[0], s'.topics[0], d);
    }
  }

  /** A failed run on a sound record, not before its time, publishes a sound record or a sound dead letter. */
  lemma PublishedIsSound(handles: seq<bool>, main: seq<Record>, now: int, v: Service, l: nat, rec: Record)
    requires l < 4 && RecordSound(handles, main, l, rec) && v < |handles| && handles[v]
    requires if l == 0 then rec.original.validJson else now >= rec.nextAt
    ensures match PublishToRetry(rec.original, if l == 0 then v
        else rec.group, l + 1, now, rec.trail + [now], rec.origin)
            case ToTopic(k, r) => k == l + 1 < 4 && RecordSound(handles, main, k, r) && r.origin == rec.origin
            case ToDeadLetters(d) => l == 3 && LetterSound(main, d) && d.origin == rec.origin
  {
    assert Spaced(rec.trail + [now], l + 1);
  }

  lemma SoundConsume(s: State, v: Service, l: nat, ok: bool)
    requires Sound(s) && Enabled(s, Consume(v, l, ok))
    ensures Sound(Apply(s, Consume(v, l, ok)))
  {
    var s', rec := Apply(s, Consume(v, l, ok)), s.topics[l][s.pos[l][v]];
    WellFormedStep(s, Consume(v, l, ok));
    assert RecordSound(s.handles, s.topics[0], l, rec);
    if s.handles[v] && !ok && (l > 0 || rec.original.validJson) {
      PublishedIsSound(s.handles, s.topics[0], s.now, v, l, rec);
    }
  }

  lemma {:induction false} SoundRun(handles: seq<bool>, acts: seq<Action>)
    ensures Sound(Run(Initial(handles), acts))
  {
    WellFormedRun(handles, acts);
    if acts != [] {
      var before, a := acts[..|acts| - 1], acts[|acts| - 1];
      SoundRun(handles, before);
      var s := Run(Initial(handles), before);
      if Enabled(s, a) {
        match a
        case Tick(_) =>
        case Produce(m) => SoundProduce(s, m);
        case Consume(v, l, ok) => SoundConsume(s, v, l, ok);
      }
    }
  }

  /** Every record of retry level `l` is the main-topic message it stems from, unchanged, with attempt number `l`
      after `l` runs; every dead letter says three retries and closes four runs, the last at least 36 minutes after
      the first. */
  lemma {:induction false} LadderIsSound(handles: seq<bool>, acts: seq<Action>)
    ensures var s := Run(Initial(handles), acts);
            && |s.topics| == 4
            && (forall l, rec | 1 <= l <= 3 && rec in s.topics[l] ::
                  rec.attempt == l && |rec.trail| == l && Produced(s.topics[0], rec.origin, rec.original))
            && (forall d | d in s.deadLetters ::
                  && d.retryCount == 3 && |d.trail| == 4 && d.trail[3] >= d.trail[0] + 36 * 60
                  && Produced(s.topics[0], d.origin, d.original))
  {
    SoundRun(handles, acts);
    var s := Run(Initial(handles), acts);
    forall l, rec | 1 <= l <= 3 && rec in s.topics[l]
      ensures rec.attempt == l && |rec.trail| == l && Produced(s.topics[0], rec.origin, rec.original)
    {
      assert LogSound(s.handles, s.topics[0], l, s.topics[l]);
      assert RecordSound(s.handles, s.topics[0], l, rec);
    }
    forall d | d in s.deadLetters
      ensures d.retryCount == 3 && |d.trail| == 4 && d.trail[3] >= d.trail[0] + 36 * 60
          && Produced(s.topics[0], d.origin, d.original)
    {
      assert LetterSound(s.topics[0], d);
      assert d.trail[1] >= d.trail[0] + 60 && d.trail[2] >= d.trail[1] + 300 && d.trail[3] >= d.trail[2] + 1800;
    }
  }

  /** A failed run of the main topic is tried again after one minute, of the first retry topic after five more, of the
      second after thirty more: each record waits for exactly that long after the run that failed, and no run came
      earlier than its record was due. */
  lemma LadderDelays(handles: seq<bool>, acts: seq<Action>)
    ensures var s := Run(Initial(handles), acts);
            && |s.topics| == 4
            && (forall rec | rec in s.topics[1] :: |rec.trail| == 1 && rec.nextAt == rec.trail[0] + 60)
            && (forall rec | rec in s.topics[2] ::
                  |rec.trail| == 2 && rec.trail[1] >= rec.trail[0] + 60 && rec.nextAt == rec.trail[1] + 300)
            && (forall rec | rec in s.topics[3] ::
                  && |rec.trail| == 3 && rec.trail[1] >= rec.trail[0] + 60 && rec.trail[2] >= rec.trail[1] + 300
                  && rec.nextAt == rec.trail[2] + 1800)
            && (forall d | d in s.deadLetters ::
                  && |d.trail| == 4 && d.trail[1] >= d.trail[0] + 60 && d.trail[2] >= d.trail[1] + 300
                  && d.trail[3] >= d.trail[2] + 1800)
  {
    SoundRun(handles, acts);
    var s := Run(Initial(handles), acts);
    assert DELAYS[0] == 60 && DELAYS[1] == 300 && DELAYS[2] == 1800;
    assert LogSound(s.handles, s.topics[0], 1, s.topics[1]);
    assert LogSound(s.handles, s.topics[0], 2, s.topics[2]);
    assert LogSound(s.handles, s.topics[0], 3, s.topics[3]);
    forall d | d in s.deadLetters
      ensures && |d.trail| == 4 && d.trail[1] >= d.trail[0] + 60 && d.trail[2] >= d.trail[1] + 300
              && d.trail[3] >= d.trail[2] + 1800
    {
      assert LetterSound(s.topics[0], d);
    }
  }

  /** What one failed run publishes: the message, the service that failed on it first, its origin and the runs so far go
      along unchanged; attempt and delay grow with the level; after the third retry topic a dead letter is written. The
      position of the consuming service moves by one, and nothing else changes. */
  lemma FailurePublishes(s: State, v: Service, l: nat)
    requires WellFormed(s) && Enabled(s, Consume(v, l, false)) && s.handles[v]
    requires l > 0 || s.topics[0][s.pos[0][v]].original.validJson
    ensures var s', rec := Apply(s, Consume(v, l, false)), s.topics[l][s.pos[l][v]];
            var next := |s.topics[if l < 3 then l + 1 else 3]|;
            && s'.pos == s.pos[l := s.pos[l][v := s.pos[l][v] + 1]]
            && s'.runs == s.runs + [rec.origin] && s'.done == s.done && s'.dropped == s.dropped && s'.now == s.now
            && (l < 3 ==>
                  && s'.deadLetters == s.deadLetters && |s'.topics| == 4 && |s'.topics[l + 1]| == next + 1
                  && s'.topics == s.topics[l + 1 := s.topics[l + 1] + [s'.topics[l + 1][next]]]
                  && var up := s'.topics[l + 1][next];
                     && up.original == rec.original && up.origin == rec.origin && up.attempt == l + 1
                     && up.group == (if l == 0 then v else rec.group) && up.trail == rec.trail + [s.now]
                     && up.nextAt == s.now + (if l == 0 then 60 else if l == 1 then 300 else 1800))
            && (l == 3 ==>
                  && s'.topics == s.topics
                  && s'.deadLetters ==
                     s.deadLetters + [DeadLetter(rec.original, 3, rec.trail + [s.now], rec.origin)])
  {
  }
}
