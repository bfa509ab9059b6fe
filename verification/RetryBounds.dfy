/**
 How many handler runs and dead letters a message can cause when several services handle its topic and share the retry
 topics. The count is taken for one message among any others, or for all of them together.
 */
module RetryBounds {
  import opened RetryLadder

  /** What is counted: everything, or what stems from one message of the main topic. */
  datatype Which = All | Only(origin: nat)

  predicate Selected(w: Which, origin: nat) {
    w == All || w == Only(origin)
  }

  function Count(tags: seq<nat>, w: Which): nat {
    if tags == [] then 0
    else Count(tags[..|tags| - 1], w) + if Selected(w, tags[|tags| - 1]) then 1 else 0
  }

  function Origins(recs: seq<Record>): (r: seq<nat>)
    ensures |r| == |recs| && forall i | 0 <= i < |recs| :: r[i] == recs[i].origin
  {
    seq(|recs|, i requires 0 <= i < |recs| => recs[i].origin)
  }

  function LetterOrigins(letters: seq<DeadLetter>): (r: seq<nat>)
    ensures |r| == |letters| && forall i | 0 <= i < |letters| :: r[i] == letters[i].origin
  {
    seq(|letters|, i requires 0 <= i < |letters| => letters[i].origin)
  }

  lemma CountSnoc(tags: seq<nat>, x: nat, w: Which)
    ensures Count(tags + [x], w) == Count(tags, w) + if Selected(w, x) then 1 else 0
  {
    assert (tags + [x])[..|tags|] == tags;
  }

  lemma {:induction false} CountFirst(tags: seq<nat>, w: Which)
    requires tags != []
    ensures Count(tags, w) == Count(tags[1..], w) + if Selected(w, tags[0]) then 1 else 0
  {
    if |tags| > 1 {
      CountFirst(tags[..|tags| - 1], w);
      assert tags[..|tags| - 1][1..] == tags[1..][..|tags| - 2];
    }
  }

  lemma {:induction false} CountAll(tags: seq<nat>)
    ensures Count(tags, All) == |tags|
  {
    if tags != [] { CountAll(tags[..|tags| - 1]); }
  }

  /** A number occurs in its own place and nowhere else, so it is counted once. */
  lemma {:induction false} CountNumbered(tags: seq<nat>, i: nat)
    requires forall j | 0 <= j < |tags| :: tags[j] == j
    ensures Count(tags, Only(i)) == if i < |tags| then 1 else 0
  {
    if tags != [] { CountNumbered(tags[..|tags| - 1], i); }
  }

  /** How many services handle the topic. */
  function Handlers(handles: seq<bool>): nat {
    if handles == [] then 0 else Handlers(handles[..|handles| - 1]) + if handles[|handles| - 1] then 1 else 0
  }

  // ---------------------------------------------------------------- what is left to consume

  /** The selected records of a log that handling services have yet to consume, summed over the services. */
  function Lag(handles: seq<bool>, pos: seq<nat>, tags: seq<nat>, w: Which): nat
    requires |pos| == |handles| && forall i | 0 <= i < |pos| :: pos[i] <= |tags|
  {
    if handles == [] then 0
    else
      var n := |handles| - 1;
      Lag(handles[..n], pos[..n], tags, w) + if handles[n] then Count(tags[pos[n]..], w) else 0
  }

  lemma {:induction false} LagZero(handles: seq<bool>, pos: seq<nat>, w: Which)
    requires |pos| == |handles| && forall i | 0 <= i < |pos| :: pos[i] == 0
    ensures Lag(handles, pos, [], w) == 0
  {
    if handles != [] { LagZero(handles[..|handles| - 1], pos[..|handles| - 1], w); }
  }

  lemma {:induction false} LagAppend(handles: seq<bool>, pos: seq<nat>, tags: seq<nat>, x: nat, w: Which)
    requires |pos| == |handles| && forall i | 0 <= i < |pos| :: pos[i] <= |tags|
    ensures Lag(handles, pos, tags + [x], w) == Lag(handles, pos, tags, w) + if Selected(w, x) then Handlers(handles)
        else 0
  {
    if handles != [] {
      var n := |handles| - 1;
      LagAppend(handles[..n], pos[..n], tags, x, w);
      assert (tags + [x])[pos[n]..] == tags[pos[n]..] + [x];
      CountSnoc(tags[pos[n]..], x, w);
    }
  }

  lemma {:induction false} LagAdvance(handles: seq<bool>, pos: seq<nat>, tags: seq<nat>, v: Service, w: Which)
    requires |pos| == |handles| && (forall i | 0 <= i < |pos| :: pos[i] <= |tags|) && v < |pos| && pos[v] < |tags|
    ensures Lag(handles, pos[v := pos[v] + 1], tags, w)
            == Lag(handles, pos, tags, w) - if handles[v] && Selected(w, tags[pos[v]]) then 1 else 0
  {
    var n := |handles| - 1;
    if v < n {
      assert pos[v := pos[v] + 1][..n] == pos[..n][v := pos[v] + 1];
      LagAdvance(handles[..n], pos[..n], tags, v, w);
    } else {
      assert pos[v := pos[v] + 1][..n] == pos[..n];
      CountFirst(tags[pos[v]..], w);
      assert tags[pos[v]..][1..] == tags[pos[v] + 1..];
    }
  }

  // ---------------------------------------------------------------- weights

  /** Handler runs that one unconsumed record of each level can still cause, with `k` handling services. */
  function RunWeights(k: nat): seq<int> {
    var w3 := 1;
    var w2 := 1 + k * w3;
    var w1 := 1 + k * w2;
    [1 + k * w1, w1, w2, w3]
  }

  /** Dead letters that one unconsumed record of each level can still cause. */
  function LetterWeights(k: nat): seq<int> {
    var w2 := k * 1;
    var w1 := k * w2;
    [k * w1, w1, w2, 1]
  }

  lemma WeightSteps(k: nat)
    ensures var w, d := RunWeights(k), LetterWeights(k);
            && (forall l | 0 <= l < 3 :: w[l] == 1 + k * w[l + 1] && d[l] == k * d[l + 1])
            && w[3] == 1 && d[3] == 1
            && forall l | 0 <= l < 4 :: w[l] >= 1 && d[l] >= 0
  {
  }

  lemma WeightTotals(k: nat)
    ensures k * RunWeights(k)[0] == k + k * k + k * k * k + k * k * k * k
    ensures k * LetterWeights(k)[0] == k * k * k * k
  {
  }

  function Dot(a: seq<int>, w: seq<int>): int
    requires |a| == 4 && |w| == 4
  {
    a[0] * w[0] + a[1] * w[1] + a[2] * w[2] + a[3] * w[3]
  }

  lemma DotAdd(a: seq<int>, w: seq<int>, l: nat, d: int)
    requires |a| == 4 && |w| == 4 && l < 4
    ensures Dot(a[l := a[l] + d], w) == Dot(a, w) + d * w[l]
  {
    assert (a[l] + d) * w[l] == a[l] * w[l] + d * w[l];
  }

  lemma DotNonNegative(a: seq<int>, w: seq<int>)
    requires |a| == 4 && |w| == 4 && forall i | 0 <= i < 4 :: a[i] >= 0 && w[i] >= 0
    ensures Dot(a, w) >= 0
  {
    forall i | 0 <= i < 4 ensures a[i] * w[i] >= 0 {}
  }

  lemma DotMove(a: seq<int>, w: seq<int>, l: nat, k: nat)
    requires |a| == 4 && |w| == 4 && l < 3
    ensures Dot(a[l := a[l] - 1][l + 1 := a[l + 1] + k], w) == Dot(a, w) - w[l] + k * w[l + 1]
  {
    DotAdd(a, w, l, -1);
    DotAdd(a[l := a[l] - 1], w, l + 1, k);
  }

  // ---------------------------------------------------------------- the potential

  ghost function Lags(s: State, w: Which): (a: seq<int>)
    requires WellFormed(s)
    ensures |a| == 4 && forall l | 0 <= l < 4 :: a[l] >= 0
  {
    seq(4, l requires 0 <= l < 4 => Lag(s.handles, s.pos[l], Origins(s.topics[l]), w))
  }

  /** An upper bound on the selected handler runs still to come, and one on the dead letters. */
  ghost function Potential(s: State, w: Which): int
    requires WellFormed(s)
  {
    Dot(Lags(s, w), RunWeights(Handlers(s.handles)))
  }

  ghost function LetterPotential(s: State, w: Which): int
    requires WellFormed(s)
  {
    Dot(Lags(s, w), LetterWeights(Handlers(s.handles)))
  }

  function Runs(s: State, w: Which): nat {
    Count(s.runs, w)
  }

  function Letters(s: State, w: Which): nat {
    Count(LetterOrigins(s.deadLetters), w)
  }

  function Messages(s: State, w: Which): nat
    requires |s.topics| == 4
  {
    Count(Origins(s.topics[0]), w)
  }

  lemma AdvanceLags(s: State, v: Service, l: nat, w: Which)
    requires WellFormed(s) && l < 4 && v < |s.handles| && s.pos[l][v] < |s.topics[l]|
    ensures WellFormed(Advance(s, v, l))
    ensures var gone := s.handles[v] && Selected(w, s.topics[l][s.pos[l][v]].origin);
            Lags(Advance(s, v, l), w) == Lags(s, w)[l := Lags(s, w)[l] - if gone then 1 else 0]
  {
    LagAdvance(s.handles, s.pos[l], Origins(s.topics[l]), v, w);
  }

  lemma AppendLags(s: State, l: nat, rec: Record, w: Which)
    requires WellFormed(s) && l < 4
    ensures var s' := s.(topics := s.topics[l := s.topics[l] + [rec]]);
            && WellFormed(s')
            && Lags(s', w) == Lags(s, w)[l := Lags(s, w)[l] + if Selected(w, rec.origin) then Handlers(s.handles)
                else 0]
  {
    assert Origins(s.topics[l] + [rec]) == Origins(s.topics[l]) + [rec.origin];
    LagAppend(s.handles, s.pos[l], Origins(s.topics[l]), rec.origin, w);
  }

  /** A produced message adds its whole weight for every handling service. */
  lemma ProducePotential(s: State, m: Original, w: Which)
    requires WellFormed(s)
    ensures var s', k := Apply(s, Produce(m)), Handlers(s.handles);
            var n := if Selected(w, |s.topics[0]|) then k else 0;
            && WellFormed(s') && Messages(s', w) == Messages(s, w) + (if Selected(w, |s.topics[0]|) then 1 else 0)
            && Potential(s', w) == Potential(s, w) + n * RunWeights(k)[0]
            && LetterPotential(s', w) == LetterPotential(s, w) + n * LetterWeights(k)[0]
  {
    var k, rec := Handlers(s.handles), MainRecord(s, m);
    var n := if Selected(w, |s.topics[0]|) then k else 0;
    AppendLags(s, 0, rec, w);
    DotAdd(Lags(s, w), RunWeights(k), 0, n);
    DotAdd(Lags(s, w), LetterWeights(k), 0, n);
    assert Origins(s.topics[0] + [rec]) == Origins(s.topics[0]) + [rec.origin];
    CountSnoc(Origins(s.topics[0]), rec.origin, w);
  }

  /** The record is wrapped and published again when its handler fails. */
  predicate Republished(s: State, v: Service, l: nat, ok: bool)
    requires Enabled(s, Consume(v, l, ok))
  {
    !ok && (l > 0 || s.topics[l][s.pos[l][v]].original.validJson)
  }

  lemma ConsumeLags(s: State, v: Service, l: nat, ok: bool, w: Which)
    requires WellFormed(s) && Enabled(s, Consume(v, l, ok)) && s.handles[v]
    ensures var s', mid := Apply(s, Consume(v, l, ok)), Advance(s, v, l);
            var up := if Selected(w, s.topics[l][s.pos[l][v]].origin) then Handlers(s.handles) else 0;
            && WellFormed(s') && s'.handles == s.handles && WellFormed(mid)
            && Lags(s', w) == if Republished(s, v, l, ok) && l < 3 then Lags(mid, w)[l + 1 := Lags(mid, w)[l + 1] + up]
                              else Lags(mid, w)
  {
    var s', mid := Apply(s, Consume(v, l, ok)), Advance(s, v, l);
    WellFormedStep(s, Consume(v, l, ok));
    AdvanceLags(s, v, l, w);
    if Republished(s, v, l, ok) && l < 3 {
      var rec := s'.topics[l + 1][|s.topics[l + 1]|];
      AppendLags(mid, l + 1, rec, w);
      assert Lags(s', w) == Lags(mid.(topics := mid.topics[l + 1 := mid.topics[l + 1] + [rec]]), w);
    } else {
      assert Lags(s', w) == Lags(mid, w);
    }
  }

  /** A handler run is counted, and so is the dead letter it may leave. */
  lemma ConsumeCounts(s: State, v: Service, l: nat, ok: bool, w: Which)
    requires WellFormed(s) && Enabled(s, Consume(v, l, ok)) && s.handles[v]
    ensures var s', mine := Apply(s, Consume(v, l, ok)), Selected(w, s.topics[l][s.pos[l][v]].origin);
            && Runs(s', w) == Runs(s, w) + (if mine then 1 else 0)
            && Letters(s', w) == Letters(s, w) + (if mine && Republished(s, v, l, ok) && l == 3 then 1 else 0)
  {
    var s', rec := Apply(s, Consume(v, l, ok)), s.topics[l][s.pos[l][v]];
    CountSnoc(s.runs, rec.origin, w);
    if Republished(s, v, l, ok) && l == 3 {
      assert LetterOrigins(s'.deadLetters) == LetterOrigins(s.deadLetters) + [rec.origin];
      CountSnoc(LetterOrigins(s.deadLetters), rec.origin, w);
    }
  }

  lemma SelectedPotential(a: seq<int>, a': seq<int>, l: nat, k: nat, up: bool)
    requires |a| == 4 && l < 4
    requires a' == if up && l < 3 then a[l := a[l] - 1][l + 1 := a[l + 1] + k] else a[l := a[l] - 1]
    ensures Dot(a', RunWeights(k)) + 1 <= Dot(a, RunWeights(k))
    ensures Dot(a', LetterWeights(k)) + (if up && l == 3 then 1 else 0) <= Dot(a, LetterWeights(k))
    ensures up ==> Dot(a', RunWeights(k)) + 1 == Dot(a, RunWeights(k))
    ensures up ==> Dot(a', LetterWeights(k)) + (if l == 3 then 1 else 0) == Dot(a, LetterWeights(k))
  {
    WeightSteps(k);
    if up && l < 3 {
      DotMove(a, RunWeights(k), l, k);
      DotMove(a, LetterWeights(k), l, k);
    } else {
      DotAdd(a, RunWeights(k), l, -1);
      DotAdd(a, LetterWeights(k), l, -1);
    }
  }

  lemma ConsumeOther(s: State, v: Service, l: nat, ok: bool, w: Which)
    requires WellFormed(s) && Enabled(s, Consume(v, l, ok)) && s.handles[v]
        && !Selected(w, s.topics[l][s.pos[l][v]].origin)
    ensures var s' := Apply(s, Consume(v, l, ok));
            WellFormed(s') && s'.handles == s.handles && Lags(s', w) == Lags(s, w)
  {
    ConsumeLags(s, v, l, ok, w);
    AdvanceLags(s, v, l, w);
  }

  lemma ConsumeSelected(s: State, v: Service, l: nat, ok: bool, w: Which)
    requires WellFormed(s) && Enabled(s, Consume(v, l, ok)) && s.handles[v]
        && Selected(w, s.topics[l][s.pos[l][v]].origin)
    ensures var s', a, up := Apply(s, Consume(v, l, ok)), Lags(s, w), Republished(s, v, l, ok) && l < 3;
            && WellFormed(s') && s'.handles == s.handles
            && Lags(s', w) == if up then a[l := a[l] - 1][l + 1 := a[l + 1] + Handlers(s.handles)] else a[l := a[l] - 1]
  {
    ConsumeLags(s, v, l, ok, w);
    AdvanceLags(s, v, l, w);
  }

  lemma PotentialFalls(s: State, v: Service, l: nat, ok: bool, w: Which)
    requires WellFormed(s) && Enabled(s, Consume(v, l, ok)) && s.handles[v]
    requires Selected(w, s.topics[l][s.pos[l][v]].origin)
    ensures var s', up := Apply(s, Consume(v, l, ok)), Republished(s, v, l, ok);
            var letter := if up && l == 3 then 1 else 0;
            && WellFormed(s') && s'.handles == s.handles
            && Potential(s', w) + 1 <= Potential(s, w) && LetterPotential(s', w) + letter <= LetterPotential(s, w)
            && (up ==>
                  && Potential(s', w) + 1 == Potential(s, w)
                  && LetterPotential(s', w) + letter == LetterPotential(s, w))
  {
    ConsumeSelected(s, v, l, ok, w);
    var s', up := Apply(s, Consume(v, l, ok)), Republished(s, v, l, ok);
    SelectedPotential(Lags(s, w), Lags(s', w), l, Handlers(s.handles), up);
  }

  lemma PotentialStays(s: State, v: Service, l: nat, ok: bool, w: Which)
    requires WellFormed(s) && Enabled(s, Consume(v, l, ok)) && s.handles[v]
    requires !Selected(w, s.topics[l][s.pos[l][v]].origin)
    ensures var s' := Apply(s, Consume(v, l, ok));
            && WellFormed(s') && s'.handles == s.handles
            && Potential(s', w) == Potential(s, w) && LetterPotential(s', w) == LetterPotential(s, w)
  {
    ConsumeOther(s, v, l, ok, w);
  }

  /** The failure of a wrapped record is paid for exactly; a success or a drop pays at least as much. What is not
      selected changes nothing. */
  lemma ConsumePotential(s: State, v: Service, l: nat, ok: bool, w: Which)
    requires WellFormed(s) && Enabled(s, Consume(v, l, ok)) && s.handles[v]
    ensures var s' := Apply(s, Consume(v, l, ok));
            && WellFormed(s') && s'.handles == s.handles
            && Potential(s', w) + Runs(s', w) <= Potential(s, w) + Runs(s, w)
            && LetterPotential(s', w) + Letters(s', w) <= LetterPotential(s, w) + Letters(s, w)
            && (Republished(s, v, l, ok) || !Selected(w, s.topics[l][s.pos[l][v]].origin) ==>
                  && Potential(s', w) + Runs(s', w) == Potential(s, w) + Runs(s, w)
                  && LetterPotential(s', w) + Letters(s', w) == LetterPotential(s, w) + Letters(s, w))
  {
    ConsumeCounts(s, v, l, ok, w);
    if Selected(w, s.topics[l][s.pos[l][v]].origin) {
      PotentialFalls(s, v, l, ok, w);
    } else {
      PotentialStays(s, v, l, ok, w);
    }
  }

  lemma SkipPotential(s: State, v: Service, l: nat, ok: bool, w: Which)
    requires WellFormed(s) && Enabled(s, Consume(v, l, ok)) && !s.handles[v]
    ensures var s' := Apply(s, Consume(v, l, ok));
            WellFormed(s') && Potential(s', w) == Potential(s, w) && LetterPotential(s', w) == LetterPotential(s, w)
  {
    AdvanceLags(s, v, l, w);
    assert Lags(Advance(s, v, l), w) == Lags(s, w);
  }

  // ---------------------------------------------------------------- whole runs

  ghost predicate Bounded(s: State, w: Which) {
    WellFormed(s) &&
    var k := Handlers(s.handles);
    && Runs(s, w) + Potential(s, w) <= Messages(s, w) * (k * RunWeights(k)[0])
    && Letters(s, w) + LetterPotential(s, w) <= Messages(s, w) * (k * LetterWeights(k)[0])
  }

  ghost predicate Exact(s: State, w: Which) {
    WellFormed(s) &&
    var k := Handlers(s.handles);
    && Runs(s, w) + Potential(s, w) == Messages(s, w) * (k * RunWeights(k)[0])
    && Letters(s, w) + LetterPotential(s, w) == Messages(s, w) * (k * LetterWeights(k)[0])
  }

  /** The step does not make a selected message succeed, and a selected payload can be wrapped. */
  ghost predicate FailingStep(s: State, a: Action, w: Which) {
    Enabled(s, a) ==>
      match a
      case Tick(_) => true
      case Produce(m) => Selected(w, |s.topics[0]|) ==> m.validJson
      case Consume(v, l, ok) => s.handles[v] && Selected(w, s.topics[l][s.pos[l][v]].origin) ==> !ok
  }

  ghost predicate FailsAt(handles: seq<bool>, acts: seq<Action>, i: nat, w: Which)
    requires i < |acts|
  {
    FailingStep(Run(Initial(handles), acts[..i]), acts[i], w)
  }

  /** Every handler run of the selected messages fails, and their payloads can be wrapped; the others do as they like.
      */
  ghost predicate FailingRun(handles: seq<bool>, acts: seq<Action>, w: Which) {
    forall i | 0 <= i < |acts| :: FailsAt(handles, acts, i, w)
  }

  lemma {:induction false} FailingPrefix(handles: seq<bool>, acts: seq<Action>, w: Which)
    requires FailingRun(handles, acts, w) && acts != []
    ensures var n := |acts| - 1;
          FailingRun(handles, acts[..n], w)
          && FailingStep(Run(Initial(handles), acts[..n]), acts[n], w)
  {
    var n := |acts| - 1;
    forall i | 0 <= i < n ensures FailsAt(handles, acts[..n], i, w) {
      assert acts[..n][..i] == acts[..i];
      assert FailsAt(handles, acts, i, w);
    }
    assert FailsAt(handles, acts, n, w);
  }

  ghost predicate Wrappable(main: seq<Record>, w: Which) {
    forall i | 0 <= i < |main| && Selected(w, i) :: main[i].original.validJson
  }

  lemma Successor(n: nat, c: int)
    ensures (n + 1) * c == n * c + c
  {
  }

  lemma MainOnlyGrowsByProduce(s: State, a: Action)
    requires WellFormed(s) && !a.Produce?
    ensures WellFormed(Apply(s, a)) && Apply(s, a).topics[0] == s.topics[0]
  {
    WellFormedStep(s, a);
  }

  lemma BoundedProduce(s: State, m: Original, w: Which)
    requires Bounded(s, w)
    ensures var s' := Apply(s, Produce(m));
            && Bounded(s', w)
            && (Exact(s, w) ==> Exact(s', w))
            && (Wrappable(s.topics[0], w) && FailingStep(s, Produce(m), w) ==> Wrappable(s'.topics[0], w))
  {
    var k := Handlers(s.handles);
    WellFormedStep(s, Produce(m));
    ProducePotential(s, m, w);
    Successor(Messages(s, w), k * RunWeights(k)[0]);
    Successor(Messages(s, w), k * LetterWeights(k)[0]);
  }

  lemma BoundedConsume(s: State, v: Service, l: nat, ok: bool, w: Which)
    requires Sound(s) && Bounded(s, w) && Enabled(s, Consume(v, l, ok))
    ensures var s' := Apply(s, Consume(v, l, ok));
            && Bounded(s', w)
            && (Exact(s, w) && FailingStep(s, Consume(v, l, ok), w) && Wrappable(s.topics[0], w) ==> Exact(s', w))
  {
    WellFormedStep(s, Consume(v, l, ok));
    MainOnlyGrowsByProduce(s, Consume(v, l, ok));
    if s.handles[v] {
      var rec := s.topics[l][s.pos[l][v]];
      assert LogSound(s.handles, s.topics[0], l, s.topics[l]) && rec in s.topics[l];
      assert RecordSound(s.handles, s.topics[0], l, rec);
      ConsumePotential(s, v, l, ok, w);
    } else {
      SkipPotential(s, v, l, ok, w);
    }
  }

  lemma BoundedStep(s: State, a: Action, w: Which)
    requires Sound(s) && Bounded(s, w)
    ensures Bounded(Apply(s, a), w)
    ensures Exact(s, w) && FailingStep(s, a, w) && Wrappable(s.topics[0], w) ==>
              Exact(Apply(s, a), w) && Wrappable(Apply(s, a).topics[0], w)
  {
    if Enabled(s, a) {
      match a
      case Tick(dt) => assert Lags(Apply(s, a), w) == Lags(s, w);
      case Produce(m) => BoundedProduce(s, m, w);
      case Consume(v, l, ok) => BoundedConsume(s, v, l, ok, w); MainOnlyGrowsByProduce(s, a);
    }
  }

  lemma InitialBounded(handles: seq<bool>, w: Which)
    ensures WellFormed(Initial(handles)) && Bounded(Initial(handles), w) && Exact(Initial(handles), w)
  {
    LagZero(handles, seq(|handles|, _ => 0), w);
    assert Lags(Initial(handles), w) == [0, 0, 0, 0];
  }

  lemma {:induction false} BoundedRun(handles: seq<bool>, acts: seq<Action>, w: Which)
    ensures Bounded(Run(Initial(handles), acts), w) && Run(Initial(handles), acts).handles == handles
    ensures FailingRun(handles, acts, w) ==>
              Exact(Run(Initial(handles), acts), w) && Wrappable(Run(Initial(handles), acts).topics[0], w)
  {
    WellFormedRun(handles, acts);
    if acts == [] {
      InitialBounded(handles, w);
    } else {
      var before, a := acts[..|acts| - 1], acts[|acts| - 1];
      BoundedRun(handles, before, w);
      SoundRun(handles, before);
      if FailingRun(handles, acts, w) { FailingPrefix(handles, acts, w); }
      BoundedStep(Run(Initial(handles), before), a, w);
    }
  }

  /** The selected messages: one for a single message that was produced, all of them together. */
  lemma {:induction false} MessagesCounted(handles: seq<bool>, acts: seq<Action>, i: nat)
    ensures var s := Run(Initial(handles), acts);
            && |s.topics| == 4 && Messages(s, All) == |s.topics[0]|
            && Messages(s, Only(i)) == (if i < |s.topics[0]| then 1 else 0)
  {
    SoundRun(handles, acts);
    CountAll(Origins(Run(Initial(handles), acts).topics[0]));
    CountNumbered(Origins(Run(Initial(handles), acts).topics[0]), i);
  }

  lemma SameFactor(n: nat, x: int, y: int)
    requires x == y
    ensures n * x == n * y
  {
  }

  lemma {:induction false} SelectedBounded(handles: seq<bool>, acts: seq<Action>, w: Which)
    ensures var s, k := Run(Initial(handles), acts), Handlers(handles);
            && |s.topics| == 4
            && Runs(s, w) <= Messages(s, w) * (k + k * k + k * k * k + k * k * k * k)
            && Letters(s, w) <= Messages(s, w) * (k * k * k * k)
  {
    BoundedRun(handles, acts, w);
    var s, k := Run(Initial(handles), acts), Handlers(handles);
    WeightTotals(k);
    WeightSteps(k);
    SameFactor(Messages(s, w), k * RunWeights(k)[0], k + k * k + k * k * k + k * k * k * k);
    SameFactor(Messages(s, w), k * LetterWeights(k)[0], k * k * k * k);
    DotNonNegative(Lags(s, w), RunWeights(k));
    DotNonNegative(Lags(s, w), LetterWeights(k));
  }

  lemma AtMostOnce(n: nat, bound: nat, x: nat)
    requires n <= 1 && x <= n * bound
    ensures x <= bound
  {
  }

  /** With k services handling the topic, one message, among any others, causes at most k + k^2 + k^3 + k^4 handler runs
      and k^4 dead letters, in every run and whatever the handlers do. */
  lemma {:induction false} OneMessageBounded(handles: seq<bool>, acts: seq<Action>, i: nat)
    ensures var s, k := Run(Initial(handles), acts), Handlers(handles);
            && Count(s.runs, Only(i)) <= k + k * k + k * k * k + k * k * k * k
            && Count(LetterOrigins(s.deadLetters), Only(i)) <= k * k * k * k
  {
    var s, k := Run(Initial(handles), acts), Handlers(handles);
    SelectedBounded(handles, acts, Only(i));
    MessagesCounted(handles, acts, i);
    AtMostOnce(Messages(s, Only(i)), k + k * k + k * k * k + k * k * k * k, Runs(s, Only(i)));
    AtMostOnce(Messages(s, Only(i)), k * k * k * k, Letters(s, Only(i)));
  }

  /** So `n` messages together cause at most n times as many. */
  lemma {:induction false} RunsAndLettersBounded(handles: seq<bool>, acts: seq<Action>)
    ensures var s, k := Run(Initial(handles), acts), Handlers(handles);
            && |s.topics| == 4
            && |s.runs| <= |s.topics[0]| * (k + k * k + k * k * k + k * k * k * k)
            && |s.deadLetters| <= |s.topics[0]| * (k * k * k * k)
  {
    SelectedBounded(handles, acts, All);
    MessagesCounted(handles, acts, 0);
    CountAll(Run(Initial(handles), acts).runs);
    CountAll(LetterOrigins(Run(Initial(handles), acts).deadLetters));
  }

  /** Redelivery ends: every handler run for a message lowers a number of that message that is never negative, and no
      step but the production of the message raises it. */
  lemma {:induction false} RedeliveryTerminates(handles: seq<bool>, acts: seq<Action>, a: Action, i: nat)
    requires var s := Run(Initial(handles), acts); WellFormed(s) && i < |s.topics[0]|
    ensures var s := Run(Initial(handles), acts);
            && WellFormed(Apply(s, a)) && 0 <= Potential(Apply(s, a), Only(i)) <= Potential(s, Only(i))
            && (Runs(Apply(s, a), Only(i)) > Runs(s, Only(i)) ==>
                Potential(Apply(s, a), Only(i)) < Potential(s, Only(i)))
  {
    SoundRun(handles, acts);
    var s, k := Run(Initial(handles), acts), Handlers(handles);
    WellFormedRun(handles, acts);
    WellFormedStep(s, a);
    PotentialStep(s, a, i);
    WeightSteps(k);
    DotNonNegative(Lags(Apply(s, a), Only(i)), RunWeights(k));
  }

  lemma PotentialStep(s: State, a: Action, i: nat)
    requires Sound(s) && i < |s.topics[0]|
    ensures WellFormed(Apply(s, a)) && Runs(Apply(s, a), Only(i)) >= Runs(s, Only(i))
    ensures Potential(Apply(s, a), Only(i)) + Runs(Apply(s, a), Only(i)) <= Potential(s, Only(i)) + Runs(s, Only(i))
  {
    WellFormedStep(s, a);
    if Enabled(s, a) {
      match a
      case Tick(dt) => assert Lags(Apply(s, a), Only(i)) == Lags(s, Only(i));
      case Produce(m) => ProducePotential(s, m, Only(i));
      case Consume(v, l, ok) =>
        if s.handles[v] { ConsumePotential(s, v, l, ok, Only(i)); ConsumeCounts(s, v, l, ok, Only(i)); }
        else { SkipPotential(s, v, l, ok, Only(i)); }
    }
  }

  /** Nothing selected is left for a handling service to consume. */
  ghost predicate Drained(s: State, w: Which)
    requires WellFormed(s)
  {
    Lags(s, w) == [0, 0, 0, 0]
  }

  /** The bound is exact: a message whose every handler run fails reaches it once nothing of it is left to consume,
      whatever happens to the other messages. */
  lemma {:induction false} BoundIsReached(handles: seq<bool>, acts: seq<Action>, i: nat)
    requires FailingRun(handles, acts, Only(i))
    requires var s := Run(Initial(handles), acts); WellFormed(s) && i < |s.topics[0]| && Drained(s, Only(i))
    ensures var s, k := Run(Initial(handles), acts), Handlers(handles);
            && Count(s.runs, Only(i)) == k + k * k + k * k * k + k * k * k * k
            && Count(LetterOrigins(s.deadLetters), Only(i)) == k * k * k * k
  {
    BoundedRun(handles, acts, Only(i));
    MessagesCounted(handles, acts, i);
    WeightTotals(Handlers(handles));
  }
}
