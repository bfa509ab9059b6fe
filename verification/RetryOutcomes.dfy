/**
 What one run of the retry loop comes to when the outcome of every call is known: which records are discarded, handled,
 passed on, skipped and lost, and where the committed offset is.
 */
module RetryOutcomes {
  import opened RetryOffsets

  // ---------------------------------------------------------------- the committed offset

  /** One more than the offset at hand in the last commit that took effect; zero before the first. */
  function CommitPoint(acts: seq<Action>): nat {
    if acts == [] then 0
    else
      var before, a := acts[..|acts| - 1], acts[|acts| - 1];
      if TakesEffect(Run(Initial, before), a) then Run(Initial, before).next + 1 else CommitPoint(before)
  }

  /** Over all runs with crashes and restarts, the committed offset is that of the last commit that took effect; the
      commits that were skipped do not hold it back. */
  lemma {:induction false} CommittedIsLastCommit(acts: seq<Action>)
    ensures Run(Initial, acts).committed == CommitPoint(acts)
  {
    if acts != [] { CommittedIsLastCommit(acts[..|acts| - 1]); }
  }

  /** A run stops exactly when the process dies, or shutdown cuts off a fetch or the wait for a due record. */
  lemma StopsIff(s: State, o: Outcome)
    ensures var s' := AfterCall(s, o);
            && (s'.phase == Stopped <==>
                  || o == Died || s.phase == Stopped
                  || (o == Cancelled && (s.phase == Fetching || s.phase == Waiting)))
            && (s'.phase == Stopped ==> s' == s.(phase := Stopped))
    ensures s.phase != Stopped ==> Apply(s, Start) == s
  {
  }

  // ---------------------------------------------------------------- one record

  /** How one record ends: discarded by a service it is not for, handled, passed on to the next level, passed on with a
      lost acknowledgement, or not passed on at all. The last two skip the commit. */
  datatype Verdict = Discarded | Handled | PassedOn | Unacknowledged | Failed

  predicate Possible(r: Record, v: Verdict) {
    v == Discarded <==> !(r.decodes && r.handled)
  }

  predicate Commits(v: Verdict) {
    v == Discarded || v == Handled || v == PassedOn
  }

  /** The outcomes of its calls: fetch, wait, handler, publish, commit. */
  function Script(v: Verdict): seq<Action> {
    match v
    case Discarded => [Call(Success), Call(Success)]
    case Handled => [Call(Success), Call(Success), Call(Success), Call(Success)]
    case PassedOn => [Call(Success), Call(Success), Call(Failure), Call(Success)] + [Call(Success)]
    case Unacknowledged => [Call(Success), Call(Success), Call(Failure), Call(LostAck)]
    case Failed => [Call(Success), Call(Success), Call(Failure), Call(Failure)]
  }

  /** What the record at hand leaves behind, in a run that has met none of these records before. */
  function Ended(s: State, v: Verdict): State {
    s.(committed := if Commits(v) then s.next + 1 else s.committed, next := s.next + 1,
       ignored := if v == Discarded then s.ignored + {s.next} else s.ignored,
       succeeded := if v == Handled then s.succeeded + {s.next} else s.succeeded,
       forwarded := if v == PassedOn || v == Unacknowledged then s.forwarded + {s.next} else s.forwarded,
       skipped := if v == Unacknowledged || v == Failed then s.skipped + {s.next} else s.skipped,
       gaps := if v == Failed then s.gaps + {s.next} else s.gaps)
  }

  /** Fetch and wait, then two more calls. */
  lemma HandlerAndNext(s: State, x: Outcome, y: Outcome)
    requires s.phase == Fetching && s.next < |s.topic| && s.topic[s.next].decodes && s.topic[s.next].handled
    ensures Run(s, [Call(Success), Call(Success), Call(x), Call(y)]) ==
            AfterCall(AfterCall(s.(phase := Handling), x), y)
  {
    RunFour(s, [Call(Success), Call(Success), Call(x), Call(y)]);
  }

  lemma OneCall(s: State, o: Outcome)
    ensures Run(s, [Call(o)]) == AfterCall(s, o)
  {
    assert [Call(o)][..0] == [];
  }

  lemma DiscardedEnds(s: State)
    requires s.phase == Fetching && s.next < |s.topic| && !(s.topic[s.next].decodes && s.topic[s.next].handled)
    ensures Run(s, Script(Discarded)) == Ended(s, Discarded)
  {
    RunSplit(s, [Call(Success)], [Call(Success)]);
    OneCall(s, Success);
    OneCall(AfterCall(s, Success), Success);
  }

  lemma PassedOnEnds(s: State)
    requires s.phase == Fetching && s.next < |s.topic| && s.topic[s.next].decodes && s.topic[s.next].handled
    ensures Run(s, Script(PassedOn)) == Ended(s, PassedOn)
  {
    HandlerAndNext(s, Failure, Success);
    var s' := Run(s, [Call(Success), Call(Success), Call(Failure), Call(Success)]);
    RunSplit(s, [Call(Success), Call(Success), Call(Failure), Call(Success)], [Call(Success)]);
    OneCall(s', Success);
  }

  lemma RecordEnds(s: State, v: Verdict)
    requires s.phase == Fetching && s.next < |s.topic| && Possible(s.topic[s.next], v)
    requires s.next !in s.succeeded && s.next !in s.forwarded
    ensures Run(s, Script(v)) == Ended(s, v)
  {
    match v
    case Discarded => DiscardedEnds(s);
    case Handled => HandlerAndNext(s, Success, Success);
    case PassedOn => PassedOnEnds(s);
    case Unacknowledged => HandlerAndNext(s, Failure, LostAck);
    case Failed => HandlerAndNext(s, Failure, Failure);
  }

  // ---------------------------------------------------------------- a whole run

  function Scripts(vs: seq<Verdict>): seq<Action> {
    if vs == [] then [] else Scripts(vs[..|vs| - 1]) + Script(vs[|vs| - 1])
  }

  /** One more than the last offset whose verdict commits. */
  function LastCommit(vs: seq<Verdict>): nat {
    if vs == [] then 0 else if Commits(vs[|vs| - 1]) then |vs| else LastCommit(vs[..|vs| - 1])
  }

  function Fresh(rs: seq<Record>): State {
    Initial.(topic := rs, phase := Fetching)
  }

  function Producing(rs: seq<Record>): seq<Action> {
    if rs == [] then [] else Producing(rs[..|rs| - 1]) + [Produce(rs[|rs| - 1])]
  }

  lemma {:induction false} ProducedAll(rs: seq<Record>)
    ensures Run(Initial, Producing(rs)) == Initial.(topic := rs)
  {
    if rs != [] {
      var before, r := rs[..|rs| - 1], rs[|rs| - 1];
      ProducedAll(before);
      assert (Producing(before) + [Produce(r)])[..|Producing(before)|] == Producing(before) && before + [r] == rs;
    }
  }

  /** It is reached by producing the records and starting the loop. */
  lemma FreshIsReached(rs: seq<Record>)
    ensures Run(Initial, Producing(rs) + [Start]) == Fresh(rs)
  {
    ProducedAll(rs);
    assert (Producing(rs) + [Start])[..|Producing(rs)|] == Producing(rs);
  }

  /** Offset `o` was met and ended so. */
  predicate Ends(vs: seq<Verdict>, o: Offset, v: Verdict) {
    o < |vs| && vs[o] == v
  }

  ghost predicate Served(s: State, rs: seq<Record>, vs: seq<Verdict>) {
    && s.topic == rs && s.phase == Fetching && s.next == |vs| && s.committed == LastCommit(vs)
    && (forall o: Offset :: o in s.ignored <==> Ends(vs, o, Discarded))
    && (forall o: Offset :: o in s.succeeded <==> Ends(vs, o, Handled))
    && (forall o: Offset :: o in s.forwarded <==> Ends(vs, o, PassedOn) || Ends(vs, o, Unacknowledged))
    && (forall o: Offset :: o in s.skipped <==> Ends(vs, o, Unacknowledged) || Ends(vs, o, Failed))
  }

  lemma {:induction false} RunIsServed(rs: seq<Record>, vs: seq<Verdict>)
    requires |vs| <= |rs| && forall i | 0 <= i < |vs| :: Possible(rs[i], vs[i])
    ensures Served(Run(Fresh(rs), Scripts(vs)), rs, vs)
  {
    if vs != [] {
      var n := |vs| - 1;
      RunIsServed(rs, vs[..n]);
      RunSplit(Fresh(rs), Scripts(vs[..n]), Script(vs[n]));
      RecordEnds(Run(Fresh(rs), Scripts(vs[..n])), vs[n]);
      assert forall o: Offset, v :: Ends(vs, o, v) <==> Ends(vs[..n], o, v) || (o == n && vs[n] == v);
    }
  }

  /** One run over any records with any verdicts: the committed offset is just behind the last record that was not
      skipped, every record is where its verdict puts it, and exactly the failed ones below that offset are lost. */
  lemma VerdictsDecide(rs: seq<Record>, vs: seq<Verdict>)
    requires |vs| == |rs| && forall i | 0 <= i < |vs| :: Possible(rs[i], vs[i])
    ensures var s := Run(Fresh(rs), Scripts(vs));
            && s.committed == LastCommit(vs)
            && (forall o: Offset :: o in s.ignored <==> Ends(vs, o, Discarded))
            && (forall o: Offset :: o in s.succeeded <==> Ends(vs, o, Handled))
            && (forall o: Offset :: o in s.forwarded <==> Ends(vs, o, PassedOn) || Ends(vs, o, Unacknowledged))
            && (forall o: Offset :: Lost(s, o) <==> o < LastCommit(vs) && Ends(vs, o, Failed))
  {
    RunIsServed(rs, vs);
    LastCommitBound(vs);
  }

  lemma {:induction false} LastCommitBound(vs: seq<Verdict>)
    ensures LastCommit(vs) <= |vs|
  {
    if vs != [] { LastCommitBound(vs[..|vs| - 1]); }
  }
}
