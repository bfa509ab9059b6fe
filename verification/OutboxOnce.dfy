/**
 How often a row is published. A row gets an extra copy in the broker log exactly when a step strands it: its record is
 in the log and the step gives up the transaction, or the acknowledgement, that would have marked it published.
 */
module OutboxOnce {
  import opened Common
  import opened Outbox

  function Copies(log: seq<Entry>, id: RowId): nat {
    if log == [] then 0
    else Copies(log[..|log| - 1], id) + if log[|log| - 1].id == id then 1 else 0
  }

  lemma CopiesSnoc(log: seq<Entry>, e: Entry, id: RowId)
    ensures Copies(log + [e], id) == Copies(log, id) + if e.id == id then 1 else 0
  {
    assert (log + [e])[..|log|] == log;
  }

  /** The row is marked published, or was and has been cleaned up. */
  ghost predicate Settled(s: State, id: RowId) {
    id in s.created && !Unpublished(s, id)
  }

  /** The record is in the log and the transaction is still on the way to marking the row. */
  ghost predicate InFlight(tx: Tx, id: RowId) {
    !tx.aborted && (id in tx.marked || (tx.phase == ToMark && tx.pos < |tx.batch| && tx.batch[tx.pos].id == id))
  }

  ghost predicate HasCopy(s: State, id: RowId) {
    Settled(s, id) || exists r | r in s.txs :: InFlight(s.txs[r], id)
  }

  /** Every row that is settled or in flight is in the log exactly once, and no other row is. */
  ghost predicate OneCopy(s: State) {
    forall id :: Copies(s.log, id) == if HasCopy(s, id) then 1 else 0
  }

  // ---------------------------------------------------------------- stranding a row

  /** The step leaves a record of row `id` in the log without the transaction that would have marked the row. */
  ghost predicate StrandsRow(s: State, a: Action, id: RowId) {
    Enabled(s, a) &&
    match a
    case Publish(r, outcome) => outcome == LostAck && s.txs[r].batch[s.txs[r].pos].id == id
    case Mark(r, ok) => !ok && InFlight(s.txs[r], id)
    case Commit(r, ok) => !ok && InFlight(s.txs[r], id)
    case Crash(r) => InFlight(s.txs[r], id)
    case _ => false
  }

  /** What a relay can see before the step: an acknowledgement is lost, a mark fails, or a transaction that has
      published something, and was not aborted before, is rolled back or dies. */
  predicate Strands(s: State, a: Action) {
    Enabled(s, a) &&
    match a
    case Publish(r, outcome) => outcome == LostAck
    case Mark(r, ok) => !ok
    case Commit(r, ok) => !ok && !s.txs[r].aborted && s.txs[r].marked != {}
    case Crash(r) => !s.txs[r].aborted && (s.txs[r].marked != {} || s.txs[r].phase == ToMark)
    case _ => false
  }

  lemma StrandsSomeRow(s: State, a: Action)
    requires Inv(s)
    ensures Strands(s, a) <==> exists id :: StrandsRow(s, a, id)
  {
    if Strands(s, a) {
      var tx := s.txs[a.r];
      assert TxSound(s, tx);
      if a.Publish? || tx.phase == ToMark {
        assert StrandsRow(s, a, tx.batch[tx.pos].id);
      } else {
        var id :| id in tx.marked;
        assert StrandsRow(s, a, id);
      }
    }
    if exists id :: StrandsRow(s, a, id) {
      var id :| StrandsRow(s, a, id);
      assert TxSound(s, s.txs[a.r]);
    }
  }

  // ---------------------------------------------------------------- one step

  lemma InFlightIsLocked(s: State, r: RelayId, id: RowId)
    requires Inv(s) && r in s.txs && InFlight(s.txs[r], id)
    ensures id in s.txs[r].locked && !Settled(s, id)
  {
    assert TxSound(s, s.txs[r]);
  }

  lemma InFlightOnce(s: State, r: RelayId, id: RowId)
    requires Inv(s) && r in s.txs && InFlight(s.txs[r], id)
    ensures forall q | q in s.txs && InFlight(s.txs[q], id) :: q == r
  {
    InFlightIsLocked(s, r, id);
    forall q | q in s.txs && InFlight(s.txs[q], id) ensures q == r {
      InFlightIsLocked(s, q, id);
    }
  }

  lemma CurrentHasNoCopy(s: State, r: RelayId, outcome: PublishOutcome)
    requires Inv(s) && Enabled(s, Publish(r, outcome))
    ensures !HasCopy(s, s.txs[r].batch[s.txs[r].pos].id)
  {
    var tx := s.txs[r];
    assert TxSound(s, tx);
    var id := tx.batch[tx.pos].id;
    assert id in tx.locked && Unpublished(s, id);
    forall q | q in s.txs ensures !InFlight(s.txs[q], id) {
      if InFlight(s.txs[q], id) { InFlightIsLocked(s, q, id); }
    }
  }

  /** The transactions other than `r` stay, and so do the rows they have in flight. */
  lemma OthersStay(s: State, s': State, r: RelayId, id: RowId)
    requires s'.txs - {r} == s.txs - {r}
    ensures forall q | q != r ::
          (q in s'.txs <==> q in s.txs)
          && (q in s.txs ==> InFlight(s'.txs[q], id) == InFlight(s.txs[q], id))
  {
    forall q | q != r ensures (q in s'.txs <==> q in s.txs) && (q in s.txs ==> s'.txs[q] == s.txs[q]) {
      assert q in s'.txs <==> q in s'.txs - {r};
      assert q in s.txs <==> q in s.txs - {r};
      if q in s.txs { assert (s'.txs - {r})[q] == (s.txs - {r})[q]; }
    }
  }

  lemma PublishInFlight(s: State, r: RelayId, outcome: PublishOutcome, id: RowId)
    requires Inv(s) && Enabled(s, Publish(r, outcome))
    ensures var s', tx := Apply(s, Publish(r, outcome)), s.txs[r];
            InFlight(s'.txs[r], id) <==> InFlight(tx, id) || (outcome == Acked && tx.batch[tx.pos].id == id)
  {
    assert TxSound(s, s.txs[r]);
  }

  lemma PublishHasCopy(s: State, r: RelayId, outcome: PublishOutcome, id: RowId)
    requires Inv(s) && Enabled(s, Publish(r, outcome))
    ensures var s', current := Apply(s, Publish(r, outcome)), s.txs[r].batch[s.txs[r].pos].id == id;
            HasCopy(s', id) <==> HasCopy(s, id) || (outcome == Acked && current)
  {
    var s' := Apply(s, Publish(r, outcome));
    OthersStay(s, s', r, id);
    PublishInFlight(s, r, outcome, id);
    assert Settled(s', id) <==> Settled(s, id);
  }

  lemma PublishCopies(s: State, r: RelayId, outcome: PublishOutcome, id: RowId)
    requires Inv(s) && Enabled(s, Publish(r, outcome))
    ensures var s', current := Apply(s, Publish(r, outcome)), s.txs[r].batch[s.txs[r].pos].id == id;
            && Copies(s'.log, id) == Copies(s.log, id) + (if outcome != Failed && current then 1 else 0)
            && (current ==> !HasCopy(s, id))
  {
    CopiesSnoc(s.log, s.txs[r].batch[s.txs[r].pos], id);
    CurrentHasNoCopy(s, r, outcome);
  }

  lemma MarkCopies(s: State, r: RelayId, ok: bool, id: RowId)
    requires Inv(s) && Enabled(s, Mark(r, ok))
    ensures var s' := Apply(s, Mark(r, ok));
            && s'.log == s.log && (HasCopy(s', id) <==> HasCopy(s, id) && !StrandsRow(s, Mark(r, ok), id))
  {
    var s', tx := Apply(s, Mark(r, ok)), s.txs[r];
    assert TxSound(s, tx);
    OthersStay(s, s', r, id);
    assert InFlight(s'.txs[r], id) <==> ok && InFlight(tx, id);
    if InFlight(tx, id) { InFlightIsLocked(s, r, id); InFlightOnce(s, r, id); }
  }

  /** The transaction ends without marking anything: after a crash, a failed commit, or the commit of an aborted one. */
  lemma DropCopies(s: State, r: RelayId, id: RowId)
    requires Inv(s) && r in s.txs
    ensures HasCopy(s.(txs := s.txs - {r}), id) <==> HasCopy(s, id) && !InFlight(s.txs[r], id)
  {
    var s' := s.(txs := s.txs - {r});
    OthersStay(s, s', r, id);
    if InFlight(s.txs[r], id) { InFlightIsLocked(s, r, id); InFlightOnce(s, r, id); }
  }

  lemma CommitCopies(s: State, r: RelayId, id: RowId)
    requires Inv(s) && Enabled(s, Commit(r, true)) && !s.txs[r].aborted
    ensures HasCopy(Apply(s, Commit(r, true)), id) <==> HasCopy(s, id)
  {
    var s', tx := Apply(s, Commit(r, true)), s.txs[r];
    assert TxSound(s, tx);
    OthersStay(s, s', r, id);
    assert InFlight(tx, id) <==> id in tx.marked;
    assert Settled(s', id) <==> Settled(s, id) || id in tx.marked by {
      if id in tx.marked { InFlightIsLocked(s, r, id); }
    }
  }

  lemma OtherCopies(s: State, a: Action, id: RowId)
    requires Inv(s) && Enabled(s, a) && (a.CreateTrip? || a.Insert? || a.Cleanup?)
    ensures Apply(s, a).log == s.log && (HasCopy(Apply(s, a), id) <==> HasCopy(s, id))
  {
    var s' := Apply(s, a);
    assert s'.txs == s.txs;
  }

  lemma BeginCopies(s: State, a: Action, id: RowId)
    requires Inv(s) && Enabled(s, a) && a.Begin?
    ensures Apply(s, a).log == s.log && (HasCopy(Apply(s, a), id) <==> HasCopy(s, id))
  {
    var s' := Apply(s, a);
    OthersStay(s, s', a.r, id);
    assert !InFlight(s'.txs[a.r], id);
  }

  /** A step adds an extra copy of a row exactly if it strands the row. */
  lemma CopiesStep(s: State, a: Action, id: RowId)
    requires Inv(s)
    ensures var s' := Apply(s, a);
            Copies(s'.log, id) - (if HasCopy(s', id) then 1 else 0)
            == Copies(s.log, id) - (if HasCopy(s, id) then 1 else 0) + if StrandsRow(s, a, id) then 1 else 0
  {
    if Enabled(s, a) {
      match a
      case Publish(r, outcome) => PublishCopies(s, r, outcome, id); PublishHasCopy(s, r, outcome, id);
      case Mark(r, ok) => MarkCopies(s, r, ok, id); StrandedHasCopy(s, a, id);
      case Commit(r, ok) =>
        if ok && !s.txs[r].aborted { CommitCopies(s, r, id); } else { DropCopies(s, r, id); }
        StrandedHasCopy(s, a, id);
      case Crash(r) => DropCopies(s, r, id); StrandedHasCopy(s, a, id);
      case Begin(_, _, _) => BeginCopies(s, a, id);
      case _ => OtherCopies(s, a, id);
    }
  }

  lemma StrandedHasCopy(s: State, a: Action, id: RowId)
    ensures StrandsRow(s, a, id) && !a.Publish? ==> HasCopy(s, id)
  {
  }

  /** A step keeps "one copy of each settled or in-flight row" if and only if it strands nothing. */
  lemma OneCopyStep(s: State, a: Action)
    requires Inv(s) && OneCopy(s)
    ensures OneCopy(Apply(s, a)) <==> !Strands(s, a)
  {
    var s' := Apply(s, a);
    StrandsSomeRow(s, a);
    forall id
      ensures Copies(s'.log, id) == (if HasCopy(s', id) then 1 else 0) + if StrandsRow(s, a, id) then 1 else 0
    {
      CopiesStep(s, a, id);
    }
  }

  // ---------------------------------------------------------------- whole runs

  /** How often the steps of the run stranded row `id`. */
  ghost function Strandings(acts: seq<Action>, id: RowId): nat {
    if acts == [] then 0
    else
      var before := acts[..|acts| - 1];
      Strandings(before, id) + if StrandsRow(Run(Initial, before), acts[|acts| - 1], id) then 1 else 0
  }

  /** In every run, with any relays, failures and crashes: the broker has one copy of a row for each time the row was
      stranded, and one more if the row is settled or in flight. */
  lemma {:induction false} CopiesAreCounted(acts: seq<Action>, id: RowId)
    ensures var s := Run(Initial, acts); Copies(s.log, id) == Strandings(acts, id) + if HasCopy(s, id) then 1 else 0
  {
    if acts != [] {
      var before := acts[..|acts| - 1];
      CopiesAreCounted(before, id);
      InvRun(before);
      CopiesStep(Run(Initial, before), acts[|acts| - 1], id);
    }
  }

  ghost predicate StrandsAt(acts: seq<Action>, i: nat)
    requires i < |acts|
  {
    Strands(Run(Initial, acts[..i]), acts[i])
  }

  ghost predicate NothingStranded(acts: seq<Action>) {
    forall i | 0 <= i < |acts| :: !StrandsAt(acts, i)
  }

  lemma {:induction false} NothingStrandedPrefix(acts: seq<Action>)
    requires acts != []
    ensures var n := |acts| - 1;
            NothingStranded(acts) <==> NothingStranded(acts[..n]) && !Strands(Run(Initial, acts[..n]), acts[n])
  {
    var n := |acts| - 1;
    forall i | 0 <= i < n ensures StrandsAt(acts[..n], i) <==> StrandsAt(acts, i) {
      assert acts[..n][..i] == acts[..i];
    }
    assert StrandsAt(acts, n) <==> Strands(Run(Initial, acts[..n]), acts[n]);
  }

  lemma {:induction false} NoStrandings(acts: seq<Action>)
    ensures NothingStranded(acts) <==> forall id :: Strandings(acts, id) == 0
  {
    if acts != [] {
      var before, a := acts[..|acts| - 1], acts[|acts| - 1];
      NothingStrandedPrefix(acts);
      NoStrandings(before);
      InvRun(before);
      StrandsSomeRow(Run(Initial, before), a);
      var s := Run(Initial, before);
      forall id ensures Strandings(acts, id) == Strandings(before, id) + if StrandsRow(s, a, id) then 1 else 0 {}
      if !NothingStranded(before) {
        var id :| Strandings(before, id) != 0;
        assert Strandings(acts, id) != 0;
      } else if Strands(s, a) {
        var id :| StrandsRow(s, a, id);
        assert Strandings(acts, id) != 0;
      } else {
        forall id ensures Strandings(acts, id) == 0 {
          assert Strandings(before, id) == 0 && !StrandsRow(s, a, id);
        }
      }
    }
  }

  /** Over whole runs: every row is in the log exactly once when settled or in flight, and not at all otherwise, if and
      only if no step stranded a row. */
  lemma {:induction false} ExactlyOnceIffNothingStranded(acts: seq<Action>)
    ensures OneCopy(Run(Initial, acts)) <==> NothingStranded(acts)
  {
    var s := Run(Initial, acts);
    NoStrandings(acts);
    forall id ensures Copies(s.log, id) == Strandings(acts, id) + if HasCopy(s, id) then 1 else 0 {
      CopiesAreCounted(acts, id);
    }
    if !NothingStranded(acts) {
      var id :| Strandings(acts, id) != 0;
      assert Copies(s.log, id) != if HasCopy(s, id) then 1 else 0;
    } else {
      forall id ensures Copies(s.log, id) == if HasCopy(s, id) then 1 else 0 {
        assert Strandings(acts, id) == 0;
      }
    }
  }

  /** So in runs that strand nothing, every row is published at most once, and every row marked published (or already
      cleaned up) is in the log exactly once. Failed publishes, and crashes before anything was published, are
      harmless. */
  lemma {:induction false} ExactlyOnce(acts: seq<Action>, id: RowId)
    requires NothingStranded(acts)
    ensures var s := Run(Initial, acts);
            Copies(s.log, id) <= 1 && (id in s.created && !Unpublished(s, id) ==> Copies(s.log, id) == 1)
  {
    ExactlyOnceIffNothingStranded(acts);
    assert OneCopy(Run(Initial, acts));
  }

  /** A settled row is in the log once plus as often as it was stranded, so exactly once iff it never was. */
  lemma {:induction false} SettledOnceIffNeverStranded(acts: seq<Action>, id: RowId)
    requires var s := Run(Initial, acts); id in s.created && !Unpublished(s, id)
    ensures Copies(Run(Initial, acts).log, id) == 1 + Strandings(acts, id)
  {
    CopiesAreCounted(acts, id);
  }

  /** A concrete loss of exactly-once: a crash between publish and commit makes the next relay publish the row again. */
  lemma CrashRepublishes(msg: Message)
    ensures var s1 := Apply(Initial, Insert(0, msg));
            var s2 := Apply(Apply(Apply(s1, Begin(0, [0], 1)), Publish(0, Acked)), Crash(0));
            var s3 := Apply(Apply(s2, Begin(0, [0], 1)), Publish(0, Acked));
            Copies(s3.log, 0) == 2
  {
    var s1, e := Apply(Initial, Insert(0, msg)), Entry(0, msg);
    OneRowPublish(s1, msg);
    var s2 := Apply(Apply(Apply(s1, Begin(0, [0], 1)), Publish(0, Acked)), Crash(0));
    assert s2 == s1.(log := [e]);
    OneRowPublish(s2, msg);
    assert [e] + [e] == [e, e] && [e, e][..1] == [e] && [e][..0] == [];
    assert Copies([e], 0) == 1;
  }

  lemma OneRowPublish(s: State, msg: Message)
    requires s.rows == map[0 := Row(msg, false)] && s.txs == map[]
    ensures var tx := Tx([0], [Entry(0, msg)], 0, {}, ToMark, false);
            Apply(Apply(s, Begin(0, [0], 1)), Publish(0, Acked))
                == s.(log := s.log + [Entry(0, msg)], txs := map[0 := tx])
  {
    assert IsSelection(s, [0]);
    assert Read(s, [0], 1) == [Entry(0, msg)];
    assert Apply(s, Begin(0, [0], 1)) == s.(txs := map[0 := Tx([0], [Entry(0, msg)], 0, {}, ToPublish, false)]);
  }
}
