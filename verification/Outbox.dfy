/**
 The transactional outbox of the trip service and the relays that drain it.

 A relay transaction is taken apart into the calls it makes (lock, publish, mark, commit), so that
 any number of relays interleave and each call fails or the process dies at any point.
 */
module Outbox {
  import opened Common

  type RowId = nat
  type RelayId = nat
  type TripId = string

  datatype Message = Message(topic: string, payload: string)

  /** An outbox row; `published` stands for `published_at IS NOT NULL`. */
  datatype Row = Row(msg: Message, published: bool)

  /** One row as the relay read it, and one record of the broker log. */
  datatype Entry = Entry(id: RowId, msg: Message)

  datatype Phase = ToPublish | ToMark | ToCommit

  /** An open relay transaction: row locks, the batch it read, and how far its loop has come. */
  datatype Tx = Tx(locked: seq<RowId>, batch: seq<Entry>, pos: nat, marked: set<RowId>, phase: Phase, aborted: bool)

  /** `rows` and `txs` are the database, `log` the broker.
      `order` and `created` remember every row ever committed, `trips` the row of every committed trip. */
  datatype State = State(
    rows: map<RowId, Row>,
    order: seq<RowId>,
    created: map<RowId, Message>,
    trips: map<TripId, RowId>,
    log: seq<Entry>,
    txs: map<RelayId, Tx>)

  const BATCH_LIMIT: nat := 100

  datatype Action =
    | CreateTrip(trip: TripId, id: RowId, msg: Message)
    | Insert(id: RowId, msg: Message)
    | Begin(r: RelayId, sel: seq<RowId>, got: nat)
    | Publish(r: RelayId, outcome: PublishOutcome)
    | Mark(r: RelayId, ok: bool)
    | Commit(r: RelayId, ok: bool)
    | Crash(r: RelayId)
    | Cleanup(ids: set<RowId>)

  const Initial: State := State(map[], [], map[], map[], [], map[])

  // ---------------------------------------------------------------- one step

  predicate Locked(s: State, id: RowId) {
    exists r | r in s.txs :: id in s.txs[r].locked
  }

  predicate Unpublished(s: State, id: RowId) {
    id in s.rows && !s.rows[id].published
  }

  predicate Free(s: State, id: RowId) {
    Unpublished(s, id) && !Locked(s, id)
  }

  predicate Ascending(ids: seq<RowId>) {
    forall i, j | 0 <= i < j < |ids| :: ids[i] < ids[j]
  }

  /** The unlocked unpublished rows in id order, at most 100 of them: FOR UPDATE SKIP LOCKED LIMIT 100. */
  predicate IsSelection(s: State, sel: seq<RowId>) {
    && |sel| <= BATCH_LIMIT
    && Ascending(sel)
    && (forall id | id in sel :: Free(s, id))
    && (forall id | id in s.rows && Free(s, id) && id !in sel ::
          |sel| == BATCH_LIMIT && forall k | 0 <= k < |sel| :: sel[k] < id)
  }

  predicate Enabled(s: State, a: Action) {
    match a
    case CreateTrip(t, id, _) => t !in s.trips && id !in s.created
    case Insert(id, _) => id !in s.created
    case Begin(r, sel, got) => r !in s.txs && IsSelection(s, sel) && got <= |sel|
    case Publish(r, _) => r in s.txs && s.txs[r].phase == ToPublish && s.txs[r].pos < |s.txs[r].batch|
    case Mark(r, _) => r in s.txs && s.txs[r].phase == ToMark && s.txs[r].pos < |s.txs[r].batch|
    case Commit(r, _) => r in s.txs && s.txs[r].phase == ToCommit
    case Crash(r) => r in s.txs
    case Cleanup(ids) => forall id | id in ids :: id in s.rows && s.rows[id].published
  }

  function InsertRow(s: State, id: RowId, msg: Message): State {
    s.(rows := s.rows[id := Row(msg, false)], order := s.order + [id], created := s.created[id := msg])
  }

  /** The entries of the first `got` selected rows: a failed scan closes the cursor, so a prefix is read. */
  function Read(s: State, sel: seq<RowId>, got: nat): (batch: seq<Entry>)
    requires got <= |sel| && forall id | id in sel :: id in s.rows
  {
    seq(got, i requires 0 <= i < got => Entry(sel[i], s.rows[sel[i]].msg))
  }

  function BeginTx(s: State, sel: seq<RowId>, got: nat): Tx
    requires got <= |sel| && forall id | id in sel :: id in s.rows
  {
    Tx(sel, Read(s, sel, got), 0, {}, if got == 0 then ToCommit else ToPublish, false)
  }

  function AfterPublish(tx: Tx, outcome: PublishOutcome): Tx {
    tx.(phase := if outcome == Acked then ToMark else ToCommit)
  }

  /** A failed UPDATE aborts the SQL transaction, so its COMMIT will be a rollback. */
  function AfterMark(tx: Tx, ok: bool): Tx
    requires tx.pos < |tx.batch|
  {
    if !ok then tx.(phase := ToCommit, aborted := true)
    else tx.(marked := tx.marked + {tx.batch[tx.pos].id}, pos := tx.pos + 1,
             phase := if tx.pos + 1 < |tx.batch| then ToPublish else ToCommit)
  }

  function MarkRows(rows: map<RowId, Row>, marked: set<RowId>): map<RowId, Row> {
    map id | id in rows :: if id in marked then Row(rows[id].msg, true) else rows[id]
  }

  /** The state after `a`; a step that is not enabled changes nothing. */
  function Apply(s: State, a: Action): State {
    if !Enabled(s, a) then s else
    match a
    case CreateTrip(t, id, msg) => InsertRow(s, id, msg).(trips := s.trips[t := id])
    case Insert(id, msg) => InsertRow(s, id, msg)
    case Begin(r, sel, got) => s.(txs := s.txs[r := BeginTx(s, sel, got)])
    case Publish(r, outcome) =>
      var tx := s.txs[r];
      s.(log := if outcome == Failed then s.log else s.log + [tx.batch[tx.pos]],
         txs := s.txs[r := AfterPublish(tx, outcome)])
    case Mark(r, ok) => s.(txs := s.txs[r := AfterMark(s.txs[r], ok)])
    case Commit(r, ok) =>
      var tx := s.txs[r];
      s.(rows := if ok && !tx.aborted then MarkRows(s.rows, tx.marked) else s.rows, txs := s.txs - {r})
    case Crash(r) => s.(txs := s.txs - {r})
    case Cleanup(ids) => s.(rows := s.rows - ids)
  }

  function Run(s: State, acts: seq<Action>): State {
    if acts == [] then s else Apply(Run(s, acts[..|acts| - 1]), acts[|acts| - 1])
  }

  lemma {:induction false} RunSplit(s: State, first: seq<Action>, rest: seq<Action>)
    ensures Run(s, first + rest) == Run(Run(s, first), rest)
  {
    if rest == [] {
      assert first + rest == first;
    } else {
      var n := |rest| - 1;
      assert (first + rest)[..|first| + n] == first + rest[..n];
      RunSplit(s, first, rest[..n]);
    }
  }

  lemma RunOne(s: State, a: Action)
    ensures Run(s, [a]) == Apply(s, a)
  {
    assert [a][..0] == [];
  }

  // ---------------------------------------------------------------- what every step keeps

  ghost predicate Delivered(s: State, id: RowId) {
    id in s.created && Entry(id, s.created[id]) in s.log
  }

  /** No row is lost: it waits unpublished in the outbox, or the broker has it with the same topic and payload. */
  ghost predicate NothingLost(s: State) {
    forall id | id in s.created :: Unpublished(s, id) || Delivered(s, id)
  }

  ghost predicate RowsKnown(s: State) {
    && (forall id | id in s.rows :: id in s.created && s.rows[id].msg == s.created[id])
    && (forall e | e in s.log :: e.id in s.created && e.msg == s.created[e.id])
    && (forall t | t in s.trips :: s.trips[t] in s.created)
  }

  ghost predicate TxSound(s: State, tx: Tx) {
    && tx.pos <= |tx.batch| <= |tx.locked|
    && (tx.phase != ToCommit ==> tx.pos < |tx.batch|)
    && (tx.aborted ==> tx.phase == ToCommit)
    && Ascending(tx.locked)
    && (forall id | id in tx.locked :: Unpublished(s, id))
    && (forall i | 0 <= i < |tx.batch| ::
          tx.batch[i].id == tx.locked[i] && tx.locked[i] in s.created
          && tx.batch[i].msg == s.created[tx.locked[i]])
    && (forall i | 0 <= i < tx.pos :: tx.batch[i] in s.log)
    && (tx.phase == ToMark ==> tx.batch[tx.pos] in s.log)
    && tx.marked == (set i | 0 <= i < tx.pos :: tx.locked[i])
  }

  ghost predicate LocksDisjoint(s: State) {
    forall r1, r2, id | r1 in s.txs && r2 in s.txs && id in s.txs[r1].locked && id in s.txs[r2].locked :: r1 == r2
  }

  ghost predicate Inv(s: State) {
    && RowsKnown(s)
    && NothingLost(s)
    && LocksDisjoint(s)
    && (forall r | r in s.txs :: TxSound(s, s.txs[r]))
  }

  lemma InvInsert(s: State, id: RowId, msg: Message)
    requires Inv(s) && id !in s.created
    ensures Inv(InsertRow(s, id, msg))
  {
    var s' := InsertRow(s, id, msg);
    forall r | r in s'.txs ensures TxSound(s', s'.txs[r]) {
      assert TxSound(s, s.txs[r]);
    }
  }

  lemma InvBegin(s: State, r: RelayId, sel: seq<RowId>, got: nat)
    requires Inv(s) && Enabled(s, Begin(r, sel, got))
    ensures Inv(Apply(s, Begin(r, sel, got)))
  {
    var s' := Apply(s, Begin(r, sel, got));
    forall q | q in s'.txs ensures TxSound(s', s'.txs[q]) {
      if q != r {
        assert TxSound(s, s.txs[q]);
      } else {
        forall i | 0 <= i < got ensures sel[i] in s.created && s'.txs[r].batch[i] == Entry(sel[i], s.created[sel[i]]) {
          assert Free(s, sel[i]);
        }
      }
    }
  }

  lemma InvPublish(s: State, r: RelayId, outcome: PublishOutcome)
    requires Inv(s) && Enabled(s, Publish(r, outcome))
    ensures Inv(Apply(s, Publish(r, outcome)))
  {
    var s' := Apply(s, Publish(r, outcome));
    assert TxSound(s, s.txs[r]);
    assert forall e | e in s.log :: e in s'.log;
    forall q | q in s'.txs ensures TxSound(s', s'.txs[q]) {
      assert TxSound(s, s.txs[q]);
    }
  }

  lemma MarkSound(s: State, tx: Tx, ok: bool)
    requires TxSound(s, tx) && tx.phase == ToMark
    ensures TxSound(s, AfterMark(tx, ok))
  {
    assert (set i | 0 <= i < tx.pos + 1 :: tx.locked[i])
        == (set i | 0 <= i < tx.pos :: tx.locked[i]) + {tx.locked[tx.pos]};
  }

  /** Nothing but the transactions changed. */
  lemma TxFrame(s: State, s': State, tx: Tx)
    requires TxSound(s, tx) && s'.rows == s.rows && s'.created == s.created && s'.log == s.log
    ensures TxSound(s', tx)
  {
  }

  lemma InvMark(s: State, r: RelayId, ok: bool)
    requires Inv(s) && Enabled(s, Mark(r, ok))
    ensures Inv(Apply(s, Mark(r, ok)))
  {
    var s' := Apply(s, Mark(r, ok));
    MarkSound(s, s.txs[r], ok);
    forall q | q in s'.txs ensures TxSound(s', s'.txs[q]) {
      TxFrame(s, s', s'.txs[q]);
    }
  }

  lemma InvCrash(s: State, r: RelayId)
    requires Inv(s) && r in s.txs
    ensures Inv(s.(txs := s.txs - {r}))
  {
    forall q | q in s.txs && q != r ensures TxSound(s.(txs := s.txs - {r}), s.txs[q]) {
      TxFrame(s, s.(txs := s.txs - {r}), s.txs[q]);
    }
  }

  /** A committed transaction publishes rows that are in the log and that no other transaction holds. */
  lemma InvCommit(s: State, r: RelayId)
    requires Inv(s) && r in s.txs
    ensures Inv(s.(rows := MarkRows(s.rows, s.txs[r].marked), txs := s.txs - {r}))
  {
    var tx := s.txs[r];
    var s' := s.(rows := MarkRows(s.rows, tx.marked), txs := s.txs - {r});
    assert TxSound(s, tx);
    forall id | id in s'.created ensures Unpublished(s', id) || Delivered(s', id) {
      if id in tx.marked {
        var i :| 0 <= i < tx.pos && tx.locked[i] == id;
        assert tx.batch[i] == Entry(id, s.created[id]);
      } else {
        assert Unpublished(s, id) || Delivered(s, id);
      }
    }
    forall q | q in s'.txs ensures TxSound(s', s'.txs[q]) {
      assert TxSound(s, s.txs[q]);
      assert forall id | id in s.txs[q].locked :: id !in tx.marked;
    }
  }

  lemma InvCleanup(s: State, ids: set<RowId>)
    requires Inv(s) && Enabled(s, Cleanup(ids))
    ensures Inv(Apply(s, Cleanup(ids)))
  {
    var s' := Apply(s, Cleanup(ids));
    forall q | q in s'.txs ensures TxSound(s', s'.txs[q]) {
      assert TxSound(s, s.txs[q]);
    }
  }

  lemma InvStep(s: State, a: Action)
    requires Inv(s)
    ensures Inv(Apply(s, a))
  {
    if Enabled(s, a) {
      match a
      case CreateTrip(t, id, msg) => InvInsert(s, id, msg);
        var s1, s' := InsertRow(s, id, msg), Apply(s, a);
        forall r | r in s'.txs ensures TxSound(s', s'.txs[r]) { assert TxSound(s1, s1.txs[r]); }
      case Insert(id, msg) => InvInsert(s, id, msg);
      case Begin(r, sel, got) => InvBegin(s, r, sel, got);
      case Publish(r, outcome) => InvPublish(s, r, outcome);
      case Mark(r, ok) => InvMark(s, r, ok);
      case Commit(r, ok) => if ok && !s.txs[r].aborted { InvCommit(s, r); } else { InvCrash(s, r); }
      case Crash(r) => InvCrash(s, r);
      case Cleanup(ids) => InvCleanup(s, ids);
    }
  }

  lemma {:induction false} InvRun(acts: seq<Action>)
    ensures Inv(Run(Initial, acts))
  {
    if acts != [] {
      InvRun(acts[..|acts| - 1]);
      InvStep(Run(Initial, acts[..|acts| - 1]), acts[|acts| - 1]);
    }
  }

  /** Whatever relays, failures and crashes occur: the created-message of every committed trip is an unpublished
      outbox row or a broker record with the same topic and payload, and no row is locked by two relays. */
  lemma {:induction false} CreatedMessageNeverLost(acts: seq<Action>, t: TripId)
    requires t in Run(Initial, acts).trips
    ensures var s := Run(Initial, acts);
            var id := s.trips[t];
            && id in s.created
            && ((id in s.rows && s.rows[id] == Row(s.created[id], false)) || Entry(id, s.created[id]) in s.log)
  {
    InvRun(acts);
  }

  lemma {:induction false} NoRowLockedTwice(acts: seq<Action>, r1: RelayId, r2: RelayId, id: RowId)
    requires var s := Run(Initial, acts); r1 in s.txs && r2 in s.txs && id in s.txs[r1].locked && id in s.txs[r2].locked
    ensures r1 == r2
  {
    InvRun(acts);
  }

  // ---------------------------------------------------------------- order with a single relay

  function Ids(log: seq<Entry>): (ids: seq<RowId>)
    ensures |ids| == |log| && forall i | 0 <= i < |log| :: ids[i] == log[i].id
  {
    seq(|log|, i requires 0 <= i < |log| => log[i].id)
  }

  /** The sequence with every repeat after the first occurrence dropped. */
  function FirstOccurrences(ids: seq<RowId>): seq<RowId> {
    if ids == [] then []
    else
      var before, last := FirstOccurrences(ids[..|ids| - 1]), ids[|ids| - 1];
      if last in before then before else before + [last]
  }

  /** Relay `r` is the only one, and rows commit in the order of their ids. */
  ghost predicate Serial(s: State, a: Action, r: RelayId) {
    match a
    case CreateTrip(_, id, _) => forall x | x in s.created :: x < id
    case Insert(id, _) => forall x | x in s.created :: x < id
    case Begin(q, _, _) => q == r
    case Publish(q, _) => q == r
    case Mark(q, _) => q == r
    case Commit(q, _) => q == r
    case Crash(q) => q == r
    case Cleanup(_) => true
  }

  ghost predicate SerialRun(acts: seq<Action>, r: RelayId) {
    forall i | 0 <= i < |acts| :: Serial(Run(Initial, acts[..i]), acts[i], r)
  }

  /** The settled rows are the first `m` of the outbox, and the broker has seen the first `k`. */
  ghost predicate RowsInOrder(rows: map<RowId, Row>, created: map<RowId, Message>, order: seq<RowId>, log: seq<Entry>,
      m: nat, k: nat) {
    && m <= k <= |order|
    && Ascending(order)
    && (forall id :: id in created <==> id in order)
    && (forall i | 0 <= i < |order| :: (order[i] in rows && !rows[order[i]].published) <==> m <= i)
    && FirstOccurrences(Ids(log)) == order[..k]
  }

  /** The transaction holds the next rows of the outbox, and what it has published is in the log. */
  ghost predicate TxInOrder(order: seq<RowId>, tx: Tx, m: nat, k: nat) {
    && m + |tx.locked| <= |order|
    && (forall i | 0 <= i < |tx.locked| :: tx.locked[i] == order[m + i])
    && m + tx.pos + (if tx.phase == ToMark then 1 else 0) <= k
  }

  ghost predicate InOrder(s: State, r: RelayId, m: nat, k: nat) {
    && RowsInOrder(s.rows, s.created, s.order, s.log, m, k)
    && (forall q | q in s.txs :: q == r)
    && (r in s.txs ==> TxInOrder(s.order, s.txs[r], m, k))
  }

  /** An ascending choice from an ascending sequence that skips only larger elements is a prefix of it. */
  lemma {:induction false} ChoiceIsPrefix(tail: seq<RowId>, sel: seq<RowId>, i: nat)
    requires Ascending(tail) && Ascending(sel) && i < |sel|
    requires forall k | 0 <= k < |sel| :: sel[k] in tail
    requires forall x, k | x in tail && x !in sel && 0 <= k < |sel| :: sel[k] < x
    ensures i < |tail| && sel[i] == tail[i]
  {
    forall j | 0 <= j < i ensures j < |tail| && sel[j] == tail[j] {
      ChoiceIsPrefix(tail, sel, j);
    }
    var p :| 0 <= p < |tail| && tail[p] == sel[i];
    assert p >= i by {
      if i > 0 { assert sel[i - 1] == tail[i - 1]; }
    }
    var next := tail[i];
    assert sel[i] <= next by {
      if next in sel {
        var j :| 0 <= j < |sel| && sel[j] == next;
        assert j >= i;
      }
    }
  }

  lemma InOrderInsert(s: State, r: RelayId, m: nat, k: nat, id: RowId, msg: Message)
    requires Inv(s) && InOrder(s, r, m, k) && id !in s.created && forall x | x in s.created :: x < id
    ensures InOrder(InsertRow(s, id, msg), r, m, k)
  {
    var s' := InsertRow(s, id, msg);
    forall i | 0 <= i < |s'.order| ensures Unpublished(s', s'.order[i]) <==> m <= i {
      if i < |s.order| { assert s.order[i] in s.order; }
    }
    forall i, j | 0 <= i < j < |s'.order| ensures s'.order[i] < s'.order[j] {
      assert s'.order[i] in s.order;
    }
    assert s'.order[..k] == s.order[..k];
  }

  /** With no open transaction the selected rows lie in the unpublished tail, and what is skipped lies behind them. */
  lemma SelectionInTail(s: State, m: nat, sel: seq<RowId>)
    requires m <= |s.order| && s.txs == map[] && IsSelection(s, sel)
    requires (forall id | id in s.rows :: id in s.order)
        && forall i | 0 <= i < |s.order| :: Unpublished(s, s.order[i]) <==> m <= i
    ensures forall k | 0 <= k < |sel| :: sel[k] in s.order[m..]
    ensures forall x, k | x in s.order[m..] && x !in sel && 0 <= k < |sel| :: sel[k] < x
  {
    forall i | 0 <= i < |sel| ensures sel[i] in s.order[m..] {
      assert Free(s, sel[i]);
      var p :| 0 <= p < |s.order| && s.order[p] == sel[i];
      assert s.order[m..][p - m] == sel[i];
    }
    forall x, i | x in s.order[m..] && x !in sel && 0 <= i < |sel| ensures sel[i] < x {
      var p :| 0 <= p < |s.order| - m && s.order[m..][p] == x;
      assert s.order[m + p] == x && Free(s, x);
    }
  }

  lemma SelectionIsInterval(s: State, m: nat, k: nat, sel: seq<RowId>)
    requires RowsInOrder(s.rows, s.created, s.order, s.log, m, k) && RowsKnown(s) && s.txs == map[]
        && IsSelection(s, sel)
    ensures m + |sel| <= |s.order| && forall i | 0 <= i < |sel| :: sel[i] == s.order[m + i]
  {
    var tail := s.order[m..];
    SelectionInTail(s, m, sel);
    forall i | 0 <= i < |sel| ensures i < |tail| && sel[i] == tail[i] {
      ChoiceIsPrefix(tail, sel, i);
    }
    if |sel| > 0 { ChoiceIsPrefix(tail, sel, |sel| - 1); }
  }

  lemma InOrderBegin(s: State, r: RelayId, m: nat, k: nat, sel: seq<RowId>, got: nat)
    requires Inv(s) && InOrder(s, r, m, k) && Enabled(s, Begin(r, sel, got))
    ensures InOrder(Apply(s, Begin(r, sel, got)), r, m, k)
  {
    assert s.txs == map[];
    SelectionIsInterval(s, m, k, sel);
    assert TxInOrder(s.order, BeginTx(s, sel, got), m, k);
  }

  /** Publishing the row at position `p` of the outbox, where the first `k` are already in the log. */
  lemma FirstOccurrencesExtend(order: seq<RowId>, log: seq<Entry>, p: nat, k: nat, e: Entry)
    requires Ascending(order) && p <= k <= |order| && p < |order| && e.id == order[p]
    requires FirstOccurrences(Ids(log)) == order[..k]
    ensures FirstOccurrences(Ids(log + [e])) == order[..if p < k then k else k + 1]
  {
    assert Ids(log + [e])[..|log|] == Ids(log);
    if p < k {
      assert order[p] == order[..k][p];
    } else {
      assert order[k] !in order[..k];
      assert order[..k + 1] == order[..k] + [order[k]];
    }
  }

  /** The log of an appended record: the broker has now seen the first `k'` rows. */
  lemma AppendedInOrder(s: State, m: nat, k: nat, p: nat, e: Entry) returns (k': nat)
    requires RowsInOrder(s.rows, s.created, s.order, s.log, m, k)
    requires m <= p <= k && p < |s.order| && e.id == s.order[p]
    ensures RowsInOrder(s.rows, s.created, s.order, s.log + [e], m, k') && k <= k' && p + 1 <= k'
  {
    FirstOccurrencesExtend(s.order, s.log, p, k, e);
    k' := if p < k then k else k + 1;
  }

  lemma InOrderPublish(s: State, r: RelayId, m: nat, k: nat, outcome: PublishOutcome) returns (k': nat)
    requires Inv(s) && InOrder(s, r, m, k) && Enabled(s, Publish(r, outcome))
    ensures InOrder(Apply(s, Publish(r, outcome)), r, m, k')
  {
    var tx := s.txs[r];
    k' := k;
    if outcome != Failed {
      assert TxSound(s, tx);
      k' := AppendedInOrder(s, m, k, m + tx.pos, tx.batch[tx.pos]);
    }
    assert TxInOrder(s.order, AfterPublish(tx, outcome), m, k');
  }

  lemma InOrderCommit(s: State, r: RelayId, m: nat, k: nat, ok: bool) returns (m': nat)
    requires Inv(s) && InOrder(s, r, m, k) && Enabled(s, Commit(r, ok))
    ensures InOrder(Apply(s, Commit(r, ok)), r, m', k)
  {
    var s', tx := Apply(s, Commit(r, ok)), s.txs[r];
    assert TxSound(s, tx);
    m' := m;
    if ok && !tx.aborted {
      m' := m + tx.pos;
      forall i | 0 <= i < |s.order| ensures Unpublished(s', s.order[i]) <==> m' <= i {
        assert s.order[i] in tx.marked <==> m <= i < m' by {
          if m <= i < m' { assert tx.locked[i - m] == s.order[i]; }
        }
      }
    }
  }

  lemma InOrderStep(s: State, r: RelayId, m: nat, k: nat, a: Action) returns (m': nat, k': nat)
    requires Inv(s) && InOrder(s, r, m, k) && Serial(s, a, r)
    ensures InOrder(Apply(s, a), r, m', k')
  {
    m', k' := m, k;
    if Enabled(s, a) {
      match a
      case CreateTrip(t, id, msg) => InOrderInsert(s, r, m, k, id, msg);
      case Insert(id, msg) => InOrderInsert(s, r, m, k, id, msg);
      case Begin(q, sel, got) =>
        InOrderBegin(s, r, m, k, sel, got);
      case Publish(_, outcome) => k' := InOrderPublish(s, r, m, k, outcome);
      case Mark(_, ok) =>
      case Commit(_, ok) => m' := InOrderCommit(s, r, m, k, ok);
      case Crash(_) =>
      case Cleanup(ids) =>
    }
  }

  lemma {:induction false} InOrderRun(acts: seq<Action>, r: RelayId) returns (m: nat, k: nat)
    requires SerialRun(acts, r)
    ensures InOrder(Run(Initial, acts), r, m, k)
  {
    if acts == [] {
      m, k := 0, 0;
    } else {
      var before := acts[..|acts| - 1];
      forall i | 0 <= i < |before| ensures Serial(Run(Initial, before[..i]), before[i], r) {
        assert before[..i] == acts[..i];
      }
      m, k := InOrderRun(before, r);
      InvRun(before);
      m, k := InOrderStep(Run(Initial, before), r, m, k, acts[|acts| - 1]);
    }
  }

  /** With one relay and ids committed in order, the broker log without repeats is at every moment a prefix of the
      outbox in id order, whatever publish, mark and commit failures and crashes have occurred. */
  lemma {:induction false} LogIsPrefixOfOutbox(acts: seq<Action>, r: RelayId)
    requires SerialRun(acts, r)
    ensures var s := Run(Initial, acts);
            && Ascending(s.order)
            && (forall id :: id in s.created <==> id in s.order)
            && FirstOccurrences(Ids(s.log)) <= s.order
  {
    var m, k := InOrderRun(acts, r);
  }
}
