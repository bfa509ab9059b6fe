/**
 The relay itself: the database and the broker as mutable state, one method for each call the relay makes,
 and `Drain`, the loop that runs once a second.
 */
module OutboxRelay {
  import opened Common
  import opened Outbox

  lemma {:induction false} LeastExists(ids: set<RowId>) returns (m: RowId)
    requires ids != {}
    ensures m in ids && forall x | x in ids :: m <= x
    decreases |ids|
  {
    m :| m in ids;
    if ids - {m} != {} {
      var other := LeastExists(ids - {m});
      assert forall x | x in ids :: x == m || x in ids - {m};
      if other < m { m := other; }
    }
  }

  function IdSet(batch: seq<Entry>): set<RowId> {
    set i | 0 <= i < |batch| :: batch[i].id
  }

  /** `n` is the number of leading entries that are both published and marked. */
  ghost predicate Stops(batch: seq<Entry>, pub: RowId -> PublishOutcome, mark: RowId -> bool, n: nat) {
    && n <= |batch|
    && (forall i | 0 <= i < n :: pub(batch[i].id) == Acked && mark(batch[i].id))
    && (n < |batch| ==> !(pub(batch[n].id) == Acked && mark(batch[n].id)))
  }

  /** How many entries reached the broker: the entry the loop stopped at may have been appended too. */
  function Appended(batch: seq<Entry>, pub: RowId -> PublishOutcome, n: nat): (k: nat)
    requires n <= |batch|
    ensures n <= k <= |batch|
  {
    if n < |batch| && pub(batch[n].id) != Failed then n + 1 else n
  }

  predicate MarkFailed(batch: seq<Entry>, pub: RowId -> PublishOutcome, n: nat) {
    n < |batch| && pub(batch[n].id) == Acked
  }

  /** The transaction after one round of the loop. */
  function AfterOne(tx: Tx, outcome: PublishOutcome, ok: bool): Tx
    requires tx.pos < |tx.batch|
  {
    if outcome == Acked && ok then AfterMark(tx, true)
    else tx.(phase := ToCommit, aborted := tx.aborted || outcome == Acked)
  }

  /** Where the loop stands: the first `served` entries are published and marked; unless `more`, it stopped at the
      next. */
  ghost predicate Progress(batch: seq<Entry>, pub: RowId -> PublishOutcome, mark: RowId -> bool,
                           tx: Tx, appended: seq<Entry>, served: nat, more: bool) {
    && served <= |batch| && tx.batch == batch && tx.pos == served && tx.marked == IdSet(batch[..served])
    && (forall i | 0 <= i < served :: pub(batch[i].id) == Acked && mark(batch[i].id))
    && (if more then
          && !tx.aborted && tx.phase == (if served < |batch| then ToPublish else ToCommit)
          && appended == batch[..served]
        else
          && served < |batch| && tx.phase == ToCommit && !(pub(batch[served].id) == Acked && mark(batch[served].id))
          && tx.aborted == MarkFailed(batch, pub, served)
          && appended == batch[..Appended(batch, pub, served)])
  }

  lemma ProgressOne(batch: seq<Entry>, pub: RowId -> PublishOutcome, mark: RowId -> bool,
                    tx: Tx, appended: seq<Entry>, served: nat)
    requires Progress(batch, pub, mark, tx, appended, served, true) && served < |batch|
    ensures var e := batch[served];
            var outcome, ok := pub(e.id), mark(e.id);
            Progress(batch, pub, mark, AfterOne(tx, outcome, ok), if outcome == Failed then appended
                else appended + [e],
                     if outcome == Acked && ok then served + 1 else served, outcome == Acked && ok)
  {
    var e := batch[served];
    assert batch[..served + 1] == batch[..served] + [e];
    assert IdSet(batch[..served + 1]) == IdSet(batch[..served]) + {e.id};
  }

  class Backend {
    var rows: map<RowId, Row>
    var order: seq<RowId>
    var created: map<RowId, Message>
    var trips: map<TripId, RowId>
    var log: seq<Entry>
    var txs: map<RelayId, Tx>

    constructor ()
      ensures View() == Initial
    {
      rows, order, created, trips, log, txs := map[], [], map[], map[], [], map[];
    }

    function View(): State
      reads this
    {
      State(rows, order, created, trips, log, txs)
    }

    /** The trip row and its outbox row commit together; on any error the transaction is rolled back. */
    method CreateTripWithOutbox(trip: TripId, id: RowId, msg: Message, tripOk: bool, outboxOk: bool, commitOk: bool)
      returns (ok: bool)
      requires id !in created
      modifies this
      ensures ok == (tripOk && outboxOk && commitOk && trip !in old(trips))
      ensures View() == if ok then Apply(old(View()), CreateTrip(trip, id, msg)) else old(View())
    {
      if !tripOk || trip in trips { return false; } // primary key of trips
      if !outboxOk { return false; }
      if !commitOk { return false; }
      trips := trips[trip := id];
      rows, order, created := rows[id := Row(msg, false)], order + [id], created[id := msg];
      return true;
    }

    method SelectUnlocked() returns (sel: seq<RowId>)
      ensures IsSelection(View(), sel)
    {
      var s := View();
      var left := set id | id in rows && Free(s, id);
      sel := [];
      while left != {} && |sel| < BATCH_LIMIT
        invariant |sel| <= BATCH_LIMIT && Ascending(sel)
        invariant forall id | id in left :: Free(s, id) && id !in sel
        invariant forall id | id in sel :: Free(s, id)
        invariant forall id | id in rows && Free(s, id) :: id in left || id in sel
        invariant forall id, k | id in left && 0 <= k < |sel| :: sel[k] < id
        decreases |left|
      {
        ghost var least := LeastExists(left);
        var m :| m in left && forall x | x in left :: m <= x;
        sel := sel + [m];
        left := left - {m};
      }
    }

    method BeginRelay(r: RelayId, sel: seq<RowId>, got: nat)
      requires Enabled(View(), Begin(r, sel, got))
      modifies this`txs
      ensures View() == Apply(old(View()), Begin(r, sel, got))
    {
      txs := txs[r := BeginTx(View(), sel, got)];
    }

    method PublishMessage(r: RelayId, outcome: PublishOutcome)
      requires Enabled(View(), Publish(r, outcome))
      modifies this`txs, this`log
      ensures View() == Apply(old(View()), Publish(r, outcome))
    {
      var tx := txs[r];
      if outcome != Failed {
        log := log + [tx.batch[tx.pos]];
      }
      txs := txs[r := AfterPublish(tx, outcome)];
    }

    method MarkPublished(r: RelayId, ok: bool)
      requires Enabled(View(), Mark(r, ok))
      modifies this`txs
      ensures View() == Apply(old(View()), Mark(r, ok))
    {
      txs := txs[r := AfterMark(txs[r], ok)];
    }

    method CommitRelay(r: RelayId, ok: bool)
      requires Enabled(View(), Commit(r, ok))
      modifies this`txs, this`rows
      ensures View() == Apply(old(View()), Commit(r, ok))
    {
      if ok && !txs[r].aborted {
        rows := MarkRows(rows, txs[r].marked);
      }
      txs := txs - {r};
    }

    /** The periodic delete removes only published rows; `old` holds those past the retention. */
    method CleanupOld(expired: set<RowId>)
      modifies this`rows
      ensures View() == Apply(old(View()),
          Cleanup(set id | id in expired && id in old(rows) && old(rows)[id].published))
      ensures forall id :: id in rows <==> id in old(rows) && !(id in expired && old(rows)[id].published)
      ensures forall id | id in rows :: rows[id] == old(rows)[id]
    {
      rows := rows - (set id | id in expired && id in rows && rows[id].published);
    }

    /** One round of the loop: publish the current entry, then mark its row. */
    method ServeOne(r: RelayId, outcome: PublishOutcome, ok: bool) returns (served: bool, ghost acts: seq<Action>)
      requires r in txs && txs[r].phase == ToPublish && txs[r].pos < |txs[r].batch|
      modifies this`txs, this`log
      ensures served == (outcome == Acked && ok)
      ensures txs == old(txs)[r := AfterOne(old(txs[r]), outcome, ok)]
      ensures log == if outcome == Failed then old(log) else old(log) + [old(txs[r].batch[txs[r].pos])]
      ensures View() == Run(old(View()), acts)
      ensures acts == if outcome == Acked then [Publish(r, outcome), Mark(r, ok)] else [Publish(r, outcome)]
    {
      RunOne(View(), Publish(r, outcome));
      PublishMessage(r, outcome);
      acts := [Publish(r, outcome)];
      if outcome != Acked {
        return false, acts;
      }
      RunOne(View(), Mark(r, ok));
      RunSplit(old(View()), acts, [Mark(r, ok)]);
      MarkPublished(r, ok);
      return ok, acts + [Mark(r, ok)];
    }

    /** The body of the loop, with the actions `acts` since `start` and the entries `appended` to the log. */
    method ServeNext(r: RelayId, batch: seq<Entry>, pub: RowId -> PublishOutcome, mark: RowId -> bool, served: nat,
                     ghost start: State, ghost acts: seq<Action>, ghost appended: seq<Entry>)
      returns (served': nat, more: bool, ghost acts': seq<Action>, ghost appended': seq<Entry>)
      requires r in txs && Progress(batch, pub, mark, txs[r], appended, served, true) && served < |batch|
      requires View() == Run(start, acts)
      modifies this`txs, this`log
      ensures r in txs && Progress(batch, pub, mark, txs[r], appended', served', more)
      ensures View() == Run(start, acts') && txs - {r} == old(txs) - {r}
      ensures appended <= appended' && log == old(log) + appended'[|appended|..]
      ensures served' == served + if more then 1 else 0
    {
      var e := batch[served];
      ProgressOne(batch, pub, mark, txs[r], appended, served);
      ghost var steps, added;
      added := if pub(e.id) == Failed then [] else [e];
      assert appended + [] == appended;
      more, steps := ServeOne(r, pub(e.id), mark(e.id));
      RunSplit(start, acts, steps);
      acts', appended' := acts + steps, appended + added;
      assert appended'[|appended|..] == added;
      served' := if more then served + 1 else served;
    }

    /** The loop over the batch, as the actions `acts` of this relay. The first `served` entries were published and
        marked; the loop stopped at the next one, if any. */
    method ServeBatch(r: RelayId, pub: RowId -> PublishOutcome, mark: RowId -> bool)
      returns (served: nat, ghost acts: seq<Action>)
      requires r in txs && txs[r].pos == 0 && txs[r].marked == {} && !txs[r].aborted
      requires txs[r].phase == if |txs[r].batch| > 0 then ToPublish else ToCommit
      modifies this`txs, this`log
      ensures View() == Run(old(View()), acts)
      ensures r in txs && txs - {r} == old(txs) - {r}
      ensures txs[r].phase == ToCommit && txs[r].batch == old(txs[r].batch)
      ensures var batch := old(txs[r].batch);
              && Stops(batch, pub, mark, served)
              && log == old(log) + batch[..Appended(batch, pub, served)]
              && txs[r].marked == IdSet(batch[..served])
              && txs[r].aborted == MarkFailed(batch, pub, served)
    {
      var batch := txs[r].batch;
      served, acts := 0, [];
      var more := true;
      ghost var appended := [];
      assert batch[..0] == [];
      while served < |batch| && more
        invariant View() == Run(old(View()), acts)
        invariant r in txs && txs - {r} == old(txs) - {r}
        invariant Progress(batch, pub, mark, txs[r], appended, served, more)
        invariant log == old(log) + appended
        decreases |batch| - served, more
      {
        served, more, acts, appended := ServeNext(r, batch, pub, mark, served, old(View()), acts, appended);
      }
    }

    /** One tick of relay `r` is a run of its actions. `pub` and `mark` are the outcomes of the calls for each row. */
    method Drain(r: RelayId, beginOk: bool, got: nat, pub: RowId -> PublishOutcome, mark: RowId -> bool, commitOk: bool)
      returns (sel: seq<RowId>, batch: seq<Entry>, served: nat, ghost acts: seq<Action>)
      requires r !in txs
      modifies this
      ensures View() == Run(old(View()), acts)
      ensures order == old(order) && created == old(created) && trips == old(trips) && txs == old(txs)
      ensures !beginOk ==> rows == old(rows) && log == old(log)
      ensures beginOk ==>
                && IsSelection(old(View()), sel)
                && batch == Read(old(View()), sel, if got <= |sel| then got else |sel|)
                && Stops(batch, pub, mark, served)
                && log == old(log) + batch[..Appended(batch, pub, served)]
                && rows == if commitOk && !MarkFailed(batch, pub, served)
                    then MarkRows(old(rows), IdSet(batch[..served]))
                           else old(rows)
    {
      sel, batch, served, acts := [], [], 0, [];
      if !beginOk {
        return;
      }
      sel := SelectUnlocked();
      var read := if got <= |sel| then got else |sel|;
      acts := [Begin(r, sel, read)];
      RunOne(View(), Begin(r, sel, read));
      BeginRelay(r, sel, read);
      batch := txs[r].batch;
      ghost var steps;
      served, steps := ServeBatch(r, pub, mark);
      RunSplit(old(View()), acts, steps);
      acts := acts + steps;
      RunOne(View(), Commit(r, commitOk));
      RunSplit(old(View()), acts, [Commit(r, commitOk)]);
      CommitRelay(r, commitOk);
      acts := acts + [Commit(r, commitOk)];
    }
  }
}
