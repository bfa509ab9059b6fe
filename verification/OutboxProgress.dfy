/**
 The outbox is drained: an undisturbed tick of one relay publishes the hundred oldest unpublished rows, or all of
 them, so a backlog of n rows is gone after n / 100 ticks, rounded up. The periodic delete removes exactly the expired
 rows that were published.
 */
module OutboxProgress {
  import opened Common
  import opened Outbox
  import opened OutboxRelay

  /** The unpublished rows. */
  function Backlog(s: State): set<RowId> {
    set id | id in s.rows && !s.rows[id].published
  }

  function Members(ids: seq<RowId>): set<RowId> {
    set id | id in ids
  }

  lemma {:induction false} AscendingSize(ids: seq<RowId>)
    requires Ascending(ids)
    ensures |Members(ids)| == |ids|
  {
    if ids != [] {
      var front, last := ids[..|ids| - 1], ids[|ids| - 1];
      AscendingSize(front);
      assert Members(ids) == Members(front) + {last};
      assert last !in front;
    }
  }

  /** While no transaction is open, a selection is the whole backlog, or its hundred lowest ids. */
  lemma SelectionSize(s: State, sel: seq<RowId>)
    requires s.txs == map[] && IsSelection(s, sel)
    ensures |sel| == (if |Backlog(s)| <= 100 then |Backlog(s)| else 100) && Members(sel) <= Backlog(s)
    ensures forall id, k | id in Backlog(s) && id !in sel && 0 <= k < |sel| :: sel[k] < id
  {
    AscendingSize(sel);
    assert forall id :: id in Backlog(s) <==> id in s.rows && Free(s, id);
    assert forall id | id in sel :: Free(s, id);
    SubsetSize(Members(sel), Backlog(s));
    if |sel| < 100 {
      assert Members(sel) == Backlog(s);
    }
  }

  // ---------------------------------------------------------------- one undisturbed tick

  /** Publish and mark the first `n` entries. */
  function Serve(r: RelayId, n: nat): seq<Action> {
    if n == 0 then [] else Serve(r, n - 1) + [Publish(r, Acked), Mark(r, true)]
  }

  function Tick(r: RelayId, sel: seq<RowId>): seq<Action> {
    [Begin(r, sel, |sel|)] + Serve(r, |sel|) + [Commit(r, true)]
  }

  /** Steps of the relays only. */
  predicate RelaySteps(acts: seq<Action>) {
    forall i | 0 <= i < |acts| :: !acts[i].CreateTrip? && !acts[i].Insert?
  }

  lemma {:induction false} ServeIsRelaySteps(r: RelayId, n: nat)
    ensures RelaySteps(Serve(r, n))
  {
    if n > 0 { ServeIsRelaySteps(r, n - 1); }
  }

  /** The transaction after its first `n` rows. */
  function Serving(s: State, sel: seq<RowId>, n: nat): Tx
    requires n <= |sel| && forall id | id in sel :: id in s.rows
  {
    Tx(sel, Read(s, sel, |sel|), n, Members(sel[..n]), if n < |sel| then ToPublish else ToCommit, false)
  }

  lemma RunTwo(s: State, a: Action, b: Action)
    ensures Run(s, [a, b]) == Apply(Apply(s, a), b)
  {
    assert [a, b] == [a] + [b];
    RunSplit(s, [a], [b]);
    RunOne(s, a);
    RunOne(Apply(s, a), b);
  }

  /** The state in which the first `n` rows are served. */
  function Served(s: State, r: RelayId, sel: seq<RowId>, n: nat): State
    requires n <= |sel| && forall id | id in sel :: id in s.rows
  {
    s.(log := s.log + Read(s, sel, |sel|)[..n], txs := s.txs[r := Serving(s, sel, n)])
  }

  lemma PublishRow(s: State, r: RelayId)
    requires r in s.txs && s.txs[r].phase == ToPublish && s.txs[r].pos < |s.txs[r].batch|
    ensures var tx := s.txs[r];
            Apply(s, Publish(r, Acked)) ==
              s.(log := s.log + [tx.batch[tx.pos]], txs := s.txs[r := tx.(phase := ToMark)])
  {
  }

  lemma MarkRow(s: State, r: RelayId)
    requires r in s.txs && s.txs[r].phase == ToMark && s.txs[r].pos < |s.txs[r].batch|
    ensures var tx := s.txs[r];
            Apply(s, Mark(r, true)) ==
              s.(txs := s.txs[r := tx.(marked := tx.marked + {tx.batch[tx.pos].id}, pos := tx.pos + 1,
                                       phase := if tx.pos + 1 < |tx.batch| then ToPublish else ToCommit)])
  {
  }

  /** The next row is published but not yet marked. */
  function Sent(s: State, r: RelayId, sel: seq<RowId>, n: nat): State
    requires n < |sel| && forall id | id in sel :: id in s.rows
  {
    s.(log := s.log + Read(s, sel, |sel|)[..n + 1], txs := s.txs[r := Serving(s, sel, n).(phase := ToMark)])
  }

  lemma PublishNext(s: State, r: RelayId, sel: seq<RowId>, n: nat)
    requires n < |sel| && forall id | id in sel :: id in s.rows
    ensures Apply(Served(s, r, sel, n), Publish(r, Acked)) == Sent(s, r, sel, n)
  {
    PublishRow(Served(s, r, sel, n), r);
    var batch := Read(s, sel, |sel|);
    assert batch[..n] + [batch[n]] == batch[..n + 1];
    assert s.log + batch[..n] + [batch[n]] == s.log + (batch[..n] + [batch[n]]);
  }

  lemma MarkNext(s: State, r: RelayId, sel: seq<RowId>, n: nat)
    requires n < |sel| && forall id | id in sel :: id in s.rows
    ensures Apply(Sent(s, r, sel, n), Mark(r, true)) == Served(s, r, sel, n + 1)
  {
    MarkRow(Sent(s, r, sel, n), r);
    NextRow(s, sel, n + 1);
  }

  lemma ServeRow(s: State, r: RelayId, sel: seq<RowId>, n: nat)
    requires n < |sel| && forall id | id in sel :: id in s.rows
    ensures Run(Served(s, r, sel, n), [Publish(r, Acked), Mark(r, true)]) == Served(s, r, sel, n + 1)
  {
    RunTwo(Served(s, r, sel, n), Publish(r, Acked), Mark(r, true));
    PublishNext(s, r, sel, n);
    MarkNext(s, r, sel, n);
  }

  lemma BeginServed(s: State, r: RelayId, sel: seq<RowId>)
    requires r !in s.txs && IsSelection(s, sel)
    ensures Apply(s, Begin(r, sel, |sel|)) == Served(s, r, sel, 0)
  {
    assert s.log + Read(s, sel, |sel|)[..0] == s.log && Members(sel[..0]) == {};
  }

  lemma {:induction false} ServeRows(s: State, r: RelayId, sel: seq<RowId>, n: nat)
    requires r !in s.txs && IsSelection(s, sel) && n <= |sel|
    ensures Run(s, [Begin(r, sel, |sel|)] + Serve(r, n)) == Served(s, r, sel, n)
  {
    var begin := [Begin(r, sel, |sel|)];
    if n == 0 {
      assert begin + Serve(r, 0) == begin;
      RunOne(s, Begin(r, sel, |sel|));
      BeginServed(s, r, sel);
    } else {
      ServeRows(s, r, sel, n - 1);
      var served, row := begin + Serve(r, n - 1), [Publish(r, Acked), Mark(r, true)];
      RunSplit(s, served, row);
      ServeRow(s, r, sel, n - 1);
      assert begin + (Serve(r, n - 1) + row) == served + row;
    }
  }

  lemma NextRow(s: State, sel: seq<RowId>, n: nat)
    requires 0 < n <= |sel| && forall id | id in sel :: id in s.rows
    ensures var batch := Read(s, sel, |sel|);
            && batch[..n - 1] + [batch[n - 1]] == batch[..n]
            && Members(sel[..n]) == Members(sel[..n - 1]) + {batch[n - 1].id}
  {
    assert sel[..n] == sel[..n - 1] + [sel[n - 1]];
  }

  /** An undisturbed tick appends its selection to the log in id order and marks exactly these rows published. */
  lemma TickPublishes(s: State, r: RelayId, sel: seq<RowId>)
    requires r !in s.txs && IsSelection(s, sel)
    ensures Run(s, Tick(r, sel)) ==
            s.(log := s.log + Read(s, sel, |sel|), rows := MarkRows(s.rows, Members(sel)))
  {
    ServeRows(s, r, sel, |sel|);
    RunSplit(s, [Begin(r, sel, |sel|)] + Serve(r, |sel|), [Commit(r, true)]);
    RunOne(Served(s, r, sel, |sel|), Commit(r, true));
    CommitServed(s, r, sel);
  }

  lemma CommitServed(s: State, r: RelayId, sel: seq<RowId>)
    requires r !in s.txs && forall id | id in sel :: id in s.rows
    ensures Apply(Served(s, r, sel, |sel|), Commit(r, true)) ==
            s.(log := s.log + Read(s, sel, |sel|), rows := MarkRows(s.rows, Members(sel)))
  {
    assert sel[..|sel|] == sel && Read(s, sel, |sel|)[..|sel|] == Read(s, sel, |sel|);
    assert s.txs[r := Serving(s, sel, |sel|)] - {r} == s.txs;
  }

  lemma TickShrinks(s: State, r: RelayId, sel: seq<RowId>)
    requires s.txs == map[] && IsSelection(s, sel)
    ensures var s' := Run(s, Tick(r, sel));
            && s'.txs == map[] && s'.created == s.created && s'.trips == s.trips
            && Backlog(s') == Backlog(s) - Members(sel)
            && |Backlog(s')| == if |Backlog(s)| <= 100 then 0 else |Backlog(s)| - 100
  {
    TickPublishes(s, r, sel);
    SelectionSize(s, sel);
    AscendingSize(sel);
    assert Backlog(Run(s, Tick(r, sel))) == Backlog(s) - Members(sel);
  }

  // ---------------------------------------------------------------- the whole backlog

  /** The lowest ids of a set in order, at most `limit` of them. */
  lemma {:induction false} LowestOf(ids: set<RowId>, limit: nat) returns (sel: seq<RowId>)
    ensures Ascending(sel) && |sel| <= limit && Members(sel) <= ids
    ensures forall id | id in ids && id !in sel :: |sel| == limit && forall k | 0 <= k < |sel| :: sel[k] < id
    decreases limit
  {
    if ids == {} || limit == 0 {
      sel := [];
    } else {
      var m := LeastExists(ids);
      var rest := LowestOf(ids - {m}, limit - 1);
      sel := [m] + rest;
      forall i | 0 <= i < |rest| ensures m < rest[i] {
        assert rest[i] in Members(rest);
      }
      assert Members(sel) == Members(rest) + {m};
      forall id | id in ids && id !in sel
        ensures |sel| == limit && forall k | 0 <= k < |sel| :: sel[k] < id
      {
        assert id in ids - {m} && id !in rest;
      }
    }
  }

  lemma SomeSelection(s: State) returns (sel: seq<RowId>)
    requires s.txs == map[]
    ensures IsSelection(s, sel)
  {
    sel := LowestOf(Backlog(s), 100);
    forall id | id in sel ensures Free(s, id) {
      assert id in Members(sel);
    }
    forall id | id in s.rows && Free(s, id) && id !in sel
      ensures |sel| == BATCH_LIMIT && forall k | 0 <= k < |sel| :: sel[k] < id
    {
      assert id in Backlog(s);
    }
  }

  /** From any state without an open transaction, `k` undisturbed ticks take 100 k rows off the backlog, or all of
      it. */
  lemma {:induction false} TicksDrain(s: State, r: RelayId, k: nat) returns (acts: seq<Action>)
    requires s.txs == map[]
    ensures var s' := Run(s, acts);
            && s'.txs == map[] && s'.created == s.created && s'.trips == s.trips
            && |Backlog(s')| == if |Backlog(s)| <= 100 * k then 0 else |Backlog(s)| - 100 * k
    ensures RelaySteps(acts)
  {
    if k == 0 {
      acts := [];
    } else {
      var before := TicksDrain(s, r, k - 1);
      var sel := SomeSelection(Run(s, before));
      TickShrinks(Run(s, before), r, sel);
      RunSplit(s, before, Tick(r, sel));
      ServeIsRelaySteps(r, |sel|);
      acts := before + Tick(r, sel);
    }
  }

  /** Whatever transactions are open, their relays may crash. */
  lemma {:induction false} CrashAll(s: State) returns (acts: seq<Action>)
    ensures Run(s, acts) == s.(txs := map[]) && RelaySteps(acts)
    decreases |s.txs|
  {
    if s.txs == map[] {
      acts := [];
    } else {
      var r :| r in s.txs;
      assert (s.txs - {r}).Keys == s.txs.Keys - {r};
      assert |(s.txs - {r}).Keys| == |s.txs - {r}| && |s.txs.Keys| == |s.txs|;
      RunOne(s, Crash(r));
      acts := CrashAll(s.(txs := s.txs - {r}));
      RunSplit(s, [Crash(r)], acts);
      acts := [Crash(r)] + acts;
    }
  }

  lemma {:induction false} InvOver(s: State, acts: seq<Action>)
    requires Inv(s)
    ensures Inv(Run(s, acts))
  {
    if acts != [] {
      InvOver(s, acts[..|acts| - 1]);
      InvStep(Run(s, acts[..|acts| - 1]), acts[|acts| - 1]);
    }
  }

  /** Even if every relay crashes where it is, enough ticks then deliver every row ever committed: the broker holds the
      record, with its topic and payload, of each of them. */
  lemma AllDelivered(s: State, r: RelayId) returns (more: seq<Action>)
    requires Inv(s)
    ensures RelaySteps(more)
    ensures var s' := Run(s, more);
            && s'.trips == s.trips && s'.created == s.created && Backlog(s') == {} && s'.txs == map[]
            && forall id | id in s.created :: Delivered(s', id)
  {
    var crashes := CrashAll(s);
    var ticks := TicksDrain(s.(txs := map[]), r, |Backlog(s)|);
    more := crashes + ticks;
    RunSplit(s, crashes, ticks);
    InvOver(s, more);
    var s' := Run(s, more);
    assert |Backlog(s)| <= 100 * |Backlog(s)|;
    forall id | id in s.created ensures Delivered(s', id) {
      assert id !in Backlog(s');
    }
  }

  /** No reachable state is stuck: some further steps deliver the created-message of every trip. */
  lemma EveryTripIsAnnounced(acts: seq<Action>, r: RelayId) returns (more: seq<Action>)
    ensures var s, s' := Run(Initial, acts), Run(Initial, acts + more);
            && s'.trips == s.trips && s'.created == s.created && Backlog(s') == {}
            && forall t | t in s.trips :: s.trips[t] in s.created && Delivered(s', s.trips[t])
  {
    InvRun(acts);
    more := AllDelivered(Run(Initial, acts), r);
    RunSplit(Initial, acts, more);
  }

  /** A committed trip adds one unpublished row with its message, known as the row of the trip, and nothing else; a trip
      that exists adds nothing. */
  lemma CreatedIsBacklog(s: State, t: TripId, id: RowId, msg: Message)
    requires id !in s.created && id !in s.rows
    ensures var s' := Apply(s, CreateTrip(t, id, msg));
            if t in s.trips then s' == s
            else
              && t in s'.trips && s'.trips[t] == id && id in s'.created && s'.created[id] == msg
              && Backlog(s') == Backlog(s) + {id} && id in s'.rows && s'.rows[id].msg == msg
              && |s'.order| == |s.order| + 1 && s'.order[|s.order|] == id && s'.log == s.log && s'.txs == s.txs
              && (forall x | x != id :: x in s'.rows <==> x in s.rows)
              && (forall x | x in s.rows :: s'.rows[x] == s.rows[x])
  {
  }

  // ---------------------------------------------------------------- the periodic delete

  /** The delete removes exactly the rows it is given, if all of them are published, and otherwise nothing; the log, the
      open transactions and the memory of what was created stay. */
  lemma CleanupIsExact(s: State, ids: set<RowId>, id: RowId)
    requires forall x | x in ids :: x in s.rows && s.rows[x].published
    ensures var s' := Apply(s, Cleanup(ids));
            && (id in s'.rows <==> id in s.rows && id !in ids)
            && (id in s'.rows ==> s'.rows[id] == s.rows[id])
            && Backlog(s') == Backlog(s) && s' == s.(rows := s'.rows)
  {
  }
}
