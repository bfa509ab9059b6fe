/**
 The row of a trip as the record of what happened to it: which histories there are, which call moves the status, and
 which call wrote each column.
 */
module TripHistory {
  import opened Common
  import opened TripLifecycle

  // ---------------------------------------------------------------- every legal history happens

  /** One successful call for each status of the happy path. */
  function HappyActions(t: TripId, d: Driver): seq<Action> {
    [Create(t, "rider", 0, true), Accept(t, d, true, Acked), Arrive(t, true), Begin(t, true),
     Complete(t, 1, true, true, true, Acked), Pay(t, true)]
  }

  lemma HistorySnoc(acts: seq<Action>, a: Action, t: TripId)
    ensures Run(Initial, acts + [a]) == Apply(Run(Initial, acts), a)
    ensures var h, s := History(acts, t), Apply(Run(Initial, acts), a);
            History(acts + [a], t) ==
              if t !in s.trips || (h != [] && h[|h| - 1] == s.trips[t].status) then h else h + [s.trips[t].status]
  {
    assert (acts + [a])[..|acts|] == acts;
  }

  lemma CallOnPath(s: State, t: TripId, d: Driver, k: nat)
    requires k < 6 && (if k == 0 then t !in s.trips else InStatus(s, t, {HAPPY_PATH[k - 1]}))
    ensures InStatus(Apply(s, HappyActions(t, d)[k]), t, {HAPPY_PATH[k]})
  {
  }

  lemma {:induction false} HappyPathHappens(t: TripId, d: Driver, k: nat)
    requires k <= 6
    ensures var acts := HappyActions(t, d)[..k];
            && History(acts, t) == HAPPY_PATH[..k]
            && (if k == 0 then t !in Run(Initial, acts).trips
                else InStatus(Run(Initial, acts), t, {HAPPY_PATH[k - 1]}))
  {
    if k > 0 {
      var acts := HappyActions(t, d);
      HappyPathHappens(t, d, k - 1);
      CallOnPath(Run(Initial, acts[..k - 1]), t, d, k - 1);
      HistorySnoc(acts[..k - 1], acts[k - 1], t);
      assert acts[..k] == acts[..k - 1] + [acts[k - 1]];
      assert HAPPY_PATH[..k] == HAPPY_PATH[..k - 1] + [HAPPY_PATH[k - 1]];
    }
  }

  lemma CancelHappens(t: TripId, d: Driver, k: nat) returns (acts: seq<Action>)
    requires 1 <= k <= 3
    ensures History(acts, t) == HAPPY_PATH[..k] + [Cancelled]
  {
    var before := HappyActions(t, d)[..k];
    HappyPathHappens(t, d, k);
    HistorySnoc(before, Cancel(t, 1, true), t);
    acts := before + [Cancel(t, 1, true)];
  }

  /** The status histories of a trip are exactly the prefixes of the happy path and its first three non-empty prefixes
      with a cancellation: nothing else happens in any run, and each of these happens in some run. */
  lemma HistoriesAreExact(h: seq<Status>, t: TripId)
    ensures (exists acts :: History(acts, t) == h) <==>
              h <= [Searching, Accepted, DriverArrived, InProgress, Completed, Paid]
              || h == [Searching, Cancelled] || h == [Searching, Accepted, Cancelled]
              || h == [Searching, Accepted, DriverArrived, Cancelled]
  {
    if acts :| History(acts, t) == h {
      HistoryIsLegal(acts, t);
      if !(h <= HAPPY_PATH) { assert |h| == 2 || |h| == 3 || |h| == 4; }
    }
    var d := Driver("", "", "", "");
    if h <= HAPPY_PATH {
      HappyPathHappens(t, d, |h|);
      assert h == HAPPY_PATH[..|h|] && History(HappyActions(t, d)[..|h|], t) == h;
    } else if |h| >= 2 && h[|h| - 1] == Cancelled && |h| <= 4 {
      var acts := CancelHappens(t, d, |h| - 1);
      if h == HAPPY_PATH[..|h| - 1] + [Cancelled] { assert History(acts, t) == h; }
    }
  }

  // ---------------------------------------------------------------- which call moves the status

  /** The call `a` takes trip `t`, whose row is `row`, to status `to`. */
  predicate Moves(a: Action, row: Trip, t: TripId, to: Status) {
    match to
    case Accepted => a.Accept? && a.trip == t && a.dbOk && row.status == Searching
    case DriverArrived => a.Arrive? && a.trip == t && a.dbOk && row.status == Accepted
    case InProgress => a.Begin? && a.trip == t && a.dbOk && row.status == DriverArrived
    case Completed => a.Complete? && a.trip == t && a.dbOk && row.status == InProgress
    case Paid => a.Pay? && a.trip == t && a.dbOk && row.status == Completed
    case Cancelled =>
      || (a.Cancel? && a.trip == t && a.dbOk
          && (row.status == Searching || row.status == Accepted || row.status == DriverArrived))
      || ((a.SearchTimeout? || a.ExpireQuietly?) && a.trip == t && a.dbOk && row.status == Searching)
      || (a.Sweep? && a.dbOk && row.status == Searching && row.createdAt < a.now - a.olderThan)
    case _ => false
  }

  /** The status of a trip changes exactly so; every other call, and every failed one, leaves it. */
  lemma StatusMovesIff(s: State, a: Action, t: TripId, to: Status)
    requires t in s.trips
    ensures t in Apply(s, a).trips
    ensures Apply(s, a).trips[t].status == to != s.trips[t].status <==> Moves(a, s.trips[t], t, to)
  {
    if a.Accept? || a.Arrive? || a.Begin? || a.Complete? || a.Pay? {
      UpdateMovesIff(s, a, t, to);
    }
  }

  /** The calls that go through the table of allowed statuses. */
  lemma UpdateMovesIff(s: State, a: Action, t: TripId, to: Status)
    requires t in s.trips && (a.Accept? || a.Arrive? || a.Begin? || a.Complete? || a.Pay?)
    ensures t in Apply(s, a).trips
    ensures Apply(s, a).trips[t].status == to != s.trips[t].status <==> Moves(a, s.trips[t], t, to)
  {
  }

  // ---------------------------------------------------------------- which call wrote a column

  /** A column of the row of a trip with the value it holds. */
  datatype Mark =
    | CreatedBy(user: string, now: int)
    | AcceptedBy(driver: Driver)
    | CompletedOn(now: int)
    | CancelledOn(now: int)

  predicate Holds(s: State, t: TripId, m: Mark) {
    && t in s.trips
    && match m
       case CreatedBy(user, now) => s.trips[t].userId == user && s.trips[t].createdAt == now
       case AcceptedBy(d) => s.trips[t].driver == Some(d)
       case CompletedOn(now) => s.trips[t].completedAt == Some(now)
       case CancelledOn(now) => s.trips[t].cancelledAt == Some(now) && s.trips[t].cancelledByRider
  }

  /** The call that writes it: a first insert, the accept of a searching trip, the completion of one in progress, the
      rider's cancel of one that has not started; each only if its statement succeeds. */
  predicate Writes(s: State, a: Action, t: TripId, m: Mark) {
    match m
    case CreatedBy(user, now) => a == Create(t, user, now, true) && t !in s.trips
    case AcceptedBy(d) => a.Accept? && a.trip == t && a.driver == d && a.dbOk && InStatus(s, t, {Searching})
    case CompletedOn(now) => a.Complete? && a.trip == t && a.now == now && a.dbOk && InStatus(s, t, {InProgress})
    case CancelledOn(now) => a == Cancel(t, now, true) && InStatus(s, t, {Searching, Accepted, DriverArrived})
  }

  ghost predicate WritesAt(acts: seq<Action>, i: nat, t: TripId, m: Mark)
    requires i < |acts|
  {
    Writes(Run(Initial, acts[..i]), acts[i], t, m)
  }

  ghost predicate Written(acts: seq<Action>, t: TripId, m: Mark) {
    exists i | 0 <= i < |acts| :: WritesAt(acts, i, t, m)
  }

  /** A cancellation time is only ever written by the rider's cancel, and only once. */
  ghost predicate CancelSound(row: Trip) {
    && (row.cancelledAt.Some? <==> row.cancelledByRider)
    && (row.cancelledAt.Some? ==> row.status == Cancelled)
  }

  lemma CancelSoundStep(s: State, a: Action, t: TripId)
    requires t in Apply(s, a).trips && (t in s.trips ==> CancelSound(s.trips[t]))
    ensures CancelSound(Apply(s, a).trips[t])
  {
  }

  lemma {:induction false} CancelSoundRun(acts: seq<Action>, t: TripId)
    requires t in Run(Initial, acts).trips
    ensures CancelSound(Run(Initial, acts).trips[t])
  {
    if acts != [] {
      var before := acts[..|acts| - 1];
      if t in Run(Initial, before).trips { CancelSoundRun(before, t); }
      CancelSoundStep(Run(Initial, before), acts[|acts| - 1], t);
    }
  }

  lemma WritesStep(s: State, a: Action, t: TripId, m: Mark)
    requires t in s.trips ==> RowSound(s.trips[t]) && CancelSound(s.trips[t])
    ensures Holds(Apply(s, a), t, m) <==> Holds(s, t, m) || Writes(s, a, t, m)
  {
    if t in s.trips {
      StepOnRow(s, a, t);
      if !(a.Accept? || a.Complete? || a.Cancel?) { OthersWriteNothing(s, a, t, m); }
    } else if t in Apply(s, a).trips {
      NewRow(s, a, t);
    }
  }

  lemma OthersWriteNothing(s: State, a: Action, t: TripId, m: Mark)
    requires t in s.trips && !a.Accept? && !a.Complete? && !a.Cancel?
    ensures Holds(Apply(s, a), t, m) <==> Holds(s, t, m)
  {
  }

  lemma {:induction false} WrittenPrefix(acts: seq<Action>, t: TripId, m: Mark)
    requires acts != []
    ensures var n := |acts| - 1;
            Written(acts, t, m) <==> Written(acts[..n], t, m) || Writes(Run(Initial, acts[..n]), acts[n], t, m)
  {
    var n := |acts| - 1;
    forall i | 0 <= i < n ensures WritesAt(acts[..n], i, t, m) <==> WritesAt(acts, i, t, m) {
      assert acts[..n][..i] == acts[..i];
    }
    assert WritesAt(acts, n, t, m) <==> Writes(Run(Initial, acts[..n]), acts[n], t, m);
  }

  /** Over all runs: the row holds a rider and a creation time, a driver, a completion time, or a cancellation time,
      exactly if the call that writes it happened; no failed, refused or repeated call leaves a trace. */
  lemma {:induction false} ColumnsAreHistory(acts: seq<Action>, t: TripId, m: Mark)
    ensures Holds(Run(Initial, acts), t, m) <==> Written(acts, t, m)
  {
    if acts != [] {
      var before := acts[..|acts| - 1];
      ColumnsAreHistory(before, t, m);
      SoundRun(before);
      if t in Run(Initial, before).trips { CancelSoundRun(before, t); }
      WritesStep(Run(Initial, before), acts[|acts| - 1], t, m);
      WrittenPrefix(acts, t, m);
    }
  }

  // ---------------------------------------------------------------- the rating

  /** A rating counts from 1 to 5, by the rider of the trip, after its completion. */
  predicate Rates(s: State, a: Action, t: TripId) {
    && a.Rate? && a.trip == t && a.dbOk
    && (a.rating == 1 || a.rating == 2 || a.rating == 3 || a.rating == 4 || a.rating == 5)
    && t in s.trips && s.trips[t].userId == a.user
    && (s.trips[t].status == Completed || s.trips[t].status == Paid)
  }

  function LastRating(acts: seq<Action>, t: TripId): Option<int> {
    if acts == [] then None
    else
      var before, a := acts[..|acts| - 1], acts[|acts| - 1];
      if Rates(Run(Initial, before), a, t) then Some(a.rating) else LastRating(before, t)
  }

  /** The stored rating is the last one that counted. */
  lemma {:induction false} RatingIsLast(acts: seq<Action>, t: TripId)
    ensures var s := Run(Initial, acts); t in s.trips ==> s.trips[t].rating == LastRating(acts, t)
    ensures t !in Run(Initial, acts).trips ==> LastRating(acts, t) == None
  {
    if acts != [] {
      RatingIsLast(acts[..|acts| - 1], t);
      RatingStep(Run(Initial, acts[..|acts| - 1]), acts[|acts| - 1], t);
    }
  }

  lemma RatingStep(s: State, a: Action, t: TripId)
    ensures var s' := Apply(s, a);
            && (t in s.trips ==>
                  t in s'.trips && s'.trips[t].rating == if Rates(s, a, t) then Some(a.rating) else s.trips[t].rating)
            && (t !in s.trips && t in s'.trips ==> s'.trips[t].rating == None)
  {
  }
}
