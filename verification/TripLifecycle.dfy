/**
 The life of a trip: conditional UPDATEs on its row, raced by accepts, the search timeout, the stale sweep and
 cancels. Every handler call is one step; its database call and its publish may fail.
 */
module TripLifecycle {
  import opened Common

  type TripId = string

  /** The statuses of the program; `Other` is any string it does not know. */
  datatype Status =
    | Searching | Accepted | DriverArrived | InProgress | Completed | Paid | Cancelled
    | Other(name: string)

  datatype Driver = Driver(id: string, name: string, plate: string, avatar: string)

  datatype Trip = Trip(
    userId: string,
    status: Status,
    driver: Option<Driver>,
    createdAt: int,
    completedAt: Option<int>,
    cancelledAt: Option<int>,
    cancelledByRider: bool,
    rating: Option<int>)

  datatype OutboxMessage = TripCreated(trip: TripId) | NoDriversFound(trip: TripId) | TripCancelled(trip: TripId)

  datatype Assigned = Assigned(trip: TripId, driver: Driver)

  /** `announced` and `payments` are what the broker holds of driver_assigned and of payment requests. */
  datatype State = State(trips: map<TripId, Trip>, outbox: seq<OutboxMessage>, announced: seq<Assigned>,
      payments: seq<TripId>)

  datatype Action =
    | Create(trip: TripId, user: string, now: int, dbOk: bool)
    | Accept(trip: TripId, driver: Driver, dbOk: bool, pub: PublishOutcome)
    | Arrive(trip: TripId, dbOk: bool)
    | Begin(trip: TripId, dbOk: bool)
    | Complete(trip: TripId, now: int, dbOk: bool, readOk: bool, hasFare: bool, pub: PublishOutcome)
    | Pay(trip: TripId, dbOk: bool)
    | Cancel(trip: TripId, now: int, dbOk: bool)
    | SearchTimeout(trip: TripId, dbOk: bool)
    | ExpireQuietly(trip: TripId, dbOk: bool)
    | Sweep(now: int, olderThan: int, dbOk: bool)
    | Rate(trip: TripId, user: string, rating: int, dbOk: bool)

  const Initial: State := State(map[], [], [], [])

  // ---------------------------------------------------------------- the conditional updates

  /** The statuses a trip may come from; a status without an entry is rejected as unknown. */
  function AllowedFrom(to: Status): Option<set<Status>> {
    match to
    case Accepted => Some({Searching})
    case DriverArrived => Some({Accepted})
    case InProgress => Some({DriverArrived})
    case Completed => Some({InProgress})
    case Paid => Some({Completed})
    case Cancelled => Some(CancellableStates())
    case _ => None
  }

  function CancellableStates(): set<Status> {
    {Searching, Accepted, DriverArrived}
  }

  function Updated(row: Trip, to: Status, driver: Option<Driver>, now: int): Trip {
    match to
    case Completed => row.(status := to, completedAt := Some(now))
    case Cancelled => row.(status := to, cancelledAt := Some(now))
    case _ => if driver.Some? then row.(status := to, driver := driver) else row.(status := to)
  }

  predicate InStatus(s: State, t: TripId, from: set<Status>) {
    t in s.trips && s.trips[t].status in from
  }

  /** UPDATE trips SET status = to ... WHERE id = t AND status = ANY(from); false when no row is affected or the call
      fails. */
  function UpdateTrip(s: State, t: TripId, to: Status, driver: Option<Driver>, now: int, dbOk: bool): (State, bool) {
    var from := AllowedFrom(to);
    if from.None? || !dbOk || !InStatus(s, t, from.value) then (s, false)
    else (s.(trips := s.trips[t := Updated(s.trips[t], to, driver, now)]), true)
  }

  function CancelTrip(s: State, t: TripId, now: int, dbOk: bool): (State, bool) {
    if !dbOk || !InStatus(s, t, CancellableStates()) then (s, false)
    else (s.(trips := s.trips[t := s.trips[t].(status := Cancelled, cancelledAt := Some(now),
        cancelledByRider := true)]), true)
  }

  function ExpireSearch(s: State, t: TripId, dbOk: bool): (State, bool) {
    if !dbOk || !InStatus(s, t, {Searching}) then (s, false)
    else (s.(trips := s.trips[t := s.trips[t].(status := Cancelled)]), true)
  }

  function ExpireSearchWithOutbox(s: State, t: TripId, msgs: seq<OutboxMessage>, dbOk: bool): (State, bool) {
    var (s', won) := ExpireSearch(s, t, dbOk);
    (if won then s'.(outbox := s.outbox + msgs) else s, won)
  }

  function SearchTimeoutMessages(t: TripId): seq<OutboxMessage> {
    [NoDriversFound(t), TripCancelled(t)]
  }

  predicate Stale(row: Trip, now: int, olderThan: int) {
    row.status == Searching && row.createdAt < now - olderThan
  }

  function ExpireStaleSearching(s: State, now: int, olderThan: int, dbOk: bool): State {
    if !dbOk then s
    else s.(trips := map t | t in s.trips :: if Stale(s.trips[t], now, olderThan) then s.trips[t].(status := Cancelled)
        else s.trips[t])
  }

  function RateTrip(s: State, t: TripId, user: string, rating: int, dbOk: bool): (State, bool) {
    if rating < 1 || rating > 5 || !dbOk || !InStatus(s, t, {Completed, Paid}) || s.trips[t].userId != user
        then (s, false)
    else (s.(trips := s.trips[t := s.trips[t].(rating := Some(rating))]), true)
  }

  function CreateTripWithOutbox(s: State, t: TripId, user: string, now: int, dbOk: bool): (State, bool) {
    if !dbOk || t in s.trips then (s, false)
    else (s.(trips := s.trips[t := Trip(user, Searching, None, now, None, None, false, None)],
        outbox := s.outbox + [TripCreated(t)]), true)
  }

  // ---------------------------------------------------------------- the handlers

  /** An accept is announced only after its own UPDATE succeeded. */
  function HandleTripAccepted(s: State, t: TripId, d: Driver, dbOk: bool, pub: PublishOutcome): State {
    var (s', won) := UpdateTrip(s, t, Accepted, Some(d), 0, dbOk);
    if won && pub != Failed then s'.(announced := s.announced + [Assigned(t, d)]) else s'
  }

  /** A failed transition is only logged: if the row can then be read, payment is requested whatever its status. */
  function HandleTripCompleted(s: State, t: TripId, now: int, dbOk: bool, readOk: bool, hasFare: bool,
      pub: PublishOutcome): State {
    var (s', _) := UpdateTrip(s, t, Completed, None, now, dbOk);
    if readOk && t in s'.trips && hasFare && pub != Failed then s'.(payments := s.payments + [t]) else s'
  }

  function Apply(s: State, a: Action): State {
    match a
    case Create(t, user, now, dbOk) => CreateTripWithOutbox(s, t, user, now, dbOk).0
    case Accept(t, d, dbOk, pub) => HandleTripAccepted(s, t, d, dbOk, pub)
    case Arrive(t, dbOk) => UpdateTrip(s, t, DriverArrived, None, 0, dbOk).0
    case Begin(t, dbOk) => UpdateTrip(s, t, InProgress, None, 0, dbOk).0
    case Complete(t, now, dbOk, readOk, hasFare, pub) => HandleTripCompleted(s, t, now, dbOk, readOk, hasFare, pub)
    case Pay(t, dbOk) => UpdateTrip(s, t, Paid, None, 0, dbOk).0
    case Cancel(t, now, dbOk) => CancelTrip(s, t, now, dbOk).0
    case SearchTimeout(t, dbOk) => ExpireSearchWithOutbox(s, t, SearchTimeoutMessages(t), dbOk).0
    case ExpireQuietly(t, dbOk) => ExpireSearch(s, t, dbOk).0
    case Sweep(now, olderThan, dbOk) => ExpireStaleSearching(s, now, olderThan, dbOk)
    case Rate(t, user, rating, dbOk) => RateTrip(s, t, user, rating, dbOk).0
  }

  function Run(s: State, acts: seq<Action>): State {
    if acts == [] then s else Apply(Run(s, acts[..|acts| - 1]), acts[|acts| - 1])
  }

  // ---------------------------------------------------------------- one step on one row

  /** The arrows of the state diagram. */
  predicate Edge(from: Status, to: Status) {
    match to
    case Accepted => from == Searching
    case DriverArrived => from == Accepted
    case InProgress => from == DriverArrived
    case Completed => from == InProgress
    case Paid => from == Completed
    case Cancelled => from == Searching || from == Accepted || from == DriverArrived
    case _ => false
  }

  /** An update succeeds exactly along an arrow of the diagram, whatever the table of allowed statuses looks like; it
      then writes the status, the time of a completion or cancellation, and the driver it is given otherwise, and no
      other column, row or message. */
  lemma UpdateTripIff(s: State, t: TripId, to: Status, driver: Option<Driver>, now: int, dbOk: bool)
    ensures var (s', ok) := UpdateTrip(s, t, to, driver, now, dbOk);
            && (ok <==> dbOk && t in s.trips && Edge(s.trips[t].status, to))
            && (!ok ==> s' == s)
            && (ok ==>
                  var row, row' := s.trips[t], s'.trips[t];
                  && row'.status == to
                  && row'.completedAt == (if to == Completed then Some(now) else row.completedAt)
                  && row'.cancelledAt == (if to == Cancelled then Some(now) else row.cancelledAt)
                  && row'.driver ==
                     (if driver.Some? && to != Completed && to != Cancelled then driver else row.driver)
                  && row'.userId == row.userId && row'.createdAt == row.createdAt && row'.rating == row.rating
                  && row'.cancelledByRider == row.cancelledByRider
                  && s' == s.(trips := s.trips[t := row']))
  {
  }

  ghost predicate RowSound(row: Trip) {
    && !row.status.Other?
    && (row.status == Searching ==> row.driver == None)
    && (row.status in {Accepted, DriverArrived, InProgress, Completed, Paid} ==> row.driver.Some?)
    && (row.completedAt.Some? <==> row.status in {Completed, Paid})
    && (row.rating.Some? ==> row.status in {Completed, Paid} && 1 <= row.rating.value <= 5)
  }

  /** What a step may do to a row: the status moves along an arrow or not at all, the driver is written exactly when a
      search is accepted, by that accept, and the completion time exactly when the trip completes. */
  ghost predicate RowStep(row: Trip, row': Trip, t: TripId, a: Action) {
    && (row'.status == row.status || Edge(row.status, row'.status))
    && row'.userId == row.userId && row'.createdAt == row.createdAt
    && (if row.status == Searching && row'.status == Accepted then a.Accept? && a.trip == t
        && row'.driver == Some(a.driver)
        else row'.driver == row.driver)
    && (if row.status == InProgress
        && row'.status == Completed then row'.completedAt.Some? else row'.completedAt == row.completedAt)
    && (row'.rating == row.rating || (row.status in {Completed, Paid} && row'.status == row.status))
  }

  /** A handler that is one UpdateTrip, seen from row `t`. */
  lemma ProgressOnRow(s: State, a: Action, t: TripId)
    requires t in s.trips && RowSound(s.trips[t]) && (a.Arrive? || a.Begin? || a.Pay?)
    ensures t in Apply(s, a).trips && RowStep(s.trips[t], Apply(s, a).trips[t], t, a) && RowSound(Apply(s, a).trips[t])
  {
  }

  /** The two handlers that also publish. */
  lemma PublishingOnRow(s: State, a: Action, t: TripId)
    requires t in s.trips && RowSound(s.trips[t]) && (a.Accept? || a.Complete?)
    ensures t in Apply(s, a).trips && RowStep(s.trips[t], Apply(s, a).trips[t], t, a) && RowSound(Apply(s, a).trips[t])
  {
  }

  lemma EndOnRow(s: State, a: Action, t: TripId)
    requires t in s.trips && RowSound(s.trips[t]) && (a.Cancel? || a.SearchTimeout? || a.ExpireQuietly? || a.Sweep?)
    ensures t in Apply(s, a).trips && RowStep(s.trips[t], Apply(s, a).trips[t], t, a) && RowSound(Apply(s, a).trips[t])
  {
  }

  lemma StepOnRow(s: State, a: Action, t: TripId)
    requires t in s.trips && RowSound(s.trips[t])
    ensures t in Apply(s, a).trips && RowStep(s.trips[t], Apply(s, a).trips[t], t, a) && RowSound(Apply(s, a).trips[t])
  {
    if a.Accept? || a.Complete? {
      PublishingOnRow(s, a, t);
    } else if a.Arrive? || a.Begin? || a.Pay? {
      ProgressOnRow(s, a, t);
    } else if a.Cancel? || a.SearchTimeout? || a.ExpireQuietly? || a.Sweep? {
      EndOnRow(s, a, t);
    }
  }

  lemma NewRow(s: State, a: Action, t: TripId)
    requires t !in s.trips && t in Apply(s, a).trips
    ensures a.Create? && a.trip == t && Apply(s, a).trips[t].status == Searching && RowSound(Apply(s, a).trips[t])
  {
  }

  ghost predicate Sound(s: State) {
    forall t | t in s.trips :: RowSound(s.trips[t])
  }

  lemma {:induction false} SoundRun(acts: seq<Action>)
    ensures Sound(Run(Initial, acts))
  {
    if acts != [] {
      var before, a := acts[..|acts| - 1], acts[|acts| - 1];
      SoundRun(before);
      var s := Run(Initial, before);
      forall t | t in Apply(s, a).trips ensures RowSound(Apply(s, a).trips[t]) {
        if t in s.trips { StepOnRow(s, a, t); } else { NewRow(s, a, t); }
      }
    }
  }

  // ---------------------------------------------------------------- the history of one trip

  const HAPPY_PATH: seq<Status> := [Searching, Accepted, DriverArrived, InProgress, Completed, Paid]

  /** The statuses the row of `t` has had, in order, without repetitions. */
  function History(acts: seq<Action>, t: TripId): seq<Status> {
    if acts == [] then []
    else
      var h, s := History(acts[..|acts| - 1], t), Run(Initial, acts);
      if t !in s.trips || (h != [] && h[|h| - 1] == s.trips[t].status) then h else h + [s.trips[t].status]
  }

  /** A prefix of the happy path, or one of its first three non-empty prefixes followed by a cancellation. */
  ghost predicate LegalHistory(h: seq<Status>) {
    h <= HAPPY_PATH || (2 <= |h| <= 4 && h == HAPPY_PATH[..|h| - 1] + [Cancelled])
  }

  lemma ExtendHistory(h: seq<Status>, to: Status)
    requires LegalHistory(h) && h != [] && Edge(h[|h| - 1], to)
    ensures LegalHistory(h + [to])
  {
    if h <= HAPPY_PATH {
      assert h == HAPPY_PATH[..|h|];
      assert |h| == 1 || |h| == 2 || |h| == 3 || |h| == 4 || |h| == 5 || |h| == 6;
    }
  }

  lemma {:induction false} HistoryRun(acts: seq<Action>, t: TripId)
    ensures var h, s := History(acts, t), Run(Initial, acts);
            LegalHistory(h) && (h == [] <==> t !in s.trips) && (h != [] ==> h[|h| - 1] == s.trips[t].status)
  {
    if acts != [] {
      var before, a := acts[..|acts| - 1], acts[|acts| - 1];
      HistoryRun(before, t);
      SoundRun(before);
      var s, s' := Run(Initial, before), Run(Initial, acts);
      if t in s.trips {
        StepOnRow(s, a, t);
        if s'.trips[t].status != s.trips[t].status {
          ExtendHistory(History(before, t), s'.trips[t].status);
        }
      } else if t in s'.trips {
        NewRow(s, a, t);
      }
    }
  }

  /** Under any order and repetition of handler calls and failures: the status history of a trip is legal, so it changes
      at most five times; the driver and completion columns agree with the status; ratings lie in 1..5. */
  lemma {:induction false} HistoryIsLegal(acts: seq<Action>, t: TripId)
    ensures var h, s := History(acts, t), Run(Initial, acts);
            && (h <= HAPPY_PATH || (2 <= |h| <= 4 && h == HAPPY_PATH[..|h| - 1] + [Cancelled]))
            && |h| <= 6
            && (t in s.trips ==>
                  var row := s.trips[t];
                  && h != [] && h[|h| - 1] == row.status
                  && (row.completedAt.Some? <==> row.status == Completed || row.status == Paid)
                  && (row.driver.Some? ==> Accepted in h)
                  && (row.rating.Some? ==>
                        1 <= row.rating.value <= 5
                        && (row.status == Completed || row.status == Paid)))
  {
    HistoryRun(acts, t);
    SoundRun(acts);
    DriverOnlyAfterAccept(acts, t);
  }

  lemma {:induction false} DriverOnlyAfterAccept(acts: seq<Action>, t: TripId)
    ensures var s := Run(Initial, acts); t in s.trips && s.trips[t].driver.Some? ==> Accepted in History(acts, t)
  {
    HistoryRun(acts, t);
    if acts != [] {
      var before, a := acts[..|acts| - 1], acts[|acts| - 1];
      DriverOnlyAfterAccept(before, t);
      SoundRun(before);
      var s := Run(Initial, before);
      if t in s.trips {
        StepOnRow(s, a, t);
        HistoryRun(before, t);
      } else if t in Apply(s, a).trips {
        NewRow(s, a, t);
      }
    }
  }

  /** Columns are written once: later in the run the driver and the completion time of a trip are still the same. */
  lemma {:induction false} WrittenOnce(acts: seq<Action>, i: nat, t: TripId)
    requires i <= |acts| && t in Run(Initial, acts[..i]).trips
    ensures var early, late := Run(Initial, acts[..i]), Run(Initial, acts);
            && t in late.trips
            && (early.trips[t].driver.Some? ==> late.trips[t].driver == early.trips[t].driver)
            && (early.trips[t].completedAt.Some? ==> late.trips[t].completedAt == early.trips[t].completedAt)
    decreases |acts| - i, |acts|
  {
    if i == |acts| {
      assert acts[..i] == acts;
    } else {
      var before, a := acts[..|acts| - 1], acts[|acts| - 1];
      assert before[..i] == acts[..i];
      WrittenOnce(before, i, t);
      SoundRun(before);
      SoundRun(acts[..i]);
      var s := Run(Initial, before);
      StepOnRow(s, a, t);
    }
  }

  // ---------------------------------------------------------------- one winner

  /** How many steps of the run took `t` out of `searching`. */
  function Exits(acts: seq<Action>, t: TripId): nat {
    if acts == [] then 0
    else
      var s, s' := Run(Initial, acts[..|acts| - 1]), Run(Initial, acts);
      Exits(acts[..|acts| - 1], t) + if InStatus(s, t, {Searching}) && !InStatus(s', t, {Searching}) then 1 else 0
  }

  lemma {:induction false} ExitsRun(acts: seq<Action>, t: TripId)
    ensures var s := Run(Initial, acts); Exits(acts, t) == if t in s.trips && s.trips[t].status != Searching then 1
        else 0
  {
    if acts != [] {
      var before, a := acts[..|acts| - 1], acts[|acts| - 1];
      ExitsRun(before, t);
      SoundRun(before);
      var s := Run(Initial, before);
      if t in s.trips { StepOnRow(s, a, t); } else if t in Apply(s, a).trips { NewRow(s, a, t); }
    }
  }

  /** The steps that race to end the search of `t`: any accept, the timeout, a sweep old enough, a cancel. */
  predicate Contends(s: State, a: Action, t: TripId)
    requires t in s.trips
  {
    match a
    case Accept(u, _, dbOk, _) => u == t && dbOk
    case SearchTimeout(u, dbOk) => u == t && dbOk
    case ExpireQuietly(u, dbOk) => u == t && dbOk
    case Cancel(u, _, dbOk) => u == t && dbOk
    case Sweep(now, olderThan, dbOk) => dbOk && s.trips[t].createdAt < now - olderThan
    case _ => false
  }

  /** A contender that runs while the trip is searching ends the search, and nothing else does. */
  lemma ContenderWins(s: State, a: Action, t: TripId)
    requires InStatus(s, t, {Searching})
    ensures InStatus(Apply(s, a), t, {Searching}) <==> !Contends(s, a, t)
  {
  }

  /** Among any number of racing accepts, timeouts, sweeps and cancels exactly one ends the search. */
  lemma {:induction false} ExactlyOneWinner(acts: seq<Action>, i: nat, t: TripId)
    requires i < |acts| && t in Run(Initial, acts[..i]).trips && Contends(Run(Initial, acts[..i]), acts[i], t)
    ensures Exits(acts, t) == 1
  {
    ExitsRun(acts, t);
    StaysOut(acts, i, t);
  }

  lemma {:induction false} StaysOut(acts: seq<Action>, i: nat, t: TripId)
    requires i < |acts| && t in Run(Initial, acts[..i]).trips && Contends(Run(Initial, acts[..i]), acts[i], t)
    ensures t in Run(Initial, acts).trips && Run(Initial, acts).trips[t].status != Searching
    decreases |acts|
  {
    var before, a := acts[..|acts| - 1], acts[|acts| - 1];
    var s := Run(Initial, before);
    SoundRun(before);
    if i == |before| {
      StepOnRow(s, a, t);
      if s.trips[t].status == Searching { ContenderWins(s, a, t); }
    } else {
      assert before[..i] == acts[..i];
      StaysOut(before, i, t);
      StepOnRow(s, a, t);
    }
  }

  // ---------------------------------------------------------------- announcements and the outbox pair

  function CountAnnounced(log: seq<Assigned>, t: TripId): nat {
    if log == [] then 0 else CountAnnounced(log[..|log| - 1], t) + if log[|log| - 1].trip == t then 1 else 0
  }

  function CountMessage(outbox: seq<OutboxMessage>, m: OutboxMessage): nat {
    if outbox == [] then 0 else CountMessage(outbox[..|outbox| - 1], m) + if outbox[|outbox| - 1] == m then 1 else 0
  }

  lemma CountMessageAppend(outbox: seq<OutboxMessage>, x: OutboxMessage, m: OutboxMessage)
    ensures CountMessage(outbox + [x], m) == CountMessage(outbox, m) + if x == m then 1 else 0
  {
    assert (outbox + [x])[..|outbox|] == outbox;
  }

  lemma CountMessagePair(outbox: seq<OutboxMessage>, t: TripId, m: OutboxMessage)
    ensures CountMessage(outbox + SearchTimeoutMessages(t), m) ==
            CountMessage(outbox, m) + if m == NoDriversFound(t) || m == TripCancelled(t) then 1 else 0
  {
    assert outbox + SearchTimeoutMessages(t) == (outbox + [NoDriversFound(t)]) + [TripCancelled(t)];
    CountMessageAppend(outbox, NoDriversFound(t), m);
    CountMessageAppend(outbox + [NoDriversFound(t)], TripCancelled(t), m);
  }

  /** At most one announcement per trip, none before a driver is stored, and it names the stored driver. */
  ghost predicate AnnouncedSound(s: State, t: TripId) {
    && (forall x | x in s.announced && x.trip == t :: t in s.trips && s.trips[t].driver == Some(x.driver))
    && CountAnnounced(s.announced, t) <= 1
    && (CountAnnounced(s.announced, t) == 1 ==> t in s.trips && s.trips[t].driver.Some?)
  }

  lemma AnnouncedStep(s: State, a: Action, t: TripId)
    requires Sound(s) && AnnouncedSound(s, t)
    ensures AnnouncedSound(Apply(s, a), t)
  {
    var s' := Apply(s, a);
    if t in s.trips { StepOnRow(s, a, t); }
    if s'.announced != s.announced {
      assert s'.announced == s.announced + [Assigned(a.trip, a.driver)];
      assert s'.announced[..|s.announced|] == s.announced;
    }
  }

  lemma {:induction false} AnnouncedRun(acts: seq<Action>, t: TripId)
    ensures AnnouncedSound(Run(Initial, acts), t)
  {
    if acts != [] {
      var before := acts[..|acts| - 1];
      AnnouncedRun(before, t);
      SoundRun(before);
      AnnouncedStep(Run(Initial, before), acts[|acts| - 1], t);
    }
  }

  /** At most one driver_assigned message per trip is ever published, and it names the driver stored in the row. */
  lemma {:induction false} OneAnnouncementPerTrip(acts: seq<Action>, t: TripId, d: Driver)
    ensures var s := Run(Initial, acts);
            && CountAnnounced(s.announced, t) <= 1
            && (Assigned(t, d) in s.announced ==> t in s.trips && s.trips[t].driver == Some(d))
  {
    AnnouncedRun(acts, t);
  }

  /** The accept that won trip `t`. */
  predicate WinsTrip(s: State, a: Action, t: TripId) {
    a.Accept? && a.trip == t && a.dbOk && InStatus(s, t, {Searching})
  }

  ghost predicate AnnouncedAt(acts: seq<Action>, i: nat, t: TripId)
    requires i < |acts|
  {
    WinsTrip(Run(Initial, acts[..i]), acts[i], t) && acts[i].pub != Failed
  }

  ghost predicate SomeAnnounced(acts: seq<Action>, t: TripId) {
    exists i | 0 <= i < |acts| :: AnnouncedAt(acts, i, t)
  }

  lemma {:induction false} AnnouncedPrefix(acts: seq<Action>, t: TripId)
    requires acts != []
    ensures var n := |acts| - 1;
            SomeAnnounced(acts, t) <==>
              SomeAnnounced(acts[..n], t) || (WinsTrip(Run(Initial, acts[..n]), acts[n], t) && acts[n].pub != Failed)
  {
    var n := |acts| - 1;
    forall i | 0 <= i < n ensures AnnouncedAt(acts[..n], i, t) <==> AnnouncedAt(acts, i, t) {
      assert acts[..n][..i] == acts[..i];
    }
    assert AnnouncedAt(acts, n, t) <==> WinsTrip(Run(Initial, acts[..n]), acts[n], t) && acts[n].pub != Failed;
  }

  lemma OnlyAcceptAnnounces(s: State, a: Action)
    requires !a.Accept?
    ensures Apply(s, a).announced == s.announced
  {
  }

  lemma AcceptAnnounces(s: State, u: TripId, d: Driver, dbOk: bool, pub: PublishOutcome)
    ensures HandleTripAccepted(s, u, d, dbOk, pub).announced
            == s.announced + if dbOk && InStatus(s, u, {Searching}) && pub != Failed then [Assigned(u, d)] else []
  {
  }

  lemma CountAnnouncedStep(s: State, a: Action, t: TripId)
    ensures CountAnnounced(Apply(s, a).announced, t)
            == CountAnnounced(s.announced, t) + if WinsTrip(s, a, t) && a.pub != Failed then 1 else 0
  {
    if a.Accept? {
      AcceptAnnounces(s, a.trip, a.driver, a.dbOk, a.pub);
      assert (s.announced + [Assigned(a.trip, a.driver)])[..|s.announced|] == s.announced;
      assert s.announced + [] == s.announced;
    } else {
      OnlyAcceptAnnounces(s, a);
    }
  }

  /** There is exactly one announcement if the publish of the winning accept took effect and none if it failed: since a
      redelivered accept no longer finds the trip searching, nothing repairs a failed one. */
  lemma {:induction false} AnnouncedIffWinnerPublished(acts: seq<Action>, t: TripId)
    ensures CountAnnounced(Run(Initial, acts).announced, t) == if SomeAnnounced(acts, t) then 1 else 0
  {
    AnnouncedRun(acts, t);
    if acts != [] {
      var before := acts[..|acts| - 1];
      AnnouncedIffWinnerPublished(before, t);
      AnnouncedPrefix(acts, t);
      CountAnnouncedStep(Run(Initial, before), acts[|acts| - 1], t);
    }
  }

  /** The search timeout of `t` was the step that ended its search. */
  predicate TimeoutWins(s: State, a: Action, t: TripId) {
    a.SearchTimeout? && a.trip == t && InStatus(s, t, {Searching}) && !InStatus(Apply(s, a), t, {Searching})
  }

  function TimeoutWinCount(acts: seq<Action>, t: TripId): nat {
    if acts == [] then 0
    else
      var before := acts[..|acts| - 1];
      TimeoutWinCount(before, t) + if TimeoutWins(Run(Initial, before), acts[|acts| - 1], t) then 1 else 0
  }

  lemma OutboxStep(s: State, a: Action, t: TripId)
    ensures var s' := Apply(s, a);
            var extra := if TimeoutWins(s, a, t) then 1 else 0;
            && CountMessage(s'.outbox, NoDriversFound(t)) == CountMessage(s.outbox, NoDriversFound(t)) + extra
            && CountMessage(s'.outbox, TripCancelled(t)) == CountMessage(s.outbox, TripCancelled(t)) + extra
            && CountMessage(s'.outbox, TripCreated(t)) == CountMessage(s.outbox, TripCreated(t)) +
                if t !in s.trips && t in s'.trips then 1 else 0
  {
    match a
    case SearchTimeout(u, _) =>
      CountMessagePair(s.outbox, u, NoDriversFound(t));
      CountMessagePair(s.outbox, u, TripCancelled(t));
      CountMessagePair(s.outbox, u, TripCreated(t));
    case Create(u, _, _, _) =>
      CountMessageAppend(s.outbox, TripCreated(u), NoDriversFound(t));
      CountMessageAppend(s.outbox, TripCreated(u), TripCancelled(t));
      CountMessageAppend(s.outbox, TripCreated(u), TripCreated(t));
    case _ =>
  }

  lemma {:induction false} OutboxRun(acts: seq<Action>, t: TripId)
    ensures var s, n := Run(Initial, acts), TimeoutWinCount(acts, t);
            && CountMessage(s.outbox, NoDriversFound(t)) == n && CountMessage(s.outbox, TripCancelled(t)) == n
            && CountMessage(s.outbox, TripCreated(t)) == (if t in s.trips then 1 else 0)
            && n <= Exits(acts, t)
            && (n > 0 ==> t in s.trips && s.trips[t].status == Cancelled && s.trips[t].driver == None)
  {
    ExitsRun(acts, t);
    if acts != [] {
      var before, a := acts[..|acts| - 1], acts[|acts| - 1];
      OutboxRun(before, t);
      SoundRun(before);
      ExitsRun(before, t);
      var s := Run(Initial, before);
      OutboxStep(s, a, t);
      if t in s.trips { StepOnRow(s, a, t); } else if t in Apply(s, a).trips { NewRow(s, a, t); }
    }
  }

  /** The pair no-drivers-found and trip-cancelled for `t` is in the outbox exactly when the search timeout won, and
      then once; such a trip is cancelled and has no driver, in this state and so in every later one. The
      created-message of every trip is there exactly once. */
  lemma {:induction false} TimeoutPairIffTimeoutWon(acts: seq<Action>, t: TripId)
    ensures var s, n := Run(Initial, acts), TimeoutWinCount(acts, t);
            && n <= 1
            && CountMessage(s.outbox, NoDriversFound(t)) == n && CountMessage(s.outbox, TripCancelled(t)) == n
            && (n == 1 ==> t in s.trips && s.trips[t].status == Cancelled && s.trips[t].driver == None)
            && CountMessage(s.outbox, TripCreated(t)) == if t in s.trips then 1 else 0
  {
    OutboxRun(acts, t);
    ExitsRun(acts, t);
  }

  // ---------------------------------------------------------------- payment and completion

  /** The step puts a payment request for `t` into the broker. */
  predicate RequestsPayment(s: State, a: Action, t: TripId) {
    a.Complete? && a.trip == t && a.readOk && t in s.trips && a.hasFare && a.pub != Failed
  }

  /** The step completes trip `t`: a completed event whose UPDATE works finds it in progress. */
  predicate Completes(s: State, a: Action, t: TripId) {
    a.Complete? && a.trip == t && a.dbOk && InStatus(s, t, {InProgress})
  }

  /** A payment request says nothing about the status: it is sent for every completed event of a trip that can be read
      and has a fare, if the publish takes effect, also when the transition was refused. */
  lemma PaymentRequestedRegardlessOfStatus(s: State, a: Action, t: TripId)
    ensures Apply(s, a).payments == s.payments + [t] <==> RequestsPayment(s, a, t)
    ensures t in Apply(s, a).payments <==> t in s.payments || RequestsPayment(s, a, t)
  {
    var s' := Apply(s, a);
    assert |s'.payments| == |s.payments| || (a.Complete? && s'.payments == s.payments + [a.trip]);
    assert |s.payments + [t]| == |s.payments| + 1 && (s.payments + [t])[|s.payments|] == t;
  }

  /** The trip that is billed is a completed one exactly if it was before, or this very event completed it. */
  lemma BilledTripIsCompletedIff(s: State, a: Action, t: TripId)
    requires RequestsPayment(s, a, t)
    ensures InStatus(Apply(s, a), t, {Completed, Paid}) <==> InStatus(s, t, {Completed, Paid}) || Completes(s, a, t)
  {
  }

  ghost predicate RequestedAt(acts: seq<Action>, i: nat, t: TripId)
    requires i < |acts|
  {
    RequestsPayment(Run(Initial, acts[..i]), acts[i], t)
  }

  ghost predicate CompletedAt(acts: seq<Action>, i: nat, t: TripId)
    requires i < |acts|
  {
    Completes(Run(Initial, acts[..i]), acts[i], t)
  }

  ghost predicate SomeRequest(acts: seq<Action>, t: TripId) {
    exists i | 0 <= i < |acts| :: RequestedAt(acts, i, t)
  }

  ghost predicate SomeCompletion(acts: seq<Action>, t: TripId) {
    exists i | 0 <= i < |acts| :: CompletedAt(acts, i, t)
  }

  lemma {:induction false} SomePrefix(acts: seq<Action>, t: TripId)
    requires acts != []
    ensures var n := |acts| - 1;
            && (SomeRequest(acts, t) <==>
                  SomeRequest(acts[..n], t)
                  || RequestsPayment(Run(Initial, acts[..n]), acts[n], t))
            && (SomeCompletion(acts, t) <==>
                  SomeCompletion(acts[..n], t)
                  || Completes(Run(Initial, acts[..n]), acts[n], t))
  {
    var n := |acts| - 1;
    forall i | 0 <= i < n
      ensures RequestedAt(acts[..n], i, t) <==> RequestedAt(acts, i, t)
      ensures CompletedAt(acts[..n], i, t) <==> CompletedAt(acts, i, t)
    {
      assert acts[..n][..i] == acts[..i];
    }
    assert RequestedAt(acts, n, t) <==> RequestsPayment(Run(Initial, acts[..n]), acts[n], t);
    assert CompletedAt(acts, n, t) <==> Completes(Run(Initial, acts[..n]), acts[n], t);
  }

  lemma {:induction false} RequestsRun(acts: seq<Action>, t: TripId)
    ensures t in Run(Initial, acts).payments <==> SomeRequest(acts, t)
  {
    if acts != [] {
      RequestsRun(acts[..|acts| - 1], t);
      SomePrefix(acts, t);
      PaymentRequestedRegardlessOfStatus(Run(Initial, acts[..|acts| - 1]), acts[|acts| - 1], t);
    }
  }

  lemma CompletionStep(s: State, a: Action, t: TripId)
    requires Sound(s)
    ensures InStatus(Apply(s, a), t, {Completed, Paid}) <==> InStatus(s, t, {Completed, Paid}) || Completes(s, a, t)
  {
    if t in s.trips { StepOnRow(s, a, t); } else if t in Apply(s, a).trips { NewRow(s, a, t); }
  }

  lemma {:induction false} CompletionRun(acts: seq<Action>, t: TripId)
    ensures InStatus(Run(Initial, acts), t, {Completed, Paid}) <==> SomeCompletion(acts, t)
  {
    if acts != [] {
      CompletionRun(acts[..|acts| - 1], t);
      SomePrefix(acts, t);
      SoundRun(acts[..|acts| - 1]);
      CompletionStep(Run(Initial, acts[..|acts| - 1]), acts[|acts| - 1], t);
    }
  }

  /** Over whole runs: a trip is billed without being completed exactly if some completed event reached the payment
      request and none found the trip in progress with a working UPDATE. */
  lemma {:induction false} BilledNeverCompletedIff(acts: seq<Action>, t: TripId)
    ensures var s := Run(Initial, acts);
            (t in s.payments && !InStatus(s, t, {Completed, Paid})) <==>
                (SomeRequest(acts, t) && !SomeCompletion(acts, t))
  {
    RequestsRun(acts, t);
    CompletionRun(acts, t);
  }

  lemma PaymentOfCancelledTrip(t: TripId, user: string)
    ensures var s := Apply(Apply(Apply(Initial, Create(t, user, 0, true)), Cancel(t, 1, true)),
        Complete(t, 2, true, true, true, Acked));
            s.payments == [t] && s.trips[t].status == Cancelled
  {
  }
}
