/**
 The trip service and its relays together: the messages that the trip transactions write are the rows of the outbox that
 the relays drain. What `TripLifecycle` proves about the messages and `Outbox` about the rows is joined here.
 */
module TripOutbox {
  import TL = TripLifecycle
  import OB = Outbox
  import OP = OutboxProgress

  datatype State = State(service: TL.State, outbox: OB.State)

  /** A call of the trip service, with the ids the database gives to the rows it inserts, or a step of a relay. */
  datatype Action = Service(call: TL.Action, ids: seq<OB.RowId>) | Relay(step: OB.Action)

  const Initial: State := State(TL.Initial, OB.Initial)

  function Encode(m: TL.OutboxMessage): OB.Message {
    match m
    case TripCreated(t) => OB.Message("trip.event.created", t)
    case NoDriversFound(t) => OB.Message("trip.event.no_drivers_found", t)
    case TripCancelled(t) => OB.Message("trip.event.cancelled", t)
  }

  /** The messages a call adds to the outbox: those of its committed transaction. */
  function NewMessages(s: TL.State, a: TL.Action): seq<TL.OutboxMessage> {
    match a
    case Create(t, user, now, dbOk) => if TL.CreateTripWithOutbox(s, t, user, now, dbOk).1 then [TL.TripCreated(t)]
        else []
    case SearchTimeout(t, dbOk) => if TL.ExpireSearch(s, t, dbOk).1 then TL.SearchTimeoutMessages(t) else []
    case _ => []
  }

  lemma CallAppends(s: TL.State, a: TL.Action)
    ensures TL.Apply(s, a).outbox == s.outbox + NewMessages(s, a)
  {
    assert s.outbox + [] == s.outbox;
  }

  function InsertOne(o: OB.State, a: TL.Action, id: OB.RowId, m: TL.OutboxMessage): OB.State {
    OB.Apply(o, if a.Create? then OB.CreateTrip(a.trip, id, Encode(m)) else OB.Insert(id, Encode(m)))
  }

  function InsertAll(o: OB.State, a: TL.Action, ids: seq<OB.RowId>, msgs: seq<TL.OutboxMessage>): OB.State
    requires |ids| == |msgs|
  {
    if msgs == [] then o
    else
      var n := |msgs| - 1;
      InsertOne(InsertAll(o, a, ids[..n], msgs[..n]), a, ids[n], msgs[n])
  }

  /** Row ids are new and distinct, one for each message; relays do not insert. */
  predicate Valid(s: State, a: Action) {
    match a
    case Service(call, ids) =>
      && |ids| == |NewMessages(s.service, call)|
      && (forall i | 0 <= i < |ids| :: ids[i] !in s.outbox.created)
      && (forall i, j | 0 <= i < j < |ids| :: ids[i] != ids[j])
    case Relay(step) => !step.CreateTrip? && !step.Insert?
  }

  function Apply(s: State, a: Action): State {
    if !Valid(s, a) then s else
    match a
    case Service(call, ids) =>
      State(TL.Apply(s.service, call), InsertAll(s.outbox, call, ids, NewMessages(s.service, call)))
    case Relay(step) => s.(outbox := OB.Apply(s.outbox, step))
  }

  function Run(s: State, acts: seq<Action>): State {
    if acts == [] then s else Apply(Run(s, acts[..|acts| - 1]), acts[|acts| - 1])
  }

  /** Row number `i` of the outbox was written with message number `i` of the trip service. */
  ghost predicate Matches(o: OB.State, msgs: seq<TL.OutboxMessage>) {
    && |o.order| == |msgs|
    && forall i | 0 <= i < |msgs| :: o.order[i] in o.created && o.created[o.order[i]] == Encode(msgs[i])
  }

  /** The trips the relays know are those of the service. */
  ghost predicate SameTrips(o: OB.State, s: TL.State) {
    forall t :: t in o.trips <==> t in s.trips
  }

  ghost predicate Linked(s: State) {
    OB.Inv(s.outbox) && Matches(s.outbox, s.service.outbox) && SameTrips(s.outbox, s.service)
  }

  lemma InsertDomain(o: OB.State, a: TL.Action, id: OB.RowId, m: TL.OutboxMessage)
    requires id !in o.created && (a.Create? ==> a.trip !in o.trips)
    ensures var o' := InsertOne(o, a, id, m);
            && (forall x :: x in o'.created <==> x in o.created || x == id)
            && (forall t :: t in o'.trips <==> t in o.trips || (a.Create? && t == a.trip))
  {
  }

  lemma InsertKeeps(o: OB.State, a: TL.Action, id: OB.RowId, m: TL.OutboxMessage, msgs: seq<TL.OutboxMessage>)
    requires OB.Inv(o) && Matches(o, msgs) && id !in o.created && (a.Create? ==> a.trip !in o.trips)
    ensures OB.Inv(InsertOne(o, a, id, m)) && Matches(InsertOne(o, a, id, m), msgs + [m])
  {
    OB.InvStep(o, if a.Create? then OB.CreateTrip(a.trip, id, Encode(m)) else OB.Insert(id, Encode(m)));
  }

  ghost predicate Fresh(o: OB.State, ids: seq<OB.RowId>) {
    (forall i | 0 <= i < |ids| :: ids[i] !in o.created) && (forall i, j | 0 <= i < j < |ids| :: ids[i] != ids[j])
  }

  lemma FreshPrefix(o: OB.State, ids: seq<OB.RowId>)
    requires Fresh(o, ids) && ids != []
    ensures var n := |ids| - 1;
          Fresh(o, ids[..n]) && ids[n] !in o.created && ids[n] !in ids[..n]
          && ids[..n] + [ids[n]] == ids
  {
  }

  lemma {:induction false} InsertsRows(o: OB.State, a: TL.Action, ids: seq<OB.RowId>, msgs: seq<TL.OutboxMessage>)
    requires |ids| == |msgs| && Fresh(o, ids) && !a.Create?
    ensures var o' := InsertAll(o, a, ids, msgs);
            o'.trips == o.trips && forall x :: x in o'.created <==> x in o.created || x in ids
  {
    if msgs != [] {
      var n := |msgs| - 1;
      FreshPrefix(o, ids);
      InsertsRows(o, a, ids[..n], msgs[..n]);
      assert forall x :: x in ids <==> x in ids[..n] || x == ids[n];
    }
  }

  lemma InsertsDomain(o: OB.State, a: TL.Action, ids: seq<OB.RowId>, msgs: seq<TL.OutboxMessage>)
    requires |ids| == |msgs| && Fresh(o, ids) && (a.Create? ==> |msgs| <= 1 && a.trip !in o.trips)
    ensures var o' := InsertAll(o, a, ids, msgs);
            && (forall x :: x in o'.created <==> x in o.created || x in ids)
            && (forall t :: t in o'.trips <==> t in o.trips || (a.Create? && msgs != [] && t == a.trip))
  {
    if !a.Create? {
      InsertsRows(o, a, ids, msgs);
    } else if msgs != [] {
      assert ids == [ids[0]] && InsertAll(o, a, ids[..0], msgs[..0]) == o;
      InsertDomain(o, a, ids[0], msgs[0]);
    }
  }

  /** The next row id is still new after the rows before it. */
  lemma NextIsFresh(o: OB.State, a: TL.Action, ids: seq<OB.RowId>, msgs: seq<TL.OutboxMessage>) returns (o1: OB.State)
    requires |ids| == |msgs| > 0 && Fresh(o, ids) && (a.Create? ==> |msgs| <= 1 && a.trip !in o.trips)
    ensures var n := |msgs| - 1;
            && o1 == InsertAll(o, a, ids[..n], msgs[..n])
                && InsertAll(o, a, ids, msgs) == InsertOne(o1, a, ids[n], msgs[n])
            && Fresh(o, ids[..n]) && ids[n] !in o1.created && (a.Create? ==> a.trip !in o1.trips)
  {
    var n := |msgs| - 1;
    o1 := InsertAll(o, a, ids[..n], msgs[..n]);
    FreshPrefix(o, ids);
    InsertsDomain(o, a, ids[..n], msgs[..n]);
  }

  /** The rows of the outbox are written with these messages, and the relays' invariant holds. */
  ghost predicate Sound(o: OB.State, msgs: seq<TL.OutboxMessage>) {
    OB.Inv(o) && Matches(o, msgs)
  }

  lemma {:induction false} InsertsKeep(o: OB.State, a: TL.Action, ids: seq<OB.RowId>, msgs: seq<TL.OutboxMessage>,
                                       before: seq<TL.OutboxMessage>) returns (o': OB.State)
    requires Sound(o, before)
    requires |ids| == |msgs| && Fresh(o, ids) && (a.Create? ==> |msgs| <= 1 && a.trip !in o.trips)
    ensures o' == InsertAll(o, a, ids, msgs) && Sound(o', before + msgs)
  {
    if msgs == [] {
      assert before + msgs == before;
      o' := o;
    } else {
      var n := |msgs| - 1;
      var o1 := NextIsFresh(o, a, ids, msgs);
      var same := InsertsKeep(o, a, ids[..n], msgs[..n], before);
      InsertKeeps(o1, a, ids[n], msgs[n], before + msgs[..n]);
      assert before + msgs[..n] + [msgs[n]] == before + msgs;
      o' := InsertOne(o1, a, ids[n], msgs[n]);
    }
  }

  lemma CallTrips(s: TL.State, a: TL.Action, t: TL.TripId)
    ensures t in TL.Apply(s, a).trips <==> t in s.trips || (a.Create? && NewMessages(s, a) != [] && t == a.trip)
    ensures a.Create? ==> |NewMessages(s, a)| <= 1 && (NewMessages(s, a) != [] ==> a.trip !in s.trips)
  {
  }

  lemma TransactionKeeps(s: State, call: TL.Action, ids: seq<OB.RowId>)
    requires Linked(s) && Valid(s, Service(call, ids))
    ensures Linked(Apply(s, Service(call, ids)))
  {
    var msgs := NewMessages(s.service, call);
    CallAppends(s.service, call);
    forall t
      ensures t in TL.Apply(s.service, call).trips <==>
            t in s.service.trips
            || (call.Create? && msgs != [] && t == call.trip)
    {
      CallTrips(s.service, call, t);
    }
    CallTrips(s.service, call, "");
    if msgs == [] {
      assert s.service.outbox + msgs == s.service.outbox;
    } else {
      var o' := InsertsKeep(s.outbox, call, ids, msgs, s.service.outbox);
      InsertsDomain(s.outbox, call, ids, msgs);
    }
  }

  lemma RelayKeeps(o: OB.State, step: OB.Action)
    requires !step.CreateTrip? && !step.Insert?
    ensures OB.Apply(o, step).order == o.order && OB.Apply(o, step).created == o.created
        && OB.Apply(o, step).trips == o.trips
  {
  }

  lemma {:induction false} LinkedRun(acts: seq<Action>)
    ensures Linked(Run(Initial, acts))
  {
    if acts == [] {
      OB.InvRun([]);
    } else {
      var before, a := acts[..|acts| - 1], acts[|acts| - 1];
      var s := Run(Initial, before);
      LinkedRun(before);
      if Valid(s, a) {
        match a
        case Service(call, ids) => TransactionKeeps(s, call, ids);
        case Relay(step) => OB.InvStep(s.outbox, step); RelayKeeps(s.outbox, step);
      }
    }
  }

  /** The part of the trip service in a run of both. */
  function Calls(acts: seq<Action>): seq<TL.Action> {
    if acts == [] then []
    else
      var before, a := acts[..|acts| - 1], acts[|acts| - 1];
      if a.Service? && Valid(Run(Initial, before), a) then Calls(before) + [a.call] else Calls(before)
  }

  /** Seen from the trips, the relays are not there. */
  lemma {:induction false} ServiceIsItsOwnRun(acts: seq<Action>)
    ensures Run(Initial, acts).service == TL.Run(TL.Initial, Calls(acts))
  {
    if acts != [] {
      var before, a := acts[..|acts| - 1], acts[|acts| - 1];
      ServiceIsItsOwnRun(before);
      if a.Service? && Valid(Run(Initial, before), a) {
        assert (Calls(before) + [a.call])[..|Calls(before)|] == Calls(before);
      }
    }
  }

  /** The message is an unpublished row of the outbox, or the broker has it with its topic and payload. */
  ghost predicate WaitsOrDelivered(o: OB.State, m: OB.Message) {
    exists id ::
      && id in o.created && o.created[id] == m
      && ((id in o.rows && o.rows[id] == OB.Row(m, false)) || OB.Entry(id, m) in o.log)
  }

  /** Whatever calls, relays, failures and crashes occur: every message the trip service ever committed still waits in
      the outbox or has reached the broker. */
  lemma {:induction false} CommittedMessageArrives(acts: seq<Action>, m: TL.OutboxMessage)
    requires m in Run(Initial, acts).service.outbox
    ensures WaitsOrDelivered(Run(Initial, acts).outbox, Encode(m))
  {
    LinkedRun(acts);
    var s := Run(Initial, acts);
    var i :| 0 <= i < |s.service.outbox| && s.service.outbox[i] == m;
    assert OB.Unpublished(s.outbox, s.outbox.order[i]) || OB.Delivered(s.outbox, s.outbox.order[i]);
  }

  lemma {:induction false} CountedIsThere(outbox: seq<TL.OutboxMessage>, m: TL.OutboxMessage)
    ensures TL.CountMessage(outbox, m) > 0 <==> m in outbox
  {
    if outbox != [] {
      CountedIsThere(outbox[..|outbox| - 1], m);
      assert outbox == outbox[..|outbox| - 1] + [outbox[|outbox| - 1]];
    }
  }

  /** From the trip to the broker: the created-message of every trip, and both messages of every trip that its search
      timeout cancelled, still wait in the outbox or have reached the broker; of a trip that the timeout did not
      cancel, no such message was ever written. */
  lemma {:induction false} TripMessagesArrive(acts: seq<Action>, t: TL.TripId)
    ensures var s, calls := Run(Initial, acts), Calls(acts);
            && (t in s.service.trips ==> WaitsOrDelivered(s.outbox, OB.Message("trip.event.created", t)))
            && (if TL.TimeoutWinCount(calls, t) == 1 then
                  && WaitsOrDelivered(s.outbox, OB.Message("trip.event.no_drivers_found", t))
                  && WaitsOrDelivered(s.outbox, OB.Message("trip.event.cancelled", t))
                else TL.NoDriversFound(t) !in s.service.outbox && TL.TripCancelled(t) !in s.service.outbox)
  {
    var s, calls := Run(Initial, acts), Calls(acts);
    ServiceIsItsOwnRun(acts);
    TL.TimeoutPairIffTimeoutWon(calls, t);
    CountedIsThere(s.service.outbox, TL.TripCreated(t));
    CountedIsThere(s.service.outbox, TL.NoDriversFound(t));
    CountedIsThere(s.service.outbox, TL.TripCancelled(t));
    if t in s.service.trips { CommittedMessageArrives(acts, TL.TripCreated(t)); }
    if TL.TimeoutWinCount(calls, t) == 1 {
      CommittedMessageArrives(acts, TL.NoDriversFound(t));
      CommittedMessageArrives(acts, TL.TripCancelled(t));
    }
  }

  function Relays(steps: seq<OB.Action>): (acts: seq<Action>)
    ensures |acts| == |steps| && forall i | 0 <= i < |steps| :: acts[i] == Relay(steps[i])
  {
    seq(|steps|, i requires 0 <= i < |steps| => Relay(steps[i]))
  }

  /** Seen from the outbox, steps of the relays are a run of its own. */
  lemma {:induction false} RelaysAreTheirOwnRun(s: State, steps: seq<OB.Action>)
    requires OP.RelaySteps(steps)
    ensures Run(s, Relays(steps)) == s.(outbox := OB.Run(s.outbox, steps))
  {
    if steps != [] {
      var n := |steps| - 1;
      RelaysAreTheirOwnRun(s, steps[..n]);
      assert Relays(steps)[..n] == Relays(steps[..n]);
    }
  }

  lemma {:induction false} RunSplit(s: State, first: seq<Action>, rest: seq<Action>)
    ensures Run(s, first + rest) == Run(Run(s, first), rest)
  {
    if rest == [] {
      assert first + rest == first;
    } else {
      var n := |rest| - 1;
      assert (first + rest)[..|first| + n] == first + rest[..n];
      RunSplit(s, first, rest[..n]);
    }
  }

  /** The broker has a record of the message, with its topic and payload. */
  ghost predicate Arrived(o: OB.State, m: OB.Message) {
    exists e :: e in o.log && e.msg == m
  }

  /** From every reachable state, whatever has failed or crashed so far, some further steps of the relays alone bring
      every message that the trip service has committed to the broker. */
  lemma EveryMessageArrives(acts: seq<Action>, r: OB.RelayId) returns (more: seq<Action>)
    ensures var s, s' := Run(Initial, acts), Run(Initial, acts + more);
            s'.service == s.service && forall m | m in s.service.outbox :: Arrived(s'.outbox, Encode(m))
  {
    LinkedRun(acts);
    var s := Run(Initial, acts);
    var steps := OP.AllDelivered(s.outbox, r);
    more := Relays(steps);
    RelaysAreTheirOwnRun(s, steps);
    RunSplit(Initial, acts, more);
    var o' := OB.Run(s.outbox, steps);
    forall m | m in s.service.outbox ensures Arrived(o', Encode(m)) {
      var i :| 0 <= i < |s.service.outbox| && s.service.outbox[i] == m;
      var id := s.outbox.order[i];
      assert OB.Delivered(o', id) && OB.Entry(id, Encode(m)) in o'.log;
    }
  }
}
