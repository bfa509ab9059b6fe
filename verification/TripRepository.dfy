/** The trip tables and the handlers that change them, as mutable state. */
module TripRepository {
  import opened Common
  import opened TripLifecycle

  class Repository {
    var trips: map<TripId, Trip>
    var outbox: seq<OutboxMessage>
    var announced: seq<Assigned>
    var payments: seq<TripId>

    constructor ()
      ensures View() == Initial
    {
      trips, outbox, announced, payments := map[], [], [], [];
    }

    function View(): State
      reads this
    {
      State(trips, outbox, announced, payments)
    }

    method CreateTripWithOutbox(t: TripId, user: string, now: int, dbOk: bool) returns (ok: bool)
      modifies this`trips, this`outbox
      ensures (View(), ok) == TripLifecycle.CreateTripWithOutbox(old(View()), t, user, now, dbOk)
    {
      if !dbOk || t in trips { return false; }
      trips := trips[t := Trip(user, Searching, None, now, None, None, false, None)];
      outbox := outbox + [TripCreated(t)];
      return true;
    }

    method UpdateTrip(t: TripId, status: Status, driver: Option<Driver>, now: int, dbOk: bool) returns (ok: bool)
      modifies this`trips
      ensures (View(), ok) == TripLifecycle.UpdateTrip(old(View()), t, status, driver, now, dbOk)
      ensures ok == (dbOk && t in old(trips) && Edge(old(trips)[t].status, status))
    {
      var from := AllowedFrom(status);
      if from.None? { return false; } // unknown trip status
      if !dbOk { return false; }
      if t !in trips || trips[t].status !in from.value { return false; } // no row affected
      var row := trips[t];
      if status == Completed {
        trips := trips[t := row.(status := status, completedAt := Some(now))];
      } else if status == Cancelled {
        trips := trips[t := row.(status := status, cancelledAt := Some(now))];
      } else if driver.Some? {
        trips := trips[t := row.(status := status, driver := driver)];
      } else {
        trips := trips[t := row.(status := status)];
      }
      return true;
    }

    method CancelTrip(t: TripId, now: int, dbOk: bool) returns (ok: bool)
      modifies this`trips
      ensures (View(), ok) == TripLifecycle.CancelTrip(old(View()), t, now, dbOk)
      ensures ok == (dbOk && t in old(trips) && Edge(old(trips)[t].status, Cancelled))
    {
      if !dbOk || t !in trips || trips[t].status !in CancellableStates() { return false; }
      trips := trips[t := trips[t].(status := Cancelled, cancelledAt := Some(now), cancelledByRider := true)];
      return true;
    }

    method ExpireSearch(t: TripId, dbOk: bool) returns (ok: bool)
      modifies this`trips
      ensures (View(), ok) == TripLifecycle.ExpireSearch(old(View()), t, dbOk)
    {
      if !dbOk || t !in trips || trips[t].status != Searching { return false; }
      trips := trips[t := trips[t].(status := Cancelled)];
      return true;
    }

    /** The row and the messages commit together; if one of the calls fails the transaction is rolled back.
        `inserted` is how many INSERTs succeed. */
    method ExpireSearchWithOutbox(t: TripId, msgs: seq<OutboxMessage>, updateOk: bool, inserted: nat, commitOk: bool)
        returns (ok: bool)
      modifies this`trips, this`outbox
      ensures (View(), ok) ==
              TripLifecycle.ExpireSearchWithOutbox(old(View()), t, msgs, updateOk && inserted >= |msgs| && commitOk)
    {
      if !updateOk { return false; }
      if t !in trips || trips[t].status != Searching { return false; }
      var newTrips := trips[t := trips[t].(status := Cancelled)];
      var newOutbox := outbox;
      for i := 0 to |msgs|
        invariant newOutbox == outbox + msgs[..i] && i <= inserted
      {
        if i >= inserted { return false; }
        newOutbox := newOutbox + [msgs[i]];
        assert msgs[..i + 1] == msgs[..i] + [msgs[i]];
      }
      if !commitOk { return false; }
      assert msgs[..|msgs|] == msgs;
      trips, outbox := newTrips, newOutbox;
      return true;
    }

    /** One UPDATE over all rows; `count` is the number of rows affected. */
    method ExpireStaleSearching(now: int, olderThan: int, dbOk: bool) returns (count: nat)
      modifies this`trips
      ensures View() == TripLifecycle.ExpireStaleSearching(old(View()), now, olderThan, dbOk)
      ensures count == if dbOk then |set t | t in old(trips) && Stale(old(trips)[t], now, olderThan)| else 0
    {
      count := 0;
      if !dbOk { return; }
      var before := trips;
      var left := set t | t in before && Stale(before[t], now, olderThan);
      ghost var all := left;
      while left != {}
        invariant left <= all && count + |left| == |all|
        invariant trips.Keys == before.Keys
        invariant forall t | t in before :: trips[t] == if t in all && t !in left then before[t].(status := Cancelled)
            else before[t]
        decreases |left|
      {
        var t :| t in left;
        trips := trips[t := trips[t].(status := Cancelled)];
        left := left - {t};
        count := count + 1;
      }
    }

    method RateTrip(t: TripId, user: string, rating: int, dbOk: bool) returns (ok: bool)
      modifies this`trips
      ensures (View(), ok) == TripLifecycle.RateTrip(old(View()), t, user, rating, dbOk)
      ensures ok == (dbOk && 1 <= rating <= 5 && t in old(trips) && old(trips)[t].userId == user
                     && (old(trips)[t].status == Completed || old(trips)[t].status == Paid))
    {
      if rating < 1 || rating > 5 { return false; }
      if !dbOk { return false; }
      if t !in trips || trips[t].userId != user || trips[t].status !in {Completed, Paid} { return false; }
      trips := trips[t := trips[t].(rating := Some(rating))];
      return true;
    }

    /** The result is false when the message goes to the retry ladder, which calls the handler again. */
    method HandleTripAccepted(t: TripId, d: Driver, dbOk: bool, pub: PublishOutcome) returns (ok: bool)
      modifies this
      ensures View() == Apply(old(View()), Accept(t, d, dbOk, pub))
      ensures ok == (dbOk && t in old(trips) && old(trips)[t].status == Searching && pub == Acked)
      ensures ok ==> View().announced == old(announced) + [Assigned(t, d)] && InStatus(View(), t, {Accepted})
    {
      var updated := UpdateTrip(t, Accepted, Some(d), 0, dbOk);
      if !updated { return false; }
      if pub != Failed {
        announced := announced + [Assigned(t, d)];
      }
      return pub == Acked;
    }

    method HandleTripCompleted(t: TripId, now: int, dbOk: bool, readOk: bool, hasFare: bool, pub: PublishOutcome)
        returns (ok: bool)
      modifies this
      ensures View() == Apply(old(View()), Complete(t, now, dbOk, readOk, hasFare, pub))
      ensures ok == (readOk && t in old(trips) && (hasFare ==> pub == Acked))
    {
      var updated := UpdateTrip(t, Completed, None, now, dbOk); // a failure is only logged
      if !readOk || t !in trips { return false; }
      if !hasFare { return true; }
      if pub != Failed {
        payments := payments + [t];
      }
      return pub == Acked;
    }

    method HandleStatusUpdate(t: TripId, status: Status, dbOk: bool) returns (ok: bool)
      requires status == DriverArrived || status == InProgress
      modifies this`trips
      ensures View() == Apply(old(View()), if status == DriverArrived then Arrive(t, dbOk) else Begin(t, dbOk))
      ensures ok == (dbOk && t in old(trips) && Edge(old(trips)[t].status, status))
    {
      ok := UpdateTrip(t, status, None, 0, dbOk);
    }

    method RunSearchTimeout(t: TripId, updateOk: bool, inserted: nat, commitOk: bool) returns (cancelled: bool)
      modifies this`trips, this`outbox
      ensures View() == Apply(old(View()), SearchTimeout(t, updateOk && inserted >= 2 && commitOk))
      ensures cancelled == TimeoutWins(old(View()), SearchTimeout(t, updateOk && inserted >= 2 && commitOk), t)
    {
      cancelled := ExpireSearchWithOutbox(t, SearchTimeoutMessages(t), updateOk, inserted, commitOk);
    }
  }
}
