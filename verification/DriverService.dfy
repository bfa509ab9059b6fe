/** The driver service on the Redis state it mutates. */
module DriverService {
  import opened DriverStore

  lemma {:induction false} NearestExists(left: set<DriverId>, entries: map<DriverId, Point>, dist: Point -> real)
      returns (m: DriverId)
    requires left != {} && forall d | d in left :: d in entries
    ensures m in left && forall d | d in left :: dist(entries[m]) <= dist(entries[d])
    decreases |left|
  {
    m :| m in left;
    if left - {m} != {} {
      var other := NearestExists(left - {m}, entries, dist);
      assert forall d | d in left :: d == m || d in left - {m};
      if dist(entries[other]) < dist(entries[m]) { m := other; }
    }
  }

  class Service {
    var hashes: map<DriverId, map<Field, string>>
    var geo: map<PackageSlug, map<DriverId, Point>>
    var alive: set<DriverId>

    constructor ()
      ensures View() == Initial
    {
      hashes, geo, alive := map[], map[], {};
    }

    function View(): State
      reads this
    {
      State(hashes, geo, alive)
    }

    method HSet(d: DriverId, fields: map<Field, string>)
      modifies this`hashes
      ensures View() == SetFields(old(View()), d, fields)
    {
      hashes := hashes[d := Hash(View(), d) + fields];
    }

    method GeoAdd(pkg: PackageSlug, d: DriverId, p: Point)
      modifies this`geo
      ensures View() == DriverStore.GeoAdd(old(View()), pkg, d, p)
    {
      geo := geo[pkg := Entries(View(), pkg)[d := p]];
    }

    method ZRem(pkg: PackageSlug, d: DriverId)
      modifies this`geo
      ensures View() == GeoRemove(old(View()), pkg, d)
    {
      geo := geo[pkg := Entries(View(), pkg) - {d}];
    }

    method RegisterDriver(d: DriverId, pkg: PackageSlug, name: string, p: Point, demo: Point)
      modifies this
      ensures View() == DriverStore.RegisterDriver(old(View()), d, pkg, name, p, demo)
    {
      var shown := name;
      if shown == "" { shown := "Driver"; }
      var at := p;
      if at.lat == 0.0 || at.lng == 0.0 { at := demo; }
      HSet(d, map[Name := shown, Slug := pkg]);
      if Busy !in Hash(View(), d) { // HSETNX
        HSet(d, map[Busy := ""]);
      }
      GeoAdd(pkg, d, at);
      alive := alive + {d};
    }

    method UpdateLocation(d: DriverId, p: Point)
      modifies this
      ensures View() == DriverStore.UpdateLocation(old(View()), d, p)
    {
      if p.lat == 0.0 || p.lng == 0.0 { return; }
      if Slug !in Hash(View(), d) { return; }
      GeoAdd(Hash(View(), d)[Slug], d, p);
      alive := alive + {d};
    }

    method SetBusy(d: DriverId, t: TripId)
      modifies this`hashes
      ensures View() == DriverStore.SetBusy(old(View()), d, t)
    {
      HSet(d, map[Busy := t]);
    }

    method ClearBusy(d: DriverId, t: TripId)
      modifies this`hashes
      ensures View() == DriverStore.ClearBusy(old(View()), d, t)
    {
      if t == "" { return; }
      if Get(View(), d, Busy) == t {
        HSet(d, map[Busy := ""]);
      }
    }

    method GetBusyTripID(d: DriverId) returns (t: TripId)
      ensures t == BusyTrip(View(), d)
    {
      t := Get(View(), d, Busy);
    }

    method GoOffline(d: DriverId)
      modifies this
      ensures View() == DriverStore.GoOffline(old(View()), d)
    {
      alive := alive - {d};
      var pkg := Get(View(), d, Slug);
      if pkg != "" {
        ZRem(pkg, d);
      }
      if Get(View(), d, Busy) == "" {
        hashes := hashes - {d};
      }
    }

    /** GEOSEARCH with a radius, ascending, at most 100 entries. */
    method GeoSearch(pkg: PackageSlug, dist: Point -> real, radius: real) returns (res: seq<DriverId>)
      ensures IsGeoResult(Entries(View(), pkg), dist, radius, res)
    {
      var entries := Entries(View(), pkg);
      var left := set d | d in entries && Within(entries, dist, radius, d);
      res := [];
      while left != {} && |res| < SEARCH_COUNT
        invariant |res| <= SEARCH_COUNT
        invariant forall d | d in left :: Within(entries, dist, radius, d) && d !in res
        invariant forall i | 0 <= i < |res| :: Within(entries, dist, radius, res[i])
        invariant forall d | Within(entries, dist, radius, d) :: d in left || d in res
        invariant forall i, d | 0 <= i < |res| && d in left :: dist(entries[res[i]]) <= dist(entries[d])
        invariant forall i, j | 0 <= i < j < |res| :: res[i] != res[j] && dist(entries[res[i]]) <= dist(entries[res[j]])
        decreases |left|
      {
        ghost var nearest := NearestExists(left, entries, dist);
        var d :| d in left && forall e | e in left :: dist(entries[d]) <= dist(entries[e]);
        res := res + [d];
        left := left - {d};
      }
    }

    /** One ring: the eligible drivers of the result, reaping the dead ones on the way. */
    method ScanRing(pkg: PackageSlug, excluded: set<DriverId>, ring: seq<DriverId>) returns (drivers: seq<DriverId>)
      modifies this
      ensures drivers == Candidates(old(View()), excluded, ring)
      ensures Cleaned(old(View()), View(), pkg, excluded, set d | d in ring)
    {
      drivers := [];
      for i := 0 to |ring|
        invariant Cleaned(old(View()), View(), pkg, excluded, set d | d in ring[..i])
        invariant drivers == Candidates(old(View()), excluded, ring[..i])
      {
        drivers := ScanOne(pkg, excluded, ring[i], drivers, old(View()), ring[..i]);
        assert ring[..i + 1] == ring[..i] + [ring[i]];
      }
      assert ring[..|ring|] == ring;
    }

    /** The body of the loop, after the drivers `before` of the state `start`. */
    method ScanOne(pkg: PackageSlug, excluded: set<DriverId>, d: DriverId, drivers: seq<DriverId>, ghost start: State,
                   ghost before: seq<DriverId>)
      returns (drivers': seq<DriverId>)
      requires Cleaned(start, View(), pkg, excluded, set x | x in before)
      requires drivers == Candidates(start, excluded, before)
      modifies this
      ensures Cleaned(start, View(), pkg, excluded, set x | x in before + [d])
      ensures drivers' == Candidates(start, excluded, before + [d])
    {
      drivers' := drivers;
      ScannedOne(start, View(), pkg, excluded, before, d);
      if d in excluded { return; }
      if Get(View(), d, Name) == "" { return; }
      if d !in alive {
        var busy := Get(View(), d, Busy);
        ZRem(pkg, d);
        if busy == "" {
          hashes := hashes - {d};
        }
        return;
      }
      if Get(View(), d, Busy) != "" { return; }
      drivers' := drivers + [d];
    }

    /** One ring of the search that began at `start` and has `scanned` so far. */
    method SearchRing(pkg: PackageSlug, dist: Point -> real, excluded: set<DriverId>, radius: real, ghost start: State,
                      ghost scanned: set<DriverId>)
      returns (drivers: seq<DriverId>, ghost mid: State, ghost ring: seq<DriverId>, ghost scanned': set<DriverId>)
      requires Cleaned(start, View(), pkg, excluded, scanned)
      modifies this
      ensures InRing(start, mid, pkg, dist, excluded, radius, ring, drivers)
      ensures drivers == [] ==> NoneVisible(start, pkg, dist, excluded, radius)
      ensures Cleaned(start, View(), pkg, excluded, scanned') && forall d | d in ring :: d in scanned'
    {
      CleanedIsReaped(start, View(), pkg, excluded, scanned);
      var res := GeoSearch(pkg, dist, radius);
      mid, ring, scanned' := View(), res, scanned + set d | d in res;
      SameCandidates(start, mid, pkg, excluded, res);
      drivers := ScanRing(pkg, excluded, res);
      CleanedTwice(start, mid, View(), pkg, excluded, scanned, set d | d in res);
      if drivers == [] { EmptyRingHides(start, mid, pkg, dist, excluded, radius, res); }
    }

    /** Rings of 5, 25, 100, 500 and 1500 km around the pickup, until one holds an eligible driver. The ghost results
        name the ring that decided, the geo set it was cut from, and all that was scanned. */
    method FindAvailableDrivers(pkg: PackageSlug, dist: Point -> real, excludeIds: seq<DriverId>)
      returns (drivers: seq<DriverId>, ghost mid: State, ghost k: nat, ghost ring: seq<DriverId>,
               ghost scanned: set<DriverId>)
      modifies this
      ensures FoundIn(old(View()), mid, pkg, dist, (set d | d in excludeIds), k, ring, drivers)
      ensures Cleaned(old(View()), View(), pkg, (set d | d in excludeIds), scanned)
      ensures forall d | d in ring :: d in scanned
    {
      var excluded := set d | d in excludeIds;
      ghost var start := View();
      var i := 0;
      mid, k, ring, drivers, scanned := start, 0, [], [], {};
      while i < |RADII|
        invariant 0 <= i <= |RADII| && NoneBefore(start, pkg, dist, excluded, i)
        invariant Cleaned(start, View(), pkg, excluded, scanned) && forall d | d in ring :: d in scanned
        invariant i > 0 ==> k == i - 1 && drivers == [] && InRing(start, mid, pkg, dist, excluded, RADII[k], ring, [])
      {
        k := i;
        drivers, mid, ring, scanned := SearchRing(pkg, dist, excluded, RADII[i], start, scanned);
        if drivers != [] {
          return;
        }
        OneRingMore(start, pkg, dist, excluded, i);
        i := i + 1;
      }
    }
  }

  /** One more driver is scanned, judged by the store as it is by then. */
  lemma ScannedOne(start: State, now: State, pkg: PackageSlug, excluded: set<DriverId>, before: seq<DriverId>,
      d: DriverId)
    requires Cleaned(start, now, pkg, excluded, set x | x in before)
    ensures Cleaned(start, if Dead(now, excluded, d) then Reap(now, pkg, d) else now, pkg, excluded,
                    set x | x in before + [d])
    ensures Candidates(start, excluded, before + [d]) ==
            Candidates(start, excluded, before) + if Eligible(now, excluded, d) then [d] else []
  {
    ReapCleans(now, pkg, excluded, d);
    CleanedTwice(start, now, if Dead(now, excluded, d) then Reap(now, pkg, d) else now, pkg, excluded,
                 set x | x in before, {d});
    assert (set x | x in before + [d]) == (set x | x in before) + {d};
    CleanedIsReaped(start, now, pkg, excluded, set x | x in before);
    ReapedKeepsEligible(start, now, pkg, excluded, d);
    assert (before + [d])[..|before|] == before;
  }

  lemma {:induction false} SameCandidates(s: State, s': State, pkg: PackageSlug, excluded: set<DriverId>,
      ring: seq<DriverId>)
    requires Reaped(s, s', pkg)
    ensures Candidates(s', excluded, ring) == Candidates(s, excluded, ring)
  {
    if ring != [] {
      SameCandidates(s, s', pkg, excluded, ring[..|ring| - 1]);
      ReapedKeepsEligible(s, s', pkg, excluded, ring[|ring| - 1]);
    }
  }
}
