/**
 The driver store: per driver a Redis hash and a heartbeat key, per package a geo set, and the expanding-ring
 search for the nearest available driver.
 */
module DriverStore {

  type DriverId = string
  type PackageSlug = string
  type TripId = string

  datatype Point = Point(lat: real, lng: real)

  datatype Field = Name | Slug | Busy

  /** A hash without fields does not exist. `alive` are the drivers whose heartbeat key has not expired. */
  datatype State = State(
    hashes: map<DriverId, map<Field, string>>,
    geo: map<PackageSlug, map<DriverId, Point>>,
    alive: set<DriverId>)

  const Initial: State := State(map[], map[], {})

  // ---------------------------------------------------------------- reading

  function Hash(s: State, d: DriverId): map<Field, string> {
    if d in s.hashes then s.hashes[d] else map[]
  }

  /** HGET, with the empty string for a missing field. */
  function Get(s: State, d: DriverId, f: Field): string {
    if f in Hash(s, d) then Hash(s, d)[f] else ""
  }

  function BusyTrip(s: State, d: DriverId): TripId {
    Get(s, d, Busy)
  }

  function Entries(s: State, pkg: PackageSlug): map<DriverId, Point> {
    if pkg in s.geo then s.geo[pkg] else map[]
  }

  // ---------------------------------------------------------------- writing

  function SetFields(s: State, d: DriverId, fields: map<Field, string>): State {
    s.(hashes := s.hashes[d := Hash(s, d) + fields])
  }

  function GeoAdd(s: State, pkg: PackageSlug, d: DriverId, p: Point): State {
    s.(geo := s.geo[pkg := Entries(s, pkg)[d := p]])
  }

  function GeoRemove(s: State, pkg: PackageSlug, d: DriverId): State {
    s.(geo := s.geo[pkg := Entries(s, pkg) - {d}])
  }

  function DeleteHash(s: State, d: DriverId): State {
    s.(hashes := s.hashes - {d})
  }

  /** Registering never overwrites a busy marker; without a position a demo location is used. */
  function RegisterDriver(s: State, d: DriverId, pkg: PackageSlug, name: string, p: Point, demo: Point): State {
    var s1 := SetFields(s, d, map[Name := if name == "" then "Driver" else name, Slug := pkg]);
    var s2 := if Busy in Hash(s1, d) then s1 else SetFields(s1, d, map[Busy := ""]);
    var s3 := GeoAdd(s2, pkg, d, if p.lat == 0.0 || p.lng == 0.0 then demo else p);
    s3.(alive := s3.alive + {d})
  }

  function UpdateLocation(s: State, d: DriverId, p: Point): State {
    if p.lat == 0.0 || p.lng == 0.0 || Slug !in Hash(s, d) then s
    else
      var s' := GeoAdd(s, Hash(s, d)[Slug], d, p);
      s'.(alive := s'.alive + {d})
  }

  function SetBusy(s: State, d: DriverId, t: TripId): State {
    SetFields(s, d, map[Busy := t])
  }

  /** Frees the driver only if the marker still names this trip. */
  function ClearBusy(s: State, d: DriverId, t: TripId): State {
    if t != "" && BusyTrip(s, d) == t then SetFields(s, d, map[Busy := ""]) else s
  }

  function GoOffline(s: State, d: DriverId): State {
    var s1 := s.(alive := s.alive - {d});
    var pkg := Get(s1, d, Slug);
    var s2 := if pkg != "" then GeoRemove(s1, pkg, d) else s1;
    if BusyTrip(s2, d) == "" then DeleteHash(s2, d) else s2
  }

  function ExpireHeartbeat(s: State, d: DriverId): State {
    s.(alive := s.alive - {d})
  }

  /** A driver found without a heartbeat leaves the geo set, and its hash too unless it is on a trip. */
  function Reap(s: State, pkg: PackageSlug, d: DriverId): State {
    var s' := GeoRemove(s, pkg, d);
    if BusyTrip(s', d) == "" then DeleteHash(s', d) else s'
  }

  // ---------------------------------------------------------------- the ring search

  const RADII: seq<real> := [5.0, 25.0, 100.0, 500.0, 1500.0]
  const SEARCH_COUNT: nat := 100

  /** Available for an offer: not excluded, registered, heartbeat alive, and not on a trip. */
  predicate Eligible(s: State, excluded: set<DriverId>, d: DriverId) {
    d !in excluded && Get(s, d, Name) != "" && d in s.alive && BusyTrip(s, d) == ""
  }

  predicate Within(entries: map<DriverId, Point>, dist: Point -> real, radius: real, d: DriverId) {
    d in entries && dist(entries[d]) <= radius
  }

  /** A result of GEOSEARCH ... ASC COUNT 100: the nearest entries of the ring in ascending distance; ties in any
      order. */
  ghost predicate IsGeoResult(entries: map<DriverId, Point>, dist: Point -> real, radius: real, res: seq<DriverId>) {
    && |res| <= SEARCH_COUNT
    && (forall i | 0 <= i < |res| :: Within(entries, dist, radius, res[i]))
    && (forall i, j | 0 <= i < j < |res| :: res[i] != res[j] && dist(entries[res[i]]) <= dist(entries[res[j]]))
    && (forall d | Within(entries, dist, radius, d) && d !in res ::
          |res| == SEARCH_COUNT && forall i | 0 <= i < |res| :: dist(entries[res[i]]) <= dist(entries[d]))
  }

  /** The eligible drivers of a list, in order. */
  function Candidates(s: State, excluded: set<DriverId>, ring: seq<DriverId>): seq<DriverId> {
    if ring == [] then []
    else
      var before, d := Candidates(s, excluded, ring[..|ring| - 1]), ring[|ring| - 1];
      if Eligible(s, excluded, d) then before + [d] else before
  }

  lemma {:induction false} CandidatesInOrder(s: State, excluded: set<DriverId>, ring: seq<DriverId>,
      dist: DriverId -> real)
    requires forall i, j | 0 <= i < j < |ring| :: ring[i] != ring[j] && dist(ring[i]) <= dist(ring[j])
    ensures var c := Candidates(s, excluded, ring);
            && (forall d :: d in c <==> d in ring && Eligible(s, excluded, d))
            && (forall i, j | 0 <= i < j < |c| :: c[i] != c[j] && dist(c[i]) <= dist(c[j]))
  {
    if ring != [] {
      var front, last := ring[..|ring| - 1], ring[|ring| - 1];
      CandidatesInOrder(s, excluded, front, dist);
      forall x | x in front ensures x != last && dist(x) <= dist(last) {
        var i :| 0 <= i < |front| && front[i] == x;
        assert ring[i] == x;
      }
      var c := Candidates(s, excluded, front);
      forall i | 0 <= i < |c| ensures c[i] != last && dist(c[i]) <= dist(last) {
        assert c[i] in c;
      }
    }
  }

  /** `s'` is `s` after some dead drivers were reaped from the geo set of `pkg`: a living driver keeps its entry and its
      hash, other packages are untouched, and no busy marker is lost. */
  ghost predicate Reaped(s: State, s': State, pkg: PackageSlug) {
    && s'.alive == s.alive
    && (forall q | q != pkg :: Entries(s', q) == Entries(s, q))
    && (forall d | d in Entries(s', pkg) :: d in Entries(s, pkg) && Entries(s', pkg)[d] == Entries(s, pkg)[d])
    && (forall d | d in Entries(s, pkg) && d in s.alive :: d in Entries(s', pkg))
    && (forall d :: Hash(s', d) == Hash(s, d) || (d !in s.alive && BusyTrip(s, d) == "" && Hash(s', d) == map[]))
  }

  lemma ReapedTransitive(s: State, s1: State, s2: State, pkg: PackageSlug)
    requires Reaped(s, s1, pkg) && Reaped(s1, s2, pkg)
    ensures Reaped(s, s2, pkg)
  {
  }

  lemma ReapIsReaped(s: State, pkg: PackageSlug, d: DriverId)
    requires d !in s.alive
    ensures Reaped(s, Reap(s, pkg, d), pkg)
  {
  }

  /** Reaping never makes an eligible driver ineligible, nor the other way round, and frees nobody. */
  lemma ReapedKeepsEligible(s: State, s': State, pkg: PackageSlug, excluded: set<DriverId>, d: DriverId)
    requires Reaped(s, s', pkg)
    ensures Eligible(s', excluded, d) <==> Eligible(s, excluded, d)
    ensures BusyTrip(s', d) == BusyTrip(s, d)
    ensures d in Entries(s, pkg) && Eligible(s, excluded, d) ==> d in Entries(s', pkg)
  {
  }

  /** A hundred entries that may not be offered a trip lie at least as near as `e`, and so hide it from the search. */
  ghost predicate Hidden(s: State, pkg: PackageSlug, dist: Point -> real, excluded: set<DriverId>, e: DriverId)
    requires e in Entries(s, pkg)
  {
    exists near: seq<DriverId> ::
      && |near| == 100
      && (forall i, j | 0 <= i < j < |near| :: near[i] != near[j])
      && (forall i | 0 <= i < |near| ::
            near[i] in Entries(s, pkg) && dist(Entries(s, pkg)[near[i]]) <= dist(Entries(s, pkg)[e])
            && !Eligible(s, excluded, near[i]))
  }

  /** Every eligible driver within the radius is hidden. */
  ghost predicate NoneVisible(s: State, pkg: PackageSlug, dist: Point -> real, excluded: set<DriverId>, radius: real) {
    forall e | e in Entries(s, pkg) && Eligible(s, excluded, e) && dist(Entries(s, pkg)[e]) <= radius ::
      Hidden(s, pkg, dist, excluded, e)
  }

  /** A ring without an eligible driver shows that every one in it is hidden. */
  lemma EmptyRingHides(s: State, mid: State, pkg: PackageSlug, dist: Point -> real, excluded: set<DriverId>,
                       radius: real, ring: seq<DriverId>)
    requires Reaped(s, mid, pkg) && IsGeoResult(Entries(mid, pkg), dist, radius, ring)
    requires Candidates(s, excluded, ring) == []
    ensures NoneVisible(s, pkg, dist, excluded, radius)
  {
    var entries := Entries(mid, pkg);
    assert forall i | 0 <= i < |ring| :: Within(entries, dist, radius, ring[i]);
    CandidatesInOrder(s, excluded, ring, (d: DriverId) => if d in entries then dist(entries[d]) else 0.0);
    forall e | e in Entries(s, pkg) && Eligible(s, excluded, e) && dist(Entries(s, pkg)[e]) <= radius
      ensures Hidden(s, pkg, dist, excluded, e)
    {
      ReapedKeepsEligible(s, mid, pkg, excluded, e);
      assert e !in ring;
      assert Within(entries, dist, radius, e);
      forall i | 0 <= i < |ring| ensures !Eligible(s, excluded, ring[i]) {
        assert ring[i] in ring;
      }
    }
  }

  /** The first `k` rings have nobody to offer. */
  ghost predicate NoneBefore(s: State, pkg: PackageSlug, dist: Point -> real, excluded: set<DriverId>, k: nat) {
    k <= |RADII| && forall j | 0 <= j < k :: NoneVisible(s, pkg, dist, excluded, RADII[j])
  }

  lemma OneRingMore(s: State, pkg: PackageSlug, dist: Point -> real, excluded: set<DriverId>, k: nat)
    requires k < |RADII| && NoneBefore(s, pkg, dist, excluded, k) && NoneVisible(s, pkg, dist, excluded, RADII[k])
    ensures NoneBefore(s, pkg, dist, excluded, k + 1)
  {
  }

  /** `ring` is the search result for this radius on a reaped set, and `drivers` its eligible part. */
  ghost predicate InRing(s: State, mid: State, pkg: PackageSlug, dist: Point -> real, excluded: set<DriverId>,
                         radius: real, ring: seq<DriverId>, drivers: seq<DriverId>) {
    && Reaped(s, mid, pkg)
    && IsGeoResult(Entries(mid, pkg), dist, radius, ring)
    && drivers == Candidates(s, excluded, ring)
  }

  /** What the search promises about the list it returns: `ring` is the result for radius number `k` on a reaped set,
      `drivers` its eligible part, the smaller rings had nobody to offer, and only the last ring may come out empty. */
  ghost predicate FoundIn(s: State, mid: State, pkg: PackageSlug, dist: Point -> real, excluded: set<DriverId>,
                          k: nat, ring: seq<DriverId>, drivers: seq<DriverId>) {
    && k < |RADII|
    && InRing(s, mid, pkg, dist, excluded, RADII[k], ring, drivers)
    && NoneBefore(s, pkg, dist, excluded, k)
    && (drivers == [] ==> k == |RADII| - 1)
  }

  /** The head is a closest eligible driver of the whole package, whatever the rings, the cap of 100 and the reaping. */
  lemma HeadIsClosestEligible(s: State, mid: State, pkg: PackageSlug, dist: Point -> real, excluded: set<DriverId>,
                              k: nat, ring: seq<DriverId>, drivers: seq<DriverId>)
    requires FoundIn(s, mid, pkg, dist, excluded, k, ring, drivers) && drivers != []
    ensures drivers[0] in Entries(s, pkg) && Eligible(s, excluded, drivers[0])
    ensures forall e | e in Entries(s, pkg)
        && Eligible(s, excluded, e) :: dist(Entries(s, pkg)[drivers[0]]) <= dist(Entries(s, pkg)[e])
    ensures forall i, j | 0 <= i < j < |drivers| :: drivers[i] != drivers[j]
    ensures forall d | d in drivers :: d in Entries(s, pkg) && Eligible(s, excluded, d)
  {
    var entries := Entries(mid, pkg);
    var away := (d: DriverId) => if d in entries then dist(entries[d]) else 0.0;
    assert forall i | 0 <= i < |ring| :: Within(entries, dist, RADII[k], ring[i]);
    CandidatesInOrder(s, excluded, ring, away);
    var head := drivers[0];
    assert head in ring;
    forall e | e in Entries(s, pkg) && Eligible(s, excluded, e)
        ensures dist(Entries(s, pkg)[head]) <= dist(Entries(s, pkg)[e]) {
      ReapedKeepsEligible(s, mid, pkg, excluded, e);
      assert e in entries && entries[e] == Entries(s, pkg)[e];
      if e in ring {
        var i :| 0 <= i < |drivers| && drivers[i] == e;
        assert away(head) <= away(e);
      } else if dist(entries[e]) <= RADII[k] {
        assert Within(entries, dist, RADII[k], e);
      }
    }
    forall d | d in drivers ensures d in Entries(s, pkg) && Eligible(s, excluded, d) {
      assert d in ring;
    }
  }

  /** An empty result means that the nearest 100 entries of the largest ring held no eligible driver; so if at most 100
      entries lie in that ring, the package has no eligible driver in it. */
  lemma EmptyMeansNoneNear(s: State, mid: State, pkg: PackageSlug, dist: Point -> real, excluded: set<DriverId>,
                           k: nat, ring: seq<DriverId>, e: DriverId)
    requires FoundIn(s, mid, pkg, dist, excluded, k, ring, [])
    requires e in Entries(s, pkg) && Eligible(s, excluded, e) && dist(Entries(s, pkg)[e]) <= 1500.0
    ensures |ring| == 100 && forall i | 0 <= i < 100 ::
          dist(Entries(mid, pkg)[ring[i]]) <= dist(Entries(s, pkg)[e])
          && !Eligible(s, excluded, ring[i])
  {
    var entries := Entries(mid, pkg);
    ReapedKeepsEligible(s, mid, pkg, excluded, e);
    assert forall i | 0 <= i < |ring| :: Within(entries, dist, RADII[k], ring[i]);
    CandidatesInOrder(s, excluded, ring, (d: DriverId) => if d in entries then dist(entries[d]) else 0.0);
    assert e !in ring;
    assert Within(entries, dist, RADII[k], e);
    forall i | 0 <= i < |ring| ensures !Eligible(s, excluded, ring[i]) {
      assert ring[i] in ring;
    }
  }

  /** An eligible driver that is nearer than every other entry of its package is the one the search returns first. */
  lemma NearestIsFoundFirst(s: State, mid: State, pkg: PackageSlug, dist: Point -> real, excluded: set<DriverId>,
                            k: nat, ring: seq<DriverId>, drivers: seq<DriverId>, e: DriverId)
    requires FoundIn(s, mid, pkg, dist, excluded, k, ring, drivers)
    requires e in Entries(s, pkg) && Eligible(s, excluded, e) && dist(Entries(s, pkg)[e]) <= 1500.0
    requires forall x | x in Entries(s, pkg) && x != e :: dist(Entries(s, pkg)[e]) < dist(Entries(s, pkg)[x])
    ensures drivers != [] && drivers[0] == e
  {
    if drivers == [] {
      if ring != [] { assert Within(Entries(mid, pkg), dist, RADII[k], ring[0]) && ring[0] in Entries(s, pkg); }
      EmptyMeansNoneNear(s, mid, pkg, dist, excluded, k, ring, e);
      assert false;
    } else {
      HeadIsClosestEligible(s, mid, pkg, dist, excluded, k, ring, drivers);
    }
  }

  /** The smallest of the rings of 5, 25, 100, 500 and 1500 km that shows an eligible driver decides: if one within
      that radius is not hidden, the result is not empty and all of it lies within the radius. */
  lemma SmallestRingDecides(s: State, mid: State, pkg: PackageSlug, dist: Point -> real, excluded: set<DriverId>,
                            k: nat, ring: seq<DriverId>, drivers: seq<DriverId>, e: DriverId, radius: real)
    requires FoundIn(s, mid, pkg, dist, excluded, k, ring, drivers)
    requires radius == 5.0 || radius == 25.0 || radius == 100.0 || radius == 500.0 || radius == 1500.0
    requires e in Entries(s, pkg) && Eligible(s, excluded, e) && dist(Entries(s, pkg)[e]) <= radius
    requires !Hidden(s, pkg, dist, excluded, e)
    ensures drivers != []
    ensures forall d | d in drivers :: d in Entries(s, pkg) && dist(Entries(s, pkg)[d]) <= radius
  {
    assert RADII[0] == 5.0 && RADII[1] == 25.0 && RADII[2] == 100.0 && RADII[3] == 500.0 && RADII[4] == 1500.0;
    var j :| 0 <= j < 5 && RADII[j] == radius;
    assert j < k ==> NoneVisible(s, pkg, dist, excluded, RADII[j]);
    if drivers == [] { EmptyRingHides(s, mid, pkg, dist, excluded, RADII[k], ring); }
    var entries := Entries(mid, pkg);
    assert forall i | 0 <= i < |ring| :: Within(entries, dist, RADII[k], ring[i]);
    CandidatesInOrder(s, excluded, ring, (d: DriverId) => if d in entries then dist(entries[d]) else 0.0);
    forall d | d in drivers ensures d in Entries(s, pkg) && dist(Entries(s, pkg)[d]) <= radius {
      assert d in ring;
    }
  }

  // ---------------------------------------------------------------- what a search removes

  /** A registered driver whose heartbeat is gone. */
  predicate Dead(s: State, excluded: set<DriverId>, d: DriverId) {
    d !in excluded && Get(s, d, Name) != "" && d !in s.alive
  }

  /** Exactly the dead drivers among `scanned` lose their entry, and their hash too unless they are on a trip. */
  ghost predicate Cleaned(s: State, s': State, pkg: PackageSlug, excluded: set<DriverId>, scanned: set<DriverId>) {
    && s'.alive == s.alive
    && (forall q | q != pkg :: Entries(s', q) == Entries(s, q))
    && (forall d :: d in Entries(s', pkg) <==> d in Entries(s, pkg) && !(d in scanned && Dead(s, excluded, d)))
    && (forall d | d in Entries(s', pkg) :: Entries(s', pkg)[d] == Entries(s, pkg)[d])
    && (forall d :: Hash(s', d) ==
          if d in scanned && Dead(s, excluded, d) && BusyTrip(s, d) == "" then map[] else Hash(s, d))
  }

  lemma CleanedIsReaped(s: State, s': State, pkg: PackageSlug, excluded: set<DriverId>, scanned: set<DriverId>)
    requires Cleaned(s, s', pkg, excluded, scanned)
    ensures Reaped(s, s', pkg)
  {
  }

  lemma CleanedTwice(s: State, mid: State, s': State, pkg: PackageSlug, excluded: set<DriverId>, a: set<DriverId>,
      b: set<DriverId>)
    requires Cleaned(s, mid, pkg, excluded, a) && Cleaned(mid, s', pkg, excluded, b)
    ensures Cleaned(s, s', pkg, excluded, a + b)
  {
    forall d
      ensures Dead(mid, excluded, d) ==> Dead(s, excluded, d)
      ensures Dead(s, excluded, d) && !Dead(mid, excluded, d) ==> d in a && BusyTrip(s, d) == ""
    {
      assert Hash(mid, d) == Hash(s, d) || (d in a && Dead(s, excluded, d) && BusyTrip(s, d) == "");
    }
  }

  /** The scan of one driver. */
  lemma ReapCleans(s: State, pkg: PackageSlug, excluded: set<DriverId>, d: DriverId)
    ensures Cleaned(s, if Dead(s, excluded, d) then Reap(s, pkg, d) else s, pkg, excluded, {d})
  {
  }

  // ---------------------------------------------------------------- the busy marker

  datatype Op =
    | Register(d: DriverId, pkg: PackageSlug, name: string, p: Point, demo: Point)
    | Move(d: DriverId, p: Point)
    | Offline(d: DriverId)
    | Expire(d: DriverId)
    | Search(pkg: PackageSlug)
    | Mark(d: DriverId, t: TripId)
    | Clear(d: DriverId, t: TripId)

  ghost predicate Step(s: State, op: Op, s': State) {
    match op
    case Register(d, pkg, name, p, demo) => s' == RegisterDriver(s, d, pkg, name, p, demo)
    case Move(d, p) => s' == UpdateLocation(s, d, p)
    case Offline(d) => s' == GoOffline(s, d)
    case Expire(d) => s' == ExpireHeartbeat(s, d)
    case Search(pkg) => Reaped(s, s', pkg)
    case Mark(d, t) => s' == SetBusy(s, d, t)
    case Clear(d, t) => s' == ClearBusy(s, d, t)
  }

  /** The marker of a driver on trip `t` changes exactly when a clear names that trip or another trip is marked. */
  lemma BusyStep(s: State, op: Op, s': State, d: DriverId)
    requires Step(s, op, s') && BusyTrip(s, d) != ""
    ensures BusyTrip(s', d) == (if op == Clear(d, BusyTrip(s, d)) then "" else if op.Mark? && op.d == d then op.t
        else BusyTrip(s, d))
  {
  }

  /** A free driver becomes busy only by being marked. */
  lemma FreeStep(s: State, op: Op, s': State, d: DriverId)
    requires Step(s, op, s') && BusyTrip(s, d) == "" && !(op.Mark? && op.d == d)
    ensures BusyTrip(s', d) == ""
  {
  }

  lemma RegisteredAvailable(s: State, d: DriverId, pkg: PackageSlug, name: string, p: Point, demo: Point,
      excluded: set<DriverId>)
    ensures var r := RegisterDriver(s, d, pkg, name, p, demo);
            d in Entries(r, pkg) && (Eligible(r, excluded, d) <==> d !in excluded && BusyTrip(s, d) == "")
  {
  }

  lemma RegisterAffectsNoOther(s: State, d: DriverId, pkg: PackageSlug, name: string, p: Point, demo: Point,
      excluded: set<DriverId>, e: DriverId)
    requires e != d
    ensures Eligible(RegisterDriver(s, d, pkg, name, p, demo), excluded, e) <==> Eligible(s, excluded, e)
  {
    assert Hash(RegisterDriver(s, d, pkg, name, p, demo), e) == Hash(s, e);
  }

  lemma LeavingAffectsNoOther(s: State, d: DriverId, excluded: set<DriverId>, e: DriverId)
    ensures Eligible(GoOffline(s, d), excluded, e) <==> e != d && Eligible(s, excluded, e)
    ensures Eligible(ExpireHeartbeat(s, d), excluded, e) <==> e != d && Eligible(s, excluded, e)
  {
    if e != d { assert Hash(GoOffline(s, d), e) == Hash(s, e); }
  }

  lemma MovingAffectsNobody(s: State, d: DriverId, p: Point, excluded: set<DriverId>, e: DriverId)
    requires e != d || d in s.alive
    ensures Eligible(UpdateLocation(s, d, p), excluded, e) <==> Eligible(s, excluded, e)
  {
  }

  /** Who can be offered a trip: a registered driver exactly if it is free, a driver that went offline or lost its
      heartbeat never, a living driver that moved as before. Nobody else is affected. */
  lemma AvailabilityAfter(s: State, d: DriverId, pkg: PackageSlug, name: string, p: Point, demo: Point,
      excluded: set<DriverId>, e: DriverId)
    ensures var r := RegisterDriver(s, d, pkg, name, p, demo);
            && d in Entries(r, pkg)
            && (Eligible(r, excluded, e) <==>
                  if e == d then d !in excluded && BusyTrip(s, d) == "" else Eligible(s, excluded, e))
    ensures Eligible(GoOffline(s, d), excluded, e) <==> e != d && Eligible(s, excluded, e)
    ensures Eligible(ExpireHeartbeat(s, d), excluded, e) <==> e != d && Eligible(s, excluded, e)
    ensures e != d || d in s.alive ==> (Eligible(UpdateLocation(s, d, p), excluded, e) <==> Eligible(s, excluded, e))
  {
    RegisteredAvailable(s, d, pkg, name, p, demo, excluded);
    LeavingAffectsNoOther(s, d, excluded, e);
    if e != d { RegisterAffectsNoOther(s, d, pkg, name, p, demo, excluded, e); }
    if e != d || d in s.alive { MovingAffectsNobody(s, d, p, excluded, e); }
  }

  /** The marker survives any sequence of registrations, moves, going offline, heartbeat expiry, searches with reaping,
      and clears for other trips. */
  lemma {:induction false} BusySurvives(states: seq<State>, ops: seq<Op>, d: DriverId, t: TripId)
    requires |states| == |ops| + 1 && forall i | 0 <= i < |ops| :: Step(states[i], ops[i], states[i + 1])
    requires t != "" && BusyTrip(states[0], d) == t
    requires forall i | 0 <= i < |ops| :: ops[i] != Clear(d, t) && (ops[i].Mark? && ops[i].d == d ==> ops[i].t == t)
    ensures BusyTrip(states[|ops|], d) == t
  {
    if ops != [] {
      var n := |ops| - 1;
      BusySurvives(states[..n + 1], ops[..n], d, t);
      BusyStep(states[n], ops[n], states[n + 1], d);
    }
  }

  // ---------------------------------------------------------------- a driver under two packages

  /** Registering adds an entry and removes none: who can be found under `q` afterwards, as a condition on the state
      before the call. */
  lemma RegisteredUnderIff(s: State, d: DriverId, pkg: PackageSlug, name: string, p: Point, demo: Point,
      excluded: set<DriverId>, q: PackageSlug)
    ensures var r := RegisterDriver(s, d, pkg, name, p, demo);
            && (d in Entries(r, q) && Eligible(r, excluded, d)
                <==> (q == pkg || d in Entries(s, q)) && d !in excluded && BusyTrip(s, d) == "")
            && (q != pkg ==> Entries(r, q) == Entries(s, q))
    ensures (forall x :: d in Entries(RegisterDriver(s, d, pkg, name, p, demo), x) ==> x == pkg)
            <==> (forall x :: d in Entries(s, x) ==> x == pkg)
  {
    var r := RegisterDriver(s, d, pkg, name, p, demo);
    RegisteredAvailable(s, d, pkg, name, p, demo, excluded);
    forall x ensures x != pkg ==> Entries(r, x) == Entries(s, x) {}
    if x :| x != pkg && d in Entries(s, x) { assert d in Entries(r, x); }
  }

  lemma RegisteredSlug(s: State, d: DriverId, pkg: PackageSlug, name: string, p: Point, demo: Point)
    ensures var r := RegisterDriver(s, d, pkg, name, p, demo);
            Get(r, d, Slug) == pkg && BusyTrip(r, d) == BusyTrip(s, d) && d in Entries(r, pkg)
  {
  }

  /** A free driver that registers under another package still heads every search of the old one that it is the nearest
      to: the search returns a driver that no longer drives that package. */
  lemma OldPackageStillOffers(s: State, d: DriverId, pkg: PackageSlug, name: string, p: Point, demo: Point,
      q: PackageSlug, mid: State, dist: Point -> real, excluded: set<DriverId>, k: nat, ring: seq<DriverId>,
      drivers: seq<DriverId>)
    requires d in Entries(s, q) && q != pkg && d !in excluded && BusyTrip(s, d) == ""
    requires dist(Entries(s, q)[d]) <= 1500.0
    requires forall e | e in Entries(s, q) && e != d :: dist(Entries(s, q)[d]) < dist(Entries(s, q)[e])
    requires FoundIn(RegisterDriver(s, d, pkg, name, p, demo), mid, q, dist, excluded, k, ring, drivers)
    ensures drivers != [] && drivers[0] == d
    ensures Get(RegisterDriver(s, d, pkg, name, p, demo), d, Slug) == pkg
  {
    var r := RegisterDriver(s, d, pkg, name, p, demo);
    RegisteredUnderIff(s, d, pkg, name, p, demo, excluded, q);
    RegisteredSlug(s, d, pkg, name, p, demo);
    NearestIsFoundFirst(r, mid, q, dist, excluded, k, ring, drivers, d);
  }

  /** The entry under `q` goes away only when the driver goes offline while registered under `q`, or when a search of
      `q` meets it without a heartbeat; the first always removes it. */
  lemma EntryStep(s: State, op: Op, s': State, d: DriverId, q: PackageSlug)
    requires Step(s, op, s') && d in Entries(s, q)
    ensures op == Offline(d) && q != "" && Get(s, d, Slug) == q ==> d !in Entries(s', q)
    ensures d !in Entries(s', q) ==>
              || (op == Offline(d) && q != "" && Get(s, d, Slug) == q)
              || (op == Search(q) && d !in s.alive)
  {
    if op == Search(q) && d in s.alive { assert d in Entries(s', q); }
  }

  lemma OfflineLeavesOtherPackages(s: State, d: DriverId, q: PackageSlug)
    requires Get(s, d, Slug) != q && BusyTrip(s, d) == ""
    ensures Entries(GoOffline(s, d), q) == Entries(s, q) && BusyTrip(GoOffline(s, d), d) == ""
  {
    FreeStep(s, Offline(d), GoOffline(s, d), d);
  }

  /** So going offline does not undo it: once registered under another package, a free driver that leaves and comes back
      is again found under both. */
  lemma OfflineKeepsOldEntry(s: State, d: DriverId, pkg: PackageSlug, name: string, p: Point, demo: Point,
      q: PackageSlug, excluded: set<DriverId>)
    requires d in Entries(s, q) && q != pkg && d !in excluded && BusyTrip(s, d) == ""
    ensures var back := RegisterDriver(GoOffline(RegisterDriver(s, d, pkg, name, p, demo), d), d, pkg, name, p, demo);
            && d in Entries(back, q) && d in Entries(back, pkg) && Eligible(back, excluded, d)
            && Entries(back, q)[d] == Entries(s, q)[d]
  {
    var r := RegisterDriver(s, d, pkg, name, p, demo);
    RegisteredUnderIff(s, d, pkg, name, p, demo, excluded, q);
    RegisteredSlug(s, d, pkg, name, p, demo);
    OfflineLeavesOtherPackages(r, d, q);
    RegisteredUnderIff(GoOffline(r, d), d, pkg, name, p, demo, excluded, q);
    RegisteredSlug(GoOffline(r, d), d, pkg, name, p, demo);
  }
}
