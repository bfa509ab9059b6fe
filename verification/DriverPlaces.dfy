/**
 What registering, moving and leaving write into the store, and how the next search sees it: a driver is found where it
 says it is.
 */
module DriverPlaces {
  import opened DriverStore

  /** The geo entries of `s'` are those of `s`, except that of driver `d` under `pkg`. */
  ghost predicate OnlyEntry(s: State, s': State, pkg: PackageSlug, d: DriverId) {
    forall q, x | !(q == pkg && x == d) ::
      && (x in Entries(s', q) <==> x in Entries(s, q))
      && (x in Entries(s, q) ==> Entries(s', q)[x] == Entries(s, q)[x])
  }

  ghost predicate OnlyHash(s: State, s': State, d: DriverId) {
    forall x | x != d :: Hash(s', x) == Hash(s, x)
  }

  /** The position counts only if both coordinates are given. */
  predicate Given(p: Point) {
    p.lat != 0.0 && p.lng != 0.0
  }

  // ---------------------------------------------------------------- what is written

  /** A registration stores the driver at its own position, or at the demo location without one, and no other entry
      changes. */
  lemma RegisteredAt(s: State, d: DriverId, pkg: PackageSlug, name: string, p: Point, demo: Point)
    ensures var s' := RegisterDriver(s, d, pkg, name, p, demo);
            && d in Entries(s', pkg) && (Given(p) ==> Entries(s', pkg)[d] == p)
            && (!Given(p) ==> Entries(s', pkg)[d] == demo)
            && OnlyEntry(s, s', pkg, d)
  {
  }

  /** Its hash then holds its name and package and its marker as it was, and its heartbeat starts; no other driver
      changes. */
  lemma RegisteredAs(s: State, d: DriverId, pkg: PackageSlug, name: string, p: Point, demo: Point)
    ensures var s' := RegisterDriver(s, d, pkg, name, p, demo);
            && Get(s', d, Slug) == pkg && Get(s', d, Name) == (if name == "" then "Driver" else name)
            && Busy in Hash(s', d) && BusyTrip(s', d) == BusyTrip(s, d)
            && s'.alive == s.alive + {d} && OnlyHash(s, s', d)
  {
  }

  /** A move of a registered driver stores the new position under its own package and renews the heartbeat; a move
      without a position or by an unknown driver changes nothing. */
  lemma MovedTo(s: State, d: DriverId, p: Point)
    ensures var s' := UpdateLocation(s, d, p);
            if Given(p) && Slug in Hash(s, d) then
              var pkg := Get(s, d, Slug);
              && d in Entries(s', pkg) && Entries(s', pkg)[d] == p && s'.hashes == s.hashes
              && s'.alive == s.alive + {d} && OnlyEntry(s, s', pkg, d)
            else s' == s
  {
  }

  /** Going offline takes the driver out of its package and ends its heartbeat; the hash goes exactly if it is free. */
  lemma LeftAs(s: State, d: DriverId)
    ensures var s', pkg := GoOffline(s, d), Get(s, d, Slug);
            && (d in Entries(s', pkg) <==> pkg == "" && d in Entries(s, ""))
            && (pkg == "" && d in Entries(s, "") ==> Entries(s', "")[d] == Entries(s, "")[d])
            && OnlyEntry(s, s', pkg, d) && s'.alive == s.alive - {d}
            && Hash(s', d) == (if BusyTrip(s, d) == "" then map[] else Hash(s, d)) && OnlyHash(s, s', d)
  {
  }

  /** Marking and clearing touch one field of one hash. */
  lemma MarkedAs(s: State, d: DriverId, t: TripId)
    ensures var s' := SetBusy(s, d, t);
            && BusyTrip(s', d) == t && s'.geo == s.geo && s'.alive == s.alive && OnlyHash(s, s', d)
            && Get(s', d, Name) == Get(s, d, Name) && Get(s', d, Slug) == Get(s, d, Slug)
    ensures var s' := ClearBusy(s, d, t);
            && BusyTrip(s', d) == (if BusyTrip(s, d) == t then "" else BusyTrip(s, d))
            && s'.geo == s.geo && s'.alive == s.alive && OnlyHash(s, s', d)
            && Get(s', d, Name) == Get(s, d, Name) && Get(s', d, Slug) == Get(s, d, Slug)
  {
  }

  // ---------------------------------------------------------------- what the next search sees

  /** Nobody else in the package is as near as the point `p`. */
  ghost predicate NearestAt(s: State, pkg: PackageSlug, dist: Point -> real, d: DriverId, p: Point) {
    dist(p) <= 1500.0 && forall x | x in Entries(s, pkg) && x != d :: dist(p) < dist(Entries(s, pkg)[x])
  }

  /** A free driver that registers at `p`, nearer than every other entry of the package, heads the next search. */
  lemma RegisteredIsFoundThere(s: State, d: DriverId, pkg: PackageSlug, name: string, p: Point, demo: Point, mid: State,
      dist: Point -> real, excluded: set<DriverId>, k: nat, ring: seq<DriverId>, drivers: seq<DriverId>)
    requires Given(p) && NearestAt(s, pkg, dist, d, p) && BusyTrip(s, d) == "" && d !in excluded
    requires FoundIn(RegisterDriver(s, d, pkg, name, p, demo), mid, pkg, dist, excluded, k, ring, drivers)
    ensures drivers != [] && drivers[0] == d
  {
    RegisteredAt(s, d, pkg, name, p, demo);
    RegisteredAs(s, d, pkg, name, p, demo);
    NearestIsFoundFirst(RegisterDriver(s, d, pkg, name, p, demo), mid, pkg, dist, excluded, k, ring, drivers, d);
  }

  /** So does a free registered driver that moves there. */
  lemma MovedIsFoundThere(s: State, d: DriverId, p: Point, mid: State, dist: Point -> real, excluded: set<DriverId>,
      k: nat, ring: seq<DriverId>, drivers: seq<DriverId>)
    requires Given(p) && Slug in Hash(s, d) && NearestAt(s, Get(s, d, Slug), dist, d, p)
    requires Get(s, d, Name) != "" && BusyTrip(s, d) == "" && d !in excluded
    requires FoundIn(UpdateLocation(s, d, p), mid, Get(s, d, Slug), dist, excluded, k, ring, drivers)
    ensures drivers != [] && drivers[0] == d
  {
    MovedTo(s, d, p);
    NearestIsFoundFirst(UpdateLocation(s, d, p), mid, Get(s, d, Slug), dist, excluded, k, ring, drivers, d);
  }

  /** And a driver elsewhere is not: with another eligible driver strictly nearer, it is not the first result. */
  lemma FartherIsNotFirst(s: State, mid: State, pkg: PackageSlug, dist: Point -> real, excluded: set<DriverId>, k: nat,
      ring: seq<DriverId>, drivers: seq<DriverId>, d: DriverId, e: DriverId)
    requires FoundIn(s, mid, pkg, dist, excluded, k, ring, drivers) && drivers != []
    requires d in Entries(s, pkg) && e in Entries(s, pkg) && Eligible(s, excluded, e)
    requires dist(Entries(s, pkg)[e]) < dist(Entries(s, pkg)[d])
    ensures drivers[0] != d
  {
    HeadIsClosestEligible(s, mid, pkg, dist, excluded, k, ring, drivers);
  }

  /** Nobody is found without a stored hash and name, without a heartbeat, marked with a trip, or excluded. */
  lemma FoundIsAvailable(s: State, mid: State, pkg: PackageSlug, dist: Point -> real, excluded: set<DriverId>, k: nat,
      ring: seq<DriverId>, drivers: seq<DriverId>, d: DriverId)
    requires FoundIn(s, mid, pkg, dist, excluded, k, ring, drivers) && d in drivers
    ensures d in s.hashes && Name in s.hashes[d] && s.hashes[d][Name] != "" && d in s.alive && d !in excluded
    ensures Busy in s.hashes[d] ==> s.hashes[d][Busy] == ""
  {
    HeadIsClosestEligible(s, mid, pkg, dist, excluded, k, ring, drivers);
  }

  /** After a search, no dead registered driver is left in the ring that decided, except excluded ones. */
  lemma NoDeadDriverLeft(s: State, s': State, pkg: PackageSlug, excluded: set<DriverId>, scanned: set<DriverId>,
      d: DriverId)
    requires Cleaned(s, s', pkg, excluded, scanned) && d in scanned && d !in excluded
    ensures d in Entries(s', pkg) ==> d in s'.alive || Get(s', d, Name) == ""
  {
  }
}
