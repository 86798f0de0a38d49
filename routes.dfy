/** The server's airspace logic: the even-odd point-in-polygon test, the
    `/api/airspace/check` conflict loop, and the drone guard of
    `POST /api/missions`. HTTP plumbing (status codes, request parsing) is
    reduced to result datatypes. */
module Routes {
  import opened Wrappers
  import opened Schema
  import opened Storage
  import OM = OrderedMap

  // ---------------------------------------------------------------------
  // Point in polygon
  // ---------------------------------------------------------------------

  /** The loop's `j`: the vertex before `i`, wrapping from the first vertex
      to the last. Edge `i` runs from vertex `Prev(i, n)` to vertex `i`. */
  function Prev(i: nat, n: nat): (j: nat)
    requires i < n
    ensures j < n && (i == 0 <==> j == n - 1)
  {
    if i == 0 then n - 1 else i - 1
  }

  /** The test applied to edge (vj, vi): the edge straddles the point's
      latitude (one end strictly above, the other not) and the point lies
      strictly west of where the edge meets that latitude. The division is
      evaluated only once the straddle test holds, when `vj.lat != vi.lat`. */
  predicate EdgeCrosses(pt: Coordinate, vi: Coordinate, vj: Coordinate)
  {
    && (vi.lat > pt.lat) != (vj.lat > pt.lat)
    && pt.lng < (vj.lng - vi.lng) * (pt.lat - vi.lat) / (vj.lat - vi.lat) + vi.lng
  }

  predicate EdgeCrossesAt(pt: Coordinate, poly: seq<Coordinate>, i: nat)
    requires i < |poly|
  {
    EdgeCrosses(pt, poly[i], poly[Prev(i, |poly|)])
  }

  /** The indices of the ring's edges that the eastward ray from `pt` crosses. */
  function CrossingEdges(pt: Coordinate, poly: seq<Coordinate>, k: nat): set<nat>
    requires k <= |poly|
  {
    set i: nat | i < k && EdgeCrossesAt(pt, poly, i)
  }

  /** The flag after the first `k` edges: false at the start and flipped at
      every crossed edge. */
  function Parity(pt: Coordinate, poly: seq<Coordinate>, k: nat): bool
    requires k <= |poly|
  {
    if k == 0 then false else Parity(pt, poly, k - 1) != EdgeCrossesAt(pt, poly, k - 1)
  }

  /** The even-odd rule, as the ray test computes it over the whole ring. */
  predicate Inside(pt: Coordinate, poly: seq<Coordinate>)
  {
    Parity(pt, poly, |poly|)
  }

  /** A step of the count: edge `k` joins the crossing set or not. */
  lemma CrossingEdgesStep(pt: Coordinate, poly: seq<Coordinate>, k: nat)
    requires k < |poly|
    ensures |CrossingEdges(pt, poly, k + 1)|
         == |CrossingEdges(pt, poly, k)| + (if EdgeCrossesAt(pt, poly, k) then 1 else 0)
  {
    if EdgeCrossesAt(pt, poly, k) {
      assert CrossingEdges(pt, poly, k + 1) == CrossingEdges(pt, poly, k) + {k};
    } else {
      assert CrossingEdges(pt, poly, k + 1) == CrossingEdges(pt, poly, k);
    }
  }

  /** The flag is set exactly when an odd number of the first `k` edges is
      crossed. */
  lemma {:induction false} ParityCountsCrossings(pt: Coordinate, poly: seq<Coordinate>, k: nat)
    requires k <= |poly|
    ensures Parity(pt, poly, k) <==> |CrossingEdges(pt, poly, k)| % 2 == 1
  {
    if k == 0 {
      assert CrossingEdges(pt, poly, 0) == {};
    } else {
      ParityCountsCrossings(pt, poly, k - 1);
      CrossingEdgesStep(pt, poly, k - 1);
      OddAfterStep(|CrossingEdges(pt, poly, k - 1)|, EdgeCrossesAt(pt, poly, k - 1));
    }
  }

  /** Adding one to a count flips whether it is odd. */
  lemma OddAfterStep(n: nat, b: bool)
    ensures ((n + if b then 1 else 0) % 2 == 1) <==> ((n % 2 == 1) != b)
  {
  }

  /** `isPointInPolygon`: walks the edges with `i` and `j = i - 1` (first
      `j = n - 1`) and flips `inside` at every crossed edge. */
  method IsPointInPolygon(point: Coordinate, polygon: seq<Coordinate>) returns (inside: bool)
    ensures inside <==> Inside(point, polygon)
    ensures inside <==> |CrossingEdges(point, polygon, |polygon|)| % 2 == 1
    ensures |polygon| == 0 ==> !inside
  {
    inside := false;
    var n := |polygon|;
    var i, j := 0, n - 1;
    while i < n
      invariant 0 <= i <= n
      invariant j == if i == 0 then n - 1 else i - 1
      invariant inside == Parity(point, polygon, i)
    {
      if EdgeCrosses(point, polygon[i], polygon[j]) {
        inside := !inside;
      }
      j, i := i, i + 1;
    }
    ParityCountsCrossings(point, polygon, n);
  }

  /** A point at or north of every vertex sees no straddling edge. */
  lemma {:induction false} NorthOfRingIsOutside(pt: Coordinate, poly: seq<Coordinate>)
    requires forall v :: v in poly ==> v.lat <= pt.lat
    ensures !Inside(pt, poly)
  {
    ParityCountsCrossings(pt, poly, |poly|);
    assert CrossingEdges(pt, poly, |poly|) == {} by {
      forall i: nat | i < |poly| ensures !EdgeCrossesAt(pt, poly, i) {
        assert poly[i] in poly && poly[Prev(i, |poly|)] in poly;
      }
    }
  }

  /** A point strictly south of every vertex sees no straddling edge. */
  lemma {:induction false} SouthOfRingIsOutside(pt: Coordinate, poly: seq<Coordinate>)
    requires forall v :: v in poly ==> v.lat > pt.lat
    ensures !Inside(pt, poly)
  {
    ParityCountsCrossings(pt, poly, |poly|);
    assert CrossingEdges(pt, poly, |poly|) == {} by {
      forall i: nat | i < |poly| ensures !EdgeCrossesAt(pt, poly, i) {
        assert poly[i] in poly && poly[Prev(i, |poly|)] in poly;
      }
    }
  }

  /** Where a straddling edge meets the point's latitude lies between its
      two ends, so a point at or east of both ends is not west of it. */
  lemma CrossingBetweenEnds(pt: Coordinate, vi: Coordinate, vj: Coordinate)
    requires (vi.lat > pt.lat) != (vj.lat > pt.lat)
    requires vi.lng <= pt.lng && vj.lng <= pt.lng
    ensures !EdgeCrosses(pt, vi, vj)
  {
    var d := vj.lat - vi.lat;
    var t := (pt.lat - vi.lat) / d;
    assert 0.0 <= t <= 1.0 by {
      if d > 0.0 {
        assert 0.0 <= pt.lat - vi.lat < d;
      } else {
        assert d <= pt.lat - vi.lat < 0.0;
      }
    }
    var a, b := pt.lng - vi.lng, pt.lng - vj.lng;
    assert (vj.lng - vi.lng) * (pt.lat - vi.lat) / d == (vj.lng - vi.lng) * t;
    assert vj.lng - vi.lng == a - b;
    assert (a - b) * t == a * t - b * t;
    NonnegativeProduct(a, 1.0 - t);
    NonnegativeProduct(b, t);
    assert a * (1.0 - t) == a - a * t;
  }

  lemma NonnegativeProduct(x: real, y: real)
    requires 0.0 <= x && 0.0 <= y
    ensures 0.0 <= x * y
  {
  }

  /** A point at or east of every vertex is outside. */
  lemma {:induction false} EastOfRingIsOutside(pt: Coordinate, poly: seq<Coordinate>)
    requires forall v :: v in poly ==> v.lng <= pt.lng
    ensures !Inside(pt, poly)
  {
    ParityCountsCrossings(pt, poly, |poly|);
    assert CrossingEdges(pt, poly, |poly|) == {} by {
      forall i: nat | i < |poly| ensures !EdgeCrossesAt(pt, poly, i) {
        var vi, vj := poly[i], poly[Prev(i, |poly|)];
        assert vi in poly && vj in poly;
        if (vi.lat > pt.lat) != (vj.lat > pt.lat) {
          CrossingBetweenEnds(pt, vi, vj);
        }
      }
    }
  }

  // ---------------------------------------------------------------------
  // Airspace conflict check
  // ---------------------------------------------------------------------

  datatype Conflict = Conflict(geofenceId: Id, geofenceName: string,
                               fenceType: GeofenceType, waypoint: Waypoint)

  /** The request body; a missing field is `None`. */
  datatype AirspaceRequest = AirspaceRequest(waypoints: Option<seq<Waypoint>>,
                                             altitude: Option<real>)

  datatype AirspaceResponse =
    | BadRequest
    | Checked(hasConflicts: bool, conflicts: seq<Conflict>)

  /** `!waypoints || !altitude`: a missing field, or an altitude of 0, which
      is falsy. An empty waypoint array is truthy and accepted. */
  predicate Rejected(req: AirspaceRequest)
  {
    req.waypoints.None? || req.altitude.None? || req.altitude == Some(0.0)
  }

  /** A waypoint inside the ring at an altitude within the inclusive band. */
  predicate Violates(g: Geofence, w: Waypoint, altitude: real)
  {
    && Inside(Coordinate(w.lat, w.lng), g.coordinates)
    && g.minAltitude <= altitude <= g.maxAltitude
  }

  function ConflictOf(g: Geofence, w: Waypoint): Conflict
  {
    Conflict(g.id, g.name, g.fenceType, w)
  }

  /** One geofence against the waypoints, in waypoint order. */
  function WaypointConflicts(g: Geofence, wps: seq<Waypoint>, altitude: real): seq<Conflict>
  {
    if wps == [] then []
    else
      var w := wps[|wps| - 1];
      WaypointConflicts(g, wps[..|wps| - 1], altitude)
        + (if Violates(g, w, altitude) then [ConflictOf(g, w)] else [])
  }

  /** Every active geofence against the waypoints, geofence-major. */
  function AllConflicts(gs: seq<Geofence>, wps: seq<Waypoint>, altitude: real): seq<Conflict>
  {
    if gs == [] then []
    else
      var g := gs[|gs| - 1];
      AllConflicts(gs[..|gs| - 1], wps, altitude)
        + (if g.active then WaypointConflicts(g, wps, altitude) else [])
  }

  /** The response for a request against a geofence listing: a falsy field
      is refused, otherwise every conflict is listed and `hasConflicts`
      says whether there is any. */
  function AirspaceVerdict(gs: seq<Geofence>, req: AirspaceRequest): (resp: AirspaceResponse)
    ensures resp.BadRequest? <==> Rejected(req)
    ensures resp.Checked? ==> (resp.hasConflicts <==> |resp.conflicts| > 0)
  {
    if Rejected(req) then BadRequest
    else
      var cs := AllConflicts(gs, req.waypoints.value, req.altitude.value);
      Checked(|cs| > 0, cs)
  }

  /** The handler: rejects a falsy field before reading any geofence,
      otherwise checks every (active geofence, waypoint) pair with no early
      exit. */
  method CheckAirspace(store: MemStorage, req: AirspaceRequest) returns (resp: AirspaceResponse)
    requires store.Valid()
    ensures resp == AirspaceVerdict(store.GetGeofences(), req)
  {
    if req.waypoints.None? || req.altitude.None? || req.altitude == Some(0.0) {
      return BadRequest;
    }
    var waypoints, altitude := req.waypoints.value, req.altitude.value;
    var geofences := store.GetGeofences();
    var conflicts: seq<Conflict> := [];
    var gi := 0;
    while gi < |geofences|
      invariant 0 <= gi <= |geofences|
      invariant conflicts == AllConflicts(geofences[..gi], waypoints, altitude)
    {
      var geofence := geofences[gi];
      assert geofences[..gi + 1][..gi] == geofences[..gi];
      if geofence.active {
        var found := CheckWaypoints(geofence, waypoints, altitude);
        conflicts := conflicts + found;
      }
      gi := gi + 1;
    }
    assert geofences[..gi] == geofences;
    resp := Checked(|conflicts| > 0, conflicts);
  }

  /** The handler's inner loop for one active geofence: the conflicts it
      pushes, in waypoint order. */
  method CheckWaypoints(geofence: Geofence, waypoints: seq<Waypoint>, altitude: real)
      returns (found: seq<Conflict>)
    ensures found == WaypointConflicts(geofence, waypoints, altitude)
  {
    found := [];
    var wi := 0;
    while wi < |waypoints|
      invariant 0 <= wi <= |waypoints|
      invariant found == WaypointConflicts(geofence, waypoints[..wi], altitude)
    {
      var waypoint := waypoints[wi];
      assert waypoints[..wi + 1][..wi] == waypoints[..wi];
      var inside := IsPointInPolygon(Coordinate(waypoint.lat, waypoint.lng), geofence.coordinates);
      if inside && altitude >= geofence.minAltitude && altitude <= geofence.maxAltitude {
        found := found + [ConflictOf(geofence, waypoint)];
      }
      wi := wi + 1;
    }
    assert waypoints[..wi] == waypoints;
  }

  /** Membership in one geofence's list: exactly its violating waypoints. */
  lemma {:induction false} WaypointConflictsMembers(g: Geofence, wps: seq<Waypoint>, altitude: real, c: Conflict)
    ensures c in WaypointConflicts(g, wps, altitude) <==>
      exists j :: 0 <= j < |wps| && Violates(g, wps[j], altitude) && c == ConflictOf(g, wps[j])
  {
    if wps != [] {
      var init := wps[..|wps| - 1];
      WaypointConflictsMembers(g, init, altitude, c);
      if exists j :: 0 <= j < |init| && Violates(g, init[j], altitude) && c == ConflictOf(g, init[j]) {
        var j :| 0 <= j < |init| && Violates(g, init[j], altitude) && c == ConflictOf(g, init[j]);
        assert wps[j] == init[j];
      }
      if exists j :: 0 <= j < |wps| && Violates(g, wps[j], altitude) && c == ConflictOf(g, wps[j]) {
        var j :| 0 <= j < |wps| && Violates(g, wps[j], altitude) && c == ConflictOf(g, wps[j]);
        if j < |init| {
          assert init[j] == wps[j];
        }
      }
    }
  }

  /** A conflict is reported exactly for an active geofence and a waypoint
      inside its ring with the altitude inside its band. */
  lemma {:induction false} ConflictsAreViolations(gs: seq<Geofence>, wps: seq<Waypoint>, altitude: real, c: Conflict)
    ensures c in AllConflicts(gs, wps, altitude) <==>
      exists i, j :: 0 <= i < |gs| && 0 <= j < |wps| && gs[i].active
                     && Violates(gs[i], wps[j], altitude) && c == ConflictOf(gs[i], wps[j])
  {
    if gs != [] {
      var init, g := gs[..|gs| - 1], gs[|gs| - 1];
      ConflictsAreViolations(init, wps, altitude, c);
      WaypointConflictsMembers(g, wps, altitude, c);
      ViolationsSplit(gs, wps, altitude, c);
    }
  }

  /** A violating pair over a listing either lies in all but the last
      geofence or involves the last one. */
  lemma ViolationsSplit(gs: seq<Geofence>, wps: seq<Waypoint>, altitude: real, c: Conflict)
    requires gs != []
    ensures var init, g := gs[..|gs| - 1], gs[|gs| - 1];
      (exists i, j :: 0 <= i < |gs| && 0 <= j < |wps| && gs[i].active
                      && Violates(gs[i], wps[j], altitude) && c == ConflictOf(gs[i], wps[j]))
      <==>
      (|| (exists i, j :: 0 <= i < |init| && 0 <= j < |wps| && init[i].active
                          && Violates(init[i], wps[j], altitude) && c == ConflictOf(init[i], wps[j]))
       || (g.active && exists j :: 0 <= j < |wps| && Violates(g, wps[j], altitude) && c == ConflictOf(g, wps[j])))
  {
    var init, g := gs[..|gs| - 1], gs[|gs| - 1];
    if exists i, j :: 0 <= i < |gs| && 0 <= j < |wps| && gs[i].active
                      && Violates(gs[i], wps[j], altitude) && c == ConflictOf(gs[i], wps[j]) {
      var i, j :| 0 <= i < |gs| && 0 <= j < |wps| && gs[i].active
                  && Violates(gs[i], wps[j], altitude) && c == ConflictOf(gs[i], wps[j]);
      if i < |init| {
        assert init[i] == gs[i];
      }
    }
    if exists i, j :: 0 <= i < |init| && 0 <= j < |wps| && init[i].active
                      && Violates(init[i], wps[j], altitude) && c == ConflictOf(init[i], wps[j]) {
      var i, j :| 0 <= i < |init| && 0 <= j < |wps| && init[i].active
                  && Violates(init[i], wps[j], altitude) && c == ConflictOf(init[i], wps[j]);
      assert gs[i] == init[i];
    }
  }

  /** One entry per violating waypoint: repeated crossings of the same zone
      are all reported, nothing is de-duplicated. */
  lemma {:induction false} WaypointConflictsCount(g: Geofence, wps: seq<Waypoint>, altitude: real)
    ensures |WaypointConflicts(g, wps, altitude)|
         == |set j: nat | j < |wps| && Violates(g, wps[j], altitude)|
  {
    if wps != [] {
      var n := |wps| - 1;
      var init := wps[..n];
      WaypointConflictsCount(g, init, altitude);
      var before := set j: nat | j < n && Violates(g, init[j], altitude);
      var after := set j: nat | j < |wps| && Violates(g, wps[j], altitude);
      if Violates(g, wps[n], altitude) {
        assert after == before + {n};
      } else {
        assert after == before;
      }
    }
  }

  /** Inactive geofences contribute nothing. */
  lemma {:induction false} InactiveGeofencesIgnored(gs: seq<Geofence>, wps: seq<Waypoint>, altitude: real)
    requires forall g :: g in gs ==> !g.active
    ensures AllConflicts(gs, wps, altitude) == []
  {
    if gs != [] {
      assert forall g :: g in gs[..|gs| - 1] ==> g in gs;
      InactiveGeofencesIgnored(gs[..|gs| - 1], wps, altitude);
      assert gs[|gs| - 1] in gs;
    }
  }

  /** Adding or removing inactive geofences anywhere in the listing does not
      change the result: only the active ones, in order, matter. */
  function ActiveOnly(gs: seq<Geofence>): (r: seq<Geofence>)
    ensures forall g :: g in r <==> g in gs && g.active
  {
    if gs == [] then []
    else ActiveOnly(gs[..|gs| - 1]) + (if gs[|gs| - 1].active then [gs[|gs| - 1]] else [])
  }

  lemma {:induction false} OnlyActiveGeofencesMatter(gs: seq<Geofence>, wps: seq<Waypoint>, altitude: real)
    ensures AllConflicts(gs, wps, altitude) == AllConflicts(ActiveOnly(gs), wps, altitude)
  {
    if gs != [] {
      var init, g := gs[..|gs| - 1], gs[|gs| - 1];
      OnlyActiveGeofencesMatter(init, wps, altitude);
      if g.active {
        var a := ActiveOnly(init) + [g];
        assert ActiveOnly(gs) == a;
        assert a[..|a| - 1] == ActiveOnly(init);
        assert a[|a| - 1] == g;
        assert AllConflicts(a, wps, altitude)
            == AllConflicts(ActiveOnly(init), wps, altitude) + WaypointConflicts(g, wps, altitude);
      } else {
        assert ActiveOnly(gs) == ActiveOnly(init) + [];
        assert ActiveOnly(init) + [] == ActiveOnly(init);
      }
    }
  }

  /** The seeded airport zone against a waypoint in its interior at 100 ft:
      exactly one conflict, naming that zone. */
  lemma SeedNoFlyZoneExample(id: Id, now: Time)
    ensures var g := SeedNoFlyZone(id, now);
      var w := Waypoint(37.79, -122.43, 100.0);
      AllConflicts([g], [w], 100.0) == [Conflict(id, "Airport No-Fly Zone", NoFly, w)]
  {
    var g := SeedNoFlyZone(id, now);
    var w := Waypoint(37.79, -122.43, 100.0);
    var pt, ring := Coordinate(w.lat, w.lng), g.coordinates;
    assert !EdgeCrossesAt(pt, ring, 0) && !EdgeCrossesAt(pt, ring, 1);
    assert !EdgeCrossesAt(pt, ring, 2) && EdgeCrossesAt(pt, ring, 3);
    assert Parity(pt, ring, 3) == false;
    assert Parity(pt, ring, 4);
    assert Violates(g, w, 100.0);
    assert [w][..0] == [];
    assert WaypointConflicts(g, [w], 100.0) == [ConflictOf(g, w)];
    assert [g][..0] == [];
    assert AllConflicts([g], [w], 100.0) == [] + WaypointConflicts(g, [w], 100.0);
  }

  // ---------------------------------------------------------------------
  // Mission creation guard
  // ---------------------------------------------------------------------

  datatype MissionOutcome = DroneNotFound | DroneOnMission | Created(mission: Mission)

  /** The update that marks a drone as flying a mission. */
  function OnMissionPatch(): DronePatch
  {
    DronePatch(None, None, Some(DroneStatus.OnMission), None, None, None, None, None, None, None)
  }

  /** `POST /api/missions`: refuses a missing drone and a drone already on a
      mission, leaving the store untouched; otherwise stores the mission and
      then sets the drone's status to `mission`. The airspace check is not
      run here; the planner runs it before submitting. */
  method CreateMissionRoute(store: MemStorage, data: InsertMission, now: Time)
      returns (r: MissionOutcome)
    requires store.Valid()
    modifies store`missions, store`drones
    ensures store.Valid()
    ensures data.droneId.None? || data.droneId.value !in old(store.drones.entries) ==>
      r == DroneNotFound && unchanged(store)
    ensures data.droneId.Some? && data.droneId.value in old(store.drones.entries)
            && old(store.drones.entries[data.droneId.value]).status == DroneStatus.OnMission ==>
      r == DroneOnMission && unchanged(store)
    ensures data.droneId.Some? && data.droneId.value in old(store.drones.entries)
            && old(store.drones.entries[data.droneId.value]).status != DroneStatus.OnMission ==>
      && r.Created?
      && r.mission.id !in old(store.missions.entries)
      && r.mission == NewMission(data, r.mission.id, now)
      && data.droneId.value in store.drones.entries
      && store.missions == OM.Put(old(store.missions), r.mission.id, r.mission)
      && store.drones.entries[data.droneId.value].status == DroneStatus.OnMission
      && store.drones == OM.Put(old(store.drones), data.droneId.value,
           ApplyDronePatch(old(store.drones.entries[data.droneId.value]), OnMissionPatch(), now))
  {
    if data.droneId.None? {
      return DroneNotFound;
    }
    var drone := store.GetDrone(data.droneId.value);
    if drone.None? {
      return DroneNotFound;
    }
    if drone.value.status == DroneStatus.OnMission {
      return DroneOnMission;
    }
    var mission := store.CreateMission(data, now);
    var _ := store.UpdateDrone(data.droneId.value, OnMissionPatch(), now);
    r := Created(mission);
  }
}
