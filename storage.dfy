/** The in-memory record store: insertion-ordered maps of drones, missions,
    geofences and alerts, and a bounded per-drone telemetry history. Each
    operation is atomic; `new Date()` is the `now` argument and `randomUUID`
    draws a key that the target map does not hold yet. */
module Storage {
  import opened Wrappers
  import opened JsSemantics
  import opened Schema
  import OM = OrderedMap

  /** Samples kept per drone before the oldest are evicted. */
  const MaxHistory: nat := 1000

  // ---------------------------------------------------------------------
  // Record construction and merge-style updates (`{...old, ...updates}`)
  // ---------------------------------------------------------------------

  /** One key of a spread `{...old, ...updates}`: present in the update, the
      update's value wins; absent, the old value stays. */
  predicate Merged<T(==)>(update: Option<T>, before: T, after: T)
  {
    (update.Some? ==> after == update.value) && (update.None? ==> after == before)
  }

  /** `createDrone`: `status || "offline"`, `battery || 0`, and every other
      falsy number (absent or 0) stored as `null`. */
  function NewDrone(ins: InsertDrone, now: Time): (d: Drone)
    ensures d.id == ins.id && d.lastSeen == now && d.createdAt == now
    ensures d.status == if ins.status.None? then Offline else ins.status.value
    ensures d.battery.Some? && (ins.battery.Some? ==> d.battery == ins.battery)
    ensures ins.battery.None? ==> d.battery == Some(0.0)
    ensures ins.speed == Some(0.0) ==> d.speed.None?
    ensures ins.heading == Some(0.0) ==> d.heading.None?
    ensures d.name == ins.name && d.model == ins.model
    ensures d.latitude == OrNull(ins.latitude) && d.longitude == OrNull(ins.longitude)
    ensures d.altitude == OrNull(ins.altitude) && d.speed == OrNull(ins.speed)
    ensures d.heading == OrNull(ins.heading) && d.signalStrength == OrNull(ins.signalStrength)
  {
    Drone(ins.id, ins.name, ins.model, ins.status.GetOr(Offline),
          Some(NumOr0(ins.battery)), OrNull(ins.latitude), OrNull(ins.longitude),
          OrNull(ins.altitude), OrNull(ins.speed), OrNull(ins.heading),
          OrNull(ins.signalStrength), now, now)
  }

  /** `updateDrone`: the fields present in the update win, and `lastSeen`
      becomes the time of the update. */
  function ApplyDronePatch(d: Drone, p: DronePatch, now: Time): (r: Drone)
    ensures r.id == d.id && r.createdAt == d.createdAt && r.lastSeen == now
    ensures Merged(p.name, d.name, r.name) && Merged(p.model, d.model, r.model)
    ensures Merged(p.status, d.status, r.status) && Merged(p.battery, d.battery, r.battery)
    ensures Merged(p.latitude, d.latitude, r.latitude) && Merged(p.longitude, d.longitude, r.longitude)
    ensures Merged(p.altitude, d.altitude, r.altitude) && Merged(p.speed, d.speed, r.speed)
    ensures Merged(p.heading, d.heading, r.heading)
    ensures Merged(p.signalStrength, d.signalStrength, r.signalStrength)
  {
    Drone(d.id, p.name.GetOr(d.name), p.model.GetOr(d.model), p.status.GetOr(d.status),
          p.battery.GetOr(d.battery), p.latitude.GetOr(d.latitude),
          p.longitude.GetOr(d.longitude), p.altitude.GetOr(d.altitude),
          p.speed.GetOr(d.speed), p.heading.GetOr(d.heading),
          p.signalStrength.GetOr(d.signalStrength), now, d.createdAt)
  }

  /** The update carrying no key at all. */
  const NoDroneChange := DronePatch(None, None, None, None, None, None, None, None, None, None)

  /** Two spreads in a row: a key of the later update wins. */
  function MergeDronePatches(p: DronePatch, q: DronePatch): DronePatch
  {
    DronePatch(
      if q.name.Some? then q.name else p.name,
      if q.model.Some? then q.model else p.model,
      if q.status.Some? then q.status else p.status,
      if q.battery.Some? then q.battery else p.battery,
      if q.latitude.Some? then q.latitude else p.latitude,
      if q.longitude.Some? then q.longitude else p.longitude,
      if q.altitude.Some? then q.altitude else p.altitude,
      if q.speed.Some? then q.speed else p.speed,
      if q.heading.Some? then q.heading else p.heading,
      if q.signalStrength.Some? then q.signalStrength else p.signalStrength)
  }

  /** An empty update only refreshes `lastSeen`. */
  lemma EmptyDronePatchRefreshesOnly(d: Drone, now: Time)
    ensures ApplyDronePatch(d, NoDroneChange, now) == d.(lastSeen := now)
  {
  }

  /** Updating twice is updating once with the merged keys: every field
      comes from the latest update that carries it, else from the record. */
  lemma DronePatchesCompose(d: Drone, p: DronePatch, q: DronePatch, t1: Time, t2: Time)
    ensures ApplyDronePatch(ApplyDronePatch(d, p, t1), q, t2)
         == ApplyDronePatch(d, MergeDronePatches(p, q), t2)
  {
  }

  /** `createMission`: `status || "planned"`, zero progress, no start or end
      time; falsy description, drone id and speed become `null`. */
  function NewMission(ins: InsertMission, id: Id, now: Time): (m: Mission)
    ensures m.id == id && m.createdAt == now && m.updatedAt == now
    ensures m.status == if ins.status.None? then Planned else ins.status.value
    ensures m.progress == 0.0 && m.startTime.None? && m.endTime.None?
    ensures m.droneId.Some? <==> ins.droneId.Some? && ins.droneId.value != ""
    ensures m.droneId.Some? ==> m.droneId == ins.droneId
    ensures m.description.Some? <==> ins.description.Some? && ins.description.value != ""
    ensures m.description.Some? ==> m.description == ins.description
    ensures m.name == ins.name && m.missionType == ins.missionType && m.geofences == ins.geofences
    ensures m.waypoints == ins.waypoints && m.altitude == ins.altitude
    ensures m.speed == OrNull(ins.speed)
  {
    Mission(id, ins.name,
            if ins.description == Some("") then None else ins.description,
            if ins.droneId == Some("") then None else ins.droneId,
            ins.status.GetOr(Planned), ins.missionType, ins.waypoints, ins.geofences,
            ins.altitude, OrNull(ins.speed), None, None, 0.0, now, now)
  }

  /** `updateMission`: the fields present in the update win, and
      `updatedAt` becomes the time of the update. */
  function ApplyMissionPatch(m: Mission, p: MissionPatch, now: Time): (r: Mission)
    ensures r.id == m.id && r.createdAt == m.createdAt && r.updatedAt == now
    ensures Merged(p.name, m.name, r.name) && Merged(p.description, m.description, r.description)
    ensures Merged(p.droneId, m.droneId, r.droneId) && Merged(p.status, m.status, r.status)
    ensures Merged(p.missionType, m.missionType, r.missionType)
    ensures Merged(p.waypoints, m.waypoints, r.waypoints) && Merged(p.geofences, m.geofences, r.geofences)
    ensures Merged(p.altitude, m.altitude, r.altitude) && Merged(p.speed, m.speed, r.speed)
    ensures Merged(p.startTime, m.startTime, r.startTime) && Merged(p.endTime, m.endTime, r.endTime)
    ensures Merged(p.progress, m.progress, r.progress)
  {
    Mission(m.id, p.name.GetOr(m.name), p.description.GetOr(m.description),
            p.droneId.GetOr(m.droneId), p.status.GetOr(m.status),
            p.missionType.GetOr(m.missionType), p.waypoints.GetOr(m.waypoints),
            p.geofences.GetOr(m.geofences), p.altitude.GetOr(m.altitude),
            p.speed.GetOr(m.speed), p.startTime.GetOr(m.startTime),
            p.endTime.GetOr(m.endTime), p.progress.GetOr(m.progress),
            m.createdAt, now)
  }

  /** `createGeofence`: `minAltitude || 0`, `maxAltitude || 400` (so an
      explicit 0 ceiling becomes 400) and `active ?? true`. */
  function NewGeofence(ins: InsertGeofence, id: Id, now: Time): (g: Geofence)
    ensures g.id == id && g.createdAt == now && g.coordinates == ins.coordinates
    ensures g.minAltitude == if ins.minAltitude.Some? then ins.minAltitude.value else 0.0
    ensures ins.maxAltitude.None? || ins.maxAltitude == Some(0.0) ==> g.maxAltitude == 400.0
    ensures ins.maxAltitude.Some? && ins.maxAltitude.value != 0.0 ==>
              g.maxAltitude == ins.maxAltitude.value
    ensures g.active <==> ins.active != Some(false)
    ensures g.name == ins.name && g.fenceType == ins.fenceType
  {
    Geofence(id, ins.name, ins.fenceType, ins.coordinates, NumOr0(ins.minAltitude),
             if ins.maxAltitude.None? || ins.maxAltitude == Some(0.0) then 400.0
             else ins.maxAltitude.value,
             ins.active.GetOr(true), now)
  }

  /** `updateGeofence`: the fields present in the update win; no timestamp
      is refreshed. */
  function ApplyGeofencePatch(g: Geofence, p: GeofencePatch): (r: Geofence)
    ensures r.id == g.id && r.createdAt == g.createdAt
    ensures Merged(p.name, g.name, r.name) && Merged(p.fenceType, g.fenceType, r.fenceType)
    ensures Merged(p.coordinates, g.coordinates, r.coordinates)
    ensures Merged(p.minAltitude, g.minAltitude, r.minAltitude)
    ensures Merged(p.maxAltitude, g.maxAltitude, r.maxAltitude) && Merged(p.active, g.active, r.active)
  {
    Geofence(g.id, p.name.GetOr(g.name), p.fenceType.GetOr(g.fenceType),
             p.coordinates.GetOr(g.coordinates), p.minAltitude.GetOr(g.minAltitude),
             p.maxAltitude.GetOr(g.maxAltitude), p.active.GetOr(g.active), g.createdAt)
  }

  /** `createAlert`: always unacknowledged; a falsy drone id becomes `null`. */
  function NewAlert(ins: InsertAlert, id: Id, now: Time): (a: Alert)
    ensures a.id == id && a.createdAt == now && !a.acknowledged
    ensures a.alertType == ins.alertType && a.severity == ins.severity
    ensures a.droneId.Some? <==> ins.droneId.Some? && ins.droneId.value != ""
    ensures a.droneId.Some? ==> a.droneId == ins.droneId
    ensures a.title == ins.title && a.message == ins.message
  {
    Alert(id, if ins.droneId == Some("") then None else ins.droneId,
          ins.alertType, ins.severity, ins.title, ins.message, false, now)
  }

  /** The readings of a stored sample, without its id and time stamp. */
  function Readings(t: Telemetry): InsertTelemetry
  {
    InsertTelemetry(t.droneId, t.latitude, t.longitude, t.altitude,
                    t.speed, t.heading, t.battery, t.signalStrength)
  }

  /** `addTelemetry`'s stored sample: the inserted readings under the given
      id and time stamp. */
  function Stamp(ins: InsertTelemetry, id: Id, now: Time): (t: Telemetry)
    ensures t.id == id && t.timestamp == now
    ensures Readings(t) == ins
  {
    Telemetry(id, ins.droneId, ins.latitude, ins.longitude, ins.altitude,
              ins.speed, ins.heading, ins.battery, ins.signalStrength, now)
  }

  // ---------------------------------------------------------------------
  // Bounded telemetry history
  // ---------------------------------------------------------------------

  /** `push(x)` then `splice(0, length - cap)` when the array grew past `cap`:
      the oldest entries go, the newest `cap` stay in order. */
  function AppendCapped<T>(h: seq<T>, x: T, cap: nat): (r: seq<T>)
  {
    var s := h + [x];
    if |s| > cap then s[|s| - cap..] else s
  }

  /** One append to a history within the cap: the new sample is last, the
      length grows by one until the cap, and at the cap exactly the oldest
      sample is dropped with the rest kept in order. */
  lemma AppendCappedShape<T>(h: seq<T>, x: T, cap: nat)
    requires cap >= 1 && |h| <= cap
    ensures var r := AppendCapped(h, x, cap);
      && |r| <= cap
      && r[|r| - 1] == x
      && (|h| < cap ==> r == h + [x])
      && (|h| == cap ==> r == h[1..] + [x])
  {
  }

  /** Appending many samples one at a time: the history ends up as the last
      `cap` samples of everything ever appended, in order. */
  function AppendAllCapped<T>(h: seq<T>, xs: seq<T>, cap: nat): seq<T>
    decreases |xs|
  {
    if xs == [] then h else AppendAllCapped(AppendCapped(h, xs[0], cap), xs[1..], cap)
  }

  lemma {:induction false} AppendAllKeepsNewest<T>(h: seq<T>, xs: seq<T>, cap: nat)
    requires 1 <= cap && |h| <= cap
    ensures AppendAllCapped(h, xs, cap) == SliceFrom(h + xs, -(cap as int))
    decreases |xs|
  {
    if xs == [] {
      assert h + xs == h;
    } else {
      AppendCappedShape(h, xs[0], cap);
      AppendAllKeepsNewest(AppendCapped(h, xs[0], cap), xs[1..], cap);
      AppendOneKeepsNewest(h, xs, cap);
    }
  }

  /** Capping after the first of several appends does not change which
      `cap` samples are the newest overall. */
  lemma AppendOneKeepsNewest<T>(h: seq<T>, xs: seq<T>, cap: nat)
    requires 1 <= cap && |h| <= cap && xs != []
    ensures SliceFrom(AppendCapped(h, xs[0], cap) + xs[1..], -(cap as int))
         == SliceFrom(h + xs, -(cap as int))
  {
    var all := h + xs;
    var h' := AppendCapped(h, xs[0], cap);
    AppendCappedShape(h, xs[0], cap);
    if |h| == cap {
      assert h' + xs[1..] == all[1..];
      DroppedPrefixKeepsNewest(all, 1, cap);
    } else {
      assert h' + xs[1..] == all;
    }
  }

  /** Dropping a prefix that leaves at least `cap` elements keeps the last
      `cap` unchanged (`slice(-0)` would be the whole array, hence `cap >= 1`). */
  lemma DroppedPrefixKeepsNewest<T>(s: seq<T>, k: nat, cap: nat)
    requires 1 <= cap && k <= |s| && cap <= |s| - k
    ensures SliceFrom(s[k..], -(cap as int)) == SliceFrom(s, -(cap as int))
  {
    var t := s[k..];
    assert SliceFrom(t, -(cap as int)) == t[|t| - cap..];
    assert SliceFrom(s, -(cap as int)) == s[|s| - cap..];
    assert t[|t| - cap..] == s[|s| - cap..];
  }

  /** 1001 samples into an empty history leave exactly the last 1000: the
      first sample is gone and the second is now the oldest. */
  lemma ThousandAndOneSamples<T>(xs: seq<T>)
    requires |xs| == MaxHistory + 1
    ensures AppendAllCapped([], xs, MaxHistory) == xs[1..]
  {
    AppendAllKeepsNewest([], xs, MaxHistory);
    assert [] + xs == xs;
    assert SliceFrom(xs, -(MaxHistory as int)) == xs[|xs| - MaxHistory..];
  }

  // ---------------------------------------------------------------------
  // Alert queries and acknowledgement
  // ---------------------------------------------------------------------

  /** The alerts of drone `d`, order kept. */
  function FilterByDrone(alerts: seq<Alert>, d: Id): (r: seq<Alert>)
    ensures |r| <= |alerts|
    ensures forall a :: a in r <==> a in alerts && a.droneId == Some(d)
  {
    if alerts == [] then []
    else (if alerts[0].droneId == Some(d) then [alerts[0]] else [])
         + FilterByDrone(alerts[1..], d)
  }

  /** `getAlerts(droneId)`: with a truthy id, exactly that drone's alerts;
      with no id, or the empty string, every alert. Insertion order. */
  function SelectAlerts(alerts: OM.Table<Alert>, droneId: Option<Id>): (r: seq<Alert>)
    requires OM.Valid(alerts)
    ensures droneId.None? || droneId == Some("") ==> r == OM.Values(alerts)
    ensures droneId.Some? && droneId.value != "" ==>
      forall a :: a in r <==> a in OM.Values(alerts) && a.droneId == droneId
  {
    var all := OM.Values(alerts);
    if droneId.Some? && droneId.value != "" then FilterByDrone(all, droneId.value) else all
  }

  /** `acknowledgeAlert`'s effect on the alert map. */
  function Acknowledge(alerts: OM.Table<Alert>, id: Id): (r: OM.Table<Alert>)
    requires OM.Valid(alerts)
    ensures OM.Valid(r) && r.order == alerts.order && r.entries.Keys == alerts.entries.Keys
    ensures id in alerts.entries ==> r.entries[id] == alerts.entries[id].(acknowledged := true)
    ensures forall k :: k in alerts.entries && k != id ==> r.entries[k] == alerts.entries[k]
    ensures id !in alerts.entries ==> r == alerts
  {
    if id in alerts.entries then
      OM.Put(alerts, id, alerts.entries[id].(acknowledged := true))
    else alerts
  }

  /** No alert that was acknowledged before has disappeared or been reopened. */
  ghost predicate AcksKept(before: OM.Table<Alert>, after: OM.Table<Alert>)
  {
    forall k :: k in before.entries && before.entries[k].acknowledged ==>
      k in after.entries && after.entries[k].acknowledged
  }

  /** Acknowledging is idempotent and never reopens an alert. */
  lemma AcknowledgeIdempotent(alerts: OM.Table<Alert>, id: Id)
    requires OM.Valid(alerts)
    ensures Acknowledge(Acknowledge(alerts, id), id) == Acknowledge(alerts, id)
    ensures AcksKept(alerts, Acknowledge(alerts, id))
  {
    if id in alerts.entries {
      var once := Acknowledge(alerts, id);
      assert once.entries[id] == alerts.entries[id].(acknowledged := true);
      assert Acknowledge(once, id).entries == once.entries;
    }
  }

  // ---------------------------------------------------------------------
  // Seed data
  // ---------------------------------------------------------------------

  /** The seed records' display text, named so that proofs about the seed
      compare names rather than spell out characters. */
  const ScoutAlpha: string := "Scout Alpha"
  const MavicModel: string := "DJI Mavic 3"
  const SurveyBeta: string := "Survey Beta"
  const PhantomModel: string := "DJI Phantom 4"
  const PatrolGamma: string := "Patrol Gamma"
  const AutelModel: string := "Autel EVO II"
  const AirportZoneName: string := "Airport No-Fly Zone"
  const MilitaryZoneName: string := "Military Base Restricted"
  const LowBatteryTitle: string := "Low Battery Warning"
  const LowBatteryMessage: string := "DRN-003 battery at 23%. Return to base recommended."

  function SeedDrones(now: Time): seq<Drone>
  {
    [ Drone("DRN-001", ScoutAlpha, MavicModel, DroneStatus.Active, Some(87.0),
            Some(37.7749), Some(-122.4194), Some(120.0), Some(25.0), Some(45.0),
            Some(-65.0), now, now),
      Drone("DRN-002", SurveyBeta, PhantomModel, DroneStatus.OnMission, Some(65.0),
            Some(37.7849), Some(-122.4094), Some(85.0), Some(18.0), Some(120.0),
            Some(-58.0), now, now),
      Drone("DRN-003", PatrolGamma, AutelModel, DroneStatus.Warning, Some(23.0),
            Some(37.7649), Some(-122.4294), Some(200.0), Some(32.0), Some(270.0),
            Some(-72.0), now, now) ]
  }

  function SeedNoFlyZone(id: Id, now: Time): Geofence
  {
    Geofence(id, AirportZoneName, NoFly,
             [Coordinate(37.7849, -122.4394), Coordinate(37.7949, -122.4394),
              Coordinate(37.7949, -122.4194), Coordinate(37.7849, -122.4194)],
             0.0, 400.0, true, now)
  }

  function SeedRestrictedZone(id: Id, now: Time): Geofence
  {
    Geofence(id, MilitaryZoneName, Restricted,
             [Coordinate(37.7549, -122.4494), Coordinate(37.7649, -122.4494),
              Coordinate(37.7649, -122.4294), Coordinate(37.7549, -122.4294)],
             0.0, 200.0, true, now)
  }

  function SeedLowBatteryAlert(id: Id, now: Time): Alert
  {
    Alert(id, Some("DRN-003"), BatteryLow, Severity.Warning, LowBatteryTitle,
          LowBatteryMessage, false, now)
  }

  // ---------------------------------------------------------------------
  // The store
  // ---------------------------------------------------------------------

  class MemStorage {
    var drones: OM.Table<Drone>
    var missions: OM.Table<Mission>
    var telemetryData: map<Id, seq<Telemetry>>
    var geofences: OM.Table<Geofence>
    var alerts: OM.Table<Alert>

    ghost predicate Valid()
      reads this
    {
      && OM.Valid(drones) && OM.Valid(missions) && OM.Valid(geofences) && OM.Valid(alerts)
      && forall d :: d in telemetryData ==> |telemetryData[d]| <= MaxHistory
    }

    /** The store as the server starts it: three drones, two active
        geofences and one open low-battery alert. */
    constructor (now: Time)
      ensures Valid()
      ensures GetDrones() == SeedDrones(now)
      ensures missions.entries == map[] && telemetryData == map[]
      ensures |geofences.order| == 2
      ensures GetGeofences() == [SeedNoFlyZone(geofences.order[0], now),
                                 SeedRestrictedZone(geofences.order[1], now)]
      ensures |alerts.order| == 1
      ensures GetAlerts(None) == [SeedLowBatteryAlert(alerts.order[0], now)]
    {
      var ds := SeedDrones(now);
      assert ds[0].id[6] == '1' && ds[1].id[6] == '2' && ds[2].id[6] == '3';
      drones := OM.Of3(ds[0].id, ds[0], ds[1].id, ds[1], ds[2].id, ds[2]);
      assert [ds[0], ds[1], ds[2]] == ds;
      missions := OM.Empty();
      telemetryData := map[];
      var g1: Id :| true;
      assert g1 + "'" != g1;
      var g2: Id :| g2 != g1;
      geofences := OM.Of2(g1, SeedNoFlyZone(g1, now), g2, SeedRestrictedZone(g2, now));
      var a: Id :| true;
      alerts := OM.Of1(a, SeedLowBatteryAlert(a, now));
      new;
    }

    // Drones

    /** `getDrones()`: every drone, in insertion order. */
    function GetDrones(): (ds: seq<Drone>)
      reads this
      requires Valid()
      ensures |ds| == |drones.order|
      ensures forall i :: 0 <= i < |ds| ==> ds[i] == drones.entries[drones.order[i]]
      ensures forall d :: d in ds <==> exists k :: k in drones.entries && drones.entries[k] == d
    {
      var ds := OM.Values(drones);
      assert forall d :: d in ds <==> exists k :: k in drones.entries && drones.entries[k] == d by {
        forall d ensures d in ds <==> exists k :: k in drones.entries && drones.entries[k] == d {
          OM.ValuesMembership(drones, d);
        }
      }
      ds
    }

    function GetDrone(id: Id): (r: Option<Drone>)
      reads this
      ensures r.Some? <==> id in drones.entries
      ensures r.Some? ==> r.value == drones.entries[id]
    {
      OM.Get(drones, id)
    }

    method CreateDrone(ins: InsertDrone, now: Time) returns (d: Drone)
      requires Valid()
      modifies this`drones
      ensures Valid()
      ensures d == NewDrone(ins, now)
      ensures drones == OM.Put(old(drones), ins.id, d)
    {
      d := NewDrone(ins, now);
      drones := OM.Put(drones, ins.id, d);
    }

    /** `updateDrone`: an unknown id changes nothing and yields `undefined`. */
    method UpdateDrone(id: Id, p: DronePatch, now: Time) returns (r: Option<Drone>)
      requires Valid()
      modifies this`drones
      ensures Valid()
      ensures id !in old(drones.entries) ==> r.None? && drones == old(drones)
      ensures id in old(drones.entries) ==>
        && r == Some(ApplyDronePatch(old(drones.entries[id]), p, now))
        && drones == OM.Put(old(drones), id, r.value)
        && drones.order == old(drones.order)
    {
      if id !in drones.entries {
        return None;
      }
      var updated := ApplyDronePatch(drones.entries[id], p, now);
      drones := OM.Put(drones, id, updated);
      r := Some(updated);
    }

    // Missions

    function GetMissions(): (ms: seq<Mission>)
      reads this
      requires Valid()
      ensures |ms| == |missions.order|
      ensures forall i :: 0 <= i < |ms| ==> ms[i] == missions.entries[missions.order[i]]
    {
      OM.Values(missions)
    }

    function GetMission(id: Id): (r: Option<Mission>)
      reads this
      ensures r.Some? <==> id in missions.entries
      ensures r.Some? ==> r.value == missions.entries[id]
    {
      OM.Get(missions, id)
    }

    /** `createMission` under a freshly drawn id: the mission is listed last. */
    method CreateMission(ins: InsertMission, now: Time) returns (m: Mission)
      requires Valid()
      modifies this`missions
      ensures Valid()
      ensures m.id !in old(missions.entries)
      ensures m == NewMission(ins, m.id, now)
      ensures missions == OM.Put(old(missions), m.id, m)
      ensures GetMissions() == old(GetMissions()) + [m]
    {
      OM.FreshKeyExists(missions.entries.Keys);
      var id: Id :| id !in missions.entries;
      m := NewMission(ins, id, now);
      OM.PutAbsentValues(missions, id, m);
      missions := OM.Put(missions, id, m);
    }

    method UpdateMission(id: Id, p: MissionPatch, now: Time) returns (r: Option<Mission>)
      requires Valid()
      modifies this`missions
      ensures Valid()
      ensures id !in old(missions.entries) ==> r.None? && missions == old(missions)
      ensures id in old(missions.entries) ==>
        && r == Some(ApplyMissionPatch(old(missions.entries[id]), p, now))
        && missions == OM.Put(old(missions), id, r.value)
    {
      if id !in missions.entries {
        return None;
      }
      var updated := ApplyMissionPatch(missions.entries[id], p, now);
      missions := OM.Put(missions, id, updated);
      r := Some(updated);
    }

    /** `deleteMission`: reports whether the mission existed; it is gone after. */
    method DeleteMission(id: Id) returns (existed: bool)
      requires Valid()
      modifies this`missions
      ensures Valid()
      ensures existed <==> id in old(missions.entries)
      ensures id !in missions.entries
      ensures missions == OM.Delete(old(missions), id)
    {
      existed := id in missions.entries;
      missions := OM.Delete(missions, id);
    }

    // Telemetry

    /** The drone's recorded samples, empty when it has none. */
    function History(droneId: Id): (h: seq<Telemetry>)
      reads this
      requires Valid()
      ensures |h| <= MaxHistory
      ensures droneId !in telemetryData ==> h == []
    {
      if droneId in telemetryData then telemetryData[droneId] else []
    }

    /** `getTelemetry(droneId, limit)` is `data.slice(-limit)`: the newest
        `limit` samples in order for a positive limit, and the whole history
        for `limit == 0` because `-0` is `0`. */
    function GetTelemetry(droneId: Id, limit: int): (r: seq<Telemetry>)
      reads this
      requires Valid()
      ensures var h := History(droneId);
        && (limit >= 1 ==> |r| == (if limit <= |h| then limit else |h|) && r == h[|h| - |r|..])
        && (limit == 0 ==> r == h)
        && (limit < 0 ==> r == if -limit <= |h| then h[-limit..] else [])
        && (droneId !in telemetryData ==> r == [])
    {
      SliceFrom(History(droneId), -limit)
    }

    /** `addTelemetry`: stamps the sample, appends it to its drone's history
        (created empty if missing) and trims that history to the newest 1000. */
    method AddTelemetry(ins: InsertTelemetry, now: Time) returns (t: Telemetry)
      requires Valid()
      modifies this`telemetryData
      ensures Valid()
      ensures t == Stamp(ins, t.id, now)
      ensures telemetryData ==
        old(telemetryData)[ins.droneId := AppendCapped(old(History(ins.droneId)), t, MaxHistory)]
    {
      var id: Id :| true;
      t := Stamp(ins, id, now);
      if ins.droneId !in telemetryData {
        telemetryData := telemetryData[ins.droneId := []];
      }
      var droneData := telemetryData[ins.droneId] + [t];
      if |droneData| > MaxHistory {
        droneData := droneData[|droneData| - MaxHistory..];
      }
      telemetryData := telemetryData[ins.droneId := droneData];
    }

    // Geofences

    /** `getGeofences()`: every geofence, in insertion order. */
    function GetGeofences(): (gs: seq<Geofence>)
      reads this
      requires Valid()
      ensures |gs| == |geofences.order|
      ensures forall i :: 0 <= i < |gs| ==> gs[i] == geofences.entries[geofences.order[i]]
    {
      OM.Values(geofences)
    }

    function GetGeofence(id: Id): (r: Option<Geofence>)
      reads this
      ensures r.Some? <==> id in geofences.entries
      ensures r.Some? ==> r.value == geofences.entries[id]
    {
      OM.Get(geofences, id)
    }

    method CreateGeofence(ins: InsertGeofence, now: Time) returns (g: Geofence)
      requires Valid()
      modifies this`geofences
      ensures Valid()
      ensures g.id !in old(geofences.entries)
      ensures g == NewGeofence(ins, g.id, now)
      ensures geofences == OM.Put(old(geofences), g.id, g)
      ensures GetGeofences() == old(GetGeofences()) + [g]
    {
      OM.FreshKeyExists(geofences.entries.Keys);
      var id: Id :| id !in geofences.entries;
      g := NewGeofence(ins, id, now);
      OM.PutAbsentValues(geofences, id, g);
      geofences := OM.Put(geofences, id, g);
    }

    method UpdateGeofence(id: Id, p: GeofencePatch) returns (r: Option<Geofence>)
      requires Valid()
      modifies this`geofences
      ensures Valid()
      ensures id !in old(geofences.entries) ==> r.None? && geofences == old(geofences)
      ensures id in old(geofences.entries) ==>
        && r == Some(ApplyGeofencePatch(old(geofences.entries[id]), p))
        && geofences == OM.Put(old(geofences), id, r.value)
    {
      if id !in geofences.entries {
        return None;
      }
      var updated := ApplyGeofencePatch(geofences.entries[id], p);
      geofences := OM.Put(geofences, id, updated);
      r := Some(updated);
    }

    /** `deleteGeofence`: reports whether the geofence existed; it is gone after. */
    method DeleteGeofence(id: Id) returns (existed: bool)
      requires Valid()
      modifies this`geofences
      ensures Valid()
      ensures existed <==> id in old(geofences.entries)
      ensures id !in geofences.entries
      ensures geofences == OM.Delete(old(geofences), id)
    {
      existed := id in geofences.entries;
      geofences := OM.Delete(geofences, id);
    }

    // Alerts

    /** `getAlerts(droneId)`, on the store's alert table. */
    function GetAlerts(droneId: Option<Id>): (r: seq<Alert>)
      reads this
      requires Valid()
      ensures droneId.None? || droneId == Some("") ==>
        |r| == |alerts.order| && forall i :: 0 <= i < |r| ==> r[i] == alerts.entries[alerts.order[i]]
      ensures droneId.Some? && droneId.value != "" ==>
        forall a :: a in r <==> (exists k :: k in alerts.entries && alerts.entries[k] == a) && a.droneId == droneId
    {
      forall a ensures a in OM.Values(alerts) <==> exists k :: k in alerts.entries && alerts.entries[k] == a {
        OM.ValuesMembership(alerts, a);
      }
      SelectAlerts(alerts, droneId)
    }

    /** `createAlert` under a freshly drawn id: stored unacknowledged, listed last. */
    method CreateAlert(ins: InsertAlert, now: Time) returns (a: Alert)
      requires Valid()
      modifies this`alerts
      ensures Valid()
      ensures a.id !in old(alerts.entries)
      ensures a == NewAlert(ins, a.id, now) && !a.acknowledged
      ensures alerts == OM.Put(old(alerts), a.id, a)
      ensures OM.Values(alerts) == OM.Values(old(alerts)) + [a]
      ensures AcksKept(old(alerts), alerts)
    {
      OM.FreshKeyExists(alerts.entries.Keys);
      var id: Id :| id !in alerts.entries;
      a := NewAlert(ins, id, now);
      OM.PutAbsentValues(alerts, id, a);
      alerts := OM.Put(alerts, id, a);
    }

    /** `acknowledgeAlert`: false and no change for an unknown id; otherwise
        the alert is marked acknowledged in place. */
    method AcknowledgeAlert(id: Id) returns (found: bool)
      requires Valid()
      modifies this`alerts
      ensures Valid()
      ensures found <==> id in old(alerts.entries)
      ensures alerts == Acknowledge(old(alerts), id)
      ensures !found ==> alerts == old(alerts)
      ensures AcksKept(old(alerts), alerts)
    {
      AcknowledgeIdempotent(alerts, id);
      if id !in alerts.entries {
        return false;
      }
      var alert := alerts.entries[id];
      alert := alert.(acknowledged := true);
      alerts := OM.Put(alerts, id, alert);
      found := true;
    }
  }
}
