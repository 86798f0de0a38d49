/** The records the server stores and the client receives: drones, missions,
    telemetry samples, geofences and alerts, with the field names of the
    shared schema. Enumerated text columns become datatypes; nullable numbers
    are `Num`; identifiers are opaque strings and timestamps opaque integers. */
module Schema {
  import opened Wrappers
  import opened JsSemantics

  type Id = string

  /** A `Date`: only compared for equality and refreshed by the store. */
  type Time = int

  datatype Coordinate = Coordinate(lat: real, lng: real)

  datatype Waypoint = Waypoint(lat: real, lng: real, altitude: real)

  /** The status strings "offline", "idle", "active", "mission", "warning",
      "error" and "calibrating"; "mission" is `OnMission`. */
  datatype DroneStatus = Offline | Idle | Active | OnMission | Warning | Error | Calibrating

  datatype Drone = Drone(
    id: Id, name: string, model: string, status: DroneStatus,
    battery: Num, latitude: Num, longitude: Num, altitude: Num,
    speed: Num, heading: Num, signalStrength: Num,
    lastSeen: Time, createdAt: Time)

  /** The body of a drone creation: `status` may be left out. */
  datatype InsertDrone = InsertDrone(
    id: Id, name: string, model: string, status: Option<DroneStatus>,
    battery: Num, latitude: Num, longitude: Num, altitude: Num,
    speed: Num, heading: Num, signalStrength: Num)

  /** `Partial<Drone>`: `Some` marks a key that is present in the update. */
  datatype DronePatch = DronePatch(
    name: Option<string>, model: Option<string>, status: Option<DroneStatus>,
    battery: Option<Num>, latitude: Option<Num>, longitude: Option<Num>,
    altitude: Option<Num>, speed: Option<Num>, heading: Option<Num>,
    signalStrength: Option<Num>)

  datatype MissionStatus = Planned | Active | Paused | Completed | Cancelled

  datatype Mission = Mission(
    id: Id, name: string, description: Option<string>, droneId: Option<Id>,
    status: MissionStatus, missionType: string, waypoints: seq<Waypoint>,
    geofences: Option<seq<seq<Coordinate>>>, altitude: real, speed: Num,
    startTime: Option<Time>, endTime: Option<Time>, progress: real,
    createdAt: Time, updatedAt: Time)

  datatype InsertMission = InsertMission(
    name: string, description: Option<string>, droneId: Option<Id>,
    status: Option<MissionStatus>, missionType: string, waypoints: seq<Waypoint>,
    geofences: Option<seq<seq<Coordinate>>>, altitude: real, speed: Num)

  /** `Partial<Mission>` without `id` and the timestamps the store manages. */
  datatype MissionPatch = MissionPatch(
    name: Option<string>, description: Option<Option<string>>,
    droneId: Option<Option<Id>>, status: Option<MissionStatus>,
    missionType: Option<string>, waypoints: Option<seq<Waypoint>>,
    geofences: Option<Option<seq<seq<Coordinate>>>>, altitude: Option<real>,
    speed: Option<Num>, startTime: Option<Option<Time>>,
    endTime: Option<Option<Time>>, progress: Option<real>)

  datatype Telemetry = Telemetry(
    id: Id, droneId: Id, latitude: real, longitude: real, altitude: real,
    speed: real, heading: real, battery: real, signalStrength: real,
    timestamp: Time)

  datatype InsertTelemetry = InsertTelemetry(
    droneId: Id, latitude: real, longitude: real, altitude: real,
    speed: real, heading: real, battery: real, signalStrength: real)

  datatype GeofenceType = NoFly | Restricted | Warning

  datatype Geofence = Geofence(
    id: Id, name: string, fenceType: GeofenceType, coordinates: seq<Coordinate>,
    minAltitude: real, maxAltitude: real, active: bool, createdAt: Time)

  datatype InsertGeofence = InsertGeofence(
    name: string, fenceType: GeofenceType, coordinates: seq<Coordinate>,
    minAltitude: Num, maxAltitude: Num, active: Option<bool>)

  datatype GeofencePatch = GeofencePatch(
    name: Option<string>, fenceType: Option<GeofenceType>,
    coordinates: Option<seq<Coordinate>>, minAltitude: Option<real>,
    maxAltitude: Option<real>, active: Option<bool>)

  datatype AlertType = BatteryLow | SignalWeak | GeofenceViolation | MaintenanceRequired

  datatype Severity = Info | Warning | Error | Critical

  datatype Alert = Alert(
    id: Id, droneId: Option<Id>, alertType: AlertType, severity: Severity,
    title: string, message: string, acknowledged: bool, createdAt: Time)

  datatype InsertAlert = InsertAlert(
    droneId: Option<Id>, alertType: AlertType, severity: Severity,
    title: string, message: string)
}

/** The JSON envelopes `{type, data}` exchanged over the observer channel,
    already decoded. */
module Protocol {
  import opened Wrappers
  import opened Schema

  datatype Message =
    /** Snapshot pushed to a newly accepted observer; a field the sender left
        out is `None`. */
    | InitialData(drones: Option<seq<Drone>>, missions: Option<seq<Mission>>,
                  geofences: Option<seq<Geofence>>, alerts: Option<seq<Alert>>)
    | TelemetryUpdate(telemetry: Telemetry)
    | DroneUpdate(drone: Drone)
    | AlertRaised(alert: Alert)
    | Ping
    | Pong
    /** Externally ingested sample, client to server (`type: "telemetry"`). */
    | TelemetryIn(sample: InsertTelemetry)
    | Unknown(messageType: string)
}
