/** The MAVLink gateway stub: a registry of drone links and a guard that
    refuses commands and mission uploads to drones without a live link.
    Transport, timing and the simulated command outcome are abstracted:
    the outcome of a sent command is any boolean. */
module MavLink {
  import opened Wrappers
  import opened Schema
  import OM = OrderedMap

  datatype DroneConnection = DroneConnection(id: Id, connected: bool, lastHeartbeat: Time)

  /** What a guarded call yields: the error it throws, or the command it
      issued (with its parameters) and the resolved boolean. */
  datatype CommandOutcome =
    | Rejected(message: string)
    | Sent(command: string, params: seq<int>, accepted: bool)

  function NotConnectedMessage(droneId: Id): string
  {
    "Drone " + droneId + " not connected"
  }

  /** A link is recorded for the drone and marked connected. */
  predicate ConnectedIn(t: OM.Table<DroneConnection>, droneId: Id)
  {
    droneId in t.entries && t.entries[droneId].connected
  }

  /** The keys of `order` whose entry is connected, in order. */
  function ConnectedAmong(order: seq<Id>, entries: map<Id, DroneConnection>): (r: seq<Id>)
    ensures forall id :: id in r <==> id in order && id in entries && entries[id].connected
    ensures |r| <= |order|
  {
    if order == [] then []
    else
      var rest := ConnectedAmong(order[1..], entries);
      if order[0] in entries && entries[order[0]].connected then [order[0]] + rest else rest
  }

  /** `getConnectedDrones()`: the connected ids, in insertion order. */
  function ConnectedIds(t: OM.Table<DroneConnection>): (r: seq<Id>)
    requires OM.Valid(t)
    ensures forall id :: id in r <==> ConnectedIn(t, id)
  {
    ConnectedAmong(t.order, t.entries)
  }

  /** Every link the gateway records is created connected and none is ever
      marked otherwise. */
  predicate AllConnected(t: OM.Table<DroneConnection>)
  {
    forall id :: id in t.entries ==> t.entries[id].connected && t.entries[id].id == id
  }

  /** So the connected list is simply every recorded id, in insertion order. */
  lemma {:induction false} ConnectedAmongAll(order: seq<Id>, entries: map<Id, DroneConnection>)
    requires forall id :: id in order ==> id in entries && entries[id].connected
    ensures ConnectedAmong(order, entries) == order
  {
    if order != [] {
      assert forall id :: id in order[1..] ==> id in order;
      ConnectedAmongAll(order[1..], entries);
      assert order[0] in order;
    }
  }

  lemma ConnectedIdsAreAllIds(t: OM.Table<DroneConnection>)
    requires OM.Valid(t) && AllConnected(t)
    ensures ConnectedIds(t) == t.order
  {
    ConnectedAmongAll(t.order, t.entries);
  }

  class Gateway {
    var connections: OM.Table<DroneConnection>

    ghost predicate Valid()
      reads this
    {
      OM.Valid(connections) && AllConnected(connections)
    }

    constructor ()
      ensures Valid() && connections.entries == map[]
      ensures forall id :: !IsConnected(id)
    {
      connections := OM.Empty();
    }

    /** `isConnected` */
    predicate IsConnected(droneId: Id)
      reads this
    {
      ConnectedIn(connections, droneId)
    }

    /** `getConnectedDrones` */
    function GetConnectedDrones(): (ids: seq<Id>)
      reads this
      requires Valid()
      ensures forall id :: id in ids <==> IsConnected(id)
    {
      ConnectedIds(connections)
    }

    /** `connectDrone`: records (or refreshes) a live link and reports
        success; the connection string is only logged. */
    method ConnectDrone(droneId: Id, connectionString: string, now: Time) returns (ok: bool)
      requires Valid()
      modifies this`connections
      ensures Valid()
      ensures ok && IsConnected(droneId)
      ensures connections == OM.Put(old(connections), droneId, DroneConnection(droneId, true, now))
      ensures forall id :: id != droneId ==> (IsConnected(id) <==> old(IsConnected(id)))
    {
      connections := OM.Put(connections, droneId, DroneConnection(droneId, true, now));
      ok := true;
    }

    /** `disconnectDrone`: forgets the link. */
    method DisconnectDrone(droneId: Id)
      requires Valid()
      modifies this`connections
      ensures Valid()
      ensures !IsConnected(droneId)
      ensures connections == OM.Delete(old(connections), droneId)
      ensures forall id :: id != droneId ==> (IsConnected(id) <==> old(IsConnected(id)))
    {
      connections := OM.Delete(connections, droneId);
    }

    /** `sendCommand`: throws for a drone without a live link; otherwise
        issues the command, whose outcome is not determined here. */
    method SendCommand(droneId: Id, command: string, params: seq<int>) returns (r: CommandOutcome)
      ensures !IsConnected(droneId) ==> r == Rejected(NotConnectedMessage(droneId))
      ensures IsConnected(droneId) ==> r.Sent? && r.command == command && r.params == params
    {
      var connection := OM.Get(connections, droneId);
      if connection.None? || !connection.value.connected {
        return Rejected(NotConnectedMessage(droneId));
      }
      var accepted: bool :| true;
      r := Sent(command, params, accepted);
    }

    /** `uploadMission`: the same guard; an accepted upload always succeeds. */
    method UploadMission(droneId: Id, waypoints: seq<Waypoint>) returns (r: Result<bool, string>)
      ensures !IsConnected(droneId) ==> r == Failure(NotConnectedMessage(droneId))
      ensures IsConnected(droneId) ==> r == Success(true)
    {
      var connection := OM.Get(connections, droneId);
      if connection.None? || !connection.value.connected {
        return Failure(NotConnectedMessage(droneId));
      }
      r := Success(true);
    }

    method StartMission(droneId: Id) returns (r: CommandOutcome)
      ensures !IsConnected(droneId) <==> r.Rejected?
      ensures r.Sent? ==> r.command == "MAV_CMD_MISSION_START" && r.params == []
    {
      r := SendCommand(droneId, "MAV_CMD_MISSION_START", []);
    }

    method PauseMission(droneId: Id) returns (r: CommandOutcome)
      ensures !IsConnected(droneId) <==> r.Rejected?
      ensures r.Sent? ==> r.command == "MAV_CMD_DO_PAUSE_CONTINUE" && r.params == [0]
    {
      r := SendCommand(droneId, "MAV_CMD_DO_PAUSE_CONTINUE", [0]);
    }

    method ResumeMission(droneId: Id) returns (r: CommandOutcome)
      ensures !IsConnected(droneId) <==> r.Rejected?
      ensures r.Sent? ==> r.command == "MAV_CMD_DO_PAUSE_CONTINUE" && r.params == [1]
    {
      r := SendCommand(droneId, "MAV_CMD_DO_PAUSE_CONTINUE", [1]);
    }

    method ReturnToLaunch(droneId: Id) returns (r: CommandOutcome)
      ensures !IsConnected(droneId) <==> r.Rejected?
      ensures r.Sent? ==> r.command == "MAV_CMD_NAV_RETURN_TO_LAUNCH" && r.params == []
    {
      r := SendCommand(droneId, "MAV_CMD_NAV_RETURN_TO_LAUNCH", []);
    }

    method Arm(droneId: Id) returns (r: CommandOutcome)
      ensures !IsConnected(droneId) <==> r.Rejected?
      ensures r.Sent? ==> r.command == "MAV_CMD_COMPONENT_ARM_DISARM" && r.params == [1]
    {
      r := SendCommand(droneId, "MAV_CMD_COMPONENT_ARM_DISARM", [1]);
    }

    method Disarm(droneId: Id) returns (r: CommandOutcome)
      ensures !IsConnected(droneId) <==> r.Rejected?
      ensures r.Sent? ==> r.command == "MAV_CMD_COMPONENT_ARM_DISARM" && r.params == [0]
    {
      r := SendCommand(droneId, "MAV_CMD_COMPONENT_ARM_DISARM", [0]);
    }
  }
}
