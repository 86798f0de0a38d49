/** The server side of the observer channel: the set of connected clients,
    broadcasts to the open ones, the two inbound message kinds it acts on,
    and the two-second telemetry simulator with its low-battery alert. */
module WebSocketHub {
  import opened Wrappers
  import opened JsSemantics
  import opened Schema
  import opened Storage
  import opened Protocol
  import OM = OrderedMap

  datatype ReadyState = Connecting | Open | Closing | Closed

  /** One client socket, reduced to its state and the messages the server
      has sent it, oldest first. */
  class Connection {
    var readyState: ReadyState
    var sent: seq<Message>

    constructor (state: ReadyState)
      ensures readyState == state && sent == []
    {
      readyState := state;
      sent := [];
    }
  }

  /** Every client of `clients` kept its state and received `msg` exactly
      when it was open; the others received nothing. */
  twostate predicate SentToOpen(clients: set<Connection>, msg: Message)
    reads clients
  {
    forall c :: c in clients ==>
      && c.readyState == old(c.readyState)
      && c.sent == old(c.sent) + (if c.readyState == Open then [msg] else [])
  }

  /** The update that projects a telemetry sample onto its drone. */
  function TelemetryPatch(t: Telemetry): (p: DronePatch)
    ensures p.name.None? && p.model.None? && p.status.None?
    ensures p.battery == Some(Some(t.battery)) && p.signalStrength == Some(Some(t.signalStrength))
  {
    DronePatch(None, None, None, Some(Some(t.battery)), Some(Some(t.latitude)),
               Some(Some(t.longitude)), Some(Some(t.altitude)), Some(Some(t.speed)),
               Some(Some(t.heading)), Some(Some(t.signalStrength)))
  }

  /** After a sample, the drone reports the sample's position and readings
      and keeps its identity, name, model and status. */
  lemma TelemetryMovesDrone(d: Drone, t: Telemetry, now: Time)
    ensures var r := ApplyDronePatch(d, TelemetryPatch(t), now);
      && r.latitude == Some(t.latitude) && r.longitude == Some(t.longitude)
      && r.altitude == Some(t.altitude) && r.speed == Some(t.speed)
      && r.heading == Some(t.heading) && r.battery == Some(t.battery)
      && r.signalStrength == Some(t.signalStrength)
      && r.id == d.id && r.name == d.name && r.model == d.model && r.status == d.status
      && r.lastSeen == now && r.createdAt == d.createdAt
  {
  }

  // ---------------------------------------------------------------------
  // Simulated telemetry
  // ---------------------------------------------------------------------

  /** The seven `Math.random()` draws one simulated sample uses. */
  datatype Draws = Draws(lat: real, lng: real, alt: real, speed: real,
                         heading: real, battery: real, signal: real)

  predicate UnitDraws(r: Draws)
  {
    && 0.0 <= r.lat < 1.0 && 0.0 <= r.lng < 1.0 && 0.0 <= r.alt < 1.0
    && 0.0 <= r.speed < 1.0 && 0.0 <= r.heading < 1.0 && 0.0 <= r.battery < 1.0
    && 0.0 <= r.signal < 1.0
  }

  /** A sample jittered from the drone's last readings (a `null` reading
      counts as 0, as `null + x` does). */
  function SynthSample(d: Drone, r: Draws): (t: InsertTelemetry)
    requires UnitDraws(r)
    ensures t.droneId == d.id
    ensures NumOr0(d.latitude) - 0.0005 <= t.latitude < NumOr0(d.latitude) + 0.0005
    ensures NumOr0(d.longitude) - 0.0005 <= t.longitude < NumOr0(d.longitude) + 0.0005
    ensures NumOr0(d.altitude) - 2.5 <= t.altitude < NumOr0(d.altitude) + 2.5
    ensures 0.0 <= t.speed <= Max(0.0, NumOr0(d.speed) + 2.5)
    ensures -360.0 < t.heading < 360.0
    ensures 0.0 <= t.battery <= Max(0.0, NumOr0(d.battery))
    ensures t.battery == 0.0 || NumOr0(d.battery) - 0.1 < t.battery
  {
    var heading := NumOr0(d.heading) + (r.heading - 0.5) * 10.0;
    InsertTelemetry(
      d.id,
      NumOr0(d.latitude) + (r.lat - 0.5) * 0.001,
      NumOr0(d.longitude) + (r.lng - 0.5) * 0.001,
      NumOr0(d.altitude) + (r.alt - 0.5) * 5.0,
      Max(0.0, NumOr0(d.speed) + (r.speed - 0.5) * 5.0),
      TruncRem(heading, 360.0),
      Max(0.0, NumOr0(d.battery) - r.battery * 0.1),
      NumOr0(d.signalStrength) + (r.signal - 0.5) * 5.0)
  }

  /** The simulator's heading is the jittered heading reduced by whole turns
      of 360 degrees, keeping its sign as JavaScript's `%` does, and left
      untouched when it is already within (-360, 360). */
  lemma SynthHeadingSign(d: Drone, r: Draws)
    requires UnitDraws(r)
    ensures var h := NumOr0(d.heading) + (r.heading - 0.5) * 10.0;
      (h >= 0.0 ==> SynthSample(d, r).heading >= 0.0)
      && (h < 0.0 ==> SynthSample(d, r).heading <= 0.0)
      && (-360.0 < h < 360.0 ==> SynthSample(d, r).heading == h)
      && ((h - SynthSample(d, r).heading) / 360.0).Floor as real == (h - SynthSample(d, r).heading) / 360.0
  {
  }

  /** Only drones that are flying produce samples. */
  predicate Flying(d: Drone)
  {
    d.status == DroneStatus.Active || d.status == DroneStatus.OnMission
  }

  predicate IsOpenLowBattery(a: Alert)
  {
    a.alertType == BatteryLow && !a.acknowledged
  }

  /** Some alert of the drone is a low-battery alert not yet acknowledged. */
  predicate HasOpenLowBattery(alerts: seq<Alert>)
  {
    exists i :: 0 <= i < |alerts| && IsOpenLowBattery(alerts[i])
  }

  /** The alert raised for a drone whose sample reads `battery` percent. */
  function LowBatteryInsert(droneId: Id, battery: real): (ins: InsertAlert)
    ensures ins.droneId == Some(droneId) && ins.alertType == BatteryLow
    ensures ins.severity == Severity.Warning
    ensures |ins.message| > |droneId| && ins.message[..|droneId|] == droneId
  {
    InsertAlert(Some(droneId), BatteryLow, Severity.Warning, "Low Battery Warning",
                droneId + " battery at " + IntToString(Round(battery))
                + "%. Return to base recommended.")
  }

  /** The simulator's de-duplication: no drone has two open low-battery
      alerts. */
  predicate OneOpenLowBatteryPerDrone(alerts: OM.Table<Alert>)
  {
    forall k1, k2 :: k1 in alerts.entries && k2 in alerts.entries
      && IsOpenLowBattery(alerts.entries[k1]) && IsOpenLowBattery(alerts.entries[k2])
      && alerts.entries[k1].droneId.Some? && alerts.entries[k1].droneId == alerts.entries[k2].droneId
      ==> k1 == k2
  }

  /** Raising the alert only when the drone's listing has no open one keeps
      at most one open low-battery alert per drone. */
  lemma RaiseKeepsOneOpenPerDrone(alerts: OM.Table<Alert>, id: Id, droneId: Id, battery: real, now: Time)
    requires OM.Valid(alerts) && OneOpenLowBatteryPerDrone(alerts) && id !in alerts.entries
    requires !HasOpenLowBattery(SelectAlerts(alerts, Some(droneId)))
    ensures OneOpenLowBatteryPerDrone(
      OM.Put(alerts, id, NewAlert(LowBatteryInsert(droneId, battery), id, now)))
  {
    var a := NewAlert(LowBatteryInsert(droneId, battery), id, now);
    forall k | k in alerts.entries && IsOpenLowBattery(alerts.entries[k])
      ensures alerts.entries[k].droneId != Some(droneId)
    {
      if alerts.entries[k].droneId == Some(droneId) {
        OpenAlertIsListed(alerts, k, droneId);
      }
    }
    assert a.droneId.Some? ==> a.droneId == Some(droneId);
  }

  /** An open low-battery alert of a drone shows up in that drone's listing. */
  lemma OpenAlertIsListed(alerts: OM.Table<Alert>, k: Id, droneId: Id)
    requires OM.Valid(alerts) && k in alerts.entries
    requires IsOpenLowBattery(alerts.entries[k]) && alerts.entries[k].droneId == Some(droneId)
    ensures HasOpenLowBattery(SelectAlerts(alerts, Some(droneId)))
  {
    var r := SelectAlerts(alerts, Some(droneId));
    OM.ValuesMembership(alerts, alerts.entries[k]);
    assert alerts.entries[k] in r;
    var i :| 0 <= i < |r| && r[i] == alerts.entries[k];
  }

  /** Acknowledging can only close alerts, so it keeps the property. */
  lemma AcknowledgeKeepsOneOpenPerDrone(alerts: OM.Table<Alert>, id: Id)
    requires OM.Valid(alerts) && OneOpenLowBatteryPerDrone(alerts)
    ensures OneOpenLowBatteryPerDrone(Acknowledge(alerts, id))
  {
    var t := Acknowledge(alerts, id);
    forall k | k in t.entries && IsOpenLowBattery(t.entries[k])
      ensures k in alerts.entries && alerts.entries[k] == t.entries[k]
    {
    }
  }

  /** An alert the simulator creates. */
  predicate RaisedBySimulator(a: Alert)
  {
    IsOpenLowBattery(a) && a.severity == Severity.Warning && a.title == "Low Battery Warning"
  }

  /** What the simulator does to the alert map: every existing alert stays
      as it was, and every new one is a simulator low-battery alert. */
  ghost predicate AlertsOnlyGrow(before: OM.Table<Alert>, after: OM.Table<Alert>)
  {
    && (forall k :: k in before.entries ==> k in after.entries && after.entries[k] == before.entries[k])
    && (forall k :: k in after.entries && k !in before.entries ==> RaisedBySimulator(after.entries[k]))
  }

  lemma AlertsOnlyGrowTransitive(a: OM.Table<Alert>, b: OM.Table<Alert>, c: OM.Table<Alert>)
    requires AlertsOnlyGrow(a, b) && AlertsOnlyGrow(b, c)
    ensures AlertsOnlyGrow(a, c)
  {
  }

  /** Growing only never reopens or removes an acknowledged alert. */
  lemma GrowthKeepsAcks(before: OM.Table<Alert>, after: OM.Table<Alert>)
    requires AlertsOnlyGrow(before, after)
    ensures AcksKept(before, after)
  {
  }

  // ---------------------------------------------------------------------
  // One simulator run, drone by drone
  // ---------------------------------------------------------------------

  /** What the simulator did for one drone of its snapshot: the stored
      sample, if it made one, and the alert it raised, if any. */
  datatype Outcome = Outcome(sample: Option<Telemetry>, alert: Option<Alert>)

  /** The simulator's rule for one drone, given its seven draws and the
      alert table as it stood when the drone's turn came: a drone yields a
      sample jittered from its last readings exactly when it is flying, and
      a low-battery alert exactly when that sample reads strictly between 20
      and 25 percent and the drone's listing has no open low-battery alert. */
  ghost predicate DroneOutcome(drone: Drone, r: Draws, now: Time, alerts: OM.Table<Alert>, o: Outcome)
  {
    && UnitDraws(r) && OM.Valid(alerts)
    && (o.sample.Some? <==> Flying(drone))
    && (o.sample.Some? ==> o.sample.value == Stamp(SynthSample(drone, r), o.sample.value.id, now))
    && (o.alert.Some? <==>
          && o.sample.Some? && 20.0 < o.sample.value.battery < 25.0
          && !HasOpenLowBattery(SelectAlerts(alerts, Some(drone.id))))
    && (o.alert.Some? ==>
          && o.alert.value == NewAlert(LowBatteryInsert(drone.id, o.sample.value.battery), o.alert.value.id, now)
          && o.alert.value.id !in alerts.entries)
  }

  /** The samples stored for drone `d`, empty when it has none. */
  function HistoryIn(h: map<Id, seq<Telemetry>>, d: Id): seq<Telemetry>
  {
    if d in h then h[d] else []
  }

  /** The telemetry map after one drone's turn: its sample, if any, is
      appended to its drone's history, capped at 1000. */
  function OutcomeHistories(h: map<Id, seq<Telemetry>>, o: Outcome): map<Id, seq<Telemetry>>
  {
    if o.sample.None? then h
    else
      var t := o.sample.value;
      h[t.droneId := AppendCapped(HistoryIn(h, t.droneId), t, MaxHistory)]
  }

  /** The drone table after one drone's turn: a sample moves its drone, if
      that drone is stored; the order of the table never changes. */
  function OutcomeDrones(ds: OM.Table<Drone>, o: Outcome, now: Time): (r: OM.Table<Drone>)
    requires OM.Valid(ds)
    ensures OM.Valid(r) && r.order == ds.order && r.entries.Keys == ds.entries.Keys
  {
    if o.sample.None? || o.sample.value.droneId !in ds.entries then ds
    else
      var t := o.sample.value;
      OM.Put(ds, t.droneId, ApplyDronePatch(ds.entries[t.droneId], TelemetryPatch(t), now))
  }

  /** The alert table after one drone's turn. */
  function OutcomeAlerts(alerts: OM.Table<Alert>, o: Outcome): (r: OM.Table<Alert>)
    requires OM.Valid(alerts)
    ensures OM.Valid(r)
  {
    if o.alert.None? then alerts else OM.Put(alerts, o.alert.value.id, o.alert.value)
  }

  /** What every open client receives for one drone's turn: the telemetry
      update, then the alert. */
  function OutcomeMessages(o: Outcome): seq<Message>
  {
    (if o.sample.Some? then [TelemetryUpdate(o.sample.value)] else [])
    + (if o.alert.Some? then [AlertRaised(o.alert.value)] else [])
  }

  /** The same four effects over the turns of a whole run, in order. */
  function TickHistories(h: map<Id, seq<Telemetry>>, os: seq<Outcome>): map<Id, seq<Telemetry>>
    decreases |os|
  {
    if os == [] then h else OutcomeHistories(TickHistories(h, os[..|os| - 1]), os[|os| - 1])
  }

  function TickDrones(ds: OM.Table<Drone>, os: seq<Outcome>, now: Time): (r: OM.Table<Drone>)
    requires OM.Valid(ds)
    ensures OM.Valid(r) && r.order == ds.order && r.entries.Keys == ds.entries.Keys
    decreases |os|
  {
    if os == [] then ds else OutcomeDrones(TickDrones(ds, os[..|os| - 1], now), os[|os| - 1], now)
  }

  function TickAlerts(alerts: OM.Table<Alert>, os: seq<Outcome>): (r: OM.Table<Alert>)
    requires OM.Valid(alerts)
    ensures OM.Valid(r)
    decreases |os|
  {
    if os == [] then alerts else OutcomeAlerts(TickAlerts(alerts, os[..|os| - 1]), os[|os| - 1])
  }

  function TickMessages(os: seq<Outcome>): seq<Message>
    decreases |os|
  {
    if os == [] then [] else TickMessages(os[..|os| - 1]) + OutcomeMessages(os[|os| - 1])
  }

  /** Every client of `clients` kept its state and received `msgs` exactly
      when it was open; the others received nothing. */
  twostate predicate SentAllToOpen(clients: set<Connection>, msgs: seq<Message>)
    reads clients
  {
    forall c :: c in clients ==>
      && c.readyState == old(c.readyState)
      && c.sent == old(c.sent) + (if c.readyState == Open then msgs else [])
  }

  /** The samples a run stored for drone `d`, in order. */
  function SamplesFor(os: seq<Outcome>, d: Id): (ts: seq<Telemetry>)
    ensures forall t :: t in ts ==> t.droneId == d
    decreases |os|
  {
    if os == [] then []
    else
      var o := os[|os| - 1];
      SamplesFor(os[..|os| - 1], d) + (if o.sample.Some? && o.sample.value.droneId == d then [o.sample.value] else [])
  }

  /** The turns of a run so far: turn `i` followed the simulator's rule for
      the `i`-th drone of the snapshot and its draws, against the alert
      table the earlier turns left. */
  ghost predicate RunOutcomes(snapshot: seq<Drone>, draws: seq<Draws>, now: Time,
                              start: OM.Table<Alert>, os: seq<Outcome>)
    requires OM.Valid(start)
    decreases |os|
  {
    && |os| <= |snapshot| && |os| <= |draws|
    && (os != [] ==>
          var n := |os| - 1;
          && RunOutcomes(snapshot, draws, now, start, os[..n])
          && DroneOutcome(snapshot[n], draws[n], now, TickAlerts(start, os[..n]), os[n]))
  }

  /** Any turn of a run followed the rule. */
  lemma {:induction false} RunOutcomeAt(snapshot: seq<Drone>, draws: seq<Draws>, now: Time,
                                        start: OM.Table<Alert>, os: seq<Outcome>, i: nat)
    requires OM.Valid(start) && RunOutcomes(snapshot, draws, now, start, os) && i < |os|
    ensures RunOutcomes(snapshot, draws, now, start, os[..i])
    ensures DroneOutcome(snapshot[i], draws[i], now, TickAlerts(start, os[..i]), os[i])
    decreases |os|
  {
    var n := |os| - 1;
    if i < n {
      RunOutcomeAt(snapshot, draws, now, start, os[..n], i);
      assert os[..n][..i] == os[..i];
    }
  }

  /** One more turn extends a run. */
  lemma RunOutcomesStep(snapshot: seq<Drone>, draws: seq<Draws>, now: Time,
                        start: OM.Table<Alert>, os: seq<Outcome>, o: Outcome)
    requires OM.Valid(start) && RunOutcomes(snapshot, draws, now, start, os)
    requires |os| < |snapshot| && |os| < |draws|
    requires DroneOutcome(snapshot[|os|], draws[|os|], now, TickAlerts(start, os), o)
    ensures RunOutcomes(snapshot, draws, now, start, os + [o])
  {
    assert (os + [o])[..|os|] == os;
  }

  /** One more turn applies its own effects after the earlier ones. */
  lemma TickStep(h: map<Id, seq<Telemetry>>, ds: OM.Table<Drone>, alerts: OM.Table<Alert>,
                 os: seq<Outcome>, o: Outcome, now: Time)
    requires OM.Valid(ds) && OM.Valid(alerts)
    ensures TickHistories(h, os + [o]) == OutcomeHistories(TickHistories(h, os), o)
    ensures TickDrones(ds, os + [o], now) == OutcomeDrones(TickDrones(ds, os, now), o, now)
    ensures TickAlerts(alerts, os + [o]) == OutcomeAlerts(TickAlerts(alerts, os), o)
    ensures TickMessages(os + [o]) == TickMessages(os) + OutcomeMessages(o)
  {
    assert (os + [o])[..|os|] == os;
  }

  /** After a run, a drone's history is its old history with the run's
      samples for it appended one at a time under the cap; so it is the
      newest 1000 of both (`AppendAllKeepsNewest`), and a drone the run
      made no sample for keeps its history, present or absent, unchanged. */
  lemma {:induction false} TickHistoryOf(h: map<Id, seq<Telemetry>>, os: seq<Outcome>, d: Id)
    ensures HistoryIn(TickHistories(h, os), d) == AppendAllCapped(HistoryIn(h, d), SamplesFor(os, d), MaxHistory)
    ensures d in TickHistories(h, os) <==> d in h || SamplesFor(os, d) != []
    decreases |os|
  {
    if os != [] {
      var init, o := os[..|os| - 1], os[|os| - 1];
      TickHistoryOf(h, init, d);
      var before := TickHistories(h, init);
      assert TickHistories(h, os) == OutcomeHistories(before, o);
      if o.sample.Some? && o.sample.value.droneId == d {
        var t := o.sample.value;
        assert SamplesFor(os, d) == SamplesFor(init, d) + [t];
        assert HistoryIn(TickHistories(h, os), d) == AppendCapped(HistoryIn(before, d), t, MaxHistory);
        AppendAllCappedSnoc(HistoryIn(h, d), SamplesFor(init, d), t, MaxHistory);
      } else {
        assert SamplesFor(os, d) == SamplesFor(init, d) + [] == SamplesFor(init, d);
        assert HistoryIn(TickHistories(h, os), d) == HistoryIn(before, d);
      }
    }
  }

  /** Appending one more sample after many is one more capped append. */
  lemma {:induction false} AppendAllCappedSnoc<T>(h: seq<T>, xs: seq<T>, x: T, cap: nat)
    ensures AppendAllCapped(h, xs + [x], cap) == AppendCapped(AppendAllCapped(h, xs, cap), x, cap)
    decreases |xs|
  {
    if xs == [] {
      assert [] + [x] == [x];
    } else {
      assert (xs + [x])[1..] == xs[1..] + [x];
      AppendAllCappedSnoc(AppendCapped(h, xs[0], cap), xs[1..], x, cap);
    }
  }

  /** Samples come only from flying drones: the run stores a sample for `d`
      exactly when some flying drone of the snapshot has id `d`. */
  lemma {:induction false} SamplesOnlyForFlyingDrones(
    snapshot: seq<Drone>, draws: seq<Draws>, now: Time, start: OM.Table<Alert>, os: seq<Outcome>, d: Id)
    requires OM.Valid(start) && RunOutcomes(snapshot, draws, now, start, os)
    ensures SamplesFor(os, d) != [] <==> exists i :: 0 <= i < |os| && snapshot[i].id == d && Flying(snapshot[i])
    decreases |os|
  {
    if os != [] {
      var n := |os| - 1;
      SamplesOnlyForFlyingDrones(snapshot, draws, now, start, os[..n], d);
      var o := os[n];
      assert o.sample.Some? <==> Flying(snapshot[n]);
      if o.sample.Some? {
        assert o.sample.value.droneId == snapshot[n].id;
      }
      assert SamplesFor(os, d) != [] <==>
        SamplesFor(os[..n], d) != [] || (o.sample.Some? && o.sample.value.droneId == d);
    }
  }

  /** So a drone id that no flying drone of the snapshot carries keeps its
      history exactly as it was, present or absent. */
  lemma GroundedDroneKeepsHistory(snapshot: seq<Drone>, draws: seq<Draws>, now: Time,
                                  start: OM.Table<Alert>, os: seq<Outcome>, h: map<Id, seq<Telemetry>>, d: Id)
    requires OM.Valid(start) && RunOutcomes(snapshot, draws, now, start, os)
    requires forall i :: 0 <= i < |os| && snapshot[i].id == d ==> !Flying(snapshot[i])
    ensures d in TickHistories(h, os) <==> d in h
    ensures HistoryIn(TickHistories(h, os), d) == HistoryIn(h, d)
  {
    SamplesOnlyForFlyingDrones(snapshot, draws, now, start, os, d);
    TickHistoryOf(h, os, d);
  }

  /** Other drones' alerts never show in a drone's listing: a run in which
      no drone has id `d` leaves the listing of `d` as it was, because every
      alert it raises belongs to its own drone and is stored under a fresh
      id, so it only extends the table. */
  lemma {:induction false} ListingUnaffected(
    snapshot: seq<Drone>, draws: seq<Draws>, now: Time, start: OM.Table<Alert>, os: seq<Outcome>, d: Id)
    requires OM.Valid(start) && RunOutcomes(snapshot, draws, now, start, os) && d != ""
    requires forall j :: 0 <= j < |os| ==> snapshot[j].id != d
    ensures SelectAlerts(TickAlerts(start, os), Some(d)) == SelectAlerts(start, Some(d))
    decreases |os|
  {
    if os != [] {
      var n := |os| - 1;
      ListingUnaffected(snapshot, draws, now, start, os[..n], d);
      var before := TickAlerts(start, os[..n]);
      if os[n].alert.Some? {
        var a := os[n].alert.value;
        assert a.id !in before.entries && a.droneId != Some(d);
        OM.PutAbsentValues(before, a.id, a);
        FilterByDroneSnoc(OM.Values(before), a, d);
        assert FilterByDrone(OM.Values(before) + [a], d) == FilterByDrone(OM.Values(before), d) + [];
      }
    }
  }

  /** Filtering one more alert. */
  lemma {:induction false} FilterByDroneSnoc(alerts: seq<Alert>, a: Alert, d: Id)
    ensures FilterByDrone(alerts + [a], d) == FilterByDrone(alerts, d) + (if a.droneId == Some(d) then [a] else [])
    decreases |alerts|
  {
    if alerts == [] {
      assert [] + [a] == [a];
    } else {
      var all := alerts + [a];
      assert all[0] == alerts[0] && all[1..] == alerts[1..] + [a];
      FilterByDroneSnoc(alerts[1..], a, d);
    }
  }

  /** So within one run, a drone whose id is non-empty and unique in the
      snapshot produces a sample exactly when it is flying, and raises a
      low-battery alert exactly when that sample reads strictly between 20
      and 25 percent and it had no open low-battery alert when the run
      started. */
  lemma AlertIffNoOpenAlertAtStart(
    snapshot: seq<Drone>, draws: seq<Draws>, now: Time, start: OM.Table<Alert>, os: seq<Outcome>, i: nat)
    requires OM.Valid(start) && RunOutcomes(snapshot, draws, now, start, os) && i < |os|
    requires snapshot[i].id != "" && forall j :: 0 <= j < i ==> snapshot[j].id != snapshot[i].id
    ensures os[i].sample.Some? <==> Flying(snapshot[i])
    ensures os[i].alert.Some? <==>
      && os[i].sample.Some? && 20.0 < os[i].sample.value.battery < 25.0
      && !HasOpenLowBattery(SelectAlerts(start, Some(snapshot[i].id)))
  {
    RunOutcomeAt(snapshot, draws, now, start, os, i);
    ListingUnaffected(snapshot, draws, now, start, os[..i], snapshot[i].id);
  }

  /** The seeded store, with its one alert, meets the simulator's
      precondition. */
  lemma SingleAlertOneOpen(alerts: OM.Table<Alert>)
    requires OM.Valid(alerts) && |alerts.order| == 1
    ensures OneOpenLowBatteryPerDrone(alerts)
  {
    assert forall k :: k in alerts.entries ==> k == alerts.order[0];
  }

  lemma SeqAssoc(a: seq<Message>, b: seq<Message>, c: seq<Message>)
    ensures (a + b) + c == a + (b + c)
  {
  }

  // ---------------------------------------------------------------------
  // The hub
  // ---------------------------------------------------------------------

  class Hub {
    const store: MemStorage
    var clients: set<Connection>

    constructor (store: MemStorage)
      ensures this.store == store && clients == {}
    {
      this.store := store;
      clients := {};
    }

    /** The `initial_data` snapshot: every drone, mission, geofence and
        alert, each in insertion order. */
    function Snapshot(): (m: Message)
      reads this, store
      requires store.Valid()
      ensures m.InitialData? && m.drones.Some? && m.missions.Some?
      ensures m.geofences.Some? && m.alerts.Some?
      ensures |m.drones.value| == |store.drones.order|
      ensures forall i :: 0 <= i < |m.drones.value| ==> m.drones.value[i] == store.drones.entries[store.drones.order[i]]
      ensures |m.missions.value| == |store.missions.order|
      ensures forall i :: 0 <= i < |m.missions.value| ==> m.missions.value[i] == store.missions.entries[store.missions.order[i]]
      ensures |m.geofences.value| == |store.geofences.order|
      ensures forall i :: 0 <= i < |m.geofences.value| ==> m.geofences.value[i] == store.geofences.entries[store.geofences.order[i]]
      ensures |m.alerts.value| == |store.alerts.order|
      ensures forall i :: 0 <= i < |m.alerts.value| ==> m.alerts.value[i] == store.alerts.entries[store.alerts.order[i]]
    {
      InitialData(Some(store.GetDrones()), Some(store.GetMissions()),
                  Some(store.GetGeofences()), Some(store.GetAlerts(None)))
    }

    /** `connection`: the socket joins the client set and, if it is open,
        receives the snapshot. */
    method Accept(ws: Connection)
      requires store.Valid()
      modifies this`clients, ws
      ensures clients == old(clients) + {ws}
      ensures ws.readyState == old(ws.readyState)
      ensures ws.sent == old(ws.sent) + (if ws.readyState == Open then [Snapshot()] else [])
    {
      clients := clients + {ws};
      SendInitialData(ws);
    }

    /** `sendInitialData` */
    method SendInitialData(ws: Connection)
      requires store.Valid()
      modifies ws
      ensures ws.readyState == old(ws.readyState)
      ensures ws.sent == old(ws.sent) + (if ws.readyState == Open then [Snapshot()] else [])
    {
      var initialData := Snapshot();
      if ws.readyState == Open {
        ws.sent := ws.sent + [initialData];
      }
    }

    /** `close` and `error` both drop the socket from the client set. */
    method Disconnect(ws: Connection)
      modifies this`clients
      ensures clients == old(clients) - {ws}
    {
      clients := clients - {ws};
    }

    /** `broadcast`: every open client receives the message once. */
    method Broadcast(msg: Message)
      modifies clients
      ensures SentToOpen(clients, msg)
    {
      var pending := clients;
      while pending != {}
        invariant pending <= clients
        invariant forall c :: c in clients ==> c.readyState == old(c.readyState)
        invariant forall c :: c in pending ==> c.sent == old(c.sent)
        invariant forall c :: c in clients && c !in pending ==>
          c.sent == old(c.sent) + (if c.readyState == Open then [msg] else [])
        decreases pending
      {
        var client :| client in pending;
        if client.readyState == Open {
          client.sent := client.sent + [msg];
        }
        pending := pending - {client};
      }
    }

    /** `broadcastTelemetryUpdate`: tells every open client, then moves the
        sample's drone to the sample's readings; a sample for an unknown
        drone changes no drone. */
    method BroadcastTelemetryUpdate(t: Telemetry, now: Time)
      requires store.Valid()
      modifies clients, store`drones
      ensures store.Valid()
      ensures SentToOpen(clients, TelemetryUpdate(t))
      ensures t.droneId !in old(store.drones.entries) ==> store.drones == old(store.drones)
      ensures t.droneId in old(store.drones.entries) ==>
        store.drones == OM.Put(old(store.drones), t.droneId,
                               ApplyDronePatch(old(store.drones.entries[t.droneId]), TelemetryPatch(t), now))
      ensures store.drones.order == old(store.drones.order)
    {
      Broadcast(TelemetryUpdate(t));
      var _ := store.UpdateDrone(t.droneId, TelemetryPatch(t), now);
    }

    /** `broadcastDroneUpdate` */
    method BroadcastDroneUpdate(d: Drone)
      modifies clients
      ensures SentToOpen(clients, DroneUpdate(d))
    {
      Broadcast(DroneUpdate(d));
    }

    /** `broadcastAlert` */
    method BroadcastAlert(a: Alert)
      modifies clients
      ensures SentToOpen(clients, AlertRaised(a))
    {
      Broadcast(AlertRaised(a));
    }

    /** `handleMessage`: a ping is answered to its sender alone when open;
        a telemetry message is stored and then broadcast as an update;
        anything else is ignored. No socket's state changes. `ingested` is
        the stored sample; `ws` is one of the clients, since messages only
        arrive on accepted sockets that have not closed. */
    method HandleMessage(ws: Connection, msg: Message, now: Time) returns (ingested: Option<Telemetry>)
      requires store.Valid()
      requires ws in clients
      modifies ws, clients, store`telemetryData, store`drones
      ensures store.Valid()
      ensures msg.Ping? ==>
        && ingested.None?
        && (forall c :: c in clients ==> c.readyState == old(c.readyState))
        && ws.sent == old(ws.sent) + (if ws.readyState == Open then [Pong] else [])
        && (forall c :: c in clients && c != ws ==> c.sent == old(c.sent))
        && store.telemetryData == old(store.telemetryData) && store.drones == old(store.drones)
      ensures msg.TelemetryIn? ==>
        && ingested.Some?
        && ingested.value == Stamp(msg.sample, ingested.value.id, now)
        && store.telemetryData == old(store.telemetryData)[msg.sample.droneId :=
             AppendCapped(old(store.History(msg.sample.droneId)), ingested.value, MaxHistory)]
        && SentToOpen(clients, TelemetryUpdate(ingested.value))
        && (msg.sample.droneId !in old(store.drones.entries) ==> store.drones == old(store.drones))
        && (msg.sample.droneId in old(store.drones.entries) ==>
              store.drones == OM.Put(old(store.drones), msg.sample.droneId,
                                     ApplyDronePatch(old(store.drones.entries[msg.sample.droneId]),
                                                     TelemetryPatch(ingested.value), now)))
      ensures !msg.Ping? && !msg.TelemetryIn? ==>
        && ingested.None?
        && ws.readyState == old(ws.readyState) && ws.sent == old(ws.sent)
        && (forall c :: c in clients ==> c.readyState == old(c.readyState) && c.sent == old(c.sent))
        && store.telemetryData == old(store.telemetryData) && store.drones == old(store.drones)
    {
      ingested := None;
      match msg {
        case Ping =>
          if ws.readyState == Open {
            ws.sent := ws.sent + [Pong];
          }
        case TelemetryIn(sample) =>
          var telemetry := Ingest(sample, now);
          ingested := Some(telemetry);
        case _ =>
      }
    }

    /** One run of the two-second simulator over a snapshot of the drones:
        each flying drone gets a jittered sample, stored and broadcast; a
        sample reading strictly between 20 and 25 percent raises one
        low-battery alert unless the drone already has an open one.
        `draws[i]` are the `Math.random()` draws for the `i`-th drone, and
        `outcomes[i]` is what that drone's turn did. */
    method SimulationTick(draws: seq<Draws>, now: Time) returns (outcomes: seq<Outcome>)
      requires store.Valid()
      requires OneOpenLowBatteryPerDrone(store.alerts)
      requires |draws| == |store.drones.order| && forall i :: 0 <= i < |draws| ==> UnitDraws(draws[i])
      modifies clients, store`telemetryData, store`drones, store`alerts
      ensures store.Valid()
      ensures OneOpenLowBatteryPerDrone(store.alerts)
      ensures AlertsOnlyGrow(old(store.alerts), store.alerts)
      ensures AcksKept(old(store.alerts), store.alerts)
      ensures |outcomes| == |draws|
      ensures RunOutcomes(old(store.GetDrones()), draws, now, old(store.alerts), outcomes)
      ensures store.telemetryData == TickHistories(old(store.telemetryData), outcomes)
      ensures store.drones == TickDrones(old(store.drones), outcomes, now)
      ensures store.alerts == TickAlerts(old(store.alerts), outcomes)
      ensures SentAllToOpen(clients, TickMessages(outcomes))
    {
      var drones := store.GetDrones();
      outcomes := [];
      var i := 0;
      while i < |drones|
        invariant 0 <= i <= |drones| && |outcomes| == i
        invariant store.Valid()
        invariant OneOpenLowBatteryPerDrone(store.alerts)
        invariant AlertsOnlyGrow(old(store.alerts), store.alerts)
        invariant RunOutcomes(drones, draws, now, old(store.alerts), outcomes)
        invariant store.telemetryData == TickHistories(old(store.telemetryData), outcomes)
        invariant store.drones == TickDrones(old(store.drones), outcomes, now)
        invariant store.alerts == TickAlerts(old(store.alerts), outcomes)
        invariant SentAllToOpen(clients, TickMessages(outcomes))
      {
        ghost var before := store.alerts;
        label Turn:
        var o := SimulateDrone(drones[i], draws[i], now);
        AlertsOnlyGrowTransitive(old(store.alerts), before, store.alerts);
        RunOutcomesStep(drones, draws, now, old(store.alerts), outcomes, o);
        TickStep(old(store.telemetryData), old(store.drones), old(store.alerts), outcomes, o, now);
        forall c | c in clients
          ensures c.readyState == old(c.readyState)
          ensures c.sent == old(c.sent) + (if c.readyState == Open then TickMessages(outcomes + [o]) else [])
        {
          assert old@Turn(c.sent) == old(c.sent) + (if c.readyState == Open then TickMessages(outcomes) else []);
          assert c.sent == old@Turn(c.sent) + (if c.readyState == Open then OutcomeMessages(o) else []);
          if c.readyState == Open {
            SeqAssoc(old(c.sent), TickMessages(outcomes), OutcomeMessages(o));
          } else {
            assert c.sent == old(c.sent) + [] + [];
          }
        }
        outcomes := outcomes + [o];
        i := i + 1;
      }
      GrowthKeepsAcks(old(store.alerts), store.alerts);
    }

    /** The simulator's loop body for one drone of the snapshot, with the
        seven draws `r`. */
    method SimulateDrone(drone: Drone, r: Draws, now: Time) returns (o: Outcome)
      requires store.Valid()
      requires OneOpenLowBatteryPerDrone(store.alerts)
      requires UnitDraws(r)
      modifies clients, store`telemetryData, store`drones, store`alerts
      ensures store.Valid()
      ensures OneOpenLowBatteryPerDrone(store.alerts)
      ensures AlertsOnlyGrow(old(store.alerts), store.alerts)
      ensures DroneOutcome(drone, r, now, old(store.alerts), o)
      ensures store.telemetryData == OutcomeHistories(old(store.telemetryData), o)
      ensures store.drones == OutcomeDrones(old(store.drones), o, now)
      ensures store.alerts == OutcomeAlerts(old(store.alerts), o)
      ensures SentAllToOpen(clients, OutcomeMessages(o))
    {
      if Flying(drone) {
        var telemetry := SynthSample(drone, r);
        var saved := Ingest(telemetry, now);
        label Sent:
        var alert := CheckLowBattery(drone.id, telemetry.battery, now);
        o := Outcome(Some(saved), alert);
        var later := if alert.Some? then [AlertRaised(alert.value)] else [];
        assert OutcomeMessages(o) == [TelemetryUpdate(saved)] + later;
        forall c | c in clients
          ensures c.readyState == old(c.readyState)
          ensures c.sent == old(c.sent) + (if c.readyState == Open then OutcomeMessages(o) else [])
        {
          assert old@Sent(c.sent) == old(c.sent) + (if c.readyState == Open then [TelemetryUpdate(saved)] else []);
          assert c.sent == old@Sent(c.sent) + (if c.readyState == Open then later else []);
          if c.readyState == Open {
            SeqAssoc(old(c.sent), [TelemetryUpdate(saved)], later);
          } else {
            assert c.sent == old(c.sent) + [] + [];
          }
        }
      } else {
        o := Outcome(None, None);
      }
    }

    /** A sample arriving from either side: stored, broadcast to every open
        client, then projected onto its drone. */
    method Ingest(sample: InsertTelemetry, now: Time) returns (saved: Telemetry)
      requires store.Valid()
      modifies clients, store`telemetryData, store`drones
      ensures store.Valid()
      ensures saved == Stamp(sample, saved.id, now)
      ensures store.telemetryData ==
        old(store.telemetryData)[sample.droneId := AppendCapped(old(store.History(sample.droneId)), saved, MaxHistory)]
      ensures SentToOpen(clients, TelemetryUpdate(saved))
      ensures sample.droneId !in old(store.drones.entries) ==> store.drones == old(store.drones)
      ensures sample.droneId in old(store.drones.entries) ==>
        store.drones == OM.Put(old(store.drones), sample.droneId,
                               ApplyDronePatch(old(store.drones.entries[sample.droneId]), TelemetryPatch(saved), now))
    {
      saved := store.AddTelemetry(sample, now);
      BroadcastTelemetryUpdate(saved, now);
    }

    /** The simulator's low-battery check for a drone whose sample reads
        `battery`: only strictly between 20 and 25 percent, and only when
        the drone's listing has no open low-battery alert, is one raised. */
    method CheckLowBattery(droneId: Id, battery: real, now: Time) returns (alert: Option<Alert>)
      requires store.Valid() && OneOpenLowBatteryPerDrone(store.alerts)
      modifies clients, store`alerts
      ensures store.Valid() && OneOpenLowBatteryPerDrone(store.alerts)
      ensures AlertsOnlyGrow(old(store.alerts), store.alerts)
      ensures alert.Some? <==>
        20.0 < battery < 25.0 && !HasOpenLowBattery(SelectAlerts(old(store.alerts), Some(droneId)))
      ensures alert.Some? ==>
        && alert.value == NewAlert(LowBatteryInsert(droneId, battery), alert.value.id, now)
        && alert.value.id !in old(store.alerts.entries)
        && store.alerts == OM.Put(old(store.alerts), alert.value.id, alert.value)
      ensures alert.None? ==> store.alerts == old(store.alerts)
      ensures SentAllToOpen(clients, if alert.Some? then [AlertRaised(alert.value)] else [])
    {
      alert := None;
      if battery < 25.0 && battery > 20.0 {
        var existingAlerts := store.GetAlerts(Some(droneId));
        if !HasOpenLowBattery(existingAlerts) {
          var a := RaiseAlert(droneId, battery, now);
          alert := Some(a);
        }
      }
    }

    /** The alert branch of the simulator: create, then broadcast. */
    method RaiseAlert(droneId: Id, battery: real, now: Time) returns (a: Alert)
      requires store.Valid() && OneOpenLowBatteryPerDrone(store.alerts)
      requires !HasOpenLowBattery(store.GetAlerts(Some(droneId)))
      modifies clients, store`alerts
      ensures store.Valid() && OneOpenLowBatteryPerDrone(store.alerts)
      ensures a.id !in old(store.alerts.entries)
      ensures a == NewAlert(LowBatteryInsert(droneId, battery), a.id, now)
      ensures store.alerts == OM.Put(old(store.alerts), a.id, a)
      ensures AlertsOnlyGrow(old(store.alerts), store.alerts)
      ensures AcksKept(old(store.alerts), store.alerts)
      ensures SentToOpen(clients, AlertRaised(a))
    {
      ghost var before := store.alerts;
      a := store.CreateAlert(LowBatteryInsert(droneId, battery), now);
      RaiseKeepsOneOpenPerDrone(before, a.id, droneId, battery, now);
      BroadcastAlert(a);
    }
  }
}
