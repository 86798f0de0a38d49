/** The browser's view of the observer channel: the state the dashboard
    renders and the reducer that folds each server message into it. */
module ClientState {
  import opened Wrappers
  import opened JsSemantics
  import opened Schema
  import opened Protocol
  import Storage

  datatype ClientData = ClientData(
    isConnected: bool,
    drones: seq<Drone>,
    missions: seq<Mission>,
    telemetry: map<Id, seq<Telemetry>>,
    alerts: seq<Alert>,
    geofences: seq<Geofence>)

  /** The per-drone telemetry window kept by the client. */
  const TelemetryWindow: nat := 100

  function Initial(): ClientData
  {
    ClientData(false, [], [], map[], [], [])
  }

  /** `onopen` */
  function OnOpen(s: ClientData): (r: ClientData)
    ensures r.isConnected
    ensures r.(isConnected := s.isConnected) == s
  {
    s.(isConnected := true)
  }

  /** `onclose` (the reconnect timer it starts is not modelled) */
  function OnClose(s: ClientData): (r: ClientData)
    ensures !r.isConnected
    ensures r.(isConnected := s.isConnected) == s
  {
    s.(isConnected := false)
  }

  /** The drone's telemetry window, empty when it has none yet. */
  function Window(s: ClientData, droneId: Id): seq<Telemetry>
  {
    if droneId in s.telemetry then s.telemetry[droneId] else []
  }

  /** A window after one more sample: `[...prev, t].slice(-100)`, so the
      sample is last and the newest 100 are kept in order. */
  function NextWindow(w: seq<Telemetry>, t: Telemetry): (r: seq<Telemetry>)
    ensures |r| == if |w| + 1 <= TelemetryWindow then |w| + 1 else TelemetryWindow
    ensures r == (w + [t])[|w| + 1 - |r|..]
    ensures r[|r| - 1] == t
  {
    SliceFrom(w + [t], -(TelemetryWindow as int))
  }

  /** Each listed drone with the update's id is replaced by the update. */
  function ReplaceDrone(ds: seq<Drone>, u: Drone): (r: seq<Drone>)
  {
    if ds == [] then []
    else [if ds[0].id == u.id then u else ds[0]] + ReplaceDrone(ds[1..], u)
  }

  /** `handleMessage`: one server message folded into the state. */
  function HandleMessage(s: ClientData, m: Message): (r: ClientData)
    ensures r.isConnected == s.isConnected
    ensures !m.TelemetryUpdate? ==> r.telemetry == s.telemetry
    ensures !m.InitialData? && !m.DroneUpdate? ==> r.drones == s.drones
    ensures !m.InitialData? && !m.AlertRaised? ==> r.alerts == s.alerts
    ensures !m.InitialData? ==> r.missions == s.missions && r.geofences == s.geofences
    ensures m.DroneUpdate? ==> |r.drones| == |s.drones|
  {
    match m
    case InitialData(drones, missions, geofences, alerts) =>
      s.(drones := drones.GetOr([]), missions := missions.GetOr([]),
         alerts := alerts.GetOr([]), geofences := geofences.GetOr([]))
    case TelemetryUpdate(t) =>
      s.(telemetry := s.telemetry[t.droneId := NextWindow(Window(s, t.droneId), t)])
    case DroneUpdate(d) =>
      ReplaceDroneSpec(s.drones, d);
      s.(drones := ReplaceDrone(s.drones, d))
    case AlertRaised(a) =>
      s.(alerts := [a] + s.alerts)
    case _ => s
  }

  /** Folding a whole message stream, oldest message first. */
  function HandleAll(s: ClientData, ms: seq<Message>): (r: ClientData)
    ensures (forall i :: 0 <= i < |ms| ==> !ms[i].TelemetryUpdate?) ==> r.telemetry == s.telemetry
    ensures (forall i :: 0 <= i < |ms| ==> !ms[i].InitialData?) ==>
      r.missions == s.missions && r.geofences == s.geofences
    decreases |ms|
  {
    if ms == [] then s else HandleAll(HandleMessage(s, ms[0]), ms[1..])
  }

  // ---------------------------------------------------------------------
  // Properties
  // ---------------------------------------------------------------------

  /** A drone update replaces exactly the drones with the update's id and
      never adds or removes one. */
  lemma {:induction false} ReplaceDroneSpec(ds: seq<Drone>, u: Drone)
    ensures |ReplaceDrone(ds, u)| == |ds|
    ensures forall i :: 0 <= i < |ds| ==>
      ReplaceDrone(ds, u)[i] == if ds[i].id == u.id then u else ds[i]
  {
    if ds != [] {
      ReplaceDroneSpec(ds[1..], u);
      var r := ReplaceDrone(ds, u);
      forall i | 0 <= i < |ds| ensures r[i] == if ds[i].id == u.id then u else ds[i] {
        if i > 0 {
          assert r[i] == ReplaceDrone(ds[1..], u)[i - 1];
          assert ds[1..][i - 1] == ds[i];
        }
      }
    }
  }

  /** Replaying the same update changes nothing more. */
  lemma ReplaceDroneIdempotent(ds: seq<Drone>, u: Drone)
    ensures ReplaceDrone(ReplaceDrone(ds, u), u) == ReplaceDrone(ds, u)
  {
    ReplaceDroneSpec(ds, u);
    ReplaceDroneSpec(ReplaceDrone(ds, u), u);
  }

  /** An update for an unlisted drone leaves the list as it is. */
  lemma ReplaceUnknownDrone(ds: seq<Drone>, u: Drone)
    requires forall i :: 0 <= i < |ds| ==> ds[i].id != u.id
    ensures ReplaceDrone(ds, u) == ds
  {
    ReplaceDroneSpec(ds, u);
  }

  /** `initial_data` replaces the four lists, defaulting each to empty, and
      keeps the telemetry windows and the connection flag. */
  lemma InitialDataReplacesLists(s: ClientData, m: Message)
    requires m.InitialData?
    ensures var r := HandleMessage(s, m);
      && r.isConnected == s.isConnected && r.telemetry == s.telemetry
      && (m.drones.Some? ==> r.drones == m.drones.value) && (m.drones.None? ==> r.drones == [])
      && (m.missions.Some? ==> r.missions == m.missions.value) && (m.missions.None? ==> r.missions == [])
      && (m.alerts.Some? ==> r.alerts == m.alerts.value) && (m.alerts.None? ==> r.alerts == [])
      && (m.geofences.Some? ==> r.geofences == m.geofences.value) && (m.geofences.None? ==> r.geofences == [])
  {
  }

  /** A telemetry update changes only its drone's window, which gains the
      sample at the end and keeps the newest 100 in order. */
  lemma TelemetryUpdateWindow(s: ClientData, t: Telemetry)
    ensures var r := HandleMessage(s, TelemetryUpdate(t));
      var w := Window(s, t.droneId) + [t];
      && r == s.(telemetry := r.telemetry)
      && r.telemetry.Keys == s.telemetry.Keys + {t.droneId}
      && (forall d :: d in s.telemetry && d != t.droneId ==> r.telemetry[d] == s.telemetry[d])
      && |r.telemetry[t.droneId]| == (if |w| <= TelemetryWindow then |w| else TelemetryWindow)
      && r.telemetry[t.droneId] == w[|w| - |r.telemetry[t.droneId]|..]
      && r.telemetry[t.droneId][|r.telemetry[t.droneId]| - 1] == t
  {
    TelemetryUpdateIs(s, t);
  }

  /** The client window is the server's capped append with a cap of 100. */
  lemma ClientWindowIsCappedAppend(s: ClientData, t: Telemetry)
    ensures HandleMessage(s, TelemetryUpdate(t)).telemetry[t.droneId]
         == Storage.AppendCapped(Window(s, t.droneId), t, TelemetryWindow)
  {
  }

  /** Every window stays within 100 samples, whatever arrives. */
  predicate WindowsBounded(s: ClientData)
  {
    forall d :: d in s.telemetry ==> |s.telemetry[d]| <= TelemetryWindow
  }

  lemma HandleMessageKeepsWindowsBounded(s: ClientData, m: Message)
    requires WindowsBounded(s)
    ensures WindowsBounded(HandleMessage(s, m))
  {
    if m.TelemetryUpdate? {
      var t := m.telemetry;
      var r := HandleMessage(s, m);
      TelemetryUpdateIs(s, t);
      forall d | d in r.telemetry
        ensures |r.telemetry[d]| <= TelemetryWindow
      {
        if d != t.droneId {
          assert r.telemetry[d] == s.telemetry[d];
        }
      }
    }
  }

  lemma {:induction false} HandleAllKeepsWindowsBounded(s: ClientData, ms: seq<Message>)
    requires WindowsBounded(s)
    ensures WindowsBounded(HandleAll(s, ms))
    decreases |ms|
  {
    if ms != [] {
      HandleMessageKeepsWindowsBounded(s, ms[0]);
      HandleAllKeepsWindowsBounded(HandleMessage(s, ms[0]), ms[1..]);
    }
  }

  /** Samples for different drones can arrive in either order. */
  lemma TelemetryForDifferentDronesCommute(s: ClientData, t1: Telemetry, t2: Telemetry)
    requires t1.droneId != t2.droneId
    ensures HandleMessage(HandleMessage(s, TelemetryUpdate(t1)), TelemetryUpdate(t2))
         == HandleMessage(HandleMessage(s, TelemetryUpdate(t2)), TelemetryUpdate(t1))
  {
    var w1 := NextWindow(Window(s, t1.droneId), t1);
    var w2 := NextWindow(Window(s, t2.droneId), t2);
    var s1 := s.(telemetry := s.telemetry[t1.droneId := w1]);
    var s2 := s.(telemetry := s.telemetry[t2.droneId := w2]);
    assert HandleMessage(HandleMessage(s, TelemetryUpdate(t1)), TelemetryUpdate(t2))
        == s.(telemetry := s.telemetry[t1.droneId := w1][t2.droneId := w2]) by {
      TelemetryUpdateIs(s, t1);
      assert Window(s1, t2.droneId) == Window(s, t2.droneId);
      TelemetryUpdateIs(s1, t2);
    }
    assert HandleMessage(HandleMessage(s, TelemetryUpdate(t2)), TelemetryUpdate(t1))
        == s.(telemetry := s.telemetry[t2.droneId := w2][t1.droneId := w1]) by {
      TelemetryUpdateIs(s, t2);
      assert Window(s2, t1.droneId) == Window(s, t1.droneId);
      TelemetryUpdateIs(s2, t1);
    }
    UpdatesCommute(s.telemetry, t1.droneId, w1, t2.droneId, w2);
  }

  lemma TelemetryUpdateIs(s: ClientData, t: Telemetry)
    ensures HandleMessage(s, TelemetryUpdate(t))
         == s.(telemetry := s.telemetry[t.droneId := NextWindow(Window(s, t.droneId), t)])
  {
  }

  /** Writes to two different keys can be done in either order. */
  lemma UpdatesCommute<K, V>(m: map<K, V>, k1: K, v1: V, k2: K, v2: V)
    requires k1 != k2
    ensures m[k1 := v1][k2 := v2] == m[k2 := v2][k1 := v1]
  {
  }

  /** An alert goes to the front: the list reads newest first. */
  lemma AlertPrepended(s: ClientData, a: Alert)
    ensures var r := HandleMessage(s, AlertRaised(a));
      r.alerts[0] == a && r.alerts[1..] == s.alerts && r == s.(alerts := r.alerts)
  {
  }

  /** Server messages never touch the connection flag: only the socket's
      open and close events do. */
  lemma {:induction false} MessagesKeepConnectionFlag(s: ClientData, ms: seq<Message>)
    ensures HandleAll(s, ms).isConnected == s.isConnected
    decreases |ms|
  {
    if ms != [] {
      MessagesKeepConnectionFlag(HandleMessage(s, ms[0]), ms[1..]);
    }
  }

  /** A dropped and re-opened connection keeps everything the client had
      received; the server's fresh snapshot replaces it only when it
      arrives. */
  lemma ReconnectKeepsData(s: ClientData)
    ensures OnOpen(OnClose(s)) == s.(isConnected := true)
    ensures !OnClose(s).isConnected && OnClose(s) == s.(isConnected := false)
  {
  }

  /** `pong` and every message type the client does not know leave the
      state as it is. */
  lemma OtherMessagesIgnored(s: ClientData, m: Message)
    requires m.Pong? || m.Ping? || m.TelemetryIn? || m.Unknown?
    ensures HandleMessage(s, m) == s
  {
  }
}
