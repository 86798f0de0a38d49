# BERAM-UTM core, modelled in Dafny

BERAM-UTM is a drone traffic-management dashboard. Its server keeps drones, missions, telemetry, geofences and alerts in an in-memory store. It answers airspace-conflict checks with a point-in-polygon test. It also runs a telemetry simulator that pushes samples and low-battery alerts to the browsers over WebSocket. The browser folds those pushes into its dashboard state and validates and submits new missions through a planner dialog.

This project models that core and proves properties of it:

| Dafny file | module | models |
|---|---|---|
| `routes.dfy` | `Routes` | the even-odd point-in-polygon test, the airspace conflict loop and the mission-creation guard (`server/routes.ts`) |
| `storage.dfy` | `Storage` | the `MemStorage` class: insertion-ordered maps of records, merge-style updates, the 1000-sample telemetry buffer, and alerts that can only be acknowledged (`server/storage.ts`) |
| `websocket.dfy` | `WebSocketHub` | the client set, broadcast to open sockets, inbound message dispatch, and the simulator tick with its de-duplicated low-battery alert (`server/services/websocket.ts`) |
| `geojson.dfy` | `GeoJson` | ring extraction from Polygon and MultiPolygon features (`[longitude, latitude]` order, sections 3.1.1, 3.1.6 and 3.1.7 of RFC 7946), every-nth-point decimation and the bounding box (`server/services/geojson.ts`) |
| `client_state.dfy` | `ClientState` | the dashboard's message reducer (`client/src/hooks/useWebSocket.ts`) |
| `mavlink.dfy` | `MavLink` | the gateway's connection registry and the command guard (`server/services/mavlink.ts`) |
| `mission_planner.dfy` | `MissionPlanner` | the planner dialog: form, waypoints, validation, and the gate that creates a mission only after a clean airspace check |
| `missions_page.dfy` | `MissionsPage` | the status buttons offered on the missions page and the update they send |
| `wrappers.dfy`, `js_semantics.dfy`, `ordered_map.dfy`, `schema.dfy` | `Wrappers`, `JsSemantics`, `OrderedMap`, `Schema`, `Protocol` | support: the JavaScript behaviours relied on (`slice`, `%`, `||` on numbers, `Math.round`), JavaScript's insertion-ordered `Map`, the record types and the socket messages |

How the source maps into Dafny:
- Numbers are `real`. A nullable number is `Option<real>`.
- A JavaScript `Map` is a Dafny map paired with its key insertion order.
- Code that mutates state becomes a `class` with `modifies` clauses: `MemStorage`, the hub, a connection and the gateway.
- Each loop becomes a `method` that is proved against a recursive specification function.
- React state that is replaced wholesale becomes functions from old state to new state.
- `new Date()` is a `now` parameter.
- `randomUUID` is an identifier chosen with `:|`. Where the stored key must be new, the id is chosen absent from the map; `OrderedMap.FreshKeyExists` shows such an id exists.
- `Math.random()` values are chosen with `:|` in `[0, 1)`.

## Model

| member | source | states |
|---|---|---|
| `Routes.Prev` | server/routes.ts:258 | the loop's `j` is the previous vertex, and it wraps to the last vertex exactly for the first |
| `Routes.CrossingEdgesStep` | server/routes.ts:258-267 | one more loop step adds that edge to the crossed set exactly when it is crossed |
| `Routes.IsPointInPolygon` | server/routes.ts:253-270 | the loop's flag is true iff an odd number of edges straddle the point's latitude with the point strictly west of the crossing; an empty polygon gives false |
| `Routes.ParityCountsCrossings` | server/routes.ts:258-267 | flipping a flag once per crossed edge leaves it set iff the number of crossed edges among the first `k` is odd |
| `Routes.NorthOfRingIsOutside` | server/routes.ts:264 | a point on or north of every vertex is outside |
| `Routes.SouthOfRingIsOutside` | server/routes.ts:264 | a point strictly south of every vertex is outside |
| `Routes.CrossingBetweenEnds` | server/routes.ts:264 | a straddling edge whose two ends are both west of or level with the point is never counted |
| `Routes.EastOfRingIsOutside` | server/routes.ts:264 | a point east of or level with every vertex is outside |
| `Routes.AirspaceVerdict` | server/routes.ts:168-204 | a request is refused iff its waypoints are missing or its altitude is missing or 0; an accepted check reports `hasConflicts` iff its conflict list is non-empty |
| `Routes.CheckAirspace` | server/routes.ts:168-204 | the loop over the stored geofences returns exactly the verdict `AirspaceVerdict` gives: refusal for a falsy field, else every conflict of every active geofence in geofence-major order |
| `Routes.Rejected` | server/routes.ts:172-174 | the request is refused when the waypoints or the altitude are missing or the altitude is 0 |
| `Routes.CheckWaypoints` | server/routes.ts:183-194 | the inner loop pushes exactly the conflicts of one geofence, in waypoint order |
| `Routes.WaypointConflictsMembers` | server/routes.ts:183-193 | for one geofence, a conflict is listed iff some waypoint violates the geofence and the conflict is built from that pair |
| `Routes.ConflictsAreViolations` | server/routes.ts:179-195 | a conflict is reported iff some active geofence and some waypoint form it, with the waypoint inside the ring and the altitude inside the inclusive band |
| `Routes.ViolationsSplit` | server/routes.ts:179-180 | a violating pair over a geofence listing lies either among all but the last geofence or involves the last one, when that one is active |
| `Routes.WaypointConflictsCount` | server/routes.ts:183-193 | one conflict per violating waypoint: no de-duplication and no early exit |
| `Routes.InactiveGeofencesIgnored` | server/routes.ts:180 | inactive geofences never produce a conflict |
| `Routes.ActiveOnly` | server/routes.ts:180 | the active geofences, in their order |
| `Routes.OnlyActiveGeofencesMatter` | server/routes.ts:179-195 | removing the inactive geofences leaves the conflict list unchanged, order included |
| `Routes.SeedNoFlyZoneExample` | server/routes.ts:184-192 | a waypoint inside the seeded airport zone at 100 ft gives exactly one conflict, naming that zone |
| `Routes.CreateMissionRoute` | server/routes.ts:115-138 | a missing drone or a drone already on a mission leaves the store unchanged; otherwise the mission is stored under a new id and the drone's status becomes `mission`, with `lastSeen` refreshed |
| `Storage.NewDrone` | server/storage.ts:195-211 | status defaults to `offline`; battery defaults to 0; each of latitude, longitude, altitude, speed, heading and signal is `OrNull` of the input, so a reading of 0 becomes null and any other is kept; the name and model are kept |
| `Storage.ApplyDronePatch` | server/storage.ts:213-219 | every field of the update that is present wins and every absent one keeps the drone's value; `lastSeen` is the update time; an update that carries no `id` or `createdAt` keeps both |
| `Storage.EmptyDronePatchRefreshesOnly` | server/storage.ts:217 | an update with no keys only refreshes `lastSeen` |
| `Storage.DronePatchesCompose` | server/storage.ts:217 | two updates in a row equal one update with the merged keys, where later keys win |
| `Storage.NewMission` | server/storage.ts:231-249 | status defaults to `planned`; progress starts at 0; there are no start or end times; an empty drone id or description becomes null and any other is kept; a zero or missing speed becomes null; name, type, waypoints, geofences and altitude are kept |
| `Storage.ApplyMissionPatch` | server/storage.ts:251-258 | every field of the update that is present wins and every absent one keeps the mission's value; `updatedAt` is the update time; an update that carries no `id` or `createdAt` keeps both |
| `Storage.NewGeofence` | server/storage.ts:302-314 | min altitude defaults to 0; a missing or zero max altitude becomes 400; `active` is true unless explicitly false; name, type and coordinates are kept |
| `Storage.ApplyGeofencePatch` | server/storage.ts:316-323 | every field of the update that is present wins and every absent one keeps the geofence's value; no timestamp is refreshed; an update that carries no `id` or `createdAt` keeps both |
| `Storage.NewAlert` | server/storage.ts:338-349 | a new alert is always unacknowledged; an empty drone id becomes null and any other is kept; type, severity, title and message are kept |
| `Storage.AppendCappedShape` | server/storage.ts:282-288 | after one append the new sample is last and the length is at most the cap; below the cap nothing is lost; at the cap exactly the oldest sample goes and the order is kept |
| `Storage.AppendAllKeepsNewest` | server/storage.ts:282-288 | after any number of appends the history is the newest `cap` samples of everything appended, in order |
| `Storage.ThousandAndOneSamples` | server/storage.ts:285-288 | 1001 samples into an empty history leave samples 2 to 1001 |
| `Storage.FilterByDrone` | server/storage.ts:333 | an alert is kept iff its drone id equals the one asked for |
| `Storage.SelectAlerts` | server/storage.ts:330-336 | with a non-empty drone id, exactly that drone's alerts; with no id or an empty one, every alert in insertion order |
| `Storage.Acknowledge` | server/storage.ts:351-358 | the keys and order are kept; the named alert becomes acknowledged with its other fields kept; every other alert is unchanged; an unknown id changes nothing |
| `Storage.AcknowledgeIdempotent` | server/storage.ts:351-358 | acknowledging twice equals acknowledging once, and no alert is ever reopened or removed |
| `Storage.MemStorage.constructor` | server/storage.ts:56-163 | the store starts with the three seeded drones, no missions or telemetry, the two seeded zones and the one seeded alert, in that order |
| `Storage.MemStorage.GetDrones` | server/storage.ts:187-189 | the i-th listed drone is the drone under the i-th key in insertion order, so every stored drone is listed once and nothing else is |
| `Storage.MemStorage.GetDrone` | server/storage.ts:191-193 | the stored drone, or none for an unknown id |
| `Storage.MemStorage.CreateDrone` | server/storage.ts:195-211 | the defaulted drone is stored under its own id |
| `Storage.MemStorage.UpdateDrone` | server/storage.ts:213-220 | an unknown id yields none and changes nothing; otherwise the merged drone replaces the old one in place |
| `Storage.MemStorage.GetMissions` | server/storage.ts:223-225 | the i-th listed mission is the mission under the i-th key in insertion order |
| `Storage.MemStorage.GetMission` | server/storage.ts:227-229 | the stored mission, or none for an unknown id |
| `Storage.MemStorage.CreateMission` | server/storage.ts:231-249 | the defaulted mission is stored under a new id and listed last |
| `Storage.MemStorage.UpdateMission` | server/storage.ts:251-258 | an unknown id yields none and changes nothing; otherwise the merged mission replaces the old one |
| `Storage.MemStorage.DeleteMission` | server/storage.ts:260-262 | the result is true iff the mission existed, and it is gone afterwards |
| `Storage.MemStorage.History` | server/storage.ts:266 | a drone's history never holds more than 1000 samples, and an unknown drone has none |
| `Storage.MemStorage.GetTelemetry` | server/storage.ts:265-268 | a positive limit gives the newest `min(limit, n)` samples in order; a limit of 0 gives the whole history; a negative limit drops the oldest `-limit` samples, or gives none when the history is that short; an unknown drone gives none |
| `Storage.MemStorage.GetAlerts` | server/storage.ts:330-336 | without a drone id (or with an empty one) every stored alert in insertion order; with a drone id exactly the stored alerts of that drone |
| `Storage.Stamp` | server/storage.ts:270-276 | the stored sample has the new id and the time stamp and carries exactly the inserted readings |
| `Storage.MemStorage.AddTelemetry` | server/storage.ts:270-291 | the stamped sample is appended to its drone's history, created if missing, and trimmed to the newest 1000; other drones are untouched |
| `Storage.MemStorage.GetGeofences` | server/storage.ts:294-296 | every stored geofence, in insertion order |
| `Storage.MemStorage.GetGeofence` | server/storage.ts:298-300 | the stored geofence, or none for an unknown id |
| `Storage.MemStorage.CreateGeofence` | server/storage.ts:302-314 | the defaulted geofence is stored under a new id and listed last |
| `Storage.MemStorage.UpdateGeofence` | server/storage.ts:316-323 | an unknown id yields none and changes nothing; otherwise the merged geofence replaces the old one |
| `Storage.MemStorage.DeleteGeofence` | server/storage.ts:325-327 | the result is true iff the geofence existed, and it is gone afterwards |
| `Storage.MemStorage.CreateAlert` | server/storage.ts:338-349 | the alert is stored unacknowledged under a new id and listed last; no acknowledgement is lost |
| `Storage.MemStorage.AcknowledgeAlert` | server/storage.ts:351-358 | the result is false for an unknown id, which changes nothing; otherwise that alert becomes acknowledged and no other alert changes |
| `WebSocketHub.Connection.constructor` | server/services/websocket.ts:13 | a new socket has been sent nothing |
| `WebSocketHub.TelemetryMovesDrone` | server/services/websocket.ts:49-58 | after a sample, the drone's position, speed, heading, battery and signal are the sample's; its id, name, model and status are kept |
| `WebSocketHub.SynthSample` | server/services/websocket.ts:141-150 | a simulated sample is within 0.0005 of the last latitude and longitude and within 2.5 of the last altitude; speed is at least 0; the heading's magnitude is below 360; battery is between 0 and the last battery, and drops by less than 0.1 unless clamped to 0 |
| `WebSocketHub.SynthHeadingSign` | server/services/websocket.ts:147 | the heading is the jittered value reduced by whole turns of 360 with its sign kept (so it is not normalised to [0, 360)), and is the jittered value itself when that lies in (-360, 360) |
| `WebSocketHub.RaiseKeepsOneOpenPerDrone` | server/services/websocket.ts:156-171 | raising an alert only when the drone's alert listing holds no open low-battery alert keeps each drone to at most one open low-battery alert |
| `WebSocketHub.OpenAlertIsListed` | server/services/websocket.ts:157-160 | an open low-battery alert stored for a drone makes that drone's listing report one, so the `some` check sees it |
| `WebSocketHub.AcknowledgeKeepsOneOpenPerDrone` | server/storage.ts:351-358 | acknowledging keeps that property |
| `WebSocketHub.Hub.constructor` | server/services/websocket.ts:11 | the hub starts with no clients |
| `WebSocketHub.Hub.Accept` | server/services/websocket.ts:13-18 | an accepted socket joins the client set and, if it is open, receives the snapshot |
| `WebSocketHub.Hub.SendInitialData` | server/services/websocket.ts:88-113 | only an open socket receives the snapshot of every drone, mission, geofence and alert |
| `WebSocketHub.Hub.Disconnect` | server/services/websocket.ts:29-37 | `close` and `error` remove exactly that socket from the set |
| `WebSocketHub.Hub.Broadcast` | server/services/websocket.ts:79-86 | every open client receives the message exactly once; the other clients receive nothing; no socket's state changes |
| `WebSocketHub.Hub.BroadcastTelemetryUpdate` | server/services/websocket.ts:41-59 | open clients get the update; then the sample's drone takes the sample's readings; a sample for an unknown drone changes no drone |
| `WebSocketHub.Hub.BroadcastDroneUpdate` | server/services/websocket.ts:62-68 | open clients get the drone update |
| `WebSocketHub.Hub.BroadcastAlert` | server/services/websocket.ts:71-77 | open clients get the alert |
| `WebSocketHub.Hub.HandleMessage` | server/services/websocket.ts:115-132 | for a socket among the clients: a ping is answered with a pong to its sender alone, when open; a telemetry message is stored and broadcast, and then the known drone takes its readings while an unknown one changes no drone; anything else changes nothing; no socket's state changes |
| `WebSocketHub.Hub.SimulationTick` | server/services/websocket.ts:135-175 | one tick walks the drone list taken at its start: each drone's turn is a `DroneOutcome` judged against the alerts as earlier turns left them; the histories, drones and alerts afterwards are the turns' effects folded in order; every open client received exactly the turns' messages in order; no drone gets a second open low-battery alert, every existing alert stays as it was, and the drone order is kept |
| `WebSocketHub.Hub.SimulateDrone` | server/services/websocket.ts:138-173 | a drone gets a sample exactly when it is active or on a mission; the stored sample is the synthesised one; an alert is raised exactly when that sample's battery is strictly between 20 and 25 and the drone's listing holds no open low-battery alert; open clients receive the telemetry update and then the alert; existing alerts are kept and the de-duplication property holds after it |
| `WebSocketHub.Hub.RaiseAlert` | server/services/websocket.ts:163-170 | the returned alert is the low-battery insert for that drone and battery, stored open under a new id with every existing alert kept; every open client receives it; the de-duplication property holds after it |
| `WebSocketHub.Hub.Ingest` | server/services/websocket.ts:152-153 | the sample is stored stamped with the time and appended to its drone's history, broadcast to every open client, and a known drone takes its readings |
| `WebSocketHub.Hub.CheckLowBattery` | server/services/websocket.ts:156-171 | an alert is created and broadcast exactly when the battery is strictly between 20 and 25 and the drone's listing has no open low-battery alert; otherwise the alerts and the clients are unchanged |
| `WebSocketHub.Hub.Snapshot` | server/services/websocket.ts:88-113 | the snapshot carries all four lists, each equal element by element to the stored drones, missions, geofences and alerts in insertion order |
| `WebSocketHub.Flying` | server/services/websocket.ts:139 | the drones the simulator samples: status active or on a mission |
| `WebSocketHub.TelemetryPatch` | server/services/websocket.ts:49-58 | the drone update a sample causes: position, speed, heading, battery and signal, never name, model or status |
| `WebSocketHub.LowBatteryInsert` | server/services/websocket.ts:163-169 | the alert for the drone is a `warning` of type `battery_low` whose message starts with the drone id |
| `WebSocketHub.OutcomeDrones` | server/services/websocket.ts:152-153 | a turn's effect on the drone table keeps it valid, with the same keys in the same order |
| `WebSocketHub.TickDrones` | server/services/websocket.ts:138-174 | so does a whole tick |
| `WebSocketHub.RunOutcomeAt` | server/services/websocket.ts:138-174 | every turn of a run is a `DroneOutcome` of its drone and draws against the alerts the earlier turns left |
| `WebSocketHub.TickHistoryOf` | server/services/websocket.ts:152 | after a tick, a drone's history is its old history with that drone's samples of the tick appended in order, capped at 1000 |
| `WebSocketHub.SamplesOnlyForFlyingDrones` | server/services/websocket.ts:139 | a tick produces a sample for a drone id exactly when some flying drone of the snapshot has that id |
| `WebSocketHub.GroundedDroneKeepsHistory` | server/services/websocket.ts:139 | a drone id no flying drone carries keeps its history, present or absent, through a tick |
| `WebSocketHub.ListingUnaffected` | server/services/websocket.ts:157 | earlier turns of other drones never change a drone's alert listing |
| `WebSocketHub.AlertIffNoOpenAlertAtStart` | server/services/websocket.ts:139-171 | for a drone listed once, its turn samples exactly when it is flying and raises an alert exactly when the sample's battery is strictly between 20 and 25 and the drone had no open low-battery alert when the tick began |
| `WebSocketHub.SingleAlertOneOpen` | server/storage.ts:151-162 | a table of one alert, such as the seeded store's, has at most one open low-battery alert per drone, so the simulator starts from a state with the de-duplication property |
| `GeoJson.ToCoordinate` | server/services/geojson.ts:31-34 | a position `[x, y]` becomes longitude `x` and latitude `y` |
| `GeoJson.ToPosition` | server/services/geojson.ts:31-34 | the inverse of `ToCoordinate` |
| `GeoJson.ToCoordinates` | server/services/geojson.ts:30-35 | a ring is converted position by position, with its length kept |
| `GeoJson.ToPositions` | server/services/geojson.ts:30-35 | the inverse, position by position |
| `GeoJson.ConvertedFailurePersists` | server/services/geojson.ts:26-46 | once a feature without its ring has failed the conversion, later features do not change the outcome |
| `GeoJson.ConvertGeoJsonToCoordinates` | server/services/geojson.ts:23-49 | the loop returns `Converted(features)`: the designated rings concatenated in feature order with each position's two numbers swapped into latitude and longitude, or the failure of the first feature that lacks its ring |
| `GeoJson.PushRing` | server/services/geojson.ts:31-36 | the inner loop appends the ring's positions, in order, each with its second number as latitude and its first as longitude |
| `GeoJson.ConvertedFailsAtFirstMissingRing` | server/services/geojson.ts:26-46 | the conversion succeeds iff every Polygon or MultiPolygon has its first ring; a failure names the first feature without it |
| `GeoJson.ConvertedRoundTrip` | server/services/geojson.ts:26-46 | converted back to positions, the output is the designated rings concatenated in feature order |
| `GeoJson.SampleIndices` | server/services/geojson.ts:58 | a non-empty sample starts at the starting index |
| `GeoJson.SampleIndicesBounded` | server/services/geojson.ts:58 | every sampled index lies in the array |
| `GeoJson.SampleIndicesShape` | server/services/geojson.ts:58-60 | the sampled indices rise by exactly `step` from the start and the last lies within `step` of the end |
| `GeoJson.SimplifyIndices` | server/services/geojson.ts:57-65 | every kept index lies in the array |
| `GeoJson.Pick` | server/services/geojson.ts:59 | the points at the given indices, in that order |
| `GeoJson.SimplifyCoordinates` | server/services/geojson.ts:54-68 | the method returns the specification's result, for every input it terminates on |
| `GeoJson.TakeEvery` | server/services/geojson.ts:57-60 | the loop keeps the points at 0, `step`, 2·`step` and so on, and reports the last index kept |
| `GeoJson.SampleIndicesStep` | server/services/geojson.ts:58 | one loop step extends the sampled prefix by its index |
| `GeoJson.PickAppend` | server/services/geojson.ts:59 | picking one more index appends that point |
| `GeoJson.SimplifyIndicesShape` | server/services/geojson.ts:57-65 | kept indices start at 0, end at the last index, rise strictly and skip at most `step` at a time |
| `GeoJson.SimplifiedKeepsEnds` | server/services/geojson.ts:54-68 | a ring longer than `step` keeps its first and last points; every kept point is an original point, in order, with gaps of at most `step` |
| `GeoJson.GetBoundingBox` | server/services/geojson.ts:73-89 | the loop's four accumulators equal the specification's box |
| `GeoJson.BoundsContain` | server/services/geojson.ts:79-88 | every coordinate lies inside the box, and the box is never narrower than its start values |
| `GeoJson.BoundsAttained` | server/services/geojson.ts:79-88 | each side is its start value or some coordinate's value, so an empty input gives (-90, 90, -180, 180) |
| `GeoJson.OutsideBoundsIsOutside` | server/services/geojson.ts:79-88 | a point on or beyond the box's north or east edge, or strictly beyond its south edge, is outside the ring by the server's polygon test |
| `ClientState.ReplaceDroneSpec` | client/src/hooks/useWebSocket.ts:93-100 | a drone update replaces exactly the drones with its id; the length is kept and no drone is added |
| `ClientState.ReplaceDroneIdempotent` | client/src/hooks/useWebSocket.ts:93-100 | replaying the same update changes nothing more |
| `ClientState.ReplaceUnknownDrone` | client/src/hooks/useWebSocket.ts:93-100 | an update for an unlisted drone leaves the list as it is |
| `ClientState.InitialDataReplacesLists` | client/src/hooks/useWebSocket.ts:67-75 | `initial_data` replaces the four lists, each defaulting to empty, and keeps the telemetry and the connection flag |
| `ClientState.NextWindow` | client/src/hooks/useWebSocket.ts:80-81 | the new window ends with the sample, holds the previous window plus the sample up to 100 entries, and beyond that only the newest 100, in order |
| `ClientState.TelemetryUpdateWindow` | client/src/hooks/useWebSocket.ts:77-90 | only that drone's window changes: the sample goes last, the newest 100 are kept in order, and the other windows are unchanged |
| `ClientState.ClientWindowIsCappedAppend` | client/src/hooks/useWebSocket.ts:80-81 | the client window is the server's capped append with a cap of 100 |
| `ClientState.HandleMessageKeepsWindowsBounded` | client/src/hooks/useWebSocket.ts:65-118 | no message makes a window longer than 100 |
| `ClientState.HandleAllKeepsWindowsBounded` | client/src/hooks/useWebSocket.ts:65-118 | nor does any stream of messages |
| `ClientState.TelemetryForDifferentDronesCommute` | client/src/hooks/useWebSocket.ts:77-90 | samples for different drones give the same state in either order |
| `ClientState.AlertPrepended` | client/src/hooks/useWebSocket.ts:103-108 | a new alert goes first, followed by the old list; nothing else changes |
| `ClientState.MessagesKeepConnectionFlag` | client/src/hooks/useWebSocket.ts:65-118 | no server message changes the connection flag |
| `ClientState.ReconnectKeepsData` | client/src/hooks/useWebSocket.ts:33-36 | `onopen` and `onclose` only set the connection flag, so data survives a reconnect |
| `ClientState.OtherMessagesIgnored` | client/src/hooks/useWebSocket.ts:111-116 | `pong` and unknown message types leave the state unchanged |
| `ClientState.OnOpen` | client/src/hooks/useWebSocket.ts:33-36 | `onopen` sets the connection flag and changes nothing else |
| `ClientState.OnClose` | client/src/hooks/useWebSocket.ts:47-49 | `onclose` clears the connection flag and changes nothing else |
| `ClientState.HandleMessage` | client/src/hooks/useWebSocket.ts:65-118 | each message kind touches only its own part of the state: only `telemetry_update` changes the telemetry, only `initial_data` the missions and geofences, only it and `drone_update` the drones (whose count a drone update keeps), only it and `alert` the alerts; no message changes the connection flag |
| `ClientState.HandleAll` | client/src/hooks/useWebSocket.ts:65-118 | a stream without `telemetry_update` keeps every telemetry window, and one without `initial_data` keeps the missions and geofences |
| `MavLink.ConnectedAmong` | server/services/mavlink.ts:103-105 | an id is kept iff it is in the key order and its entry is connected |
| `MavLink.ConnectedIds` | server/services/mavlink.ts:102-106 | `getConnectedDrones` lists exactly the connected ids |
| `MavLink.ConnectedAmongAll` | server/services/mavlink.ts:102-106 | when every recorded link is connected, nothing is filtered out |
| `MavLink.ConnectedIdsAreAllIds` | server/services/mavlink.ts:102-106 | so the gateway lists every recorded id, in insertion order |
| `MavLink.Gateway.constructor` | server/services/mavlink.ts:16 | no drone is connected at the start |
| `MavLink.Gateway.GetConnectedDrones` | server/services/mavlink.ts:102-106 | an id is listed iff `IsConnected` holds for it |
| `MavLink.Gateway.IsConnected` | server/services/mavlink.ts:97-100 | a drone is connected exactly when it has a recorded link whose `connected` flag is set; an unknown drone is not connected |
| `MavLink.Gateway.ConnectDrone` | server/services/mavlink.ts:18-34 | the result is true and the drone is connected; every other drone's connected state is unchanged |
| `MavLink.Gateway.DisconnectDrone` | server/services/mavlink.ts:36-39 | the drone is no longer connected; every other drone's connected state is unchanged |
| `MavLink.Gateway.SendCommand` | server/services/mavlink.ts:41-55 | a drone without a live link gets the "not connected" error; otherwise the command is sent with its parameters |
| `MavLink.Gateway.UploadMission` | server/services/mavlink.ts:57-71 | the same guard; an accepted upload resolves true |
| `MavLink.Gateway.StartMission` | server/services/mavlink.ts:73-75 | rejected iff not connected; otherwise sends `MAV_CMD_MISSION_START` with no parameters |
| `MavLink.Gateway.PauseMission` | server/services/mavlink.ts:77-79 | rejected iff not connected; otherwise sends `MAV_CMD_DO_PAUSE_CONTINUE` with `[0]` |
| `MavLink.Gateway.ResumeMission` | server/services/mavlink.ts:81-83 | rejected iff not connected; otherwise sends `MAV_CMD_DO_PAUSE_CONTINUE` with `[1]` |
| `MavLink.Gateway.ReturnToLaunch` | server/services/mavlink.ts:85-87 | rejected iff not connected; otherwise sends `MAV_CMD_NAV_RETURN_TO_LAUNCH` |
| `MavLink.Gateway.Arm` | server/services/mavlink.ts:89-91 | rejected iff not connected; otherwise sends `MAV_CMD_COMPONENT_ARM_DISARM` with `[1]` |
| `MavLink.Gateway.Disarm` | server/services/mavlink.ts:93-95 | rejected iff not connected; otherwise sends `MAV_CMD_COMPONENT_ARM_DISARM` with `[0]` |
| `MissionPlanner.ResetForm` | client/src/components/missions/MissionPlannerModal.tsx:67-76 | the empty name, drone and description; altitude 100; type `survey`; no waypoints |
| `MissionPlanner.ResetFormFailsValidation` | client/src/components/missions/MissionPlannerModal.tsx:67-88 | a reset form is refused at submit |
| `MissionPlanner.AltitudeFromInput` | client/src/components/missions/MissionPlannerModal.tsx:174 | an unparsable or zero input becomes 100, so the altitude is never 0 |
| `MissionPlanner.SetAltitude` | client/src/components/missions/MissionPlannerModal.tsx:174 | the altitude input sets a non-zero altitude (100 for an unparsable or zero entry) and changes no other field and no waypoint |
| `MissionPlanner.SelectMissionType` | client/src/components/missions/MissionPlannerModal.tsx:111-113 | a type button sets the form's type and changes nothing else |
| `MissionPlanner.AddWaypoint` | client/src/components/missions/MissionPlannerModal.tsx:97-105 | exactly one waypoint is appended, within 0.005 degrees of the default centre and at the form's altitude |
| `MissionPlanner.WithoutIndexRemovesOne` | client/src/components/missions/MissionPlannerModal.tsx:107-109 | removing index `i` drops exactly that waypoint and keeps the others in order; an index outside the list removes nothing |
| `MissionPlanner.RemoveWaypoint` | client/src/components/missions/MissionPlannerModal.tsx:107-109 | the planner loses exactly the waypoint at the index, keeping the others in order and the form as it was; an index outside the list changes nothing |
| `MissionPlanner.HandleSubmit` | client/src/components/missions/MissionPlannerModal.tsx:78-95 | the form is refused iff the name or drone is empty or there are fewer than 2 waypoints; otherwise the check is sent with exactly the current waypoints and altitude |
| `MissionPlanner.MissionRequest` | client/src/components/missions/MissionPlannerModal.tsx:59-62 | the creation request carries the form's fields and the current waypoints |
| `MissionPlanner.OnAirspaceChecked` | client/src/components/missions/MissionPlannerModal.tsx:50-64 | a mission is created iff the check answered with no conflicts; conflicts are reported by count |
| `MissionPlanner.SubmittedCheckNotRejected` | client/src/components/missions/MissionPlannerModal.tsx:91-94 | a submitted check is never refused for a missing altitude |
| `MissionPlanner.GateCreatesOnlyConflictFreeMissions` | client/src/components/missions/MissionPlannerModal.tsx:50-95 | end to end with the server's check: a valid form creates a mission iff no waypoint lies inside an active geofence at the form's altitude, and such a mission has a name, a drone and at least 2 waypoints |
| `MissionsPage.OfferedActions` | client/src/pages/missions.tsx:181-217 | delete is offered for every status |
| `MissionsPage.OfferedIffTransition` | client/src/pages/missions.tsx:181-208 | a status change is offered iff it is planned→active, active→paused or paused→active; completed and cancelled missions offer only delete |
| `MissionsPage.StatusChangeUpdate` | client/src/pages/missions.tsx:63-68 | the update's status is the chosen one |
| `MissionsPage.StatusChangeOnlyChangesStatus` | client/src/pages/missions.tsx:63-68 | applied by the store, the update changes only the status and `updatedAt` |
| `MissionsPage.PageNeverFinishesMissions` | client/src/pages/missions.tsx:181-208 | from planned, active or paused, the page only ever reaches those three statuses, and a started mission never returns to planned |
| `OrderedMap.Get` | server/storage.ts:192 | a key's value, or none when the key is absent |
| `OrderedMap.Put` | server/storage.ts:209 | after `set`, the key maps to the value and other keys are unchanged; a present key keeps its place; a new key goes last |
| `OrderedMap.Delete` | server/storage.ts:261 | after `delete`, the key is absent and the rest keep their values and relative order |
| `OrderedMap.Values` | server/storage.ts:188 | the values, in key insertion order |
| `OrderedMap.ValuesMembership` | server/storage.ts:188 | a value is listed iff some key maps to it |
| `OrderedMap.PutPresentValues` | server/storage.ts:218 | replacing a present key's value replaces it at the same place in the listing |
| `OrderedMap.PutAbsentValues` | server/storage.ts:247 | inserting a new key appends its value to the listing |
| `OrderedMap.FreshKeyExists` | server/storage.ts:232 | a finite map always leaves an unused id to draw |
| `JsSemantics.OrNull` | server/storage.ts:200-205 | a missing or zero number becomes null; any other number is kept |
| `JsSemantics.SliceFrom` | server/storage.ts:267 | `slice(start)` returns a suffix; a non-negative start drops that many elements; a negative start keeps that many, or the whole array |
| `JsSemantics.TruncRem` | server/services/websocket.ts:147 | `%` by a positive divisor gives a remainder with the dividend's sign, smaller in magnitude than the divisor, that differs from the dividend by a whole multiple of the divisor, and is the dividend itself when that is already smaller in magnitude |
| `JsSemantics.Round` | server/services/websocket.ts:168 | `Math.round` gives the integer within one half of its argument, with halves rounded up |

## Left out

- Users, login and registration (`getUser`, `getUserByUsername`, `createUser` and the two auth routes) are not part of this model. Token handling is in a library that is not modelled.
- Express plumbing is left out: status codes, request parsing, and the Zod validation of request bodies. A mission body that fails validation is not modelled. A missing drone id reaches the guard as `None`.
- The GET, PATCH and DELETE routes only forward to the store methods, which are modelled. The routes' 404 mapping is left out.
- JSON (de)serialisation, the browser's reconnect timer, the 30-second ping and `sendMessage` are transport and timers, and are left out. The 2-second interval is one `SimulationTick` call.
- Concurrency is left out: every operation is atomic. In the source, the HTTP handlers, socket handlers and the interval tick can interleave at each `await`. The planner's form could also change between the airspace check and its answer; the model reads the form once.
- Floating point is left out. Numbers are exact reals, so results for points on or very near a polygon edge may differ from IEEE doubles. NaN and infinities are not modelled.
- The source has no per-item failure isolation. The simulator loop has no per-drone error handling, and a failing `send` is not caught. The model does not add either.
- `Storage.MemStorage.AcknowledgeAlert`: the source mutates the stored alert object in place. Any other reference to that object sees the change. The model replaces the value in the map, so aliasing is not captured.
- `Storage.ApplyDronePatch`, `Storage.ApplyMissionPatch`, `Storage.ApplyGeofencePatch`: the source spreads a `Partial` of the whole record, so an update body that carries `id` or `createdAt` overwrites those fields while the record stays under its old key. `PATCH /api/missions/:id` passes the raw request body, so this is reachable for missions. The patch types leave those keys out, so the model always keeps them.
- `MissionsPage.PageNeverFinishesMissions`: `Follow` assumes that after each click the page shows the new status. In the source the selected mission is a stale copy that only a re-selection refreshes, so a button can be pressed again; the statuses reached are still among those the offered buttons send.
- Status and type strings outside their enumerations are not modelled: every status, type and severity is one of the schema's values.
- GeoJSON positions with fewer than two entries, and feature kinds other than Polygon and MultiPolygon, are left out. The loop skips other kinds; a missing ring is modelled as the source's exception (`MissingRing`).
- `GeoJson.SimplifyCoordinates` requires a `step` of at least 1 (or an empty input). For a non-empty input longer than `step`, with `step` of 0 or below, the source's loop never ends. A non-integer `step` is not modelled.
- `GeoJson.SimplifyCoordinates` compares the last kept point with the input's last point by object identity. The model compares their indices.
- The `INDIA_BOUNDARY_GEOJSON` data constant is left out.
- The planner's network calls are left out: the API request helper and the query-cache invalidation. Toasts are reduced to the `GateOutcome` values. Closing the dialog and resetting it after creation are left out; `ResetForm` is modelled on its own.
- The missions page's delete button and its `setSelectedMission(null)` are UI state. The deletion itself is `Storage.MemStorage.DeleteMission`.
- `MavLink.Gateway.SendCommand`: the simulated 90% success is any boolean, and the 100 ms delay is left out. The connection string is only logged.
- `Storage.MemStorage.AddTelemetry`: the sample id is any string. Nothing depends on its freshness.
- `WebSocketHub.SynthSample`: the seven `Math.random()` draws are any values in `[0, 1)`. Only the bounds the code enforces are stated. A null reading counts as 0, as `null + x` does in JavaScript.
