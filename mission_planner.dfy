/** The mission planner dialog: its form and waypoint list, the submit
    validation, and the gate that creates a mission only after an airspace
    check that found no conflict. The dialog's state is replaced wholesale
    on every change, so each handler is a function from state to state. */
module MissionPlanner {
  import opened Wrappers
  import opened Schema
  import Routes

  datatype FormData = FormData(name: string, droneId: Id, altitude: int,
                               missionType: string, description: string)

  datatype Planner = Planner(form: FormData, waypoints: seq<Waypoint>)

  const DefaultAltitude: int := 100

  function DefaultForm(): FormData
  {
    FormData("", "", DefaultAltitude, "survey", "")
  }

  /** `resetForm`: the default form and no waypoints. */
  function ResetForm(): (p: Planner)
    ensures p.form.name == "" && p.form.droneId == "" && p.form.description == ""
    ensures p.form.altitude == 100 && p.form.missionType == "survey"
    ensures p.waypoints == []
  {
    Planner(DefaultForm(), [])
  }

  /** The altitude input: `parseInt(value) || 100`, where `None` stands for
      a value `parseInt` reads as NaN. */
  function AltitudeFromInput(parsed: Option<int>): (a: int)
    ensures a != 0
    ensures parsed.Some? && parsed.value != 0 ==> a == parsed.value
    ensures parsed.None? || parsed == Some(0) ==> a == DefaultAltitude
  {
    if parsed.Some? && parsed.value != 0 then parsed.value else DefaultAltitude
  }

  /** The altitude input: an unparsable or zero entry falls back to 100. */
  function SetAltitude(p: Planner, parsed: Option<int>): (q: Planner)
    ensures q.form.altitude != 0
    ensures q.form.altitude == AltitudeFromInput(parsed)
    ensures q.waypoints == p.waypoints
    ensures q.form.(altitude := p.form.altitude) == p.form
  {
    p.(form := p.form.(altitude := AltitudeFromInput(parsed)))
  }

  /** A mission-type button: only the form's type changes. */
  function SelectMissionType(p: Planner, t: string): (q: Planner)
    ensures q.form.missionType == t
    ensures q.waypoints == p.waypoints
    ensures q.form.(missionType := p.form.missionType) == p.form
  {
    p.(form := p.form.(missionType := t))
  }

  /** `addWaypoint`: a sample point near the default map centre, at the
      form's altitude, appended to the list. `r1` and `r2` are the two
      random draws. */
  function AddWaypoint(p: Planner, r1: real, r2: real): (q: Planner)
    requires 0.0 <= r1 < 1.0 && 0.0 <= r2 < 1.0
    ensures q.form == p.form && |q.waypoints| == |p.waypoints| + 1
    ensures q.waypoints[..|p.waypoints|] == p.waypoints
    ensures var w := q.waypoints[|p.waypoints|];
      && w.altitude == p.form.altitude as real
      && 37.7699 <= w.lat < 37.7799 && -122.4244 <= w.lng < -122.4144
  {
    var w := Waypoint(37.7749 + (r1 - 0.5) * 0.01, -122.4194 + (r2 - 0.5) * 0.01,
                      p.form.altitude as real);
    p.(waypoints := p.waypoints + [w])
  }

  /** The waypoints whose position differs from `index`, order kept. */
  function WithoutIndex(wps: seq<Waypoint>, index: int): seq<Waypoint>
  {
    if wps == [] then []
    else
      var n := |wps| - 1;
      WithoutIndex(wps[..n], index) + (if n != index then [wps[n]] else [])
  }

  /** `removeWaypoint`: the list without the entry at `index`. */
  function RemoveWaypoint(p: Planner, index: int): (q: Planner)
    ensures q.form == p.form
    ensures 0 <= index < |p.waypoints| ==> q.waypoints == p.waypoints[..index] + p.waypoints[index + 1..]
    ensures !(0 <= index < |p.waypoints|) ==> q.waypoints == p.waypoints
  {
    WithoutIndexRemovesOne(p.waypoints, index);
    p.(waypoints := WithoutIndex(p.waypoints, index))
  }

  /** Removing drops exactly the waypoint at `index`, keeping the others in
      order; an index outside the list removes nothing. */
  lemma {:induction false} WithoutIndexRemovesOne(wps: seq<Waypoint>, index: int)
    ensures 0 <= index < |wps| ==> WithoutIndex(wps, index) == wps[..index] + wps[index + 1..]
    ensures !(0 <= index < |wps|) ==> WithoutIndex(wps, index) == wps
  {
    if wps != [] {
      var n := |wps| - 1;
      WithoutIndexRemovesOne(wps[..n], index);
      assert wps[..n] + [wps[n]] == wps;
      RemovalThenLast(wps[..n], wps[n], index, WithoutIndex(wps[..n], index));
    }
  }

  /** The inductive step: a list without position `index`, extended by one
      more element that is kept unless it sits at `index`. */
  lemma RemovalThenLast(init: seq<Waypoint>, last: Waypoint, index: int, r: seq<Waypoint>)
    requires 0 <= index < |init| ==> r == init[..index] + init[index + 1..]
    requires !(0 <= index < |init|) ==> r == init
    ensures var wps, r' := init + [last], r + (if |init| != index then [last] else []);
      && (0 <= index < |wps| ==> r' == wps[..index] + wps[index + 1..])
      && (!(0 <= index < |wps|) ==> r' == wps)
  {
    var wps := init + [last];
    if 0 <= index < |init| {
      assert init[..index] == wps[..index];
      assert init[index + 1..] + [last] == wps[index + 1..];
    } else if index == |init| {
      assert wps[..index] == init && wps[index + 1..] == [];
    }
  }

  // ---------------------------------------------------------------------
  // Submission
  // ---------------------------------------------------------------------

  /** What pressing submit does: a validation error (no request), or an
      airspace check of the current waypoints at the form's altitude. */
  datatype SubmitAction = ValidationError | CheckAirspace(request: Routes.AirspaceRequest)

  /** `handleSubmit` */
  function HandleSubmit(p: Planner): (a: SubmitAction)
    ensures a.ValidationError? <==> p.form.name == "" || p.form.droneId == "" || |p.waypoints| < 2
    ensures a.CheckAirspace? ==>
      a.request == Routes.AirspaceRequest(Some(p.waypoints), Some(p.form.altitude as real))
  {
    if p.form.name == "" || p.form.droneId == "" || |p.waypoints| < 2 then ValidationError
    else CheckAirspace(Routes.AirspaceRequest(Some(p.waypoints), Some(p.form.altitude as real)))
  }

  /** The body of the creation request: the form spread with the waypoints. */
  function MissionRequest(p: Planner): (m: InsertMission)
    ensures m.waypoints == p.waypoints && m.altitude == p.form.altitude as real
    ensures m.name == p.form.name && m.droneId == Some(p.form.droneId)
  {
    InsertMission(p.form.name, Some(p.form.description), Some(p.form.droneId), None,
                  p.form.missionType, p.waypoints, None, p.form.altitude as real, None)
  }

  /** What the dialog does with the airspace response: a refused request
      raises a request error and no success handler runs; conflicts are
      reported by count; a clean check sends the creation request. */
  datatype GateOutcome = NoAction | ConflictsReported(count: nat) | CreateMission(data: InsertMission)

  /** `checkAirspaceMutation.onSuccess` */
  function OnAirspaceChecked(p: Planner, resp: Routes.AirspaceResponse): (g: GateOutcome)
    ensures g.CreateMission? <==> resp.Checked? && !resp.hasConflicts
    ensures g.CreateMission? ==> g.data == MissionRequest(p)
    ensures g.ConflictsReported? ==> resp.Checked? && g.count == |resp.conflicts|
  {
    match resp
    case BadRequest => NoAction
    case Checked(hasConflicts, conflicts) =>
      if hasConflicts then ConflictsReported(|conflicts|) else CreateMission(MissionRequest(p))
  }

  /** The altitude the form holds is never 0, so a submitted check is never
      refused as falsy. */
  lemma SubmittedCheckNotRejected(p: Planner)
    requires p.form.altitude != 0
    requires HandleSubmit(p).CheckAirspace?
    ensures !Routes.Rejected(HandleSubmit(p).request)
  {
  }

  /** End to end: the dialog creates a mission from a valid form exactly when
      no waypoint lies inside an active geofence at the form's altitude, and
      then that mission has a name, a drone and at least two waypoints. */
  lemma GateCreatesOnlyConflictFreeMissions(p: Planner, gs: seq<Geofence>)
    requires p.form.altitude != 0
    requires HandleSubmit(p).CheckAirspace?
    ensures var g := OnAirspaceChecked(p, Routes.AirspaceVerdict(gs, HandleSubmit(p).request));
      && (g.CreateMission? <==>
            forall i, j :: 0 <= i < |gs| && 0 <= j < |p.waypoints| && gs[i].active ==>
              !Routes.Violates(gs[i], p.waypoints[j], p.form.altitude as real))
      && (g.CreateMission? ==> g.data.name != "" && g.data.droneId != Some("") && |g.data.waypoints| >= 2)
  {
    var alt := p.form.altitude as real;
    var cs := Routes.AllConflicts(gs, p.waypoints, alt);
    if |cs| > 0 {
      Routes.ConflictsAreViolations(gs, p.waypoints, alt, cs[0]);
    } else {
      forall i, j | 0 <= i < |gs| && 0 <= j < |p.waypoints| && gs[i].active
        ensures !Routes.Violates(gs[i], p.waypoints[j], alt)
      {
        Routes.ConflictsAreViolations(gs, p.waypoints, alt, Routes.ConflictOf(gs[i], p.waypoints[j]));
      }
    }
  }

  /** A reset after creation leaves nothing that would pass validation. */
  lemma ResetFormFailsValidation()
    ensures HandleSubmit(ResetForm()) == ValidationError
  {
  }
}
