/** The mission management page: which actions it offers for the selected
    mission, and the update a status change sends. */
module MissionsPage {
  import opened Wrappers
  import opened Schema
  import Storage

  datatype Action = ChangeStatus(to: MissionStatus) | Delete

  /** The buttons shown for a mission in `status`, in display order. */
  function OfferedActions(status: MissionStatus): (r: seq<Action>)
    ensures Delete in r
  {
    match status
    case Planned => [ChangeStatus(MissionStatus.Active), Delete]
    case Active => [ChangeStatus(Paused), Delete]
    case Paused => [ChangeStatus(MissionStatus.Active), Delete]
    case _ => [Delete]
  }

  /** The lifecycle the page drives. */
  predicate Transition(from: MissionStatus, to: MissionStatus)
  {
    || (from == Planned && to == MissionStatus.Active)
    || (from == MissionStatus.Active && to == Paused)
    || (from == Paused && to == MissionStatus.Active)
  }

  /** A status change is offered exactly along the lifecycle: start a planned
      mission, pause an active one, resume a paused one; a completed or
      cancelled mission can only be deleted. */
  lemma OfferedIffTransition(from: MissionStatus, to: MissionStatus)
    ensures ChangeStatus(to) in OfferedActions(from) <==> Transition(from, to)
    ensures from == Completed || from == Cancelled ==> OfferedActions(from) == [Delete]
  {
  }

  /** `handleStatusChange`: an update carrying only the new status. */
  function StatusChangeUpdate(newStatus: MissionStatus): (p: MissionPatch)
    ensures p.status == Some(newStatus)
  {
    MissionPatch(None, None, None, Some(newStatus), None, None, None, None, None, None, None, None)
  }

  /** Applied by the store, it changes the status and the update time and
      nothing else. */
  lemma StatusChangeOnlyChangesStatus(m: Mission, s: MissionStatus, now: Time)
    ensures Storage.ApplyMissionPatch(m, StatusChangeUpdate(s), now) == m.(status := s, updatedAt := now)
  {
  }

  /** Following any sequence of offered buttons (ignoring the ones not
      shown) from `status`. */
  function Follow(status: MissionStatus, requested: seq<MissionStatus>): MissionStatus
    decreases |requested|
  {
    if requested == [] then status
    else
      var next := if ChangeStatus(requested[0]) in OfferedActions(status) then requested[0] else status;
      Follow(next, requested[1..])
  }

  /** From a planned mission the page only ever reaches planned, active or
      paused, and once started it never returns to planned: completion and
      cancellation come from elsewhere. */
  lemma {:induction false} PageNeverFinishesMissions(status: MissionStatus, requested: seq<MissionStatus>)
    requires status == Planned || status == MissionStatus.Active || status == Paused
    ensures var s := Follow(status, requested);
      && (s == Planned || s == MissionStatus.Active || s == Paused)
      && (status != Planned ==> s != Planned)
    decreases |requested|
  {
    if requested != [] {
      OfferedIffTransition(status, requested[0]);
      var next := if ChangeStatus(requested[0]) in OfferedActions(status) then requested[0] else status;
      PageNeverFinishesMissions(next, requested[1..]);
    }
  }
}
