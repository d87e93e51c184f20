/** Assignment statuses and the clock-driven transitions every read applies first. */
module Schedule {

  datatype Status = Draft | Scheduled | Active | Completed | GradePublished

  datatype Kind = Plain | Test

  /** `applyTimeTransition`. */
  function Refresh(status: Status, start: int, end: int, now: int): Status {
    if status == Scheduled && start <= now < end then Active
    else if status == Active && now >= end then Completed
    else status
  }

  /** How far along its life an assignment is. */
  function Stage(status: Status): nat {
    match status
    case Draft => 0
    case Scheduled => 0
    case Active => 1
    case Completed => 2
    case GradePublished => 3
  }

  /** Refreshing settles at once, never goes back, and leaves nothing open past its end. */
  lemma RefreshSettles(status: Status, start: int, end: int, now: int, later: int)
    requires now <= later
    ensures Refresh(Refresh(status, start, end, now), start, end, now) == Refresh(status, start, end, now)
    ensures Stage(status) <= Stage(Refresh(status, start, end, now)) <= Stage(status) + 1
    ensures Refresh(status, start, end, now) == Active ==> now < end
    ensures Refresh(Refresh(status, start, end, now), start, end, later) != Refresh(status, start, end, later)
       <==> status == Scheduled && start <= now < end <= later
  {
  }

  /** A scheduled assignment nobody looks at between its dates stays scheduled for good. */
  lemma MissedWindowStaysScheduled(start: int, end: int, now: int)
    ensures Refresh(Scheduled, start, end, now) == Scheduled <==> now < start || end <= now
  {
  }
}
