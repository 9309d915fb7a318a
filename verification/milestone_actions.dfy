/** The status menu of a milestone: which moves it offers from the current
    status, and the row update a move writes. */
module MilestoneActions {
  import opened Wrappers
  import opened DatabaseTypes

  /** The menu entries, in menu order. */
  datatype Item = MarkComplete | StartWorking | Pause | MarkBlocked | Defer

  /** The status an entry moves the milestone to. */
  function Target(item: Item): MilestoneStatus {
    match item
    case MarkComplete => Completed
    case StartWorking => InProgress
    case Pause => NotStarted
    case MarkBlocked => Blocked
    case Defer => Deferred
  }

  /** The entries offered for the status string the row carries, in menu
      order. */
  function Offered(currentStatus: string): (items: seq<Item>)
    ensures MarkComplete in items <==> currentStatus != "completed"
    ensures StartWorking in items <==> currentStatus != "in_progress" && currentStatus != "completed"
    ensures Pause in items <==> currentStatus == "in_progress"
    ensures MarkBlocked in items <==> currentStatus != "blocked" && currentStatus != "completed"
    ensures Defer in items <==> currentStatus != "deferred"
  {
    (if currentStatus != "completed" then [MarkComplete] else [])
    + (if currentStatus != "in_progress" && currentStatus != "completed" then [StartWorking] else [])
    + (if currentStatus == "in_progress" then [Pause] else [])
    + (if currentStatus != "blocked" && currentStatus != "completed" then [MarkBlocked] else [])
    + (if currentStatus != "deferred" then [Defer] else [])
  }

  /** From `completed` the only way out is to defer. */
  lemma CompletedOnlyDefers()
    ensures Offered("completed") == [Defer]
  {
  }

  /** For every stored status no entry leads back to it, and there is always
      at least one entry. */
  lemma NoEntryKeepsTheStatus(s: MilestoneStatus)
    ensures forall item :: item in Offered(MilestoneStatusTag(s)) ==> Target(item) != s
    ensures |Offered(MilestoneStatusTag(s))| > 0
  {
    var items := Offered(MilestoneStatusTag(s));
    forall item | item in items ensures Target(item) != s {
      match item
      case MarkComplete => assert MilestoneStatusTag(s) != "completed";
      case StartWorking => assert MilestoneStatusTag(s) != "in_progress";
      case Pause => assert MilestoneStatusTag(s) == "in_progress";
      case MarkBlocked => assert MilestoneStatusTag(s) != "blocked";
      case Defer => assert MilestoneStatusTag(s) != "deferred";
    }
    if s == Deferred {
      assert MarkComplete in items;
    } else {
      assert Defer in items;
    }
  }

  /** The columns an update writes: the status, and the completion time
      only when completing. */
  datatype UpdateData = UpdateData(status: MilestoneStatus, completedAt: Option<Timestamp>)

  /** `updateData` for a move to `newStatus` at time `now`. */
  function UpdateDataFor(newStatus: MilestoneStatus, now: Timestamp): (u: UpdateData)
    ensures u.status == newStatus
    ensures u.completedAt.Some? <==> newStatus == Completed
    ensures u.completedAt.Some? ==> u.completedAt.value == now
  {
    UpdateData(newStatus, if newStatus == Completed then Some(now) else None)
  }

  /** The row after choosing `item`: unchanged when the update reports an
      error, otherwise with the written columns replaced. */
  function Choose(m: Milestone, item: Item, now: Timestamp, updateFails: bool): (r: Milestone)
    ensures updateFails ==> r == m
    ensures !updateFails ==> r.status == Target(item)
    ensures !updateFails && Target(item) == Completed ==> r.completedAt == Some(now)
    ensures !updateFails && Target(item) != Completed ==> r.completedAt == m.completedAt
    ensures r == m.(status := r.status, completedAt := r.completedAt)
  {
    if updateFails then m
    else
      var u := UpdateDataFor(Target(item), now);
      m.(status := u.status, completedAt := if u.completedAt.Some? then u.completedAt else m.completedAt)
  }

  /** Deferring a completed milestone keeps its completion time: leaving
      `completed` does not clear it. */
  lemma DeferKeepsCompletionTime(m: Milestone, now: Timestamp)
    requires m.status == Completed && m.completedAt.Some?
    ensures var r := Choose(m, Defer, now, false);
      r.status == Deferred && r.completedAt == m.completedAt
  {
  }

  /** A successful move to an offered entry always changes the status. */
  lemma OfferedMoveChangesStatus(m: Milestone, item: Item, now: Timestamp)
    requires item in Offered(MilestoneStatusTag(m.status))
    ensures Choose(m, item, now, false).status != m.status
  {
    NoEntryKeepsTheStatus(m.status);
  }
}
