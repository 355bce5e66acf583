/** The scrum-eye domain types (internal/domain/sprint.go). */
module Domain {

  /** WorkItemType: the six values the mapper produces. */
  datatype WorkItemType = Story | Bug | Task | Epic | Feature | Unknown
  {
    /** The Go string constant of the type, as it is printed. */
    function Name(): (s: string)
      ensures s != []
    {
      match this
      case Story => "Story"
      case Bug => "Bug"
      case Task => "Task"
      case Epic => "Epic"
      case Feature => "Feature"
      case Unknown => "Unknown"
    }
  }

  datatype WorkItem = WorkItem(id: int, name: string, itemType: WorkItemType)

  /** A sprint without its dates, which only the clock-dependent part of the report reads. */
  datatype Sprint = Sprint(id: string, name: string, workItems: seq<WorkItem>)
}
