/** The OData-to-domain mapper of scrum-eye (internal/collector/mapper.go). */
module Collector {
  import opened GoStrings
  import opened Domain

  /** The fields of an Azure Boards OData work item that the mapper reads. */
  datatype ODataWorkItem = ODataWorkItem(id: int, title: string, workItemType: string)

  /** normalizeWorkItemType: a case-insensitive match on the Azure type names; anything else is Unknown. */
  function NormalizeWorkItemType(t: string): (w: WorkItemType)
    ensures w == Story <==> ToLower(t) == "user story"
    ensures w == Bug <==> ToLower(t) == "bug"
    ensures w == Task <==> ToLower(t) == "task"
    ensures w == Epic <==> ToLower(t) == "epic"
    ensures w == Feature <==> ToLower(t) == "feature"
  {
    var lower := ToLower(t);
    if lower == "user story" then Story
    else if lower == "bug" then Bug
    else if lower == "task" then Task
    else if lower == "epic" then Epic
    else if lower == "feature" then Feature
    else Unknown
  }

  /** Case does not matter: names that lower-case alike map alike. */
  lemma NormalizeIgnoresCase(a: string, b: string)
    requires ToLower(a) == ToLower(b)
    ensures NormalizeWorkItemType(a) == NormalizeWorkItemType(b)
  {
  }

  /** Azure's own spellings map to the five known types. */
  lemma NormalizeAzureNames()
    ensures NormalizeWorkItemType("User Story") == Story
    ensures NormalizeWorkItemType("Bug") == Bug
    ensures NormalizeWorkItemType("Task") == Task
    ensures NormalizeWorkItemType("Epic") == Epic
    ensures NormalizeWorkItemType("Feature") == Feature
    ensures NormalizeWorkItemType("") == Unknown
  {
    assert ToLower("User Story") == "user story";
    assert ToLower("Bug") == "bug";
    assert ToLower("Task") == "task";
    assert ToLower("Epic") == "epic";
    assert ToLower("Feature") == "feature";
  }

  /**
   * Normalising a type's own printed name gives the type back for every type but Story,
   * whose name "Story" is not an Azure type name: the mapping is not idempotent.
   */
  lemma NormalizeOwnName(w: WorkItemType)
    ensures NormalizeWorkItemType(w.Name()) == w <==> w != Story
  {
    var lower := ToLower(w.Name());
    match w
    case Story => assert lower == "story";
    case Bug => assert lower == "bug";
    case Task => assert lower == "task";
    case Epic => assert lower == "epic";
    case Feature => assert lower == "feature";
    case Unknown => assert lower == "unknown";
  }

  /** The domain item an OData item becomes. */
  function ToWorkItem(v: ODataWorkItem): (wi: WorkItem)
    ensures wi.id == v.id && wi.name == v.title
  {
    WorkItem(v.id, v.title, NormalizeWorkItemType(v.workItemType))
  }

  /** MapODataWorkItems: one domain item per OData item, in order. */
  method MapODataWorkItems(src: seq<ODataWorkItem>) returns (dst: seq<WorkItem>)
    ensures |dst| == |src|
    ensures forall i :: 0 <= i < |src| ==> dst[i] == ToWorkItem(src[i])
  {
    dst := [];
    for i := 0 to |src|
      invariant |dst| == i
      invariant forall k :: 0 <= k < i ==> dst[k] == ToWorkItem(src[k])
    {
      var v := src[i];
      var wi := WorkItem(v.id, v.title, NormalizeWorkItemType(v.workItemType));
      dst := dst + [wi];
    }
  }
}
