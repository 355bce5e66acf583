/**
 * The computable parts of scrum-eye's sprint printout (internal/report/console.go): the
 * rune-based truncate, the name column width, and the work-item summary line.
 */
module SprintConsole {
  import opened GoStrings
  import opened Domain

  /** The inner width of the printed box. */
  const Width := 60
  /** The room left for a work item's name: indent, ID column, spaces, type column and border. */
  const NameWidth := Width - |"   "| - 4 - 2 - 10 - 3
  const Ellipsis := '…'
  const NoWorkItems := "No work items"

  /** The order in which the summary line lists the types. */
  const TypeOrder: seq<WorkItemType> := [Story, Bug, Task, Epic, Feature, Unknown]

  /** The summary order names every type once. */
  lemma EveryTypeListed(t: WorkItemType)
    ensures t in TypeOrder
  {
    match t
    case Story => assert TypeOrder[0] == t;
    case Bug => assert TypeOrder[1] == t;
    case Task => assert TypeOrder[2] == t;
    case Epic => assert TypeOrder[3] == t;
    case Feature => assert TypeOrder[4] == t;
    case Unknown => assert TypeOrder[5] == t;
  }

  lemma NameWidthIs38()
    ensures NameWidth == 38
  {
  }

  // ---------------------------------------------------------------------------
  // truncate
  // ---------------------------------------------------------------------------

  /** truncate: at most `max` runes; a shortened name of two or more runes ends in "…". */
  function Truncate(s: string, max: int): (r: string)
    ensures max <= 0 ==> r == ""
    ensures max > 0 ==> |r| == if |s| <= max then |s| else max
    ensures |s| <= max ==> r == s
    ensures |s| > max >= 2 ==> r == s[..max - 1] + [Ellipsis]
    ensures |s| > max == 1 ==> r == s[..1]
  {
    if max <= 0 then ""
    else if |s| <= max then s
    else if max <= 1 then s[..max]
    else s[..max - 1] + [Ellipsis]
  }

  /** Truncating again to the same width changes nothing. */
  lemma TruncateIdempotent(s: string, max: int)
    ensures Truncate(Truncate(s, max), max) == Truncate(s, max)
  {
  }

  /** A truncated name always fits its column. */
  lemma TruncatedNameFits(name: string)
    ensures |Truncate(name, NameWidth)| <= 38
  {
  }

  // ---------------------------------------------------------------------------
  // Type counts and the summary line
  // ---------------------------------------------------------------------------

  /** How many of the items have type `t`. */
  function Tally(items: seq<WorkItem>, t: WorkItemType): nat
    decreases |items|
  {
    if items == [] then 0
    else Tally(items[..|items| - 1], t) + (if items[|items| - 1].itemType == t then 1 else 0)
  }

  /** The Go map after the counting loop: a key for every type that occurs, with its count. */
  predicate CountsOf(counts: map<WorkItemType, int>, items: seq<WorkItem>) {
    forall t :: (t in counts <==> Tally(items, t) > 0) && (t in counts ==> counts[t] == Tally(items, t))
  }

  /** The summary parts for the types in `order`, given the counts. */
  function TypeParts(counts: map<WorkItemType, int>, order: seq<WorkItemType>): seq<string>
    decreases |order|
  {
    if order == [] then []
    else
      var t := order[|order| - 1];
      TypeParts(counts, order[..|order| - 1])
        + (if t in counts && counts[t] > 0 then [t.Name() + ": " + Itoa(counts[t])] else [])
  }

  /** The type counts of `items` as the summary uses them. */
  function Counted(items: seq<WorkItem>): map<WorkItemType, int> {
    map t | t in TypeOrder && Tally(items, t) > 0 :: Tally(items, t)
  }

  /** summaryParts after both loops. */
  function SummaryParts(items: seq<WorkItem>): seq<string> {
    (if |items| > 0 then ["Total: " + Itoa(|items|)] else []) + TypeParts(Counted(items), TypeOrder)
  }

  /** summaryLine. */
  function SummaryLine(items: seq<WorkItem>): string {
    var parts := SummaryParts(items);
    if parts == [] then NoWorkItems else Join(parts, ", ")
  }

  /** Counts that agree with the items are the summary's map. */
  lemma CountsAreCounted(counts: map<WorkItemType, int>, items: seq<WorkItem>)
    requires CountsOf(counts, items)
    ensures counts == Counted(items)
  {
    forall t: WorkItemType
      ensures t in TypeOrder
    {
      EveryTypeListed(t);
    }
  }

  /** The counting loop of PrintCurrentSprint. */
  method CountTypes(items: seq<WorkItem>) returns (counts: map<WorkItemType, int>)
    ensures CountsOf(counts, items)
  {
    counts := map[];
    for i := 0 to |items|
      invariant CountsOf(counts, items[..i])
    {
      var t := items[i].itemType;
      assert items[..i + 1][..i] == items[..i];
      if t in counts {
        counts := counts[t := counts[t] + 1];
      } else {
        counts := counts[t := 1];
      }
    }
    assert items[..|items|] == items;
  }

  /** The loop over the types in summary order: one "T: c" part per type with a positive count. */
  method AppendTypeParts(parts: seq<string>, counts: map<WorkItemType, int>, order: seq<WorkItemType>)
    returns (out: seq<string>)
    ensures out == parts + TypeParts(counts, order)
  {
    out := parts;
    for k := 0 to |order|
      invariant out == parts + TypeParts(counts, order[..k])
    {
      var t := order[k];
      ghost var part := if t in counts && counts[t] > 0 then [t.Name() + ": " + Itoa(counts[t])] else [];
      assert order[..k + 1][..k] == order[..k];
      assert TypeParts(counts, order[..k + 1]) == TypeParts(counts, order[..k]) + part;
      if t in counts && counts[t] > 0 {
        out := out + [t.Name() + ": " + Itoa(counts[t])];
      }
      assert out == parts + TypeParts(counts, order[..k]) + part;
    }
    assert order[..|order|] == order;
  }

  /** The loops of PrintCurrentSprint that build the "Work Items:" summary line. */
  method Summarize(items: seq<WorkItem>) returns (line: string)
    ensures line == SummaryLine(items)
  {
    var typeCounts := CountTypes(items);
    CountsAreCounted(typeCounts, items);

    var summaryParts: seq<string> := [];
    var total := |items|;
    if total > 0 {
      summaryParts := summaryParts + ["Total: " + Itoa(total)];
    }
    summaryParts := AppendTypeParts(summaryParts, typeCounts, TypeOrder);

    line := NoWorkItems;
    if |summaryParts| > 0 {
      line := Join(summaryParts, ", ");
    }
  }

  // ---------------------------------------------------------------------------
  // Properties of the summary
  // ---------------------------------------------------------------------------

  /** Every item has exactly one of the six types, so the counts add up to the number of items. */
  lemma {:induction false} CountsSumToTotal(items: seq<WorkItem>)
    ensures Tally(items, Story) + Tally(items, Bug) + Tally(items, Task)
          + Tally(items, Epic) + Tally(items, Feature) + Tally(items, Unknown) == |items|
    decreases |items|
  {
    if items != [] {
      CountsSumToTotal(items[..|items| - 1]);
    }
  }

  lemma {:induction false} NoCountsNoParts(order: seq<WorkItemType>)
    ensures TypeParts(map[], order) == []
    decreases |order|
  {
    if order != [] {
      NoCountsNoParts(order[..|order| - 1]);
    }
  }

  /** The line reads "No work items" exactly when there are none; otherwise it starts with the total. */
  lemma NoWorkItemsIffEmpty(items: seq<WorkItem>)
    ensures SummaryLine(items) == NoWorkItems <==> items == []
    ensures items != [] ==> HasPrefix(SummaryLine(items), "Total: " + Itoa(|items|))
  {
    if items == [] {
      assert Counted(items) == map[];
      NoCountsNoParts(TypeOrder);
    } else {
      var parts := SummaryParts(items);
      JoinStartsWithFirst(parts, ", ");
      var line := Join(parts, ", ");
      assert line[0] == parts[0][0] == 'T';
    }
  }

  lemma {:induction false} TypePartsMention(counts: map<WorkItemType, int>, order: seq<WorkItemType>, i: nat)
    requires i < |order| && order[i] in counts && counts[order[i]] > 0
    ensures order[i].Name() + ": " + Itoa(counts[order[i]]) in TypeParts(counts, order)
    decreases |order|
  {
    if i < |order| - 1 {
      var init := order[..|order| - 1];
      assert init[i] == order[i];
      TypePartsMention(counts, init, i);
    }
  }

  /** Every type that occurs in the sprint is listed with its count. */
  lemma SummaryMentionsPresentTypes(items: seq<WorkItem>, t: WorkItemType)
    requires Tally(items, t) > 0
    ensures t.Name() + ": " + Itoa(Tally(items, t)) in SummaryParts(items)
  {
    EveryTypeListed(t);
    var i :| 0 <= i < |TypeOrder| && TypeOrder[i] == t;
    TypePartsMention(Counted(items), TypeOrder, i);
  }
}
