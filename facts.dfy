/**
 * The cross-module scratchpad of dev-digest (common/facts.go). A Facts record lives on
 * the heap and travels in a context.Context; producers append the IDs they find and
 * later producers read them.
 */
module SharedFacts {
  import opened Basics

  /** common.Facts: the feature IDs accumulated during one run. */
  class Facts {
    var featureIDs: seq<int>

    /** `&Facts{}`: no IDs yet. */
    constructor ()
      ensures featureIDs == []
    {
      featureIDs := [];
    }

    /** A producer appends feature IDs to the shared record, after the ones already there. */
    method AppendFeatureIDs(ids: seq<int>)
      modifies this
      ensures featureIDs == old(featureIDs) + ids
    {
      featureIDs := featureIDs + ids;
    }
  }

  /**
   * The part of a context.Context the model needs: the value stored under the Facts key.
   * None is "no value"; Some(null) is a nil *Facts stored in the context.
   */
  datatype Context = Context(facts: Option<Facts?>)

  /** context.Background(): nothing attached. */
  const Background: Context := Context(None)

  /** WithFacts: a context carrying `f` under the Facts key, whatever `ctx` carried before. */
  function WithFacts(ctx: Context, f: Facts?): (c: Context)
    ensures c.facts == Some(f)
  {
    ctx.(facts := Some(f))
  }

  /** The record GetFacts hands out without allocating: the attached pointer when it is not nil. */
  function Attached(ctx: Context): (r: Option<Facts>)
    ensures r.Some? <==> ctx.facts.Some? && ctx.facts.value != null
    ensures r.Some? ==> r.value == ctx.facts.value
  {
    if ctx.facts.Some? && ctx.facts.value != null then Some(ctx.facts.value) else None
  }

  /** GetFacts: the attached record, or a fresh empty one that is not stored anywhere. */
  method GetFacts(ctx: Context) returns (f: Facts)
    ensures Attached(ctx).Some? ==> f == Attached(ctx).value
    ensures Attached(ctx).None? ==> fresh(f) && f.featureIDs == []
  {
    if ctx.facts.Some? && ctx.facts.value != null {
      return ctx.facts.value;
    }
    f := new Facts();
  }

  /** A non-nil record attached with WithFacts is the one GetFacts returns. */
  lemma WithThenAttached(ctx: Context, f: Facts)
    ensures Attached(WithFacts(ctx, f)) == Some(f)
  {
  }

  /** A nil *Facts stored in the context counts as absent. */
  lemma NilCountsAsAbsent(ctx: Context)
    ensures Attached(WithFacts(ctx, null)).None?
  {
  }

  /**
   * With nothing attached, what a producer appends to the fallback record is lost: the
   * next GetFacts on the same context again yields an empty record.
   */
  method FallbackIsNotStored(ctx: Context, ids: seq<int>) returns (seen: seq<int>)
    requires Attached(ctx).None?
    ensures seen == []
  {
    var f := GetFacts(ctx);
    f.AppendFeatureIDs(ids);
    var g := GetFacts(ctx);
    seen := g.featureIDs;
  }

  /**
   * With a record attached, what one producer appends through GetFacts is what the next
   * producer's GetFacts sees: the hand-off from Azure Boards to Azure Repos.
   */
  method HandOff(ctx: Context, ids: seq<int>) returns (seen: seq<int>)
    requires Attached(ctx).Some?
    modifies Attached(ctx).value
    ensures seen == old(Attached(ctx).value.featureIDs) + ids
  {
    var producer := GetFacts(ctx);
    producer.AppendFeatureIDs(ids);
    var consumer := GetFacts(ctx);
    seen := consumer.featureIDs;
  }
}
