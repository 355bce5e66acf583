/**
 * The collection loop of dev-digest's console runner (console/runner.go): every enabled
 * module runs in registry order with its timeout and the shared Facts; a failure becomes
 * an error report, a report gets its duration stamped, and the run fails only when
 * nothing was collected.
 */
module Runner {
  import opened Basics
  import opened Reports
  import opened DigestConfig
  import opened SharedFacts
  import opened ModuleRegistry

  const TeamCityName := "TeamCity"
  const AzureBoardsName := "Azure Boards"
  const AzureReposName := "Azure Repos"

  /** The Meta key the runner writes. */
  const DurationKey := "duration"

  const NothingToReport := "no enabled modules / nothing to report; check your config"

  /**
   * The timeout the runner gives the module called `name`: the TeamCity or Azure
   * section's own positive timeout for the modules that belong to it, otherwise the
   * default.
   */
  function ResolveTimeout(cfg: ConfigView, name: string): (t: int)
    ensures t > 0
    ensures name == TeamCityName && cfg.teamCity.Some? && cfg.teamCity.value.timeout > 0
      ==> t == cfg.teamCity.value.timeout
    ensures (name == AzureBoardsName || name == AzureReposName) && cfg.azure.Some? && cfg.azure.value.timeout > 0
      ==> t == cfg.azure.value.timeout
    ensures t != cfg.DefaultPerModuleTimeout() ==>
      (name == TeamCityName && cfg.teamCity.Some? && cfg.teamCity.value.timeout > 0) ||
      ((name == AzureBoardsName || name == AzureReposName) && cfg.azure.Some? && cfg.azure.value.timeout > 0)
  {
    if cfg.azure.Some? && (name == AzureBoardsName || name == AzureReposName) && cfg.azure.value.timeout > 0 then
      cfg.azure.value.timeout
    else if cfg.teamCity.Some? && name == TeamCityName && cfg.teamCity.value.timeout > 0 then
      cfg.teamCity.value.timeout
    else cfg.DefaultPerModuleTimeout()
  }

  /** The report shown in place of a module that failed. */
  function ErrorReport(name: string, msg: string): (r: Report)
    ensures r.title == name && r.summary == "error: " + msg && r.errors == [msg]
    ensures r.sections == [] && r.warnings == [] && r.meta.None?
  {
    Report(name, "error: " + msg, [], [], [msg], None)
  }

  /** Sets Meta["duration"], creating Meta when it is nil; nothing else changes. */
  function StampDuration(r: Report, elapsed: string): (s: Report)
    ensures s.title == r.title && s.summary == r.summary && s.sections == r.sections
    ensures s.warnings == r.warnings && s.errors == r.errors
    ensures s.meta.Some? && DurationKey in s.meta.value && s.meta.value[DurationKey] == elapsed
    ensures r.meta.Some? ==> forall k :: k in r.meta.value && k != DurationKey ==>
      k in s.meta.value && s.meta.value[k] == r.meta.value[k]
    ensures forall k :: k in s.meta.value && k != DurationKey ==> r.meta.Some? && k in r.meta.value
  {
    var meta := if r.meta.None? then map[] else r.meta.value;
    r.(meta := Some(meta[DurationKey := elapsed]))
  }

  /** What one run of a module adds to the list of reports. */
  function Emitted(name: string, step: Step): seq<Report> {
    match step.outcome
    case Failed(msg) => [ErrorReport(name, msg)]
    case Produced(r) => [StampDuration(r, step.elapsed)]
    case NoReport => []
  }

  /**
   * The reports the loop has collected once it has passed ms[..i], given that it had
   * collected `acc` on reaching position i with the shared Facts holding `ids`:
   * disabled modules are skipped, and each enabled one sees the IDs its predecessors
   * appended.
   */
  function CollectFrom(cfg: ConfigView, ms: seq<Module>, i: nat, ids: seq<int>, acc: seq<Report>): seq<Report>
    requires i <= |ms|
    decreases |ms| - i
  {
    if i == |ms| then acc
    else if !ms[i].enabled(cfg) then CollectFrom(cfg, ms, i + 1, ids, acc)
    else
      var step := ms[i].run(cfg, ids, ResolveTimeout(cfg, ms[i].name));
      CollectFrom(cfg, ms, i + 1, ids + step.appended, acc + Emitted(ms[i].name, step))
  }

  /** The reports one run collects from the registered modules `ms`. */
  function Collect(cfg: ConfigView, ms: seq<Module>): seq<Report> {
    CollectFrom(cfg, ms, 0, [], [])
  }

  /** The shared Facts' IDs once the loop has passed ms[..i], starting at i from `ids`. */
  function IdsFrom(cfg: ConfigView, ms: seq<Module>, i: nat, ids: seq<int>): seq<int>
    requires i <= |ms|
    decreases |ms| - i
  {
    if i == |ms| then ids
    else if !ms[i].enabled(cfg) then IdsFrom(cfg, ms, i + 1, ids)
    else IdsFrom(cfg, ms, i + 1, ids + ms[i].run(cfg, ids, ResolveTimeout(cfg, ms[i].name)).appended)
  }

  /**
   * console.Run from configuration to collected reports. `warning` is the Validate error
   * printed as a warning; `err` is the error Run returns. Rendering is not modelled:
   * `reports` is what would be rendered.
   */
  method Run(ctx: Context, cfg: Config, registry: Registry, env: map<string, string>)
    returns (warning: Option<string>, reports: seq<Report>, err: Option<string>)
    modifies cfg
    ensures cfg.console == old(cfg.console)
    ensures old(cfg.teamCity).Some? ==>
      cfg.teamCity == Some(old(cfg.teamCity).value.(token := Expanded(old(cfg.teamCity).value.token, env)))
    ensures old(cfg.teamCity).None? ==> cfg.teamCity.None?
    ensures old(cfg.azure).Some? ==>
      cfg.azure == Some(old(cfg.azure).value.(pat := Expanded(old(cfg.azure).value.pat, env)))
    ensures old(cfg.azure).None? ==> cfg.azure.None?
    ensures warning == cfg.View().Validate()
    ensures reports == Collect(cfg.View(), registry.modules)
    ensures err.Some? <==> reports == []
    ensures err.Some? ==> err.value == NothingToReport
  {
    cfg.ResolveEnv(env);
    var view := cfg.View();
    warning := view.Validate();

    var facts := new Facts();
    var runCtx := WithFacts(ctx, facts);

    var mods := registry.Modules();
    reports := CollectReports(view, mods, runCtx, facts);

    if |reports| == 0 {
      err := Some(NothingToReport);
    } else {
      err := None;
    }
  }

  /**
   * The loop of console.Run over the registry snapshot `mods`, with `runCtx` carrying
   * the run's one Facts record. Besides the reports, the record ends up holding every
   * ID the enabled modules appended, in module order.
   */
  method CollectReports(view: ConfigView, mods: array<Module>, runCtx: Context, facts: Facts)
    returns (reports: seq<Report>)
    requires Attached(runCtx) == Some(facts)
    modifies facts
    ensures reports == CollectFrom(view, mods[..], 0, old(facts.featureIDs), [])
    ensures facts.featureIDs == IdsFrom(view, mods[..], 0, old(facts.featureIDs))
  {
    reports := [];
    var i := 0;
    while i < mods.Length
      invariant 0 <= i <= mods.Length
      invariant CollectFrom(view, mods[..], i, facts.featureIDs, reports)
             == CollectFrom(view, mods[..], 0, old(facts.featureIDs), [])
      invariant IdsFrom(view, mods[..], i, facts.featureIDs) == IdsFrom(view, mods[..], 0, old(facts.featureIDs))
    {
      var m := mods[i];
      if !m.enabled(view) {
        assert CollectFrom(view, mods[..], i, facts.featureIDs, reports)
            == CollectFrom(view, mods[..], i + 1, facts.featureIDs, reports);
        i := i + 1;
        continue;
      }
      var timeout := view.DefaultPerModuleTimeout();
      if view.teamCity.Some? && m.name == TeamCityName && view.teamCity.value.timeout > 0 {
        timeout := view.teamCity.value.timeout;
      }
      if view.azure.Some? && (m.name == AzureBoardsName || m.name == AzureReposName) && view.azure.value.timeout > 0 {
        timeout := view.azure.value.timeout;
      }
      assert timeout == ResolveTimeout(view, m.name);

      var shared := GetFacts(runCtx);
      var step := m.run(view, shared.featureIDs, timeout);
      ghost var next := reports + Emitted(m.name, step);
      assert CollectFrom(view, mods[..], i, facts.featureIDs, reports)
          == CollectFrom(view, mods[..], i + 1, facts.featureIDs + step.appended, next);
      shared.AppendFeatureIDs(step.appended);
      match step.outcome {
        case Failed(msg) =>
          reports := reports + [ErrorReport(m.name, msg)];
        case Produced(r) =>
          reports := reports + [StampDuration(r, step.elapsed)];
        case NoReport =>
      }
      assert reports == next;
      i := i + 1;
    }
  }

  // ---------------------------------------------------------------------------
  // Properties of the collection loop
  // ---------------------------------------------------------------------------

  /** Reports collected earlier stay in front, untouched, whatever comes after. */
  lemma {:induction false} CollectFromPrefix(cfg: ConfigView, ms: seq<Module>, i: nat, ids: seq<int>, pre: seq<Report>, acc: seq<Report>)
    requires i <= |ms|
    ensures CollectFrom(cfg, ms, i, ids, pre + acc) == pre + CollectFrom(cfg, ms, i, ids, acc)
    decreases |ms| - i
  {
    if i < |ms| {
      if !ms[i].enabled(cfg) {
        CollectFromPrefix(cfg, ms, i + 1, ids, pre, acc);
      } else {
        var step := ms[i].run(cfg, ids, ResolveTimeout(cfg, ms[i].name));
        AppendAssociative(pre, acc, Emitted(ms[i].name, step));
        CollectFromPrefix(cfg, ms, i + 1, ids + step.appended, pre, acc + Emitted(ms[i].name, step));
      }
    }
  }

  /** The modules registered before `b` play no part once the loop has passed them. */
  lemma {:induction false} CollectFromShift(cfg: ConfigView, a: seq<Module>, b: seq<Module>, i: nat, ids: seq<int>, acc: seq<Report>)
    requires i <= |b|
    ensures CollectFrom(cfg, a + b, |a| + i, ids, acc) == CollectFrom(cfg, b, i, ids, acc)
    ensures IdsFrom(cfg, a + b, |a| + i, ids) == IdsFrom(cfg, b, i, ids)
    decreases |b| - i
  {
    if i < |b| {
      var m := b[i];
      assert (a + b)[|a| + i] == m;
      if !m.enabled(cfg) {
        CollectFromShift(cfg, a, b, i + 1, ids, acc);
      } else {
        var step := m.run(cfg, ids, ResolveTimeout(cfg, m.name));
        CollectFromShift(cfg, a, b, i + 1, ids + step.appended, acc + Emitted(m.name, step));
      }
    }
  }

  /** Running `a + b` is running `a`, then `b` with the Facts `a` left behind. */
  lemma {:induction false} CollectFromAppend(cfg: ConfigView, a: seq<Module>, b: seq<Module>, i: nat, ids: seq<int>, acc: seq<Report>)
    requires i <= |a|
    ensures CollectFrom(cfg, a + b, i, ids, acc)
         == CollectFrom(cfg, b, 0, IdsFrom(cfg, a, i, ids), CollectFrom(cfg, a, i, ids, acc))
    ensures IdsFrom(cfg, a + b, i, ids) == IdsFrom(cfg, b, 0, IdsFrom(cfg, a, i, ids))
    decreases |a| - i
  {
    if i == |a| {
      CollectFromShift(cfg, a, b, 0, ids, acc);
    } else {
      var m := a[i];
      assert (a + b)[i] == m;
      if !m.enabled(cfg) {
        CollectFromAppend(cfg, a, b, i + 1, ids, acc);
      } else {
        var step := m.run(cfg, ids, ResolveTimeout(cfg, m.name));
        CollectFromAppend(cfg, a, b, i + 1, ids + step.appended, acc + Emitted(m.name, step));
      }
    }
  }

  /**
   * Registry order is report order: the reports of `a + b` are those of `a` followed by
   * those of `b`, which differ from a run of `b` alone only through the IDs `a` appended.
   */
  lemma CollectSplit(cfg: ConfigView, a: seq<Module>, b: seq<Module>)
    ensures Collect(cfg, a + b) == Collect(cfg, a) + CollectFrom(cfg, b, 0, IdsFrom(cfg, a, 0, []), [])
  {
    CollectFromAppend(cfg, a, b, 0, [], []);
    CollectFromPrefix(cfg, b, 0, IdsFrom(cfg, a, 0, []), Collect(cfg, a), []);
    assert Collect(cfg, a) + [] == Collect(cfg, a);
  }

  /** What a single module contributes: nothing when disabled, otherwise what its outcome emits. */
  lemma CollectSingle(cfg: ConfigView, m: Module, ids: seq<int>)
    ensures !m.enabled(cfg) ==> CollectFrom(cfg, [m], 0, ids, []) == []
    ensures m.enabled(cfg) ==>
      CollectFrom(cfg, [m], 0, ids, []) == Emitted(m.name, m.run(cfg, ids, ResolveTimeout(cfg, m.name)))
  {
    if m.enabled(cfg) {
      assert [] + Emitted(m.name, m.run(cfg, ids, ResolveTimeout(cfg, m.name)))
          == Emitted(m.name, m.run(cfg, ids, ResolveTimeout(cfg, m.name)));
    }
  }

  /**
   * A failing module yields exactly its error report in its place and the loop goes on:
   * the modules after it run as they would after a module that reported nothing.
   */
  lemma FailureIsIsolated(cfg: ConfigView, a: seq<Module>, m: Module, b: seq<Module>, msg: string)
    requires m.enabled(cfg)
    requires m.run(cfg, IdsFrom(cfg, a, 0, []), ResolveTimeout(cfg, m.name)).outcome == Failed(msg)
    ensures Collect(cfg, a + [m] + b)
         == Collect(cfg, a) + [ErrorReport(m.name, msg)]
          + CollectFrom(cfg, b, 0, IdsFrom(cfg, a + [m], 0, []), [])
  {
    var ids := IdsFrom(cfg, a, 0, []);
    CollectSplit(cfg, a + [m], b);
    CollectSplit(cfg, a, [m]);
    CollectSingle(cfg, m, ids);
  }

  /** A module its configuration disables never runs: removing it changes nothing. */
  lemma DisabledContributesNothing(cfg: ConfigView, a: seq<Module>, m: Module, b: seq<Module>)
    requires !m.enabled(cfg)
    ensures Collect(cfg, a + [m] + b) == Collect(cfg, a + b)
    ensures IdsFrom(cfg, a + [m] + b, 0, []) == IdsFrom(cfg, a + b, 0, [])
  {
    var ids := IdsFrom(cfg, a, 0, []);
    CollectFromAppend(cfg, a + [m], b, 0, [], []);
    CollectFromAppend(cfg, a, [m], 0, [], []);
    assert CollectFrom(cfg, [m], 0, ids, Collect(cfg, a)) == Collect(cfg, a);
    assert IdsFrom(cfg, [m], 0, ids) == ids;
    CollectFromAppend(cfg, a, b, 0, [], []);
  }

  /** The number of modules in ms[i..] that the configuration enables. */
  function EnabledFrom(cfg: ConfigView, ms: seq<Module>, i: nat): nat
    requires i <= |ms|
    decreases |ms| - i
  {
    if i == |ms| then 0
    else (if ms[i].enabled(cfg) then 1 else 0) + EnabledFrom(cfg, ms, i + 1)
  }

  /** A module that always answers with a report or an error, never with (nil, nil). */
  ghost predicate NeverSilent(m: Module) {
    forall cfg, ids, timeout :: !m.run(cfg, ids, timeout).outcome.NoReport?
  }

  /**
   * At most one report per enabled module, and exactly one when no module can return
   * (nil, nil).
   */
  lemma {:induction false} CollectFromCount(cfg: ConfigView, ms: seq<Module>, i: nat, ids: seq<int>, acc: seq<Report>)
    requires i <= |ms|
    ensures |CollectFrom(cfg, ms, i, ids, acc)| <= |acc| + EnabledFrom(cfg, ms, i)
    ensures (forall k :: i <= k < |ms| ==> NeverSilent(ms[k])) ==>
      |CollectFrom(cfg, ms, i, ids, acc)| == |acc| + EnabledFrom(cfg, ms, i)
    decreases |ms| - i
  {
    if i < |ms| {
      if !ms[i].enabled(cfg) {
        CollectFromCount(cfg, ms, i + 1, ids, acc);
      } else {
        var step := ms[i].run(cfg, ids, ResolveTimeout(cfg, ms[i].name));
        CollectFromCount(cfg, ms, i + 1, ids + step.appended, acc + Emitted(ms[i].name, step));
      }
    }
  }

  lemma CollectCount(cfg: ConfigView, ms: seq<Module>)
    ensures |Collect(cfg, ms)| <= EnabledFrom(cfg, ms, 0)
    ensures (forall k :: 0 <= k < |ms| ==> NeverSilent(ms[k])) ==> |Collect(cfg, ms)| == EnabledFrom(cfg, ms, 0)
  {
    CollectFromCount(cfg, ms, 0, [], []);
  }

  /** The shared Facts only grows: the IDs present before the loop stay, in front. */
  lemma {:induction false} IdsOnlyGrow(cfg: ConfigView, ms: seq<Module>, i: nat, ids: seq<int>)
    requires i <= |ms|
    ensures |ids| <= |IdsFrom(cfg, ms, i, ids)| && IdsFrom(cfg, ms, i, ids)[..|ids|] == ids
    decreases |ms| - i
  {
    if i < |ms| {
      if !ms[i].enabled(cfg) {
        IdsOnlyGrow(cfg, ms, i + 1, ids);
      } else {
        var more := ids + ms[i].run(cfg, ids, ResolveTimeout(cfg, ms[i].name)).appended;
        IdsOnlyGrow(cfg, ms, i + 1, more);
        assert more[..|ids|] == ids;
      }
    }
  }

  /**
   * Facts flow forward in registry order only: an enabled module runs on the IDs the
   * modules registered before it appended, whatever is registered after it, and the
   * modules after it run on those IDs followed by its own.
   */
  lemma HandOffFollowsRegistryOrder(cfg: ConfigView, a: seq<Module>, m: Module, b: seq<Module>)
    requires m.enabled(cfg)
    ensures var step := m.run(cfg, IdsFrom(cfg, a, 0, []), ResolveTimeout(cfg, m.name));
      Collect(cfg, a + [m] + b)
        == Collect(cfg, a) + Emitted(m.name, step)
         + CollectFrom(cfg, b, 0, IdsFrom(cfg, a, 0, []) + step.appended, [])
  {
    var ids := IdsFrom(cfg, a, 0, []);
    var step := m.run(cfg, ids, ResolveTimeout(cfg, m.name));
    CollectSplit(cfg, a + [m], b);
    CollectSplit(cfg, a, [m]);
    CollectSingle(cfg, m, ids);
    CollectFromAppend(cfg, a, [m], 0, [], []);
    assert IdsFrom(cfg, [m], 0, ids) == IdsFrom(cfg, [m], 1, ids + step.appended) == ids + step.appended;
  }

}
