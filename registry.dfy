/**
 * The module interface and the package-level registry of dev-digest (common/module.go).
 * A module is a value: its name, whether the configuration enables it, and what one run
 * of it does.
 */
module ModuleRegistry {
  import opened Reports
  import opened DigestConfig

  /** The (report, error) pair a module's Run returns: an error, a report, or (nil, nil). */
  datatype Outcome = Failed(msg: string) | Produced(report: Report) | NoReport

  /**
   * One run of a module: the feature IDs it appends to the shared Facts, its outcome,
   * and the wall-clock time it took, already formatted as time.Duration's String does.
   */
  datatype Step = Step(appended: seq<int>, outcome: Outcome, elapsed: string)

  /**
   * common.Module. `run` receives the configuration, the feature IDs the shared Facts
   * holds when the module starts, and the timeout the runner gives it.
   */
  datatype Module = Module(
    name: string,
    enabled: ConfigView -> bool,
    run: (ConfigView, seq<int>, int) -> Step)

  /** The package-level `registry` slice and its two functions. */
  class Registry {
    var modules: seq<Module>

    constructor ()
      ensures modules == []
    {
      modules := [];
    }

    /** Register appends at the end; duplicates, even of the same name, are kept. */
    method Register(m: Module)
      modifies this
      ensures modules == old(modules) + [m]
    {
      modules := modules + [m];
    }

    /** Modules returns a copy of the registered modules, in registration order. */
    method Modules() returns (snapshot: array<Module>)
      ensures fresh(snapshot)
      ensures snapshot[..] == modules
    {
      var copy := modules;
      snapshot := new Module[|copy|](i requires 0 <= i < |copy| => copy[i]);
    }
  }

  /**
   * Writing into the snapshot Modules returns leaves the registry as it was: `snap` is
   * the snapshot after its first entry is overwritten, `registered` the registry after.
   */
  method SnapshotIsIndependent(r: Registry, m: Module) returns (snap: seq<Module>, registered: seq<Module>)
    requires |r.modules| > 0
    ensures snap == [m] + r.modules[1..]
    ensures registered == r.modules
  {
    var a := r.Modules();
    a[0] := m;
    snap := a[..];
    registered := r.modules;
  }

  /** Registering the same module twice keeps both entries. */
  method RegisterTwice(r: Registry, m: Module)
    modifies r
    ensures r.modules == old(r.modules) + [m, m]
  {
    r.Register(m);
    r.Register(m);
  }
}
