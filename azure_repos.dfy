/**
 * The Azure Repos module of dev-digest (modules/azurerepos/repos.go): for every
 * repository it lists the branches whose names mention a feature ID that Azure Boards
 * published in the shared Facts. The two HTTP requests are inputs: the repository
 * listing, and for each repository the refs the branch request returns.
 */
module AzureRepos {
  import opened Basics
  import opened GoStrings
  import opened Reports
  import opened DigestConfig
  import opened SeqFilter
  import ModuleRegistry
  import Runner

  const Title := "Azure Repos"
  const SkipSummary := "PAT not provided; skipping API calls"
  const SectionHeader := "Branches by repository"
  const Headers: seq<string> := ["Repository", "Default", "Matching branches"]
  const NoFeatureBranches := "no feature branches"
  const RefsHeads := "refs/heads/"

  /** The module runs only when the configuration has an azure.repos section. */
  predicate Enabled(cfg: ConfigView) {
    cfg.azure.Some? && cfg.azure.value.repos.Some?
  }

  /** The fields of a listed repository that the module uses. */
  datatype Repo = Repo(id: string, name: string, defaultBranch: string, project: string)

  // ---------------------------------------------------------------------------
  // Branch names
  // ---------------------------------------------------------------------------

  /** Every ref name with one leading "refs/heads/" removed. */
  function Stripped(refs: seq<string>): (names: seq<string>)
    ensures |names| == |refs|
    ensures forall i :: 0 <= i < |refs| ==> names[i] == TrimPrefix(refs[i], RefsHeads)
  {
    seq(|refs|, i requires 0 <= i < |refs| => TrimPrefix(refs[i], RefsHeads))
  }

  /** The loop at the end of listBranches, which turns refs into branch names. */
  method StripRefsHeads(refs: seq<string>) returns (names: seq<string>)
    ensures names == Stripped(refs)
  {
    names := [];
    for i := 0 to |refs|
      invariant |names| == i
      invariant forall k :: 0 <= k < i ==> names[k] == TrimPrefix(refs[k], RefsHeads)
    {
      var name := refs[i];
      if HasPrefix(name, RefsHeads) {
        name := TrimPrefix(name, RefsHeads);
      }
      names := names + [name];
    }
  }

  /** A ref under refs/heads/ becomes its branch name, and prefixing it back gives the ref. */
  lemma StripRoundTrip(branch: string)
    ensures Stripped([RefsHeads + branch]) == [branch]
  {
    assert HasPrefix(RefsHeads + branch, RefsHeads);
  }

  /** The prefix is removed once only: a doubled prefix keeps one copy. */
  lemma StripOnce(branch: string)
    ensures Stripped([RefsHeads + RefsHeads + branch]) == [RefsHeads + branch]
  {
    assert RefsHeads + RefsHeads + branch == RefsHeads + (RefsHeads + branch);
    StripRoundTrip(RefsHeads + branch);
  }

  /** A name that does not start with "refs/heads/" is kept as it is. */
  lemma StripKeepsOthers(name: string)
    requires !HasPrefix(name, RefsHeads)
    ensures Stripped([name]) == [name]
  {
  }

  // ---------------------------------------------------------------------------
  // Matching branches against feature IDs
  // ---------------------------------------------------------------------------

  /** Whether the branch name mentions the feature ID, ignoring case. */
  predicate IsMatch(branch: string, id: int) {
    Contains(ToLower(branch), ToLower(Itoa(id)))
  }

  /** The test of the inner loop, for one feature ID. */
  function MentionsId(id: int): string -> bool {
    branch => IsMatch(branch, id)
  }

  /** The same relation seen from a branch: which IDs it mentions. */
  function MentionedIn(branch: string): int -> bool {
    id => IsMatch(branch, id)
  }

  /** The names that match `id`, in the order of `names`. */
  function MatchesOf(names: seq<string>, id: int): seq<string> {
    Filter(names, MentionsId(id))
  }

  /** `found`: for each ID in Facts order, the names that match it. */
  function Found(names: seq<string>, ids: seq<int>): seq<string>
    decreases |ids|
  {
    if ids == [] then []
    else Found(names, ids[..|ids| - 1]) + MatchesOf(names, ids[|ids| - 1])
  }

  /** The inner loop over the sorted branch names for one feature ID. */
  method MatchOne(names: seq<string>, id: int) returns (matches: seq<string>)
    ensures matches == MatchesOf(names, id)
  {
    var needle := Itoa(id);
    matches := [];
    for j := 0 to |names|
      invariant matches == Filter(names[..j], MentionsId(id))
    {
      var br := names[j];
      assert names[..j + 1][..j] == names[..j];
      if Contains(ToLower(br), ToLower(needle)) {
        matches := matches + [br];
      }
    }
    assert names[..|names|] == names;
  }

  /** The two nested loops that build `found` from the sorted branch names. */
  method MatchBranches(names: seq<string>, ids: seq<int>) returns (found: seq<string>)
    ensures found == Found(names, ids)
  {
    found := [];
    for k := 0 to |ids|
      invariant found == Found(names, ids[..k])
    {
      var matches := MatchOne(names, ids[k]);
      assert ids[..k + 1][..k] == ids[..k];
      found := found + matches;
    }
    assert ids[..|ids|] == ids;
  }

  /** How many of `ids` the name matches. */
  function MatchingIds(branch: string, ids: seq<int>): nat {
    Count(ids, MentionedIn(branch))
  }

  /** A branch listed once appears in `found` once for every feature ID it matches. */
  lemma {:induction false} FoundCount(names: seq<string>, ids: seq<int>, x: string)
    requires multiset(names)[x] <= 1
    ensures multiset(Found(names, ids))[x] == if x in names then MatchingIds(x, ids) else 0
    decreases |ids|
  {
    if ids != [] {
      var init, id := ids[..|ids| - 1], ids[|ids| - 1];
      FoundCount(names, init, x);
      FilterCount(names, MentionsId(id), x);
      assert multiset(Found(names, ids))[x]
          == multiset(Found(names, init))[x] + multiset(MatchesOf(names, id))[x];
      assert MentionsId(id)(x) == MentionedIn(x)(id);
    }
  }

  /** A name is in `found` exactly when it is a listed branch that mentions at least one of the IDs. */
  lemma {:induction false} FoundMembers(names: seq<string>, ids: seq<int>, x: string)
    ensures x in Found(names, ids) <==> x in names && MatchingIds(x, ids) > 0
    decreases |ids|
  {
    if ids != [] {
      var init, id := ids[..|ids| - 1], ids[|ids| - 1];
      FoundMembers(names, init, x);
      FilterCount(names, MentionsId(id), x);
      assert x in Found(names, ids) <==> x in Found(names, init) || x in MatchesOf(names, id);
      assert x in MatchesOf(names, id) <==> multiset(MatchesOf(names, id))[x] > 0;
      assert x in names <==> multiset(names)[x] > 0;
      assert MentionsId(id)(x) == MentionedIn(x)(id);
    }
  }

  /** Every pair is in order, not only neighbours. */
  predicate Sorted(s: seq<string>) {
    forall i, j :: 0 <= i < j < |s| ==> LexLe(s[i], s[j])
  }

  lemma {:induction false} AscendingIsSorted(s: seq<string>)
    requires Ascending(s)
    ensures Sorted(s)
    decreases |s|
  {
    if |s| > 1 {
      var init := s[..|s| - 1];
      assert Ascending(init);
      AscendingIsSorted(init);
      forall i | 0 <= i < |s| - 1
        ensures LexLe(s[i], s[|s| - 1])
      {
        if i < |s| - 2 {
          assert LexLe(init[i], init[|s| - 2]);
          LexLeTransitive(s[i], s[|s| - 2], s[|s| - 1]);
        }
      }
    }
  }

  /** Filtering a sorted list gives a sorted list of its elements. */
  lemma {:induction false} FilterSorted(names: seq<string>, p: string -> bool)
    requires Sorted(names)
    ensures Sorted(Filter(names, p))
    ensures forall x :: x in Filter(names, p) ==> x in names
    decreases |names|
  {
    if names != [] {
      var init := names[..|names| - 1];
      var last := names[|names| - 1];
      FilterSorted(init, p);
      forall x | x in Filter(init, p)
        ensures LexLe(x, last)
      {
        var i :| 0 <= i < |init| && init[i] == x;
        assert names[i] == x;
      }
    }
  }

  /** The branch names the matching runs over: stripped, then put in ascending order. */
  function BranchNames(refs: seq<string>): seq<string> {
    SortStrings(Stripped(refs))
  }

  /** For each feature ID, its matches are listed in ascending order and are all branches of the repository. */
  lemma MatchGroupSorted(refs: seq<string>, id: int)
    ensures Sorted(MatchesOf(BranchNames(refs), id))
    ensures forall x :: x in MatchesOf(BranchNames(refs), id) ==> x in Stripped(refs)
  {
    SortStringsCorrect(Stripped(refs));
    AscendingIsSorted(BranchNames(refs));
    FilterSorted(BranchNames(refs), MentionsId(id));
    forall x | x in MatchesOf(BranchNames(refs), id)
      ensures x in Stripped(refs)
    {
      assert x in multiset(BranchNames(refs));
    }
  }

  /** A branch that matches a feature ID has a decimal digit in its name. */
  lemma MatchDigit(branch: string, id: int) returns (p: nat)
    requires IsMatch(branch, id)
    ensures p < |branch| && '0' <= branch[p] <= '9'
  {
    var needle := Itoa(id);
    ToLowerItoa(id);
    var k := ContainsAt(ToLower(branch), needle);
    p := k + |needle| - 1;
    assert ToLower(branch)[p] == needle[|needle| - 1];
  }

  // ---------------------------------------------------------------------------
  // Rows and the report
  // ---------------------------------------------------------------------------

  /** The row of one repository, given the feature IDs and what its branch request returned. */
  function RowFor(r: Repo, ids: seq<int>, refs: Result<seq<string>>): (row: seq<string>)
    ensures |row| == |Headers| && row[0] == r.name
  {
    if ids == [] then [r.name, r.defaultBranch, "-"]
    else if refs.Err? then [r.name, "error", refs.msg]
    else
      var found := Found(BranchNames(refs.value), ids);
      [r.name, r.defaultBranch, if found == [] then NoFeatureBranches else Join(found, ", ")]
  }

  /** What one repository adds to `matches`. */
  function MatchCount(ids: seq<int>, refs: Result<seq<string>>): nat {
    if ids == [] || refs.Err? then 0 else |Found(BranchNames(refs.value), ids)|
  }

  /** `matches` after the loop has passed `repos`. */
  function TotalMatches(repos: seq<Repo>, ids: seq<int>, fetch: Repo -> Result<seq<string>>): nat
    decreases |repos|
  {
    if repos == [] then 0
    else TotalMatches(repos[..|repos| - 1], ids, fetch) + MatchCount(ids, fetch(repos[|repos| - 1]))
  }

  /** One row per repository, in listing order. */
  function Rows(repos: seq<Repo>, ids: seq<int>, fetch: Repo -> Result<seq<string>>): (rows: seq<seq<string>>)
    ensures |rows| == |repos|
    ensures forall i :: 0 <= i < |repos| ==> |rows[i]| == |Headers| && rows[i][0] == repos[i].name
  {
    seq(|repos|, i requires 0 <= i < |repos| => RowFor(repos[i], ids, fetch(repos[i])))
  }

  function Summary(repoCount: int, matches: int): string {
    "Repos: " + Itoa(repoCount) + ". Feature branch matches: " + Itoa(matches)
  }

  /**
   * What the module's Run returns. `ids` is what Facts holds, `listing` the repository
   * listing, `fetch` the refs the branch request returns for a repository.
   */
  function RunSpec(az: AzureConfig, ids: seq<int>, listing: Result<seq<Repo>>, fetch: Repo -> Result<seq<string>>): Result<Report> {
    if az.pat == "" then Ok(Brief(Title, SkipSummary))
    else if listing.Err? then Err(listing.msg)
    else
      var repos := listing.value;
      Ok(WithTable(Title, Summary(|repos|, TotalMatches(repos, ids, fetch)), SectionHeader,
        Table(Headers, Rows(repos, ids, fetch))))
  }

  /** The body of the loop over repositories in Run: one repository's row and its match count. */
  method RepoRow(r: Repo, ids: seq<int>, fetch: Repo -> Result<seq<string>>) returns (row: seq<string>, count: nat)
    ensures row == RowFor(r, ids, fetch(r))
    ensures count == MatchCount(ids, fetch(r))
  {
    if |ids| == 0 {
      return [r.name, r.defaultBranch, "-"], 0;
    }
    var branches := fetch(r);
    if branches.Err? {
      return [r.name, "error", branches.msg], 0;
    }
    var bnames := StripRefsHeads(branches.value);
    bnames := SortStrings(bnames);
    var found := MatchBranches(bnames, ids);
    if |found| == 0 {
      row := [r.name, r.defaultBranch, NoFeatureBranches];
    } else {
      row := [r.name, r.defaultBranch, Join(found, ", ")];
    }
    count := |found|;
  }

  /** The module's Run. */
  method Run(az: AzureConfig, ids: seq<int>, listing: Result<seq<Repo>>, fetch: Repo -> Result<seq<string>>)
    returns (res: Result<Report>)
    ensures res == RunSpec(az, ids, listing, fetch)
  {
    if az.pat == "" {
      return Ok(Brief(Title, SkipSummary));
    }
    var featureIDs := ids;
    if listing.Err? {
      return Err(listing.msg);
    }
    var repos := listing.value;

    var rows: seq<seq<string>> := [];
    var matches := 0;
    for i := 0 to |repos|
      invariant |rows| == i
      invariant forall k :: 0 <= k < i ==> rows[k] == RowFor(repos[k], ids, fetch(repos[k]))
      invariant matches == TotalMatches(repos[..i], ids, fetch)
    {
      assert repos[..i + 1][..i] == repos[..i];
      var row, count := RepoRow(repos[i], featureIDs, fetch);
      rows := rows + [row];
      matches := matches + count;
    }
    assert repos[..|repos|] == repos;
    assert rows == Rows(repos, ids, fetch);

    var table := Table(Headers, rows);
    res := Ok(WithTable(Title, Summary(|repos|, matches), SectionHeader, table));
  }

  // ---------------------------------------------------------------------------
  // Properties of the report
  // ---------------------------------------------------------------------------

  /** The first entry of a non-empty `found` has a digit in it. */
  lemma FirstFoundHasDigit(names: seq<string>, ids: seq<int>) returns (p: nat)
    requires Found(names, ids) != []
    ensures p < |Found(names, ids)[0]| && '0' <= Found(names, ids)[0][p] <= '9'
  {
    var x := Found(names, ids)[0];
    FoundMembers(names, ids, x);
    var i := SomeIfCountPositive(ids, MentionedIn(x));
    p := MatchDigit(x, ids[i]);
  }

  /** A joined list whose first entry has a digit is not the "no feature branches" marker. */
  lemma JoinedIsNotMarker(found: seq<string>, p: nat)
    requires found != [] && p < |found[0]| && '0' <= found[0][p] <= '9'
    ensures Join(found, ", ") != NoFeatureBranches
  {
    JoinStartsWithFirst(found, ", ");
    var cell := Join(found, ", ");
    assert cell[p] == found[0][p];
    if p < |NoFeatureBranches| {
      assert !('0' <= NoFeatureBranches[p] <= '9');
    }
  }

  /** The matches cell says "no feature branches" exactly when no branch mentions any feature ID. */
  lemma NoFeatureBranchesIffNothingFound(r: Repo, ids: seq<int>, refs: seq<string>)
    requires ids != []
    ensures RowFor(r, ids, Ok(refs))[2] == NoFeatureBranches
        <==> forall x :: x in BranchNames(refs) ==> MatchingIds(x, ids) == 0
  {
    var names := BranchNames(refs);
    var found := Found(names, ids);
    if found != [] {
      var p := FirstFoundHasDigit(names, ids);
      JoinedIsNotMarker(found, p);
      FoundMembers(names, ids, found[0]);
    } else {
      forall x | x in names
        ensures MatchingIds(x, ids) == 0
      {
        FoundMembers(names, ids, x);
      }
    }
  }

  /** Without feature IDs no branch request matters: every row reads "-" and nothing is counted. */
  lemma {:induction false} NoIdsNoBranchLookups(repos: seq<Repo>, fetch: Repo -> Result<seq<string>>,
                                                 other: Repo -> Result<seq<string>>)
    ensures Rows(repos, [], fetch) == Rows(repos, [], other)
    ensures forall i :: 0 <= i < |repos| ==> Rows(repos, [], fetch)[i][2] == "-"
    ensures TotalMatches(repos, [], fetch) == 0
    decreases |repos|
  {
    if repos != [] {
      NoIdsNoBranchLookups(repos[..|repos| - 1], fetch, other);
    }
  }

  /** Once the listing succeeds, a failing branch request only marks its own row. */
  lemma BranchErrorIsLocal(az: AzureConfig, ids: seq<int>, repos: seq<Repo>,
                           fetch: Repo -> Result<seq<string>>, i: nat)
    requires az.pat != "" && ids != [] && i < |repos| && fetch(repos[i]).Err?
    ensures RunSpec(az, ids, Ok(repos), fetch).Ok?
    ensures RunSpec(az, ids, Ok(repos), fetch).value.sections[0].table.value.rows[i]
         == [repos[i].name, "error", fetch(repos[i]).msg]
  {
  }

  /** Without a PAT nothing is requested: the skip report does not depend on Facts or on any reply. */
  lemma NoPatNoRequests(az: AzureConfig, ids: seq<int>, listing: Result<seq<Repo>>, fetch: Repo -> Result<seq<string>>,
                        ids2: seq<int>, listing2: Result<seq<Repo>>, fetch2: Repo -> Result<seq<string>>)
    requires az.pat == ""
    ensures RunSpec(az, ids, listing, fetch) == RunSpec(az, ids2, listing2, fetch2) == Ok(Brief(Title, SkipSummary))
  {
  }

  /** A failed repository listing is the module's error, and nothing else is reported. */
  lemma ListingErrorIsModuleError(az: AzureConfig, ids: seq<int>, msg: string, fetch: Repo -> Result<seq<string>>)
    requires az.pat != ""
    ensures RunSpec(az, ids, Err(msg), fetch) == Err(msg)
  {
  }

  // ---------------------------------------------------------------------------
  // The module in the runner
  // ---------------------------------------------------------------------------

  /** The (report, error) pair of Run as the runner receives it. */
  function AsOutcome(res: Result<Report>): ModuleRegistry.Outcome {
    match res
    case Ok(r) => ModuleRegistry.Produced(r)
    case Err(msg) => ModuleRegistry.Failed(msg)
  }

  /**
   * The module as it registers itself: gated by Enabled, and running on the Azure section
   * and the IDs in Facts. Run dereferences the section without a nil check; the runner's
   * gate keeps that case away, so the value chosen for it never reaches a report.
   */
  function Registered(listing: Result<seq<Repo>>, fetch: Repo -> Result<seq<string>>, elapsed: string): ModuleRegistry.Module {
    ModuleRegistry.Module(Runner.AzureReposName, Enabled,
      (cfg: ConfigView, ids: seq<int>, _) =>
        ModuleRegistry.Step([],
          if cfg.azure.Some? then AsOutcome(RunSpec(cfg.azure.value, ids, listing, fetch)) else ModuleRegistry.NoReport,
          elapsed))
  }

  /**
   * The runner calls Run only when Enabled holds, so the Azure section is always there:
   * without an azure.repos section the module adds no report; with one it adds exactly
   * what RunSpec yields on the IDs the Facts hold.
   */
  lemma RunnerGatesOnEnabled(cfg: ConfigView, ids: seq<int>, listing: Result<seq<Repo>>,
                             fetch: Repo -> Result<seq<string>>, elapsed: string)
    ensures !Enabled(cfg) ==> Runner.CollectFrom(cfg, [Registered(listing, fetch, elapsed)], 0, ids, []) == []
    ensures Enabled(cfg) ==>
      Runner.CollectFrom(cfg, [Registered(listing, fetch, elapsed)], 0, ids, [])
        == Runner.Emitted(Title, ModuleRegistry.Step([], AsOutcome(RunSpec(cfg.azure.value, ids, listing, fetch)), elapsed))
  {
    Runner.CollectSingle(cfg, Registered(listing, fetch, elapsed), ids);
  }
}
