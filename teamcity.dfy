/**
 * The TeamCity module of dev-digest (modules/teamcity/teamcity.go): for every configured
 * build type it asks for the latest build on the configured branch and for three test
 * counts of that build, and lays them out as one table row per build type. The server is
 * an input that answers each request URL.
 */
module TeamCity {
  import opened Basics
  import opened GoStrings
  import opened Reports
  import opened DigestConfig
  import opened Http

  const Title := "TeamCity"
  const ConfigMissing := "teamcity config missing"
  const SkipSummary := "token not provided; skipping API calls"
  const Summary := "Latest builds and tests"
  const SectionHeader := "Builds"
  const Headers: seq<string> := ["BuildType", "Branch", "Status", "Tests", "Passed", "Failed"]
  const NoBuilds := "no builds found"

  /** The fields of a build in the builds response that the module reads. */
  datatype TcBuild = TcBuild(id: int, status: string, branchName: string)

  /** BuildSummary: the latest build of a build type and its test counts. */
  datatype BuildSummary = BuildSummary(
    buildTypeID: string,
    branch: string,
    status: string,
    testsTotal: int,
    testsPassed: int,
    testsFailed: int)

  /** The server: its reply to a builds request and to a test-occurrences request, by URL. */
  datatype Server = Server(builds: string -> Reply<seq<TcBuild>>, tests: string -> Reply<int>)

  predicate Enabled(cfg: ConfigView) {
    cfg.teamCity.Some?
  }

  // ---------------------------------------------------------------------------
  // Requests
  // ---------------------------------------------------------------------------

  /** A REST URL under the base URL, whatever trailing slashes the base URL has. */
  function RestURL(baseURL: string, resource: string, locator: string): string {
    TrimRightChar(baseURL, '/') + "/app/rest/" + resource + "?locator=" + locator
  }

  /** A trailing slash on the configured base URL does not change any request. */
  lemma TrailingSlashIgnored(baseURL: string, resource: string, locator: string)
    ensures RestURL(baseURL + "/", resource, locator) == RestURL(baseURL, resource, locator)
  {
    TrimRightCharProperties(baseURL, '/');
  }

  /** The locator that selects the latest build of a build type on a branch, whatever its status. */
  function BuildLocator(buildTypeID: string, branch: string): string {
    "buildType:" + buildTypeID + ",branch:" + branch + ",status:any,count:1"
  }

  /** The test-occurrences locator: the status filter is omitted for "ANY". */
  function TestLocator(buildID: int, status: string): string {
    var loc := "build:(id:" + Itoa(buildID) + ")";
    if status != "ANY" then loc + ",status:" + status else loc
  }

  /** The three test-count requests of a build are three different requests. */
  lemma TestLocatorsDistinct(buildID: int)
    ensures TestLocator(buildID, "ANY") != TestLocator(buildID, "SUCCESS")
    ensures TestLocator(buildID, "ANY") != TestLocator(buildID, "FAILURE")
    ensures TestLocator(buildID, "SUCCESS") != TestLocator(buildID, "FAILURE")
  {
    var loc := "build:(id:" + Itoa(buildID) + ")";
    var s, f := TestLocator(buildID, "SUCCESS"), TestLocator(buildID, "FAILURE");
    assert |s| == |loc| + 15 && |f| == |loc| + 15;
    assert s[|loc| + 8] == 'S' && f[|loc| + 8] == 'F';
  }

  /** fetchTestCount */
  function TestCount(srv: Server, baseURL: string, buildID: int, status: string): Result<int> {
    Received(srv.tests(RestURL(baseURL, "testOccurrences", TestLocator(buildID, status))))
  }

  /** A count whose request failed reads as 0. */
  function CountOrZero(r: Result<int>): (n: int)
    ensures r.Err? ==> n == 0
    ensures r.Ok? ==> n == r.value
  {
    if r.Ok? then r.value else 0
  }

  /** What fetchLatestBuild returns. */
  function LatestBuild(srv: Server, baseURL: string, buildTypeID: string, branch: string): Result<BuildSummary> {
    var page := Received(srv.builds(RestURL(baseURL, "builds", BuildLocator(buildTypeID, branch))));
    if page.Err? then Err(page.msg)
    else if page.value == [] then Err(NoBuilds)
    else
      var b := page.value[0];
      Ok(BuildSummary(buildTypeID, b.branchName, b.status,
        CountOrZero(TestCount(srv, baseURL, b.id, "ANY")),
        CountOrZero(TestCount(srv, baseURL, b.id, "SUCCESS")),
        CountOrZero(TestCount(srv, baseURL, b.id, "FAILURE"))))
  }

  /** fetchLatestBuild: the latest build, then its three test counts, each 0 when its request fails. */
  method FetchLatestBuild(srv: Server, baseURL: string, buildTypeID: string, branch: string)
    returns (res: Result<BuildSummary>)
    ensures res == LatestBuild(srv, baseURL, buildTypeID, branch)
  {
    var page := Received(srv.builds(RestURL(baseURL, "builds", BuildLocator(buildTypeID, branch))));
    if page.Err? {
      return Err(page.msg);
    }
    if |page.value| == 0 {
      return Err(NoBuilds);
    }
    var b := page.value[0];

    var tot, pass, fail := 0, 0, 0;
    var c := TestCount(srv, baseURL, b.id, "ANY");
    if c.Ok? {
      tot := c.value;
    }
    c := TestCount(srv, baseURL, b.id, "SUCCESS");
    if c.Ok? {
      pass := c.value;
    }
    c := TestCount(srv, baseURL, b.id, "FAILURE");
    if c.Ok? {
      fail := c.value;
    }
    return Ok(BuildSummary(buildTypeID, b.branchName, b.status, tot, pass, fail));
  }

  /**
   * The summary keeps the requested build type, takes branch and status from the newest
   * build, and each count is what its own request answered, or 0.
   */
  lemma LatestBuildFields(srv: Server, baseURL: string, buildTypeID: string, branch: string, b: TcBuild, rest: seq<TcBuild>)
    requires Received(srv.builds(RestURL(baseURL, "builds", BuildLocator(buildTypeID, branch)))) == Ok([b] + rest)
    ensures var r := LatestBuild(srv, baseURL, buildTypeID, branch);
      && r.Ok?
      && r.value.buildTypeID == buildTypeID
      && r.value.branch == b.branchName
      && r.value.status == b.status
      && (TestCount(srv, baseURL, b.id, "ANY").Err? ==> r.value.testsTotal == 0)
      && (TestCount(srv, baseURL, b.id, "SUCCESS").Err? ==> r.value.testsPassed == 0)
      && (TestCount(srv, baseURL, b.id, "FAILURE").Err? ==> r.value.testsFailed == 0)
  {
  }

  // ---------------------------------------------------------------------------
  // Rows and the report
  // ---------------------------------------------------------------------------

  /** The row of one build type. */
  function BuildRow(tc: TeamCityConfig, srv: Server, buildTypeID: string): (row: seq<string>)
    ensures |row| == |Headers| && row[0] == buildTypeID
  {
    match LatestBuild(srv, tc.baseURL, buildTypeID, tc.branch)
    case Err(msg) => [buildTypeID, tc.branch, "error: " + msg, "-", "-", "-"]
    case Ok(s) =>
      [s.buildTypeID, s.branch, s.status, Itoa(s.testsTotal), Itoa(s.testsPassed), Itoa(s.testsFailed)]
  }

  /** One row per configured build type, in configuration order. */
  function Rows(tc: TeamCityConfig, srv: Server): (rows: seq<seq<string>>)
    ensures |rows| == |tc.builds|
    ensures forall i :: 0 <= i < |rows| ==> |rows[i]| == |Headers| && rows[i][0] == tc.builds[i]
  {
    seq(|tc.builds|, i requires 0 <= i < |tc.builds| => BuildRow(tc, srv, tc.builds[i]))
  }

  /** What the module's Run returns. */
  function RunSpec(tc: Option<TeamCityConfig>, srv: Server): Result<Report> {
    if tc.None? then Err(ConfigMissing)
    else if tc.value.token == "" then Ok(Brief(Title, SkipSummary))
    else Ok(WithTable(Title, Summary, SectionHeader, Table(Headers, Rows(tc.value, srv))))
  }

  /** The module's Run. */
  method Run(tc: Option<TeamCityConfig>, srv: Server) returns (res: Result<Report>)
    ensures res == RunSpec(tc, srv)
  {
    if tc.None? {
      return Err(ConfigMissing);
    }
    var c := tc.value;
    if c.token == "" {
      return Ok(Brief(Title, SkipSummary));
    }

    var rows: seq<seq<string>> := [];
    var summaries: seq<BuildSummary> := [];
    for i := 0 to |c.builds|
      invariant |rows| == i
      invariant forall k :: 0 <= k < i ==> rows[k] == BuildRow(c, srv, c.builds[k])
    {
      var bt := c.builds[i];
      var sum := FetchLatestBuild(srv, c.baseURL, bt, c.branch);
      if sum.Err? {
        rows := rows + [[bt, c.branch, "error: " + sum.msg, "-", "-", "-"]];
        continue;
      }
      var s := sum.value;
      summaries := summaries + [s];
      rows := rows + [[s.buildTypeID, s.branch, s.status,
        Itoa(s.testsTotal), Itoa(s.testsPassed), Itoa(s.testsFailed)]];
    }
    assert rows == Rows(c, srv);

    var table := Table(Headers, rows);
    res := Ok(WithTable(Title, Summary, SectionHeader, table));
  }

  // ---------------------------------------------------------------------------
  // Properties of the report
  // ---------------------------------------------------------------------------

  /** The Tests cell is "-" exactly when the build could not be fetched: a count never prints as "-". */
  lemma DashIffFetchFailed(tc: TeamCityConfig, srv: Server, buildTypeID: string)
    ensures BuildRow(tc, srv, buildTypeID)[3] == "-"
        <==> LatestBuild(srv, tc.baseURL, buildTypeID, tc.branch).Err?
  {
    var r := LatestBuild(srv, tc.baseURL, buildTypeID, tc.branch);
    if r.Ok? {
      var t := Itoa(r.value.testsTotal);
      assert t[|t| - 1] != '-';
    }
  }

  /** Once a config is present the module never fails: every failure ends up in a row. */
  lemma EnabledNeverFails(cfg: ConfigView, srv: Server)
    requires Enabled(cfg)
    ensures RunSpec(cfg.teamCity, srv).Ok?
  {
  }

  /** Without a token no request is made: the report does not depend on the server. */
  lemma NoTokenNoRequests(tc: TeamCityConfig, srv: Server, other: Server)
    requires tc.token == ""
    ensures RunSpec(Some(tc), srv) == RunSpec(Some(tc), other) == Ok(Brief(Title, SkipSummary))
  {
  }
}
