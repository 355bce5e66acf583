# dev-digest and scrum-eye, modelled in Dafny

This project models the core of the Go repository `scrum-eye`. The repository holds two programs.

**dev-digest** (`common/`, `console/`, `modules/`) is a module pipeline:
- The console runner resolves `${VAR}` references in the configuration's secrets and validates the configuration.
- It creates one shared `Facts` scratchpad per run and attaches it to the context.
- It walks the registered modules in registration order. It runs each enabled module under a per-module timeout and turns each outcome into a report:
  - a failing module becomes an error report;
  - a report gets a `duration` entry in its `Meta`;
  - a module that returns nothing adds nothing.
- The run fails only when no report remains.
- Two modules are modelled: TeamCity (the latest build and test counts per build type) and Azure Repos (branches whose names mention a feature ID that Azure Boards published in `Facts`).

**scrum-eye** (`internal/`) contributes small helpers:
- the command-line parser;
- the merge of the global and team configurations;
- the OData-to-domain work-item mapper;
- the rune-based `truncate` and the work-item summary line of the sprint printout.

The model follows the source's form:
- Objects that change in place are classes: `Config` (ResolveEnv), `Facts` (FeatureIDs) and `Registry` (the package-level slice).
- Loops are methods with invariants, proved against a specification function. This covers the runner loop, `expandEnv`, the Azure Repos and TeamCity loops, the argument parser, the mapper, the type counting and the summary loop.
- Pure Go code is functions and lemmas.

Everything the original reads from outside is a parameter:
- the environment (a map);
- the modules' HTTP replies (functions from request to reply, or given results);
- a module run's elapsed time (an opaque string).

Go strings are sequences of runes. `strings.ToLower` is ASCII lower-casing. `sort.Strings` is an insertion sort, proved to return an ascending permutation.

File by file:
- `basics.dfy`: Option and Result.
- `gostrings.dfy`: the Go library functions the code calls.
- `reports.dfy`: the report datatypes of `common/report.go`.
- `digest_config.dfy`: `common/config.go`.
- `facts.dfy`: `common/facts.go`.
- `registry.dfy`: `common/module.go`.
- `runner.dfy`: `console/runner.go`.
- `http.dfy`: the status-code check shared by the TeamCity requests.
- `seq_filter.dfy`: generic filtering and counting, the shape of the branch matching.
- `azure_repos.dfy` and `teamcity.dfy`: the two modules.
- `domain.dfy`, `collector.dfy`, `sprint_console.dfy`, `cli_args.dfy` and `scrum_config.dfy`: the scrum-eye helpers.

## Model

| member | source | states |
|---|---|---|
| DigestConfig.ConfigView.DefaultPerModuleTimeout | common/config.go:85-90 | the default is positive: the console timeout when that is positive, otherwise 20 seconds |
| DigestConfig.ConfigView.Validate | common/config.go:93-105 | no error iff each present section names its base URL / organization; the TeamCity error is reported first when both are missing |
| DigestConfig.Config.View | common/config.go:15-19 | the value view of the configuration holds exactly the object's three sections |
| DigestConfig.Config.ResolveEnv | common/config.go:50-57 | only the TeamCity token and the Azure PAT change, each only when its section exists, each to its corrected expansion `Expanded` (rune-wise; see Findings); absent sections stay absent |
| DigestConfig.ExpandEnv | common/config.go:59-82 | the scanning loop, with the rune-wise copy of the corrected expansion, computes exactly `Expanded` of the input |
| DigestConfig.CloseFrom | common/config.go:67-70 | the inner scan stops at the first `}` at or after its start, or at the end of the string |
| DigestConfig.Close | common/config.go:66-71 | an opening `${` that is closed has its `}` at least two characters later |
| DigestConfig.ExpandFromPrefix | common/config.go:64-80 | text already written to `out` is never revisited: expansion only appends |
| DigestConfig.ExpandedIdentity | common/config.go:65-80 | the corrected expansion returns input without any `${` unchanged (the byte-wise original does so on ASCII input only) |
| DigestConfig.ExpandedUnclosed | common/config.go:66-71 | the corrected expansion copies a `${` with no closing `}` anywhere through literally, so input without `}` is unchanged |
| DigestConfig.ExpandFromShift | common/config.go:65-80 | the scan is local: expanding the tail of `p + r` is expanding `r` |
| DigestConfig.SubstitutionIsFinal | common/config.go:71-75 | `${KEY}` becomes the variable's value (empty when unset) and scanning resumes after the `}`, so the value is never expanded again |
| DigestConfig.LoneDollar | common/config.go:66-79 | a `$` not followed by `{` is copied through |
| DigestConfig.CloseFromShift | common/config.go:67-70 | the `}` search does not depend on text before its start |
| DigestConfig.OpenShift | common/config.go:66-72 | recognising `${` and its key does not depend on text before it |
| DigestConfig.CloseOfKey | common/config.go:67-70 | the search from inside a key stops at the key's closing `}` |
| DigestConfig.ExpandFromIdentity | common/config.go:65-80 | from any position, the corrected expansion appends text without `${` unchanged |
| DigestConfig.ExpandFromUnclosed | common/config.go:66-71 | from any position, the corrected expansion appends text without `}` unchanged |
| DigestConfig.Utf8 | common/config.go:78 | a rune is one to four bytes, each below 256 |
| DigestConfig.ByteWiseCopy | common/config.go:78 | converting a single byte back to a string keeps ASCII characters as they are |
| DigestConfig.AsWrittenAgreesOnAscii | common/config.go:78 | on ASCII input the byte-wise copy agrees with the rune-wise expansion |
| DigestConfig.AsWrittenAgreesFrom | common/config.go:65-80 | from any position, on ASCII input, the byte-wise loop computes the same expansion |
| DigestConfig.AsWrittenMangles | common/config.go:78 | as written, "é" comes out as "Ã©"; the rune-wise expansion keeps it |
| SharedFacts.Facts.AppendFeatureIDs | common/facts.go:8-10 | appending through the shared record adds the IDs at the end and keeps the earlier ones |
| SharedFacts.WithFacts | common/facts.go:15-17 | the new context carries exactly the given pointer, whatever the old one carried |
| SharedFacts.Attached | common/facts.go:21-24 | a record is attached iff the context carries a non-nil pointer, and it is that pointer |
| SharedFacts.GetFacts | common/facts.go:20-28 | returns the attached record itself, or else a fresh record with no IDs |
| SharedFacts.WithThenAttached | common/facts.go:15-24 | fetching after attaching a non-nil record gives back the same reference |
| SharedFacts.NilCountsAsAbsent | common/facts.go:22 | an attached nil pointer counts as absent |
| SharedFacts.FallbackIsNotStored | common/facts.go:26-27 | IDs appended to the fallback record are not seen by a later fetch on the same context |
| SharedFacts.HandOff | common/facts.go:20-24 | IDs appended through a fetched record are seen by every later fetch on that context |
| ModuleRegistry.Registry.Register | common/module.go:25-27 | the module is appended at the end and earlier entries stay as they are |
| ModuleRegistry.Registry.Modules | common/module.go:30 | returns a fresh array holding the registered modules in registration order |
| ModuleRegistry.SnapshotIsIndependent | common/module.go:30 | changing the returned copy leaves the registry unchanged |
| ModuleRegistry.RegisterTwice | common/module.go:25-27 | duplicates are kept, not removed |
| Runner.ResolveTimeout | console/runner.go:41-47 | the timeout is positive; the TeamCity and Azure overrides apply by module name; any other value is the default |
| Runner.ErrorReport | console/runner.go:53-55 | a failing module yields one report with its name as title, "error: "+msg as summary and [msg] as errors |
| Runner.StampDuration | console/runner.go:56-64 | Meta gains the duration (Meta is created when nil); every other field and every other Meta key is kept |
| Runner.Run | console/runner.go:17-73 | resolves the token and PAT to `Expanded` of their values, warns exactly with `Validate`, returns exactly `Collect` over the registry, and fails with the fixed message iff that list is empty |
| Runner.CollectReports | console/runner.go:32-65 | the loop returns exactly `CollectFrom` over the registry snapshot and leaves the shared Facts holding exactly `IdsFrom` |
| Runner.CollectFromPrefix | console/runner.go:36-65 | reports collected earlier stay in front, unchanged |
| Runner.CollectFromShift | console/runner.go:37 | modules the loop has passed play no further part |
| Runner.CollectFromAppend | console/runner.go:37-65 | running `a + b` is running `a`, then `b` with the Facts that `a` left behind |
| Runner.CollectSplit | console/runner.go:37-65 | the reports of `a + b` are those of `a` followed by those of `b` |
| Runner.CollectSingle | console/runner.go:38-64 | a disabled module adds nothing; an enabled one adds what its outcome emits |
| Runner.FailureIsIsolated | console/runner.go:53-55 | a failing module contributes exactly its error report and the loop goes on to the next module |
| Runner.DisabledContributesNothing | console/runner.go:38-40 | a disabled module is never run: removing it changes neither the reports nor the Facts |
| Runner.CollectFromCount | console/runner.go:37-65 | from any position, at most one report per enabled module, and exactly one when no module returns (nil, nil) |
| Runner.CollectCount | console/runner.go:37-65 | at most one report per enabled module, and exactly one when no module returns (nil, nil) |
| Runner.IdsOnlyGrow | console/runner.go:32-33 | the shared Facts only grows: the earlier IDs stay, in front |
| Runner.HandOffFollowsRegistryOrder | console/runner.go:32-37 | for any registry `a + [m] + b` with `m` enabled, `m` runs on the IDs appended by `a` alone, whatever `b` holds, and `b` runs on those IDs followed by `m`'s |
| AzureRepos.Stripped | modules/azurerepos/repos.go:145-153 | one name per ref, in order, each with a leading "refs/heads/" removed once |
| AzureRepos.StripRefsHeads | modules/azurerepos/repos.go:145-153 | the loop computes exactly `Stripped` of the refs |
| AzureRepos.StripRoundTrip | modules/azurerepos/repos.go:148-150 | a ref under refs/heads/ becomes its branch name |
| AzureRepos.StripOnce | modules/azurerepos/repos.go:148-150 | for every branch, a doubled "refs/heads/" prefix is removed only once |
| AzureRepos.StripKeepsOthers | modules/azurerepos/repos.go:148-150 | a name without the prefix is kept as it is |
| AzureRepos.MatchOne | modules/azurerepos/repos.go:65-70 | the inner loop computes exactly `MatchesOf`: the branches that mention the ID, in order |
| AzureRepos.MatchBranches | modules/azurerepos/repos.go:63-71 | the nested loops build exactly `Found`: per ID in Facts order, the branches that mention it |
| AzureRepos.FoundCount | modules/azurerepos/repos.go:63-71 | a branch listed once appears in `found` once per ID it matches |
| AzureRepos.FoundMembers | modules/azurerepos/repos.go:63-71 | a name is in `found` iff it is a branch of the repository that mentions at least one ID |
| AzureRepos.AscendingIsSorted | modules/azurerepos/repos.go:62 | an ascending list is sorted pairwise |
| AzureRepos.FilterSorted | modules/azurerepos/repos.go:66-70 | selecting from a sorted list keeps it sorted and selects only its elements |
| AzureRepos.MatchGroupSorted | modules/azurerepos/repos.go:58-70 | the branches listed for each ID are in ascending order and are branches of the repository |
| AzureRepos.MatchDigit | modules/azurerepos/repos.go:65-67 | a branch that matches an ID has a decimal digit in its name |
| AzureRepos.RowFor | modules/azurerepos/repos.go:46-77 | every row has the three header columns and starts with the repository name |
| AzureRepos.Rows | modules/azurerepos/repos.go:46-78 | one three-column row per repository, in listing order |
| AzureRepos.RepoRow | modules/azurerepos/repos.go:47-77 | one pass of the loop computes exactly `RowFor` and `MatchCount` of the repository |
| AzureRepos.Run | modules/azurerepos/repos.go:24-84 | the module computes exactly `RunSpec`: the skip report, the listing error, or the branches table with its match summary |
| AzureRepos.RunnerGatesOnEnabled | modules/azurerepos/repos.go:20-28 | the module as registered adds no report without an azure.repos section, and exactly what `RunSpec` yields on the Azure section when it has one |
| AzureRepos.FirstFoundHasDigit | modules/azurerepos/repos.go:63-71 | the first entry of a non-empty `found` contains a digit |
| AzureRepos.JoinedIsNotMarker | modules/azurerepos/repos.go:72-77 | a joined list that contains a digit is never the "no feature branches" marker |
| AzureRepos.NoFeatureBranchesIffNothingFound | modules/azurerepos/repos.go:72-77 | the third cell is "no feature branches" iff no branch matches any feature ID |
| AzureRepos.NoIdsNoBranchLookups | modules/azurerepos/repos.go:47-51 | without feature IDs every row reads "-", no branch reply matters and nothing is counted |
| AzureRepos.BranchErrorIsLocal | modules/azurerepos/repos.go:52-56 | a failed branch request gives row [name, "error", msg] and the module still succeeds |
| AzureRepos.NoPatNoRequests | modules/azurerepos/repos.go:26-28 | without a PAT the skip report is returned and no input matters |
| AzureRepos.ListingErrorIsModuleError | modules/azurerepos/repos.go:38-41 | a failed repository listing is the module's error |
| SeqFilter.FilterCount | modules/azurerepos/repos.go:66-70 | selection keeps every copy of a selected element and drops every copy of the others |
| SeqFilter.CountPositive | modules/azurerepos/repos.go:64-70 | the number of matching IDs is positive iff some ID matches |
| SeqFilter.CountPositiveIfSome | modules/azurerepos/repos.go:64-70 | if some ID matches, the number of matching IDs is positive |
| SeqFilter.SomeIfCountPositive | modules/azurerepos/repos.go:64-70 | if the number of matching IDs is positive, some ID matches |
| TeamCity.TrailingSlashIgnored | modules/teamcity/teamcity.go:74 | trailing slashes on the base URL do not change any request |
| TeamCity.TestLocatorsDistinct | modules/teamcity/teamcity.go:122-125 | the ANY, SUCCESS and FAILURE count requests are three different locators |
| TeamCity.CountOrZero | modules/teamcity/teamcity.go:103-116 | a count whose request failed reads as 0, otherwise as the count |
| TeamCity.FetchLatestBuild | modules/teamcity/teamcity.go:71-119 | computes exactly `LatestBuild`: the summary, "no builds found", or the request error |
| TeamCity.LatestBuildFields | modules/teamcity/teamcity.go:100-118 | the summary keeps the build type, takes branch and status from the newest build, and reads a failed count as 0 |
| TeamCity.BuildRow | modules/teamcity/teamcity.go:46-53 | every row has the six header columns and starts with the build type |
| TeamCity.Rows | modules/teamcity/teamcity.go:45-54 | one six-column row per configured build type, in configuration order |
| TeamCity.Run | modules/teamcity/teamcity.go:31-59 | computes exactly `RunSpec`: the config-missing error, the skip report, or the builds table |
| TeamCity.DashIffFetchFailed | modules/teamcity/teamcity.go:46-53 | the Tests cell is "-" iff the build could not be fetched |
| TeamCity.EnabledNeverFails | modules/teamcity/teamcity.go:27-58 | once the module is enabled, Run never returns an error |
| TeamCity.NoTokenNoRequests | modules/teamcity/teamcity.go:36-38 | without a token the skip report is returned and the server is never asked |
| Http.Received | modules/teamcity/teamcity.go:81-96 | a transport failure is the error; a non-2xx status becomes "http <code>"; otherwise the decoded body |
| GoStrings.TrimPrefix | modules/azurerepos/repos.go:148-149 | with the prefix present, prefix + result is the input; otherwise the input is returned |
| GoStrings.ToLower | internal/collector/mapper.go:26 | same length; each rune lower-cased |
| GoStrings.JoinStartsWithFirst | modules/azurerepos/repos.go:76 | a joined list starts with its first element |
| GoStrings.Itoa | modules/teamcity/teamcity.go:53 | decimal text is non-empty, made of digits and a sign, and ends in a digit |
| GoStrings.ToLowerItoa | modules/azurerepos/repos.go:67 | lower-casing leaves decimal text unchanged |
| GoStrings.SortStringsCorrect | modules/azurerepos/repos.go:62 | sorting yields an ascending permutation of its input |
| GoStrings.InsertPermutation | modules/azurerepos/repos.go:62 | one insertion step adds exactly the inserted element |
| GoStrings.InsertAscending | modules/azurerepos/repos.go:62 | one insertion step keeps the list ascending |
| GoStrings.LexLeTotal | modules/azurerepos/repos.go:62 | Go's string order is total |
| GoStrings.LexLeTransitive | modules/azurerepos/repos.go:62 | Go's string order is transitive |
| GoStrings.ContainsAt | modules/azurerepos/repos.go:67 | a contained string occurs at some position |
| GoStrings.TrimRightChar | modules/teamcity/teamcity.go:74 | the result is a prefix of the input without the trailing cut characters, and only those were removed |
| GoStrings.TrimRightCharProperties | modules/teamcity/teamcity.go:74 | trimming is idempotent, and one more trailing cut character makes no difference |
| Domain.WorkItemType.Name | internal/domain/sprint.go:5-14 | every type has a non-empty printed name |
| Collector.NormalizeWorkItemType | internal/collector/mapper.go:25-40 | each of the five known types is returned iff the lower-cased name is its Azure name; everything else is Unknown |
| Collector.NormalizeIgnoresCase | internal/collector/mapper.go:26 | names that lower-case alike map alike |
| Collector.NormalizeAzureNames | internal/collector/mapper.go:27-36 | Azure's spellings map to the five known types, and "" maps to Unknown |
| Collector.NormalizeOwnName | internal/collector/mapper.go:25-40 | a type's own name maps back to it for every type but Story, so the mapping is not idempotent |
| Collector.ToWorkItem | internal/collector/mapper.go:13-17 | the domain item copies ID and title |
| Collector.MapODataWorkItems | internal/collector/mapper.go:9-23 | one domain item per OData item, in order, each mapped as specified |
| SprintConsole.Truncate | internal/report/console.go:99-111 | "" when max <= 0; the input when it fits; otherwise exactly max runes, ending in "…" when max >= 2 |
| SprintConsole.TruncateIdempotent | internal/report/console.go:99-111 | truncating twice to the same width is truncating once |
| SprintConsole.TruncatedNameFits | internal/report/console.go:89-90 | a truncated name always fits its 38-rune column |
| SprintConsole.NameWidthIs38 | internal/report/console.go:17-90 | the name column is 60-3-4-2-10-3 = 38 runes wide |
| SprintConsole.EveryTypeListed | internal/report/console.go:47-54 | the summary order names every type |
| SprintConsole.CountTypes | internal/report/console.go:36-39 | the map satisfies `CountsOf`: a key for each type that occurs, with its number of items |
| SprintConsole.CountsAreCounted | internal/report/console.go:36-55 | correct counts are what the summary reads |
| SprintConsole.AppendTypeParts | internal/report/console.go:47-58 | the loop appends exactly `TypeParts`: "T: c" for each type with a positive count, in summary order |
| SprintConsole.Summarize | internal/report/console.go:36-62 | the loops build exactly `SummaryLine` of the items |
| SprintConsole.CountsSumToTotal | internal/report/console.go:36-45 | the per-type counts add up to the number of work items |
| SprintConsole.NoCountsNoParts | internal/report/console.go:47-58 | with no counts no type part is produced |
| SprintConsole.NoWorkItemsIffEmpty | internal/report/console.go:42-62 | the line is "No work items" iff there are none; otherwise it starts with "Total: N" |
| SprintConsole.TypePartsMention | internal/report/console.go:55-57 | every listed type with a positive count gets its part |
| SprintConsole.SummaryMentionsPresentTypes | internal/report/console.go:47-58 | every type that occurs is listed with its count |
| Cli.ParseFrom | internal/cli/args.go:11-33 | every error clears both the team name and the path |
| Cli.ParseArgs | internal/cli/args.go:10-34 | the loop computes exactly `Parse` of the arguments; on error both strings are empty |
| Cli.NoArguments | internal/cli/args.go:33 | no arguments give ("", "", no error) |
| Cli.TeamNameKept | internal/cli/args.go:18-21 | once set, the team name survives every successful parse |
| Cli.FirstPositionalIsTeam | internal/cli/args.go:18-21 | the first non-flag argument, wherever it stands after flags, is the team name of every successful parse |
| Cli.FlagsBeforeTeam | internal/cli/args.go:11-21 | from any position, flags before the first non-empty value do not take the team name; that value is the team of every successful parse |
| Cli.LastPathWins | internal/cli/args.go:12-15 | on success the path is the value of the last "--path=" |
| Cli.BarePathRejected | internal/cli/args.go:23-25 | "--path" or "-path" without a value is an error |
| Cli.SingleDashRejected | internal/cli/args.go:27-30 | any other single-dash argument is an extra argument |
| Cli.SecondPositionalRejected | internal/cli/args.go:18-30 | a second non-flag argument is an extra argument |
| Cli.DoubleDashIgnored | internal/cli/args.go:27-31 | any other "--" argument is skipped without effect |
| ScrumConfig.Merge | internal/config/load.go:40-48 | empty organisation and token fall back to the global values; project, team and area pass through |
| ScrumConfig.MergeIdempotent | internal/config/load.go:40-48 | merging twice is merging once |
| ScrumConfig.MergeFillsFields | internal/config/load.go:41-46 | after the merge a field is empty iff both the team and the global value are empty |

## Left out

- HTTP, JSON decoding and URL escaping: responses are inputs.
  - TeamCity's server answers request URLs. `url.QueryEscape` is the identity here.
  - Azure Repos gets the repository listing and each repository's refs as given results. The status-code check of `listRepos` and `listBranches` is folded into those results.
  - `addPAT`, the Authorization headers and `http.Client` timeouts are not modelled.
- Context deadlines, cancellation and wall-clock time: the resolved timeout is handed to the module unused, and a run's elapsed time is an opaque string.
- `loadConfig`, `config.Load`, YAML and file reading: configurations are values. `os.Getenv` is an environment map.
- Rendering (`console/render.go`, `RenderReports`, the box drawing of `PrintCurrentSprint`), the colour switch in `console/runner.go:28-30`, and the dates and days-left computation of `internal/report/console.go:20-33`.
- modules/azureboards/boards.go is not part of this model. It uses floating point and HTTP. Its one effect on other modules, appending feature IDs to Facts, is what the abstract modules of the runner model can do.
- Each module's `init()` registration and its Go interface methods: the registry holds abstract module values `(name, enabled, run)`. Their `run` sees the Facts IDs and may only append to them.
- internal/collector/collector.go, internal/cli/fs.go, templates.go, paths.go, run.go and main.go: I/O wiring.
- `Meta` values are Go `any`. Here they are strings, the only values the runner stores.
- Report pointers: reports are values, so aliasing between a module and the runner is not modelled.
- The registry is a `Registry` object rather than a package global.
- AzureRepos.Run: takes the Azure section itself. The source dereferences `cfg.Azure` without a check and relies on the runner calling it only when `Enabled` holds (AzureRepos.RunnerGatesOnEnabled). The nil-pointer panic of a direct call is not modelled.
- DigestConfig.Config.ResolveEnv: stores the corrected, rune-wise expansion `Expanded`. The source stores the byte-wise result, which differs on non-ASCII secrets, as DigestConfig.AsWrittenMangles shows.
- Runner.Run: resolves the secrets with the corrected expansion through ResolveEnv, so on non-ASCII secrets it does not reproduce the byte-wise copy of common/config.go:78.
- AzureRepos.RepoRow, AzureRepos.MatchOne, Runner.CollectReports and SprintConsole.AppendTypeParts: these are bodies of loops that the source writes inline. Each is a method of its own here so that its proof stays small.
- `sort.Strings` sorts in place. Here it is a function on values that returns an ascending permutation.
- `strings.ToLower` is modelled on ASCII letters only.
- Invalid UTF-8 input is not modelled: strings are sequences of runes.
- TeamCity's `summaries` slice is kept as a local, but nothing reads it, so no contract mentions it.
- Domain.WorkItemType: has the six values the mapper produces. A Go `WorkItemType` can hold any string, but only mapped items reach the summary.

## Findings

| source | as written | input that shows it | evidently intended | confidence | as-written member | corrected member |
|---|---|---|---|---|---|---|
| common/config.go:78 | `out += string(s[i])` copies one byte at a time and converts each byte to a rune, so every non-ASCII character of a secret is re-encoded byte by byte | a token containing "é" expands to "Ã©" | characters outside `${...}` are copied unchanged | high; not executed | DigestConfig.AsWrittenMangles | DigestConfig.ExpandEnv |
