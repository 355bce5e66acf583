/** scrum-eye's command-line parsing (internal/cli/args.go, parseArgs). */
module Cli {
  import opened Basics
  import opened GoStrings

  const PathFlag := "--path="
  const PathNeedsValue := "формат --path без значения не поддерживается, используй --path=<путь>"
  const ExtraArgument := "лишний аргумент: "

  /** The three results of parseArgs; `err` is None when Go's error is nil. */
  datatype Parsed = Parsed(teamName: string, customPath: string, err: Option<string>)

  /** Whether the argument is a value and not a flag. */
  predicate Positional(a: string) {
    !HasPrefix(a, "-")
  }

  /**
   * The loop of parseArgs from argument `i` on, with the team name and path found so
   * far. An error ends the loop and clears both strings.
   */
  function ParseFrom(args: seq<string>, i: nat, team: string, path: string): (r: Parsed)
    requires i <= |args|
    ensures r.err.Some? ==> r.teamName == "" && r.customPath == ""
    decreases |args| - i
  {
    if i == |args| then Parsed(team, path, None)
    else
      var a := args[i];
      if HasPrefix(a, PathFlag) then ParseFrom(args, i + 1, team, TrimPrefix(a, PathFlag))
      else if Positional(a) && team == "" then ParseFrom(args, i + 1, a, path)
      else if a == "--path" || a == "-path" then Parsed("", "", Some(PathNeedsValue))
      else if !HasPrefix(a, "--") then Parsed("", "", Some(ExtraArgument + a))
      else ParseFrom(args, i + 1, team, path)
  }

  /** What parseArgs returns. */
  function Parse(args: seq<string>): Parsed {
    ParseFrom(args, 0, "", "")
  }

  /** parseArgs */
  method ParseArgs(args: seq<string>) returns (teamName: string, customPath: string, err: Option<string>)
    ensures Parsed(teamName, customPath, err) == Parse(args)
    ensures err.Some? ==> teamName == "" && customPath == ""
  {
    teamName, customPath, err := "", "", None;
    for i := 0 to |args|
      invariant ParseFrom(args, i, teamName, customPath) == Parse(args)
    {
      var a := args[i];
      if HasPrefix(a, PathFlag) {
        customPath := TrimPrefix(a, PathFlag);
        continue;
      }
      if !HasPrefix(a, "-") && teamName == "" {
        teamName := a;
        continue;
      }
      if a == "--path" || a == "-path" {
        return "", "", Some(PathNeedsValue);
      }
      if !HasPrefix(a, "--") {
        return "", "", Some(ExtraArgument + a);
      }
    }
  }

  // ---------------------------------------------------------------------------
  // Properties
  // ---------------------------------------------------------------------------

  lemma NoArguments()
    ensures Parse([]) == Parsed("", "", None)
  {
  }

  /** Once a team name is set, a successful parse keeps it. */
  lemma {:induction false} TeamNameKept(args: seq<string>, i: nat, team: string, path: string)
    requires i <= |args| && team != ""
    ensures ParseFrom(args, i, team, path).err.None? ==> ParseFrom(args, i, team, path).teamName == team
    decreases |args| - i
  {
    if i < |args| {
      TeamNameKept(args, i + 1, team, path);
      if HasPrefix(args[i], PathFlag) {
        TeamNameKept(args, i + 1, team, TrimPrefix(args[i], PathFlag));
      }
    }
  }

  /**
   * Flags before the first value do not take the team name: from `k` on, when every
   * argument before `i` is a flag and `args[i]` is a non-empty value, a successful
   * parse names `args[i]` as the team.
   */
  lemma {:induction false} FlagsBeforeTeam(args: seq<string>, k: nat, i: nat, path: string)
    requires k <= i < |args|
    requires forall m :: k <= m < i ==> HasPrefix(args[m], "-")
    requires args[i] != "" && Positional(args[i])
    ensures ParseFrom(args, k, "", path).err.None? ==> ParseFrom(args, k, "", path).teamName == args[i]
    decreases i - k
  {
    if k == i {
      assert !HasPrefix(args[i], PathFlag);
      TeamNameKept(args, i + 1, args[i], path);
    } else if HasPrefix(args[k], PathFlag) {
      FlagsBeforeTeam(args, k + 1, i, TrimPrefix(args[k], PathFlag));
    } else {
      FlagsBeforeTeam(args, k + 1, i, path);
    }
  }

  /** The first non-flag argument, wherever it stands, is the team name of every successful parse. */
  lemma FirstPositionalIsTeam(args: seq<string>, i: nat)
    requires i < |args| && args[i] != "" && Positional(args[i])
    requires forall k :: 0 <= k < i ==> HasPrefix(args[k], "-")
    ensures Parse(args).err.None? ==> Parse(args).teamName == args[i]
  {
    FlagsBeforeTeam(args, 0, i, "");
  }

  /** The path given by the last "--path=" argument from `i` on, or `path` when there is none. */
  function LastPath(args: seq<string>, i: nat, path: string): string
    requires i <= |args|
    decreases |args| - i
  {
    if i == |args| then path
    else LastPath(args, i + 1, if HasPrefix(args[i], PathFlag) then TrimPrefix(args[i], PathFlag) else path)
  }

  /** On success the custom path is the value of the last "--path=" argument: later ones override earlier ones. */
  lemma {:induction false} LastPathWins(args: seq<string>, i: nat, team: string, path: string)
    requires i <= |args|
    ensures ParseFrom(args, i, team, path).err.None?
        ==> ParseFrom(args, i, team, path).customPath == LastPath(args, i, path)
    decreases |args| - i
  {
    if i < |args| {
      var a := args[i];
      if HasPrefix(a, PathFlag) {
        LastPathWins(args, i + 1, team, TrimPrefix(a, PathFlag));
      } else if Positional(a) && team == "" {
        LastPathWins(args, i + 1, a, path);
      } else {
        LastPathWins(args, i + 1, team, path);
      }
    }
  }

  /** "--path" or "-path" without a value is rejected wherever it appears. */
  lemma BarePathRejected(args: seq<string>, i: nat, team: string, path: string)
    requires i < |args| && (args[i] == "--path" || args[i] == "-path")
    ensures ParseFrom(args, i, team, path) == Parsed("", "", Some(PathNeedsValue))
  {
    assert !HasPrefix(args[i], PathFlag);
  }

  /** A single-dash flag other than "-path" is an extra argument. */
  lemma SingleDashRejected(args: seq<string>, i: nat, team: string, path: string)
    requires i < |args| && HasPrefix(args[i], "-") && !HasPrefix(args[i], "--") && args[i] != "-path"
    ensures ParseFrom(args, i, team, path) == Parsed("", "", Some(ExtraArgument + args[i]))
  {
    assert PathFlag[..2] == "--";
  }

  /** A second value after the team name is an extra argument. */
  lemma SecondPositionalRejected(args: seq<string>, i: nat, team: string, path: string)
    requires i < |args| && team != "" && Positional(args[i])
    ensures ParseFrom(args, i, team, path) == Parsed("", "", Some(ExtraArgument + args[i]))
  {
    assert PathFlag[..1] == "--"[..1] == "--path"[..1] == "-path"[..1] == "-";
  }

  /** Any other double-dash flag is skipped without effect. */
  lemma DoubleDashIgnored(args: seq<string>, i: nat, team: string, path: string)
    requires i < |args| && HasPrefix(args[i], "--") && !HasPrefix(args[i], PathFlag) && args[i] != "--path"
    ensures ParseFrom(args, i, team, path) == ParseFrom(args, i + 1, team, path)
  {
    assert args[i][..1] == args[i][..2][..1] == "-";
    assert "-path"[1] == 'p';
  }
}
