/** The full-cycle command (`RunScripts.Execute`): read both hook lists,
    run the pre-build hooks, clean and build the solution, run the
    post-build hooks. */
module RunScripts {
  import opened Results
  import opened SolutionPath
  import opened ScriptLists
  import opened Events
  import opened HookCycle

  /** The handler, given the file system it starts from and the solution's
      full path. Both lists are loaded before any script runs, and no line
      is skipped because of an exit code or build result. */
  function Execute(fs: FileSystem, fullPath: string): (r: Result<seq<Event>>)
    ensures r.Err? <==> Backslash !in fullPath
    ensures r.Err? ==> r.error == ArgumentOutOfRange
  {
    var location :- SolutionLocation(fullPath);
    var prePath := PreListPath(location);
    var preScripts := Load(fs, prePath);
    var postPath := PostListPath(location);
    var postScripts := Load(fs, postPath);
    Ok(FullCycle(prePath, postPath, location, preScripts, postScripts))
  }

  /** The phases come in the fixed order: the launches before `Clean` are
      exactly the pre-build list, `Build` follows `Clean` directly, and what
      follows `Build` is exactly the post-build list, launches only. `Clean`
      and `Build` each happen once. */
  lemma PhaseOrder(fs: FileSystem, fullPath: string)
    requires Backslash in fullPath
    ensures var t := Execute(fs, fullPath).value;
            var location := SolutionLocation(fullPath).value;
            && multiset(t)[Clean] == 1
            && multiset(t)[Build] == 1
            && Launches(BeforeFirst(t, Clean)) == Runs(Load(fs, PreListPath(location)), location)
            && AfterFirst(t, Clean) == [Build] + AfterFirst(t, Build)
            && AfterFirst(t, Build) == Runs(Load(fs, PostListPath(location)), location)
  {
    var location := SolutionLocation(fullPath).value;
    var prePath := PreListPath(location);
    var postPath := PostListPath(location);
    FullCyclePhaseOrder(prePath, postPath, location, Load(fs, prePath), Load(fs, postPath));
  }

  /** Both list files are consulted, pre-build list first, before anything
      else happens, and no file is consulted after that. So the post-build
      list is the one present before any pre-build script ran. */
  lemma ReadsBeforeRuns(fs: FileSystem, fullPath: string)
    requires Backslash in fullPath
    ensures var t := Execute(fs, fullPath).value;
            var location := SolutionLocation(fullPath).value;
            && |t| >= 2
            && t[..2] == [ReadFile(PreListPath(location)), ReadFile(PostListPath(location))]
            && forall i :: 2 <= i < |t| ==> !t[i].ReadFile?
  {
    var location := SolutionLocation(fullPath).value;
    var prePath := PreListPath(location);
    var postPath := PostListPath(location);
    FullCycleReadsFirst(prePath, postPath, location, Load(fs, prePath), Load(fs, postPath));
  }

  /** Nothing is gated: every line of both lists is launched, pre-build lines
      first, each verbatim, with PowerShell, in the solution directory. */
  lemma EveryLineRuns(fs: FileSystem, fullPath: string)
    requires Backslash in fullPath
    ensures var t := Execute(fs, fullPath).value;
            var location := SolutionLocation(fullPath).value;
            Launches(t) == Runs(Load(fs, PreListPath(location)) + Load(fs, PostListPath(location)), location)
  {
    var location := SolutionLocation(fullPath).value;
    var prePath := PreListPath(location);
    var postPath := PostListPath(location);
    FullCycleLaunches(prePath, postPath, location, Load(fs, prePath), Load(fs, postPath));
  }

  /** Absent list files are empty lists, not errors: with neither file the
      handler only cleans and builds. */
  lemma MissingListsRunNothing(fs: FileSystem, fullPath: string)
    requires Backslash in fullPath
    requires PreListPath(SolutionLocation(fullPath).value) !in fs
    requires PostListPath(SolutionLocation(fullPath).value) !in fs
    ensures var location := SolutionLocation(fullPath).value;
            Execute(fs, fullPath)
            == Ok([ReadFile(PreListPath(location)), ReadFile(PostListPath(location)), Clean, Build])
  {
    var location := SolutionLocation(fullPath).value;
    EmptyListsTrace(PreListPath(location), PostListPath(location), location);
  }

  lemma EmptyListsTrace(prePath: string, postPath: string, location: string)
    ensures FullCycle(prePath, postPath, location, [], [])
            == [ReadFile(prePath), ReadFile(postPath), Clean, Build]
  {
  }

  /** An absent list file is an empty list for its own phase, whatever the
      other file holds: no pre-build launch before `Clean` when the
      pre-build list is missing, nothing after `Build` when the post-build
      list is missing. */
  lemma AbsentListRunsNothing(fs: FileSystem, fullPath: string)
    requires Backslash in fullPath
    ensures var t := Execute(fs, fullPath).value;
            var location := SolutionLocation(fullPath).value;
            && (PreListPath(location) !in fs ==> Launches(BeforeFirst(t, Clean)) == [])
            && (PostListPath(location) !in fs ==> AfterFirst(t, Build) == [])
  {
    var location := SolutionLocation(fullPath).value;
    var prePath := PreListPath(location);
    var postPath := PostListPath(location);
    FullCycleEmptyPhases(prePath, postPath, location, Load(fs, prePath), Load(fs, postPath));
  }

  /** The handler's outcome depends on the file system only through the two
      list files of the solution directory. */
  lemma ReadsOnlyListFiles(fs1: FileSystem, fs2: FileSystem, fullPath: string, location: string)
    requires SolutionLocation(fullPath) == Ok(location)
    requires SameFile(fs1, fs2, PreListPath(location))
    requires SameFile(fs1, fs2, PostListPath(location))
    ensures Execute(fs1, fullPath) == Execute(fs2, fullPath)
  {
  }

  /** A pre-build list with the lines `echo A` and `echo B` and no post-build
      list: both lines run, in order, then one clean and one build. */
  lemma PreOnlyScenario()
    ensures var dir := @"C:\proj";
            var fs := map[PreListPath(dir) := ["echo A", "echo B"]];
            Execute(fs, dir + @"\app.sln")
            == Ok([ReadFile(PreListPath(dir)),
                   ReadFile(PostListPath(dir)),
                   Run(PowerShell, "echo A", dir),
                   Run(PowerShell, "echo B", dir),
                   Clean,
                   Build])
  {
    var dir := @"C:\proj";
    assert dir + @"\app.sln" == dir + [Backslash] + "app.sln";
    LocationOfJoin(dir, "app.sln");
    ListPathsDistinct(dir, dir);
    var fs := map[PreListPath(dir) := ["echo A", "echo B"]];
    assert Load(fs, PreListPath(dir)) == ["echo A", "echo B"];
    assert Load(fs, PostListPath(dir)) == [];
    TwoPreLinesTrace(PreListPath(dir), PostListPath(dir), dir, "echo A", "echo B");
  }

  lemma TwoPreLinesTrace(prePath: string, postPath: string, location: string, a: string, b: string)
    ensures FullCycle(prePath, postPath, location, [a, b], [])
            == [ReadFile(prePath), ReadFile(postPath),
                Run(PowerShell, a, location), Run(PowerShell, b, location), Clean, Build]
  {
    assert [a, b][1..] == [b];
    assert Runs([a, b], location) == [Run(PowerShell, a, location), Run(PowerShell, b, location)];
    assert Runs([], location) == [];
  }
}
