/** The post-only command (`RunPostScritps.Execute` in the source, class
    name spelled that way there): read the post-build list and run its
    hooks, with no clean or build. */
module RunPostScripts {
  import opened Results
  import opened SolutionPath
  import opened ScriptLists
  import opened Events
  import opened HookCycle
  import RunScripts

  /** The handler, given the file system it starts from and the solution's
      full path. The solution's build object is fetched in the source but
      never used. */
  function Execute(fs: FileSystem, fullPath: string): (r: Result<seq<Event>>)
    ensures r.Err? <==> Backslash !in fullPath
    ensures r.Err? ==> r.error == ArgumentOutOfRange
  {
    var location :- SolutionLocation(fullPath);
    var postPath := PostListPath(location);
    var postScripts := Load(fs, postPath);
    Ok(PostCycle(postPath, location, postScripts))
  }

  /** Only the post-build list file is consulted, first; then every one of
      its lines is launched, verbatim, with PowerShell, in the solution
      directory; there is no clean or build and the pre-build list file is
      never consulted. */
  lemma PostOnlyShape(fs: FileSystem, fullPath: string)
    requires Backslash in fullPath
    ensures var t := Execute(fs, fullPath).value;
            var location := SolutionLocation(fullPath).value;
            && t[0] == ReadFile(PostListPath(location))
            && t[1..] == Runs(Load(fs, PostListPath(location)), location)
            && Launches(t) == Runs(Load(fs, PostListPath(location)), location)
            && Clean !in t && Build !in t
            && ReadFile(PreListPath(location)) !in t
  {
    var location := SolutionLocation(fullPath).value;
    var postScripts := Load(fs, PostListPath(location));
    PostCycleShape(PostListPath(location), location, postScripts);
    ListPathsDistinct(location, location);
    OnlyLaunchesInRuns(ReadFile(PreListPath(location)), postScripts, location);
  }

  /** An absent post-build list is an empty list, not an error: the handler
      consults it and launches nothing. */
  lemma MissingListRunsNothing(fs: FileSystem, fullPath: string)
    requires Backslash in fullPath
    requires PostListPath(SolutionLocation(fullPath).value) !in fs
    ensures var location := SolutionLocation(fullPath).value;
            Execute(fs, fullPath) == Ok([ReadFile(PostListPath(location))])
  {
    var location := SolutionLocation(fullPath).value;
    assert Runs([], location) == [];
    assert PostCycle(PostListPath(location), location, []) == [ReadFile(PostListPath(location))];
  }

  /** The outcome depends on the file system only through the post-build
      list file: in particular, the pre-build list has no influence. */
  lemma ReadsOnlyPostList(fs1: FileSystem, fs2: FileSystem, fullPath: string, location: string)
    requires SolutionLocation(fullPath) == Ok(location)
    requires SameFile(fs1, fs2, PostListPath(location))
    ensures Execute(fs1, fullPath) == Execute(fs2, fullPath)
  {
  }

  /** For the same solution and file system, the two commands fail together,
      and the post-only command launches exactly what the full cycle
      launches after its build. */
  lemma PostOnlyIsFullCycleTail(fs: FileSystem, fullPath: string)
    ensures Execute(fs, fullPath).Ok? <==> RunScripts.Execute(fs, fullPath).Ok?
    ensures Execute(fs, fullPath).Ok? ==>
              Launches(Execute(fs, fullPath).value) == AfterFirst(RunScripts.Execute(fs, fullPath).value, Build)
  {
    if Backslash in fullPath {
      var location := SolutionLocation(fullPath).value;
      var prePath := PreListPath(location);
      var postPath := PostListPath(location);
      PostCycleIsFullCycleTail(prePath, postPath, location, Load(fs, prePath), Load(fs, postPath));
    }
  }

  /** Blank lines are hooks too: a post-build list holding an empty line and
      then `echo x` launches PowerShell with empty arguments, then with
      `echo x`. */
  lemma BlankLineScenario(dir: string)
    ensures var fs := map[PostListPath(dir) := ["", "echo x"]];
            Execute(fs, dir + [Backslash] + "app.sln")
            == Ok([ReadFile(PostListPath(dir)), Run(PowerShell, "", dir), Run(PowerShell, "echo x", dir)])
  {
    LocationOfJoin(dir, "app.sln");
    var fs := map[PostListPath(dir) := ["", "echo x"]];
    assert Load(fs, PostListPath(dir)) == ["", "echo x"];
    TwoLinesTrace(PostListPath(dir), dir, "", "echo x");
  }

  lemma TwoLinesTrace(postPath: string, location: string, a: string, b: string)
    ensures PostCycle(postPath, location, [a, b])
            == [ReadFile(postPath), Run(PowerShell, a, location), Run(PowerShell, b, location)]
  {
    assert [a, b][1..] == [b];
    assert Runs([a, b], location) == [Run(PowerShell, a, location), Run(PowerShell, b, location)];
  }
}
