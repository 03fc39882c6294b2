/** The two event sequences the command handlers produce once their list
    files have been loaded, and the trace-shape facts about them. These hold
    for any list paths, directory and script lists. */
module HookCycle {
  import opened Events

  /** Full cycle: consult the pre-build then the post-build list, run the
      pre-build scripts, clean, build, run the post-build scripts. */
  function FullCycle(prePath: string, postPath: string, location: string,
                     preScripts: seq<string>, postScripts: seq<string>): seq<Event>
  {
    [ReadFile(prePath), ReadFile(postPath)]
    + Runs(preScripts, location)
    + [Clean, Build]
    + Runs(postScripts, location)
  }

  /** Post-only cycle: consult the post-build list, run its scripts. */
  function PostCycle(postPath: string, location: string, postScripts: seq<string>): seq<Event>
  {
    [ReadFile(postPath)] + Runs(postScripts, location)
  }

  /** `Clean` and `Build` happen once each, `Build` directly after `Clean`;
      the launches before `Clean` are the pre-build run and everything after
      `Build` is the post-build run. */
  lemma FullCyclePhaseOrder(prePath: string, postPath: string, location: string,
                            preScripts: seq<string>, postScripts: seq<string>)
    ensures var t := FullCycle(prePath, postPath, location, preScripts, postScripts);
            && multiset(t)[Clean] == 1
            && multiset(t)[Build] == 1
            && Launches(BeforeFirst(t, Clean)) == Runs(preScripts, location)
            && AfterFirst(t, Clean) == [Build] + AfterFirst(t, Build)
            && AfterFirst(t, Build) == Runs(postScripts, location)
  {
    FullCycleCounts(prePath, postPath, location, preScripts, postScripts);
    FullCycleAtClean(prePath, postPath, location, preScripts, postScripts);
    FullCycleAtBuild(prePath, postPath, location, preScripts, postScripts);
    LaunchesAppend([ReadFile(prePath), ReadFile(postPath)], Runs(preScripts, location));
    NoLaunches(ReadFile(prePath), ReadFile(postPath));
    LaunchesOfRuns(preScripts, location);
  }

  lemma FullCycleCounts(prePath: string, postPath: string, location: string,
                        preScripts: seq<string>, postScripts: seq<string>)
    ensures var t := FullCycle(prePath, postPath, location, preScripts, postScripts);
            multiset(t)[Clean] == 1 && multiset(t)[Build] == 1
  {
    var pre := Runs(preScripts, location);
    var post := Runs(postScripts, location);
    assert FullCycle(prePath, postPath, location, preScripts, postScripts)
           == [ReadFile(prePath), ReadFile(postPath)] + pre + [Clean, Build] + post;
    OnlyLaunchesInRuns(Clean, preScripts, location);
    OnlyLaunchesInRuns(Build, preScripts, location);
    OnlyLaunchesInRuns(Clean, postScripts, location);
    OnlyLaunchesInRuns(Build, postScripts, location);
    assert multiset(pre)[Clean] == 0 && multiset(pre)[Build] == 0;
    assert multiset(post)[Clean] == 0 && multiset(post)[Build] == 0;
  }

  lemma FullCycleAtClean(prePath: string, postPath: string, location: string,
                         preScripts: seq<string>, postScripts: seq<string>)
    ensures var t := FullCycle(prePath, postPath, location, preScripts, postScripts);
            && BeforeFirst(t, Clean) == [ReadFile(prePath), ReadFile(postPath)] + Runs(preScripts, location)
            && AfterFirst(t, Clean) == [Build] + Runs(postScripts, location)
  {
    var before := [ReadFile(prePath), ReadFile(postPath)] + Runs(preScripts, location);
    var after := [Build] + Runs(postScripts, location);
    assert [Clean, Build] == [Clean] + [Build];
    assert FullCycle(prePath, postPath, location, preScripts, postScripts) == before + [Clean] + after;
    OnlyLaunchesInRuns(Clean, preScripts, location);
    SplitAtFirst(before, Clean, after);
  }

  lemma FullCycleAtBuild(prePath: string, postPath: string, location: string,
                         preScripts: seq<string>, postScripts: seq<string>)
    ensures AfterFirst(FullCycle(prePath, postPath, location, preScripts, postScripts), Build)
            == Runs(postScripts, location)
  {
    var before := [ReadFile(prePath), ReadFile(postPath)] + Runs(preScripts, location) + [Clean];
    var after := Runs(postScripts, location);
    assert [Clean, Build] == [Clean] + [Build];
    assert FullCycle(prePath, postPath, location, preScripts, postScripts) == before + [Build] + after;
    OnlyLaunchesInRuns(Build, preScripts, location);
    assert Build !in before;
    SplitAtFirst(before, Build, after);
  }

  /** Each phase on its own: an empty pre-build list launches nothing before
      `Clean`, an empty post-build list launches nothing after `Build`. */
  lemma FullCycleEmptyPhases(prePath: string, postPath: string, location: string,
                             preScripts: seq<string>, postScripts: seq<string>)
    ensures var t := FullCycle(prePath, postPath, location, preScripts, postScripts);
            && (preScripts == [] ==> Launches(BeforeFirst(t, Clean)) == [])
            && (postScripts == [] ==> AfterFirst(t, Build) == [])
  {
    FullCyclePhaseOrder(prePath, postPath, location, preScripts, postScripts);
  }

  /** The two list consultations open the trace and none follows. */
  lemma FullCycleReadsFirst(prePath: string, postPath: string, location: string,
                            preScripts: seq<string>, postScripts: seq<string>)
    ensures var t := FullCycle(prePath, postPath, location, preScripts, postScripts);
            && |t| >= 2
            && t[..2] == [ReadFile(prePath), ReadFile(postPath)]
            && forall i :: 2 <= i < |t| ==> !t[i].ReadFile?
  {
    RunsLaunchEachLine(preScripts, location);
    RunsLaunchEachLine(postScripts, location);
  }

  /** The launches of a full cycle are the pre-build run followed by the
      post-build run: nothing is skipped, whatever happened before. */
  lemma FullCycleLaunches(prePath: string, postPath: string, location: string,
                          preScripts: seq<string>, postScripts: seq<string>)
    ensures Launches(FullCycle(prePath, postPath, location, preScripts, postScripts))
            == Runs(preScripts + postScripts, location)
  {
    var consulted := [ReadFile(prePath), ReadFile(postPath)];
    var pre := Runs(preScripts, location);
    var post := Runs(postScripts, location);
    assert FullCycle(prePath, postPath, location, preScripts, postScripts)
           == (consulted + pre) + ([Clean, Build] + post);
    LaunchesAppend(consulted + pre, [Clean, Build] + post);
    LaunchesAfterNonLaunches(ReadFile(prePath), ReadFile(postPath), preScripts, location);
    LaunchesAfterNonLaunches(Clean, Build, postScripts, location);
    RunsAppend(preScripts, postScripts, location);
  }

  /** Two non-launch events followed by a run launch just that run. */
  lemma LaunchesAfterNonLaunches(a: Event, b: Event, scripts: seq<string>, location: string)
    requires !a.Run? && !b.Run?
    ensures Launches([a, b] + Runs(scripts, location)) == Runs(scripts, location)
  {
    LaunchesAppend([a, b], Runs(scripts, location));
    NoLaunches(a, b);
    LaunchesOfRuns(scripts, location);
  }

  /** A post-only cycle consults the post-build list and then only launches;
      it never cleans or builds. */
  lemma PostCycleShape(postPath: string, location: string, postScripts: seq<string>)
    ensures var t := PostCycle(postPath, location, postScripts);
            && t[0] == ReadFile(postPath)
            && t[1..] == Runs(postScripts, location)
            && Launches(t) == Runs(postScripts, location)
            && Clean !in t && Build !in t
  {
  }

  /** The post-only cycle launches exactly what the full cycle launches after
      `Build`, for the same post-build list and directory. */
  lemma PostCycleIsFullCycleTail(prePath: string, postPath: string, location: string,
                                 preScripts: seq<string>, postScripts: seq<string>)
    ensures Launches(PostCycle(postPath, location, postScripts))
            == AfterFirst(FullCycle(prePath, postPath, location, preScripts, postScripts), Build)
  {
    FullCyclePhaseOrder(prePath, postPath, location, preScripts, postScripts);
    PostCycleShape(postPath, location, postScripts);
  }
}
