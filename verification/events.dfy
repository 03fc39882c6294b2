/** What a command handler does, as an ordered trace of observable events,
    and the functions used to take such a trace apart. */
module Events {

  /** The shell every hook line is handed to. */
  const PowerShell: string := "powershell.exe"

  datatype Event =
    /** The handler consults a list file: `File.Exists`, then, if it
        exists, reads every line of it. */
    | ReadFile(path: string)
    /** One child process, started and waited for. Its exit code is never
        read, so it is not part of the event. */
    | Run(shell: string, args: string, workingDir: string)
    /** `SolutionBuild.Clean(true)`. */
    | Clean
    /** `SolutionBuild.Build(true)`. */
    | Build

  /** The `foreach` over a script list: one PowerShell launch per entry, in
      list order, each in `dir`, with the entry verbatim as its arguments. */
  function Runs(scripts: seq<string>, dir: string): (t: seq<Event>)
    ensures |t| == |scripts|
  {
    if scripts == [] then [] else [Run(PowerShell, scripts[0], dir)] + Runs(scripts[1..], dir)
  }

  /** The i-th launch of a run is the i-th script, verbatim, with PowerShell
      in `dir`: one launch per line, in order, none skipped or added. */
  lemma {:induction false} RunsLaunchEachLine(scripts: seq<string>, dir: string)
    ensures |Runs(scripts, dir)| == |scripts|
    ensures forall i :: 0 <= i < |scripts| ==> Runs(scripts, dir)[i] == Run(PowerShell, scripts[i], dir)
  {
    if scripts != [] {
      RunsLaunchEachLine(scripts[1..], dir);
    }
  }

  /** The process launches of a trace, in order; every other event dropped. */
  function Launches(t: seq<Event>): (l: seq<Event>)
    ensures |l| <= |t|
    ensures forall i :: 0 <= i < |l| ==> l[i].Run?
  {
    if t == [] then []
    else if t[0].Run? then [t[0]] + Launches(t[1..])
    else Launches(t[1..])
  }

  /** The part of `t` before the first occurrence of `e` (all of `t` when
      `e` does not occur). */
  function BeforeFirst(t: seq<Event>, e: Event): (p: seq<Event>)
    ensures e !in p
    ensures p <= t
    ensures e in t <==> |p| < |t|
    ensures e in t ==> t[|p|] == e
  {
    if t == [] || t[0] == e then [] else [t[0]] + BeforeFirst(t[1..], e)
  }

  /** The part of `t` after the first occurrence of `e` (empty when `e`
      does not occur). */
  function AfterFirst(t: seq<Event>, e: Event): (s: seq<Event>)
    ensures e in t ==> t == BeforeFirst(t, e) + [e] + s
    ensures e !in t ==> s == []
  {
    if t == [] then [] else if t[0] == e then t[1..] else AfterFirst(t[1..], e)
  }

  /** A run contains nothing but launches. */
  lemma {:induction false} OnlyLaunchesInRuns(e: Event, scripts: seq<string>, dir: string)
    requires !e.Run?
    ensures e !in Runs(scripts, dir)
  {
    if scripts != [] {
      OnlyLaunchesInRuns(e, scripts[1..], dir);
    }
  }

  /** Launches distribute over concatenation. */
  lemma {:induction false} LaunchesAppend(a: seq<Event>, b: seq<Event>)
    ensures Launches(a + b) == Launches(a) + Launches(b)
  {
    if a == [] {
      assert a + b == b;
    } else {
      assert (a + b)[1..] == a[1..] + b;
      LaunchesAppend(a[1..], b);
    }
  }

  /** Two events neither of which is a launch contribute no launches. */
  lemma NoLaunches(a: Event, b: Event)
    requires !a.Run? && !b.Run?
    ensures Launches([a, b]) == []
  {
  }

  /** A run of scripts consists of launches only. */
  lemma {:induction false} LaunchesOfRuns(scripts: seq<string>, dir: string)
    ensures Launches(Runs(scripts, dir)) == Runs(scripts, dir)
  {
    if scripts != [] {
      LaunchesOfRuns(scripts[1..], dir);
    }
  }

  /** Running two lists one after the other is running their concatenation. */
  lemma {:induction false} RunsAppend(a: seq<string>, b: seq<string>, dir: string)
    ensures Runs(a + b, dir) == Runs(a, dir) + Runs(b, dir)
  {
    if a == [] {
      assert a + b == b;
    } else {
      assert (a + b)[1..] == a[1..] + b;
      RunsAppend(a[1..], b, dir);
    }
  }

  /** The launches of a trace give back the scripts that were run: the
      script list can be read off a run trace, so no two lists produce the
      same launches. */
  lemma RunsInjective(a: seq<string>, b: seq<string>, dir: string)
    requires Runs(a, dir) == Runs(b, dir)
    ensures a == b
  {
    RunsLaunchEachLine(a, dir);
    RunsLaunchEachLine(b, dir);
    forall i | 0 <= i < |a|
      ensures a[i] == b[i]
    {
      assert Runs(a, dir)[i] == Run(PowerShell, a[i], dir);
    }
  }

  /** Splitting a trace at the first occurrence of an event that `a` does
      not contain recovers the two sides. */
  lemma {:induction false} SplitAtFirst(a: seq<Event>, e: Event, b: seq<Event>)
    requires e !in a
    ensures BeforeFirst(a + [e] + b, e) == a
    ensures AfterFirst(a + [e] + b, e) == b
  {
    if a != [] {
      assert (a + [e] + b)[1..] == a[1..] + [e] + b;
      SplitAtFirst(a[1..], e, b);
    }
  }
}
