# Build-script hooks for TwinCAT solutions — a Dafny model

The Visual Studio extension adds two menu commands to a solution:

- **Run Scripts** (`RunScripts.Execute`) reads `pre_build_scripts.txt` and
  `post_build_scripts.txt` from the solution directory. It runs every
  pre-build line with `powershell.exe`, cleans and builds the solution, then
  runs every post-build line.
- **Run Post Scripts** (`RunPostScritps.Execute`) reads only
  `post_build_scripts.txt` and runs its lines.

Each handler is modelled as a pure function. It takes an abstract file system
(`map<string, seq<string>>`: a path is present exactly when `File.Exists`
holds for it, and maps to the lines `StreamReader.ReadLine` yields) and the
solution's full path. It returns either the exception it throws or the trace
of what it does. A trace is a sequence of events:

- `ReadFile(path)`: a list file is consulted (existence check, then a read if present).
- `Run(shell, args, workingDir)`: one child process, started and waited for.
- `Clean` and `Build`: `SolutionBuild.Clean(true)` and `SolutionBuild.Build(true)`.

Modules:

- `Results`: the handler outcome, `Ok(trace)` or `Err(ArgumentOutOfRange)`.
- `SolutionPath`: `LastIndexOf`, `Substring` and the solution directory derived from them.
- `ScriptLists`: the file system, the two fixed list-file names and paths, and loading a list.
- `Events`: the event type, the launches of a script list, and the functions that take a trace apart.
- `HookCycle`: the two traces once the lists are loaded, with their shape lemmas.
- `RunScripts` and `RunPostScripts`: the two handlers and the properties stated about them.

Behaviour of the code worth knowing before reading the model:

- List paths are the solution directory, a `\`, and the fixed file name (RunScripts.cs:106, RunScripts.cs:119).
- Both lists are read before the first script runs (RunScripts.cs:105-127 precede RunScripts.cs:129-169).
- The build result is never checked; post-build scripts run whatever the build's outcome (RunScripts.cs:149-169).
- Blank lines are kept as hooks; each runs `powershell.exe` with empty arguments (RunScripts.cs:111-113).

## Model

| member | source | states |
|---|---|---|
| SolutionPath.LastIndexOf | RunScripts.cs:103 | The result is -1 exactly when the path has no backslash. Otherwise it is the index of a backslash with no backslash after it. |
| SolutionPath.Substring | RunScripts.cs:103 | `Substring(start, length)` throws exactly when the range is not inside the string. Otherwise it returns the `length` characters of the string that start at `start`. |
| SolutionPath.SolutionLocation | RunScripts.cs:102-103 | Deriving the directory fails with `ArgumentOutOfRange` exactly when the full path has no backslash. Otherwise the full path is the directory, a backslash, and a remainder with no backslash. |
| SolutionPath.LocationOfJoin | RunScripts.cs:103 | Round trip: the directory derived from `dir + "\" + name`, for a backslash-free name, is `dir`. |
| SolutionPath.JoinOfLocation | RunPostScritps.cs:99-100 | Every accepted full path is its derived directory joined with a backslash-free file name. |
| ScriptLists.ListFilesInSolutionDirectory | RunScripts.cs:106-119 | Both list paths lie directly in the solution directory. Deriving a directory from either one gives the solution directory back. |
| ScriptLists.ListPathsDistinct | RunPostScritps.cs:104 | No pre-build list path equals any post-build list path, whatever the directories. |
| Events.Runs | RunScripts.cs:130-146 | The `foreach` over a list makes exactly as many launches as there are entries. |
| Events.RunsLaunchEachLine | RunScripts.cs:132-145 | Launch i is entry i verbatim, given to `powershell.exe` with the solution directory as working directory. |
| Events.RunsInjective | RunScripts.cs:153-169 | The launches determine the script list: two lists with the same launches are equal. |
| HookCycle.FullCyclePhaseOrder | RunScripts.cs:129-169 | For any loaded lists, the full-cycle trace has exactly one `Clean` and one `Build`, and `Build` directly follows `Clean`. The launches before `Clean` are the pre-build run. Everything after `Build` is the post-build run. |
| HookCycle.FullCycleEmptyPhases | RunScripts.cs:129-169 | For any loaded lists, each phase on its own: an empty pre-build list launches nothing before `Clean`, and an empty post-build list leaves nothing after `Build`. |
| HookCycle.FullCycleReadsFirst | RunScripts.cs:105-130 | For any loaded lists, the two list consultations open the full-cycle trace, pre-build first, and none comes later. |
| HookCycle.FullCycleLaunches | RunScripts.cs:129-169 | For any loaded lists, the full cycle launches the pre-build lines and then the post-build lines. No line is skipped. |
| HookCycle.PostCycleIsFullCycleTail | RunPostScritps.cs:117-134 | For the same post-build list and directory, the post-only cycle launches exactly what follows `Build` in the full cycle. |
| RunScripts.Execute | RunScripts.cs:95-172 | The full-cycle handler fails exactly when the full path has no backslash. The error is the `Substring` exception, and no file is consulted and nothing runs. |
| RunScripts.PhaseOrder | RunScripts.cs:129-169 | `Clean` and `Build` happen exactly once each, and `Build` directly follows `Clean`. The launches before `Clean` are the pre-build list. Everything after `Build` is the post-build list, launches only. |
| RunScripts.ReadsBeforeRuns | RunScripts.cs:105-130 | The first two events consult the pre-build list, then the post-build list. No file is consulted after that, so both lists come from the state before any script ran. |
| RunScripts.EveryLineRuns | RunScripts.cs:129-169 | Nothing is gated: the launches are every pre-build line, then every post-build line, verbatim, with PowerShell, in the solution directory. |
| RunScripts.MissingListsRunNothing | RunScripts.cs:107-127 | When both list files are absent there is no error and no launch. The trace is the two consultations, `Clean`, then `Build`. |
| RunScripts.AbsentListRunsNothing | RunScripts.cs:107-127 | Whatever the other file holds, a missing pre-build list file means no launch before `Clean`. A missing post-build list file means nothing after `Build`. Neither is an error. |
| RunScripts.ReadsOnlyListFiles | RunScripts.cs:105-127 | File systems that agree on the two list files give the same outcome. |
| RunScripts.PreOnlyScenario | RunScripts.cs:105-169 | With pre-build lines `echo A` and `echo B` and no post-build list, the trace runs `echo A`, then `echo B`, then `Clean`, then `Build`. |
| RunPostScripts.Execute | RunPostScritps.cs:92-135 | The post-only handler fails exactly when the full path has no backslash, with the `Substring` exception. |
| RunPostScripts.PostOnlyShape | RunPostScritps.cs:102-134 | The trace consults the post-build list first, then launches each of its lines verbatim with PowerShell in the solution directory. It has no `Clean` or `Build` and never consults the pre-build list. |
| RunPostScripts.MissingListRunsNothing | RunPostScritps.cs:103-115 | An absent post-build list is an empty list, not an error: nothing is launched. |
| RunPostScripts.ReadsOnlyPostList | RunPostScritps.cs:103-115 | File systems that agree on the post-build list file give the same outcome. The pre-build list has no influence. |
| RunPostScripts.PostOnlyIsFullCycleTail | RunPostScritps.cs:117-134 | For the same solution and file system, both commands fail together. Otherwise the post-only launches equal what the full cycle does after `Build`. |
| RunPostScripts.BlankLineScenario | RunPostScritps.cs:109-113 | A blank line is kept as an entry and launches PowerShell with empty arguments, in file order. |

## Left out

- Package and command registration (`CommandId`, `CommandSet`, constructors, `Instance`, `InitializeAsync`, `ServiceProvider`): host UI glue with no behaviour to state.
- UI-thread checks (`ThrowIfNotOnUIThread`, `SwitchToMainThreadAsync`): threading plumbing.
- Fetching the DTE, solution and `SolutionBuild` objects: the full path is an input, and `Clean`/`Build` are opaque events. A null DTE or solution, and the build's own behaviour and result, are not modelled.
- Process spawning: `Process.Start` and `WaitForExit` become one `Run` event. A process that cannot be started throws out of the handler; that exception is not modelled. Exit codes are never read by the code, so there is no input for them. Every launched process is assumed to exit: `WaitForExit()` has no time-out, so a script that never exits blocks the rest of the handler. That includes a blank line, which starts an interactive `powershell.exe`.
- File I/O: `File.Exists` races, read exceptions and text encoding are operating-system behaviour. They are not part of the model.
- Strings: a path is a sequence of Unicode characters, while .NET counts UTF-16 code units. For characters outside the Basic Multilingual Plane, the `SolutionPath.LastIndexOf` and `Substring` indices differ from .NET's, but the derived directory is the same. Paths holding unpaired surrogates, legal in an NTFS name, cannot be represented.
- `StreamReader.ReadLine` splitting on `\r`, `\n` and `\r\n`: a file's content is taken as an already split sequence of lines.
- Script side effects: a script may change files, but both lists are computed from the file system before the first launch. `RunScripts.ReadsBeforeRuns` states the ordering.
