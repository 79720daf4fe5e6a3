# AC Companion test-run engine in Dafny

This project models the test-run engine of the AC Companion VS Code
extension. The extension runs a competitive-programming solution against a
problem's sample cases and reports a verdict per case.

- `types.dfy`, `wrappers.dfy`: the problem, test case, settings and result
  records, plus `Option` and `Result`.
- `text.dfy`: the JavaScript string operations the engine relies on
  (`split`, `join`, `trim`, `includes`, `indexOf`, ASCII `toLowerCase`,
  number-to-string).
- `paths.dfy` (module `Paths`): `src/core/pathUtils.ts` over a segment model
  of POSIX `path.join`, `path.isAbsolute` and `path.relative`.
- `judge.dfy` (module `Judge`): the per-case rules of
  `src/core/testRunner.ts`. These are the timeout, the working directory,
  output comparison, PyPy warning filtering and the verdict order
  TLE > RE > AC/WA.
- `runner.dfy` (module `Runner`): the rest of `src/core/testRunner.ts`.
  - Locating the solution and reading a case's files.
  - One Python or C++ case.
  - The three outcomes of the C++ build.
  - `runAllTests`: a specification function `RunAllTrace` and a method with
    a loop proved against it.
- `extension.dfy` (module `Extension`): the run orchestration of
  `src/extension.ts`.
  - `loadSettings`, the URL id extractors and `buildRunSummary`.
  - The two run commands, as methods of the class `Companion`. The class
    holds the exclusive-run flag `isRunning`, an append-only log of sent
    events, the processes launched and a clock.

A child process is never run. Each launch is recorded as an `Invocation`
(command, arguments, working directory, environment, stdin, deadline). Its
observable outcome is drawn from an oracle `nat -> ProcessOutcome`, indexed
by launch number within one command. For C++, launch 0 is the build and the
cases follow from launch 1. The outcome is a launch error, or a close with a
timed-out flag, an exit code, stdout, stderr and a duration. The file system
is a `Disk` snapshot. The clock advances by each launched process's
duration.

Each command is specified by a function of its inputs: `RunAllWith` /
`HandleRunAllEffect` and `RunOneWith` / `RunSingleEffect`. Each gives the
events, launches and elapsed time. The methods of `Companion` are proved to
append exactly that. The lemmas then state the promised properties of those
functions:

- the guards;
- the progress → result order per case;
- exactly one complete event, or the error notice and pop-up;
- the duration that excludes the build;
- the summary counts.

Where the code departs from the extension's documented design, the model
follows the code:

- Results are sent in case-list order, not sorted by index.
- The build's diagnostic text is trimmed, not kept verbatim.
- "Run all" and "run one" also refuse to start without a workspace folder.
- "Run one" checks the flag before the interactive and no-case guards.

## Model

| member | source | states |
|---|---|---|
| Judge.CompareOutputs | src/core/testRunner.ts:54-63 | case-sensitive: a match exactly when the two strings are identical; otherwise exactly when they have the same length and agree at every position after lowercasing |
| Judge.ExactMatchIgnoringCase | src/core/testRunner.ts:59-62 | whatever matches exactly also matches when case is ignored |
| Judge.CaseOnlyDifference | src/core/testRunner.ts:59-62 | any two different outputs that are equal once lowercased match case-insensitively and do not match case-sensitively |
| Judge.ComputeTimeout | src/core/testRunner.ts:68-76 | never below 1; a numeric override wins, clamped to 1; otherwise the least integer not below 6/5 of the time limit (bounded from both sides), clamped to 1 |
| Judge.TaskDir | src/core/testRunner.ts:12-14 | the task directory's segments are those of workspace, contest id and task id in order, absolute exactly when the workspace is |
| Judge.ResolveCwd | src/core/testRunner.ts:81-90 | the task directory exactly when the mode is "task", the workspace root for every other mode |
| Judge.WarningFree | src/core/testRunner.ts:46 | kept lines never mention the warning and come from the input; every line without the warning is kept |
| Judge.WarningFreeIdentity | src/core/testRunner.ts:46 | lines none of which mention the warning are kept unchanged and in order |
| Judge.WarningFreeAppend | src/core/testRunner.ts:46 | filtering the lines of two parts is filtering each part in turn, so the kept lines keep their order and multiplicity |
| Judge.WarningFreeLine | src/core/testRunner.ts:46 | one line is kept exactly when it does not mention the warning |
| Judge.WarningIsOneLine | src/core/testRunner.ts:10 | the warning text is non-empty and holds no line break |
| Judge.FilterConsoleOutput | src/core/testRunner.ts:43-49 | the trimmed join of the warning-free lines of stderr, as `WarningFreeAppend` and `WarningFreeLine` characterise them; the result never contains the warning, and stderr without the warning is only trimmed |
| Judge.VerdictOf | src/core/testRunner.ts:146-160 | TLE exactly when timed out; RE exactly when not timed out and the exit code is not 0; AC / WA exactly when exit 0 and the normalised outputs match / do not match |
| Paths.Join | src/core/pathUtils.ts:17 | a join normalises to the surviving segments of all parts in order, absolute exactly when the first non-empty part is, and is never empty |
| Paths.TwoParts | src/core/pathUtils.ts:17 | joining two parts gives the segments of both, absolute when the first part is (or it is empty and the second is) |
| Paths.ThreeParts | src/core/pathUtils.ts:27 | joining three parts gives the segments of all three in order, absolute when the non-empty first part is |
| Paths.ChildSegments | src/core/testRunner.ts:23 | a file name joined below a directory extends its segments by that one name |
| Paths.RelativeOfDescendant | src/core/testRunner.ts:235 | a path below a directory is reached from it by its remaining segments |
| Paths.ResolveContestBasePath | src/core/pathUtils.ts:6-18 | the trimmed base directory as is when absolute; the workspace when it is empty or "."; otherwise the workspace's segments followed by the base directory's |
| Paths.ContestBaseIgnoresWhitespace | src/core/pathUtils.ts:10 | surrounding whitespace in the base directory never changes the result |
| Paths.ResolveTaskDir | src/core/pathUtils.ts:20-28 | the contest root's segments followed by contest id and task id, of the same kind as the contest root |
| Paths.ResolveTestsDir | src/core/pathUtils.ts:30-44 | the tests directory always lies inside the task directory: same kind, the task directory's segments followed by the tests directory's |
| Runner.SolutionPath | src/core/testRunner.ts:21-23 | `main.py` or `main.cpp` directly below workspace/contest/task |
| Runner.BinaryPath | src/core/testRunner.ts:197 | `a.out` directly below workspace/contest/task |
| Runner.EnsureSolutionFile | src/core/testRunner.ts:16-28 | succeeds exactly when the solution path exists, with that path, and otherwise fails naming the path |
| Runner.ReadTestCaseIO | src/core/testRunner.ts:30-38 | succeeds exactly when the input is a file; the expected output is the output file's text, or empty when it is not a file; a missing input gives the read error |
| Runner.RunPythonTestCase | src/core/testRunner.ts:95-171 | no launch exactly when the solution or input file is missing, with the solution-not-found message or else the input's read error; the launch uses the chosen interpreter, the solution path, the configured directory, the input and the computed deadline; a launch error is the case's error; a closed process is judged on the normalised outputs, timed by the process, with the warning filtered out of stderr |
| Runner.RunCppTestCase | src/core/testRunner.ts:219-299 | no launch exactly when the solution, the binary (default `a.out`) or the input is missing, with the solution-not-found message, else the binary-not-found message, else the input's read error; the launch uses the run command (default `cpp_run`) with contest, task and the relative input path in the task directory; a closed process is judged with stderr trimmed |
| Runner.CppInputBelowTaskDir | src/core/testRunner.ts:234-236 | an input file inside the task directory is passed by its path relative to it |
| Runner.SameVerdictInBothRuntimes | src/core/testRunner.ts:275-288 | a closed process gets the same verdict from the Python and the C++ runner |
| Runner.CompileFailureKeepsDiagnostics | src/core/testRunner.ts:198-203 | the failure message is exactly "C++ compilation failed.", followed by a line break and the compiler stderr only when that is not empty, and gives the stderr back unchanged |
| Runner.CompileCppBinary | src/core/testRunner.ts:173-213 | no launch exactly when the solution is missing; the build command on contest and task in the workspace; a non-zero exit fails with exactly the header, then a line break and the trimmed compiler stderr when there is any; exit 0 fails exactly when `a.out` is missing, naming it; otherwise `a.out`'s path |
| Runner.RunTestCase | src/core/testRunner.ts:311-334 | a case that launched had its input file and used the language's invocation; its result is a failure exactly on a launch error, otherwise judged as that runtime judges |
| Runner.CaseTraceLengths | src/core/testRunner.ts:313-322 | a run of cases stops short only with an error, which is that of the case it stopped at; no error means every case launched and has a result |
| Runner.CaseTraceLaunches | src/core/testRunner.ts:313-322 | the i-th launch is the i-th case's, on the outcome numbered k + i |
| Runner.CaseTraceResults | src/core/testRunner.ts:326-334 | the i-th result is the i-th case's, on the outcome numbered k + i |
| Runner.CaseStepResults | src/core/testRunner.ts:326-334 | with the runner's step, each result is its case's judgement on its own launch; all cases have results exactly when no error occurred |
| Runner.CaseStepLaunches | src/core/testRunner.ts:313-322 | with the runner's step, one launch per case reached, in order, with the case's own invocation |
| Runner.CppRunBuildsFirst | src/core/testRunner.ts:311-312 | for C++ the first launch is the build and happens exactly once; a failed build runs no case and ends the run with its error |
| Runner.AfterSuccessfulBuild | src/core/testRunner.ts:312-323 | after a successful build the run is the build's launch followed by the cases' run |
| Runner.BuiltPart | src/core/testRunner.ts:311-335 | once built (or for Python), the whole run has the cases' results and error, with their launches after the build's |
| Runner.CasePart | src/core/testRunner.ts:311-335 | the same for `runAllTests` with the runner's step and the built binary |
| Runner.RunAllResultsFollowCases | src/core/testRunner.ts:305-336 | `runAllTests` yields one result per case in case order, each carrying its case's index and judged on its own launch; all present exactly when no error occurred |
| Runner.RunAllLaunchesFollowCases | src/core/testRunner.ts:305-336 | `runAllTests` launches each case reached in order after the build, every case when no error occurred |
| Runner.CaseTraceFrom | src/core/testRunner.ts:313-322 | the run from case i on is case i's attempt followed, when it passed, by the run from case i + 1 |
| Runner.CaseTraceAfter | src/core/testRunner.ts:326-334 | when the first cases passed, the run is their launches and results followed by the run of the rest |
| Runner.CaseTraceStopped | src/core/testRunner.ts:326-334 | when the first cases passed and the next failed, the run ends there with that case's error and launch |
| Runner.RunCases | src/core/testRunner.ts:326-334 | the loop over the cases yields exactly the launches, results and error of the run of the cases |
| Runner.RunAllTests | src/core/testRunner.ts:305-336 | `runAllTests` resolves with all results or rejects with the first error, and its launches are exactly those of `RunAllTrace` |
| Extension.LoadSettings | src/extension.ts:534-580 | C++ exactly for the raw "cpp"; PyPy exactly for raw "pypy" with Python; compare mode always "exact"; a timeout exactly when numeric; case-sensitive unless configured false; each command and the working-directory mode as configured, or its default when unset |
| Extension.SegmentAfter | src/extension.ts:514-519 | the segment right after the first occurrence of the keyword; none exactly when the keyword is absent or first occurs last |
| Extension.GetContestIdFromUrl | src/extension.ts:513-520 | the segment after the first "contests"; none exactly when absent or last |
| Extension.GetTaskIdFromUrl | src/extension.ts:522-529 | the segment after the first "tasks"; none exactly when absent or last |
| Extension.WithStatus | src/extension.ts:626-629 | the filter keeps only results of the verdict, and every result of the verdict |
| Extension.BuildRunSummary | src/extension.ts:625-638 | the total is the number of results and the duration is passed through |
| Extension.SummaryCounts | src/extension.ts:626-629 | passed, failed, timeouts and res are the multiplicities of AC, WA, TLE and RE among the results |
| Extension.SummaryPartition | src/extension.ts:625-638 | the four counts add up to the total |
| Extension.AllPassed | src/extension.ts:626-631 | everything passed exactly when every result is AC |
| Extension.InterleavedSnoc | src/extension.ts:337-357 | one more passed case extends the log by its progress event and its result |
| Extension.CaseLogShape | src/extension.ts:337-357 | the case log begins with each case's progress then result, and holds only progress and result events |
| Extension.CaseRunStopped | src/extension.ts:337-364 | a run of cases stopped at a failing case sent the passed cases' events and the failing case's progress, and spent the time of the processes it launched |
| Extension.CaseRunFinished | src/extension.ts:337-358 | a run of cases that all passed sent each case's progress and result and spent the time of all their processes |
| Extension.CaseStepTimed | src/core/testRunner.ts:137-168 | the runner times each result by its own process |
| Extension.CaseTimeOfResults | src/extension.ts:330-358 | a run of cases without error took exactly the sum of its results' durations |
| Extension.FindCase | src/extension.ts:442 | none exactly when no case has the index; otherwise the first case with it |
| Extension.RunAllWithLaunches | src/extension.ts:328-357 | "run all" launches exactly what `runAllTests` launches: the build, then each case reached |
| Extension.RunAllLaunchesAsRunner | src/extension.ts:328-357 | the same for the runner's own step |
| Extension.RunAllWithShape | src/extension.ts:316-368 | "run all" sends an opening progress event, the cases' events, the ending, then a closing progress event |
| Extension.RunAllWithBracketed | src/extension.ts:316-368 | opens and closes with progress events; without error exactly one complete event, just before the close; with an error its notice and pop-up there and no complete event at all |
| Extension.RunAllWithFollowsCases | src/extension.ts:337-357 | for each case reached in list order, a progress event naming it and then its result, right after the opening |
| Extension.RunAllWithSummary | src/extension.ts:330-358 | a run without error completes with one result per case and a duration equal to the cases' time, the build excluded |
| Extension.RunAllGuards | src/extension.ts:286-316 | blocked exactly when there is no problem, it is interactive, it has no case, there is no workspace, or a run is in flight; a blocked command shows one pop-up and launches nothing; otherwise it opens with progress |
| Extension.RunOneNotFound | src/extension.ts:442-446 | an index no case has shows the not-found pop-up, with no build and no launch |
| Extension.RunOneWithOutcome | src/extension.ts:455-499 | exactly four events, opening and closing with progress events; a result gives exactly one result event and a complete event with total 1, passed exactly when AC, timed without the build; otherwise the notice and pop-up carry the build's error, or else the case's |
| Extension.RunOneWithLaunches | src/extension.ts:461-481 | "run one" launches the started build, then the case's process once the build succeeded, and nothing else |
| Extension.RunSingleLaunches | src/extension.ts:442-481 | an unblocked `runSingleTestByIndex` launches the C++ build first, then exactly the found case's own invocation, and the case found has the requested index |
| Extension.CaseRunTimed | src/core/testRunner.ts:162-168 | a case's result carries its index and its process's duration |
| Extension.Companion.RunCaseLoop | src/extension.ts:337-357 | the per-case loop appends the cases' events, launches and time, and returns their results and first error, with the flag held throughout |
| Extension.Companion.RunAll | src/extension.ts:317-368 | appends exactly the "run all" effect and releases the flag on every path |
| Extension.Companion.HandleRunAllTests | src/extension.ts:286-369 | appends exactly the `handleRunAllTests` effect and leaves the flag as it found it |
| Extension.Companion.RunOne | src/extension.ts:456-499 | appends exactly the "run one" effect and releases the flag on every path |
| Extension.Companion.RunSingleTestByIndex | src/extension.ts:418-500 | appends exactly the `runSingleTestByIndex` effect and leaves the flag as it found it |

## Left out

- Child processes are not modelled. This covers `spawn`, streaming stdin/stdout/stderr, the deadline timer and `SIGKILL`, and `Date.now()`. A launch is an `Invocation`; its outcome comes from an oracle, including whether the deadline fired and the measured duration.
- The clock advances only by process durations, so time spent between processes is taken to be zero.
- `normalizeLineEndings` is not part of this model. It is the parameter `norm`, and no property of it is assumed.
- The file system is one `Disk` snapshot for a whole command. Files that change while a run is in progress are not modelled.
- File reads that fail for other reasons, such as permissions, are not modelled.
- Other VS Code API effects are not modelled: output-channel lines, `showInputBox` in `handleRunOneTest`, and webview posting beyond the event log.
- The HTTP ingestion server, test-file writing, templates, `switchRuntime` and the React UI are outside the core.
- `problemState` is not part of this model. The current problem is a field of `Companion`.
- Only the settings the engine reads are modelled: port, tests directory name and template paths are not.
- A setting configured with a value of the wrong type, other than a non-numeric timeout, is not modelled.
- Judge.ComputeTimeout: uses integers. `Math.ceil(timeLimit * 1.2)` over IEEE doubles is modelled as `(6 * timeLimit + 4) / 5`. Non-integer, NaN or infinite time limits and overrides are not modelled.
- Judge.CompareOutputs: `toLowerCase` is ASCII-only here. Unicode case mapping is not modelled.
- Paths.Join: `..` segments are kept, not collapsed, and a trailing separator is dropped where Node keeps it (`join("/ws", "contests/")` is `/ws/contests` here, `/ws/contests/` in Node). Paths.ResolveContestBasePath, Paths.ResolveTaskDir and Paths.ResolveTestsDir inherit this, so their results are stated at the level of segments. Windows path semantics are not modelled either.
- Paths.Relative: a pair of one absolute and one relative path is compared segment by segment, not resolved against the current directory as Node does; only a path below the other (`RelativeOfDescendant`) is characterised.
- Runner.CompileCppBinary: the build has no deadline in the source, so the timed-out flag and the duration of its outcome play no part in its result.
- Extension.Companion.RunAll: concurrency is not modelled. A second command that arrives while a run is in flight is the `isRunning` guard at entry; the guard's effect is stated and proved, but interleaved `await`s are not.
- Extension.Companion.RunCaseLoop: events, launches and time are collected in local variables and written to the object when the loop exits. The order of what is sent is the same as in the source.
- Extension.Companion.RunOne: the case's attempt and its process outcome are parameters, and `RunSingleTestByIndex` supplies them from `RunTestCase`.
- The run-all lemmas in `Extension` (`RunAllWithShape`, `RunAllWithBracketed`, `RunAllWithFollowsCases`, `RunAllWithSummary`) hold for any step and any build outcome. They apply to the runner's own step through `RunAllEffect`.
- A thrown value that is not an `Error` falls back to "Failed to run tests." in the source. Every error in this model carries a message, so that fallback is not modelled.
