/** The run orchestration of src/extension.ts: settings normalisation, the
    contest and task ids of a problem URL, the run summary, and the two
    commands that run tests ("run all" and "run one") together with the
    exclusive-run flag and the stream of events they send.

    Messages to the webview and VS Code pop-ups are appended to an event
    log. The configuration is an input record. Each process outcome comes
    from an oracle indexed by launch number within the command, and the
    clock advances by the duration of each process that ran. */
module Extension {
  import opened Wrappers
  import opened Text
  import opened Types
  import opened Runner

  /* ---------- settings ---------- */

  /** The `timeoutMs` setting as configured: unset, a number, or a value of
      any other kind (null, a string, ...). */
  datatype RawTimeout = TimeoutUnset | TimeoutNumber(ms: int) | TimeoutOther

  /** The `ac-companion` configuration as read. A `None` string is a setting
      that is not configured; `caseSensitive` is `None` when unset or null. */
  datatype RawConfig = RawConfig(
    language: Option<string>,
    interpreter: Option<string>,
    pythonCommand: Option<string>,
    pypyCommand: Option<string>,
    cppCompileCommand: Option<string>,
    cppRunCommand: Option<string>,
    runCwdMode: Option<string>,
    compareMode: Option<string>,
    caseSensitive: Option<bool>,
    timeoutMs: RawTimeout)

  /** The normalised settings: what the runner reads, and the compare mode. */
  datatype LoadedSettings = LoadedSettings(run: Settings, compareMode: string)

  /** `config.get(key, fallback)`. */
  function Setting(value: Option<string>, fallback: string): string
  {
    if value.Some? then value.value else fallback
  }

  /** `loadSettings`: C++ only for the raw value "cpp"; PyPy only for the
      raw value "pypy" and never with C++; the compare mode is always exact;
      a numeric timeout override or none; case-sensitive unless configured
      otherwise; the commands and the working-directory mode as configured,
      with their defaults when unset. */
  function LoadSettings(config: RawConfig): (r: LoadedSettings)
    ensures r.run.language == Cpp <==> config.language == Some("cpp")
    ensures r.run.interpreter == PyPy <==> r.run.language == Python && config.interpreter == Some("pypy")
    ensures r.compareMode == "exact"
    ensures r.run.timeoutMs.Some? <==> config.timeoutMs.TimeoutNumber?
    ensures r.run.timeoutMs.Some? ==> r.run.timeoutMs.value == config.timeoutMs.ms
    ensures r.run.caseSensitive <==> config.caseSensitive != Some(false)
    ensures config.runCwdMode.None? ==> r.run.runCwdMode == "workspace"
    ensures config.pythonCommand.None? ==> r.run.pythonCommand == "python"
    ensures config.pypyCommand.None? ==> r.run.pypyCommand == "pypy3"
    ensures config.cppCompileCommand.None? ==> r.run.cppCompileCommand == "cpp_compile"
    ensures config.cppRunCommand.None? ==> r.run.cppRunCommand == "cpp_run"
    ensures config.runCwdMode.Some? ==> r.run.runCwdMode == config.runCwdMode.value
    ensures config.pythonCommand.Some? ==> r.run.pythonCommand == config.pythonCommand.value
    ensures config.pypyCommand.Some? ==> r.run.pypyCommand == config.pypyCommand.value
    ensures config.cppCompileCommand.Some? ==> r.run.cppCompileCommand == config.cppCompileCommand.value
    ensures config.cppRunCommand.Some? ==> r.run.cppRunCommand == config.cppRunCommand.value
  {
    var language := if Setting(config.language, "python") == "cpp" then Cpp else Python;
    var interpreter :=
      if language == Cpp then CPython
      else if Setting(config.interpreter, "cpython") == "pypy" then PyPy
      else CPython;
    var timeoutMs := match config.timeoutMs
      case TimeoutNumber(ms) => Some(ms)
      case _ => None;
    var caseSensitive := if config.caseSensitive.Some? then config.caseSensitive.value else true;
    LoadedSettings(
      Settings(
        language, interpreter,
        Setting(config.pythonCommand, "python"),
        Setting(config.pypyCommand, "pypy3"),
        Setting(config.cppCompileCommand, "cpp_compile"),
        Setting(config.cppRunCommand, "cpp_run"),
        Setting(config.runCwdMode, "workspace"),
        timeoutMs, caseSensitive),
      "exact")
  }

  /* ---------- contest and task ids of a URL ---------- */

  /** `v` is the segment right after the first occurrence of `keyword`. */
  ghost predicate FollowsFirst(parts: seq<string>, keyword: string, v: string)
  {
    exists i | 0 <= i < |parts| - 1 :: parts[i] == keyword && keyword !in parts[..i] && v == parts[i + 1]
  }

  /** `keyword` does not occur, or occurs first as the last segment. */
  ghost predicate NothingAfter(parts: seq<string>, keyword: string)
  {
    keyword !in parts || (parts[|parts| - 1] == keyword && keyword !in parts[..|parts| - 1])
  }

  /** The segment right after the first occurrence of `keyword`, if the
      keyword occurs and is not the last segment. */
  function SegmentAfter(parts: seq<string>, keyword: string): (r: Option<string>)
    ensures r.Some? ==> FollowsFirst(parts, keyword, r.value)
    ensures r.None? <==> NothingAfter(parts, keyword)
  {
    var i := IndexOf(parts, keyword);
    if i != -1 && |parts| > i + 1 then
      assert FollowsFirst(parts, keyword, parts[i + 1]);
      Some(parts[i + 1])
    else None
  }

  /** The contest id of a problem URL's path: the segment after the first
      "contests", if any. */
  function GetContestIdFromUrl(pathname: string): (r: Option<string>)
    ensures r.Some? ==> FollowsFirst(Split(pathname, '/'), "contests", r.value)
    ensures r.None? <==> NothingAfter(Split(pathname, '/'), "contests")
  {
    SegmentAfter(Split(pathname, '/'), "contests")
  }

  /** The task id of a problem URL's path: the segment after the first
      "tasks", if any. */
  function GetTaskIdFromUrl(pathname: string): (r: Option<string>)
    ensures r.Some? ==> FollowsFirst(Split(pathname, '/'), "tasks", r.value)
    ensures r.None? <==> NothingAfter(Split(pathname, '/'), "tasks")
  {
    SegmentAfter(Split(pathname, '/'), "tasks")
  }

  /* ---------- run summary ---------- */

  /** The summary sent with a completed run. */
  datatype RunSummary = RunSummary(total: nat, passed: nat, failed: nat, timeouts: nat, res: nat, durationMs: int)

  /** `results.filter((r) => r.status === v)`. */
  function WithStatus(results: seq<RunResult>, v: Verdict): (r: seq<RunResult>)
    ensures |r| <= |results|
    ensures forall j | 0 <= j < |r| :: r[j].status == v && r[j] in results
    ensures forall j | 0 <= j < |results| :: results[j].status == v ==> results[j] in r
  {
    if |results| == 0 then []
    else if results[0].status == v then [results[0]] + WithStatus(results[1..], v)
    else WithStatus(results[1..], v)
  }

  /** The verdicts of `results`, in order. */
  function Statuses(results: seq<RunResult>): (r: seq<Verdict>)
    ensures |r| == |results| && forall j | 0 <= j < |results| :: r[j] == results[j].status
  {
    seq(|results|, j requires 0 <= j < |results| => results[j].status)
  }

  /** `buildRunSummary`: the number of results, the number of each verdict
      among them (as `SummaryCounts` states), and the duration as given. */
  function BuildRunSummary(results: seq<RunResult>, durationMs: int): (r: RunSummary)
    ensures r.total == |results| && r.durationMs == durationMs
  {
    RunSummary(|results|, |WithStatus(results, AC)|, |WithStatus(results, WA)|,
               |WithStatus(results, TLE)|, |WithStatus(results, RE)|, durationMs)
  }

  /** Each count of the summary is the number of times its verdict occurs
      among the results. */
  lemma SummaryCounts(results: seq<RunResult>, durationMs: int)
    ensures var r := BuildRunSummary(results, durationMs);
      && r.passed == multiset(Statuses(results))[AC]
      && r.failed == multiset(Statuses(results))[WA]
      && r.timeouts == multiset(Statuses(results))[TLE]
      && r.res == multiset(Statuses(results))[RE]
  {
    CountIsMultiplicity(results, AC);
    CountIsMultiplicity(results, WA);
    CountIsMultiplicity(results, TLE);
    CountIsMultiplicity(results, RE);
  }

  /** Filtering by a verdict keeps as many results as the verdict occurs. */
  lemma {:induction false} CountIsMultiplicity(results: seq<RunResult>, v: Verdict)
    ensures |WithStatus(results, v)| == multiset(Statuses(results))[v]
  {
    if |results| > 0 {
      CountIsMultiplicity(results[1..], v);
      assert Statuses(results) == [results[0].status] + Statuses(results[1..]);
    }
  }

  /** Every result has exactly one of the four verdicts, so the four counts
      add up to the total. */
  lemma SummaryPartition(results: seq<RunResult>, durationMs: int)
    ensures var r := BuildRunSummary(results, durationMs);
      r.passed + r.failed + r.timeouts + r.res == r.total
  {
    SummaryCounts(results, durationMs);
    VerdictsPartition(Statuses(results));
  }

  lemma {:induction false} VerdictsPartition(vs: seq<Verdict>)
    ensures multiset(vs)[AC] + multiset(vs)[WA] + multiset(vs)[TLE] + multiset(vs)[RE] == |vs|
  {
    if |vs| > 0 {
      VerdictsPartition(vs[1..]);
      assert vs == [vs[0]] + vs[1..];
      var first := multiset{vs[0]};
      assert multiset(vs) == first + multiset(vs[1..]);
      assert first[AC] + first[WA] + first[TLE] + first[RE] == 1 by {
        match vs[0] {
          case AC =>
          case WA =>
          case TLE =>
          case RE =>
        }
      }
    }
  }

  /** A run passed entirely exactly when every result is AC. */
  lemma AllPassed(results: seq<RunResult>, durationMs: int)
    ensures var r := BuildRunSummary(results, durationMs);
      r.passed == r.total <==> forall j | 0 <= j < |results| :: results[j].status == AC
  {
    var vs := Statuses(results);
    SummaryCounts(results, durationMs);
    VerdictsPartition(vs);
    if forall j | 0 <= j < |results| :: results[j].status == AC {
      assert forall j | 0 <= j < |vs| :: vs[j] == AC;
      OnlyVerdict(vs, AC);
    } else {
      var j :| 0 <= j < |results| && results[j].status != AC;
      assert vs[j] in multiset(vs);
      assert multiset(vs)[vs[j]] > 0;
    }
  }

  lemma {:induction false} OnlyVerdict(vs: seq<Verdict>, v: Verdict)
    requires forall j | 0 <= j < |vs| :: vs[j] == v
    ensures multiset(vs)[v] == |vs|
  {
    if |vs| > 0 {
      OnlyVerdict(vs[1..], v);
      assert vs == [vs[0]] + vs[1..];
    }
  }

  /* ---------- events ---------- */

  /** Which command a progress, result or complete event belongs to. */
  datatype Scope = All | One

  datatype Level = Warning | Error

  /** What the extension sends while running tests: webview messages
      (`run/progress`, `run/result`, `run/complete`, `notice`) and VS Code
      pop-up messages. */
  datatype Event =
    | Progress(scope: Scope, running: bool, currentIndex: Option<int>)
    | ResultEvent(scope: Scope, result: RunResult)
    | Complete(scope: Scope, summary: RunSummary)
    | Notice(level: Level, message: string)
    | Popup(level: Level, message: string)

  const NoProblemMessage: string := "No problem loaded for AC Companion."
  const InteractiveMessage: string := "Interactive problems are not supported yet."
  const NoCasesMessage: string := "No test cases available to run."
  const NoWorkspaceMessage: string := "Workspace folder is required to run tests."
  const AlreadyRunningMessage: string := "Already running tests."

  /** The error that ends a command: a notice to the webview and a pop-up. */
  function Aborted(message: string): seq<Event>
  {
    [Notice(Error, message), Popup(Error, message)]
  }

  /** The time a launch takes on the clock: the process's duration, or
      nothing when it could not be started. */
  function Elapsed(outcome: ProcessOutcome): nat
  {
    if outcome.Closed? then outcome.durationMs else 0
  }

  /** The sum of the durations of `results`. */
  function TotalDuration(results: seq<RunResult>): nat
  {
    if |results| == 0 then 0
    else TotalDuration(results[..|results| - 1]) + results[|results| - 1].durationMs
  }

  /** The clock time of the `n` launches numbered from `k` on. */
  function LaunchTime(oracle: nat -> ProcessOutcome, k: nat, n: nat): nat
  {
    if n == 0 then 0 else LaunchTime(oracle, k, n - 1) + Elapsed(oracle(k + n - 1))
  }

  /** One more launch adds its process's time. */
  lemma LaunchTimeStep(oracle: nat -> ProcessOutcome, k: nat, n: nat)
    ensures LaunchTime(oracle, k, n + 1) == LaunchTime(oracle, k, n) + Elapsed(oracle(k + n))
  {
  }

  /* ---------- the per-case loop of "run all" ---------- */

  /** The event at position `j` of the interleaved log: at an even position
      the progress event of case `j / 2`, at an odd one its result. */
  function InterleavedAt(scope: Scope, cases: seq<TestCase>, results: seq<RunResult>, j: nat): Event
    requires j / 2 < |results| <= |cases|
  {
    if j % 2 == 0 then Progress(scope, true, Some(cases[j / 2].index)) else ResultEvent(scope, results[j / 2])
  }

  /** For each result in order, a progress event naming its case, then the
      result event. */
  function Interleaved(scope: Scope, cases: seq<TestCase>, results: seq<RunResult>): seq<Event>
    requires |results| <= |cases|
  {
    seq(2 * |results|, j requires 0 <= j < 2 * |results| => InterleavedAt(scope, cases, results, j))
  }

  /** One more result extends the interleaved log by its case's progress
      event and the result. */
  lemma InterleavedSnoc(scope: Scope, cases: seq<TestCase>, results: seq<RunResult>, r: RunResult)
    requires |results| < |cases|
    ensures Interleaved(scope, cases, results + [r])
      == Interleaved(scope, cases, results)
         + [Progress(scope, true, Some(cases[|results|].index)), ResultEvent(scope, r)]
  {
    var longer, shorter := Interleaved(scope, cases, results + [r]), Interleaved(scope, cases, results);
    var tail := [Progress(scope, true, Some(cases[|results|].index)), ResultEvent(scope, r)];
    forall j | 0 <= j < |longer|
      ensures longer[j] == (shorter + tail)[j]
    {
      if j < |shorter| {
        assert (results + [r])[j / 2] == results[j / 2];
      }
    }
  }

  /** The events of a run of cases: the interleaved progress and result
      events and, when the run stopped at a case, that case's progress
      event. */
  function CaseLog(scope: Scope, cases: seq<TestCase>, t: RunTrace): seq<Event>
    requires |t.results| <= |cases|
  {
    Interleaved(scope, cases, t.results)
      + (if t.error.Some? && |t.results| < |cases| then [Progress(scope, true, Some(cases[|t.results|].index))] else [])
  }

  /** A case log begins with the interleaved events of its results and
      holds only progress and result events. */
  lemma CaseLogShape(scope: Scope, cases: seq<TestCase>, t: RunTrace)
    requires |t.results| <= |cases|
    ensures var log := CaseLog(scope, cases, t);
      && 2 * |t.results| <= |log|
      && (forall j | 0 <= j < 2 * |t.results| :: log[j] == InterleavedAt(scope, cases, t.results, j))
      && forall j | 0 <= j < |log| :: log[j].Progress? || log[j].ResultEvent?
  {
  }

  /** The events of running `cases` with `step` from launch `k` on. */
  function CaseEvents(scope: Scope, step: (TestCase, ProcessOutcome) -> Attempt<RunResult>,
                      oracle: nat -> ProcessOutcome, cases: seq<TestCase>, k: nat): seq<Event>
  {
    CaseTraceLengths(step, oracle, cases, k);
    CaseLog(scope, cases, CaseTrace(step, oracle, cases, k))
  }

  /** The clock time of running `cases` with `step` from launch `k` on:
      the durations of the processes it launched. */
  function CaseTime(step: (TestCase, ProcessOutcome) -> Attempt<RunResult>,
                    oracle: nat -> ProcessOutcome, cases: seq<TestCase>, k: nat): nat
  {
    LaunchTime(oracle, k, |CaseTrace(step, oracle, cases, k).launches|)
  }

  /** When the first cases each launched and passed and the next one did
      not, the run of cases stops there with that case's error: its events
      are those of the passed cases and the progress event of the failing
      one, and its time that of the processes launched, the failing one's
      included if it started. */
  lemma CaseRunStopped(step: (TestCase, ProcessOutcome) -> Attempt<RunResult>, oracle: nat -> ProcessOutcome,
                       cases: seq<TestCase>, k: nat, started: seq<Invocation>, results: seq<RunResult>)
    requires PassedFirst(step, oracle, cases, k, started, results) && |results| < |cases|
    requires ErrorOf(StepAt(step, oracle, cases, k, |results|)).Some?
    ensures var a, t := StepAt(step, oracle, cases, k, |results|), CaseTrace(step, oracle, cases, k);
      && t.results == results && t.error == ErrorOf(a)
      && t.launches == started + (if a.Started? then [a.invocation] else [])
      && CaseEvents(All, step, oracle, cases, k)
           == Interleaved(All, cases, results) + [Progress(All, true, Some(cases[|results|].index))]
      && CaseTime(step, oracle, cases, k)
           == LaunchTime(oracle, k, |results|) + (if a.Started? then Elapsed(oracle(k + |results|)) else 0)
  {
    CaseTraceStopped(step, oracle, cases, k, started, results);
    var a, t := StepAt(step, oracle, cases, k, |results|), CaseTrace(step, oracle, cases, k);
    var progress := Progress(All, true, Some(cases[|results|].index));
    assert t.results == results && t.error.Some?;
    assert CaseEvents(All, step, oracle, cases, k) == CaseLog(All, cases, t);
    assert CaseLog(All, cases, t) == Interleaved(All, cases, t.results) + [progress];
    var n := |results|;
    assert CaseTime(step, oracle, cases, k) == LaunchTime(oracle, k, |t.launches|);
    if a.Started? {
      assert |t.launches| == n + 1;
      LaunchTimeStep(oracle, k, n);
      assert CaseTime(step, oracle, cases, k) == LaunchTime(oracle, k, n) + Elapsed(oracle(k + n));
      assert CaseTime(step, oracle, cases, k)
        == LaunchTime(oracle, k, |results|) + (if a.Started? then Elapsed(oracle(k + |results|)) else 0);
    } else {
      assert |t.launches| == n;
      assert CaseTime(step, oracle, cases, k) == LaunchTime(oracle, k, n);
    }
  }

  /** When every case launched and passed, the run of cases is their
      launches and results without error, its events those of all cases
      and its time that of all their processes. */
  lemma CaseRunFinished(step: (TestCase, ProcessOutcome) -> Attempt<RunResult>, oracle: nat -> ProcessOutcome,
                        cases: seq<TestCase>, k: nat, started: seq<Invocation>, results: seq<RunResult>)
    requires PassedFirst(step, oracle, cases, k, started, results) && |results| == |cases|
    ensures CaseTrace(step, oracle, cases, k) == RunTrace(started, results, None)
    ensures CaseEvents(All, step, oracle, cases, k) == Interleaved(All, cases, results)
    ensures CaseTime(step, oracle, cases, k) == LaunchTime(oracle, k, |cases|)
  {
    CaseTraceAfter(step, oracle, cases, k, started, results);
    assert cases[|results|..] == [];
    assert started + [] == started && results + [] == results;
    var log := Interleaved(All, cases, results);
    assert log + [] == log;
  }

  /** Every result the step produces took as long as its process ran. */
  ghost predicate TimedByProcess(step: (TestCase, ProcessOutcome) -> Attempt<RunResult>)
  {
    forall tc: TestCase, outcome: ProcessOutcome ::
      step(tc, outcome).Started? && step(tc, outcome).result.Success? ==>
        step(tc, outcome).result.value.durationMs == Elapsed(outcome)
  }

  /** The runner's step times each result by its process. */
  lemma CaseStepTimed(p: Problem, s: Settings, workspaceRoot: string, binaryPath: Option<string>, disk: Disk,
                      norm: string -> string)
    ensures TimedByProcess(CaseStep(p, s, workspaceRoot, binaryPath, disk, norm))
  {
    var step := CaseStep(p, s, workspaceRoot, binaryPath, disk, norm);
    forall tc: TestCase, outcome: ProcessOutcome | step(tc, outcome).Started? && step(tc, outcome).result.Success?
      ensures step(tc, outcome).result.value.durationMs == Elapsed(outcome)
    {
      var a := RunTestCase(p, s, workspaceRoot, tc, binaryPath, disk, norm, outcome);
      assert step(tc, outcome) == a;
    }
  }

  /** When every result is timed by its process, the launches of a run of
      cases that ended without error took exactly the durations of its
      results. */
  lemma CaseTimeOfResults(step: (TestCase, ProcessOutcome) -> Attempt<RunResult>,
                          oracle: nat -> ProcessOutcome, cases: seq<TestCase>, k: nat)
    requires TimedByProcess(step)
    ensures CaseTrace(step, oracle, cases, k).error.None? ==>
      CaseTime(step, oracle, cases, k) == TotalDuration(CaseTrace(step, oracle, cases, k).results)
  {
    var t := CaseTrace(step, oracle, cases, k);
    CaseTraceLengths(step, oracle, cases, k);
    CaseTraceResults(step, oracle, cases, k);
    if t.error.None? {
      forall i | 0 <= i < |t.results|
        ensures t.results[i].durationMs == Elapsed(oracle(k + i))
      {
        var a := step(cases[i], oracle(k + i));
        assert a.Started? && a.result == Success(t.results[i]);
      }
      LaunchTimeOfResults(oracle, k, t.results, |t.results|);
      assert t.results[..|t.results|] == t.results;
    }
  }

  lemma {:induction false} LaunchTimeOfResults(oracle: nat -> ProcessOutcome, k: nat, results: seq<RunResult>, n: nat)
    requires n <= |results|
    requires forall i | 0 <= i < |results| :: results[i].durationMs == Elapsed(oracle(k + i))
    ensures LaunchTime(oracle, k, n) == TotalDuration(results[..n])
  {
    if n > 0 {
      LaunchTimeOfResults(oracle, k, results, n - 1);
      assert results[..n][..n - 1] == results[..n - 1];
    }
  }

  /* ---------- the commands ---------- */

  /** What a command does: the events it sends, the processes it launches
      and the clock time those take. */
  datatype Effect = Effect(events: seq<Event>, launches: seq<Invocation>, elapsed: nat)

  /** A workspace folder is open (a path that is not empty). */
  predicate HasWorkspace(workspace: Option<string>)
  {
    workspace.Some? && workspace.value != ""
  }

  /** The guards of `handleRunAllTests`, in order: the pop-up that ends the
      command early, if any. */
  function RunAllBlocked(problem: Option<Problem>, isRunning: bool, workspace: Option<string>): Option<Event>
  {
    if problem.None? then Some(Popup(Warning, NoProblemMessage))
    else if problem.value.interactive then Some(Popup(Warning, InteractiveMessage))
    else if |problem.value.cases| == 0 then Some(Popup(Warning, NoCasesMessage))
    else if !HasWorkspace(workspace) then Some(Popup(Error, NoWorkspaceMessage))
    else if isRunning then Some(Popup(Warning, AlreadyRunningMessage))
    else None
  }

  /** The build produced a binary, or none was needed. */
  predicate BuildOk(s: Settings, built: Attempt<string>)
  {
    s.language != Cpp || (built.Started? && built.result.Success?)
  }

  /** The process the build launched, if any. */
  function BuildLaunches(s: Settings, built: Attempt<string>): seq<Invocation>
  {
    if s.language == Cpp && built.Started? then [built.invocation] else []
  }

  /** The clock time the build took. */
  function BuildElapsed(s: Settings, built: Attempt<string>, oracle: nat -> ProcessOutcome): nat
  {
    if s.language == Cpp && built.Started? then Elapsed(oracle(0)) else 0
  }

  /** How a run of cases ends: with the summary of its results over the
      time measured, or with its error. */
  function Ending(scope: Scope, t: RunTrace, durationMs: nat): seq<Event>
  {
    match t.error
    case Some(e) => Aborted(e)
    case None => [Complete(scope, BuildRunSummary(t.results, durationMs))]
  }

  /** "Run all" once its guards passed, for a build outcome and a step that
      runs one case: a progress event, the build, the cases in order, the
      ending, and a closing progress event. The time measured for the
      summary starts after the build. */
  function RunAllWith(s: Settings, built: Attempt<string>, oracle: nat -> ProcessOutcome,
                      step: (TestCase, ProcessOutcome) -> Attempt<RunResult>, cases: seq<TestCase>, k: nat): Effect
  {
    var start, stop := [Progress(All, true, None)], [Progress(All, false, None)];
    if !BuildOk(s, built) then
      Effect(start + (Aborted(ErrorOf(built).value) + stop), BuildLaunches(s, built), BuildElapsed(s, built, oracle))
    else
      var t := CaseTrace(step, oracle, cases, k);
      var caseTime := CaseTime(step, oracle, cases, k);
      Effect(start + (CaseEvents(All, step, oracle, cases, k) + (Ending(All, t, caseTime) + stop)),
             BuildLaunches(s, built) + t.launches, BuildElapsed(s, built, oracle) + caseTime)
  }

  /** "Run all" with the runner's own step, given the outcome of the C++
      build. */
  function RunAllEffect(p: Problem, s: Settings, workspaceRoot: string, disk: Disk, norm: string -> string,
                        oracle: nat -> ProcessOutcome, built: Attempt<string>): Effect
  {
    RunAllWith(s, built, oracle, CaseStep(p, s, workspaceRoot, BinaryFor(s, built), disk, norm), p.cases, FirstCaseLaunch(s))
  }

  /** `handleRunAllTests`: a blocked command only shows its pop-up. */
  function HandleRunAllEffect(problem: Option<Problem>, isRunning: bool, workspace: Option<string>, config: RawConfig,
                              disk: Disk, norm: string -> string, oracle: nat -> ProcessOutcome): Effect
  {
    match RunAllBlocked(problem, isRunning, workspace)
    case Some(popup) => Effect([popup], [], 0)
    case None =>
      var s := LoadSettings(config).run;
      RunAllEffect(problem.value, s, workspace.value, disk, norm, oracle,
                   CompileCppBinary(problem.value, s, workspace.value, disk, oracle(0)))
  }

  /** The first case with the given index (`cases.find`). */
  function FindCase(cases: seq<TestCase>, index: int): (r: Option<TestCase>)
    ensures r.None? <==> forall j | 0 <= j < |cases| :: cases[j].index != index
    ensures r.Some? ==> exists j | 0 <= j < |cases| ::
      cases[j] == r.value && r.value.index == index && forall j' | 0 <= j' < j :: cases[j'].index != index
  {
    if |cases| == 0 then None
    else if cases[0].index == index then Some(cases[0])
    else
      var r := FindCase(cases[1..], index);
      if r.Some? then
        var j :| 0 <= j < |cases[1..]| && cases[1..][j] == r.value && r.value.index == index
          && forall j' | 0 <= j' < j :: cases[1..][j'].index != index;
        assert cases[j + 1] == r.value;
        r
      else r
  }

  /** The pop-up shown for an index no case has. */
  function NotFoundMessage(index: int): string
  {
    "Test case #" + IntToString(index) + " not found."
  }

  /** The guards of `runSingleTestByIndex`, in order: the pop-up that ends
      the command early, if any. */
  function RunOneBlocked(problem: Option<Problem>, isRunning: bool, index: int, workspace: Option<string>): Option<Event>
  {
    if problem.None? then Some(Popup(Warning, NoProblemMessage))
    else if isRunning then Some(Popup(Warning, AlreadyRunningMessage))
    else if problem.value.interactive then Some(Popup(Warning, InteractiveMessage))
    else if |problem.value.cases| == 0 then Some(Popup(Warning, NoCasesMessage))
    else if FindCase(problem.value.cases, index).None? then Some(Popup(Error, NotFoundMessage(index)))
    else if !HasWorkspace(workspace) then Some(Popup(Error, NoWorkspaceMessage))
    else None
  }

  /** "Run one" once its guards passed, for a build outcome and the attempt
      at the case on `outcome`: a progress event naming the case, the build,
      the case, its result and a summary of that one result over the time
      after the build (or the error), and a closing progress event. */
  function RunOneWith(index: int, s: Settings, built: Attempt<string>, oracle: nat -> ProcessOutcome,
                      attempt: Attempt<RunResult>, outcome: ProcessOutcome): Effect
  {
    var start, stop := [Progress(One, true, Some(index))], [Progress(One, false, None)];
    if !BuildOk(s, built) then
      Effect(start + (Aborted(ErrorOf(built).value) + stop), BuildLaunches(s, built), BuildElapsed(s, built, oracle))
    else
      match attempt
      case NotStarted(e) =>
        Effect(start + (Aborted(e) + stop), BuildLaunches(s, built), BuildElapsed(s, built, oracle))
      case Started(inv, Failure(e)) =>
        Effect(start + (Aborted(e) + stop), BuildLaunches(s, built) + [inv], BuildElapsed(s, built, oracle) + Elapsed(outcome))
      case Started(inv, Success(r)) =>
        Effect(start + ([ResultEvent(One, r), Complete(One, BuildRunSummary([r], Elapsed(outcome)))] + stop),
               BuildLaunches(s, built) + [inv], BuildElapsed(s, built, oracle) + Elapsed(outcome))
  }

  /** "Run one" with the runner's own case run, given the outcome of the
      C++ build: the case runs on the launch after the build. */
  function RunOneEffect(p: Problem, s: Settings, workspaceRoot: string, tc: TestCase, index: int, disk: Disk,
                        norm: string -> string, oracle: nat -> ProcessOutcome, built: Attempt<string>): Effect
  {
    var outcome := oracle(FirstCaseLaunch(s));
    RunOneWith(index, s, built, oracle, RunTestCase(p, s, workspaceRoot, tc, BinaryFor(s, built), disk, norm, outcome), outcome)
  }

  /** `runSingleTestByIndex`: a blocked command only shows its pop-up. */
  function RunSingleEffect(problem: Option<Problem>, isRunning: bool, index: int, workspace: Option<string>,
                           config: RawConfig, disk: Disk, norm: string -> string, oracle: nat -> ProcessOutcome): Effect
  {
    match RunOneBlocked(problem, isRunning, index, workspace)
    case Some(popup) => Effect([popup], [], 0)
    case None =>
      var s := LoadSettings(config).run;
      RunOneEffect(problem.value, s, workspace.value, FindCase(problem.value.cases, index).value, index, disk, norm,
                   oracle, CompileCppBinary(problem.value, s, workspace.value, disk, oracle(0)))
  }

  /* ---------- properties of the commands ---------- */

  /** "Run all" launches exactly what `runAllTests` launches on the same
      step: the build first for C++, then each case reached, in order. */
  lemma RunAllWithLaunches(s: Settings, built: Attempt<string>, oracle: nat -> ProcessOutcome,
                           step: (TestCase, ProcessOutcome) -> Attempt<RunResult>, cases: seq<TestCase>, k: nat)
    ensures RunAllWith(s, built, oracle, step, cases, k).launches
      == WithBuild(s, built, CaseTrace(step, oracle, cases, k)).launches
  {
    var t := CaseTrace(step, oracle, cases, k);
    if s.language != Cpp {
      assert [] + t.launches == t.launches;
    }
  }

  /** Hence "run all" launches exactly what `runAllTests` launches. */
  lemma RunAllLaunchesAsRunner(p: Problem, s: Settings, workspaceRoot: string, disk: Disk, norm: string -> string,
                               oracle: nat -> ProcessOutcome, built: Attempt<string>)
    ensures RunAllEffect(p, s, workspaceRoot, disk, norm, oracle, built).launches
      == RunTraceOf(p, s, workspaceRoot, disk, norm, oracle, built).launches
  {
    RunAllWithLaunches(s, built, oracle, CaseStep(p, s, workspaceRoot, BinaryFor(s, built), disk, norm), p.cases,
                       FirstCaseLaunch(s));
  }

  /** The events "run all" sends between its opening progress event and its
      ending: those of the cases when the build succeeded, none otherwise. */
  function RunAllLog(s: Settings, built: Attempt<string>, oracle: nat -> ProcessOutcome,
                     step: (TestCase, ProcessOutcome) -> Attempt<RunResult>, cases: seq<TestCase>, k: nat): seq<Event>
  {
    if BuildOk(s, built) then CaseEvents(All, step, oracle, cases, k) else []
  }

  /** The events of "run all" are an opening progress event, the case log,
      the ending of the whole run (a failed build ends it with the build's
      error) and a closing progress event. */
  lemma RunAllWithShape(s: Settings, built: Attempt<string>, oracle: nat -> ProcessOutcome,
                        step: (TestCase, ProcessOutcome) -> Attempt<RunResult>, cases: seq<TestCase>, k: nat)
    ensures RunAllWith(s, built, oracle, step, cases, k).events
      == [Progress(All, true, None)]
         + (RunAllLog(s, built, oracle, step, cases, k)
            + (Ending(All, WithBuild(s, built, CaseTrace(step, oracle, cases, k)), CaseTime(step, oracle, cases, k))
               + [Progress(All, false, None)]))
  {
    if BuildOk(s, built) {
      BuiltPart(s, built, CaseTrace(step, oracle, cases, k));
    }
  }

  /** A log of progress and result events between an opening progress
      event and a final event just before the closing progress event:
      that final event is the only one that can complete or notify. */
  lemma CompletedLog(e: seq<Event>, log: seq<Event>, final: Event)
    requires e == [Progress(All, true, None)] + (log + ([final] + [Progress(All, false, None)]))
    requires forall j | 0 <= j < |log| :: log[j].Progress? || log[j].ResultEvent?
    ensures |e| >= 3 && e[0] == Progress(All, true, None) && e[|e| - 1] == Progress(All, false, None)
    ensures e[|e| - 2] == final && forall j | 0 <= j < |e| - 2 :: !e[j].Complete? && !e[j].Notice?
  {
    forall j | 0 < j < |e| - 2
      ensures e[j] == log[j - 1]
    {
      assert e[j] == (log + ([final] + [Progress(All, false, None)]))[j - 1];
    }
  }

  /** A log of progress and result events aborted with an error, between
      the opening and the closing progress events, holds no complete
      event. */
  lemma AbortedLog(e: seq<Event>, log: seq<Event>, error: string)
    requires e == [Progress(All, true, None)] + (log + (Aborted(error) + [Progress(All, false, None)]))
    requires forall j | 0 <= j < |log| :: log[j].Progress? || log[j].ResultEvent?
    ensures |e| >= 3 && e[0] == Progress(All, true, None) && e[|e| - 1] == Progress(All, false, None)
    ensures e[|e| - 3] == Notice(Error, error) && e[|e| - 2] == Popup(Error, error)
    ensures forall j | 0 <= j < |e| :: !e[j].Complete?
  {
    forall j | 0 < j < |e| - 3
      ensures e[j] == log[j - 1]
    {
      assert e[j] == (log + (Aborted(error) + [Progress(All, false, None)]))[j - 1];
    }
  }

  /** "Run all" opens with a progress event and closes with one; just
      before the close comes exactly one complete event when the run had no
      error, and otherwise the error's notice and pop-up, with no complete
      event anywhere. */
  lemma RunAllWithBracketed(s: Settings, built: Attempt<string>, oracle: nat -> ProcessOutcome,
                            step: (TestCase, ProcessOutcome) -> Attempt<RunResult>, cases: seq<TestCase>, k: nat)
    ensures var e := RunAllWith(s, built, oracle, step, cases, k).events;
      var t := WithBuild(s, built, CaseTrace(step, oracle, cases, k));
      && |e| >= 3
      && e[0] == Progress(All, true, None) && e[|e| - 1] == Progress(All, false, None)
      && (t.error.None? ==>
            e[|e| - 2] == Complete(All, BuildRunSummary(t.results, CaseTime(step, oracle, cases, k)))
            && forall j | 0 <= j < |e| - 2 :: !e[j].Complete? && !e[j].Notice?)
      && (t.error.Some? ==>
            e[|e| - 3] == Notice(Error, t.error.value) && e[|e| - 2] == Popup(Error, t.error.value)
            && forall j | 0 <= j < |e| :: !e[j].Complete?)
  {
    var e := RunAllWith(s, built, oracle, step, cases, k).events;
    var t := WithBuild(s, built, CaseTrace(step, oracle, cases, k));
    var log := RunAllLog(s, built, oracle, step, cases, k);
    RunAllWithShape(s, built, oracle, step, cases, k);
    if BuildOk(s, built) {
      CaseTraceLengths(step, oracle, cases, k);
      CaseLogShape(All, cases, CaseTrace(step, oracle, cases, k));
    }
    match t.error
    case None =>
      CompletedLog(e, log, Complete(All, BuildRunSummary(t.results, CaseTime(step, oracle, cases, k))));
    case Some(error) =>
      AbortedLog(e, log, error);
  }

  /** A log that opens with one event and then the interleaved events of
      `results` holds, right after the opening, each case's progress event
      followed by its result. */
  lemma OpensWithInterleaved(e: seq<Event>, log: seq<Event>, rest: seq<Event>, cases: seq<TestCase>,
                             results: seq<RunResult>)
    requires |e| > 0 && e[1..] == log + rest
    requires |results| <= |cases| && 2 * |results| <= |log|
    requires forall j | 0 <= j < 2 * |results| :: log[j] == InterleavedAt(All, cases, results, j)
    ensures forall i | 0 <= i < |results| ::
      e[1 + 2 * i] == Progress(All, true, Some(cases[i].index)) && e[2 + 2 * i] == ResultEvent(All, results[i])
  {
    forall i | 0 <= i < |results|
      ensures e[1 + 2 * i] == Progress(All, true, Some(cases[i].index)) && e[2 + 2 * i] == ResultEvent(All, results[i])
    {
      assert e[1 + 2 * i] == e[1..][2 * i] == log[2 * i];
      assert e[2 + 2 * i] == e[1..][2 * i + 1] == log[2 * i + 1];
    }
  }

  /** "Run all" sends, for each case reached in list order, a progress
      event naming the case and then that case's result, right after the
      opening progress event. */
  lemma RunAllWithFollowsCases(s: Settings, built: Attempt<string>, oracle: nat -> ProcessOutcome,
                               step: (TestCase, ProcessOutcome) -> Attempt<RunResult>, cases: seq<TestCase>, k: nat)
    ensures var e := RunAllWith(s, built, oracle, step, cases, k).events;
      var t := WithBuild(s, built, CaseTrace(step, oracle, cases, k));
      && |t.results| <= |cases|
      && |e| > 2 * |t.results| + 1
      && forall i | 0 <= i < |t.results| ::
           e[1 + 2 * i] == Progress(All, true, Some(cases[i].index)) && e[2 + 2 * i] == ResultEvent(All, t.results[i])
  {
    var e := RunAllWith(s, built, oracle, step, cases, k).events;
    var ct := CaseTrace(step, oracle, cases, k);
    var t := WithBuild(s, built, ct);
    var log := RunAllLog(s, built, oracle, step, cases, k);
    var rest := Ending(All, t, CaseTime(step, oracle, cases, k)) + [Progress(All, false, None)];
    RunAllWithShape(s, built, oracle, step, cases, k);
    assert e[1..] == log + rest;
    CaseTraceLengths(step, oracle, cases, k);
    if BuildOk(s, built) {
      BuiltPart(s, built, ct);
      CaseLogShape(All, cases, ct);
      OpensWithInterleaved(e, log, rest, cases, t.results);
    }
  }

  /** A "run all" that ends without error completes with a summary of one
      result per case whose duration is the time the cases took, the build
      excluded; the clock advanced by the build and that duration. */
  lemma RunAllWithSummary(s: Settings, built: Attempt<string>, oracle: nat -> ProcessOutcome,
                          step: (TestCase, ProcessOutcome) -> Attempt<RunResult>, cases: seq<TestCase>, k: nat)
    requires TimedByProcess(step)
    ensures var eff := RunAllWith(s, built, oracle, step, cases, k);
      var t := WithBuild(s, built, CaseTrace(step, oracle, cases, k));
      t.error.None? ==>
        && |t.results| == |cases|
        && |eff.events| >= 2
        && eff.events[|eff.events| - 2] == Complete(All, BuildRunSummary(t.results, TotalDuration(t.results)))
        && eff.elapsed == BuildElapsed(s, built, oracle) + TotalDuration(t.results)
  {
    RunAllWithBracketed(s, built, oracle, step, cases, k);
    CaseTraceLengths(step, oracle, cases, k);
    CaseTimeOfResults(step, oracle, cases, k);
  }

  /** A blocked "run all" shows one pop-up and launches nothing; an
      unblocked one opens with its progress event. */
  lemma RunAllGuards(problem: Option<Problem>, isRunning: bool, workspace: Option<string>, config: RawConfig,
                     disk: Disk, norm: string -> string, oracle: nat -> ProcessOutcome)
    ensures var eff := HandleRunAllEffect(problem, isRunning, workspace, config, disk, norm, oracle);
      && (RunAllBlocked(problem, isRunning, workspace).Some? <==>
            problem.None? || problem.value.interactive || |problem.value.cases| == 0 || !HasWorkspace(workspace) || isRunning)
      && (RunAllBlocked(problem, isRunning, workspace).Some? ==>
            eff.events == [RunAllBlocked(problem, isRunning, workspace).value] && eff.launches == [] && eff.elapsed == 0)
      && (RunAllBlocked(problem, isRunning, workspace).None? ==> |eff.events| > 0 && eff.events[0] == Progress(All, true, None))
  {
  }

  /** An index that no case has ends "run one" with the not-found pop-up,
      before any build or launch. */
  lemma RunOneNotFound(problem: Option<Problem>, index: int, workspace: Option<string>, config: RawConfig,
                       disk: Disk, norm: string -> string, oracle: nat -> ProcessOutcome)
    requires problem.Some? && !problem.value.interactive && |problem.value.cases| > 0
    requires forall j | 0 <= j < |problem.value.cases| :: problem.value.cases[j].index != index
    ensures RunSingleEffect(problem, false, index, workspace, config, disk, norm, oracle)
      == Effect([Popup(Error, NotFoundMessage(index))], [], 0)
  {
  }

  /** "Run one" opens with a progress event naming the index and closes
      with one. A case that produced a result sends exactly that result and
      a summary with a total of one, passed exactly when the result is AC,
      timed by the case's own process and not the build. Otherwise the
      notice and pop-up of the build's error, or else of the case's, come
      before the close, with no result and no complete event. */
  lemma RunOneWithOutcome(index: int, s: Settings, built: Attempt<string>, oracle: nat -> ProcessOutcome,
                          attempt: Attempt<RunResult>, outcome: ProcessOutcome)
    requires attempt.Started? && attempt.result.Success? ==> attempt.result.value.durationMs == Elapsed(outcome)
    ensures var e := RunOneWith(index, s, built, oracle, attempt, outcome).events;
      && |e| == 4
      && e[0] == Progress(One, true, Some(index)) && e[3] == Progress(One, false, None)
      && (BuildOk(s, built) && attempt.Started? && attempt.result.Success? ==>
            var r := attempt.result.value;
            && e[1] == ResultEvent(One, r)
            && e[2].Complete? && e[2].summary == BuildRunSummary([r], r.durationMs)
            && e[2].summary.total == 1
            && (e[2].summary.passed == 1 <==> r.status == AC))
      && (!BuildOk(s, built) ==>
            e[1] == Notice(Error, ErrorOf(built).value) && e[2] == Popup(Error, ErrorOf(built).value))
      && (BuildOk(s, built) && ErrorOf(attempt).Some? ==>
            e[1] == Notice(Error, ErrorOf(attempt).value) && e[2] == Popup(Error, ErrorOf(attempt).value))
  {
    if BuildOk(s, built) && attempt.Started? && attempt.result.Success? {
      var r := attempt.result.value;
      AllPassed([r], r.durationMs);
    }
  }

  /** "Run one" launches the build (when one was started) and then, once
      the build succeeded, the case's process if it started. */
  lemma RunOneWithLaunches(index: int, s: Settings, built: Attempt<string>, oracle: nat -> ProcessOutcome,
                           attempt: Attempt<RunResult>, outcome: ProcessOutcome)
    ensures RunOneWith(index, s, built, oracle, attempt, outcome).launches
      == BuildLaunches(s, built) + (if BuildOk(s, built) && attempt.Started? then [attempt.invocation] else [])
  {
    assert BuildLaunches(s, built) + [] == BuildLaunches(s, built);
  }

  /** An unblocked `runSingleTestByIndex` launches, for C++, the build
      first; then, once the build succeeded, exactly the found case's own
      invocation when its files are in place, and nothing else. The case
      found has the index asked for. */
  lemma RunSingleLaunches(problem: Option<Problem>, isRunning: bool, index: int, workspace: Option<string>,
                          config: RawConfig, disk: Disk, norm: string -> string, oracle: nat -> ProcessOutcome)
    requires RunOneBlocked(problem, isRunning, index, workspace).None?
    ensures var p, root, s := problem.value, workspace.value, LoadSettings(config).run;
      var tc := FindCase(p.cases, index).value;
      var built := CompileCppBinary(p, s, root, disk, oracle(0));
      var a := RunTestCase(p, s, root, tc, BinaryFor(s, built), disk, norm, oracle(FirstCaseLaunch(s)));
      && tc.index == index
      && RunSingleEffect(problem, isRunning, index, workspace, config, disk, norm, oracle).launches
           == (if s.language == Cpp && built.Started? then [CompileInvocation(p, s, root)] else [])
              + (if BuildOk(s, built) && a.Started? then [CaseInvocation(p, s, root, tc, disk)] else [])
  {
    var p, root, s := problem.value, workspace.value, LoadSettings(config).run;
    var tc := FindCase(p.cases, index).value;
    var built := CompileCppBinary(p, s, root, disk, oracle(0));
    var outcome := oracle(FirstCaseLaunch(s));
    var a := RunTestCase(p, s, root, tc, BinaryFor(s, built), disk, norm, outcome);
    RunOneWithLaunches(index, s, built, oracle, a, outcome);
  }

  /** The runner's own case run times its result by its process and
      reports the case's index. */
  lemma CaseRunTimed(p: Problem, s: Settings, workspaceRoot: string, tc: TestCase, binaryPath: Option<string>,
                     disk: Disk, norm: string -> string, outcome: ProcessOutcome)
    ensures var a := RunTestCase(p, s, workspaceRoot, tc, binaryPath, disk, norm, outcome);
      a.Started? && a.result.Success? ==> a.result.value.durationMs == Elapsed(outcome) && a.result.value.index == tc.index
  {
  }

  /* ---------- the extension state ---------- */

  /** The extension's state while it serves test runs: the loaded problem,
      the exclusive-run flag, and what it has sent, launched and spent so
      far. */
  class Companion {
    var currentProblem: Option<Problem>
    var isRunning: bool
    var events: seq<Event>
    var launches: seq<Invocation>
    var clock: nat

    constructor(problem: Option<Problem>)
      ensures currentProblem == problem && !isRunning
      ensures events == [] && launches == [] && clock == 0
    {
      currentProblem := problem;
      isRunning := false;
      events, launches, clock := [], [], 0;
    }

    /** The loop of `handleRunAllTests`: for each case in order, a progress
        event, the case's launch and its result event; the first error
        stops the loop. Runs while the flag is held. */
    method RunCaseLoop(step: (TestCase, ProcessOutcome) -> Attempt<RunResult>, oracle: nat -> ProcessOutcome,
                       cases: seq<TestCase>, k: nat)
      returns (results: seq<RunResult>, error: Option<string>)
      requires isRunning
      modifies this
      ensures isRunning && currentProblem == old(currentProblem)
      ensures results == CaseTrace(step, oracle, cases, k).results && error == CaseTrace(step, oracle, cases, k).error
      ensures launches == old(launches) + CaseTrace(step, oracle, cases, k).launches
      ensures events == old(events) + CaseEvents(All, step, oracle, cases, k)
      ensures clock == old(clock) + CaseTime(step, oracle, cases, k)
    {
      results, error := [], None;
      var sent, started, time := [], [], 0;
      var i := 0;
      while i < |cases|
        invariant 0 <= i <= |cases| && |results| == i && |started| == i
        invariant unchanged(this)
        invariant sent == Interleaved(All, cases, results)
        invariant time == LaunchTime(oracle, k, i)
        invariant PassedFirst(step, oracle, cases, k, started, results)
      {
        var progress := Progress(All, true, Some(cases[i].index));
        var outcome := oracle(k + i);
        match StepAt(step, oracle, cases, k, i) {
          case NotStarted(e) =>
            CaseRunStopped(step, oracle, cases, k, started, results);
            events, launches, clock := events + (sent + [progress]), launches + started, clock + time;
            error := Some(e);
            return;
          case Started(inv, Failure(e)) =>
            CaseRunStopped(step, oracle, cases, k, started, results);
            events, launches, clock := events + (sent + [progress]), launches + (started + [inv]), clock + (time + Elapsed(outcome));
            error := Some(e);
            return;
          case Started(inv, Success(r)) =>
            InterleavedSnoc(All, cases, results, r);
            sent, started, time := sent + [progress, ResultEvent(All, r)], started + [inv], time + Elapsed(outcome);
            results := results + [r];
        }
        i := i + 1;
      }
      CaseRunFinished(step, oracle, cases, k, started, results);
      events, launches, clock := events + sent, launches + started, clock + time;
    }

    /** `handleRunAllTests` after its guards: takes the flag, registers the
        C++ build, runs the cases in order, completes with the time measured
        from the end of the build or reports the first error, then releases
        the flag. */
    method RunAll(s: Settings, built: Attempt<string>, oracle: nat -> ProcessOutcome,
                  step: (TestCase, ProcessOutcome) -> Attempt<RunResult>, cases: seq<TestCase>, k: nat)
      requires !isRunning
      modifies this
      ensures !isRunning && currentProblem == old(currentProblem)
      ensures var eff := RunAllWith(s, built, oracle, step, cases, k);
        events == old(events) + eff.events && launches == old(launches) + eff.launches && clock == old(clock) + eff.elapsed
    {
      var start, stop := [Progress(All, true, None)], [Progress(All, false, None)];
      isRunning, events := true, events + start;
      if s.language == Cpp && built.Started? {
        launches, clock := launches + [built.invocation], clock + Elapsed(oracle(0));
      } else {
        assert launches + [] == launches;
      }
      var ending;
      if !BuildOk(s, built) {
        ending := Aborted(ErrorOf(built).value);
        AppendAssoc(old(events), start, ending);
        AppendAssoc(old(events), start + ending, stop);
        AppendAssoc(start, ending, stop);
      } else {
        var runStartAt := clock;
        ghost var before := launches;
        var results, error := RunCaseLoop(step, oracle, cases, k);
        if error.Some? {
          ending := Aborted(error.value);
        } else {
          ending := [Complete(All, BuildRunSummary(results, clock - runStartAt))];
        }
        ghost var log := CaseEvents(All, step, oracle, cases, k);
        AppendAssoc(old(events), start, log);
        AppendAssoc(old(events), start + log, ending);
        AppendAssoc(old(events), start + log + ending, stop);
        AppendAssoc(start, log, ending);
        AppendAssoc(start + log, ending, stop);
        AppendAssoc(start, log + ending, stop);
        AppendAssoc(log, ending, stop);
        AppendAssoc(old(launches), BuildLaunches(s, built), CaseTrace(step, oracle, cases, k).launches);
      }
      isRunning, events := false, events + ending + stop;
    }

    /** `handleRunAllTests`: checks its guards in order, showing the first
        that fails as a pop-up, and otherwise loads the settings and runs
        all cases. */
    method HandleRunAllTests(workspace: Option<string>, config: RawConfig, disk: Disk, norm: string -> string,
                             oracle: nat -> ProcessOutcome)
      modifies this
      ensures isRunning == old(isRunning) && currentProblem == old(currentProblem)
      ensures var eff := HandleRunAllEffect(old(currentProblem), old(isRunning), workspace, config, disk, norm, oracle);
        events == old(events) + eff.events && launches == old(launches) + eff.launches && clock == old(clock) + eff.elapsed
    {
      var blocked := RunAllBlocked(currentProblem, isRunning, workspace);
      if blocked.Some? {
        events := events + [blocked.value];
        assert launches + [] == launches;
        return;
      }
      var p, root := currentProblem.value, workspace.value;
      var s := LoadSettings(config).run;
      var built := CompileCppBinary(p, s, root, disk, oracle(0));
      RunAll(s, built, oracle, CaseStep(p, s, root, BinaryFor(s, built), disk, norm), p.cases, FirstCaseLaunch(s));
    }

    /** `runSingleTestByIndex` after its guards: takes the flag, registers
        the C++ build, runs the case, sends its result and a summary timed
        from the end of the build or reports the error, then releases the
        flag. */
    method RunOne(index: int, s: Settings, built: Attempt<string>, oracle: nat -> ProcessOutcome,
                  attempt: Attempt<RunResult>, outcome: ProcessOutcome)
      requires !isRunning
      modifies this
      ensures !isRunning && currentProblem == old(currentProblem)
      ensures var eff := RunOneWith(index, s, built, oracle, attempt, outcome);
        events == old(events) + eff.events && launches == old(launches) + eff.launches && clock == old(clock) + eff.elapsed
    {
      var start, stop := [Progress(One, true, Some(index))], [Progress(One, false, None)];
      isRunning, events := true, events + start;
      if s.language == Cpp && built.Started? {
        launches, clock := launches + [built.invocation], clock + Elapsed(oracle(0));
      } else {
        assert launches + [] == launches;
      }
      var middle: seq<Event>;
      if !BuildOk(s, built) {
        middle := Aborted(ErrorOf(built).value);
      } else {
        var runStartAt := clock;
        match attempt {
          case NotStarted(e) =>
            middle := Aborted(e);
          case Started(inv, Failure(e)) =>
            AppendAssoc(old(launches), BuildLaunches(s, built), [inv]);
            launches, clock := launches + [inv], clock + Elapsed(outcome);
            middle := Aborted(e);
          case Started(inv, Success(r)) =>
            AppendAssoc(old(launches), BuildLaunches(s, built), [inv]);
            launches, clock := launches + [inv], clock + Elapsed(outcome);
            middle := [ResultEvent(One, r), Complete(One, BuildRunSummary([r], clock - runStartAt))];
        }
      }
      AppendAssoc(old(events), start, middle);
      AppendAssoc(old(events), start + middle, stop);
      AppendAssoc(start, middle, stop);
      isRunning, events := false, events + middle + stop;
    }

    /** `runSingleTestByIndex`: checks its guards in order, showing the
        first that fails as a pop-up, and otherwise loads the settings and
        runs the case with the given index. */
    method RunSingleTestByIndex(index: int, workspace: Option<string>, config: RawConfig, disk: Disk,
                                norm: string -> string, oracle: nat -> ProcessOutcome)
      modifies this
      ensures isRunning == old(isRunning) && currentProblem == old(currentProblem)
      ensures var eff := RunSingleEffect(old(currentProblem), old(isRunning), index, workspace, config, disk, norm, oracle);
        events == old(events) + eff.events && launches == old(launches) + eff.launches && clock == old(clock) + eff.elapsed
    {
      var blocked := RunOneBlocked(currentProblem, isRunning, index, workspace);
      if blocked.Some? {
        events := events + [blocked.value];
        assert launches + [] == launches;
        return;
      }
      var p, root := currentProblem.value, workspace.value;
      var tc := FindCase(p.cases, index).value;
      var s := LoadSettings(config).run;
      var built := CompileCppBinary(p, s, root, disk, oracle(0));
      var outcome := oracle(FirstCaseLaunch(s));
      RunOne(index, s, built, oracle, RunTestCase(p, s, root, tc, BinaryFor(s, built), disk, norm, outcome), outcome);
    }
  }
}
