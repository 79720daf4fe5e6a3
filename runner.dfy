/** The test runner of src/core/testRunner.ts: locating the solution, reading
    a case's files, launching the solution (Python) or the compiled binary
    (C++) on one case, building a C++ solution once, and running every case
    of a problem in order.

    A launched child process is not modelled: each launch is recorded as an
    `Invocation` and its observable outcome is supplied as a `ProcessOutcome`.
    A run of several cases draws the outcome of its k-th launch from
    `oracle(k)`. The file system is a `Disk` snapshot, and the line-ending
    normalisation helper is the parameter `norm`. */
module Runner {
  import opened Wrappers
  import opened Text
  import opened Paths
  import opened Types
  import opened Judge

  /* ---------- environment ---------- */

  /** The file system as seen during a run: the contents of each file and
      the set of directories. */
  datatype Disk = Disk(files: map<string, string>, dirs: set<string>)

  /** `fs.existsSync(p)`. */
  predicate PathExists(disk: Disk, p: string)
  {
    p in disk.files || p in disk.dirs
  }

  /** A request to launch a child process. `workspaceDirEnv` is the value
      given to WORKSPACE_DIR on top of the inherited environment, `stdin`
      the text written to the child's standard input, `timeoutMs` the
      deadline after which it is killed. */
  datatype Invocation = Invocation(
    command: string,
    args: seq<string>,
    cwd: string,
    workspaceDirEnv: Option<string>,
    stdin: Option<string>,
    timeoutMs: Option<int>)

  /** What a launch produces: the process could not be started, or it
      closed with an exit code (`None` when killed by a signal) after
      writing `stdout` and `stderr`; `timedOut` records that the deadline
      fired first, `durationMs` the time from launch to close. */
  datatype ProcessOutcome =
    | LaunchError(message: string)
    | Closed(timedOut: bool, exitCode: Option<int>, stdout: string, stderr: string, durationMs: nat)

  /** One step that may launch a process: it either failed before launching
      (`NotStarted`), or launched `invocation` and then produced a value or
      an error. */
  datatype Attempt<T> = NotStarted(error: string) | Started(invocation: Invocation, result: Result<T>)

  /* ---------- solution and case files ---------- */

  function SolutionFileName(language: Language): string
  {
    if language == Cpp then "main.cpp" else "main.py"
  }

  /** Where the solution lives: `<workspace>/<contest>/<task>/main.py` or
      `main.cpp`. */
  function SolutionPath(workspaceRoot: string, p: Problem, language: Language): (r: string)
    ensures Normalize(r).segments
      == Segments(workspaceRoot) + (Segments(p.contestId) + Segments(p.taskId)) + [SolutionFileName(language)]
  {
    var dir := TaskDir(workspaceRoot, p.contestId, p.taskId);
    ChildSegments(dir, SolutionFileName(language));
    Join([dir, SolutionFileName(language)])
  }

  /** Where the compiled C++ binary is expected: `a.out` beside the solution. */
  function BinaryPath(workspaceRoot: string, p: Problem): (r: string)
    ensures Normalize(r).segments == Segments(workspaceRoot) + (Segments(p.contestId) + Segments(p.taskId)) + ["a.out"]
  {
    var dir := TaskDir(workspaceRoot, p.contestId, p.taskId);
    ChildSegments(dir, "a.out");
    Join([dir, "a.out"])
  }

  /** The solution file must exist; its path is returned, and otherwise the
      error names the path that was looked for. */
  function EnsureSolutionFile(workspaceRoot: string, p: Problem, language: Language, disk: Disk): (r: Result<string>)
    ensures r.Success? <==> PathExists(disk, SolutionPath(workspaceRoot, p, language))
    ensures r.Success? ==> r.value == SolutionPath(workspaceRoot, p, language)
    ensures r.Failure? ==> r.error == "Solution file not found at " + SolutionPath(workspaceRoot, p, language)
  {
    var path := SolutionPath(workspaceRoot, p, language);
    if PathExists(disk, path) then Success(path) else Failure("Solution file not found at " + path)
  }

  /** The message `fs.readFileSync` throws for a path that is not a file. */
  function ReadError(path: string, disk: Disk): string
  {
    if path in disk.dirs then "EISDIR: illegal operation on a directory, read"
    else "ENOENT: no such file or directory, open '" + path + "'"
  }

  /** The expected output of a case: the output file when it is a file, and
      the empty text when it is missing. */
  function ExpectedOf(tc: TestCase, disk: Disk): string
  {
    if tc.outputPath in disk.files then disk.files[tc.outputPath] else ""
  }

  /** Reads a case's input (which must be a file) and expected output (which
      may be absent). */
  function ReadTestCaseIO(tc: TestCase, disk: Disk): (r: Result<(string, string)>)
    ensures r.Success? <==> tc.inputPath in disk.files
    ensures r.Success? ==> r.value == (disk.files[tc.inputPath], ExpectedOf(tc, disk))
    ensures r.Failure? ==> r.error == ReadError(tc.inputPath, disk)
  {
    if tc.inputPath in disk.files then Success((disk.files[tc.inputPath], ExpectedOf(tc, disk)))
    else Failure(ReadError(tc.inputPath, disk))
  }

  /* ---------- one case ---------- */

  /** The console text a runtime shows for the normalised stderr: C++
      trims it, Python also drops the PyPy warning lines. */
  function ConsoleOf(language: Language, stderr: string): string
  {
    if language == Cpp then Trim(stderr) else FilterConsoleOutput(stderr)
  }

  /** The result a closed process yields for a case: its index, the verdict
      on the normalised outputs, the measured duration, the normalised
      stdout and the runtime's console text. */
  predicate Reports(r: RunResult, tc: TestCase, outcome: ProcessOutcome, expected: string,
                    caseSensitive: bool, norm: string -> string, language: Language)
  {
    outcome.Closed?
    && r.index == tc.index
    && r.status == VerdictOf(outcome.timedOut, outcome.exitCode, norm(expected), norm(outcome.stdout), caseSensitive)
    && r.durationMs == outcome.durationMs
    && r.actual == norm(outcome.stdout)
    && r.console == ConsoleOf(language, norm(outcome.stderr))
  }

  function PythonCommand(s: Settings): string
  {
    if s.interpreter == PyPy then s.pypyCommand else s.pythonCommand
  }

  /** How a Python case is launched: the chosen interpreter on the solution
      path, in the configured working directory, with the input on stdin. */
  function PythonInvocation(p: Problem, s: Settings, workspaceRoot: string, input: string): Invocation
  {
    Invocation(
      PythonCommand(s),
      [SolutionPath(workspaceRoot, p, Python)],
      ResolveCwd(s.runCwdMode, workspaceRoot, p.contestId, p.taskId),
      None,
      Some(input),
      Some(ComputeTimeout(p.timeLimit, s.timeoutMs)))
  }

  /** Runs one case with the Python interpreter. It fails before launching
      when the solution or the input file is missing; a launch error is the
      case's error; otherwise the case is judged, with the PyPy warning
      filtered out of stderr. */
  function RunPythonTestCase(p: Problem, s: Settings, workspaceRoot: string, tc: TestCase, disk: Disk,
                             norm: string -> string, outcome: ProcessOutcome): (a: Attempt<RunResult>)
    ensures a.NotStarted? <==> !PathExists(disk, SolutionPath(workspaceRoot, p, Python)) || tc.inputPath !in disk.files
    ensures a.NotStarted? && !PathExists(disk, SolutionPath(workspaceRoot, p, Python)) ==>
      a.error == "Solution file not found at " + SolutionPath(workspaceRoot, p, Python)
    ensures a.NotStarted? && PathExists(disk, SolutionPath(workspaceRoot, p, Python)) ==>
      a.error == ReadError(tc.inputPath, disk)
    ensures a.Started? ==> a.invocation == PythonInvocation(p, s, workspaceRoot, disk.files[tc.inputPath])
    ensures a.Started? ==> (a.result.Failure? <==> outcome.LaunchError?)
    ensures a.Started? && outcome.LaunchError? ==> a.result.error == outcome.message
    ensures a.Started? && a.result.Success? ==>
      Reports(a.result.value, tc, outcome, ExpectedOf(tc, disk), s.caseSensitive, norm, Python)
  {
    match EnsureSolutionFile(workspaceRoot, p, Python, disk)
    case Failure(e) => NotStarted(e)
    case Success(_) =>
      match ReadTestCaseIO(tc, disk)
      case Failure(e) => NotStarted(e)
      case Success((input, expected)) =>
        var inv := PythonInvocation(p, s, workspaceRoot, input);
        match outcome
        case LaunchError(m) => Started(inv, Failure(m))
        case Closed(timedOut, code, stdout, stderr, durationMs) =>
          var actual := norm(stdout);
          var status := VerdictOf(timedOut, code, norm(expected), actual, s.caseSensitive);
          Started(inv, Success(RunResult(tc.index, status, durationMs, actual, FilterConsoleOutput(norm(stderr)))))
  }

  function RunCommand(s: Settings): string
  {
    if s.cppRunCommand == "" then "cpp_run" else s.cppRunCommand
  }

  /** How a C++ case is launched: the run command with the contest id, the
      task id and the input path relative to the task directory, inside the
      task directory, without anything on stdin. */
  function CppRunInvocation(p: Problem, s: Settings, workspaceRoot: string, tc: TestCase): Invocation
  {
    var taskDir := TaskDir(workspaceRoot, p.contestId, p.taskId);
    Invocation(
      RunCommand(s),
      [p.contestId, p.taskId, Relative(taskDir, tc.inputPath)],
      taskDir,
      Some(workspaceRoot),
      None,
      Some(ComputeTimeout(p.timeLimit, s.timeoutMs)))
  }

  /** Runs one case with a compiled binary (`a.out` beside the solution when
      none is given). It fails before launching when the solution, the
      binary or the input file is missing; otherwise the case is judged,
      with stderr trimmed. */
  function RunCppTestCase(p: Problem, s: Settings, workspaceRoot: string, tc: TestCase, binaryPath: Option<string>,
                          disk: Disk, norm: string -> string, outcome: ProcessOutcome): (a: Attempt<RunResult>)
    ensures var binary := if binaryPath.Some? then binaryPath.value else BinaryPath(workspaceRoot, p);
      a.NotStarted? <==> !PathExists(disk, SolutionPath(workspaceRoot, p, Cpp)) || !PathExists(disk, binary)
                         || tc.inputPath !in disk.files
    ensures var binary := if binaryPath.Some? then binaryPath.value else BinaryPath(workspaceRoot, p);
      a.NotStarted? && PathExists(disk, SolutionPath(workspaceRoot, p, Cpp)) && !PathExists(disk, binary) ==>
        a.error == "C++ binary not found at " + binary
    ensures !PathExists(disk, SolutionPath(workspaceRoot, p, Cpp)) ==>
      a.NotStarted? && a.error == "Solution file not found at " + SolutionPath(workspaceRoot, p, Cpp)
    ensures var binary := if binaryPath.Some? then binaryPath.value else BinaryPath(workspaceRoot, p);
      a.NotStarted? && PathExists(disk, SolutionPath(workspaceRoot, p, Cpp)) && PathExists(disk, binary) ==>
        a.error == ReadError(tc.inputPath, disk)
    ensures a.Started? ==> a.invocation == CppRunInvocation(p, s, workspaceRoot, tc)
    ensures a.Started? ==> (a.result.Failure? <==> outcome.LaunchError?)
    ensures a.Started? && outcome.LaunchError? ==> a.result.error == outcome.message
    ensures a.Started? && a.result.Success? ==>
      Reports(a.result.value, tc, outcome, ExpectedOf(tc, disk), s.caseSensitive, norm, Cpp)
  {
    match EnsureSolutionFile(workspaceRoot, p, Cpp, disk)
    case Failure(e) => NotStarted(e)
    case Success(_) =>
      var binary := if binaryPath.Some? then binaryPath.value else BinaryPath(workspaceRoot, p);
      if !PathExists(disk, binary) then NotStarted("C++ binary not found at " + binary)
      else
        match ReadTestCaseIO(tc, disk)
        case Failure(e) => NotStarted(e)
        case Success((_, expected)) =>
          var inv := CppRunInvocation(p, s, workspaceRoot, tc);
          match outcome
          case LaunchError(m) => Started(inv, Failure(m))
          case Closed(timedOut, code, stdout, stderr, durationMs) =>
            var actual := norm(stdout);
            var status := VerdictOf(timedOut, code, norm(expected), actual, s.caseSensitive);
            Started(inv, Success(RunResult(tc.index, status, durationMs, actual, Trim(norm(stderr)))))
  }

  /** A C++ case whose input file lies below the task directory is run on
      the path of the input inside that directory. */
  lemma CppInputBelowTaskDir(p: Problem, s: Settings, workspaceRoot: string, tc: TestCase, rest: seq<string>)
    requires Segments(tc.inputPath)
      == Segments(workspaceRoot) + (Segments(p.contestId) + Segments(p.taskId)) + rest
    ensures CppRunInvocation(p, s, workspaceRoot, tc).args
      == [p.contestId, p.taskId, JoinWith(rest, '/')]
  {
    RelativeOfDescendant(TaskDir(workspaceRoot, p.contestId, p.taskId), tc.inputPath, rest);
  }

  /** Both runtimes judge a closed process the same way. */
  lemma SameVerdictInBothRuntimes(p: Problem, s: Settings, workspaceRoot: string, tc: TestCase, binaryPath: Option<string>,
                                  disk: Disk, norm: string -> string, outcome: ProcessOutcome)
    requires RunPythonTestCase(p, s, workspaceRoot, tc, disk, norm, outcome).Started?
    requires RunCppTestCase(p, s, workspaceRoot, tc, binaryPath, disk, norm, outcome).Started?
    ensures var py := RunPythonTestCase(p, s, workspaceRoot, tc, disk, norm, outcome).result;
            var cpp := RunCppTestCase(p, s, workspaceRoot, tc, binaryPath, disk, norm, outcome).result;
            py.Success? == cpp.Success? && (py.Success? ==> py.value.status == cpp.value.status)
  {
  }

  /* ---------- building a C++ solution ---------- */

  const CompileFailedHeader: string := "C++ compilation failed."

  /** The error of a failed build: the fixed header, followed on its own
      lines by the compiler's trimmed stderr when there is any. */
  function CompileFailureMessage(stderr: string): (r: string)
  {
    JoinWith([CompileFailedHeader] + (if stderr != "" then [stderr] else []), '\n')
  }

  /** The compiler diagnostics carried by a build failure message. */
  function DiagnosticsOf(message: string): (r: string)
  {
    if |message| > |CompileFailedHeader| + 1 then message[|CompileFailedHeader| + 1..] else ""
  }

  /** A build failure message starts with the header and gives the
      compiler's stderr back unchanged. */
  lemma CompileFailureKeepsDiagnostics(stderr: string)
    ensures CompileFailureMessage(stderr) == CompileFailedHeader + (if stderr == "" then "" else "\n" + stderr)
    ensures |CompileFailureMessage(stderr)| >= |CompileFailedHeader|
    ensures CompileFailureMessage(stderr)[..|CompileFailedHeader|] == CompileFailedHeader
    ensures DiagnosticsOf(CompileFailureMessage(stderr)) == stderr
  {
    var m := CompileFailureMessage(stderr);
    if stderr != "" {
      var parts := [CompileFailedHeader] + [stderr];
      assert parts[1..] == [stderr];
      assert m == parts[0] + ['\n'] + JoinWith(parts[1..], '\n');
      assert m == CompileFailedHeader + ("\n" + stderr);
    } else {
      assert m == CompileFailedHeader;
    }
  }

  /** How the build is launched: the compile command with the contest and
      task ids, in the workspace, with no deadline. */
  function CompileInvocation(p: Problem, s: Settings, workspaceRoot: string): Invocation
  {
    Invocation(s.cppCompileCommand, [p.contestId, p.taskId], workspaceRoot, Some(workspaceRoot), None, None)
  }

  /** Builds the C++ solution. The three outcomes of a launched build: a
      non-zero exit fails with the trimmed compiler stderr; a zero exit
      without `a.out` fails naming the missing path; otherwise the binary's
      path is returned. The build has no deadline, so `timedOut` and the
      duration of its outcome play no part. */
  function CompileCppBinary(p: Problem, s: Settings, workspaceRoot: string, disk: Disk,
                            outcome: ProcessOutcome): (a: Attempt<string>)
    ensures a.NotStarted? <==> !PathExists(disk, SolutionPath(workspaceRoot, p, Cpp))
    ensures a.NotStarted? ==> a.error == "Solution file not found at " + SolutionPath(workspaceRoot, p, Cpp)
    ensures a.Started? ==> a.invocation == CompileInvocation(p, s, workspaceRoot)
    ensures a.Started? && outcome.LaunchError? ==> a.result == Failure(outcome.message)
    ensures a.Started? && outcome.Closed? && outcome.exitCode != Some(0) ==>
      var d := Trim(outcome.stderr);
      a.result == Failure(CompileFailedHeader + (if d == "" then "" else "\n" + d))
      && |a.result.error| >= |CompileFailedHeader|
      && a.result.error[..|CompileFailedHeader|] == CompileFailedHeader
      && DiagnosticsOf(a.result.error) == Trim(outcome.stderr)
    ensures a.Started? && outcome.Closed? && outcome.exitCode == Some(0) ==>
      (a.result.Success? <==> PathExists(disk, BinaryPath(workspaceRoot, p)))
    ensures a.Started? && outcome.Closed? && outcome.exitCode == Some(0) && a.result.Failure? ==>
      a.result.error == "C++ binary not found at " + BinaryPath(workspaceRoot, p)
    ensures a.Started? && a.result.Success? ==> a.result.value == BinaryPath(workspaceRoot, p)
  {
    match EnsureSolutionFile(workspaceRoot, p, Cpp, disk)
    case Failure(e) => NotStarted(e)
    case Success(_) =>
      var inv := CompileInvocation(p, s, workspaceRoot);
      match outcome
      case LaunchError(m) => Started(inv, Failure(m))
      case Closed(_, code, _, stderr, _) =>
        var diagnostics := Trim(stderr);
        var binary := BinaryPath(workspaceRoot, p);
        if code != Some(0) then
          CompileFailureKeepsDiagnostics(diagnostics);
          Started(inv, Failure(CompileFailureMessage(diagnostics)))
        else if !PathExists(disk, binary) then Started(inv, Failure("C++ binary not found at " + binary))
        else Started(inv, Success(binary))
  }

  /* ---------- all cases ---------- */

  /** Runs one case in the configured language; a C++ case uses the binary
      built beforehand. */
  function RunTestCase(p: Problem, s: Settings, workspaceRoot: string, tc: TestCase, binaryPath: Option<string>,
                       disk: Disk, norm: string -> string, outcome: ProcessOutcome): (a: Attempt<RunResult>)
    ensures a.Started? ==> tc.inputPath in disk.files && a.invocation == CaseInvocation(p, s, workspaceRoot, tc, disk)
    ensures a.Started? ==> (a.result.Failure? <==> outcome.LaunchError?)
    ensures a.Started? && a.result.Success? ==>
      Reports(a.result.value, tc, outcome, ExpectedOf(tc, disk), s.caseSensitive, norm, s.language)
  {
    if s.language == Cpp then RunCppTestCase(p, s, workspaceRoot, tc, binaryPath, disk, norm, outcome)
    else RunPythonTestCase(p, s, workspaceRoot, tc, disk, norm, outcome)
  }

  /** The launch a case makes once its files are in place. */
  function CaseInvocation(p: Problem, s: Settings, workspaceRoot: string, tc: TestCase, disk: Disk): Invocation
  {
    if s.language == Cpp then CppRunInvocation(p, s, workspaceRoot, tc)
    else PythonInvocation(p, s, workspaceRoot, if tc.inputPath in disk.files then disk.files[tc.inputPath] else "")
  }

  /** The launches a run made, the results it collected and the error that
      ended it early, if any. */
  datatype RunTrace = RunTrace(launches: seq<Invocation>, results: seq<RunResult>, error: Option<string>)

  /** The error an attempt ends with, if any. */
  function ErrorOf<T>(a: Attempt<T>): Option<string>
  {
    match a
    case NotStarted(e) => Some(e)
    case Started(_, Failure(e)) => Some(e)
    case Started(_, Success(_)) => None
  }

  /** Running `cases` in order with `step`, the first drawing its process
      outcome from `oracle(k)`, the next from `oracle(k + 1)`, and so on;
      the first error stops the run. */
  function CaseTrace(step: (TestCase, ProcessOutcome) -> Attempt<RunResult>, oracle: nat -> ProcessOutcome,
                     cases: seq<TestCase>, k: nat): RunTrace
    decreases |cases|
  {
    if |cases| == 0 then RunTrace([], [], None)
    else
      match step(cases[0], oracle(k))
      case NotStarted(e) => RunTrace([], [], Some(e))
      case Started(inv, Failure(e)) => RunTrace([inv], [], Some(e))
      case Started(inv, Success(r)) =>
        var rest := CaseTrace(step, oracle, cases[1..], k + 1);
        RunTrace([inv] + rest.launches, [r] + rest.results, rest.error)
  }

  /** A run of cases stops short of the last case only with an error: the
      error of the case it stopped at, which made at most one launch. */
  lemma {:induction false} CaseTraceLengths(step: (TestCase, ProcessOutcome) -> Attempt<RunResult>,
                                            oracle: nat -> ProcessOutcome, cases: seq<TestCase>, k: nat)
    ensures var t := CaseTrace(step, oracle, cases, k);
      && |t.results| <= |t.launches| <= |cases|
      && |t.launches| <= |t.results| + 1
      && (t.error.None? <==> |t.results| == |cases|)
      && (t.error.None? ==> |t.launches| == |cases|)
      && (t.error.Some? ==> t.error == ErrorOf(step(cases[|t.results|], oracle(k + |t.results|))))
    decreases |cases|
  {
    if |cases| > 0 {
      CaseTraceLengths(step, oracle, cases[1..], k + 1);
      var rest := CaseTrace(step, oracle, cases[1..], k + 1);
      var n := |rest.results|;
      if n < |cases| - 1 {
        assert cases[1 + n] == cases[1..][n] && k + (1 + n) == k + 1 + n;
      }
    }
  }

  /** The i-th launch of a run of cases is the launch of the i-th case, on
      the outcome numbered k + i. */
  lemma {:induction false} CaseTraceLaunches(step: (TestCase, ProcessOutcome) -> Attempt<RunResult>,
                                             oracle: nat -> ProcessOutcome, cases: seq<TestCase>, k: nat)
    ensures var t := CaseTrace(step, oracle, cases, k);
      |t.launches| <= |cases|
      && forall i | 0 <= i < |t.launches| ::
        step(cases[i], oracle(k + i)).Started? && t.launches[i] == step(cases[i], oracle(k + i)).invocation
    decreases |cases|
  {
    if |cases| > 0 {
      var t := CaseTrace(step, oracle, cases, k);
      var rest := CaseTrace(step, oracle, cases[1..], k + 1);
      CaseTraceLaunches(step, oracle, cases[1..], k + 1);
      var a := step(cases[0], oracle(k));
      if a.Started? && a.result.Success? {
        assert t.launches == [a.invocation] + rest.launches;
        forall i | 1 <= i < |t.launches|
          ensures step(cases[i], oracle(k + i)).Started? && t.launches[i] == step(cases[i], oracle(k + i)).invocation
        {
          assert t.launches[i] == rest.launches[i - 1] && cases[i] == cases[1..][i - 1] && k + i == k + 1 + (i - 1);
        }
      }
    }
  }

  /** The i-th result of a run of cases is the result of the i-th case, on
      the outcome numbered k + i. */
  lemma {:induction false} CaseTraceResults(step: (TestCase, ProcessOutcome) -> Attempt<RunResult>,
                                            oracle: nat -> ProcessOutcome, cases: seq<TestCase>, k: nat)
    ensures var t := CaseTrace(step, oracle, cases, k);
      |t.results| <= |cases|
      && forall i | 0 <= i < |t.results| ::
        step(cases[i], oracle(k + i)).Started? && step(cases[i], oracle(k + i)).result == Success(t.results[i])
    decreases |cases|
  {
    if |cases| > 0 {
      var t := CaseTrace(step, oracle, cases, k);
      var rest := CaseTrace(step, oracle, cases[1..], k + 1);
      CaseTraceResults(step, oracle, cases[1..], k + 1);
      var a := step(cases[0], oracle(k));
      if a.Started? && a.result.Success? {
        assert t.results == [a.result.value] + rest.results;
        forall i | 1 <= i < |t.results|
          ensures step(cases[i], oracle(k + i)).Started? && step(cases[i], oracle(k + i)).result == Success(t.results[i])
        {
          assert t.results[i] == rest.results[i - 1] && cases[i] == cases[1..][i - 1] && k + i == k + 1 + (i - 1);
        }
      }
    }
  }

  /** The step `runAllTests` takes for one case. */
  function CaseStep(p: Problem, s: Settings, workspaceRoot: string, binaryPath: Option<string>, disk: Disk,
                    norm: string -> string): (TestCase, ProcessOutcome) -> Attempt<RunResult>
  {
    (tc: TestCase, outcome: ProcessOutcome) => RunTestCase(p, s, workspaceRoot, tc, binaryPath, disk, norm, outcome)
  }

  /** The binary the cases run: the one a successful C++ build produced;
      none for Python. */
  function BinaryFor(s: Settings, built: Attempt<string>): Option<string>
  {
    if s.language == Cpp && built.Started? && built.result.Success? then Some(built.result.value) else None
  }

  /** A C++ run: the build's launch, then, once the build succeeded, the
      run of the cases; a build that fails ends the run with its error. */
  function AfterBuild(built: Attempt<string>, cases: RunTrace): RunTrace
  {
    match built
    case NotStarted(e) => RunTrace([], [], Some(e))
    case Started(inv, Failure(e)) => RunTrace([inv], [], Some(e))
    case Started(inv, Success(_)) => RunTrace([inv] + cases.launches, cases.results, cases.error)
  }

  /** A whole run from the run of its cases: C++ puts the build in front;
      Python (where `built` plays no part) is the run of the cases alone. */
  function WithBuild(s: Settings, built: Attempt<string>, cases: RunTrace): RunTrace
  {
    if s.language == Cpp then AfterBuild(built, cases) else cases
  }

  /** `runAllTests`, given the outcome of its C++ build: for C++ the build
      is the first launch, and once it succeeds every case runs the built
      binary; for Python every case runs the interpreter. */
  function RunTraceOf(p: Problem, s: Settings, workspaceRoot: string, disk: Disk,
                      norm: string -> string, oracle: nat -> ProcessOutcome, built: Attempt<string>): RunTrace
  {
    WithBuild(s, built, CaseTrace(CaseStep(p, s, workspaceRoot, BinaryFor(s, built), disk, norm), oracle, p.cases, FirstCaseLaunch(s)))
  }

  /** `runAllTests` on a workspace: the C++ build runs on outcome 0. */
  function RunAllTrace(p: Problem, s: Settings, workspaceRoot: string, disk: Disk,
                       norm: string -> string, oracle: nat -> ProcessOutcome): RunTrace
  {
    RunTraceOf(p, s, workspaceRoot, disk, norm, oracle, CompileCppBinary(p, s, workspaceRoot, disk, oracle(0)))
  }

  /** What `runAllTests` resolves with: every result, or the first error. */
  function Outcome(t: RunTrace): Result<seq<RunResult>>
  {
    if t.error.Some? then Failure(t.error.value) else Success(t.results)
  }

  /** Running cases with the runner's own step: one result per successful
      case, in case order, judged on the outcome of the case's own launch;
      all cases have a result exactly when no error occurred. */
  lemma CaseStepResults(p: Problem, s: Settings, workspaceRoot: string, binaryPath: Option<string>, disk: Disk,
                        norm: string -> string, oracle: nat -> ProcessOutcome, cases: seq<TestCase>, k: nat)
    ensures var t := CaseTrace(CaseStep(p, s, workspaceRoot, binaryPath, disk, norm), oracle, cases, k);
      && (t.error.None? <==> |t.results| == |cases|)
      && (forall i | 0 <= i < |t.results| ::
            i < |cases|
            && Reports(t.results[i], cases[i], oracle(k + i), ExpectedOf(cases[i], disk), s.caseSensitive, norm, s.language))
  {
    var step := CaseStep(p, s, workspaceRoot, binaryPath, disk, norm);
    var t := CaseTrace(step, oracle, cases, k);
    CaseTraceLengths(step, oracle, cases, k);
    CaseTraceResults(step, oracle, cases, k);
    forall i | 0 <= i < |t.results|
      ensures Reports(t.results[i], cases[i], oracle(k + i), ExpectedOf(cases[i], disk), s.caseSensitive, norm, s.language)
    {
      var a := RunTestCase(p, s, workspaceRoot, cases[i], binaryPath, disk, norm, oracle(k + i));
      assert step(cases[i], oracle(k + i)) == a;
    }
  }

  /** Running cases with the runner's own step: one launch per case reached,
      in case order, with the case's own invocation; every case is launched
      when no error occurred. */
  lemma CaseStepLaunches(p: Problem, s: Settings, workspaceRoot: string, binaryPath: Option<string>, disk: Disk,
                         norm: string -> string, oracle: nat -> ProcessOutcome, cases: seq<TestCase>, k: nat)
    ensures var t := CaseTrace(CaseStep(p, s, workspaceRoot, binaryPath, disk, norm), oracle, cases, k);
      && |t.launches| <= |cases|
      && (t.error.None? ==> |t.launches| == |cases|)
      && (forall i | 0 <= i < |t.launches| ::
            cases[i].inputPath in disk.files && t.launches[i] == CaseInvocation(p, s, workspaceRoot, cases[i], disk))
  {
    var step := CaseStep(p, s, workspaceRoot, binaryPath, disk, norm);
    var t := CaseTrace(step, oracle, cases, k);
    CaseTraceLengths(step, oracle, cases, k);
    CaseTraceLaunches(step, oracle, cases, k);
    forall i | 0 <= i < |t.launches|
      ensures cases[i].inputPath in disk.files && t.launches[i] == CaseInvocation(p, s, workspaceRoot, cases[i], disk)
    {
      var a := RunTestCase(p, s, workspaceRoot, cases[i], binaryPath, disk, norm, oracle(k + i));
      assert step(cases[i], oracle(k + i)) == a;
    }
  }

  /** The number of the launch that runs the first case: 1 after a C++
      build, 0 for Python. */
  function FirstCaseLaunch(s: Settings): nat
  {
    if s.language == Cpp then 1 else 0
  }

  /** `runAllTests` for C++ builds first: the first launch is the build,
      so the solution is built exactly once and before any case, and a
      failed build runs no case and ends the run with its error. */
  lemma CppRunBuildsFirst(p: Problem, s: Settings, workspaceRoot: string, disk: Disk,
                          norm: string -> string, oracle: nat -> ProcessOutcome)
    requires s.language == Cpp
    ensures var t := RunAllTrace(p, s, workspaceRoot, disk, norm, oracle);
      var built := CompileCppBinary(p, s, workspaceRoot, disk, oracle(0));
      && (|t.launches| > 0 <==> built.Started?)
      && (built.Started? ==> t.launches[0] == CompileInvocation(p, s, workspaceRoot))
      && (!(built.Started? && built.result.Success?) ==>
            t.results == [] && |t.launches| <= 1 && t.error == ErrorOf(built))
  {
  }

  /** After a successful build, a C++ run is the build's launch followed
      by the run of the cases. */
  lemma AfterSuccessfulBuild(built: Attempt<string>, cases: RunTrace)
    requires built.Started? && built.result.Success?
    ensures var t := AfterBuild(built, cases);
      && t.results == cases.results && t.error == cases.error
      && |t.launches| == 1 + |cases.launches|
      && forall i | 0 <= i < |cases.launches| :: t.launches[1 + i] == cases.launches[i]
  {
  }

  /** The part of a run after a successful build (all of it, for Python):
      the run of the cases from launch `FirstCaseLaunch(s)` on. */
  lemma CasePart(p: Problem, s: Settings, workspaceRoot: string, disk: Disk,
                 norm: string -> string, oracle: nat -> ProcessOutcome, built: Attempt<string>)
    requires s.language == Cpp ==> built.Started? && built.result.Success?
    ensures var t := RunTraceOf(p, s, workspaceRoot, disk, norm, oracle, built);
      var ct := CaseTrace(CaseStep(p, s, workspaceRoot, BinaryFor(s, built), disk, norm), oracle, p.cases, FirstCaseLaunch(s));
      && t.results == ct.results && t.error == ct.error
      && |t.launches| == FirstCaseLaunch(s) + |ct.launches|
      && forall i | 0 <= i < |ct.launches| :: t.launches[FirstCaseLaunch(s) + i] == ct.launches[i]
  {
    BuiltPart(s, built, CaseTrace(CaseStep(p, s, workspaceRoot, BinaryFor(s, built), disk, norm), oracle, p.cases, FirstCaseLaunch(s)));
  }

  /** Once the build succeeded (or none was needed), a whole run has the
      results and error of the run of its cases, whose launches follow the
      build's. */
  lemma BuiltPart(s: Settings, built: Attempt<string>, cases: RunTrace)
    requires s.language == Cpp ==> built.Started? && built.result.Success?
    ensures var t := WithBuild(s, built, cases);
      && t.results == cases.results && t.error == cases.error
      && |t.launches| == FirstCaseLaunch(s) + |cases.launches|
      && forall i | 0 <= i < |cases.launches| :: t.launches[FirstCaseLaunch(s) + i] == cases.launches[i]
  {
    if s.language == Cpp {
      AfterSuccessfulBuild(built, cases);
    }
  }

  /** `runAllTests` yields its results in case order, each judged on the
      outcome of the case's own launch; all are present when no error
      occurred, and any missing one means the run ended with an error.
      Stated for every successful build (a failed one yields no result, as
      `CppRunBuildsFirst` states). */
  lemma RunAllResultsFollowCases(p: Problem, s: Settings, workspaceRoot: string, disk: Disk,
                                 norm: string -> string, oracle: nat -> ProcessOutcome, built: Attempt<string>)
    requires s.language == Cpp ==> built.Started? && built.result.Success?
    ensures var t := RunTraceOf(p, s, workspaceRoot, disk, norm, oracle, built);
      && (t.error.None? <==> |t.results| == |p.cases|)
      && (forall i | 0 <= i < |t.results| ::
            i < |p.cases|
            && Reports(t.results[i], p.cases[i], oracle(FirstCaseLaunch(s) + i), ExpectedOf(p.cases[i], disk),
                       s.caseSensitive, norm, s.language))
  {
    CasePart(p, s, workspaceRoot, disk, norm, oracle, built);
    CaseStepResults(p, s, workspaceRoot, BinaryFor(s, built), disk, norm, oracle, p.cases, FirstCaseLaunch(s));
  }

  /** `runAllTests` launches, after a successful build (from the first
      launch, for Python), each case it reaches, in case order, with that
      case's own invocation; it launches every case when no error occurred. */
  lemma RunAllLaunchesFollowCases(p: Problem, s: Settings, workspaceRoot: string, disk: Disk,
                                  norm: string -> string, oracle: nat -> ProcessOutcome, built: Attempt<string>)
    requires s.language == Cpp ==> built.Started? && built.result.Success?
    ensures var t := RunTraceOf(p, s, workspaceRoot, disk, norm, oracle, built);
      var base := FirstCaseLaunch(s);
      && base <= |t.launches| <= base + |p.cases|
      && (t.error.None? ==> |t.launches| == base + |p.cases|)
      && (forall i | 0 <= i < |t.launches| - base ::
            p.cases[i].inputPath in disk.files
            && t.launches[base + i] == CaseInvocation(p, s, workspaceRoot, p.cases[i], disk))
  {
    CasePart(p, s, workspaceRoot, disk, norm, oracle, built);
    CaseStepLaunches(p, s, workspaceRoot, BinaryFor(s, built), disk, norm, oracle, p.cases, FirstCaseLaunch(s));
  }

  /** A trace with the given launches and results put in front. */
  function Prefixed(launches: seq<Invocation>, results: seq<RunResult>, t: RunTrace): RunTrace
  {
    RunTrace(launches + t.launches, results + t.results, t.error)
  }

  /** The run of the cases from the i-th on, one step unfolded. */
  lemma CaseTraceFrom(step: (TestCase, ProcessOutcome) -> Attempt<RunResult>, oracle: nat -> ProcessOutcome,
                      cases: seq<TestCase>, k: nat, i: nat)
    requires i < |cases|
    ensures CaseTrace(step, oracle, cases[i..], k + i) ==
      match step(cases[i], oracle(k + i))
      case NotStarted(e) => RunTrace([], [], Some(e))
      case Started(inv, Failure(e)) => RunTrace([inv], [], Some(e))
      case Started(inv, Success(r)) => Prefixed([inv], [r], CaseTrace(step, oracle, cases[i + 1..], k + i + 1))
  {
    assert cases[i..][0] == cases[i];
    assert cases[i..][1..] == cases[i + 1..];
  }

  /** The attempt at the `j`-th case, on the outcome of launch `k + j`. */
  function StepAt(step: (TestCase, ProcessOutcome) -> Attempt<RunResult>, oracle: nat -> ProcessOutcome,
                  cases: seq<TestCase>, k: nat, j: nat): Attempt<RunResult>
    requires j < |cases|
  {
    step(cases[j], oracle(k + j))
  }

  /** The first `|results|` cases each launched (`started`) and passed
      (`results`). */
  ghost predicate PassedFirst(step: (TestCase, ProcessOutcome) -> Attempt<RunResult>, oracle: nat -> ProcessOutcome,
                              cases: seq<TestCase>, k: nat, started: seq<Invocation>, results: seq<RunResult>)
  {
    && |started| == |results| <= |cases|
    && forall j {:trigger StepAt(step, oracle, cases, k, j)} | 0 <= j < |results| ::
         StepAt(step, oracle, cases, k, j) == Started(started[j], Success(results[j]))
  }

  /** When the first cases each launched and passed, the run of all cases
      is their launches and results followed by the run of the remaining
      cases. */
  lemma {:induction false} CaseTraceAfter(step: (TestCase, ProcessOutcome) -> Attempt<RunResult>,
                                          oracle: nat -> ProcessOutcome, cases: seq<TestCase>, k: nat,
                                          started: seq<Invocation>, results: seq<RunResult>)
    requires PassedFirst(step, oracle, cases, k, started, results)
    ensures CaseTrace(step, oracle, cases, k)
      == Prefixed(started, results, CaseTrace(step, oracle, cases[|results|..], k + |results|))
  {
    if |results| == 0 {
      assert cases[0..] == cases;
      var t := CaseTrace(step, oracle, cases, k);
      assert [] + t.launches == t.launches && [] + t.results == t.results;
    } else {
      var n := |results|;
      forall j | 0 <= j < n - 1
        ensures StepAt(step, oracle, cases[1..], k + 1, j) == Started(started[1..][j], Success(results[1..][j]))
      {
        assert StepAt(step, oracle, cases, k, j + 1) == Started(started[j + 1], Success(results[j + 1]));
        assert cases[1..][j] == cases[j + 1] && k + 1 + j == k + (j + 1);
      }
      CaseTraceAfter(step, oracle, cases[1..], k + 1, started[1..], results[1..]);
      assert cases[1..][n - 1..] == cases[n..];
      var rest := CaseTrace(step, oracle, cases[n..], k + n);
      assert StepAt(step, oracle, cases, k, 0) == Started(started[0], Success(results[0]));
      assert started == [started[0]] + started[1..] && results == [results[0]] + results[1..];
      AppendAssoc([started[0]], started[1..], rest.launches);
      AppendAssoc([results[0]], results[1..], rest.results);
    }
  }

  /** When the first cases each launched and passed and the next one did
      not, the run of cases stops there: the passed cases' launches and
      results, the failing case's launch if it started, and its error. */
  lemma CaseTraceStopped(step: (TestCase, ProcessOutcome) -> Attempt<RunResult>, oracle: nat -> ProcessOutcome,
                         cases: seq<TestCase>, k: nat, started: seq<Invocation>, results: seq<RunResult>)
    requires PassedFirst(step, oracle, cases, k, started, results) && |results| < |cases|
    requires ErrorOf(StepAt(step, oracle, cases, k, |results|)).Some?
    ensures var a := StepAt(step, oracle, cases, k, |results|);
      CaseTrace(step, oracle, cases, k)
        == RunTrace(started + (if a.Started? then [a.invocation] else []), results, ErrorOf(a))
  {
    CaseTraceAfter(step, oracle, cases, k, started, results);
    CaseTraceFrom(step, oracle, cases, k, |results|);
    assert results + [] == results;
    if StepAt(step, oracle, cases, k, |results|).NotStarted? {
      assert started + [] == started;
    }
  }

  /** Runs `cases` in order with `step` from launch number `k` on, stopping
      at the first error. */
  method RunCases(step: (TestCase, ProcessOutcome) -> Attempt<RunResult>, oracle: nat -> ProcessOutcome,
                  cases: seq<TestCase>, k: nat)
    returns (results: seq<RunResult>, launches: seq<Invocation>, error: Option<string>)
    ensures RunTrace(launches, results, error) == CaseTrace(step, oracle, cases, k)
  {
    results, launches, error := [], [], None;
    assert cases[0..] == cases;
    var i := 0;
    while i < |cases|
      invariant 0 <= i <= |cases|
      invariant CaseTrace(step, oracle, cases, k) == Prefixed(launches, results, CaseTrace(step, oracle, cases[i..], k + i))
    {
      CaseTraceFrom(step, oracle, cases, k, i);
      var attempt := step(cases[i], oracle(k + i));
      match attempt {
        case NotStarted(e) =>
          assert launches + [] == launches && results + [] == results;
          error := Some(e);
          return;
        case Started(inv, Failure(e)) =>
          assert results + [] == results;
          launches, error := launches + [inv], Some(e);
          return;
        case Started(inv, Success(r)) =>
          var rest := CaseTrace(step, oracle, cases[i + 1..], k + i + 1);
          assert launches + ([inv] + rest.launches) == (launches + [inv]) + rest.launches;
          assert results + ([r] + rest.results) == (results + [r]) + rest.results;
          launches, results := launches + [inv], results + [r];
      }
      i := i + 1;
    }
    assert cases[i..] == [];
    assert launches + [] == launches && results + [] == results;
  }

  /** `runAllTests`: builds once for C++, then runs every case in order;
      the first error ends the run. `launches` lists every process started. */
  method RunAllTests(p: Problem, s: Settings, workspaceRoot: string, disk: Disk,
                     norm: string -> string, oracle: nat -> ProcessOutcome)
    returns (r: Result<seq<RunResult>>, launches: seq<Invocation>)
    ensures var t := RunAllTrace(p, s, workspaceRoot, disk, norm, oracle);
      r == Outcome(t) && launches == t.launches
  {
    var results: seq<RunResult>;
    var error: Option<string>;
    if s.language == Cpp {
      var built := CompileCppBinary(p, s, workspaceRoot, disk, oracle(0));
      match built {
        case NotStarted(e) =>
          return Failure(e), [];
        case Started(inv, Failure(e)) =>
          return Failure(e), [inv];
        case Started(inv, Success(_)) =>
          var caseLaunches;
          results, caseLaunches, error :=
            RunCases(CaseStep(p, s, workspaceRoot, BinaryFor(s, built), disk, norm), oracle, p.cases, FirstCaseLaunch(s));
          launches := [inv] + caseLaunches;
      }
    } else {
      results, launches, error := RunCases(CaseStep(p, s, workspaceRoot, None, disk, norm), oracle, p.cases, 0);
    }
    r := if error.Some? then Failure(error.value) else Success(results);
  }
}
