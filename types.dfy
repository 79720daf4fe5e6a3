/** The records the test-run engine passes around: the loaded problem, its
    test cases, the normalised run settings and the per-case result. */
module Types {
  import opened Wrappers

  datatype Language = Python | Cpp

  datatype Interpreter = CPython | PyPy

  /** Accepted, wrong answer, time limit exceeded, runtime error. */
  datatype Verdict = AC | WA | TLE | RE

  /** The settings the runner reads, after normalisation. `runCwdMode` keeps
      the raw configured string: only the exact value "task" selects the task
      directory. `timeoutMs` is `None` when no numeric override is set. */
  datatype Settings = Settings(
    language: Language,
    interpreter: Interpreter,
    pythonCommand: string,
    pypyCommand: string,
    cppCompileCommand: string,
    cppRunCommand: string,
    runCwdMode: string,
    timeoutMs: Option<int>,
    caseSensitive: bool)

  /** One test case: its 1-based index and the paths of its input and
      expected-output files. */
  datatype TestCase = TestCase(index: int, inputPath: string, outputPath: string)

  /** The problem being judged; `timeLimit` is in milliseconds. */
  datatype Problem = Problem(
    name: string,
    contestId: string,
    taskId: string,
    interactive: bool,
    timeLimit: int,
    cases: seq<TestCase>)

  /** The outcome of one case. */
  datatype RunResult = RunResult(
    index: int,
    status: Verdict,
    durationMs: nat,
    actual: string,
    console: string)
}
