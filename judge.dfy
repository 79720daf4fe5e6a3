/** The per-case judging rules of src/core/testRunner.ts: how the timeout and
    the working directory are chosen, how output is compared, how PyPy's
    start-up noise is filtered out of stderr, and how a verdict is decided. */
module Judge {
  import opened Wrappers
  import opened Text
  import opened Paths
  import opened Types

  /** The benign warning PyPy prints on start-up on some machines, written
      in four pieces so that facts about its characters stay cheap to prove. */
  const PypyCacheWarning: string := "Warning: cannot" + " find your" + " CPU L2 & L3" + " cache size"

  /* ---------- output comparison ---------- */

  /** Exact comparison, or comparison that ignores the case of letters. */
  function CompareOutputs(expected: string, actual: string, caseSensitive: bool): (r: bool)
    ensures caseSensitive ==> (r <==> actual == expected)
    ensures !caseSensitive ==>
      (r <==> |actual| == |expected| && forall i | 0 <= i < |actual| :: LowerChar(actual[i]) == LowerChar(expected[i]))
  {
    if caseSensitive then actual == expected
    else
      var a, e := Lower(actual), Lower(expected);
      assert |a| == |e| ==> (a == e <==> forall i | 0 <= i < |a| :: a[i] == e[i]);
      a == e
  }

  /** Whatever matches exactly also matches when case is ignored. */
  lemma ExactMatchIgnoringCase(expected: string, actual: string)
    requires CompareOutputs(expected, actual, true)
    ensures CompareOutputs(expected, actual, false)
  {
  }

  /** Outputs that differ only in the case of letters match when case is
      ignored and do not match when it is not. */
  lemma CaseOnlyDifference(expected: string, actual: string)
    requires Lower(actual) == Lower(expected) && actual != expected
    ensures CompareOutputs(expected, actual, false)
    ensures !CompareOutputs(expected, actual, true)
  {
    assert |actual| == |Lower(actual)| == |Lower(expected)| == |expected|;
    forall i | 0 <= i < |actual|
      ensures LowerChar(actual[i]) == LowerChar(expected[i])
    {
      assert Lower(actual)[i] == Lower(expected)[i];
    }
  }

  /** "Yes" and "YES" are such a pair. */
  lemma YesDiffersOnlyInCase()
    ensures Lower("YES\n") == Lower("Yes\n") && "YES\n" != "Yes\n"
  {
    assert "YES\n"[1] != "Yes\n"[1];
    assert LowerChar('Y') == 'y' && LowerChar('E') == 'e' && LowerChar('S') == 's';
    assert Lower("YES\n") == "yes\n" == Lower("Yes\n");
  }

  /* ---------- timeout ---------- */

  /** `Math.ceil(timeLimit * 1.2)`, that is the least integer not below
      6/5 of the time limit. */
  function CeilSixFifths(timeLimit: int): int
  {
    (6 * timeLimit + 4) / 5
  }

  /** The per-case deadline: a numeric override wins; otherwise 120% of the
      problem's time limit, rounded up. Never below 1 ms. */
  function ComputeTimeout(timeLimit: int, timeoutMs: Option<int>): (r: int)
    ensures r >= 1
    ensures timeoutMs.Some? && timeoutMs.value >= 1 ==> r == timeoutMs.value
    ensures timeoutMs.Some? && timeoutMs.value < 1 ==> r == 1
    ensures timeoutMs.None? ==> 6 * timeLimit <= 5 * r
    ensures timeoutMs.None? && r > 1 ==> 5 * (r - 1) < 6 * timeLimit
  {
    match timeoutMs
    case Some(t) => if t >= 1 then t else 1
    case None =>
      var c := CeilSixFifths(timeLimit);
      if c >= 1 then c else 1
  }

  /* ---------- working directory ---------- */

  /** The solution's own directory: workspace, contest id, task id. */
  function TaskDir(workspaceRoot: string, contestId: string, taskId: string): (r: string)
    ensures Normalize(r).segments == Segments(workspaceRoot) + (Segments(contestId) + Segments(taskId))
    ensures workspaceRoot != "" ==> Normalize(r).absolute == IsAbsolute(workspaceRoot)
  {
    ThreeParts(workspaceRoot, contestId, taskId);
    Join([workspaceRoot, contestId, taskId])
  }

  /** Where a Python solution runs: the task directory exactly when the
      configured mode is "task", the workspace root for any other value. */
  function ResolveCwd(runCwdMode: string, workspaceRoot: string, contestId: string, taskId: string): (r: string)
    ensures runCwdMode == "task" ==> r == TaskDir(workspaceRoot, contestId, taskId)
    ensures runCwdMode != "task" ==> r == workspaceRoot
  {
    if runCwdMode == "task" then TaskDir(workspaceRoot, contestId, taskId) else workspaceRoot
  }

  /* ---------- stderr filtering ---------- */

  /** The lines that do not mention the PyPy cache warning, in order. */
  function WarningFree(lines: seq<string>): (r: seq<string>)
    ensures |r| <= |lines|
    ensures forall k | 0 <= k < |r| :: !Contains(r[k], PypyCacheWarning) && r[k] in lines
    ensures forall k | 0 <= k < |lines| :: !Contains(lines[k], PypyCacheWarning) ==> lines[k] in r
  {
    if |lines| == 0 then []
    else if Contains(lines[0], PypyCacheWarning) then WarningFree(lines[1..])
    else [lines[0]] + WarningFree(lines[1..])
  }

  /** The filter treats each part of the lines in turn: it keeps the order of
      the lines it keeps. */
  lemma {:induction false} WarningFreeAppend(a: seq<string>, b: seq<string>)
    ensures WarningFree(a + b) == WarningFree(a) + WarningFree(b)
  {
    if |a| == 0 {
      assert a + b == b;
    } else {
      WarningFreeAppend(a[1..], b);
      assert (a + b)[0] == a[0] && (a + b)[1..] == a[1..] + b;
    }
  }

  /** One line is kept exactly when it does not mention the warning. */
  lemma WarningFreeLine(line: string)
    ensures WarningFree([line]) == if Contains(line, PypyCacheWarning) then [] else [line]
  {
    assert [line][1..] == [];
  }

  lemma {:induction false} WarningFreeIdentity(lines: seq<string>)
    requires forall k | 0 <= k < |lines| :: !Contains(lines[k], PypyCacheWarning)
    ensures WarningFree(lines) == lines
  {
    if |lines| > 0 {
      WarningFreeIdentity(lines[1..]);
      assert lines == [lines[0]] + lines[1..];
    }
  }

  /** The stderr text shown for a Python run: every line that mentions the
      PyPy cache warning is dropped and the rest is trimmed. The warning never
      survives, and text without it is merely trimmed. */
  function FilterConsoleOutput(value: string): (r: string)
    ensures r == Trim(JoinWith(WarningFree(Split(value, '\n')), '\n'))
    ensures !Contains(r, PypyCacheWarning)
    ensures !Contains(value, PypyCacheWarning) ==> r == Trim(value)
  {
    var lines := Split(value, '\n');
    var joined := JoinWith(WarningFree(lines), '\n');
    FilteredHasNoWarning(joined, WarningFree(lines));
    WithoutWarning(value);
    Trim(joined)
  }

  lemma FilteredHasNoWarning(joined: string, kept: seq<string>)
    requires forall k | 0 <= k < |kept| :: !Contains(kept[k], PypyCacheWarning)
    requires joined == JoinWith(kept, '\n')
    ensures !Contains(Trim(joined), PypyCacheWarning)
  {
    WarningIsOneLine();
    JoinAvoids(kept, '\n', PypyCacheWarning);
    OccurrenceInTrim(joined, PypyCacheWarning);
  }

  lemma WarningIsOneLine()
    ensures |PypyCacheWarning| > 0 && '\n' !in PypyCacheWarning
  {
    var a, b, c, d := "Warning: cannot", " find your", " CPU L2 & L3", " cache size";
    assert '\n' !in a;
    assert '\n' !in b;
    assert '\n' !in c;
    assert '\n' !in d;
    assert '\n' !in a + b;
    assert '\n' !in a + b + c;
  }

  lemma WithoutWarning(value: string)
    ensures !Contains(value, PypyCacheWarning) ==>
      JoinWith(WarningFree(Split(value, '\n')), '\n') == value
  {
    if !Contains(value, PypyCacheWarning) {
      var lines := Split(value, '\n');
      JoinSplit(value, '\n');
      forall k | 0 <= k < |lines|
        ensures !Contains(lines[k], PypyCacheWarning)
      {
        LineOfSplit(value, k);
      }
      WarningFreeIdentity(lines);
    }
  }

  /** A line containing the warning would put the warning in the text. */
  lemma LineOfSplit(value: string, k: int)
    requires 0 <= k < |Split(value, '\n')|
    requires !Contains(value, PypyCacheWarning)
    ensures !Contains(Split(value, '\n')[k], PypyCacheWarning)
  {
    var lines := Split(value, '\n');
    JoinSplit(value, '\n');
    var lo, hi := LineBounds(lines, '\n', k);
    if Contains(lines[k], PypyCacheWarning) {
      ContainsSlice(value, lo, hi, PypyCacheWarning);
      assert false;
    }
  }

  /** Every part of a join is a slice of the joined text. */
  lemma {:induction false} LineBounds(parts: seq<string>, sep: char, k: int) returns (lo: int, hi: int)
    requires 0 <= k < |parts|
    ensures 0 <= lo <= hi <= |JoinWith(parts, sep)|
    ensures JoinWith(parts, sep)[lo..hi] == parts[k]
  {
    var s := JoinWith(parts, sep);
    if |parts| == 1 {
      lo, hi := 0, |s|;
    } else {
      var rest := JoinWith(parts[1..], sep);
      assert s == parts[0] + [sep] + rest;
      if k == 0 {
        lo, hi := 0, |parts[0]|;
      } else {
        var l, h := LineBounds(parts[1..], sep, k - 1);
        lo, hi := l + |parts[0]| + 1, h + |parts[0]| + 1;
        SliceOfSlice(s, |parts[0]| + 1, |s|, l, h);
        assert s[|parts[0]| + 1..] == rest;
      }
    }
  }

  /* ---------- verdict ---------- */

  /** The verdict rule shared by every runtime: a timeout is TLE whatever the
      exit code; otherwise a non-zero (or missing) exit code is RE; otherwise
      the normalised outputs decide between AC and WA. */
  function VerdictOf(timedOut: bool, exitCode: Option<int>, expected: string, actual: string, caseSensitive: bool): (v: Verdict)
    ensures v == TLE <==> timedOut
    ensures v == RE <==> !timedOut && exitCode != Some(0)
    ensures v == AC <==> !timedOut && exitCode == Some(0) && CompareOutputs(expected, actual, caseSensitive)
    ensures v == WA <==> !timedOut && exitCode == Some(0) && !CompareOutputs(expected, actual, caseSensitive)
  {
    if timedOut then TLE
    else if exitCode != Some(0) then RE
    else if CompareOutputs(expected, actual, caseSensitive) then AC
    else WA
  }
}
