/** Directory resolution of the extension (src/core/pathUtils.ts) over a
    model of POSIX `path.join`, `path.isAbsolute` and `path.relative`: a path
    is an "absolute" flag and a sequence of segments; empty and "." segments
    vanish when a path is normalised. */
module Paths {
  import opened Text

  datatype Path = Path(absolute: bool, segments: seq<string>)

  /** A segment that survives normalisation. */
  predicate Kept(seg: string)
  {
    seg != "" && seg != "."
  }

  /** A normalised path: every segment is kept and holds no separator. */
  predicate WellFormed(p: Path)
  {
    forall k | 0 <= k < |p.segments| :: Kept(p.segments[k]) && '/' !in p.segments[k]
  }

  /** `path.isAbsolute(s)` on POSIX. */
  predicate IsAbsolute(s: string)
  {
    |s| > 0 && s[0] == '/'
  }

  /** The parts that survive normalisation, in their original order. */
  function KeepSegments(parts: seq<string>): (r: seq<string>)
    ensures |r| <= |parts|
    ensures forall k | 0 <= k < |r| :: Kept(r[k]) && r[k] in parts
    ensures forall k | 0 <= k < |parts| :: Kept(parts[k]) ==> parts[k] in r
  {
    if |parts| == 0 then []
    else if Kept(parts[0]) then [parts[0]] + KeepSegments(parts[1..])
    else KeepSegments(parts[1..])
  }

  lemma {:induction false} KeepAppend(a: seq<string>, b: seq<string>)
    ensures KeepSegments(a + b) == KeepSegments(a) + KeepSegments(b)
  {
    if |a| > 0 {
      KeepAppend(a[1..], b);
      assert (a + b)[1..] == a[1..] + b;
    } else {
      assert a + b == b;
    }
  }

  lemma {:induction false} KeepWellFormed(parts: seq<string>)
    requires forall k | 0 <= k < |parts| :: Kept(parts[k])
    ensures KeepSegments(parts) == parts
  {
    if |parts| > 0 {
      KeepWellFormed(parts[1..]);
      assert parts == [parts[0]] + parts[1..];
    }
  }

  /** The segments of `s` that survive normalisation. */
  function Segments(s: string): seq<string>
  {
    KeepSegments(Split(s, '/'))
  }

  /** `path.normalize(s)` as a flag and segments: ".." is not collapsed and
      whether `s` ends with a separator is not recorded. */
  function Normalize(s: string): (p: Path)
    ensures WellFormed(p)
  {
    Path(IsAbsolute(s), Segments(s))
  }

  /** The string a normalised path is written as: "." for the empty relative
      path, "/" for the root, and no trailing separator otherwise. */
  function Render(p: Path): string
  {
    if p.segments == [] then (if p.absolute then "/" else ".")
    else (if p.absolute then "/" else "") + JoinWith(p.segments, '/')
  }

  /** Writing a normalised path and reading it back gives the same path. */
  lemma NormalizeRender(p: Path)
    requires WellFormed(p)
    ensures Normalize(Render(p)) == p
  {
    var s := Render(p);
    if p.segments == [] {
      if p.absolute {
        assert s == "" + ['/'] + "";
        SplitAround("", "", '/');
        assert Split(s, '/') == ["", ""];
        assert KeepSegments(["", ""]) == [];
      } else {
        SplitFree(s, '/');
      }
    } else {
      var body := JoinWith(p.segments, '/');
      SplitJoin(p.segments, '/');
      KeepWellFormed(p.segments);
      JoinFirstChar(p.segments, '/');
      if p.absolute {
        assert s == "" + ['/'] + body;
        SplitAround("", body, '/');
        assert Split(s, '/') == [""] + p.segments;
        assert KeepSegments(Split(s, '/')) == KeepSegments([""] + p.segments);
      } else {
        assert s == body;
        assert s[0] == p.segments[0][0];
      }
    }
  }

  /** A join starts with the first character of its first non-empty part. */
  lemma JoinFirstChar(parts: seq<string>, sep: char)
    requires |parts| > 0 && |parts[0]| > 0
    ensures |JoinWith(parts, sep)| > 0 && JoinWith(parts, sep)[0] == parts[0][0]
  {
  }

  /* ---------- path.join ---------- */

  /** The parts that `path.join` does not skip. */
  function NonEmpty(parts: seq<string>): (r: seq<string>)
    ensures forall k | 0 <= k < |r| :: r[k] != ""
  {
    if |parts| == 0 then []
    else if parts[0] == "" then NonEmpty(parts[1..])
    else [parts[0]] + NonEmpty(parts[1..])
  }

  /** The joined path is absolute exactly when its first non-empty part is. */
  function StartsAbsolute(parts: seq<string>): bool
  {
    if |parts| == 0 then false
    else if parts[0] == "" then StartsAbsolute(parts[1..])
    else IsAbsolute(parts[0])
  }

  /** The surviving segments of all parts, one part after another. */
  function AllSegments(parts: seq<string>): seq<string>
  {
    if |parts| == 0 then [] else Segments(parts[0]) + AllSegments(parts[1..])
  }

  /** `path.join(...parts)`: the non-empty parts glued with "/" and
      normalised ("." when nothing is left), without a trailing separator. */
  function Join(parts: seq<string>): (r: string)
    ensures Normalize(r) == Path(StartsAbsolute(parts), AllSegments(parts))
    ensures |r| > 0
  {
    var glued := JoinWith(NonEmpty(parts), '/');
    var p := Normalize(glued);
    GluedSegments(parts);
    GluedAbsolute(parts);
    NormalizeRender(p);
    assert p.segments != [] ==> |p.segments[0]| > 0;
    assert p.segments != [] ==> |JoinWith(p.segments, '/')| > 0 by {
      if p.segments != [] { JoinFirstChar(p.segments, '/'); }
    }
    Render(p)
  }

  lemma {:induction false} GluedSegments(parts: seq<string>)
    ensures Segments(JoinWith(NonEmpty(parts), '/')) == AllSegments(parts)
  {
    if |parts| == 0 {
      assert Split("", '/') == [""];
    } else if parts[0] == "" {
      GluedSegments(parts[1..]);
      assert Split("", '/') == [""];
      assert Segments("") == [];
    } else {
      GluedSegments(parts[1..]);
      var rest := NonEmpty(parts[1..]);
      if |rest| == 0 {
        assert NonEmpty(parts) == [parts[0]];
        assert AllSegments(parts[1..]) == Segments(JoinWith([], '/')) == [];
      } else {
        assert NonEmpty(parts) == [parts[0]] + rest;
        var tail := JoinWith(rest, '/');
        assert JoinWith(NonEmpty(parts), '/') == parts[0] + ['/'] + tail;
        SplitAround(parts[0], tail, '/');
        KeepAppend(Split(parts[0], '/'), Split(tail, '/'));
      }
    }
  }

  lemma {:induction false} GluedAbsolute(parts: seq<string>)
    ensures IsAbsolute(JoinWith(NonEmpty(parts), '/')) == StartsAbsolute(parts)
  {
    if |parts| > 0 {
      GluedAbsolute(parts[1..]);
      if parts[0] != "" {
        JoinFirstChar(NonEmpty(parts), '/');
      }
    }
  }

  /** Joining two parts: absolute exactly when the first part is, or when it
      is empty and the second is; the segments of both, in order. */
  lemma TwoParts(a: string, b: string)
    ensures AllSegments([a, b]) == Segments(a) + Segments(b)
    ensures StartsAbsolute([a, b]) == (IsAbsolute(a) || (a == "" && IsAbsolute(b)))
  {
    assert [a, b][1..] == [b];
    assert [b][1..] == [];
    assert AllSegments([b]) == Segments(b) + AllSegments([]);
    assert AllSegments([a, b]) == Segments(a) + AllSegments([b]);
  }

  /** Joining three parts: the segments of all three, in order; absolute
      exactly when the first part is, unless it is empty. */
  lemma ThreeParts(a: string, b: string, c: string)
    ensures AllSegments([a, b, c]) == Segments(a) + (Segments(b) + Segments(c))
    ensures a != "" ==> StartsAbsolute([a, b, c]) == IsAbsolute(a)
  {
    TwoParts(b, c);
    assert [a, b, c][0] == a;
    assert [a, b, c][1..] == [b, c];
  }

  /** A plain file or directory name is a single segment. */
  lemma SingleSegment(name: string)
    requires Kept(name) && '/' !in name
    ensures Segments(name) == [name]
  {
    SplitFree(name, '/');
    assert KeepSegments([name]) == [name] + KeepSegments([]);
  }

  /** A name joined below a directory extends the directory's segments by
      that one name. */
  lemma ChildSegments(dir: string, name: string)
    requires Kept(name) && '/' !in name
    ensures Normalize(Join([dir, name])).segments == Segments(dir) + [name]
    ensures dir != "" ==> Normalize(Join([dir, name])).absolute == IsAbsolute(dir)
  {
    TwoParts(dir, name);
    SingleSegment(name);
  }

  /* ---------- path.relative ---------- */

  /** The length of the longest common prefix of two segment sequences. */
  function CommonPrefix(f: seq<string>, g: seq<string>): (n: nat)
    ensures n <= |f| && n <= |g| && f[..n] == g[..n]
    ensures n < |f| && n < |g| ==> f[n] != g[n]
  {
    if |f| == 0 || |g| == 0 || f[0] != g[0] then 0
    else
      var n := CommonPrefix(f[1..], g[1..]);
      assert f[..n + 1] == [f[0]] + f[1..][..n];
      assert g[..n + 1] == [g[0]] + g[1..][..n];
      n + 1
  }

  function Ups(n: nat): (r: seq<string>)
    ensures |r| == n && forall k | 0 <= k < n :: r[k] == ".."
  {
    if n == 0 then [] else [".."] + Ups(n - 1)
  }

  /** `path.relative(from, to)` for two paths of the same kind: climb out of
      what `from` does not share with `to`, then descend into the rest. */
  function Relative(from: string, to: string): string
  {
    var f := Segments(from);
    var g := Segments(to);
    var n := CommonPrefix(f, g);
    JoinWith(Ups(|f| - n) + g[n..], '/')
  }

  lemma {:induction false} CommonPrefixOfExtension(f: seq<string>, rest: seq<string>)
    ensures CommonPrefix(f, f + rest) == |f|
  {
    if |f| > 0 {
      assert (f + rest)[1..] == f[1..] + rest;
      CommonPrefixOfExtension(f[1..], rest);
    }
  }

  /** A path below `from` is reached from `from` by its remaining segments. */
  lemma RelativeOfDescendant(from: string, to: string, rest: seq<string>)
    requires Segments(to) == Segments(from) + rest
    ensures Relative(from, to) == JoinWith(rest, '/')
  {
    var f := Segments(from);
    var g := Segments(to);
    CommonPrefixOfExtension(f, rest);
    assert g[|f|..] == rest;
    assert Ups(0) + rest == rest;
  }

  /* ---------- src/core/pathUtils.ts ---------- */

  /** The contest root: the configured base directory, trimmed, taken as is
      when absolute, the workspace itself when empty or ".", and otherwise
      joined below the workspace. */
  function ResolveContestBasePath(workspaceRoot: string, contestBaseDir: string): (r: string)
    ensures IsAbsolute(Trim(contestBaseDir)) ==> r == Trim(contestBaseDir)
    ensures !IsAbsolute(Trim(contestBaseDir)) && (Trim(contestBaseDir) == "" || Trim(contestBaseDir) == ".")
      ==> r == workspaceRoot
    ensures !IsAbsolute(Trim(contestBaseDir)) && Trim(contestBaseDir) != "" && Trim(contestBaseDir) != "."
      ==> Normalize(r) == Path(IsAbsolute(workspaceRoot),
                               Segments(workspaceRoot) + Segments(Trim(contestBaseDir)))
  {
    var normalized := Trim(contestBaseDir);
    if IsAbsolute(normalized) then normalized
    else if normalized == "" || normalized == "." then workspaceRoot
    else
      TwoParts(workspaceRoot, normalized);
      Join([workspaceRoot, normalized])
  }

  /** Surrounding whitespace in the configured base directory never matters. */
  lemma ContestBaseIgnoresWhitespace(workspaceRoot: string, contestBaseDir: string)
    ensures ResolveContestBasePath(workspaceRoot, contestBaseDir)
         == ResolveContestBasePath(workspaceRoot, Trim(contestBaseDir))
  {
    TrimIdempotent(contestBaseDir);
  }

  /** The task directory: contest root, then contest id, then task id. */
  function ResolveTaskDir(workspaceRoot: string, contestBaseDir: string, contestId: string, taskId: string): (r: string)
    ensures var base := ResolveContestBasePath(workspaceRoot, contestBaseDir);
      && Normalize(r).segments == Normalize(base).segments + (Segments(contestId) + Segments(taskId))
      && (base != "" ==> Normalize(r).absolute == IsAbsolute(base))
  {
    var contestRoot := ResolveContestBasePath(workspaceRoot, contestBaseDir);
    ThreeParts(contestRoot, contestId, taskId);
    Join([contestRoot, contestId, taskId])
  }

  /** The tests directory always lies inside the task directory: same kind of
      path, the task directory's segments followed by those of `testsDir`. */
  function ResolveTestsDir(workspaceRoot: string, contestBaseDir: string, contestId: string, taskId: string,
                           testsDir: string): (r: string)
    ensures var task := Normalize(ResolveTaskDir(workspaceRoot, contestBaseDir, contestId, taskId));
      Normalize(r) == Path(task.absolute, task.segments + Segments(testsDir))
  {
    var taskDir := ResolveTaskDir(workspaceRoot, contestBaseDir, contestId, taskId);
    TwoParts(taskDir, testsDir);
    Join([taskDir, testsDir])
  }
}
