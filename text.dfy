/** The JavaScript string operations the extension relies on, stated over
    `seq<char>`: `split` and `join` on a one-character separator, `includes`,
    `trim`, `toLowerCase`, `Array.prototype.indexOf` and the decimal rendering
    of an integer inside a template literal. */
module Text {

  /* ---------- split / join ---------- */

  /** `s.split(sep)`: the fields between occurrences of `sep`. There is always
      at least one field, and no field contains the separator. */
  function Split(s: string, sep: char): (r: seq<string>)
    ensures |r| >= 1
    ensures forall k | 0 <= k < |r| :: sep !in r[k]
  {
    if |s| == 0 then [""]
    else if s[0] == sep then [""] + Split(s[1..], sep)
    else
      var rest := Split(s[1..], sep);
      [[s[0]] + rest[0]] + rest[1..]
  }

  /** `parts.join(sep)`. */
  function JoinWith(parts: seq<string>, sep: char): string
  {
    if |parts| == 0 then ""
    else if |parts| == 1 then parts[0]
    else parts[0] + [sep] + JoinWith(parts[1..], sep)
  }

  /** Joining the fields of a split gives back the original string. */
  lemma {:induction false} JoinSplit(s: string, sep: char)
    ensures JoinWith(Split(s, sep), sep) == s
  {
    if |s| == 0 {
    } else if s[0] == sep {
      JoinSplit(s[1..], sep);
      var rest := Split(s[1..], sep);
      assert Split(s, sep) == [""] + rest;
      assert JoinWith(Split(s, sep), sep) == "" + [sep] + JoinWith(rest, sep);
      assert s == [s[0]] + s[1..];
    } else {
      JoinSplit(s[1..], sep);
      var rest := Split(s[1..], sep);
      var parts := [[s[0]] + rest[0]] + rest[1..];
      assert Split(s, sep) == parts;
      if |rest| == 1 {
        assert JoinWith(parts, sep) == [s[0]] + rest[0];
      } else {
        assert parts[1..] == rest[1..];
        assert JoinWith(rest, sep) == rest[0] + [sep] + JoinWith(rest[1..], sep);
        assert JoinWith(parts, sep) == ([s[0]] + rest[0]) + [sep] + JoinWith(rest[1..], sep);
      }
      assert s == [s[0]] + s[1..];
    }
  }

  /** Splitting a string that has a separator in the middle splits both
      halves independently. */
  lemma {:induction false} SplitAround(a: string, b: string, sep: char)
    ensures Split(a + [sep] + b, sep) == Split(a, sep) + Split(b, sep)
  {
    if |a| == 0 {
      assert a + [sep] + b == [sep] + b;
      assert ([sep] + b)[1..] == b;
    } else {
      var s := a + [sep] + b;
      assert s[1..] == a[1..] + [sep] + b;
      SplitAround(a[1..], b, sep);
      if a[0] == sep {
        assert Split(s, sep) == [""] + Split(s[1..], sep);
        assert Split(a, sep) == [""] + Split(a[1..], sep);
      } else {
        var restA := Split(a[1..], sep);
        var rest := Split(s[1..], sep);
        assert rest == restA + Split(b, sep);
        assert rest[0] == restA[0];
        assert rest[1..] == restA[1..] + Split(b, sep);
      }
    }
  }

  /** Splitting a join of separator-free fields gives the fields back. */
  lemma {:induction false} SplitJoin(parts: seq<string>, sep: char)
    requires |parts| >= 1
    requires forall k | 0 <= k < |parts| :: sep !in parts[k]
    ensures Split(JoinWith(parts, sep), sep) == parts
  {
    if |parts| == 1 {
      SplitFree(parts[0], sep);
    } else {
      SplitJoin(parts[1..], sep);
      SplitFree(parts[0], sep);
      SplitAround(parts[0], JoinWith(parts[1..], sep), sep);
      assert parts == [parts[0]] + parts[1..];
    }
  }

  /** A string without the separator splits into itself. */
  lemma {:induction false} SplitFree(s: string, sep: char)
    requires sep !in s
    ensures Split(s, sep) == [s]
  {
    if |s| > 0 {
      assert sep !in s[1..];
      SplitFree(s[1..], sep);
      assert s == [s[0]] + s[1..];
    }
  }

  /* ---------- includes ---------- */

  /** `w` occurs in `s` starting at position `i`. */
  predicate OccursAt(s: string, w: string, i: int)
  {
    0 <= i <= |s| - |w| && s[i..i + |w|] == w
  }

  /** `s.includes(w)`. */
  predicate Contains(s: string, w: string)
  {
    exists i | 0 <= i <= |s| - |w| :: OccursAt(s, w, i)
  }

  /** A slice of a slice is a slice of the whole. */
  lemma SliceOfSlice<T>(s: seq<T>, a: int, b: int, c: int, d: int)
    requires 0 <= a <= b <= |s| && 0 <= c <= d <= b - a
    ensures s[a..b][c..d] == s[a + c..a + d]
  {
    forall k | 0 <= k < d - c
      ensures s[a..b][c..d][k] == s[a + c..a + d][k]
    {
    }
  }

  /** An occurrence inside a slice is an occurrence in the whole string. */
  lemma ContainsSlice(s: string, lo: int, hi: int, w: string)
    requires 0 <= lo <= hi <= |s|
    requires Contains(s[lo..hi], w)
    ensures Contains(s, w)
  {
    var t := s[lo..hi];
    var i :| 0 <= i <= |t| - |w| && OccursAt(t, w, i);
    SliceOfSlice(s, lo, hi, i, i + |w|);
    assert OccursAt(s, w, lo + i);
  }

  /** An occurrence of `w` in `l + [sep] + rest` lies inside `l`, inside
      `rest`, or straddles the separator (so `w` contains it). */
  lemma OccurrenceAround(l: string, sep: char, rest: string, w: string, i: int)
    ensures OccursAt(l + [sep] + rest, w, i) ==>
      OccursAt(l, w, i) || OccursAt(rest, w, i - |l| - 1) || sep in w
  {
    var s := l + [sep] + rest;
    if OccursAt(s, w, i) {
      if i + |w| <= |l| {
        SliceOfSlice(s, 0, |l|, i, i + |w|);
        assert s[..|l|] == l;
      } else if i > |l| {
        SliceOfSlice(s, |l| + 1, |s|, i - |l| - 1, i - |l| - 1 + |w|);
        assert s[|l| + 1..] == rest;
      } else {
        assert s[i..i + |w|][|l| - i] == sep;
      }
    }
  }

  /** Joining lines none of which contains `w` cannot create an occurrence
      of `w`, provided `w` is non-empty and does not contain the separator. */
  lemma {:induction false} JoinAvoids(lines: seq<string>, sep: char, w: string)
    requires |w| > 0 && sep !in w
    requires forall k | 0 <= k < |lines| :: !Contains(lines[k], w)
    ensures !Contains(JoinWith(lines, sep), w)
  {
    if |lines| >= 2 {
      var l := lines[0];
      JoinAvoids(lines[1..], sep, w);
      var rest := JoinWith(lines[1..], sep);
      var s := JoinWith(lines, sep);
      assert s == l + [sep] + rest;
      assert !Contains(l, w);
      forall i | 0 <= i <= |s| - |w|
        ensures !OccursAt(s, w, i)
      {
        OccurrenceAround(l, sep, rest, w, i);
      }
    }
  }

  /* ---------- trim ---------- */

  /** The ECMAScript WhiteSpace and LineTerminator code points that
      `String.prototype.trim` removes. */
  predicate IsSpace(c: char)
  {
    c in Whitespace
  }

  const Whitespace: set<char> := {
    '\t', '\n', '\U{000B}', '\U{000C}', '\r', ' ', '\U{00A0}', '\U{1680}',
    '\U{2000}', '\U{2001}', '\U{2002}', '\U{2003}', '\U{2004}', '\U{2005}',
    '\U{2006}', '\U{2007}', '\U{2008}', '\U{2009}', '\U{200A}',
    '\U{2028}', '\U{2029}', '\U{202F}', '\U{205F}', '\U{3000}', '\U{FEFF}'
  }

  /** The number of whitespace characters at the start of `s`. */
  function LeadingSpace(s: string): (n: nat)
    ensures n <= |s|
    ensures forall i | 0 <= i < n :: IsSpace(s[i])
    ensures n == |s| || !IsSpace(s[n])
  {
    if |s| > 0 && IsSpace(s[0]) then 1 + LeadingSpace(s[1..]) else 0
  }

  /** The end of `s[..hi]` once trailing whitespace down to `lo` is dropped. */
  function TrailingEnd(s: string, lo: nat, hi: nat): (e: nat)
    requires lo <= hi <= |s|
    ensures lo <= e <= hi
    ensures forall i | e <= i < hi :: IsSpace(s[i])
    ensures e == lo || !IsSpace(s[e - 1])
    decreases hi
  {
    if hi > lo && IsSpace(s[hi - 1]) then TrailingEnd(s, lo, hi - 1) else hi
  }

  /** `r` is the slice of `s` starting at `lo`, and only whitespace lies
      outside it. */
  predicate SliceWithin(s: string, r: string, lo: int)
  {
    0 <= lo <= |s| - |r| && s[lo..lo + |r|] == r
    && (forall i | 0 <= i < lo :: IsSpace(s[i]))
    && (forall i | lo + |r| <= i < |s| :: IsSpace(s[i]))
  }

  /** `s.trim()`: `s` without its leading and trailing whitespace. The result
      is bounded by non-whitespace and is a slice of `s` outside which lies
      only whitespace. */
  function Trim(s: string): (r: string)
    ensures r == [] || (!IsSpace(r[0]) && !IsSpace(r[|r| - 1]))
    ensures SliceWithin(s, r, LeadingSpace(s))
  {
    var lo := LeadingSpace(s);
    s[lo..TrailingEnd(s, lo, |s|)]
  }

  /** Trimming twice is trimming once. */
  lemma TrimIdempotent(s: string)
    ensures Trim(Trim(s)) == Trim(s)
  {
    TrimOfTrimmed(Trim(s));
  }

  /** A string bounded by non-whitespace is its own trim. */
  lemma TrimOfTrimmed(s: string)
    requires s == [] || (!IsSpace(s[0]) && !IsSpace(s[|s| - 1]))
    ensures Trim(s) == s
  {
    assert LeadingSpace(s) == 0;
    assert TrailingEnd(s, 0, |s|) == |s|;
  }

  /** Trimming cannot create an occurrence of a word. */
  lemma OccurrenceInTrim(s: string, w: string)
    ensures Contains(Trim(s), w) ==> Contains(s, w)
  {
    var r := Trim(s);
    var lo := LeadingSpace(s);
    if Contains(r, w) {
      ContainsSlice(s, lo, lo + |r|, w);
    }
  }

  /* ---------- toLowerCase ---------- */

  /** ASCII lower-casing of one character. */
  function LowerChar(c: char): char
  {
    if 'A' <= c <= 'Z' then (c as int - 'A' as int + 'a' as int) as char else c
  }

  /** `s.toLowerCase()`, restricted to ASCII letters. */
  function Lower(s: string): (r: string)
    ensures |r| == |s|
    ensures forall i | 0 <= i < |s| :: r[i] == LowerChar(s[i])
  {
    seq(|s|, i requires 0 <= i < |s| => LowerChar(s[i]))
  }

  /* ---------- indexOf ---------- */

  /** `xs.indexOf(x)`: the first position of `x`, or -1 when absent. */
  function IndexOf(xs: seq<string>, x: string): (r: int)
    ensures r == -1 <==> x !in xs
    ensures r != -1 ==> 0 <= r < |xs| && xs[r] == x && x !in xs[..r]
  {
    if |xs| == 0 then -1
    else if xs[0] == x then 0
    else
      var k := IndexOf(xs[1..], x);
      assert xs[1..][..if k < 0 then 0 else k] == xs[1..if k < 0 then 1 else k + 1];
      if k == -1 then -1 else k + 1
  }

  /* ---------- integers in template literals ---------- */

  function DigitChar(d: nat): char
    requires d < 10
  {
    "0123456789"[d]
  }

  /** Decimal digits of `n`, most significant first, without leading zeros. */
  function NatToString(n: nat): (r: string)
    ensures |r| >= 1
    ensures forall i | 0 <= i < |r| :: '0' <= r[i] <= '9'
    ensures |r| > 1 ==> r[0] != '0'
  {
    if n < 10 then [DigitChar(n)]
    else NatToString(n / 10) + [DigitChar(n % 10)]
  }

  /** `${i}` for an integer `i`. */
  function IntToString(i: int): string
  {
    if i < 0 then "-" + NatToString(-i) else NatToString(i)
  }

  /** Appending is associative. */
  lemma AppendAssoc<T>(a: seq<T>, b: seq<T>, c: seq<T>)
    ensures (a + b) + c == a + (b + c)
  {
  }
}
