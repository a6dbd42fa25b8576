/** The string primitives of JavaScript that the components rely on:
    `String.prototype.trim`, `split` and `join` with a one-character
    separator, and `startsWith`. A string is a sequence of Unicode scalar
    values. */
module Text {

  /** The code points `trim` strips: ECMAScript's WhiteSpace production
      (tab, vertical tab, form feed, space, no-break space, byte order mark
      and the Unicode space separators U+1680, U+2000 to U+200A, U+202F,
      U+205F and U+3000) and its LineTerminator production (line feed,
      carriage return, line and paragraph separators). */
  const WhitespaceChars: set<char> := {
    '\t', '\n', '\U{000B}', '\U{000C}', '\r', ' ', '\U{00A0}', '\U{1680}',
    '\U{2000}', '\U{2001}', '\U{2002}', '\U{2003}', '\U{2004}', '\U{2005}',
    '\U{2006}', '\U{2007}', '\U{2008}', '\U{2009}', '\U{200A}',
    '\U{2028}', '\U{2029}', '\U{202F}', '\U{205F}', '\U{3000}', '\U{FEFF}'
  }

  predicate IsWhitespace(c: char) {
    c in WhitespaceChars
  }

  predicate AllWhitespace(s: string) {
    forall i {:trigger IsWhitespace(s[i])} :: 0 <= i < |s| ==> IsWhitespace(s[i])
  }

  /** Neither end of `s` is whitespace: what `trim` leaves behind. */
  predicate IsTrimmed(s: string) {
    |s| == 0 || (!IsWhitespace(s[0]) && !IsWhitespace(s[|s| - 1]))
  }

  /** How many whitespace characters `s` starts with. */
  function LeadingSpace(s: string): (n: nat)
    ensures n <= |s|
  {
    if |s| > 0 && IsWhitespace(s[0]) then 1 + LeadingSpace(s[1..]) else 0
  }

  /** How many whitespace characters `s` ends with. */
  function TrailingSpace(s: string): (n: nat)
    ensures n <= |s|
  {
    if |s| > 0 && IsWhitespace(s[|s| - 1]) then 1 + TrailingSpace(s[..|s| - 1]) else 0
  }

  /** The leading run is all whitespace and stops at the first other
      character. */
  lemma {:induction false} LeadingRun(s: string)
    ensures var n := LeadingSpace(s);
      AllWhitespace(s[..n]) && (n == |s| || !IsWhitespace(s[n]))
  {
    if |s| > 0 && IsWhitespace(s[0]) {
      LeadingRun(s[1..]);
      var n := LeadingSpace(s);
      assert s[..n] == [s[0]] + s[1..][..n - 1];
    }
  }

  /** The trailing run is all whitespace and stops at the last other
      character. */
  lemma {:induction false} TrailingRun(s: string)
    ensures var n := TrailingSpace(s);
      AllWhitespace(s[|s| - n..]) && (n == |s| || !IsWhitespace(s[|s| - n - 1]))
  {
    if |s| > 0 && IsWhitespace(s[|s| - 1]) {
      TrailingRun(s[..|s| - 1]);
      var n := TrailingSpace(s);
      assert s[|s| - n..] == s[..|s| - 1][|s| - n..] + [s[|s| - 1]];
    }
  }

  /** JavaScript's `s.trim()`: `s` without its leading and its trailing
      run of whitespace. */
  function Trim(s: string): string {
    Middle(s, LeadingSpace(s), TrailingSpace(s))
  }

  /** `s` without its first `a` and its last `b` characters. */
  function Middle(s: string, a: nat, b: nat): string {
    if a + b >= |s| then [] else s[a..|s| - b]
  }

  /** What `trim` leaves neither starts nor ends with whitespace, is no
      longer than its input, and is empty exactly when the input was all
      whitespace. */
  lemma TrimSpec(s: string)
    ensures IsTrimmed(Trim(s))
    ensures |Trim(s)| <= |s|
    ensures |Trim(s)| == 0 <==> AllWhitespace(s)
  {
    LeadingSpaceAll(s);
    if LeadingSpace(s) < |s| {
      SpaceRunsApart(s);
      TrimMiddle(s);
    }
  }

  /** What `Trim` cuts away: a run of whitespace at the front and one at the
      back; what it keeps is the contiguous part of `s` between them, or
      nothing when the front run is all of `s`. */
  lemma TrimSlice(s: string)
    ensures var a, b := LeadingSpace(s), TrailingSpace(s);
      && AllWhitespace(s[..a]) && AllWhitespace(s[|s| - b..])
      && (a == |s| ==> Trim(s) == [])
      && (a < |s| ==> a + b < |s| && Trim(s) == s[a..|s| - b])
  {
    LeadingRun(s);
    TrailingRun(s);
    if LeadingSpace(s) < |s| {
      SpaceRunsApart(s);
      TrimMiddle(s);
    }
  }

  /** The leading run of whitespace is all of `s` exactly when `s` is all
      whitespace. */
  lemma LeadingSpaceAll(s: string)
    ensures LeadingSpace(s) == |s| <==> AllWhitespace(s)
  {
    LeadingRun(s);
    if LeadingSpace(s) == |s| {
      assert s[..|s|] == s;
    }
  }

  /** Otherwise the two runs are separated, and each stops at a
      non-whitespace character. */
  lemma SpaceRunsApart(s: string)
    requires LeadingSpace(s) < |s|
    ensures var a, b := LeadingSpace(s), TrailingSpace(s);
      a + b < |s| && !IsWhitespace(s[a]) && !IsWhitespace(s[|s| - b - 1])
  {
    LeadingRun(s);
    TrailingRun(s);
    var a, b := LeadingSpace(s), TrailingSpace(s);
    assert !IsWhitespace(s[a]);
  }

  /** Trimming keeps the part between the two runs. */
  lemma TrimMiddle(s: string)
    requires LeadingSpace(s) + TrailingSpace(s) < |s|
    ensures Trim(s) == s[LeadingSpace(s)..|s| - TrailingSpace(s)]
  {
    MiddleSlice(s, LeadingSpace(s), TrailingSpace(s));
  }

  lemma MiddleSlice(s: string, a: nat, b: nat)
    requires a + b < |s|
    ensures Middle(s, a, b) == s[a..|s| - b]
  {
  }

  /** Trimming is idempotent. */
  lemma TrimTrimmed(s: string)
    requires IsTrimmed(s)
    ensures Trim(s) == s
  {
    if |s| > 0 {
      assert LeadingSpace(s) == 0 && TrailingSpace(s) == 0;
      assert s[0..|s|] == s;
    }
  }

  lemma TrimIdempotent(s: string)
    ensures Trim(Trim(s)) == Trim(s)
  {
    TrimSpec(s);
    TrimTrimmed(Trim(s));
  }

  predicate StartsWith(s: string, prefix: string) {
    |prefix| <= |s| && s[..|prefix|] == prefix
  }

  /** JavaScript's `s.split(sep)` for a one-character separator: the pieces
      between separators, always at least one, none containing `sep`. */
  function Split(s: string, sep: char): (r: seq<string>)
    ensures |r| >= 1
    ensures forall i :: 0 <= i < |r| ==> sep !in r[i]
    ensures sep !in s ==> r == [s]
    ensures sep in s ==> |r| >= 2
  {
    if |s| == 0 then [""]
    else
      var rest := Split(s[1..], sep);
      assert sep in s <==> s[0] == sep || sep in s[1..];
      assert s == [s[0]] + s[1..];
      if s[0] == sep then [""] + rest
      else [[s[0]] + rest[0]] + rest[1..]
  }

  /** JavaScript's `parts.join(sep)` for a one-character separator. */
  function Join(parts: seq<string>, sep: char): string {
    if |parts| == 0 then ""
    else if |parts| == 1 then parts[0]
    else parts[0] + [sep] + Join(parts[1..], sep)
  }

  function Last<T>(xs: seq<T>): T
    requires |xs| > 0
  {
    xs[|xs| - 1]
  }

  /** Joining appends one more piece after one more separator. */
  lemma {:induction false} JoinSnoc(parts: seq<string>, x: string, sep: char)
    requires |parts| >= 1
    ensures Join(parts + [x], sep) == Join(parts, sep) + [sep] + x
  {
    if |parts| == 1 {
      assert parts + [x] == [parts[0], x];
    } else {
      assert (parts + [x])[1..] == parts[1..] + [x];
      JoinSnoc(parts[1..], x, sep);
    }
  }

  /** Splitting a piece free of `sep` off the front of a string. */
  lemma {:induction false} SplitCons(p: string, sep: char, x: string)
    requires sep !in p
    ensures Split(p + [sep] + x, sep) == [p] + Split(x, sep)
    decreases |p|
  {
    var s := p + [sep] + x;
    if |p| == 0 {
      assert s[1..] == x;
    } else {
      assert s[1..] == p[1..] + [sep] + x;
      SplitCons(p[1..], sep, x);
      assert [s[0]] + p[1..] == p;
    }
  }

  /** A separator between two strings splits them apart: the last piece of
      the first and the first piece of the second stay separate. */
  lemma {:induction false} SplitAppend(a: string, sep: char, b: string)
    ensures Split(a + [sep] + b, sep) == Split(a, sep) + Split(b, sep)
    decreases |a|
  {
    var s := a + [sep] + b;
    if |a| == 0 {
      assert s[1..] == b;
    } else {
      assert s[0] == a[0] && s[1..] == a[1..] + [sep] + b;
      SplitAppend(a[1..], sep, b);
      SplitStep(s, sep);
      SplitStep(a, sep);
      var tail := Split(a[1..], sep);
      PrependPiece(a[0], sep, tail, Split(b, sep));
    }
  }

  /** One step of `Split`: the first character either ends the first piece
      or joins it. */
  function SplitFirst(c: char, sep: char, rest: seq<string>): seq<string>
    requires |rest| >= 1
  {
    if c == sep then [""] + rest else [[c] + rest[0]] + rest[1..]
  }

  lemma SplitStep(s: string, sep: char)
    requires |s| > 0
    ensures Split(s, sep) == SplitFirst(s[0], sep, Split(s[1..], sep))
  {
  }

  lemma PrependPiece(c: char, sep: char, xs: seq<string>, ys: seq<string>)
    requires |xs| >= 1
    ensures SplitFirst(c, sep, xs + ys) == SplitFirst(c, sep, xs) + ys
  {
    if c != sep {
      assert (xs + ys)[1..] == xs[1..] + ys;
    }
  }

  /** `join` undoes `split`. */
  lemma {:induction false} JoinSplit(s: string, sep: char)
    ensures Join(Split(s, sep), sep) == s
    decreases |s|
  {
    if |s| > 0 {
      var rest := Split(s[1..], sep);
      JoinSplit(s[1..], sep);
      if s[0] == sep {
        assert Split(s, sep) == [""] + rest;
        if |rest| == 1 {
          assert s == [sep] + rest[0];
        } else {
          assert ([""] + rest)[1..] == rest;
          assert Join(rest, sep) == rest[0] + [sep] + Join(rest[1..], sep);
          assert s == [s[0]] + s[1..];
        }
      } else {
        assert s == [s[0]] + s[1..];
        if |rest| == 1 {
          assert Split(s, sep) == [[s[0]] + rest[0]];
        } else {
          var r := Split(s, sep);
          assert r == [[s[0]] + rest[0]] + rest[1..];
          assert r[1..] == rest[1..];
        }
      }
    }
  }

  /** `split` undoes `join` when no piece contains the separator. */
  lemma {:induction false} SplitJoin(parts: seq<string>, sep: char)
    requires |parts| >= 1
    requires forall i :: 0 <= i < |parts| ==> sep !in parts[i]
    ensures Split(Join(parts, sep), sep) == parts
  {
    if |parts| > 1 {
      SplitJoin(parts[1..], sep);
      SplitCons(parts[0], sep, Join(parts[1..], sep));
      assert parts == [parts[0]] + parts[1..];
    }
  }

  /** The last piece of a split of a string holding the separator is the
      text after its last separator. */
  lemma {:induction false} SplitLast(s: string, sep: char)
    requires sep in s
    ensures var e := Last(Split(s, sep));
      && |e| < |s|
      && e == s[|s| - |e|..]
      && s[|s| - |e| - 1] == sep
    decreases |s|
  {
    var t := s[1..];
    var rest := Split(t, sep);
    if s[0] == sep {
      assert Split(s, sep) == [""] + rest;
      if sep in t {
        SplitLast(t, sep);
      } else {
        assert rest == [t];
      }
    } else {
      assert sep in t;
      SplitLast(t, sep);
      assert Split(s, sep) == [[s[0]] + rest[0]] + rest[1..];
    }
  }
}
