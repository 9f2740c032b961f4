/** The JavaScript string operations the builder relies on, over `string`
    (a sequence of UTF-16 code units is modelled as a sequence of `char`):
    `Array.prototype.join`, `String.prototype.split` and global replacement
    with a literal pattern, `String.prototype.trim`, and the ASCII case
    folding of a case-insensitive regular expression. */
module Text {

  // ---------------------------------------------------------------------
  // join / split

  /** `xs.join(sep)`: the elements in order, `sep` between consecutive ones
      and none after the last; the empty list joins to "". */
  function Join(xs: seq<string>, sep: string): string
  {
    if |xs| == 0 then ""
    else if |xs| == 1 then xs[0]
    else xs[0] + sep + Join(xs[1..], sep)
  }

  /** Every element followed by `sep`: what a loop that appends `x + sep`
      for each element has built. */
  function Terminated(xs: seq<string>, sep: string): string
  {
    if |xs| == 0 then "" else xs[0] + sep + Terminated(xs[1..], sep)
  }

  /** `s.split(sep)` for a non-empty literal separator: the text is cut at
      every leftmost, non-overlapping occurrence of `sep`; a string without
      one splits into itself alone. */
  function Split(s: string, sep: string): (r: seq<string>)
    requires |sep| > 0
    ensures |r| >= 1
    decreases |s|
  {
    if |s| < |sep| then [s]
    else if s[..|sep|] == sep then [""] + Split(s[|sep|..], sep)
    else
      var rest := Split(s[1..], sep);
      [[s[0]] + rest[0]] + rest[1..]
  }

  /** The number of leftmost, non-overlapping occurrences of `pat` in `s`. */
  function Count(s: string, pat: string): nat
    requires |pat| > 0
    decreases |s|
  {
    if |s| < |pat| then 0
    else if s[..|pat|] == pat then 1 + Count(s[|pat|..], pat)
    else Count(s[1..], pat)
  }

  /** `s.replace(/pat/g, v)` for a pattern that matches only its own
      literal text and a replacement without `$` patterns: every leftmost,
      non-overlapping occurrence of `pat` is replaced by `v`. */
  function ReplaceAll(s: string, pat: string, v: string): string
    requires |pat| > 0
    decreases |s|
  {
    if |s| < |pat| then s
    else if s[..|pat|] == pat then v + ReplaceAll(s[|pat|..], pat, v)
    else [s[0]] + ReplaceAll(s[1..], pat, v)
  }

  /** No element contains the first character of the separator, so no
      occurrence of the separator can start inside an element. */
  predicate AvoidsSeparator(xs: seq<string>, sep: string)
    requires |sep| > 0
  {
    forall k :: 0 <= k < |xs| ==> sep[0] !in xs[k]
  }

  lemma {:induction false} TerminatedSnoc(xs: seq<string>, x: string, sep: string)
    ensures Terminated(xs + [x], sep) == Terminated(xs, sep) + x + sep
    decreases |xs|
  {
    if |xs| == 0 {
      assert xs + [x] == [x];
    } else {
      assert (xs + [x])[1..] == xs[1..] + [x];
      TerminatedSnoc(xs[1..], x, sep);
    }
  }

  /** The join is the terminated prefix followed by the last element, which
      is how a loop that omits the separator after the last element builds
      it. */
  lemma {:induction false} JoinIsTerminatedPrefix(xs: seq<string>, sep: string)
    requires |xs| > 0
    ensures Join(xs, sep) == Terminated(xs[..|xs| - 1], sep) + xs[|xs| - 1]
    decreases |xs|
  {
    if |xs| > 1 {
      JoinIsTerminatedPrefix(xs[1..], sep);
      assert xs[1..][..|xs| - 2] == xs[..|xs| - 1][1..];
    }
  }

  /** Splitting text whose head `a` cannot start a separator keeps `a` at the
      front of the first piece. */
  lemma {:induction false} SplitAfterPlain(a: string, t: string, sep: string)
    requires |sep| > 0 && sep[0] !in a
    ensures Split(a + t, sep) == [a + Split(t, sep)[0]] + Split(t, sep)[1..]
    decreases |a|
  {
    var s := a + t;
    if |a| == 0 {
      var ps := Split(t, sep);
      assert a + ps[0] == ps[0] && s == t;
      assert [ps[0]] + ps[1..] == ps;
    } else if |s| < |sep| {
      assert Split(t, sep) == [t];
    } else {
      assert s[0] == a[0];
      assert s[..|sep|][0] == a[0];
      assert s[..|sep|] != sep;
      assert s[1..] == a[1..] + t;
      SplitAfterPlain(a[1..], t, sep);
      var rest := Split(s[1..], sep);
      assert Split(s, sep) == [[s[0]] + rest[0]] + rest[1..];
      assert rest[0] == a[1..] + Split(t, sep)[0];
      assert rest[1..] == Split(t, sep)[1..];
      assert [s[0]] + rest[0] == a + Split(t, sep)[0];
    }
  }

  /** Join then split gives the elements back, provided no element holds the
      separator's first character. */
  lemma {:induction false} SplitJoin(xs: seq<string>, sep: string)
    requires |sep| > 0 && |xs| > 0 && AvoidsSeparator(xs, sep)
    ensures Split(Join(xs, sep), sep) == xs
    decreases |xs|
  {
    if |xs| == 1 {
      SplitAfterPlain(xs[0], "", sep);
      assert Split("", sep) == [""];
      assert xs[0] + "" == xs[0];
    } else {
      var rest := Join(xs[1..], sep);
      SplitJoin(xs[1..], sep);
      var t := sep + rest;
      assert t[..|sep|] == sep && t[|sep|..] == rest;
      assert Split(t, sep) == [""] + xs[1..];
      SplitAfterPlain(xs[0], t, sep);
      assert xs[0] + t == Join(xs, sep);
      assert Split(t, sep)[0] == "" && Split(t, sep)[1..] == xs[1..];
      assert xs[0] + "" == xs[0];
      assert [xs[0]] + xs[1..] == xs;
    }
  }

  /** Joining the pieces of a split with the separator gives the text back:
      split loses nothing. */
  lemma {:induction false} JoinSplit(s: string, sep: string)
    requires |sep| > 0
    ensures Join(Split(s, sep), sep) == s
    decreases |s|
  {
    if |s| >= |sep| {
      if s[..|sep|] == sep {
        var rest := Split(s[|sep|..], sep);
        JoinSplit(s[|sep|..], sep);
        assert ([""] + rest)[1..] == rest;
        assert "" + sep + s[|sep|..] == s;
      } else {
        var rest := Split(s[1..], sep);
        JoinSplit(s[1..], sep);
        JoinFront([s[0]], rest, sep);
        assert [s[0]] + s[1..] == s;
      }
    }
  }

  /** The pieces of a split are one more than the separators found. */
  lemma {:induction false} SplitLength(s: string, sep: string)
    requires |sep| > 0
    ensures |Split(s, sep)| == Count(s, sep) + 1
    decreases |s|
  {
    if |s| >= |sep| {
      if s[..|sep|] == sep {
        SplitLength(s[|sep|..], sep);
      } else {
        SplitLength(s[1..], sep);
      }
    }
  }

  /** A join of n >= 1 elements that avoid the separator holds exactly n - 1
      separators. */
  lemma JoinCount(xs: seq<string>, sep: string)
    requires |sep| > 0 && |xs| > 0 && AvoidsSeparator(xs, sep)
    ensures Count(Join(xs, sep), sep) == |xs| - 1
  {
    SplitJoin(xs, sep);
    SplitLength(Join(xs, sep), sep);
  }

  lemma {:induction false} JoinFront(a: string, ps: seq<string>, v: string)
    requires |ps| > 0
    ensures Join([a + ps[0]] + ps[1..], v) == a + Join(ps, v)
  {
    var qs := [a + ps[0]] + ps[1..];
    if |ps| > 1 {
      assert qs[1..] == ps[1..];
    }
  }

  /** Global replacement is splitting on the pattern and joining with the
      replacement. */
  lemma {:induction false} ReplaceAllIsSplitJoin(s: string, pat: string, v: string)
    requires |pat| > 0
    ensures ReplaceAll(s, pat, v) == Join(Split(s, pat), v)
    decreases |s|
  {
    if |s| >= |pat| {
      if s[..|pat|] == pat {
        ReplaceAllIsSplitJoin(s[|pat|..], pat, v);
        var ps := Split(s[|pat|..], pat);
        assert ([""] + ps)[1..] == ps;
      } else {
        ReplaceAllIsSplitJoin(s[1..], pat, v);
        JoinFront([s[0]], Split(s[1..], pat), v);
      }
    }
  }

  /** Text without an occurrence of the pattern is left as it is. */
  lemma {:induction false} ReplaceAllWithoutMatch(s: string, pat: string, v: string)
    requires |pat| > 0 && Count(s, pat) == 0
    ensures ReplaceAll(s, pat, v) == s
    decreases |s|
  {
    if |s| >= |pat| {
      ReplaceAllWithoutMatch(s[1..], pat, v);
      assert [s[0]] + s[1..] == s;
    }
  }

  /** Text that cannot start the pattern passes through a global replacement
      unchanged, and the replacement continues after it. */
  lemma {:induction false} ReplaceAllAfterPlain(a: string, t: string, pat: string, v: string)
    requires |pat| > 0 && pat[0] !in a
    ensures ReplaceAll(a + t, pat, v) == a + ReplaceAll(t, pat, v)
    decreases |a|
  {
    var s := a + t;
    if |a| > 0 {
      if |s| < |pat| {
        assert ReplaceAll(t, pat, v) == t;
      } else {
        assert s[..|pat|][0] == a[0];
        assert s[1..] == a[1..] + t;
        ReplaceAllAfterPlain(a[1..], t, pat, v);
        assert [s[0]] + a[1..] == a;
      }
    } else {
      assert s == t;
    }
  }

  /** A global replacement never changes a first character that cannot
      start the pattern. */
  lemma ReplaceAllKeepsHead(s: string, pat: string, v: string)
    requires |pat| > 0 && |s| > 0 && s[0] != pat[0]
    ensures |ReplaceAll(s, pat, v)| > 0 && ReplaceAll(s, pat, v)[0] == s[0]
  {
    if |s| >= |pat| {
      assert s[..|pat|][0] == s[0];
    }
  }

  // ---------------------------------------------------------------------
  // characters

  /** Line terminators: the characters `.` does not match in a regular
      expression and that `trim` removes. */
  predicate IsLineTerminator(c: char)
  {
    c == '\n' || c == '\r' || c == '\U{2028}' || c == '\U{2029}'
  }

  /** ECMAScript white space (tab, vertical tab, form feed, space, no-break
      space, byte order mark, the other space separators) and line
      terminators: what `String.prototype.trim` strips. */
  predicate IsJsWhitespace(c: char)
  {
    || c == '\t' || c == '\U{000B}' || c == '\U{000C}' || c == ' '
    || c == '\U{00A0}' || c == '\U{FEFF}' || c == '\U{1680}'
    || ('\U{2000}' <= c <= '\U{200A}')
    || c == '\U{202F}' || c == '\U{205F}' || c == '\U{3000}'
    || IsLineTerminator(c)
  }

  /** ASCII lower-casing, the canonicalisation a case-insensitive regular
      expression without the `u` flag applies when its pattern is ASCII. */
  function Lower(c: char): (d: char)
    ensures 'A' <= c <= 'Z' ==> d as int == c as int + 32
    ensures !('A' <= c <= 'Z') ==> d == c
  {
    if 'A' <= c <= 'Z' then (c as int + 32) as char else c
  }

  function LowerAll(s: string): (r: string)
    ensures |r| == |s|
    ensures forall i :: 0 <= i < |s| ==> r[i] == Lower(s[i])
  {
    seq(|s|, i requires 0 <= i < |s| => Lower(s[i]))
  }

  // ---------------------------------------------------------------------
  // trim

  /** `s.trimStart()`: the longest suffix that does not start with white
      space; everything dropped is white space. */
  function TrimStart(s: string): (r: string)
    ensures |r| <= |s| && r == s[|s| - |r|..]
    ensures |r| > 0 ==> !IsJsWhitespace(r[0])
    ensures forall i :: 0 <= i < |s| - |r| ==> IsJsWhitespace(s[i])
    decreases |s|
  {
    if |s| > 0 && IsJsWhitespace(s[0]) then TrimStart(s[1..]) else s
  }

  /** `s.trimEnd()`: the longest prefix that does not end with white space;
      everything dropped is white space. */
  function TrimEnd(s: string): (r: string)
    ensures |r| <= |s| && r == s[..|r|]
    ensures |r| > 0 ==> !IsJsWhitespace(r[|r| - 1])
    ensures forall i :: |r| <= i < |s| ==> IsJsWhitespace(s[i])
    decreases |s|
  {
    if |s| > 0 && IsJsWhitespace(s[|s| - 1]) then TrimEnd(s[..|s| - 1]) else s
  }

  /** `s.trim()`: no longer than `s`, with no white space at either end,
      and `s` itself when it has none at either end. */
  function Trim(s: string): (r: string)
    ensures |r| <= |s|
    ensures |r| > 0 ==> !IsJsWhitespace(r[0]) && !IsJsWhitespace(r[|r| - 1])
    ensures |s| > 0 && !IsJsWhitespace(s[0]) && !IsJsWhitespace(s[|s| - 1]) ==> r == s
  {
    TrimEnd(TrimStart(s))
  }

  /** Trimming leaves nothing exactly when every character is white space. */
  lemma TrimEmptyIffBlank(s: string)
    ensures |Trim(s)| == 0 <==> forall i :: 0 <= i < |s| ==> IsJsWhitespace(s[i])
  {
  }
}
