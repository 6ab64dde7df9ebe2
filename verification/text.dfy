/** The string operations the pipeline relies on: Python's `str.strip()`
    (used to judge a run), `str.lower()` (used to resolve a language name) and
    `", ".join(...)` (used to list the supported languages). */
module Text {

  /** Python's `str.isspace()` for one character: the code points of
      bidirectional class WS, B or S, or of general category Zs. */
  predicate IsSpace(c: char)
  {
    var n := c as int;
    || (9 <= n <= 13)
    || (28 <= n <= 32)
    || n == 0x85
    || n == 0xA0
    || n == 0x1680
    || (0x2000 <= n <= 0x200A)
    || n == 0x2028
    || n == 0x2029
    || n == 0x202F
    || n == 0x205F
    || n == 0x3000
  }

  predicate AllSpace(s: string)
  {
    forall i :: 0 <= i < |s| ==> IsSpace(s[i])
  }

  /** Neither the first nor the last character is whitespace. */
  predicate Trimmed(s: string)
  {
    |s| == 0 || (!IsSpace(s[0]) && !IsSpace(s[|s| - 1]))
  }

  /** `m` is what remains of `s` once its leading and trailing whitespace are
      cut off: a trimmed slice of `s` with only whitespace around it. This is
      the reference definition `Strip` is proved against. */
  predicate IsStripOf(s: string, m: string)
  {
    && Trimmed(m)
    && exists i, j :: 0 <= i <= j <= |s| && s[i..j] == m && AllSpace(s[..i]) && AllSpace(s[j..])
  }

  /** Drops the leading whitespace: the result is a suffix of `s` that does
      not start with whitespace, and everything dropped is whitespace. */
  function StripLeft(s: string): (r: string)
    ensures |r| <= |s| && r == s[|s| - |r|..]
    ensures AllSpace(s[..|s| - |r|])
    ensures |r| == 0 || !IsSpace(r[0])
  {
    if |s| > 0 && IsSpace(s[0]) then
      var r := StripLeft(s[1..]);
      assert AllSpace(s[..|s| - |r|]) by {
        forall k | 0 <= k < |s| - |r| ensures IsSpace(s[k]) {
          if k > 0 { assert s[k] == s[1..][..|s| - 1 - |r|][k - 1]; }
        }
      }
      r
    else
      s
  }

  /** Drops the trailing whitespace: the result is a prefix of `s` that does
      not end with whitespace, and everything dropped is whitespace. */
  function StripRight(s: string): (r: string)
    ensures |r| <= |s| && r == s[..|r|]
    ensures AllSpace(s[|r|..])
    ensures |r| == 0 || !IsSpace(r[|r| - 1])
  {
    if |s| > 0 && IsSpace(s[|s| - 1]) then
      var r := StripRight(s[..|s| - 1]);
      assert AllSpace(s[|r|..]) by {
        forall k | |r| <= k < |s| ensures IsSpace(s[k]) {
          if k < |s| - 1 { assert s[k] == s[..|s| - 1][|r|..][k - |r|]; }
        }
      }
      r
    else
      s
  }

  /** Python's `str.strip()` with no argument. */
  function Strip(s: string): (r: string)
    ensures Trimmed(r)
    ensures |r| <= |s|
  {
    var l := StripLeft(s);
    var r := StripRight(l);
    assert |r| > 0 ==> r[0] == l[0];
    r
  }

  lemma AllSpaceConcat(x: string, y: string)
    requires AllSpace(x) && AllSpace(y)
    ensures AllSpace(x + y)
  {
    forall k | 0 <= k < |x + y| ensures IsSpace((x + y)[k]) {
      if k >= |x| { assert (x + y)[k] == y[k - |x|]; }
    }
  }

  lemma SplitThree(s: string, i: nat, j: nat)
    requires i <= j <= |s|
    ensures s == s[..i] + s[i..j] + s[j..]
  {
  }

  lemma ConcatRegroup(a: string, x: string, m: string, y: string, b: string)
    ensures a + (x + m + y) + b == (a + x) + m + (y + b)
  {
  }

  /** Leading whitespace never changes what `StripLeft` keeps. */
  lemma {:induction false} StripLeftAbsorbs(a: string, t: string)
    requires AllSpace(a)
    ensures StripLeft(a + t) == StripLeft(t)
    decreases |a|
  {
    if |a| == 0 {
      assert a + t == t;
    } else {
      assert (a + t)[1..] == a[1..] + t;
      StripLeftAbsorbs(a[1..], t);
    }
  }

  /** Trailing whitespace never changes what `StripRight` keeps. */
  lemma {:induction false} StripRightAbsorbs(t: string, b: string)
    requires AllSpace(b)
    ensures StripRight(t + b) == StripRight(t)
    decreases |b|
  {
    if |b| == 0 {
      assert t + b == t;
    } else {
      assert (t + b)[..|t + b| - 1] == t + b[..|b| - 1];
      StripRightAbsorbs(t, b[..|b| - 1]);
    }
  }

  /** Stripping a trimmed text surrounded by whitespace gives back that text. */
  lemma StripOfPadded(a: string, m: string, b: string)
    requires AllSpace(a) && AllSpace(b) && Trimmed(m)
    ensures Strip(a + m + b) == m
  {
    var t := m + b;
    assert a + m + b == a + t;
    StripLeftAbsorbs(a, t);
    assert Strip(a + t) == StripRight(StripLeft(t));
    if |m| == 0 {
      assert t == b + "";
      StripLeftAbsorbs(b, "");
      assert StripLeft(t) == "";
    } else {
      assert t[0] == m[0];
      StripLeftKeeps(t);
      StripRightAbsorbs(m, b);
      StripRightKeeps(m);
    }
  }

  /** A text that does not start with whitespace is its own `StripLeft`. */
  lemma StripLeftKeeps(t: string)
    requires |t| == 0 || !IsSpace(t[0])
    ensures StripLeft(t) == t
  {
  }

  /** A text that does not end with whitespace is its own `StripRight`. */
  lemma StripRightKeeps(t: string)
    requires |t| == 0 || !IsSpace(t[|t| - 1])
    ensures StripRight(t) == t
  {
  }

  /** A text with no whitespace at either end is its own strip. */
  lemma StripTrimmed(m: string)
    requires Trimmed(m)
    ensures Strip(m) == m
  {
    assert "" + m + "" == m;
    StripOfPadded("", m, "");
  }

  /** Where the stripped text sits inside the original. */
  lemma StripSlice(s: string) returns (i: nat, j: nat)
    ensures i <= j <= |s| && s[i..j] == Strip(s)
    ensures AllSpace(s[..i]) && AllSpace(s[j..])
  {
    var l := StripLeft(s);
    var m := StripRight(l);
    i := |s| - |l|;
    j := i + |m|;
    assert s[i..] == l;
    assert s[i..j] == m by {
      assert s[i..j] == l[..|m|];
    }
    assert s[j..] == l[|m|..];
  }

  /** The stripped text meets the reference definition. */
  lemma StripIsStripOf(s: string)
    ensures IsStripOf(s, Strip(s))
  {
    var i, j := StripSlice(s);
  }

  /** At most one text meets the reference definition. */
  lemma StripOfUnique(s: string, m: string)
    requires IsStripOf(s, m)
    ensures m == Strip(s)
  {
    var i, j :| 0 <= i <= j <= |s| && s[i..j] == m && AllSpace(s[..i]) && AllSpace(s[j..]);
    SplitThree(s, i, j);
    StripOfPadded(s[..i], m, s[j..]);
  }

  /** `Strip` computes exactly the reference definition, in both directions:
      the stripped text is the unique trimmed core with only whitespace
      around it. */
  lemma StripCharacterization(s: string, m: string)
    ensures IsStripOf(s, m) <==> m == Strip(s)
  {
    if IsStripOf(s, m) {
      StripOfUnique(s, m);
    }
    if m == Strip(s) {
      StripIsStripOf(s);
    }
  }

  /** Whitespace added on either side of a text does not change its strip:
      the reason a trailing newline in an expected output is tolerated. */
  lemma {:induction false} StripIgnoresPadding(a: string, s: string, b: string)
    requires AllSpace(a) && AllSpace(b)
    ensures Strip(a + s + b) == Strip(s)
  {
    var m := Strip(s);
    var i, j := StripSlice(s);
    var x, y := s[..i], s[j..];
    SplitThree(s, i, j);
    ConcatRegroup(a, x, m, y, b);
    AllSpaceConcat(a, x);
    AllSpaceConcat(y, b);
    StripOfPadded(a + x, m, y + b);
  }

  /** Stripping twice is stripping once. */
  lemma StripIdempotent(s: string)
    ensures Strip(Strip(s)) == Strip(s)
  {
    var m := Strip(s);
    assert m == "" + m + "";
    StripOfPadded("", m, "");
  }

  /** Python's `str.lower()` on one character, for the ASCII letters. */
  function LowerChar(c: char): char
  {
    if 'A' <= c <= 'Z' then (c as int + 32) as char else c
  }

  predicate IsUpper(c: char)
  {
    'A' <= c <= 'Z'
  }

  /** Python's `str.lower()`, for ASCII case. */
  function Lower(s: string): (r: string)
    ensures |r| == |s|
    ensures forall i :: 0 <= i < |r| ==> !IsUpper(r[i])
    ensures forall i :: 0 <= i < |s| && !IsUpper(s[i]) ==> r[i] == s[i]
    ensures forall i :: 0 <= i < |s| && IsUpper(s[i]) ==> r[i] as int == s[i] as int + 32
  {
    seq(|s|, i requires 0 <= i < |s| => LowerChar(s[i]))
  }

  /** Lower-casing twice is lower-casing once. */
  lemma LowerIdempotent(s: string)
    ensures Lower(Lower(s)) == Lower(s)
  {
  }

  /** Python's `sep.join(xs)`. */
  function Join(sep: string, xs: seq<string>): string
  {
    if |xs| == 0 then "" else if |xs| == 1 then xs[0] else xs[0] + sep + Join(sep, xs[1..])
  }

  /** Python's `t in s` for strings. */
  predicate Contains(s: string, t: string)
  {
    exists i :: 0 <= i <= |s| && t <= s[i..]
  }

  lemma ContainsLeft(s: string, u: string, t: string)
    requires Contains(s, t)
    ensures Contains(s + u, t)
  {
    var i :| 0 <= i <= |s| && t <= s[i..];
    assert (s + u)[i..] == s[i..] + u;
  }

  lemma ContainsRight(s: string, u: string, t: string)
    requires Contains(u, t)
    ensures Contains(s + u, t)
  {
    var i :| 0 <= i <= |u| && t <= u[i..];
    assert (s + u)[|s| + i..] == u[i..];
  }

  lemma ContainsSelf(s: string)
    ensures Contains(s, s)
  {
    assert s[0..] == s;
  }

  /** Every joined item appears in the joined text. */
  lemma {:induction false} JoinContainsEach(sep: string, xs: seq<string>, k: nat)
    requires k < |xs|
    ensures Contains(Join(sep, xs), xs[k])
    decreases |xs|
  {
    if |xs| == 1 {
      ContainsSelf(xs[0]);
    } else {
      assert Join(sep, xs) == (xs[0] + sep) + Join(sep, xs[1..]);
      if k == 0 {
        ContainsSelf(xs[0]);
        ContainsLeft(xs[0], sep, xs[0]);
        ContainsLeft(xs[0] + sep, Join(sep, xs[1..]), xs[0]);
      } else {
        JoinContainsEach(sep, xs[1..], k - 1);
        ContainsRight(xs[0] + sep, Join(sep, xs[1..]), xs[k]);
      }
    }
  }
}
