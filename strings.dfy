/**
 * The JavaScript string operations the core relies on, over `seq<char>`:
 * `includes`, `startsWith`, `endsWith`, `split` on one character,
 * `join`, `replace` of the first occurrence and global replacement.
 */
module Strings {

  /** `s.startsWith(t)`. */
  predicate StartsWith(s: string, t: string) {
    |t| <= |s| && s[..|t|] == t
  }

  /** `s.endsWith(t)`. */
  predicate EndsWith(s: string, t: string) {
    |t| <= |s| && s[|s| - |t|..] == t
  }

  /** `s.includes(t)`: some position of `s` starts an occurrence of `t`. */
  predicate Contains(s: string, t: string)
    decreases |s|
  {
    StartsWith(s, t) || (|s| > 0 && Contains(s[1..], t))
  }

  /** An occurrence at a known position is found by `Contains`. */
  lemma {:induction false} ContainsAt(s: string, t: string, i: nat)
    requires i + |t| <= |s| && s[i..i + |t|] == t
    ensures Contains(s, t)
    decreases i
  {
    if i == 0 {
      assert s[..|t|] == t;
    } else {
      assert s[1..][i - 1..i - 1 + |t|] == s[i..i + |t|];
      ContainsAt(s[1..], t, i - 1);
    }
  }

  /** `a + t + b` contains `t`. */
  lemma ContainsMiddle(a: string, t: string, b: string)
    ensures Contains(a + t + b, t)
  {
    assert (a + t + b)[|a|..|a| + |t|] == t;
    ContainsAt(a + t + b, t, |a|);
  }

  /** A string that lacks one of the characters of `t` cannot contain `t`. */
  lemma {:induction false} NotContainsMissingChar(s: string, t: string, c: char)
    requires c in t && c !in s
    ensures !Contains(s, t)
    decreases |s|
  {
    if |s| > 0 {
      NotContainsMissingChar(s[1..], t, c);
    }
  }

  /** A string in which `a` is never followed by `b` does not contain `ab`. */
  lemma {:induction false} NotContainsPair(s: string, a: char, b: char)
    requires forall i :: 0 <= i < |s| - 1 && s[i] == a ==> s[i + 1] != b
    ensures !Contains(s, [a, b])
    decreases |s|
  {
    if |s| > 0 {
      forall i | 0 <= i < |s[1..]| - 1 && s[1..][i] == a ensures s[1..][i + 1] != b {
        assert s[1..][i] == s[i + 1] && s[1..][i + 1] == s[i + 2];
      }
      NotContainsPair(s[1..], a, b);
      if |s| >= 2 {
        assert s[..2][0] == s[0] && s[..2][1] == s[1];
      }
    }
  }

  /** Whatever contains `a + t` contains `t`. */
  lemma {:induction false} ContainsSuffixOfPattern(s: string, a: string, t: string)
    requires Contains(s, a + t)
    ensures Contains(s, t)
    decreases |s|
  {
    if StartsWith(s, a + t) {
      assert s[|a|..|a| + |t|] == (a + t)[|a|..] == t;
      ContainsAt(s, t, |a|);
    } else {
      ContainsSuffixOfPattern(s[1..], a, t);
    }
  }

  /** The first character of a non-empty pattern found in `s` occurs in `s`. */
  lemma {:induction false} ContainsFirstChar(s: string, t: string)
    requires |t| > 0 && Contains(s, t)
    ensures t[0] in s
    decreases |s|
  {
    if StartsWith(s, t) {
      assert s[0] == s[..|t|][0];
    } else {
      ContainsFirstChar(s[1..], t);
    }
  }

  /** Position of the first occurrence of `t` in `s`, as `s.indexOf(t)` (with `|s|` for -1). */
  function IndexOf(s: string, t: string): (i: nat)
    ensures i <= |s|
    ensures i < |s| || t == [] ==> i + |t| <= |s| && s[i..i + |t|] == t
    ensures forall j :: 0 <= j < i ==> !StartsWith(s[j..], t)
    decreases |s|
  {
    if StartsWith(s, t) then 0
    else if |s| == 0 then 0
    else
      var k := IndexOf(s[1..], t);
      assert s[0..] == s;
      assert forall j :: 1 <= j <= k ==> s[j..] == s[1..][j - 1..];
      if k == |s| - 1 then |s|
      else
        assert s[k + 1..k + 1 + |t|] == s[1..][k..k + |t|];
        k + 1
  }

  /** The first occurrence is found right after a prefix that lacks the pattern's first character. */
  lemma {:induction false} IndexOfPastPrefix(a: string, b: string, t: string)
    requires |t| > 0 && t[0] !in a && StartsWith(b, t)
    ensures IndexOf(a + b, t) == |a|
    decreases |a|
  {
    if |a| > 0 {
      assert (a + b)[0] == a[0];
      assert (a + b)[1..] == a[1..] + b;
      IndexOfPastPrefix(a[1..], b, t);
    } else {
      assert a + b == b;
    }
  }

  /** `s.replace(t, r)` with a string pattern: only the first occurrence is replaced. */
  function ReplaceFirst(s: string, t: string, r: string): string {
    var i := IndexOf(s, t);
    if i + |t| <= |s| && s[i..i + |t|] == t then s[..i] + r + s[i + |t|..] else s
  }

  /**
   * Global literal replacement, the effect of `s.replace(/pat/g, rep)` when `rep`
   * is taken literally: occurrences are found left to right, do not overlap, and
   * the inserted text is not searched again.
   */
  function ReplaceAll(s: string, pat: string, rep: string): string
    requires |pat| > 0
    decreases |s|
  {
    if |s| < |pat| then s
    else if s[..|pat|] == pat then rep + ReplaceAll(s[|pat|..], pat, rep)
    else [s[0]] + ReplaceAll(s[1..], pat, rep)
  }

  /** One step of `ReplaceAll` at a position that does not start the pattern. */
  lemma ReplaceAllNoMatchHere(s: string, pat: string, rep: string)
    requires |pat| > 0 && |s| > 0 && !StartsWith(s, pat)
    ensures ReplaceAll(s, pat, rep) == [s[0]] + ReplaceAll(s[1..], pat, rep)
  {
    if |s| < |pat| {
      assert [s[0]] + s[1..] == s;
    }
  }

  /** An occurrence at the start is replaced, and the scan goes on after it. */
  lemma ReplaceAllAtStart(pat: string, b: string, rep: string)
    requires |pat| > 0
    ensures ReplaceAll(pat + b, pat, rep) == rep + ReplaceAll(b, pat, rep)
  {
    assert (pat + b)[..|pat|] == pat && (pat + b)[|pat|..] == b;
  }

  /** A prefix free of the pattern's first character is copied unchanged. */
  lemma {:induction false} ReplaceAllSkip(a: string, b: string, pat: string, rep: string)
    requires |pat| > 0 && pat[0] !in a
    ensures ReplaceAll(a + b, pat, rep) == a + ReplaceAll(b, pat, rep)
    decreases |a|
  {
    if |a| > 0 {
      assert (a + b)[0] == a[0] != pat[0];
      ReplaceAllNoMatchHere(a + b, pat, rep);
      assert (a + b)[1..] == a[1..] + b;
      ReplaceAllSkip(a[1..], b, pat, rep);
      assert [a[0]] + a[1..] == a;
    } else {
      assert a + b == b;
    }
  }

  /** A string without any occurrence of the pattern is left as it is. */
  lemma {:induction false} ReplaceAllAbsent(s: string, pat: string, rep: string)
    requires |pat| > 0 && !Contains(s, pat)
    ensures ReplaceAll(s, pat, rep) == s
    decreases |s|
  {
    if |s| > 0 {
      ReplaceAllNoMatchHere(s, pat, rep);
      ReplaceAllAbsent(s[1..], pat, rep);
      assert [s[0]] + s[1..] == s;
    }
  }

  /** `s.split(sep)` for a one-character separator: the pieces between separators, always at least one. */
  function Split(s: string, sep: char): (parts: seq<string>)
    ensures |parts| > 0
    decreases |s|
  {
    if |s| == 0 then [""]
    else if s[0] == sep then [""] + Split(s[1..], sep)
    else
      var rest := Split(s[1..], sep);
      [[s[0]] + rest[0]] + rest[1..]
  }

  /** `parts.join(sep)`. */
  function Join(parts: seq<string>, sep: string): string
    decreases |parts|
  {
    if |parts| == 0 then ""
    else if |parts| == 1 then parts[0]
    else parts[0] + sep + Join(parts[1..], sep)
  }

  /** A string without the separator is a single piece. */
  lemma {:induction false} SplitNoSeparator(s: string, sep: char)
    requires sep !in s
    ensures Split(s, sep) == [s]
    decreases |s|
  {
    if |s| > 0 {
      assert s[0] in s;
      assert forall c :: c in s[1..] ==> c in s;
      SplitNoSeparator(s[1..], sep);
      assert [s[0]] + s[1..] == s;
    }
  }

  /** Splitting `a + sep + b` splits `a` and `b` separately. */
  lemma {:induction false} SplitAppend(a: string, sep: char, b: string)
    ensures Split(a + [sep] + b, sep) == Split(a, sep) + Split(b, sep)
    decreases |a|
  {
    if |a| == 0 {
      assert a + [sep] + b == [sep] + b;
      SplitStep(sep, b, sep);
    } else {
      var t := a[1..] + [sep] + b;
      assert a + [sep] + b == [a[0]] + t;
      assert a == [a[0]] + a[1..];
      SplitAppend(a[1..], sep, b);
      SplitStep(a[0], t, sep);
      SplitStep(a[0], a[1..], sep);
      if a[0] != sep {
        PrependToFirst([a[0]], Split(a[1..], sep), Split(b, sep));
      }
    }
  }

  /** One step of `Split` on a string with a known first character. */
  lemma SplitStep(c: char, t: string, sep: char)
    ensures Split([c] + t, sep) == if c == sep then [""] + Split(t, sep)
                                   else [[c] + Split(t, sep)[0]] + Split(t, sep)[1..]
  {
    assert ([c] + t)[0] == c && ([c] + t)[1..] == t;
  }

  /** Extending the first piece of a concatenation of piece lists extends the first piece of its first part. */
  lemma PrependToFirst(x: string, p: seq<string>, q: seq<string>)
    requires |p| > 0
    ensures [x + (p + q)[0]] + (p + q)[1..] == ([x + p[0]] + p[1..]) + q
  {
    assert (p + q)[0] == p[0];
    assert (p + q)[1..] == p[1..] + q;
  }
}
