/**
 * The few Python `str` operations the bot applies to model output:
 * `isspace`, `strip`, `startswith`, `endswith`, `find`, `rfind`,
 * slicing with Python's index rules, `split` on one separator and `join`.
 * Strings are sequences of Unicode scalar values; unlike a Python `str`,
 * a Dafny string cannot hold a lone surrogate code point.
 */
module PyStr {

  /** Python's `str.isspace` for one character, by code point. */
  predicate IsSpace(c: char)
  {
    var n := c as int;
    (9 <= n <= 13) || (28 <= n <= 32) || n == 0x85 || n == 0xA0 || n == 0x1680
    || (0x2000 <= n <= 0x200A) || n == 0x2028 || n == 0x2029 || n == 0x202F
    || n == 0x205F || n == 0x3000
  }

  /** Every character of `s` is whitespace (vacuously so for the empty string). */
  predicate Blank(s: string)
  {
    forall i :: 0 <= i < |s| ==> IsSpace(s[i])
  }

  predicate StartsWith(s: string, prefix: string)
  {
    |prefix| <= |s| && s[..|prefix|] == prefix
  }

  predicate EndsWith(s: string, suffix: string)
  {
    |suffix| <= |s| && s[|s| - |suffix|..] == suffix
  }

  /** `s.lstrip()`: what is left of `s` after its leading whitespace. */
  function LStrip(s: string): (r: string)
    ensures |r| <= |s| && r == s[|s| - |r|..]
    ensures Blank(s[..|s| - |r|])
    ensures r == [] || !IsSpace(r[0])
    decreases |s|
  {
    if |s| > 0 && IsSpace(s[0]) then
      var r := LStrip(s[1..]);
      assert s[..|s| - |r|] == [s[0]] + s[1..][..|s| - 1 - |r|];
      BlankCons(s[0], s[1..][..|s| - 1 - |r|]);
      r
    else s
  }

  /** `s.rstrip()`: what is left of `s` before its trailing whitespace. */
  function RStrip(s: string): (r: string)
    ensures |r| <= |s| && r == s[..|r|]
    ensures Blank(s[|r|..])
    ensures r == [] || !IsSpace(r[|r| - 1])
    decreases |s|
  {
    if |s| > 0 && IsSpace(s[|s| - 1]) then
      var t := s[..|s| - 1];
      var r := RStrip(t);
      assert r == s[..|r|];
      assert s[|r|..] == t[|r|..] + [s[|s| - 1]];
      BlankSnoc(t[|r|..], s[|s| - 1]);
      r
    else s
  }

  lemma BlankCons(c: char, s: string)
    requires IsSpace(c) && Blank(s)
    ensures Blank([c] + s)
  {
    assert forall i :: 0 < i <= |s| ==> ([c] + s)[i] == s[i - 1];
  }

  lemma BlankSnoc(s: string, c: char)
    requires Blank(s) && IsSpace(c)
    ensures Blank(s + [c])
  {
    assert forall i :: 0 <= i < |s| ==> (s + [c])[i] == s[i];
  }

  /** `s.strip()`: the result neither starts nor ends with whitespace. */
  function Strip(s: string): (r: string)
    ensures |r| <= |s|
    ensures r == [] || (!IsSpace(r[0]) && !IsSpace(r[|r| - 1]))
  {
    RStrip(LStrip(s))
  }

  /**
   * `strip` removes only whitespace: the input is whitespace, then the
   * result, then whitespace.
   */
  lemma StripIsInfix(s: string)
    ensures var r, p := Strip(s), |s| - |LStrip(s)|;
      && p + |Strip(s)| <= |s|
      && r == s[p..p + |r|]
      && Blank(s[..p]) && Blank(s[p + |r|..])
  {
    var l := LStrip(s);
    var p := |s| - |l|;
    var r := RStrip(l);
    assert s[p + |r|..] == l[|r|..];
  }

  /** Stripping whitespace around a text without outer whitespace gives that text back. */
  lemma StripPadding(pre: string, t: string, post: string)
    requires Blank(pre) && Blank(post)
    requires t == [] || (!IsSpace(t[0]) && !IsSpace(t[|t| - 1]))
    ensures Strip(pre + t + post) == t
  {
    assert pre + t + post == pre + (t + post);
    LStripPadding(pre, t + post);
    if t == [] {
      assert t + post == post;
      assert LStrip(post) == [];
    } else {
      assert LStrip(t + post) == t + post;
      RStripPadding(t, post);
    }
  }

  /** Leading whitespace makes no difference to `lstrip`. */
  lemma {:induction false} LStripPadding(pre: string, s: string)
    requires Blank(pre)
    ensures LStrip(pre + s) == LStrip(s)
    decreases |pre|
  {
    if |pre| > 0 {
      assert (pre + s)[1..] == pre[1..] + s;
      LStripPadding(pre[1..], s);
    } else {
      assert pre + s == s;
    }
  }

  /** Trailing whitespace after a text that ends in a non-space is what `rstrip` removes. */
  lemma {:induction false} RStripPadding(t: string, post: string)
    requires Blank(post)
    requires t == [] || !IsSpace(t[|t| - 1])
    ensures RStrip(t + post) == t
    decreases |post|
  {
    if |post| > 0 {
      var last := |post| - 1;
      assert (t + post)[..|t + post| - 1] == t + post[..last];
      RStripPadding(t, post[..last]);
    } else {
      assert t + post == t;
    }
  }

  /** `strip` is idempotent. */
  lemma StripIdempotent(s: string)
    ensures Strip(Strip(s)) == Strip(s)
  {
    var t := Strip(s);
    StripPadding([], t, []);
    assert [] + t + [] == t;
  }

  /** Python's normalisation of a slice bound `i` for a sequence of length `n`. */
  function Clamp(i: int, n: nat): (k: nat)
    ensures k <= n
    ensures 0 <= i <= n ==> k == i
    ensures i < 0 && 0 <= i + n ==> k == i + n
    ensures i + n < 0 ==> k == 0
    ensures i > n ==> k == n
  {
    if i < 0 then (if i + n < 0 then 0 else i + n)
    else if i > n then n
    else i
  }

  /** Python's `s[start:stop]`: bounds may be negative or past the end; an inverted range is empty. */
  function Slice<T>(s: seq<T>, start: int, stop: int): (r: seq<T>)
    ensures 0 <= start <= stop <= |s| ==> r == s[start..stop]
    ensures r == [] <==> Clamp(stop, |s|) <= Clamp(start, |s|)
  {
    var lo, hi := Clamp(start, |s|), Clamp(stop, |s|);
    if lo < hi then s[lo..hi] else []
  }

  /** `s.find(c)`: the first index of `c`, or -1. */
  function Find(s: string, c: char): (r: int)
    ensures -1 <= r < |s|
    ensures r == -1 <==> c !in s
    ensures r >= 0 ==> s[r] == c
    ensures forall j :: 0 <= j < r ==> s[j] != c
    decreases |s|
  {
    if |s| == 0 then -1
    else if s[0] == c then 0
    else
      var k := Find(s[1..], c);
      if k == -1 then -1 else k + 1
  }

  /** `s.rfind(c)`: the last index of `c`, or -1. */
  function RFind(s: string, c: char): (r: int)
    ensures -1 <= r < |s|
    ensures r == -1 <==> c !in s
    ensures r >= 0 ==> s[r] == c
    ensures forall j :: r < j < |s| ==> s[j] != c
    decreases |s|
  {
    if |s| == 0 then -1
    else if s[|s| - 1] == c then |s| - 1
    else RFind(s[..|s| - 1], c)
  }

  /** `s.split(sep)` for a one-character separator: the pieces between separators, at least one. */
  function Split(s: string, sep: char): (r: seq<string>)
    ensures |r| >= 1
    ensures forall k :: 0 <= k < |r| ==> sep !in r[k]
    decreases |s|
  {
    if |s| == 0 then [[]]
    else
      var rest := Split(s[1..], sep);
      if s[0] == sep then [[]] + rest
      else [[s[0]] + rest[0]] + rest[1..]
  }

  /** `sep.join(parts)` for a one-character separator. */
  function Join(parts: seq<string>, sep: char): string
  {
    if |parts| == 0 then []
    else if |parts| == 1 then parts[0]
    else parts[0] + [sep] + Join(parts[1..], sep)
  }

  /** A character put in front of the first piece is put in front of the join. */
  lemma JoinHead(c: char, p: string, ps: seq<string>, sep: char)
    ensures Join([[c] + p] + ps, sep) == [c] + Join([p] + ps, sep)
  {
    if |ps| > 0 {
      assert ([[c] + p] + ps)[1..] == ps;
      assert ([p] + ps)[1..] == ps;
    }
  }

  /** Joining the pieces of a split gives the text back. */
  lemma {:induction false} JoinSplit(s: string, sep: char)
    ensures Join(Split(s, sep), sep) == s
    decreases |s|
  {
    if |s| > 0 {
      var rest := Split(s[1..], sep);
      JoinSplit(s[1..], sep);
      if s[0] == sep {
        assert ([[]] + rest)[1..] == rest;
      } else {
        JoinHead(s[0], rest[0], rest[1..], sep);
        assert [rest[0]] + rest[1..] == rest;
      }
      assert s == [s[0]] + s[1..];
    }
  }

  /** A separator-free piece followed by the separator splits off as the first piece. */
  lemma {:induction false} SplitCons(p: string, t: string, sep: char)
    requires sep !in p
    ensures Split(p + [sep] + t, sep) == [p] + Split(t, sep)
    decreases |p|
  {
    var s := p + [sep] + t;
    if |p| == 0 {
      assert s[1..] == t;
    } else {
      assert s[1..] == p[1..] + [sep] + t;
      SplitCons(p[1..], t, sep);
      assert [p[0]] + p[1..] == p;
    }
  }

  /** A separator followed by a separator-free tail splits off that tail as the last piece. */
  lemma {:induction false} SplitSnoc(t: string, q: string, sep: char)
    requires sep !in q
    ensures Split(t + [sep] + q, sep) == Split(t, sep) + [q]
    decreases |t|
  {
    var s := t + [sep] + q;
    if |t| == 0 {
      assert s[1..] == q;
      NoSeparator(q, sep);
    } else {
      assert s[1..] == t[1..] + [sep] + q;
      SplitSnoc(t[1..], q, sep);
      var r := Split(t[1..], sep);
      assert (r + [q])[0] == r[0];
      assert (r + [q])[1..] == r[1..] + [q];
    }
  }

  /** A text without the separator splits into itself alone. */
  lemma {:induction false} NoSeparator(s: string, sep: char)
    requires sep !in s
    ensures Split(s, sep) == [s]
    decreases |s|
  {
    if |s| > 0 {
      NoSeparator(s[1..], sep);
      assert [s[0]] + s[1..] == s;
    }
  }

  /** Splitting a join of separator-free pieces gives the pieces back. */
  lemma {:induction false} SplitJoin(parts: seq<string>, sep: char)
    requires |parts| >= 1
    requires forall k :: 0 <= k < |parts| ==> sep !in parts[k]
    ensures Split(Join(parts, sep), sep) == parts
    decreases |parts|
  {
    if |parts| == 1 {
      NoSeparator(parts[0], sep);
    } else {
      SplitCons(parts[0], Join(parts[1..], sep), sep);
      SplitJoin(parts[1..], sep);
      assert [parts[0]] + parts[1..] == parts;
    }
  }
}
