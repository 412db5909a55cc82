/** The handful of Python string operations the pipeline relies on, with the
    Python semantics written out: slicing that clamps its bounds, `str.join`,
    `str.endswith`, the `in` substring test, ASCII `str.lower`, and the
    "first n characters plus an ellipsis" preview used for excerpts. */
module Strings {

  function Min(a: int, b: int): int { if a <= b then a else b }
  function Max(a: int, b: int): int { if a <= b then b else a }

  /** Python's `s[lo:hi]` for non-negative bounds: both bounds are clamped to
      the length, and an empty range gives the empty string. */
  function Slice(s: string, lo: nat, hi: nat): (r: string)
    ensures |r| == Max(0, Min(hi, |s|) - lo)
    ensures lo <= |s| && lo <= hi ==> r == s[lo..Min(hi, |s|)]
  {
    if lo >= hi || lo >= |s| then "" else s[lo..Min(hi, |s|)]
  }

  /** Python's `s[n:]` for a non-negative `n`. */
  function Drop(s: string, n: nat): (r: string)
    ensures n <= |s| ==> r == s[n..]
    ensures n > |s| ==> r == ""
  {
    if n <= |s| then s[n..] else ""
  }

  /** `sep.join(parts)`. */
  function Join(parts: seq<string>, sep: string): string
  {
    if |parts| == 0 then ""
    else if |parts| == 1 then parts[0]
    else parts[0] + sep + Join(parts[1..], sep)
  }

  /** Where `parts[i]` starts inside `Join(parts, sep)`. */
  function JoinOffset(parts: seq<string>, sep: string, i: nat): nat
    requires i <= |parts|
  {
    if i == 0 then 0 else JoinOffset(parts, sep, i - 1) + |parts[i - 1]| + |sep|
  }

  /** Every part appears verbatim in the joined string, at the offset reached
      by the earlier parts and one separator after each of them; so the
      parts keep their order and none is altered or dropped. */
  lemma {:induction false} JoinKeepsParts(parts: seq<string>, sep: string, i: nat)
    requires i < |parts|
    ensures JoinOffset(parts, sep, i) + |parts[i]| <= |Join(parts, sep)|
    ensures Join(parts, sep)[JoinOffset(parts, sep, i)..JoinOffset(parts, sep, i) + |parts[i]|] == parts[i]
  {
    if i == 0 {
    } else {
      var rest := parts[1..];
      JoinKeepsParts(rest, sep, i - 1);
      JoinOffsetShift(parts, sep, i);
      var j := Join(parts, sep);
      assert j == parts[0] + sep + Join(rest, sep);
      var off := |parts[0]| + |sep|;
      var a := JoinOffset(rest, sep, i - 1);
      assert j[off..] == Join(rest, sep);
      assert j[off + a..off + a + |parts[i]|] == Join(rest, sep)[a..a + |rest[i - 1]|];
    }
  }

  /** Dropping the first part moves every later offset back by the first
      part and its separator. */
  lemma {:induction false} JoinOffsetShift(parts: seq<string>, sep: string, i: nat)
    requires 1 <= i <= |parts|
    ensures JoinOffset(parts, sep, i) == |parts[0]| + |sep| + JoinOffset(parts[1..], sep, i - 1)
  {
    if i > 1 {
      JoinOffsetShift(parts, sep, i - 1);
    }
  }

  /** The length of a join: all the parts plus one separator between each
      neighbouring pair. */
  lemma {:induction false} JoinLength(parts: seq<string>, sep: string)
    requires |parts| > 0
    ensures |Join(parts, sep)| == JoinOffset(parts, sep, |parts| - 1) + |parts[|parts| - 1]|
  {
    if |parts| > 1 {
      JoinLength(parts[1..], sep);
      JoinOffsetShift(parts, sep, |parts| - 1);
    }
  }

  predicate EndsWith(s: string, suffix: string)
  {
    |suffix| <= |s| && s[|s| - |suffix|..] == suffix
  }

  predicate StartsWith(s: string, prefix: string)
  {
    |prefix| <= |s| && s[..|prefix|] == prefix
  }

  /** Python's `sub in s`. */
  predicate Contains(s: string, sub: string)
  {
    exists i :: 0 <= i <= |s| - |sub| && StartsWith(s[i..], sub)
  }

  lemma {:induction false} ContainsAt(s: string, sub: string, i: nat)
    requires i + |sub| <= |s| && s[i..i + |sub|] == sub
    ensures Contains(s, sub)
  {
    assert StartsWith(s[i..], sub);
  }

  /** `x` is immediately followed by `y` somewhere in `s`. */
  predicate HasPair(s: string, x: char, y: char)
  {
    exists i :: 0 <= i < |s| - 1 && s[i] == x && s[i + 1] == y
  }

  /** Every occurrence of `sub` brings each pair of neighbouring characters
      of `sub` with it; so a string without one such pair cannot contain
      `sub`. */
  lemma {:induction false} ContainedPair(s: string, sub: string, k: nat)
    requires k + 1 < |sub|
    ensures Contains(s, sub) ==> HasPair(s, sub[k], sub[k + 1])
  {
    if Contains(s, sub) {
      var i :| 0 <= i <= |s| - |sub| && StartsWith(s[i..], sub);
      assert s[i..][k] == sub[k] && s[i..][k + 1] == sub[k + 1];
      assert s[i + k] == sub[k] && s[i + k + 1] == sub[k + 1];
    }
  }

  /** A pair in a concatenation lies in one part or straddles the seam. */
  lemma {:induction false} PairOfConcat(a: string, b: string, x: char, y: char)
    ensures HasPair(a + b, x, y) ==>
      HasPair(a, x, y) || HasPair(b, x, y) || (a != [] && b != [] && a[|a| - 1] == x && b[0] == y)
  {
    var s := a + b;
    if HasPair(s, x, y) {
      var i :| 0 <= i < |s| - 1 && s[i] == x && s[i + 1] == y;
      if i + 1 < |a| {
        assert a[i] == x && a[i + 1] == y;
      } else if i >= |a| {
        assert b[i - |a|] == x && b[i - |a| + 1] == y;
      }
    }
  }

  function LowerChar(c: char): char
  {
    if 'A' <= c <= 'Z' then (c as int - 'A' as int + 'a' as int) as char else c
  }

  /** `str.lower()` on ASCII letters. */
  function Lower(s: string): (r: string)
    ensures |r| == |s|
    ensures forall i :: 0 <= i < |s| ==> r[i] == LowerChar(s[i])
  {
    seq(|s|, i requires 0 <= i < |s| => LowerChar(s[i]))
  }

  lemma {:induction false} LowerOfConcat(a: string, b: string)
    ensures Lower(a + b) == Lower(a) + Lower(b)
  {
  }

  lemma {:induction false} LowerOfDrop(s: string, k: nat)
    requires k <= |s|
    ensures Lower(s[k..]) == Lower(s)[k..]
  {
  }

  /** Lower-casing leaves a string without capitals as it is. */
  lemma {:induction false} LowerOfNoUpper(s: string)
    requires forall i :: 0 <= i < |s| ==> !('A' <= s[i] <= 'Z')
    ensures Lower(s) == s
  {
  }

  lemma {:induction false} LowerOfFour(a: string, b: string, c: string, d: string)
    ensures Lower(a + b + c + d) == Lower(a) + Lower(b) + Lower(c) + Lower(d)
  {
    LowerOfConcat(a + b + c, d);
    LowerOfConcat(a + b, c);
    LowerOfConcat(a, b);
  }

  /** A pair of neighbouring characters absent from four pieces is absent
      from their concatenation when no piece boundary creates it. */
  lemma {:induction false} PairFreeFour(a: string, b: string, c: string, d: string, x: char, y: char)
    requires !HasPair(a, x, y) && !HasPair(b, x, y) && !HasPair(c, x, y) && !HasPair(d, x, y)
    requires |a| > 0 && a[|a| - 1] != x
    requires |b| > 0 && b[|b| - 1] != x
    requires |c| > 0 && c[|c| - 1] != x
    ensures !HasPair(a + b + c + d, x, y)
  {
    PairOfConcat(a, b, x, y);
    PairOfConcat(a + b, c, x, y);
    PairOfConcat(a + b + c, d, x, y);
  }

  /** `s[:n] + "..." if len(s) > n else s`: the bounded preview the answer
      sources and the search results show. */
  function Preview(s: string, n: nat): string
  {
    if |s| > n then s[..n] + "..." else s
  }

  /** A preview is never longer than `n` characters plus the ellipsis, keeps
      the first `Min(n, |s|)` characters of the text, and is the text itself
      exactly when no cut was needed or the cut text already ended as the
      preview does. */
  lemma {:induction false} PreviewBounds(s: string, n: nat)
    ensures |Preview(s, n)| <= n + 3
    ensures StartsWith(Preview(s, n), s[..Min(n, |s|)])
    ensures |s| <= n ==> Preview(s, n) == s
    ensures |s| > n ==> (Preview(s, n) != s <==> |s| != n + 3 || s[n..] != "...")
  {
    if |s| > n {
      var p := Preview(s, n);
      assert p[..n] == s[..n];
      if |s| == n + 3 && s[n..] == "..." {
        assert s == s[..n] + s[n..];
      }
    }
  }
}
