/** The string functions of Go's standard library that the core relies on:
    `unicode.IsSpace`, `strings.TrimSpace` and `strings.Contains`. Strings are
    sequences of code points; UTF-8 encoding is not modelled. */
module Strings {

  /** `unicode.IsSpace`: the Latin-1 spaces and the Unicode White_Space code
      points above Latin-1. */
  predicate IsSpace(c: char)
  {
    || c == '\t' || c == '\n' || c == '\U{000B}' || c == '\U{000C}' || c == '\r' || c == ' '
    || c == '\U{0085}' || c == '\U{00A0}' || c == '\U{1680}'
    || ('\U{2000}' <= c <= '\U{200A}')
    || c == '\U{2028}' || c == '\U{2029}' || c == '\U{202F}' || c == '\U{205F}' || c == '\U{3000}'
  }

  predicate AllSpace(s: string)
  {
    forall k :: 0 <= k < |s| ==> IsSpace(s[k])
  }

  /** No white space at either end. */
  predicate Trimmed(s: string)
  {
    s == [] || (!IsSpace(s[0]) && !IsSpace(s[|s| - 1]))
  }

  /** `s` with its leading white space removed. */
  function TrimLeft(s: string): (r: string)
    ensures |r| <= |s| && r == s[|s| - |r|..]
    ensures AllSpace(s[..|s| - |r|])
    ensures r == [] || !IsSpace(r[0])
  {
    if s != [] && IsSpace(s[0]) then TrimLeft(s[1..]) else s
  }

  /** `s` with its trailing white space removed. */
  function TrimRight(s: string): (r: string)
    ensures |r| <= |s| && r == s[..|r|]
    ensures AllSpace(s[|r|..])
    ensures r == [] || !IsSpace(r[|r| - 1])
  {
    if s != [] && IsSpace(s[|s| - 1]) then TrimRight(s[..|s| - 1]) else s
  }

  /** `strings.TrimSpace`: the slice of `s` left after removing white space
      from both ends. */
  function TrimSpace(s: string): (r: string)
    ensures Trimmed(r)
    ensures exists i :: PeeledAt(s, r, i)
  {
    var t := TrimLeft(s);
    var r := TrimRight(t);
    var i := |s| - |t|;
    assert r == s[i..i + |r|];
    assert s[i + |r|..] == t[|r|..];
    assert PeeledAt(s, r, i);
    r
  }

  /** `r` is the part of `s` from index `i` on, with white space only before
      it and after it. */
  predicate PeeledAt(s: string, r: string, i: int)
  {
    0 <= i <= |s| - |r| && r == s[i..i + |r|] && AllSpace(s[..i]) && AllSpace(s[i + |r|..])
  }

  /** Trimming an already trimmed string changes nothing, so `TrimSpace` is
      idempotent. */
  lemma TrimSpaceOfTrimmed(s: string)
    requires Trimmed(s)
    ensures TrimSpace(s) == s
  {
  }

  lemma TrimSpaceIdempotent(s: string)
    ensures TrimSpace(TrimSpace(s)) == TrimSpace(s)
  {
    TrimSpaceOfTrimmed(TrimSpace(s));
  }

  /** `TrimSpace` leaves nothing exactly when the input is all white space. */
  lemma {:induction false} TrimSpaceEmptyIffAllSpace(s: string)
    ensures TrimSpace(s) == [] <==> AllSpace(s)
  {
    var t := TrimLeft(s);
    if AllSpace(s) {
      TrimLeftOfAllSpace(s);
    } else {
      var k :| 0 <= k < |s| && !IsSpace(s[k]);
      assert k >= |s| - |t|;
      assert t != [] && !IsSpace(t[0]);
    }
  }

  lemma {:induction false} TrimLeftOfAllSpace(s: string)
    requires AllSpace(s)
    ensures TrimLeft(s) == []
    decreases |s|
  {
    if s != [] {
      assert AllSpace(s[1..]) by {
        forall k | 0 <= k < |s[1..]| ensures IsSpace(s[1..][k]) { assert s[1..][k] == s[k + 1]; }
      }
      TrimLeftOfAllSpace(s[1..]);
    }
  }

  /** `strings.Contains`: `sub` occurs somewhere in `s`. */
  predicate Contains(s: string, sub: string)
  {
    exists i :: 0 <= i <= |s| && OccursAt(s, sub, i)
  }

  /** `sub` occurs in `s` starting at index `i`. */
  predicate OccursAt(s: string, sub: string, i: int)
  {
    0 <= i <= |s| - |sub| && s[i..i + |sub|] == sub
  }

  /** Where the second and the fourth of six concatenated parts sit. */
  lemma PartsOccur(a: string, b: string, c: string, d: string, e: string, g: string)
    ensures OccursAt(a + b + c + d + e + g, b, |a|)
    ensures OccursAt(a + b + c + d + e + g, d, |a| + |b| + |c|)
    ensures Contains(a + b + c + d + e + g, d)
  {
    var s := a + b + c + d + e + g;
    assert s == a + b + (c + d + e + g);
    assert s[|a|..|a| + |b|] == b;
    assert s == (a + b + c) + d + (e + g);
    assert s[|a| + |b| + |c|..|a| + |b| + |c| + |d|] == d;
    assert OccursAt(s, d, |a| + |b| + |c|);
  }

  /** A string contains any middle part of a concatenation it is made of, at
      the index where that part starts. */
  lemma ContainsMiddle(a: string, b: string, c: string)
    ensures OccursAt(a + b + c, b, |a|)
    ensures Contains(a + b + c, b)
  {
    var s := a + b + c;
    assert OccursAt(s, b, |a|);
  }
}
