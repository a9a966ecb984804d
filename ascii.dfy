/**
 * The two string operations the model-family checks rely on: `str.lower()`,
 * restricted to ASCII letters, and the substring test `sub in s`.
 */
module Ascii {

  /** Lower-cases one ASCII upper-case letter and leaves every other character alone. */
  function LowerChar(c: char): char
  {
    if 'A' <= c <= 'Z' then (c as int + 32) as char else c
  }

  /** `s.lower()`, character by character. */
  function Lower(s: string): string
  {
    seq(|s|, i requires 0 <= i < |s| => LowerChar(s[i]))
  }

  /** `s.startswith(p)`. */
  predicate StartsWith(s: string, p: string)
  {
    |p| <= |s| && s[..|p|] == p
  }

  /** `sub in s`: `sub` starts at some position of `s`, tried from the left. */
  predicate Contains(s: string, sub: string)
    decreases |s|
  {
    StartsWith(s, sub) || (|s| > 0 && Contains(s[1..], sub))
  }

  /** `sub` occurs in `s` at position `i`. */
  predicate OccursAt(s: string, sub: string, i: int)
  {
    0 <= i && i + |sub| <= |s| && s[i..i + |sub|] == sub
  }

  /** `w` matches `s` at position `i` when `s` is read with its letters lower-cased. */
  predicate MatchesIgnoringCaseAt(s: string, w: string, i: int)
  {
    0 <= i && i + |w| <= |s| && forall k :: 0 <= k < |w| ==> LowerChar(s[i + k]) == w[k]
  }

  /** `w` occurs somewhere in `s` when the letters of `s` are lower-cased. */
  ghost predicate OccursIgnoringCase(s: string, w: string)
  {
    exists i :: MatchesIgnoringCaseAt(s, w, i)
  }

  /** `a` and `b` spell the same word up to the case of their ASCII letters. */
  predicate CaseVariant(a: string, b: string)
  {
    |a| == |b| && forall i :: 0 <= i < |a| ==> LowerChar(a[i]) == LowerChar(b[i])
  }

  /** An occurrence at any position is found by the left-to-right search. */
  lemma {:induction false} OccursAtContains(s: string, sub: string, i: int)
    requires OccursAt(s, sub, i)
    ensures Contains(s, sub)
    decreases i
  {
    if i == 0 {
      assert s[..|sub|] == s[0..|sub|];
    } else {
      assert s[1..][i - 1..i - 1 + |sub|] == s[i..i + |sub|];
      OccursAtContains(s[1..], sub, i - 1);
    }
  }

  /** What the left-to-right search finds is an occurrence. */
  lemma {:induction false} ContainsOccurs(s: string, sub: string)
    requires Contains(s, sub)
    ensures exists i :: OccursAt(s, sub, i)
    decreases |s|
  {
    if StartsWith(s, sub) {
      assert OccursAt(s, sub, 0);
    } else {
      ContainsOccurs(s[1..], sub);
      var i :| OccursAt(s[1..], sub, i);
      assert s[1..][i..i + |sub|] == s[i + 1..i + 1 + |sub|];
      assert OccursAt(s, sub, i + 1);
    }
  }

  /** The left-to-right search finds `sub` exactly when it occurs at some position. */
  lemma ContainsIff(s: string, sub: string)
    ensures Contains(s, sub) <==> exists i :: OccursAt(s, sub, i)
  {
    if Contains(s, sub) {
      ContainsOccurs(s, sub);
    }
    if i :| OccursAt(s, sub, i) {
      OccursAtContains(s, sub, i);
    }
  }

  /** Searching the lower-cased string is a case-insensitive search of the original. */
  lemma ContainsLowerIff(s: string, w: string)
    ensures Contains(Lower(s), w) <==> OccursIgnoringCase(s, w)
  {
    ContainsIff(Lower(s), w);
    forall i ensures OccursAt(Lower(s), w, i) <==> MatchesIgnoringCaseAt(s, w, i) {
    }
  }

  /** Case variants have the same lower-cased spelling. */
  lemma CaseVariantLower(a: string, b: string)
    requires CaseVariant(a, b)
    ensures Lower(a) == Lower(b)
  {
  }
}
