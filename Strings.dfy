/** The two Python string operations the core relies on: `s.startswith(p)`
    and `s.replace(old, new)`, which replaces every non-overlapping
    occurrence of `old`, scanning from the left. */
module Strings {

  predicate StartsWith(s: string, prefix: string) {
    |prefix| <= |s| && s[..|prefix|] == prefix
  }

  /** `s.replace(pat, rep)` for a non-empty pattern: a replacement no
      longer than the pattern never lengthens the string. */
  function ReplaceAll(s: string, pat: string, rep: string): (r: string)
    requires pat != []
    ensures |rep| <= |pat| ==> |r| <= |s|
    decreases |s|
  {
    if |s| < |pat| then s
    else if s[..|pat|] == pat then rep + ReplaceAll(s[|pat|..], pat, rep)
    else [s[0]] + ReplaceAll(s[1..], pat, rep)
  }

  /** `s.replace(c, '')` for a single character: every `c` is gone and
      nothing else is touched. */
  function RemoveAll(s: string, c: char): (r: string)
    ensures c !in r
    ensures |r| <= |s|
    ensures c !in s ==> r == s
  {
    if s == [] then []
    else if s[0] == c then RemoveAll(s[1..], c)
    else [s[0]] + RemoveAll(s[1..], c)
  }

  /** Removal works piecewise, so every character other than `c` is kept,
      in its order. */
  lemma {:induction false} RemoveAllAppend(a: string, b: string, c: char)
    ensures RemoveAll(a + b, c) == RemoveAll(a, c) + RemoveAll(b, c)
    decreases |a|
  {
    if a != [] {
      assert (a + b)[0] == a[0];
      assert (a + b)[1..] == a[1..] + b;
      RemoveAllAppend(a[1..], b, c);
    } else {
      assert a + b == b;
    }
  }

  /** A string made only of `c` disappears entirely. */
  lemma {:induction false} RemoveAllOnly(s: string, c: char)
    requires forall i :: 0 <= i < |s| ==> s[i] == c
    ensures RemoveAll(s, c) == []
    decreases |s|
  {
    if s != [] {
      RemoveAllOnly(s[1..], c);
    }
  }

  /** Removing a character from a string that has it only at its end yields
      the string without that end. */
  lemma RemoveTrailing(s: string, c: char)
    requires c !in s
    ensures RemoveAll(s + [c], c) == s
  {
    RemoveAllAppend(s, [c], c);
  }

  /** `pat` occurs in `s` starting at position `k`. */
  predicate OccursAt(s: string, pat: string, k: nat) {
    k + |pat| <= |s| && s[k..k + |pat|] == pat
  }

  /** The pattern occurs nowhere in `s`. */
  ghost predicate NoOccurrence(s: string, pat: string) {
    forall k: nat :: k <= |s| ==> !OccursAt(s, pat, k)
  }

  /** Replacing a pattern that does not occur leaves the string as it is. */
  lemma {:induction false} ReplaceAbsent(s: string, pat: string, rep: string)
    requires pat != []
    requires NoOccurrence(s, pat)
    ensures ReplaceAll(s, pat, rep) == s
    decreases |s|
  {
    if |s| >= |pat| {
      assert !OccursAt(s, pat, 0);
      forall k: nat | k <= |s[1..]|
        ensures !OccursAt(s[1..], pat, k)
      {
        if k + |pat| <= |s[1..]| {
          assert s[1..][k..k + |pat|] == s[k + 1..k + 1 + |pat|];
          assert !OccursAt(s, pat, k + 1);
        }
      }
      ReplaceAbsent(s[1..], pat, rep);
    }
  }

  /** A pattern whose character at position `j` is `c` cannot occur in a
      string whose only `c`s sit within the last `j` positions. */
  lemma NoOccurrenceByChar(s: string, pat: string, j: nat, c: char)
    requires j < |pat| && pat[j] == c
    requires forall i :: 0 <= i < |s| - |pat| + j + 1 ==> s[i] != c
    ensures NoOccurrence(s, pat)
  {
    forall k: nat | k <= |s|
      ensures !OccursAt(s, pat, k)
    {
      if k + |pat| <= |s| {
        assert s[k..k + |pat|][j] == s[k + j];
      }
    }
  }

  /** A leading occurrence is replaced and the scan resumes after it. */
  lemma ReplaceLeading(pat: string, rest: string, rep: string)
    requires pat != []
    ensures ReplaceAll(pat + rest, pat, rep) == rep + ReplaceAll(rest, pat, rep)
  {
    assert (pat + rest)[..|pat|] == pat;
    assert (pat + rest)[|pat|..] == rest;
  }

  /** A string that holds `c` at most as its last character is left alone
      by replacing a pattern that holds `c` before its last position. */
  lemma ReplaceSparesString(s: string, pat: string, rep: string, j: nat, c: char)
    requires j + 1 < |pat| && pat[j] == c
    requires forall i :: 0 <= i < |s| - 1 ==> s[i] != c
    ensures ReplaceAll(s, pat, rep) == s
  {
    NoOccurrenceByChar(s, pat, j, c);
    ReplaceAbsent(s, pat, rep);
  }
}
