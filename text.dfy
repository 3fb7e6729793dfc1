/**
 * The string primitives the mood pipeline relies on: lower-casing, the `in`
 * substring test and the non-overlapping substring count of `str.count`.
 */
module Text {

  /** Lower-cases one character (ASCII letters only). */
  function LowerChar(c: char): char {
    if 'A' <= c <= 'Z' then (c as int + 32) as char else c
  }

  /** `s.lower()`, character by character. */
  function Lower(s: string): (r: string)
    ensures |r| == |s|
    ensures forall i :: 0 <= i < |s| ==> r[i] == LowerChar(s[i])
  {
    if s == [] then [] else [LowerChar(s[0])] + Lower(s[1..])
  }

  /** `k` occurs in `s` starting at position `i`. */
  ghost predicate OccursAt(s: string, k: string, i: int) {
    0 <= i && i + |k| <= |s| && s[i..i + |k|] == k
  }

  /** Python's `k in s`: `k` is a substring of `s` (the empty string is in every string). */
  function Contains(s: string, k: string): (r: bool)
    ensures k == [] ==> r
    ensures r ==> |k| <= |s|
    decreases |s|
  {
    |k| <= |s| && (s[..|k|] == k || Contains(s[1..], k))
  }

  /** Python's `s.count(k)`: occurrences of `k`, scanned from the left, that do not overlap. */
  function Count(s: string, k: string): (r: nat)
    ensures k == [] ==> r == |s| + 1
    ensures k != [] ==> r <= |s|
    decreases |s|
  {
    if |k| == 0 then |s| + 1
    else if |s| < |k| then 0
    else if s[..|k|] == k then 1 + Count(s[|k|..], k)
    else Count(s[1..], k)
  }

  /** `Contains` is exactly the existence of an occurrence. */
  lemma {:induction false} ContainsIff(s: string, k: string)
    ensures Contains(s, k) <==> exists i :: OccursAt(s, k, i)
    decreases |s|
  {
    if Contains(s, k) {
      if s[..|k|] == k {
        assert OccursAt(s, k, 0);
      } else {
        ContainsIff(s[1..], k);
        var i :| OccursAt(s[1..], k, i);
        assert s[1..][i..i + |k|] == s[i + 1..i + 1 + |k|];
        assert OccursAt(s, k, i + 1);
      }
    } else {
      if i :| OccursAt(s, k, i) {
        if i != 0 {
          assert s[1..][i - 1..i - 1 + |k|] == s[i..i + |k|];
          assert OccursAt(s[1..], k, i - 1);
          ContainsIff(s[1..], k);
        }
      }
    }
  }

  /** For a non-empty keyword, the count is positive exactly when the keyword occurs. */
  lemma {:induction false} CountPositiveIff(s: string, k: string)
    requires |k| > 0
    ensures Count(s, k) > 0 <==> Contains(s, k)
    decreases |s|
  {
    if |s| >= |k| && s[..|k|] != k {
      CountPositiveIff(s[1..], k);
    }
  }

  /** Occurrences found by the count never overlap, so there are at most |s| / |k| of them. */
  lemma {:induction false} CountBound(s: string, k: string)
    requires |k| > 0
    ensures Count(s, k) * |k| <= |s|
    decreases |s|
  {
    if |s| >= |k| {
      if s[..|k|] == k {
        CountBound(s[|k|..], k);
      } else {
        CountBound(s[1..], k);
      }
    }
  }
}
