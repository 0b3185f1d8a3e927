/**
 * Counting the matches of a literal pattern the way `text.match(/pat/gi)`
 * does: case-insensitively, left to right, each match resuming the search
 * where the previous one ended, so matches never overlap.
 */
module Matching {
  import opened Text

  /** `kw` occurs at position `i` of `s`, ignoring case. */
  predicate MatchAt(s: string, i: int, kw: string) {
    0 <= i && i + |kw| <= |s| && SameIgnoringCase(s[i..i + |kw|], kw)
  }

  /** `kw` occurs somewhere in `s`, ignoring case. */
  predicate Occurs(s: string, kw: string) {
    exists i | 0 <= i <= |s| :: MatchAt(s, i, kw)
  }

  /** Number of non-overlapping, leftmost-first, case-insensitive matches of `kw` in `s`. */
  function Count(s: string, kw: string): (n: nat)
    requires |kw| > 0
    ensures n * |kw| <= |s|
    decreases |s|
  {
    if |s| < |kw| then 0
    else if MatchAt(s, 0, kw) then 1 + Count(s[|kw|..], kw)
    else Count(s[1..], kw)
  }

  /** A match at position `i` of a suffix is a match at the shifted position of the whole. */
  lemma MatchAtSuffix(s: string, d: nat, i: nat, kw: string)
    requires d <= |s|
    ensures MatchAt(s[d..], i, kw) <==> MatchAt(s, i + d, kw)
  {
    if 0 <= i && i + |kw| <= |s| - d {
      assert s[d..][i..i + |kw|] == s[i + d..i + d + |kw|];
    }
  }

  /** An occurrence is either at the front or somewhere in the rest. */
  lemma OccursUnfold(s: string, kw: string)
    requires |s| > 0
    ensures Occurs(s, kw) <==> MatchAt(s, 0, kw) || Occurs(s[1..], kw)
  {
    if Occurs(s, kw) && !MatchAt(s, 0, kw) {
      var i :| 0 <= i <= |s| && MatchAt(s, i, kw);
      MatchAtSuffix(s, 1, i - 1, kw);
    }
    if Occurs(s[1..], kw) {
      var i :| 0 <= i <= |s| - 1 && MatchAt(s[1..], i, kw);
      MatchAtSuffix(s, 1, i, kw);
    }
  }

  /** The count is zero exactly when the pattern does not occur at all. */
  lemma {:induction false} CountZeroIff(s: string, kw: string)
    requires |kw| > 0
    ensures Count(s, kw) == 0 <==> !Occurs(s, kw)
    decreases |s|
  {
    if |s| < |kw| {
      assert forall i | 0 <= i <= |s| :: !MatchAt(s, i, kw);
    } else {
      OccursUnfold(s, kw);
      if !MatchAt(s, 0, kw) {
        CountZeroIff(s[1..], kw);
      }
    }
  }

  /**
   * The loop behind `String.prototype.match` with a global pattern: search
   * from `lastIndex`, count a match and resume at its end, or give up when
   * no match remains.
   */
  method GlobalMatchCount(s: string, kw: string) returns (n: nat)
    requires |kw| > 0
    ensures n == Count(s, kw)
  {
    n := 0;
    var i := 0;
    while i + |kw| <= |s|
      invariant 0 <= i <= |s|
      invariant n + Count(s[i..], kw) == Count(s, kw)
      decreases |s| - i
    {
      var (next, found) := ScanStep(s, i, kw);
      n := n + found;
      i := next;
    }
  }

  /**
   * One step of the scan from position `i`: past the match and counting it
   * when `kw` occurs at `i`, otherwise one character on.
   */
  function ScanStep(s: string, i: nat, kw: string): (r: (nat, nat))
    requires |kw| > 0 && i + |kw| <= |s|
    ensures i < r.0 <= |s|
    ensures Count(s[i..], kw) == r.1 + Count(s[r.0..], kw)
  {
    if MatchAt(s, i, kw) then
      CountStep(s, i, kw);
      (i + |kw|, 1)
    else
      CountStep(s, i, kw);
      (i + 1, 0)
  }

  /** One step of the scan, seen from position `i` of the whole text. */
  lemma CountStep(s: string, i: nat, kw: string)
    requires |kw| > 0 && i + |kw| <= |s|
    ensures MatchAt(s, i, kw) ==> Count(s[i..], kw) == 1 + Count(s[i + |kw|..], kw)
    ensures !MatchAt(s, i, kw) ==> Count(s[i..], kw) == Count(s[i + 1..], kw)
  {
    MatchAtSuffix(s, i, 0, kw);
    assert s[i..][|kw|..] == s[i + |kw|..];
    assert s[i..][1..] == s[i + 1..];
  }

  lemma CanonIdempotent(c: char)
    ensures Canon(Canon(c)) == Canon(c)
  {
  }

  /** Folding the case of the searched text changes no count: matching ignores case. */
  lemma {:induction false} CountIgnoresCase(s: string, kw: string)
    requires |kw| > 0
    ensures Count(CanonStr(s), kw) == Count(s, kw)
    decreases |s|
  {
    var f := CanonStr(s);
    if |s| >= |kw| {
      forall j | 0 <= j < |kw| ensures Canon(f[j]) == Canon(s[j]) {
        CanonIdempotent(s[j]);
      }
      assert f[0..|kw|] == f[..|kw|] && s[0..|kw|] == s[..|kw|];
      assert MatchAt(f, 0, kw) <==> MatchAt(s, 0, kw);
      if MatchAt(s, 0, kw) {
        assert f[|kw|..] == CanonStr(s[|kw|..]);
        CountIgnoresCase(s[|kw|..], kw);
      } else {
        assert f[1..] == CanonStr(s[1..]);
        CountIgnoresCase(s[1..], kw);
      }
    }
  }

  /**
   * A match of `kw` that would take its last `|kw| - k` characters from the
   * front of `b` and its first `k` characters from the end of `a`, so that
   * it spans the join of `a + b`.
   */
  predicate StraddlesAt(a: string, b: string, kw: string, k: int) {
    && 0 < k < |kw|
    && k <= |a|
    && |kw| - k <= |b|
    && SameIgnoringCase(a[|a| - k..] + b[..|kw| - k], kw)
  }

  /** No match spans the join of `a + b`. */
  predicate NoStraddle(a: string, b: string, kw: string) {
    forall k | 0 < k < |kw| :: !StraddlesAt(a, b, kw, k)
  }

  /** Dropping characters from the front of `a` cannot create a match across the join. */
  lemma NoStraddleSuffix(a: string, b: string, kw: string, d: nat)
    requires d <= |a|
    requires NoStraddle(a, b, kw)
    ensures NoStraddle(a[d..], b, kw)
  {
    var a' := a[d..];
    forall k | 0 < k < |kw| && k <= |a'| ensures !StraddlesAt(a', b, kw, k) {
      assert a'[|a'| - k..] == a[|a| - k..];
      assert !StraddlesAt(a, b, kw, k);
    }
  }

  /** Without a match across the join, a match at the front of `a + b` lies wholly inside a non-empty `a`. */
  lemma FrontMatchInside(a: string, b: string, kw: string)
    requires |a| > 0 && |kw| > 0
    requires NoStraddle(a, b, kw)
    requires MatchAt(a + b, 0, kw)
    ensures |kw| <= |a| && MatchAt(a, 0, kw)
  {
    var s := a + b;
    if |kw| > |a| {
      assert s[0..|kw|] == a[|a| - |a|..] + b[..|kw| - |a|];
      assert StraddlesAt(a, b, kw, |a|);
    }
    assert a[0..|kw|] == s[0..|kw|];
  }

  /** Counts add up across a concatenation as long as no match spans the join. */
  lemma {:induction false} CountConcat(a: string, b: string, kw: string)
    requires |kw| > 0
    requires NoStraddle(a, b, kw)
    ensures Count(a + b, kw) == Count(a, kw) + Count(b, kw)
    decreases |a|
  {
    var s := a + b;
    if |a| == 0 {
      assert s == b;
    } else if MatchAt(s, 0, kw) {
      FrontMatchInside(a, b, kw);
      var a' := a[|kw|..];
      assert s[|kw|..] == a' + b;
      NoStraddleSuffix(a, b, kw, |kw|);
      CountConcat(a', b, kw);
    } else {
      var a' := a[1..];
      assert s[1..] == a' + b;
      NoStraddleSuffix(a, b, kw, 1);
      CountConcat(a', b, kw);
      if |a| >= |kw| {
        assert a[0..|kw|] == s[0..|kw|];
      }
    }
  }

}
