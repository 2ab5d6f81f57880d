/** String operations the middleware uses: slicing with `s[:n]`, prefix tests
    with `startswith` and substring search with `find`. */
module Text {

  function Min(a: int, b: int): int { if a <= b then a else b }

  /** Python's `s[:n]` for `n >= 0`: the first `n` characters, or all of `s`. */
  function Truncate(s: string, n: nat): (r: string)
    ensures r <= s
    ensures |r| == Min(n, |s|)
  {
    s[..Min(n, |s|)]
  }

  /** `k` occurs in `s` starting at position `i`. */
  predicate OccursAt(s: string, k: string, i: nat)
  {
    i + |k| <= |s| && s[i..i + |k|] == k
  }

  /** `k` is a (case-sensitive) substring of `s`. */
  predicate Contains(s: string, k: string)
  {
    exists i: nat | i <= |s| :: OccursAt(s, k, i)
  }

  /** Python's `s.find(k, start)`: the lowest index at or after `start` where
      `k` occurs in `s`, or -1 when there is none. */
  function FindFrom(s: string, k: string, start: nat): (r: int)
    decreases |s| - start
    ensures r == -1 <==> forall i: nat :: start <= i ==> !OccursAt(s, k, i)
    ensures r != -1 ==> start <= r && OccursAt(s, k, r)
    ensures r != -1 ==> forall i: nat :: start <= i < r ==> !OccursAt(s, k, i)
  {
    if start + |k| > |s| then -1
    else if OccursAt(s, k, start) then start
    else FindFrom(s, k, start + 1)
  }

  /** Python's `s.find(k)`. */
  function Find(s: string, k: string): (r: int)
    ensures r == -1 <==> !Contains(s, k)
    ensures r != -1 ==> 0 <= r && OccursAt(s, k, r)
    ensures forall i: nat :: i < r ==> !OccursAt(s, k, i)
  {
    FindFrom(s, k, 0)
  }

  /** Cutting a string short can only remove occurrences, never add one. */
  lemma TruncatedContains(s: string, n: nat, k: string)
    requires Contains(Truncate(s, n), k)
    ensures Contains(s, k)
  {
    var t := Truncate(s, n);
    var i: nat :| i <= |t| && OccursAt(t, k, i);
    assert i + |k| <= |t| <= |s|;
    assert s[i..i + |k|] == t[i..i + |k|];
    assert OccursAt(s, k, i);
  }

  /** An occurrence that ends within the first `n` characters survives the cut. */
  lemma EarlyOccurrenceKept(s: string, n: nat, k: string, i: nat)
    requires OccursAt(s, k, i) && i + |k| <= n
    ensures Contains(Truncate(s, n), k)
  {
    var t := Truncate(s, n);
    assert t[i..i + |k|] == s[i..i + |k|];
    assert OccursAt(t, k, i);
  }

}
