// The two sorts the dashboard uses: Python's `sorted(..., key=..., reverse=True)`
// and JavaScript's `[...xs].sort((a, b) => key(b) - key(a))` (both stable,
// largest key first), and Python's `sorted()` of a collection of strings.
module Sorting {

  /** `perm` lists each index of a sequence of length n exactly once. */
  predicate IsPermutation(perm: seq<nat>, n: nat)
  {
    |perm| == n
    && (forall i :: 0 <= i < n ==> perm[i] < n)
    && (forall i, j :: 0 <= i < j < n ==> perm[i] != perm[j])
  }

  /**
   * Indices ordered by key, largest first; equal keys keep their input
   * order (the order a stable sort with reverse=True produces).
   */
  predicate StableDesc<T>(s: seq<T>, key: T -> real, idx: seq<nat>)
  {
    (forall i :: 0 <= i < |idx| ==> idx[i] < |s|)
    && forall i, j :: 0 <= i < j < |idx| ==>
         key(s[idx[i]]) > key(s[idx[j]])
         || (key(s[idx[i]]) == key(s[idx[j]]) && idx[i] < idx[j])
  }

  /** Stable sort by key, descending, producing a new sequence. */
  method SortDesc<T>(s: seq<T>, key: T -> real) returns (r: seq<T>, ghost perm: seq<nat>)
    ensures IsPermutation(perm, |s|) && StableDesc(s, key, perm)
    ensures |r| == |s| && forall i :: 0 <= i < |r| ==> r[i] == s[perm[i]]
    ensures forall i, j :: 0 <= i < j < |r| ==> key(r[i]) >= key(r[j])
    ensures multiset(r) == multiset(s)
  {
    var idx: seq<nat> := [];
    var k := 0;
    while k < |s|
      invariant 0 <= k <= |s|
      invariant IsPermutation(idx, k)
      invariant StableDesc(s, key, idx)
    {
      // first position whose key is strictly smaller than key(s[k])
      var p := 0;
      while p < |idx| && key(s[idx[p]]) >= key(s[k])
        invariant 0 <= p <= |idx|
        invariant forall i :: 0 <= i < p ==> key(s[idx[i]]) >= key(s[k])
      {
        p := p + 1;
      }
      InsertKeepsOrder(s, key, idx, k, p);
      idx := idx[..p] + [k] + idx[p..];
      k := k + 1;
    }
    perm := idx;
    r := seq(|s|, i requires 0 <= i < |s| => s[idx[i]]);
    PermutationMultiset(s, idx, r);
  }

  /** Inserting index k at the first position with a smaller key keeps the order stable. */
  lemma InsertKeepsOrder<T>(s: seq<T>, key: T -> real, idx: seq<nat>, k: nat, p: nat)
    requires k < |s| && IsPermutation(idx, k) && StableDesc(s, key, idx)
    requires p <= |idx|
    requires forall i :: 0 <= i < p ==> key(s[idx[i]]) >= key(s[k])
    requires p < |idx| ==> key(s[idx[p]]) < key(s[k])
    ensures IsPermutation(idx[..p] + [k] + idx[p..], k + 1)
    ensures StableDesc(s, key, idx[..p] + [k] + idx[p..])
  {
    var idx' := idx[..p] + [k] + idx[p..];
    assert forall i :: 0 <= i < p ==> idx'[i] == idx[i];
    assert idx'[p] == k;
    assert forall i :: p < i <= |idx| ==> idx'[i] == idx[i - 1];
    forall i | p <= i < |idx| ensures key(s[idx[i]]) < key(s[k]) {
      if i > p {
        assert key(s[idx[p]]) >= key(s[idx[i]]);
      }
    }
    InsertedStable(s, key, idx, k, p, idx');
  }

  lemma InsertedStable<T>(s: seq<T>, key: T -> real, idx: seq<nat>, k: nat, p: nat, idx': seq<nat>)
    requires k < |s| && IsPermutation(idx, k) && StableDesc(s, key, idx) && p <= |idx|
    requires |idx'| == |idx| + 1 && idx'[p] == k
    requires forall i :: 0 <= i < p ==> idx'[i] == idx[i] && key(s[idx[i]]) >= key(s[k])
    requires forall i :: p < i <= |idx| ==> idx'[i] == idx[i - 1] && key(s[idx[i - 1]]) < key(s[k])
    ensures StableDesc(s, key, idx')
  {
    forall i, j | 0 <= i < j < |idx'|
      ensures key(s[idx'[i]]) > key(s[idx'[j]]) || (key(s[idx'[i]]) == key(s[idx'[j]]) && idx'[i] < idx'[j])
    {
      if j < p {
        assert idx'[i] == idx[i] && idx'[j] == idx[j];
      } else if j == p {
        assert idx[i] < k;
      } else if i > p {
        assert idx'[i] == idx[i - 1] && idx'[j] == idx[j - 1];
      } else if i < p {
        assert idx'[i] == idx[i] && idx'[j] == idx[j - 1];
      }
    }
  }

  lemma PermutationMultiset<T>(s: seq<T>, perm: seq<nat>, r: seq<T>)
    requires IsPermutation(perm, |s|)
    requires |r| == |s| && forall i :: 0 <= i < |r| ==> r[i] == s[perm[i]]
    ensures multiset(r) == multiset(s)
  {
    // every index occurs in perm, so r and s agree element-for-element up to reordering
    var n := |s|;
    if n > 0 {
      var last := perm[n - 1];
      var s' := s[..last] + s[last + 1..];
      assert s == s[..last] + [s[last]] + s[last + 1..];
      var perm' := seq(n - 1, i requires 0 <= i < n - 1 => if perm[i] < last then perm[i] else perm[i] - 1);
      forall i | 0 <= i < n - 1 ensures perm'[i] < n - 1 && r[i] == s'[perm'[i]] {
        assert perm[i] != last;
      }
      forall i, j | 0 <= i < j < n - 1 ensures perm'[i] != perm'[j] {
        assert perm[i] != perm[j] && perm[i] != last && perm[j] != last;
      }
      PermutationMultiset(s', perm', r[..n - 1]);
      assert r == r[..n - 1] + [r[n - 1]];
    }
  }

  // -----------------------------------------------------------------
  // Strings, compared code point by code point as Python compares str.
  // -----------------------------------------------------------------

  /** Python's `a < b` on str. */
  predicate LexLess(a: string, b: string)
  {
    if a == [] then b != []
    else if b == [] then false
    else if a[0] != b[0] then a[0] < b[0]
    else LexLess(a[1..], b[1..])
  }

  lemma {:induction false} LexIrreflexive(a: string)
    ensures !LexLess(a, a)
  {
    if a != [] {
      LexIrreflexive(a[1..]);
    }
  }

  lemma {:induction false} LexTotal(a: string, b: string)
    requires a != b
    ensures LexLess(a, b) || LexLess(b, a)
  {
    if a != [] && b != [] && a[0] == b[0] {
      assert a == [a[0]] + a[1..] && b == [b[0]] + b[1..];
      LexTotal(a[1..], b[1..]);
    }
  }

  lemma {:induction false} LexTransitive(a: string, b: string, c: string)
    requires LexLess(a, b) && LexLess(b, c)
    ensures LexLess(a, c)
  {
    if a != [] && b != [] && c != [] && a[0] == b[0] && b[0] == c[0] {
      LexTransitive(a[1..], b[1..], c[1..]);
    }
  }

  lemma LexAsymmetric(a: string, b: string)
    requires LexLess(a, b)
    ensures !LexLess(b, a)
  {
    if LexLess(b, a) {
      LexTransitive(a, b, a);
      LexIrreflexive(a);
    }
  }

  predicate StrictlyIncreasing(r: seq<string>)
  {
    forall i, j :: 0 <= i < j < |r| ==> LexLess(r[i], r[j])
  }

  /** `sorted(set(xs))`: the distinct strings of xs in increasing order. */
  method SortedDistinct(xs: seq<string>) returns (r: seq<string>)
    ensures StrictlyIncreasing(r)
    ensures forall x :: x in r <==> x in xs
  {
    r := [];
    var k := 0;
    while k < |xs|
      invariant 0 <= k <= |xs|
      invariant StrictlyIncreasing(r)
      invariant forall x :: x in r <==> x in xs[..k]
    {
      var x := xs[k];
      if x !in r {
        var p := 0;
        while p < |r| && LexLess(r[p], x)
          invariant 0 <= p <= |r|
          invariant forall i :: 0 <= i < p ==> LexLess(r[i], x)
        {
          p := p + 1;
        }
        if p < |r| {
          LexTotal(x, r[p]);
        }
        forall j | p <= j < |r| ensures LexLess(x, r[j]) {
          if j > p { LexTransitive(x, r[p], r[j]); }
        }
        r := r[..p] + [x] + r[p..];
      }
      assert xs[..k + 1] == xs[..k] + [x];
      k := k + 1;
    }
    assert xs[..k] == xs;
  }
}
