// Shared vocabulary: optional values, sums, whitespace trimming and the
// guarded percentage that appears in several layers of the dashboard.
module Common {

  datatype Option<T> = None | Some(value: T)

  /** Sum of a sequence of amounts, folded from the front. */
  function Sum(s: seq<real>): real
  {
    if s == [] then 0.0 else s[0] + Sum(s[1..])
  }

  lemma {:induction false} SumAppend(a: seq<real>, b: seq<real>)
    ensures Sum(a + b) == Sum(a) + Sum(b)
  {
    if a == [] {
      assert a + b == b;
    } else {
      assert (a + b)[1..] == a[1..] + b;
      SumAppend(a[1..], b);
    }
  }

  lemma SumSingle(x: real)
    ensures Sum([x]) == x
  {
  }

  /** The sum of the last element split off: Sum(s) == Sum(s[..n-1]) + s[n-1]. */
  lemma SumSnoc(s: seq<real>)
    requires |s| > 0
    ensures Sum(s) == Sum(s[..|s| - 1]) + s[|s| - 1]
  {
    assert s == s[..|s| - 1] + [s[|s| - 1]];
    SumAppend(s[..|s| - 1], [s[|s| - 1]]);
  }

  lemma AppendAssoc<T>(a: seq<T>, b: seq<T>, c: seq<T>)
    ensures a + b + c == a + (b + c)
  {
  }

  function Abs(x: real): (r: real)
    ensures r >= 0.0 && (r == x || r == -x)
  {
    if x < 0.0 then -x else x
  }

  function Min(a: real, b: real): (r: real)
    ensures r <= a && r <= b && (r == a || r == b)
  {
    if a <= b then a else b
  }

  function Max(a: real, b: real): (r: real)
    ensures r >= a && r >= b && (r == a || r == b)
  {
    if a >= b then a else b
  }

  predicate Distinct<T(==)>(s: seq<T>)
  {
    forall i, j :: 0 <= i < j < |s| ==> s[i] != s[j]
  }

  /** Σ f(x) over a sequence, folded from the front (Python's `sum(f(x) for x in s)`). */
  function SumBy<T>(s: seq<T>, f: T -> real): real
  {
    if s == [] then 0.0 else f(s[0]) + SumBy(s[1..], f)
  }

  lemma {:induction false} SumByAppend<T>(a: seq<T>, b: seq<T>, f: T -> real)
    ensures SumBy(a + b, f) == SumBy(a, f) + SumBy(b, f)
  {
    if a == [] {
      assert a + b == b;
    } else {
      assert (a + b)[1..] == a[1..] + b;
      SumByAppend(a[1..], b, f);
    }
  }

  /** The order of summation does not matter: sequences with equal multisets have equal sums. */
  lemma {:induction false} SumByPermutation<T>(a: seq<T>, b: seq<T>, f: T -> real)
    requires multiset(a) == multiset(b)
    ensures SumBy(a, f) == SumBy(b, f)
    decreases |a|
  {
    if a == [] {
      assert |b| == |multiset(b)| == 0;
    } else {
      var x := a[0];
      assert x in multiset(b);
      var k :| 0 <= k < |b| && b[k] == x;
      MultisetRemove(b, k);
      assert multiset(a[1..]) == multiset(a) - multiset{x} by {
        assert a == [x] + a[1..];
      }
      SumByPermutation(a[1..], b[..k] + b[k + 1..], f);
      SumByRemove(b, k, f);
    }
  }

  lemma {:induction false} MultisetRemove<T>(b: seq<T>, k: int)
    requires 0 <= k < |b|
    ensures multiset(b[..k] + b[k + 1..]) == multiset(b) - multiset{b[k]}
  {
    assert b == b[..k] + [b[k]] + b[k + 1..];
  }

  /** Taking element k out of a sum. */
  lemma {:induction false} SumByRemove<T>(b: seq<T>, k: int, f: T -> real)
    requires 0 <= k < |b|
    ensures SumBy(b, f) == f(b[k]) + SumBy(b[..k] + b[k + 1..], f)
  {
    var pre, post := b[..k], b[k + 1..];
    var tail := [b[k]] + post;
    assert tail[1..] == post;
    assert SumBy(tail, f) == f(b[k]) + SumBy(post, f);
    assert b == pre + tail;
    SumByAppend(pre, tail, f);
    SumByAppend(pre, post, f);
  }

  lemma {:induction false} DistinctCount<T>(s: seq<T>, x: T)
    requires Distinct(s)
    ensures multiset(s)[x] == if x in s then 1 else 0
  {
    if s != [] {
      var t := s[1..];
      assert s == [s[0]] + t;
      assert Distinct(t) by {
        forall i, j | 0 <= i < j < |t| ensures t[i] != t[j] {
          assert t[i] == s[i + 1] && t[j] == s[j + 1];
        }
      }
      assert forall j :: 0 <= j < |t| ==> t[j] != s[0] by {
        forall j | 0 <= j < |t| ensures t[j] != s[0] {
          assert t[j] == s[j + 1];
        }
      }
      DistinctCount(t, x);
    }
  }

  /** Two duplicate-free sequences with the same elements are permutations of each other. */
  lemma DistinctSameElements<T>(a: seq<T>, b: seq<T>)
    requires Distinct(a) && Distinct(b)
    requires forall x :: x in a <==> x in b
    ensures multiset(a) == multiset(b)
  {
    forall x ensures multiset(a)[x] == multiset(b)[x] {
      DistinctCount(a, x);
      DistinctCount(b, x);
    }
  }

  /**
   * The percentage change used throughout the API and the pages:
   * `diff / base * 100` when the base is non-zero, otherwise 0.
   */
  function PercentOf(diff: real, base: real): (r: real)
    ensures base != 0.0 ==> r * base == diff * 100.0
    ensures base == 0.0 ==> r == 0.0
    ensures base > 0.0 ==> (r >= 0.0 <==> diff >= 0.0)
  {
    if base != 0.0 then diff / base * 100.0 else 0.0
  }

  // ---------------------------------------------------------------
  // Whitespace and trimming. Python's str.strip() and JavaScript's
  // String.prototype.trim() disagree on a few code points, so both
  // character classes are spelled out.
  // ---------------------------------------------------------------

  /** Characters for which Python's str.isspace() holds. */
  predicate PyWhitespace(c: char)
  {
    c == ' ' || ('\t' <= c <= '\r') || ('\U{1c}' <= c <= '\U{1f}') || c == '\U{85}'
    || c == '\U{a0}' || c == '\U{1680}' || ('\U{2000}' <= c <= '\U{200a}')
    || c == '\U{2028}' || c == '\U{2029}' || c == '\U{202f}' || c == '\U{205f}' || c == '\U{3000}'
  }

  /** WhiteSpace and LineTerminator code points removed by JavaScript's trim(). */
  predicate JsWhitespace(c: char)
  {
    c == ' ' || ('\t' <= c <= '\r') || c == '\U{a0}' || c == '\U{1680}'
    || ('\U{2000}' <= c <= '\U{200a}') || c == '\U{2028}' || c == '\U{2029}'
    || c == '\U{202f}' || c == '\U{205f}' || c == '\U{3000}' || c == '\U{feff}'
  }

  function TrimStart(s: string, ws: char -> bool): (r: string)
    ensures |r| <= |s| && r == s[|s| - |r|..]
    ensures forall i :: 0 <= i < |s| - |r| ==> ws(s[i])
    ensures r != [] ==> !ws(r[0])
  {
    if s != [] && ws(s[0]) then TrimStart(s[1..], ws) else s
  }

  function TrimEnd(s: string, ws: char -> bool): (r: string)
    ensures |r| <= |s| && r == s[..|r|]
    ensures forall i :: |r| <= i < |s| ==> ws(s[i])
    ensures r != [] ==> !ws(r[|r| - 1])
  {
    if s != [] && ws(s[|s| - 1]) then TrimEnd(s[..|s| - 1], ws) else s
  }

  /** Removes leading and trailing characters of class `ws`. */
  function Trim(s: string, ws: char -> bool): (r: string)
    ensures exists i :: OccursAt(s, r, i)
    ensures r != [] ==> !ws(r[0]) && !ws(r[|r| - 1])
    ensures r == [] <==> (forall i :: 0 <= i < |s| ==> ws(s[i]))
  {
    TrimParts(s, ws);
    TrimEnd(TrimStart(s, ws), ws)
  }

  /** Trimming the end of the trimmed start leaves a slice of `s`, empty exactly when all of `s` is `ws`. */
  lemma TrimParts(s: string, ws: char -> bool)
    ensures var t := TrimStart(s, ws);
      var u := TrimEnd(t, ws);
      OccursAt(s, u, |s| - |t|)
      && (u != [] ==> !ws(u[0]) && !ws(u[|u| - 1]))
      && (u == [] <==> (forall i :: 0 <= i < |s| ==> ws(s[i])))
  {
    var t := TrimStart(s, ws);
    var u := TrimEnd(t, ws);
    SliceOfSuffix(s, t, u, |s| - |t|);
    if u == [] {
      AllOfBothParts(s, t, |s| - |t|, ws);
    }
  }

  /** A prefix `u` of the suffix `t` of `s` starting at k occurs in `s` at k. */
  lemma SliceOfSuffix(s: string, t: string, u: string, k: int)
    requires 0 <= k <= |s| && t == s[k..] && |u| <= |t| && u == t[..|u|]
    ensures OccursAt(s, u, k)
  {
  }

  /** When the first k characters and the rest are all `ws`, the whole string is. */
  lemma AllOfBothParts(s: string, t: string, k: int, ws: char -> bool)
    requires 0 <= k <= |s| && t == s[k..]
    requires forall i :: 0 <= i < k ==> ws(s[i])
    requires forall i :: 0 <= i < |t| ==> ws(t[i])
    ensures forall i :: 0 <= i < |s| ==> ws(s[i])
  {
    forall i | k <= i < |s| ensures ws(s[i]) {
      assert s[i] == t[i - k];
    }
  }

  // ---------------------------------------------------------------
  // Substrings.
  // ---------------------------------------------------------------

  predicate StartsWith(s: string, prefix: string)
  {
    |prefix| <= |s| && s[..|prefix|] == prefix
  }

  predicate EndsWith(s: string, suffix: string)
  {
    |suffix| <= |s| && s[|s| - |suffix|..] == suffix
  }

  /** `t` occurs in `s` starting at index `i`. */
  predicate OccursAt(s: string, t: string, i: int)
  {
    0 <= i <= |s| - |t| && s[i..i + |t|] == t
  }

  /** JavaScript's `s.includes(t)`. */
  predicate Contains(s: string, t: string)
  {
    exists i :: 0 <= i <= |s| && OccursAt(s, t, i)
  }

  /** Index of the first occurrence of character `c`, if any (Python's str.find). */
  function IndexOf(s: string, c: char): (r: Option<nat>)
    ensures r.None? <==> c !in s
    ensures r.Some? ==> r.value < |s| && s[r.value] == c && c !in s[..r.value]
  {
    if s == [] then None
    else if s[0] == c then Some(0)
    else match IndexOf(s[1..], c)
      case None => None
      case Some(k) =>
        assert s[..k + 1] == [s[0]] + s[1..][..k];
        Some(k + 1)
  }
}
