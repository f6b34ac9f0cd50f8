/**
 * The Python built-ins that the EMO-DB ingestion code relies on, stated
 * exactly: `str` ordering and `sorted` on a list of names, `str.endswith`,
 * `int()` of a non-integral product, list indexing and list slicing with
 * Python's clamping and negative-index rules.
 */
module PyBuiltins {

  datatype Option<+T> = None | Some(value: T)

  // ---------------------------------------------------------------------
  // String ordering: Python compares `str` lexicographically by code point.
  // ---------------------------------------------------------------------

  /** `a` is a prefix of `b`. */
  predicate IsPrefix(a: string, b: string)
  {
    |a| <= |b| && b[..|a|] == a
  }

  /** At the first position where `a` and `b` differ, `a` has the smaller code point. */
  predicate SmallerAtFirstDifference(a: string, b: string)
  {
    exists k :: 0 <= k < |a| && k < |b| && a[..k] == b[..k] && a[k] < b[k]
  }

  /** `a <= b` on Python strings. */
  predicate StrLe(a: string, b: string)
    decreases |a|
  {
    if |a| == 0 then true
    else if |b| == 0 then false
    else if a[0] != b[0] then a[0] < b[0]
    else StrLe(a[1..], b[1..])
  }

  /**
   * `StrLe` is Python's lexicographic comparison by code point: `a` is a
   * prefix of `b`, or is smaller where the two first differ.
   */
  lemma {:induction false} StrLeIsLexicographic(a: string, b: string)
    ensures StrLe(a, b) <==> IsPrefix(a, b) || SmallerAtFirstDifference(a, b)
    decreases |a|
  {
    if |a| > 0 && |b| > 0 {
      if a[0] != b[0] {
        LexOrderAtHead(a, b);
      } else {
        LexOrderAfterHead(a, b);
        StrLeIsLexicographic(a[1..], b[1..]);
      }
    }
  }

  /** Strings that differ in their first character are ordered by it. */
  lemma LexOrderAtHead(a: string, b: string)
    requires |a| > 0 && |b| > 0 && a[0] != b[0]
    ensures !IsPrefix(a, b)
    ensures SmallerAtFirstDifference(a, b) <==> a[0] < b[0]
  {
    if SmallerAtFirstDifference(a, b) {
      var k :| 0 <= k < |a| && k < |b| && a[..k] == b[..k] && a[k] < b[k];
    }
    if a[0] < b[0] {
      assert a[..0] == b[..0];
    }
  }

  /** Strings with the same first character are ordered by the rest. */
  lemma LexOrderAfterHead(a: string, b: string)
    requires |a| > 0 && |b| > 0 && a[0] == b[0]
    ensures IsPrefix(a, b) == IsPrefix(a[1..], b[1..])
    ensures SmallerAtFirstDifference(a, b) == SmallerAtFirstDifference(a[1..], b[1..])
  {
    if |a| <= |b| {
      assert b[..|a|] == [b[0]] + b[1..][..|a| - 1];
      assert a == [a[0]] + a[1..];
    }
    if SmallerAtFirstDifference(a, b) {
      FirstDifferenceShifts(a, b);
    }
    if SmallerAtFirstDifference(a[1..], b[1..]) {
      FirstDifferenceUnshifts(a, b);
    }
  }

  lemma FirstDifferenceShifts(a: string, b: string)
    requires |a| > 0 && |b| > 0 && a[0] == b[0] && SmallerAtFirstDifference(a, b)
    ensures SmallerAtFirstDifference(a[1..], b[1..])
  {
    var k :| 0 <= k < |a| && k < |b| && a[..k] == b[..k] && a[k] < b[k];
    assert k > 0;
    assert a[1..][..k - 1] == a[..k][1..];
    assert b[1..][..k - 1] == b[..k][1..];
    assert a[1..][k - 1] == a[k] && b[1..][k - 1] == b[k];
  }

  lemma FirstDifferenceUnshifts(a: string, b: string)
    requires |a| > 0 && |b| > 0 && a[0] == b[0] && SmallerAtFirstDifference(a[1..], b[1..])
    ensures SmallerAtFirstDifference(a, b)
  {
    var k :| 0 <= k < |a| - 1 && k < |b| - 1 && a[1..][..k] == b[1..][..k] && a[1..][k] < b[1..][k];
    assert a[..k + 1] == [a[0]] + a[1..][..k];
    assert b[..k + 1] == [b[0]] + b[1..][..k];
    assert a[k + 1] == a[1..][k] && b[k + 1] == b[1..][k];
  }

  lemma {:induction false} StrLeReflexive(a: string)
    ensures StrLe(a, a)
    decreases |a|
  {
    if |a| > 0 { StrLeReflexive(a[1..]); }
  }

  lemma {:induction false} StrLeTotal(a: string, b: string)
    ensures StrLe(a, b) || StrLe(b, a)
    decreases |a|
  {
    if |a| > 0 && |b| > 0 && a[0] == b[0] { StrLeTotal(a[1..], b[1..]); }
  }

  lemma {:induction false} StrLeAntisymmetric(a: string, b: string)
    requires StrLe(a, b) && StrLe(b, a)
    ensures a == b
    decreases |a|
  {
    if |a| > 0 {
      StrLeAntisymmetric(a[1..], b[1..]);
      assert a == [a[0]] + a[1..] && b == [b[0]] + b[1..];
    }
  }

  lemma {:induction false} StrLeTransitive(a: string, b: string, c: string)
    requires StrLe(a, b) && StrLe(b, c)
    ensures StrLe(a, c)
    decreases |a|
  {
    if |a| > 0 && a[0] == b[0] && b[0] == c[0] {
      StrLeTransitive(a[1..], b[1..], c[1..]);
    }
  }

  // ---------------------------------------------------------------------
  // sorted(names)
  // ---------------------------------------------------------------------

  /** Every name is `<=` every later name. */
  predicate IsSorted(s: seq<string>)
  {
    forall i, j :: 0 <= i < j < |s| ==> StrLe(s[i], s[j])
  }

  /** `b` is `<=` every element of `s`. */
  predicate LowerBound(b: string, s: seq<string>)
  {
    forall y :: y in s ==> StrLe(b, y)
  }

  lemma SortedHeadIsLowerBound(s: seq<string>)
    requires IsSorted(s) && |s| > 0
    ensures LowerBound(s[0], s)
  {
    forall y | y in s ensures StrLe(s[0], y) {
      var k :| 0 <= k < |s| && s[k] == y;
      if k == 0 { StrLeReflexive(y); }
    }
  }

  /** Insertion of `x` into a sorted list, keeping it sorted. */
  function Insert(x: string, s: seq<string>): (r: seq<string>)
    requires IsSorted(s)
    ensures multiset(r) == multiset(s) + multiset{x}
    ensures IsSorted(r)
  {
    if s == [] then [x]
    else if StrLe(x, s[0]) then
      SortedHeadIsLowerBound(s);
      assert forall y :: y in s ==> StrLe(x, y) by {
        forall y | y in s ensures StrLe(x, y) { StrLeTransitive(x, s[0], y); }
      }
      assert [x] + s == [x] + s[0..];
      [x] + s
    else
      var rest := Insert(x, s[1..]);
      StrLeTotal(x, s[0]);
      assert s == [s[0]] + s[1..];
      assert forall y :: y in rest ==> StrLe(s[0], y) by {
        forall y | y in rest ensures StrLe(s[0], y) {
          assert y in multiset(rest);
          if y != x {
            assert y in multiset(s[1..]);
            var k :| 0 <= k < |s[1..]| && s[1..][k] == y;
            assert s[k + 1] == y;
          }
        }
      }
      [s[0]] + rest
  }

  /** Python's `sorted` on a list of names: ascending, same elements. */
  function Sorted(s: seq<string>): (r: seq<string>)
    ensures IsSorted(r)
    ensures multiset(r) == multiset(s)
  {
    if s == [] then []
    else
      assert s == [s[0]] + s[1..];
      Insert(s[0], Sorted(s[1..]))
  }

  /** A sorted arrangement of a multiset of names is unique. */
  lemma {:induction false} SortedUnique(a: seq<string>, b: seq<string>)
    requires IsSorted(a) && IsSorted(b)
    requires multiset(a) == multiset(b)
    ensures a == b
    decreases |a|
  {
    if |a| == 0 {
      assert |b| == |multiset(b)| == 0;
    } else {
      assert |b| == |multiset(b)| == |multiset(a)| == |a|;
      SortedHeadsAgree(a, b);
      assert a == [a[0]] + a[1..] && b == [b[0]] + b[1..];
      assert multiset(a[1..]) == multiset(a) - multiset{a[0]};
      assert multiset(b[1..]) == multiset(b) - multiset{b[0]};
      SortedUnique(a[1..], b[1..]);
    }
  }

  /** Two sorted arrangements of the same names start with the same name. */
  lemma SortedHeadsAgree(a: seq<string>, b: seq<string>)
    requires IsSorted(a) && IsSorted(b) && |a| > 0 && |b| > 0
    requires multiset(a) == multiset(b)
    ensures a[0] == b[0]
  {
    assert a[0] in multiset(b) && b[0] in multiset(a);
    SortedHeadIsLowerBound(a);
    SortedHeadIsLowerBound(b);
    StrLeAntisymmetric(a[0], b[0]);
  }

  /** `sorted(s)` is the one sorted list with the elements of `s`. */
  lemma SortedIsOnlySortedPermutation(s: seq<string>, t: seq<string>)
    requires IsSorted(t) && multiset(t) == multiset(s)
    ensures Sorted(s) == t
  {
    SortedUnique(Sorted(s), t);
  }

  /** `sorted` depends only on which names are present, not on their order. */
  lemma SortedIgnoresOrder(a: seq<string>, b: seq<string>)
    requires multiset(a) == multiset(b)
    ensures Sorted(a) == Sorted(b)
  {
    SortedUnique(Sorted(a), Sorted(b));
  }

  // ---------------------------------------------------------------------
  // str.endswith, int(), indexing and slicing
  // ---------------------------------------------------------------------

  /** `s.endswith(suffix)`: `s` is some string followed by `suffix`. */
  function EndsWith(s: string, suffix: string): (b: bool)
    ensures b <==> exists prefix :: s == prefix + suffix
  {
    if |suffix| <= |s| then
      assert s == s[..|s| - |suffix|] + s[|s| - |suffix|..];
      s[|s| - |suffix|..] == suffix
    else
      false
  }

  /** `int(p / d)` for a non-negative denominator: truncation toward zero. */
  function TruncDiv(p: int, d: nat): (r: int)
    requires d > 0
    ensures 0 <= p ==> r * d <= p < (r + 1) * d
    ensures p < 0 ==> (r - 1) * d < p <= r * d
  {
    if p >= 0 then p / d else -((-p) / d)
  }

  /** The position `i` stands for in `s[:i]` / `s[i:]` on a list of length `n`. */
  function SliceBound(i: int, n: nat): (r: nat)
    ensures r <= n
    ensures 0 <= i <= n ==> r == i
    ensures i > n ==> r == n
    ensures i < 0 ==> r == if n + i < 0 then 0 else n + i
  {
    if i < 0 then (if n + i < 0 then 0 else n + i)
    else if i > n then n
    else i
  }

  /** `s[i]`: a negative `i` counts from the end; out of range is `None` (IndexError). */
  function Index<T>(s: seq<T>, i: int): (r: Option<T>)
    ensures r.Some? <==> -|s| <= i < |s|
    ensures 0 <= i < |s| ==> r == Some(s[i])
    ensures -|s| <= i < 0 ==> r == Some(s[|s| + i])
  {
    if 0 <= i < |s| then Some(s[i])
    else if -|s| <= i < 0 then Some(s[|s| + i])
    else None
  }
}
