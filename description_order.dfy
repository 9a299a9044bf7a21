/**
 * The final step of the rollup: `rows.sort((a, b) => a.description.localeCompare(b.description))`.
 * Locale-aware collation is modelled as plain lexicographic order on character codes.
 */
module DescriptionOrder {
  import opened Types

  /** Lexicographic "at most" on strings: a proper prefix comes first. */
  predicate LessEq(a: string, b: string)
  {
    |a| == 0 || (|b| > 0 && (a[0] < b[0] || (a[0] == b[0] && LessEq(a[1..], b[1..]))))
  }

  lemma {:induction false} LessEqTotal(a: string, b: string)
    ensures LessEq(a, b) || LessEq(b, a)
  {
    if |a| > 0 && |b| > 0 && a[0] == b[0] {
      LessEqTotal(a[1..], b[1..]);
    }
  }

  lemma {:induction false} LessEqTransitive(a: string, b: string, c: string)
    requires LessEq(a, b) && LessEq(b, c)
    ensures LessEq(a, c)
  {
    if |a| > 0 && a[0] == b[0] && b[0] == c[0] {
      LessEqTransitive(a[1..], b[1..], c[1..]);
    }
  }

  /** Lexicographic order is antisymmetric: two strings in both orders are equal. */
  lemma {:induction false} LessEqAntisymmetric(a: string, b: string)
    requires LessEq(a, b) && LessEq(b, a)
    ensures a == b
  {
    if |a| > 0 {
      LessEqAntisymmetric(a[1..], b[1..]);
      assert a == [a[0]] + a[1..] && b == [b[0]] + b[1..];
    }
  }

  ghost predicate SortedByDescription(rows: seq<RollupRow>)
  {
    SortedPrefix(rows, |rows|)
  }

  /** The first `n` rows are ascending by description. */
  ghost predicate SortedPrefix(rows: seq<RollupRow>, n: int)
    requires n <= |rows|
  {
    forall p, q :: 0 <= p < q < n ==> LessEq(rows[p].description, rows[q].description)
  }

  /**
   * `Array.prototype.sort` with the description comparator, as an in-place insertion sort:
   * afterwards the array is ascending by description and holds the same rows.
   */
  method SortByDescription(a: array<RollupRow>)
    modifies a
    ensures SortedByDescription(a[..])
    ensures multiset(a[..]) == old(multiset(a[..]))
  {
    var i := 0;
    while i < a.Length
      invariant 0 <= i <= a.Length
      invariant SortedPrefix(a[..], i)
      invariant multiset(a[..]) == old(multiset(a[..]))
    {
      InsertDown(a, i);
      i := i + 1;
    }
  }

  /** Moves `a[i]` down past every larger description, so that the first `i + 1` rows are sorted. */
  method InsertDown(a: array<RollupRow>, i: int)
    requires 0 <= i < a.Length
    requires SortedPrefix(a[..], i)
    modifies a
    ensures SortedPrefix(a[..], i + 1)
    ensures multiset(a[..]) == old(multiset(a[..]))
    ensures a[i + 1..] == old(a[i + 1..])
  {
    var j := i;
    while j > 0 && !LessEq(a[j - 1].description, a[j].description)
      invariant 0 <= j <= i
      invariant forall p, q :: 0 <= p < q <= i && p != j && q != j ==>
                  LessEq(a[p].description, a[q].description)
      invariant forall q :: j < q <= i ==> LessEq(a[j].description, a[q].description)
      invariant multiset(a[..]) == old(multiset(a[..]))
      invariant a[i + 1..] == old(a[i + 1..])
    {
      LessEqTotal(a[j - 1].description, a[j].description);
      SwapDown(a, j);
      j := j - 1;
    }
    forall p | 0 <= p < j
      ensures LessEq(a[p].description, a[j].description)
    {
      if p < j - 1 {
        LessEqTransitive(a[p].description, a[j - 1].description, a[j].description);
      }
    }
  }

  /** Exchanges `a[j - 1]` and `a[j]`. */
  method SwapDown(a: array<RollupRow>, j: int)
    requires 0 < j < a.Length
    modifies a
    ensures a[j - 1] == old(a[j]) && a[j] == old(a[j - 1])
    ensures forall k :: 0 <= k < a.Length && k != j - 1 && k != j ==> a[k] == old(a[k])
    ensures multiset(a[..]) == old(multiset(a[..]))
  {
    a[j - 1], a[j] := a[j], a[j - 1];
  }
}
