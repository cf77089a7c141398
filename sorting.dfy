/**
 * Sorting by a comparator, as `sortedWith`/`List.sort` do: a pure insertion
 * sort that is the reference, its correctness lemmas, and an in-place sort of
 * an array proved against it.
 */
module Sorting {

  /** `le(a, b)` is "`compare(a, b) <= 0`" for a comparator that is a total preorder. */
  ghost predicate TotalPreorder<T(!new)>(le: (T, T) -> bool)
  {
    (forall a, b :: le(a, b) || le(b, a)) &&
    (forall a, b, c :: le(a, b) && le(b, c) ==> le(a, c))
  }

  /** Elements that compare equal are equal. */
  ghost predicate Antisymmetric<T(!new)>(le: (T, T) -> bool)
  {
    forall a, b :: le(a, b) && le(b, a) ==> a == b
  }

  predicate SortedBy<T>(s: seq<T>, le: (T, T) -> bool)
  {
    forall i, j :: 0 <= i < j < |s| ==> le(s[i], s[j])
  }

  /** Insert `x` before the first element it does not come after. */
  function Insert<T>(x: T, s: seq<T>, le: (T, T) -> bool): seq<T>
  {
    if s == [] then [x]
    else if le(x, s[0]) then [x] + s
    else [s[0]] + Insert(x, s[1..], le)
  }

  /** Stable insertion sort: the head goes in front of every later element that compares equal. */
  function SortBy<T>(s: seq<T>, le: (T, T) -> bool): seq<T>
  {
    if s == [] then [] else Insert(s[0], SortBy(s[1..], le), le)
  }

  lemma {:induction false} InsertPermutes<T>(x: T, s: seq<T>, le: (T, T) -> bool)
    ensures multiset(Insert(x, s, le)) == multiset(s) + multiset{x}
  {
    if s != [] && !le(x, s[0]) {
      InsertPermutes(x, s[1..], le);
      assert s == [s[0]] + s[1..];
    }
  }

  lemma {:induction false} InsertSorted<T(!new)>(x: T, s: seq<T>, le: (T, T) -> bool)
    requires TotalPreorder(le) && SortedBy(s, le)
    ensures SortedBy(Insert(x, s, le), le)
  {
    if s != [] && !le(x, s[0]) {
      InsertSorted(x, s[1..], le);
      InsertPermutes(x, s[1..], le);
      var r := Insert(x, s[1..], le);
      forall j | 0 <= j < |r| ensures le(s[0], r[j]) {
        assert r[j] in multiset(s[1..]) + multiset{x};
        if r[j] != x {
          assert r[j] in s[1..];
        }
      }
    }
  }

  /** The reference sort returns a sorted permutation of its input. */
  lemma {:induction false} SortBySortsAndPermutes<T(!new)>(s: seq<T>, le: (T, T) -> bool)
    requires TotalPreorder(le)
    ensures SortedBy(SortBy(s, le), le)
    ensures multiset(SortBy(s, le)) == multiset(s)
    ensures |SortBy(s, le)| == |s|
  {
    if s != [] {
      SortBySortsAndPermutes(s[1..], le);
      InsertSorted(s[0], SortBy(s[1..], le), le);
      InsertPermutes(s[0], SortBy(s[1..], le), le);
      assert s == [s[0]] + s[1..];
    }
    assert |SortBy(s, le)| == |multiset(SortBy(s, le))|;
  }

  lemma SortedHeadIsLeast<T(!new)>(s: seq<T>, x: T, le: (T, T) -> bool)
    requires TotalPreorder(le) && SortedBy(s, le) && x in s
    ensures le(s[0], x)
  {
    var k :| 0 <= k < |s| && s[k] == x;
    if k == 0 {
      assert le(x, x) || le(x, x);
    }
  }

  lemma MultisetOfTail<T>(s: seq<T>)
    requires s != []
    ensures multiset(s[1..]) == multiset(s) - multiset{s[0]}
  {
    assert s == [s[0]] + s[1..];
  }

  /** Two sorted arrangements of one multiset begin with the same element. */
  lemma SortedSameHead<T(!new)>(a: seq<T>, b: seq<T>, le: (T, T) -> bool)
    requires TotalPreorder(le) && Antisymmetric(le)
    requires SortedBy(a, le) && SortedBy(b, le) && multiset(a) == multiset(b) && a != []
    ensures b != [] && a[0] == b[0]
  {
    assert a[0] in multiset(b);
    assert b[0] in multiset(a);
    SortedHeadIsLeast(a, b[0], le);
    SortedHeadIsLeast(b, a[0], le);
  }

  /** Sequences that agree on their head and their multiset agree on the multiset of their tails, and sorted ones have sorted tails. */
  lemma SameTails<T>(a: seq<T>, b: seq<T>, le: (T, T) -> bool)
    requires a != [] && b != [] && a[0] == b[0] && multiset(a) == multiset(b)
    requires SortedBy(a, le) && SortedBy(b, le)
    ensures multiset(a[1..]) == multiset(b[1..])
    ensures SortedBy(a[1..], le) && SortedBy(b[1..], le)
  {
    MultisetOfTail(a);
    MultisetOfTail(b);
  }

  /** Under an antisymmetric order there is one sorted arrangement of a multiset. */
  lemma {:induction false} SortedUnique<T(!new)>(a: seq<T>, b: seq<T>, le: (T, T) -> bool)
    requires TotalPreorder(le) && Antisymmetric(le)
    requires SortedBy(a, le) && SortedBy(b, le) && multiset(a) == multiset(b)
    ensures a == b
  {
    if a != [] {
      SortedSameHead(a, b, le);
      SameTails(a, b, le);
      SortedUnique(a[1..], b[1..], le);
      assert a == [a[0]] + a[1..] && b == [b[0]] + b[1..];
    } else {
      assert |multiset(b)| == 0;
    }
  }

  /** Whatever the input order, permutations of one another sort to the same sequence. */
  lemma SortByIgnoresOrder<T(!new)>(s: seq<T>, t: seq<T>, le: (T, T) -> bool)
    requires TotalPreorder(le) && Antisymmetric(le) && multiset(s) == multiset(t)
    ensures SortBy(s, le) == SortBy(t, le)
  {
    SortBySortsAndPermutes(s, le);
    SortBySortsAndPermutes(t, le);
    SortedUnique(SortBy(s, le), SortBy(t, le), le);
  }

  /** The elements of `s` that `keep` selects, in their order in `s`. */
  function Filter<T>(s: seq<T>, keep: T -> bool): (r: seq<T>)
    ensures |r| <= |s|
    ensures forall x :: x in r ==> x in s
  {
    if s == [] then [] else (if keep(s[0]) then [s[0]] else []) + Filter(s[1..], keep)
  }

  /** Only selected elements of `s` survive the filter. */
  lemma {:induction false} FilterSelects<T>(s: seq<T>, keep: T -> bool)
    ensures forall x :: x in Filter(s, keep) ==> x in s && keep(x)
  {
    if s != [] {
      FilterSelects(s[1..], keep);
    }
  }

  lemma FilterCons<T>(x: T, s: seq<T>, keep: T -> bool)
    ensures Filter([x] + s, keep) == (if keep(x) then [x] else []) + Filter(s, keep)
  {
    assert ([x] + s)[1..] == s;
  }

  /**
   * Inserting `x` keeps the selected elements in order, with `x` in front of
   * them when it is selected: every selected element compares at most every other.
   */
  lemma {:induction false} InsertKeepsSelectedOrder<T>(x: T, s: seq<T>, le: (T, T) -> bool, keep: T -> bool)
    requires forall a, b :: keep(a) && keep(b) ==> le(a, b)
    ensures Filter(Insert(x, s, le), keep) == (if keep(x) then [x] else []) + Filter(s, keep)
  {
    if s == [] {
      FilterCons(x, [], keep);
    } else if le(x, s[0]) {
      FilterCons(x, s, keep);
    } else {
      // x and s[0] are not both selected, or x would have gone in front
      assert !(keep(x) && keep(s[0]));
      var sx := if keep(x) then [x] else [];
      var s0 := if keep(s[0]) then [s[0]] else [];
      InsertKeepsSelectedOrder(x, s[1..], le, keep);
      FilterCons(s[0], Insert(x, s[1..], le), keep);
      FilterCons(s[0], s[1..], keep);
      assert s == [s[0]] + s[1..];
      assert Filter(s, keep) == s0 + Filter(s[1..], keep);
      assert Filter(Insert(x, s, le), keep) == s0 + (sx + Filter(s[1..], keep));
      assert s0 + (sx + Filter(s[1..], keep)) == sx + (s0 + Filter(s[1..], keep));
    }
  }

  /**
   * The sort is stable: elements that all compare equal to one another come
   * out in the order they went in.
   */
  lemma {:induction false} SortByIsStable<T>(s: seq<T>, le: (T, T) -> bool, keep: T -> bool)
    requires forall a, b :: keep(a) && keep(b) ==> le(a, b)
    ensures Filter(SortBy(s, le), keep) == Filter(s, keep)
  {
    if s != [] {
      SortByIsStable(s[1..], le, keep);
      InsertKeepsSelectedOrder(s[0], SortBy(s[1..], le), le, keep);
      FilterCons(s[0], s[1..], keep);
      assert s == [s[0]] + s[1..];
    }
  }

  lemma SwapPermutes<T>(s: seq<T>, i: nat, j: nat)
    requires i < |s| && j < |s|
    ensures multiset(s[i := s[j]][j := s[i]]) == multiset(s)
  {
  }

  /** Exchange two elements; the array keeps its multiset of elements. */
  method Swap<T>(a: array<T>, i: nat, j: nat)
    requires i < a.Length && j < a.Length
    modifies a
    ensures a[i] == old(a[j]) && a[j] == old(a[i])
    ensures forall k :: 0 <= k < a.Length && k != i && k != j ==> a[k] == old(a[k])
    ensures multiset(a[..]) == multiset(old(a[..]))
  {
    ghost var before := a[..];
    a[i], a[j] := a[j], a[i];
    assert a[..] == before[i := before[j]][j := before[i]];
    SwapPermutes(before, i, j);
  }

  /** Move `a[i]` left into the sorted prefix `a[..i]`; the rest of the array is untouched. */
  method InsertIntoPrefix<T(!new)>(a: array<T>, i: nat, le: (T, T) -> bool)
    requires TotalPreorder(le)
    requires i < a.Length
    requires forall p, q :: 0 <= p < q < i ==> le(a[p], a[q])
    modifies a
    ensures forall p, q :: 0 <= p < q <= i ==> le(a[p], a[q])
    ensures multiset(a[..]) == multiset(old(a[..]))
    ensures forall k :: i < k < a.Length ==> a[k] == old(a[k])
  {
    var j := i;
    while j > 0 && !le(a[j - 1], a[j])
      invariant 0 <= j <= i
      invariant multiset(a[..]) == multiset(old(a[..]))
      invariant forall k :: i < k < a.Length ==> a[k] == old(a[k])
      invariant forall p, q :: 0 <= p < q < j ==> le(a[p], a[q])
      invariant forall p, q :: j <= p < q <= i ==> le(a[p], a[q])
      invariant forall p, q :: 0 <= p < j < q <= i ==> le(a[p], a[q])
    {
      Swap(a, j - 1, j);
      j := j - 1;
    }
  }

  /** In-place insertion sort: each element in turn is moved into the sorted prefix. */
  method SortInPlace<T(!new)>(a: array<T>, le: (T, T) -> bool)
    requires TotalPreorder(le)
    modifies a
    ensures SortedBy(a[..], le)
    ensures multiset(a[..]) == multiset(old(a[..]))
  {
    var i := 0;
    while i < a.Length
      invariant 0 <= i <= a.Length
      invariant forall p, q :: 0 <= p < q < i ==> le(a[p], a[q])
      invariant multiset(a[..]) == multiset(old(a[..]))
    {
      InsertIntoPrefix(a, i, le);
      i := i + 1;
    }
  }
}
