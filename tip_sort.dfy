/**
 * Sorting a list by a caller-supplied "comes before" comparator, as the
 * profile screen does when a sort option is chosen. The comparator must be a
 * strict weak order; the result is the input reordered so that no element
 * comes before an earlier one, and elements the comparator cannot tell
 * apart keep their input order (the sort is stable).
 */
module TipSort {

  /** What a sorting comparator must be: irreflexive and asymmetric, with transitive "not before". */
  ghost predicate StrictWeakOrder<T(!new)>(less: (T, T) -> bool)
  {
    && (forall a, b :: less(a, b) ==> !less(b, a))
    && (forall a, b, c {:trigger less(a, b), less(b, c), less(a, c)} :: !less(a, b) && !less(b, c) ==> !less(a, c))
  }

  /** No element of `s` comes, by `less`, strictly before an earlier one. */
  ghost predicate SortedBy<T>(s: seq<T>, less: (T, T) -> bool)
  {
    forall i, j :: 0 <= i < j < |s| ==> !less(s[j], s[i])
  }

  /** Neither of `a` and `b` comes before the other. */
  predicate Equivalent<T>(a: T, b: T, less: (T, T) -> bool)
  {
    !less(a, b) && !less(b, a)
  }

  /** The elements of `s` equivalent to `e`, in their order in `s`. */
  function Equivalents<T>(s: seq<T>, e: T, less: (T, T) -> bool): seq<T>
  {
    if s == [] then []
    else (if Equivalent(s[0], e, less) then [s[0]] else []) + Equivalents(s[1..], e, less)
  }

  /** Putting in front of a sorted list an element no element comes before keeps it sorted. */
  lemma SortedCons<T>(x: T, s: seq<T>, less: (T, T) -> bool)
    requires SortedBy(s, less)
    requires forall j :: 0 <= j < |s| ==> !less(s[j], x)
    ensures SortedBy([x] + s, less)
  {
    var r := [x] + s;
    forall i, j | 0 <= i < j < |r| ensures !less(r[j], r[i]) {
      if i > 0 {
        assert r[i] == s[i - 1] && r[j] == s[j - 1];
      } else {
        assert r[j] == s[j - 1];
      }
    }
  }

  /** Nothing in a sorted list comes before `x` when its head does not. */
  lemma NoneBefore<T(!new)>(x: T, s: seq<T>, less: (T, T) -> bool)
    requires StrictWeakOrder(less)
    requires SortedBy(s, less)
    requires s == [] || !less(s[0], x)
    ensures forall j :: 0 <= j < |s| ==> !less(s[j], x)
  {
    forall j | 0 < j < |s| ensures !less(s[j], x) {
      assert !less(s[j], s[0]);
    }
  }

  /** Places `x` into the sorted list `s` after every element it does not come before. */
  function Insert<T(!new)>(x: T, s: seq<T>, less: (T, T) -> bool): (r: seq<T>)
    requires StrictWeakOrder(less)
    requires SortedBy(s, less)
    ensures SortedBy(r, less)
    ensures multiset(r) == multiset(s) + multiset{x}
    ensures |r| == |s| + 1
    ensures forall y :: y in r ==> y == x || y in s
  {
    if s == [] || !less(s[0], x) then
      NoneBefore(x, s, less);
      SortedCons(x, s, less);
      [x] + s
    else
      var rest := Insert(x, s[1..], less);
      assert s == [s[0]] + s[1..];
      assert forall j :: 0 <= j < |rest| ==> !less(rest[j], s[0]) by {
        forall j | 0 <= j < |rest| ensures !less(rest[j], s[0]) {
          if rest[j] != x {
            assert rest[j] in rest;
            assert rest[j] in s[1..];
            var k :| 0 <= k < |s[1..]| && s[1..][k] == rest[j];
            assert s[k + 1] == rest[j];
          }
        }
      }
      SortedCons(s[0], rest, less);
      [s[0]] + rest
  }

  /**
   * Inserting `x` puts it in front of the elements of `s` equivalent to it:
   * among the elements equivalent to any `e`, the order of `s` is kept and
   * `x`, if it is one of them, comes first.
   */
  lemma {:induction false} InsertStable<T(!new)>(x: T, s: seq<T>, less: (T, T) -> bool, e: T)
    requires StrictWeakOrder(less)
    requires SortedBy(s, less)
    ensures Equivalents(Insert(x, s, less), e, less)
         == (if Equivalent(x, e, less) then [x] else []) + Equivalents(s, e, less)
    decreases |s|
  {
    if s == [] || !less(s[0], x) {
      assert Insert(x, s, less) == [x] + s;
      EquivalentsCons(x, s, e, less);
    } else {
      InsertPast(x, s, less);
      InsertStable(x, s[1..], less, e);
      NotBothEquivalent(s[0], x, e, less);
      EquivalentsPast(s[0], x, Insert(x, s[1..], less), s[1..], e, less);
      assert [s[0]] + s[1..] == s;
    }
  }

  /** Inserting `x` past a head that comes before it keeps the head in front. */
  lemma InsertPast<T(!new)>(x: T, s: seq<T>, less: (T, T) -> bool)
    requires StrictWeakOrder(less)
    requires SortedBy(s, less)
    requires s != [] && less(s[0], x)
    ensures SortedBy(s[1..], less)
    ensures Insert(x, s, less) == [s[0]] + Insert(x, s[1..], less)
  {
  }

  /**
   * Putting `h` in front of both `rest` and `t` keeps `rest`'s equivalents
   * equal to `x`'s (if any) followed by `t`'s, when `h` and `x` are not both
   * equivalent to `e`.
   */
  lemma EquivalentsPast<T>(h: T, x: T, rest: seq<T>, t: seq<T>, e: T, less: (T, T) -> bool)
    requires !(Equivalent(h, e, less) && Equivalent(x, e, less))
    requires Equivalents(rest, e, less) == (if Equivalent(x, e, less) then [x] else []) + Equivalents(t, e, less)
    ensures Equivalents([h] + rest, e, less)
         == (if Equivalent(x, e, less) then [x] else []) + Equivalents([h] + t, e, less)
  {
    EquivalentsCons(h, rest, e, less);
    EquivalentsCons(h, t, e, less);
    if Equivalent(h, e, less) {
      assert Equivalents(rest, e, less) == Equivalents(t, e, less);
    } else {
      assert Equivalents([h] + t, e, less) == Equivalents(t, e, less);
    }
  }

  /** The equivalents of a list with a head are the head, if equivalent, then those of the tail. */
  lemma EquivalentsCons<T>(h: T, t: seq<T>, e: T, less: (T, T) -> bool)
    ensures Equivalents([h] + t, e, less) == (if Equivalent(h, e, less) then [h] else []) + Equivalents(t, e, less)
  {
    assert ([h] + t)[1..] == t;
  }

  /** An element that comes before `x` is not equivalent to anything `x` is equivalent to. */
  lemma NotBothEquivalent<T(!new)>(a: T, x: T, e: T, less: (T, T) -> bool)
    requires StrictWeakOrder(less)
    requires less(a, x)
    ensures !(Equivalent(a, e, less) && Equivalent(x, e, less))
  {
  }

  /**
   * Insertion sort: a reordering of `s` that is sorted by `less`, in which
   * equivalent elements appear in the order they had in `s`.
   */
  function Sort<T(!new)>(s: seq<T>, less: (T, T) -> bool): (r: seq<T>)
    requires StrictWeakOrder(less)
    ensures SortedBy(r, less)
    ensures multiset(r) == multiset(s)
    ensures forall e :: Equivalents(r, e, less) == Equivalents(s, e, less)
  {
    if s == [] then []
    else
      assert s == [s[0]] + s[1..];
      var sorted := Sort(s[1..], less);
      assert forall e :: Equivalents(Insert(s[0], sorted, less), e, less) == Equivalents(s, e, less) by {
        forall e ensures Equivalents(Insert(s[0], sorted, less), e, less) == Equivalents(s, e, less) {
          InsertStable(s[0], sorted, less, e);
        }
      }
      Insert(s[0], sorted, less)
  }
}
