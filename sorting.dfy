/**
 * `Array.prototype.sort` with a comparator, which ECMAScript 2019 requires to
 * be stable, modelled as insertion sort. `before(a, b)` holds when the
 * comparator puts a strictly ahead of b; elements neither of which goes
 * before the other keep their original relative order.
 */
module Sorting {

  ghost predicate Asymmetric<T(!new)>(before: (T, T) -> bool)
  {
    forall a, b :: before(a, b) ==> !before(b, a)
  }

  /** "Not ahead of" is transitive: the comparator comes from a total preorder on keys. */
  ghost predicate NegativelyTransitive<T(!new)>(before: (T, T) -> bool)
  {
    forall a, b, c :: !before(b, a) && !before(c, b) ==> !before(c, a)
  }

  /** No element is strictly ahead of its predecessor. */
  ghost predicate AdjacentOrdered<T>(s: seq<T>, before: (T, T) -> bool)
  {
    forall i :: 0 <= i < |s| - 1 ==> !before(s[i + 1], s[i])
  }

  /** No element is strictly ahead of any element before it. */
  ghost predicate Ordered<T>(s: seq<T>, before: (T, T) -> bool)
  {
    forall i, j :: 0 <= i < j < |s| ==> !before(s[j], s[i])
  }

  /** Put x ahead of the first element that is not strictly ahead of x. */
  function Insert<T>(x: T, s: seq<T>, before: (T, T) -> bool): (r: seq<T>)
    ensures |r| == |s| + 1
    ensures multiset(r) == multiset(s) + multiset{x}
  {
    if s == [] || !before(s[0], x) then [x] + s
    else
      assert s == [s[0]] + s[1..];
      [s[0]] + Insert(x, s[1..], before)
  }

  /** The stable sort of s; the result is a permutation of s. */
  function SortBy<T>(s: seq<T>, before: (T, T) -> bool): (r: seq<T>)
    ensures multiset(r) == multiset(s)
  {
    if s == [] then []
    else
      assert s == [s[0]] + s[1..];
      Insert(s[0], SortBy(s[1..], before), before)
  }

  lemma {:induction false} InsertOrdered<T(!new)>(x: T, s: seq<T>, before: (T, T) -> bool)
    requires Asymmetric(before)
    requires AdjacentOrdered(s, before)
    ensures AdjacentOrdered(Insert(x, s, before), before)
  {
    if s != [] && before(s[0], x) {
      InsertOrdered(x, s[1..], before);
      var r := Insert(x, s, before);
      assert r[1..] == Insert(x, s[1..], before);
      assert r[1] == x || (|s| > 1 && r[1] == s[1]);
    }
  }

  /** The result of the sort is ordered, whatever the input order. */
  lemma {:induction false} SortByOrdered<T(!new)>(s: seq<T>, before: (T, T) -> bool)
    requires Asymmetric(before)
    ensures AdjacentOrdered(SortBy(s, before), before)
  {
    if s != [] {
      SortByOrdered(s[1..], before);
      InsertOrdered(s[0], SortBy(s[1..], before), before);
    }
  }

  /** Ordered neighbours make an ordered sequence when "not ahead of" is transitive. */
  lemma {:induction false} AdjacentToOrdered<T(!new)>(s: seq<T>, before: (T, T) -> bool)
    requires NegativelyTransitive(before)
    requires AdjacentOrdered(s, before)
    ensures Ordered(s, before)
  {
    if |s| > 1 {
      AdjacentToOrdered(s[1..], before);
      forall j | 0 < j < |s| ensures !before(s[j], s[0]) {
        if j > 1 {
          assert !before(s[j], s[1]) by { assert s[1..][0] == s[1] && s[1..][j - 1] == s[j]; }
        }
      }
      forall i, j | 0 <= i < j < |s| ensures !before(s[j], s[i]) {
        if i > 0 {
          assert s[1..][i - 1] == s[i] && s[1..][j - 1] == s[j];
        }
      }
    }
  }
}
