/**
 * Generic list operations that the components apply to their records: the
 * `reduce` sums, `filter`s, the remove-by-id filter and the replace-by-id map.
 * Every definition recurses on the LAST element, the way a left-to-right
 * accumulator loop sees its prefix.
 */
module Lists {

  /** `s.reduce((acc, x) => acc + f(x), 0)`. */
  function Sum<T>(s: seq<T>, f: T -> real): real
  {
    if s == [] then 0.0 else Sum(s[..|s| - 1], f) + f(s[|s| - 1])
  }

  /** Appending one element adds its term to the sum. */
  lemma SumAppend<T>(s: seq<T>, x: T, f: T -> real)
    ensures Sum(s + [x], f) == Sum(s, f) + f(x)
  {
    assert (s + [x])[..|s|] == s;
  }

  /** `s.map(f)`. */
  function Map<A, B>(s: seq<A>, f: A -> B): (r: seq<B>)
    ensures |r| == |s|
    ensures forall i :: 0 <= i < |s| ==> r[i] == f(s[i])
  {
    if s == [] then [] else Map(s[..|s| - 1], f) + [f(s[|s| - 1])]
  }

  /** Scaling every term by `c` scales the sum by `c`. */
  lemma {:induction false} SumScaled<T>(s: seq<T>, f: T -> real, g: T -> real, c: real)
    requires forall i :: 0 <= i < |s| ==> g(s[i]) == f(s[i]) * c
    ensures Sum(s, g) == Sum(s, f) * c
  {
    if s != [] {
      var prefix := s[..|s| - 1];
      SumScaled(prefix, f, g, c);
      assert Sum(s, g) == Sum(prefix, f) * c + f(s[|s| - 1]) * c;
    }
  }

  /** `s.filter(p)`. */
  function Filter<T(!new)>(s: seq<T>, p: T -> bool): (r: seq<T>)
    ensures |r| <= |s|
    ensures forall x :: x in r <==> x in s && p(x)
  {
    if s == [] then [] else
      var rest := Filter(s[..|s| - 1], p);
      assert forall x :: x in s <==> x in s[..|s| - 1] || x == s[|s| - 1];
      if p(s[|s| - 1]) then rest + [s[|s| - 1]] else rest
  }

  /** `s.filter(x => idOf(x) !== id)`: every record with that id is dropped. */
  function RemoveId<T(!new)>(s: seq<T>, idOf: T -> string, id: string): (r: seq<T>)
    ensures |r| <= |s|
    ensures forall x :: x in r <==> x in s && idOf(x) != id
  {
    if s == [] then [] else
      var rest := RemoveId(s[..|s| - 1], idOf, id);
      assert forall x :: x in s <==> x in s[..|s| - 1] || x == s[|s| - 1];
      if idOf(s[|s| - 1]) != id then rest + [s[|s| - 1]] else rest
  }

  /** `s.map(x => idOf(x) === id ? y : x)`: each record with that id becomes `y`. */
  function ReplaceId<T>(s: seq<T>, idOf: T -> string, id: string, y: T): (r: seq<T>)
    ensures |r| == |s|
    ensures forall i :: 0 <= i < |s| ==> r[i] == (if idOf(s[i]) == id then y else s[i])
  {
    if s == [] then [] else
      ReplaceId(s[..|s| - 1], idOf, id, y) + [if idOf(s[|s| - 1]) == id then y else s[|s| - 1]]
  }

  /** `s.map(x => idOf(x) === id ? g(x) : x)`: each record with that id is rewritten by `g`. */
  function UpdateId<T>(s: seq<T>, idOf: T -> string, id: string, g: T -> T): (r: seq<T>)
    ensures |r| == |s|
    ensures forall i :: 0 <= i < |s| ==> r[i] == (if idOf(s[i]) == id then g(s[i]) else s[i])
  {
    if s == [] then [] else
      UpdateId(s[..|s| - 1], idOf, id, g) + [if idOf(s[|s| - 1]) == id then g(s[|s| - 1]) else s[|s| - 1]]
  }

  /** A sum over a concatenation is the sum of the sums. */
  lemma {:induction false} SumConcat<T>(a: seq<T>, b: seq<T>, f: T -> real)
    ensures Sum(a + b, f) == Sum(a, f) + Sum(b, f)
  {
    if b == [] {
      assert a + b == a;
    } else {
      assert (a + b)[..|a + b| - 1] == a + b[..|b| - 1];
      SumConcat(a, b[..|b| - 1], f);
    }
  }

  /** Taking one element out of a sum. */
  lemma {:induction false} SumRemoveAt<T>(b: seq<T>, j: nat, f: T -> real)
    requires j < |b|
    ensures Sum(b, f) == Sum(b[..j] + b[j + 1..], f) + f(b[j])
  {
    assert b == b[..j] + ([b[j]] + b[j + 1..]);
    SumConcat(b[..j], [b[j]] + b[j + 1..], f);
    SumConcat([b[j]], b[j + 1..], f);
    SumConcat(b[..j], b[j + 1..], f);
    assert [b[j]][..0] == [];
    assert Sum([b[j]], f) == Sum([], f) + f(b[j]);
  }

  lemma {:induction false} MultisetRemoveAt<T>(b: seq<T>, j: nat)
    requires j < |b|
    ensures multiset(b[..j] + b[j + 1..]) == multiset(b) - multiset{b[j]}
  {
    assert b == b[..j] + [b[j]] + b[j + 1..];
  }

  /** A sum over a sequence depends only on its multiset of elements: reordering does not change it. */
  lemma {:induction false} SumPermutation<T>(a: seq<T>, b: seq<T>, f: T -> real)
    requires multiset(a) == multiset(b)
    ensures Sum(a, f) == Sum(b, f)
    decreases |a|
  {
    if a == [] {
      assert |b| == |multiset(b)| == 0;
    } else {
      var x := a[|a| - 1];
      var a' := a[..|a| - 1];
      assert a == a' + [x];
      assert x in multiset(b);
      var j :| 0 <= j < |b| && b[j] == x;
      MultisetRemoveAt(a, |a| - 1);
      MultisetRemoveAt(b, j);
      assert a[..|a| - 1] + a[|a|..] == a';
      SumPermutation(a', b[..j] + b[j + 1..], f);
      SumRemoveAt(b, j, f);
    }
  }

  /** Removing an id that no record carries leaves the list as it was. */
  lemma {:induction false} RemoveAbsentId<T(!new)>(s: seq<T>, idOf: T -> string, id: string)
    requires forall x :: x in s ==> idOf(x) != id
    ensures RemoveId(s, idOf, id) == s
  {
    if s != [] {
      RemoveAbsentId(s[..|s| - 1], idOf, id);
      assert s == s[..|s| - 1] + [s[|s| - 1]];
    }
  }

  /** Removal works record by record: it distributes over concatenation, so the kept records stay in order. */
  lemma {:induction false} RemoveIdConcat<T(!new)>(a: seq<T>, b: seq<T>, idOf: T -> string, id: string)
    ensures RemoveId(a + b, idOf, id) == RemoveId(a, idOf, id) + RemoveId(b, idOf, id)
  {
    if b == [] {
      assert a + b == a;
    } else {
      assert (a + b)[..|a + b| - 1] == a + b[..|b| - 1];
      RemoveIdConcat(a, b[..|b| - 1], idOf, id);
    }
  }

  /** Replacing the records with an id by one with the same id, then removing that id, removes the originals. */
  lemma {:induction false} RemoveIdAfterReplace<T(!new)>(s: seq<T>, idOf: T -> string, id: string, y: T)
    requires idOf(y) == id
    ensures RemoveId(ReplaceId(s, idOf, id, y), idOf, id) == RemoveId(s, idOf, id)
  {
    if s != [] {
      var prefix := s[..|s| - 1];
      RemoveIdAfterReplace(prefix, idOf, id, y);
      var r := ReplaceId(s, idOf, id, y);
      assert r[..|r| - 1] == ReplaceId(prefix, idOf, id, y);
    }
  }

  /** The records that carry `id`: what `RemoveId` drops. */
  function KeepId<T(!new)>(s: seq<T>, idOf: T -> string, id: string): (r: seq<T>)
    ensures forall x :: x in r <==> x in s && idOf(x) == id
  {
    if s == [] then [] else
      var rest := KeepId(s[..|s| - 1], idOf, id);
      assert forall x :: x in s <==> x in s[..|s| - 1] || x == s[|s| - 1];
      if idOf(s[|s| - 1]) == id then rest + [s[|s| - 1]] else rest
  }

  /** A sum splits into the records removed by id and those kept. */
  lemma {:induction false} SumRemoveId<T(!new)>(s: seq<T>, idOf: T -> string, id: string, f: T -> real)
    ensures Sum(s, f) == Sum(RemoveId(s, idOf, id), f) + Sum(KeepId(s, idOf, id), f)
  {
    if s != [] {
      var prefix, x := s[..|s| - 1], s[|s| - 1];
      SumRemoveId(prefix, idOf, id, f);
      var removed, kept := RemoveId(prefix, idOf, id), KeepId(prefix, idOf, id);
      if idOf(x) == id {
        assert (kept + [x])[..|kept|] == kept;
      } else {
        assert (removed + [x])[..|removed|] == removed;
      }
    }
  }

  predicate NoDuplicates<T(==)>(s: seq<T>)
  {
    forall i, j :: 0 <= i < j < |s| ==> s[i] != s[j]
  }

  /** Filtering works element by element: it distributes over concatenation, so kept elements stay in order. */
  lemma {:induction false} FilterConcat<T(!new)>(a: seq<T>, b: seq<T>, p: T -> bool)
    ensures Filter(a + b, p) == Filter(a, p) + Filter(b, p)
  {
    if b == [] {
      assert a + b == a;
    } else {
      assert (a + b)[..|a + b| - 1] == a + b[..|b| - 1];
      FilterConcat(a, b[..|b| - 1], p);
    }
  }

  /** `s.filter(y => y !== x)`: every occurrence of x is dropped. */
  function Remove<T(==,!new)>(s: seq<T>, x: T): (r: seq<T>)
    ensures |r| <= |s|
    ensures forall y :: y in r <==> y in s && y != x
  {
    if s == [] then [] else
      var rest := Remove(s[..|s| - 1], x);
      assert forall y :: y in s <==> y in s[..|s| - 1] || y == s[|s| - 1];
      if s[|s| - 1] != x then rest + [s[|s| - 1]] else rest
  }

  lemma {:induction false} RemoveConcat<T(!new)>(a: seq<T>, b: seq<T>, x: T)
    ensures Remove(a + b, x) == Remove(a, x) + Remove(b, x)
  {
    if b == [] {
      assert a + b == a;
    } else {
      assert (a + b)[..|a + b| - 1] == a + b[..|b| - 1];
      RemoveConcat(a, b[..|b| - 1], x);
    }
  }

  lemma {:induction false} RemoveAbsent<T(!new)>(s: seq<T>, x: T)
    requires x !in s
    ensures Remove(s, x) == s
  {
    if s != [] {
      RemoveAbsent(s[..|s| - 1], x);
      assert s == s[..|s| - 1] + [s[|s| - 1]];
    }
  }

  lemma {:induction false} RemoveNoDuplicates<T(!new)>(s: seq<T>, x: T)
    requires NoDuplicates(s)
    ensures NoDuplicates(Remove(s, x))
  {
    if s != [] {
      var s', y := s[..|s| - 1], s[|s| - 1];
      RemoveNoDuplicates(s', x);
      assert forall k :: 0 <= k < |s'| ==> s'[k] == s[k];
      assert y !in s';
    }
  }
}
