/** Sequence helpers standing in for the lodash functions the mixin uses. */
module Lists {

  /** `s` can be obtained from `t` by deleting elements: `s` keeps `t`'s order. */
  predicate IsSubsequence<T(==)>(s: seq<T>, t: seq<T>)
    decreases |t|
  {
    if s == [] then true
    else if t == [] then false
    else if s[0] == t[0] then IsSubsequence(s[1..], t[1..])
    else IsSubsequence(s, t[1..])
  }

  /** lodash `_.difference(a, b)`: the elements of `a` that do not occur in `b`,
      in `a`'s order and with `a`'s duplicates, compared by exact equality. */
  function Difference<T(==, !new)>(a: seq<T>, b: seq<T>): (r: seq<T>)
    ensures |r| <= |a|
  {
    if a == [] then []
    else if a[0] in b then Difference(a[1..], b)
    else [a[0]] + Difference(a[1..], b)
  }

  /** An element is in the difference exactly when it is in `a` and not in `b`. */
  lemma {:induction false} DifferenceMembership<T(!new)>(a: seq<T>, b: seq<T>)
    ensures forall x :: x in Difference(a, b) <==> x in a && x !in b
    decreases |a|
  {
    if a != [] {
      DifferenceMembership(a[1..], b);
      assert a == [a[0]] + a[1..];
    }
  }

  /** The difference keeps the order of `a`. */
  lemma {:induction false} DifferenceIsSubsequence<T(!new)>(a: seq<T>, b: seq<T>)
    ensures IsSubsequence(Difference(a, b), a)
    decreases |a|
  {
    if a != [] {
      DifferenceIsSubsequence(a[1..], b);
      DifferenceMembership(a[1..], b);
      var r := Difference(a, b);
      if a[0] !in b {
        assert r[1..] == Difference(a[1..], b);
      }
    }
  }

  lemma {:induction false} SubsequenceReflexive<T>(s: seq<T>)
    ensures IsSubsequence(s, s)
    decreases |s|
  {
    if s != [] {
      SubsequenceReflexive(s[1..]);
    }
  }

  /** Every occurrence of an element not in `b` survives, every occurrence of one in `b` goes. */
  lemma {:induction false} DifferenceCount<T(!new)>(a: seq<T>, b: seq<T>, x: T)
    ensures multiset(Difference(a, b))[x] == if x in b then 0 else multiset(a)[x]
    decreases |a|
  {
    if a != [] {
      DifferenceCount(a[1..], b, x);
      assert a == [a[0]] + a[1..];
      assert multiset(a) == multiset([a[0]]) + multiset(a[1..]);
    }
  }

  /** The difference is taken element by element: it distributes over concatenation. */
  lemma {:induction false} DifferenceAppend<T(!new)>(a: seq<T>, c: seq<T>, b: seq<T>)
    ensures Difference(a + c, b) == Difference(a, b) + Difference(c, b)
    decreases |a|
  {
    if a == [] {
      assert a + c == c;
    } else {
      assert (a + c)[0] == a[0];
      assert (a + c)[1..] == a[1..] + c;
      DifferenceAppend(a[1..], c, b);
    }
  }

  /** Removing nothing that occurs leaves the list as it was. */
  lemma {:induction false} DifferenceOfDisjoint<T(!new)>(a: seq<T>, b: seq<T>)
    requires forall x :: x in a ==> x !in b
    ensures Difference(a, b) == a
    decreases |a|
  {
    if a != [] {
      assert a[0] in a;
      DifferenceMembership(a[1..], b);
      forall x | x in a[1..] ensures x !in b {
        assert x in a;
      }
      DifferenceOfDisjoint(a[1..], b);
      assert a == [a[0]] + a[1..];
    }
  }
}
