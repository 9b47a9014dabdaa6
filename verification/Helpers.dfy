/** Operations on lists without order in mind: delete, difference, union. */
module Helpers {

  /** The list without the first occurrence of `e`. */
  function Delete<T(==)>(s: seq<T>, e: T): (r: seq<T>) {
    if s == [] then []
    else if s[0] == e then s[1..]
    else [s[0]] + Delete(s[1..], e)
  }

  function DeleteAll<T(==)>(a: seq<T>, b: seq<T>): (r: seq<T>)
    decreases |b|
  {
    if b == [] then a else DeleteAll(Delete(a, b[0]), b[1..])
  }

  /** Appends the elements of `b` that are missing; push_back does nothing on a full vector. */
  function PushUnique<T(==)>(a: seq<T>, b: seq<T>, capacity: nat): (r: seq<T>)
    decreases |b|
  {
    if b == [] then a
    else PushUnique(if b[0] in a || |a| >= capacity then a else a + [b[0]], b[1..], capacity)
  }

  function Elements<T(==)>(s: seq<T>): set<T> {
    set e | e in s
  }

  predicate NoDuplicates<T(==)>(s: seq<T>) {
    forall i, j :: 0 <= i < j < |s| ==> s[i] != s[j]
  }

  lemma {:induction false} DeleteIsDifference<T>(s: seq<T>, e: T)
    ensures multiset(Delete(s, e)) == multiset(s) - multiset{e}
  {
    if s != [] {
      assert s == [s[0]] + s[1..];
      if s[0] != e {
        DeleteIsDifference(s[1..], e);
      }
    }
  }

  /** deleteElements is multiset difference. */
  lemma {:induction false} DeleteAllIsDifference<T>(a: seq<T>, b: seq<T>)
    ensures multiset(DeleteAll(a, b)) == multiset(a) - multiset(b)
    decreases |b|
  {
    if b != [] {
      DeleteIsDifference(a, b[0]);
      DeleteAllIsDifference(Delete(a, b[0]), b[1..]);
      assert b == [b[0]] + b[1..];
    }
  }

  /** Nothing is left of either list over the other exactly when they are permutations. */
  lemma BothEmptyIffPermutation<T>(a: seq<T>, b: seq<T>)
    ensures DeleteAll(a, b) == [] && DeleteAll(b, a) == [] <==> multiset(a) == multiset(b)
  {
    DeleteAllIsDifference(a, b);
    DeleteAllIsDifference(b, a);
    EmptyIff(DeleteAll(a, b));
    EmptyIff(DeleteAll(b, a));
    var m, n := multiset(a), multiset(b);
    if m - n == multiset{} && n - m == multiset{} {
      forall e ensures m[e] == n[e] {
        assert (m - n)[e] == 0 && (n - m)[e] == 0;
      }
    }
  }

  lemma EmptyIff<T>(s: seq<T>)
    ensures s == [] <==> multiset(s) == multiset{}
  {
    if s != [] {
      assert s[0] in multiset(s);
    }
  }

  lemma SameElements<T>(a: seq<T>, b: seq<T>)
    requires multiset(a) == multiset(b)
    ensures Elements(a) == Elements(b)
  {
    assert forall e :: e in a <==> e in multiset(a);
    assert forall e :: e in b <==> e in multiset(b);
  }

  lemma ElementsSnoc<T>(a: seq<T>, e: T)
    ensures Elements(a + [e]) == Elements(a) + {e}
    ensures NoDuplicates(a) && e !in a ==> NoDuplicates(a + [e])
  {}

  lemma ElementsCons<T>(b: seq<T>)
    requires b != []
    ensures Elements(b) == {b[0]} + Elements(b[1..])
  {}

  /** Without duplicates; a prefix of the result; nothing from elsewhere. */
  lemma {:induction false} PushUniqueShape<T>(a: seq<T>, b: seq<T>, capacity: nat)
    requires NoDuplicates(a) && |a| <= capacity
    ensures NoDuplicates(PushUnique(a, b, capacity))
    ensures |a| <= |PushUnique(a, b, capacity)| <= capacity
    ensures a == PushUnique(a, b, capacity)[..|a|]
    ensures Elements(PushUnique(a, b, capacity)) <= Elements(a) + Elements(b)
    decreases |b|
  {
    if b != [] {
      hide Elements, NoDuplicates;
      ElementsCons(b);
      var a' := if b[0] in a || |a| >= capacity then a else a + [b[0]];
      ElementsSnoc(a, b[0]);
      PushUniqueShape(a', b[1..], capacity);
      assert a == a'[..|a|];
    }
  }

  /** The union, as long as there is room for it. */
  lemma {:induction false} PushUniqueIsUnion<T>(a: seq<T>, b: seq<T>, capacity: nat)
    requires NoDuplicates(a) && |a| <= capacity
    requires |Elements(a) + Elements(b)| <= capacity
    ensures Elements(PushUnique(a, b, capacity)) == Elements(a) + Elements(b)
    decreases |b|
  {
    if b != [] {
      hide NoDuplicates;
      ElementsCons(b);
      ElementsSnoc(a, b[0]);
      if b[0] in a {
        assert Elements(a) + Elements(b[1..]) == Elements(a) + Elements(b);
        PushUniqueIsUnion(a, b[1..], capacity);
      } else if |a| == capacity {
        FullHasCapacity(a, capacity, b);
      } else {
        assert Elements(a + [b[0]]) + Elements(b[1..]) == Elements(a) + Elements(b);
        PushUniqueIsUnion(a + [b[0]], b[1..], capacity);
      }
    }
  }

  lemma FullHasCapacity<T>(a: seq<T>, capacity: nat, b: seq<T>)
    requires NoDuplicates(a) && |a| == capacity && b != [] && b[0] !in a
    ensures |Elements(a) + Elements(b)| > capacity
  {
    CountElements(a);
    var both := Elements(a) + {b[0]};
    assert |both| == capacity + 1;
    assert b[0] in Elements(b);
    assert both <= Elements(a) + Elements(b);
    SubsetSize(both, Elements(a) + Elements(b));
  }

  lemma {:induction false} CountElements<T>(s: seq<T>)
    requires NoDuplicates(s)
    ensures |Elements(s)| == |s|
  {
    if s != [] {
      CountElements(s[1..]);
      assert Elements(s) == {s[0]} + Elements(s[1..]);
    }
  }

  lemma SubsetSize<T>(a: set<T>, b: set<T>)
    requires a <= b
    ensures |a| <= |b|
  {
    assert b == a + (b - a);
  }

  /** A list holds at most as many different elements as it is long. */
  lemma {:induction false} ElementsFit<T>(s: seq<T>)
    ensures |Elements(s)| <= |s|
  {
    if s != [] {
      ElementsFit(s[1..]);
      assert Elements(s) == {s[0]} + Elements(s[1..]);
    }
  }

  // ---------- the loops ----------

  method DeleteElement<T(==)>(container: seq<T>, element: T) returns (r: seq<T>)
    ensures r == Delete(container, element)
  {
    var i := 0;
    while i < |container| && container[i] != element
      invariant i <= |container|
      invariant Delete(container, element) == container[..i] + Delete(container[i..], element)
    {
      assert container[i..][1..] == container[i + 1..];
      assert container[..i] + [container[i]] == container[..i + 1];
      i := i + 1;
    }
    r := if i < |container| then container[..i] + container[i + 1..] else container;
    assert i < |container| ==> container[i..][1..] == container[i + 1..];
  }

  method DeleteElements<T(==)>(a: seq<T>, b: seq<T>) returns (r: seq<T>)
    ensures r == DeleteAll(a, b)
  {
    r := a;
    for i := 0 to |b|
      invariant DeleteAll(r, b[i..]) == DeleteAll(a, b)
    {
      assert b[i..][1..] == b[i + 1..];
      r := DeleteElement(r, b[i]);
    }
  }

  method PushAllUnique<T(==)>(a: seq<T>, b: seq<T>, capacity: nat) returns (r: seq<T>)
    ensures r == PushUnique(a, b, capacity)
  {
    r := a;
    for i := 0 to |b|
      invariant PushUnique(r, b[i..], capacity) == PushUnique(a, b, capacity)
    {
      assert b[i..][1..] == b[i + 1..];
      if b[i] !in r && |r| < capacity {
        r := r + [b[i]];
      }
    }
  }
}
