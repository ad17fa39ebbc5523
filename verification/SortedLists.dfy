/** Lists in order and without repetition, as sorting and then deduplicating leaves them. */
module SortedLists {

  ghost predicate StrictOrder<T(!new)>(before: (T, T) -> bool) {
    && (forall a, b :: a == b || before(a, b) || before(b, a))
    && (forall a, b :: before(a, b) ==> a != b && !before(b, a))
    && (forall a, b, c :: before(a, b) && before(b, c) ==> before(a, c))
  }

  /** Inserts into an ordered list, unless it is there already. */
  function PlaceOnce<T(==, !new)>(x: T, list: seq<T>, before: (T, T) -> bool): (r: seq<T>)
    ensures forall y :: y in r <==> y == x || y in list
  {
    if list == [] then [x]
    else if x == list[0] then list
    else if before(x, list[0]) then [x] + list
    else [list[0]] + PlaceOnce(x, list[1..], before)
  }

  function SortDedup<T(==, !new)>(xs: seq<T>, before: (T, T) -> bool): (r: seq<T>)
    ensures forall y :: y in r <==> y in xs
  {
    if xs == [] then [] else PlaceOnce(xs[0], SortDedup(xs[1..], before), before)
  }

  predicate Ordered<T(==)>(list: seq<T>, before: (T, T) -> bool) {
    list != [] ==> (forall y | y in list[1..] :: before(list[0], y)) && Ordered(list[1..], before)
  }

  lemma {:induction false} PlaceOnceOrdered<T(!new)>(x: T, list: seq<T>, before: (T, T) -> bool)
    requires StrictOrder(before) && Ordered(list, before)
    ensures Ordered(PlaceOnce(x, list, before), before)
  {
    if list != [] && x != list[0] {
      if before(x, list[0]) {
        assert ([x] + list)[1..] == list;
        forall y | y in list ensures before(x, y) {
          assert y == list[0] || y in list[1..];
        }
      } else {
        PlaceOnceOrdered(x, list[1..], before);
        assert ([list[0]] + PlaceOnce(x, list[1..], before))[1..] == PlaceOnce(x, list[1..], before);
      }
    }
  }

  lemma {:induction false} SortDedupOrdered<T(!new)>(xs: seq<T>, before: (T, T) -> bool)
    requires StrictOrder(before)
    ensures Ordered(SortDedup(xs, before), before)
  {
    if xs != [] {
      SortDedupOrdered(xs[1..], before);
      PlaceOnceOrdered(xs[0], SortDedup(xs[1..], before), before);
    }
  }

  lemma OrderedHead<T(!new)>(a: seq<T>, b: seq<T>, before: (T, T) -> bool)
    requires StrictOrder(before) && Ordered(a, before) && Ordered(b, before)
    requires a != [] && b != [] && forall y :: y in a <==> y in b
    ensures a[0] == b[0] && forall y :: y in a[1..] <==> y in b[1..]
  {
    assert a[0] in b && b[0] in a;
    forall y ensures y in a[1..] <==> y in b[1..] {
      assert y in a <==> y == a[0] || y in a[1..];
      assert y in b <==> y == b[0] || y in b[1..];
    }
  }

  /** An ordered list is determined by its members. */
  lemma {:induction false} OrderedUnique<T(!new)>(a: seq<T>, b: seq<T>, before: (T, T) -> bool)
    requires StrictOrder(before) && Ordered(a, before) && Ordered(b, before) && forall y :: y in a <==> y in b
    ensures a == b
  {
    assert a != [] ==> a[0] in b;
    assert b != [] ==> b[0] in a;
    if a != [] && b != [] {
      OrderedHead(a, b, before);
      OrderedUnique(a[1..], b[1..], before);
      assert a == [a[0]] + a[1..] && b == [b[0]] + b[1..];
    }
  }

  /** An ordered list is as long as it has members. */
  lemma {:induction false} OrderedSize<T(!new)>(list: seq<T>, before: (T, T) -> bool)
    requires StrictOrder(before) && Ordered(list, before)
    ensures |list| == |set y | y in list|
  {
    if list != [] {
      OrderedSize(list[1..], before);
      var rest := set y | y in list[1..];
      assert list[0] !in rest;
      assert (set y | y in list) == rest + {list[0]};
    }
  }

  /** Sorting an ordered list again changes nothing. */
  lemma SortDedupTwice<T(!new)>(xs: seq<T>, before: (T, T) -> bool)
    requires StrictOrder(before)
    ensures SortDedup(SortDedup(xs, before), before) == SortDedup(xs, before)
  {
    var once := SortDedup(xs, before);
    SortDedupOrdered(xs, before);
    SortDedupOrdered(once, before);
    OrderedUnique(SortDedup(once, before), once, before);
  }
}
