/**
 * The array rewrites behind `push` and `pull`: appending an operand to a stored
 * array, and the store's `$pull` update, which removes every element equal to
 * the pulled item.
 */
module Arrays {
  import opened Values

  /**
   * What `push` makes of an existing array: an array operand is appended
   * element by element, any other operand as a single element.
   */
  function Appended(a: seq<Value>, v: Value): (r: seq<Value>)
    ensures a <= r
    ensures v.Arr? ==> r[|a|..] == v.elems
    ensures !v.Arr? ==> r[|a|..] == [v]
  {
    if v.Arr? then a + v.elems else a + [v]
  }

  /** One `$pull` of `x`: every element equal to `x` is removed, the others stay in order. */
  function Without(a: seq<Value>, x: Value): (r: seq<Value>)
    ensures |r| <= |a|
    ensures forall y :: y in r <==> y in a && y != x
    ensures forall y :: y != x ==> multiset(r)[y] == multiset(a)[y]
  {
    if a == [] then []
    else
      assert a == [a[0]] + a[1..];
      if a[0] == x then Without(a[1..], x) else [a[0]] + Without(a[1..], x)
  }

  /** The pulls of `items` applied one after another, first item first. */
  function PullAll(a: seq<Value>, items: seq<Value>): seq<Value>
  {
    if items == [] then a
    else Without(PullAll(a, items[..|items| - 1]), items[|items| - 1])
  }

  /** Reference definition: one pass that keeps the elements equal to no item. */
  function Keep(a: seq<Value>, items: seq<Value>): (r: seq<Value>)
    ensures |r| <= |a|
    ensures forall y :: y in r <==> y in a && y !in items
  {
    if a == [] then []
    else
      assert a == [a[0]] + a[1..];
      if a[0] in items then Keep(a[1..], items) else [a[0]] + Keep(a[1..], items)
  }

  /** Pulling is applied piecewise: the survivors of `a + b` are those of `a` followed by those of `b`. */
  lemma {:induction false} WithoutConcat(a: seq<Value>, b: seq<Value>, x: Value)
    ensures Without(a + b, x) == Without(a, x) + Without(b, x)
  {
    if a == [] {
      assert a + b == b;
    } else {
      assert (a + b)[0] == a[0] && (a + b)[1..] == a[1..] + b;
      WithoutConcat(a[1..], b, x);
    }
  }

  /** The reference filter is applied piecewise too, so it keeps the order of the survivors. */
  lemma {:induction false} KeepConcat(a: seq<Value>, b: seq<Value>, items: seq<Value>)
    ensures Keep(a + b, items) == Keep(a, items) + Keep(b, items)
  {
    if a == [] {
      assert a + b == b;
    } else {
      assert (a + b)[0] == a[0] && (a + b)[1..] == a[1..] + b;
      KeepConcat(a[1..], b, items);
    }
  }

  /** Filtering by no items keeps everything. */
  lemma {:induction false} KeepNothing(a: seq<Value>)
    ensures Keep(a, []) == a
  {
    if a != [] {
      KeepNothing(a[1..]);
    }
  }

  /** One more pull after a filter is the filter by one more item. */
  lemma {:induction false} KeepThenWithout(a: seq<Value>, items: seq<Value>, x: Value)
    ensures Without(Keep(a, items), x) == Keep(a, items + [x])
  {
    if a != [] {
      KeepThenWithout(a[1..], items, x);
      if a[0] !in items {
        assert Keep(a, items) == [a[0]] + Keep(a[1..], items);
        WithoutConcat([a[0]], Keep(a[1..], items), x);
      }
    }
  }

  /** The sequence of pulls equals the one-pass reference filter. */
  lemma {:induction false} PullAllIsKeep(a: seq<Value>, items: seq<Value>)
    ensures PullAll(a, items) == Keep(a, items)
  {
    if items == [] {
      KeepNothing(a);
    } else {
      var init, last := items[..|items| - 1], items[|items| - 1];
      PullAllIsKeep(a, init);
      KeepThenWithout(a, init, last);
      assert init + [last] == items;
    }
  }

  /** After the pulls no element equals a pulled item, and every other element survives. */
  lemma PullAllMembers(a: seq<Value>, items: seq<Value>)
    ensures forall y :: y in PullAll(a, items) <==> y in a && y !in items
  {
  }

  /** Pulling the same items a second time changes nothing. */
  lemma {:induction false} KeepIdempotent(a: seq<Value>, items: seq<Value>)
    ensures Keep(Keep(a, items), items) == Keep(a, items)
  {
    if a != [] {
      KeepIdempotent(a[1..], items);
    }
  }
}
