/** Sorting under a strict total order. Library sorts are represented by insertion sort;
    OrderedIsUnique shows that every correct sort gives the same list. */
module Ordering {
  ghost predicate StrictTotal<T(!new)>(less: (T, T) -> bool) {
    && (forall x :: !less(x, x))
    && (forall x, y, z :: less(x, y) && less(y, z) ==> less(x, z))
    && (forall x, y :: less(x, y) || x == y || less(y, x))
  }

  predicate Ordered<T>(xs: seq<T>, less: (T, T) -> bool) {
    forall i, j | 0 <= i < j < |xs| :: less(xs[i], xs[j])
  }

  /** Insert into an ordered list; an element already present is not repeated. */
  function Insert<T(==)>(x: T, xs: seq<T>, less: (T, T) -> bool): seq<T> {
    if xs == [] then [x]
    else if xs[0] == x then xs
    else if less(x, xs[0]) then [x] + xs
    else [xs[0]] + Insert(x, xs[1..], less)
  }

  function Sort<T(==)>(xs: seq<T>, less: (T, T) -> bool): seq<T> {
    if xs == [] then [] else Insert(xs[0], Sort(xs[1..], less), less)
  }

  lemma {:induction false} InsertElements<T(!new)>(x: T, xs: seq<T>, less: (T, T) -> bool)
    ensures forall y :: y in Insert(x, xs, less) <==> y == x || y in xs
  {
    if xs != [] && xs[0] != x && !less(x, xs[0]) {
      InsertElements(x, xs[1..], less);
    }
  }

  lemma {:induction false} InsertOrdered<T(!new)>(x: T, xs: seq<T>, less: (T, T) -> bool)
    requires StrictTotal(less) && Ordered(xs, less)
    ensures Ordered(Insert(x, xs, less), less)
  {
    if xs != [] && xs[0] != x && !less(x, xs[0]) {
      InsertOrdered(x, xs[1..], less);
      InsertElements(x, xs[1..], less);
      var rest := Insert(x, xs[1..], less);
      forall j | 0 <= j < |rest| ensures less(xs[0], rest[j]) {
        assert rest[j] in rest;
        if rest[j] != x {
          var k :| 0 <= k < |xs[1..]| && xs[1..][k] == rest[j];
          assert xs[k + 1] == rest[j];
        }
      }
    }
  }

  /** The sorted list holds the same elements, each once, in order. */
  lemma {:induction false} SortSorts<T(!new)>(xs: seq<T>, less: (T, T) -> bool)
    requires StrictTotal(less)
    ensures Ordered(Sort(xs, less), less)
    ensures forall y :: y in Sort(xs, less) <==> y in xs
  {
    if xs != [] {
      SortSorts(xs[1..], less);
      InsertOrdered(xs[0], Sort(xs[1..], less), less);
      InsertElements(xs[0], Sort(xs[1..], less), less);
    }
  }

  lemma OrderedHead<T(!new)>(a: seq<T>, b: seq<T>, less: (T, T) -> bool)
    requires StrictTotal(less) && Ordered(a, less) && Ordered(b, less) && a != [] && b != []
    requires a[0] in b && b[0] in a
    ensures a[0] == b[0]
  {
    var i :| 0 <= i < |b| && b[i] == a[0];
    var j :| 0 <= j < |a| && a[j] == b[0];
  }

  lemma OrderedTail<T(!new)>(a: seq<T>, less: (T, T) -> bool, y: T)
    requires StrictTotal(less) && Ordered(a, less) && a != []
    ensures y in a[1..] <==> y in a && y != a[0]
  {
    if y in a[1..] {
      var i :| 0 <= i < |a[1..]| && a[1..][i] == y;
      assert less(a[0], a[i + 1]);
    }
  }

  lemma NoElements<T>(xs: seq<T>)
    ensures xs == [] <==> forall y :: y !in xs
  {
    if xs != [] {
      assert xs[0] in xs;
    }
  }

  /** Two ordered lists of the same elements are equal: the outcome of a sort does not
      depend on the algorithm or on the order of its input. */
  lemma {:induction false} OrderedIsUnique<T(!new)>(a: seq<T>, b: seq<T>, less: (T, T) -> bool)
    requires StrictTotal(less) && Ordered(a, less) && Ordered(b, less)
    requires forall y :: y in a <==> y in b
    ensures a == b
  {
    assert forall i | 0 <= i < |b| :: b[i] in a;
    if a == [] {
      NoElements(b);
    } else {
      assert a[0] in b;
      assert b != [] && b[0] in a;
      OrderedHead(a, b, less);
      forall y ensures y in a[1..] <==> y in b[1..] {
        OrderedTail(a, less, y);
        OrderedTail(b, less, y);
      }
      OrderedIsUnique(a[1..], b[1..], less);
      assert a == [a[0]] + a[1..] && b == [b[0]] + b[1..];
    }
  }

  /** order visits every key once, as a range statement over a map does. */
  ghost predicate Visits<K(!new)>(order: seq<K>, keys: set<K>) {
    && (forall k :: k in order <==> k in keys)
    && (forall i, j | 0 <= i < j < |order| :: order[i] != order[j])
  }

  /** Some order in which a range statement may visit the keys of a map. */
  lemma {:induction false} SomeOrder<K(!new)>(keys: set<K>) returns (order: seq<K>)
    ensures Visits(order, keys)
  {
    order := [];
    if keys != {} {
      var k :| k in keys;
      order := SomeOrder(keys - {k});
      order := order + [k];
    }
  }
}
