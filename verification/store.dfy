/** The two array primitives of the document store, by their documented
    semantics: `arrayUnion(e1, ...)` appends to the end each element that is
    not already present (elements compare by deep equality), and
    `arrayRemove(e1, ...)` removes every element equal to one of the given
    ones. A missing array field behaves as the empty array. */
module Store {

  /** No element occurs twice. */
  predicate NoDuplicates<T(==,!new)>(xs: seq<T>) {
    forall i, j :: 0 <= i < j < |xs| ==> xs[i] != xs[j]
  }

  /** `xs` with every element equal to `x` dropped, the rest in order
      (`xs.filter(item => item !== x)`). */
  function Without<T(==,!new)>(xs: seq<T>, x: T): (r: seq<T>)
    ensures forall y :: y in r <==> y in xs && y != x
    ensures multiset(r) == multiset(xs)[x := 0]
    ensures x !in xs ==> r == xs
  {
    if |xs| == 0 then []
    else
      var rest := Without(xs[1..], x);
      assert xs == [xs[0]] + xs[1..];
      if xs[0] == x then rest
      else
        [xs[0]] + rest
  }

  /** Dropping an element keeps a duplicate-free array duplicate-free. */
  lemma {:induction false} WithoutKeepsNoDuplicates<T(!new)>(xs: seq<T>, x: T)
    requires NoDuplicates(xs)
    ensures NoDuplicates(Without(xs, x))
    decreases |xs|
  {
    if |xs| > 0 {
      WithoutKeepsNoDuplicates(xs[1..], x);
      assert xs == [xs[0]] + xs[1..];
      assert xs[0] !in xs[1..];
    }
  }

  /** The filter works element by element and keeps the order: filtering a
      concatenation concatenates the filtered parts. */
  lemma {:induction false} WithoutDistributes<T(!new)>(a: seq<T>, b: seq<T>, x: T)
    ensures Without(a + b, x) == Without(a, x) + Without(b, x)
    decreases |a|
  {
    if |a| == 0 {
      assert a + b == b;
    } else {
      assert (a + b)[0] == a[0] && (a + b)[1..] == a[1..] + b;
      WithoutDistributes(a[1..], b, x);
    }
  }

  /** One step of `arrayUnion`: append `e` unless it is already there. */
  function AddIfAbsent<T(==,!new)>(xs: seq<T>, e: T): (r: seq<T>)
    ensures e in r
    ensures forall y :: y in r <==> y in xs || y == e
    ensures e in xs ==> r == xs
    ensures e !in xs ==> r == xs + [e]
    ensures NoDuplicates(xs) ==> NoDuplicates(r)
  {
    if e in xs then xs else xs + [e]
  }

  /** The array field after `arrayUnion(elems...)` has been applied to `xs`. */
  function ArrayUnion<T(==,!new)>(xs: seq<T>, elems: seq<T>): (r: seq<T>)
    ensures |xs| <= |r| <= |xs| + |elems|
    ensures r[..|xs|] == xs
    ensures forall y :: y in r <==> y in xs || y in elems
    ensures NoDuplicates(xs) ==> NoDuplicates(r)
    decreases |elems|
  {
    if |elems| == 0 then xs
    else
      var r := ArrayUnion(AddIfAbsent(xs, elems[0]), elems[1..]);
      assert elems == [elems[0]] + elems[1..];
      assert r[..|xs|] == AddIfAbsent(xs, elems[0])[..|xs|];
      r
  }

  /** The array field after `arrayRemove(elems...)` has been applied to `xs`. */
  function ArrayRemove<T(==,!new)>(xs: seq<T>, elems: seq<T>): (r: seq<T>)
    ensures |r| <= |xs|
    ensures forall y :: y in r <==> y in xs && y !in elems
    ensures (forall i :: 0 <= i < |xs| ==> xs[i] !in elems) ==> r == xs
    ensures NoDuplicates(xs) ==> NoDuplicates(r)
  {
    if |xs| == 0 then []
    else
      var rest := ArrayRemove(xs[1..], elems);
      assert xs == [xs[0]] + xs[1..];
      if xs[0] in elems then rest
      else
        [xs[0]] + rest
  }

  /** A single-element `arrayUnion` appends exactly when the element is new. */
  lemma UnionOne<T(!new)>(xs: seq<T>, e: T)
    ensures ArrayUnion(xs, [e]) == if e in xs then xs else xs + [e]
  {
    assert [e][1..] == [];
  }

  /** A single-element `arrayRemove` is the filter that drops that element. */
  lemma {:induction false} RemoveOne<T(!new)>(xs: seq<T>, e: T)
    ensures ArrayRemove(xs, [e]) == Without(xs, e)
    decreases |xs|
  {
    if |xs| > 0 {
      RemoveOne(xs[1..], e);
    }
  }

  /** Appending an element and then filtering it out gives back a list that
      did not hold it. */
  lemma {:induction false} WithoutAppended<T(!new)>(xs: seq<T>, e: T)
    requires e !in xs
    ensures Without(xs + [e], e) == xs
    decreases |xs|
  {
    if |xs| == 0 {
      assert xs + [e] == [e];
    } else {
      assert (xs + [e])[1..] == xs[1..] + [e];
      WithoutAppended(xs[1..], e);
    }
  }

  /** A write to one array field of a document, as the hooks issue it. */
  datatype FieldUpdate<T> =
    | UnionOf(elements: seq<T>)     // `arrayUnion(...elements)`
    | RemoveOf(elements: seq<T>)    // `arrayRemove(...elements)`
    | Overwrite(value: seq<T>)      // the whole array written back

  /** The field's value once the store has applied `u` to `xs`. */
  function Apply<T(==,!new)>(xs: seq<T>, u: FieldUpdate<T>): (r: seq<T>)
    ensures u.UnionOf? ==> forall y :: y in r <==> y in xs || y in u.elements
    ensures u.RemoveOf? ==> forall y :: y in r <==> y in xs && y !in u.elements
    ensures u.Overwrite? ==> r == u.value
  {
    match u
    case UnionOf(es) => ArrayUnion(xs, es)
    case RemoveOf(es) => ArrayRemove(xs, es)
    case Overwrite(v) => v
  }
}
