/** Shared vocabulary of the document store: document ids, optional values
    and the semantics of the two array field transforms the client uses,
    `arrayUnion` (add if absent) and `arrayRemove` (remove every occurrence). */
module Firestore {

  /** A document id or a user id. */
  type Id = string

  datatype Option<+T> = None | Some(value: T) {
    /** The value, or `default` when absent (the source's `x || ''` on a possibly missing field). */
    function GetOr(default: T): T {
      match this
      case Some(v) => v
      case None => default
    }
  }

  /** No value occurs twice: the invariant of every "set of acting users" array field. */
  ghost predicate Distinct(xs: seq<Id>) {
    forall y :: multiset(xs)[y] <= 1
  }

  /** The `arrayUnion(x)` transform: appends `x` unless it is already an element. */
  function ArrayUnion(xs: seq<Id>, x: Id): (r: seq<Id>)
    ensures x in r
    ensures forall y :: y in r <==> y in xs || y == x
    ensures multiset(r)[x] == if x in xs then multiset(xs)[x] else 1
    ensures forall y :: y != x ==> multiset(r)[y] == multiset(xs)[y]
    ensures |xs| <= |r| && r[..|xs|] == xs
  {
    if x in xs then xs else xs + [x]
  }

  /** The `arrayRemove(x)` transform: drops every occurrence of `x`. The order
      of what remains is pinned down by `RemoveAbsent` and `RemoveAppend`. */
  function ArrayRemove(xs: seq<Id>, x: Id): (r: seq<Id>)
    ensures x !in r
    ensures forall y :: y != x ==> multiset(r)[y] == multiset(xs)[y]
    ensures |r| == |xs| - multiset(xs)[x]
    decreases |xs|
  {
    if xs == [] then []
    else
      assert xs == [xs[0]] + xs[1..];
      (if xs[0] == x then [] else [xs[0]]) + ArrayRemove(xs[1..], x)
  }

  /** Both transforms keep an array free of duplicates. */
  lemma TransformsKeepDistinct(xs: seq<Id>, x: Id)
    requires Distinct(xs)
    ensures Distinct(ArrayUnion(xs, x))
    ensures Distinct(ArrayRemove(xs, x))
  {
    var u, r := ArrayUnion(xs, x), ArrayRemove(xs, x);
    forall y ensures multiset(u)[y] <= 1 && multiset(r)[y] <= 1 {
      if y == x {
        assert y !in r;
      }
    }
  }

  /** Removing a value that is absent changes nothing. */
  lemma {:induction false} RemoveAbsent(xs: seq<Id>, x: Id)
    requires x !in xs
    ensures ArrayRemove(xs, x) == xs
    decreases |xs|
  {
    if xs != [] {
      assert x !in xs[1..];
      RemoveAbsent(xs[1..], x);
    }
  }

  /** `arrayRemove` distributes over concatenation. */
  lemma {:induction false} RemoveAppend(xs: seq<Id>, ys: seq<Id>, x: Id)
    ensures ArrayRemove(xs + ys, x) == ArrayRemove(xs, x) + ArrayRemove(ys, x)
    decreases |xs|
  {
    if xs == [] {
      assert xs + ys == ys;
    } else {
      assert (xs + ys)[0] == xs[0];
      assert (xs + ys)[1..] == xs[1..] + ys;
      RemoveAppend(xs[1..], ys, x);
      var a, b := ArrayRemove(xs[1..], x), ArrayRemove(ys, x);
      if xs[0] != x {
        assert [xs[0]] + (a + b) == ([xs[0]] + a) + b;
      }
    }
  }

  /** Adding an absent value and then removing it gives back the very same array. */
  lemma UnionThenRemove(xs: seq<Id>, x: Id)
    requires x !in xs
    ensures ArrayRemove(ArrayUnion(xs, x), x) == xs
  {
    RemoveAppend(xs, [x], x);
    RemoveAbsent(xs, x);
  }

  /** Removing a present value and then adding it back restores the array's membership. */
  lemma RemoveThenUnion(xs: seq<Id>, x: Id)
    requires x in xs
    ensures forall y :: y in ArrayUnion(ArrayRemove(xs, x), x) <==> y in xs
  {
    var r := ArrayRemove(xs, x);
    forall y ensures y in ArrayUnion(r, x) <==> y in xs {
      if y != x {
        assert multiset(r)[y] == multiset(xs)[y];
      }
    }
  }
}
