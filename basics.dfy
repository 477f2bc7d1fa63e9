/** Identifiers, failure-carrying wrappers and the small sequence queries
    (LINQ Distinct, Except and First) that the store's handlers rely on. */
module Basics {

  /** A Guid; the value 0 plays the part of Guid.Empty. */
  type Guid = nat

  const EmptyGuid: Guid := 0

  datatype Option<+T> = None | Some(value: T)

  datatype Result<+T, +E> = Success(value: T) | Failure(error: E)

  /** The outcome of an operation that returns nothing but may throw. */
  datatype Outcome<+E> = Pass | Fail(error: E)

  /** Position of the first occurrence of x in xs (the index LINQ's First finds). */
  function IndexOf<T(==)>(xs: seq<T>, x: T): (k: nat)
    requires x in xs
    ensures k < |xs| && xs[k] == x
    ensures forall j :: 0 <= j < k ==> xs[j] != x
  {
    if xs[0] == x then 0 else 1 + IndexOf(xs[1..], x)
  }

  /** Enumerable.Distinct: every element of xs, each once. */
  function Distinct(xs: seq<Guid>): (r: seq<Guid>)
    ensures forall x :: x in r <==> x in xs
    ensures forall i, j :: 0 <= i < j < |r| ==> r[i] != r[j]
    decreases |xs|
  {
    if xs == [] then []
    else
      var d := Distinct(xs[..|xs| - 1]);
      var last := xs[|xs| - 1];
      assert xs == xs[..|xs| - 1] + [last];
      if last in d then d else d + [last]
  }

  /** Enumerable.Except: the distinct elements of xs that do not occur in ys. */
  function Except(xs: seq<Guid>, ys: seq<Guid>): (r: seq<Guid>)
    ensures forall x :: x in r <==> x in xs && x !in ys
    ensures forall i, j :: 0 <= i < j < |r| ==> r[i] != r[j]
    ensures r == [] <==> forall x <- xs :: x in ys
    decreases |xs|
  {
    if xs == [] then []
    else
      var e := Except(xs[..|xs| - 1], ys);
      var last := xs[|xs| - 1];
      assert xs == xs[..|xs| - 1] + [last];
      if last in ys || last in e then e else e + [last]
  }
}
