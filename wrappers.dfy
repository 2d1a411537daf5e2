/** Stock definitions shared by every module of the model. */
module Wrappers {
  datatype Option<+T> = None | Some(value: T)
  datatype Result<+R, +E> = Ok(value: R) | Err(error: E)

  /** A set without elements is the empty set (set extensionality, stated once). */
  lemma NoElementsEmpty<T>(s: set<T>)
    ensures (forall y :: y !in s) ==> s == {}
  {
    if forall y :: y !in s {
      assert forall y :: y in s <==> y in {};
    }
  }

  /** Some element of a non-empty set; which one is left open, as Python leaves a dictionary's order open. */
  method Pick<T>(s: set<T>) returns (x: T)
    requires s != {}
    ensures x in s
  {
    NoElementsEmpty(s);
    x :| x in s;
  }

  /** Concatenation is associative (stated once, for any element type). */
  lemma ConcatAssoc<T>(x: seq<T>, y: seq<T>, z: seq<T>)
    ensures x + (y + z) == (x + y) + z
  {
  }

  /** Cutting one element out of the tail of a list is cutting it out of the list one place further on. */
  lemma ConsCut<T>(xs: seq<T>, k: nat)
    requires k + 1 < |xs|
    ensures [xs[0]] + (xs[1..][..k] + xs[1..][k + 1..]) == xs[..k + 1] + xs[k + 2..]
  {
    assert [xs[0]] + xs[1..][..k] == xs[..k + 1];
    assert xs[1..][k + 1..] == xs[k + 2..];
  }

  /** The elements of a non-empty list are its head and the elements of its tail. */
  lemma MultisetCons<T>(xs: seq<T>)
    requires xs != []
    ensures multiset(xs) == multiset{xs[0]} + multiset(xs[1..])
  {
    assert xs == [xs[0]] + xs[1..];
  }
}
