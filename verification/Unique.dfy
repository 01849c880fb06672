/** `list(dict.fromkeys(xs))`: first occurrences, in order. */
module Unique {
  function Dedupe<T(==)>(xs: seq<T>): seq<T> {
    if xs == [] then []
    else
      var front, last := Dedupe(xs[..|xs| - 1]), xs[|xs| - 1];
      if last in front then front else front + [last]
  }

  predicate NoRepeats<T(==)>(xs: seq<T>) { forall i, j | 0 <= i < j < |xs| :: xs[i] != xs[j] }

  /** Nothing is lost, nothing is left twice. */
  lemma {:induction false} DedupeFacts<T>(xs: seq<T>)
    ensures NoRepeats(Dedupe(xs)) && forall x :: x in Dedupe(xs) <==> x in xs
  {
    if xs != [] {
      DedupeFacts(xs[..|xs| - 1]);
      assert xs == xs[..|xs| - 1] + [xs[|xs| - 1]];
    }
  }

  /** Leave out the empty strings. */
  function NonEmpty(xs: seq<string>): seq<string> {
    if xs == [] then []
    else NonEmpty(xs[..|xs| - 1]) + if xs[|xs| - 1] == "" then [] else [xs[|xs| - 1]]
  }

  lemma {:induction false} NonEmptyFacts(xs: seq<string>)
    ensures forall x :: x in NonEmpty(xs) <==> x in xs && x != ""
  {
    if xs != [] {
      NonEmptyFacts(xs[..|xs| - 1]);
      assert xs == xs[..|xs| - 1] + [xs[|xs| - 1]];
    }
  }

  lemma {:induction false} NonEmptyConcat(a: seq<string>, b: seq<string>)
    ensures NonEmpty(a + b) == NonEmpty(a) + NonEmpty(b)
  {
    if b == [] {
      assert a + b == a;
    } else {
      NonEmptyConcat(a, b[..|b| - 1]);
      assert (a + b)[..|a + b| - 1] == a + b[..|b| - 1];
    }
  }
}
