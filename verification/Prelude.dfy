/** The two result shapes of the Rust sources, and facts about sequences. */
module Prelude {
  datatype Option<+T> = None | Some(value: T)

  datatype Result<+T, +E> = Ok(value: T) | Err(error: E)

  lemma {:induction false} CountOf<X>(xs: seq<X>, x: X)
    requires forall i, j :: 0 <= i < j < |xs| ==> xs[i] != xs[j]
    ensures multiset(xs)[x] == if x in xs then 1 else 0
  {
    if xs != [] {
      assert xs == [xs[0]] + xs[1..];
      CountOf(xs[1..], x);
    }
  }

  function Reverse<X>(xs: seq<X>): seq<X> {
    if xs == [] then [] else Reverse(xs[1..]) + [xs[0]]
  }

  lemma {:induction false} ReverseSnoc<X>(xs: seq<X>, x: X)
    ensures Reverse(xs + [x]) == [x] + Reverse(xs)
  {
    if xs != [] {
      assert (xs + [x])[1..] == xs[1..] + [x];
      ReverseSnoc(xs[1..], x);
    }
  }

  lemma Associate<X>(a: seq<X>, b: seq<X>, c: seq<X>)
    ensures (a + b) + c == a + (b + c)
  {}
}
