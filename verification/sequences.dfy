/** Flattening a sequence through a function that yields a sequence for each element. */
module Sequences {

  /** `f(xs[0]) + f(xs[1]) + ...`, built from the left as an accumulating loop would. */
  function Flatten<T, U>(xs: seq<T>, f: T -> seq<U>): seq<U>
  {
    if |xs| == 0 then []
    else Flatten(xs[..|xs| - 1], f) + f(xs[|xs| - 1])
  }

  /** Flattening distributes over concatenation, keeping order. */
  lemma {:induction false} FlattenAppend<T, U>(a: seq<T>, b: seq<T>, f: T -> seq<U>)
    ensures Flatten(a + b, f) == Flatten(a, f) + Flatten(b, f)
    decreases |b|
  {
    if |b| == 0 {
      assert a + b == a;
    } else {
      var n := |b| - 1;
      assert (a + b)[..|a + b| - 1] == a + b[..n];
      assert (a + b)[|a + b| - 1] == b[n];
      FlattenAppend(a, b[..n], f);
    }
  }

  /** A single element flattens to its own image. */
  lemma FlattenSingle<T, U>(x: T, f: T -> seq<U>)
    ensures Flatten([x], f) == f(x)
  {
    assert [x][..0] == [];
  }
}
