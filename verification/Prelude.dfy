/** Small datatypes and sequence facts shared by the other modules. */
module Prelude {

  datatype Option<+T> = None | Some(value: T)

  datatype Result<+T, +E> = Ok(value: T) | Err(error: E)

  /** A byte string. Each character stands for one byte; no definition below looks at a
      character other than through equality with a named one, so the alphabet being larger
      than 256 letters only makes the statements more general. */
  type Bytes = seq<char>

  function Min(a: int, b: int): int {
    if a <= b then a else b
  }

  function Max(a: int, b: int): int {
    if a >= b then a else b
  }

  /** The last n elements. */
  function Last<T>(s: seq<T>, n: nat): seq<T> {
    if |s| <= n then s else s[|s| - n..]
  }

  /** Appending to a bounded buffer and trimming it keeps the end of the unbounded sequence. */
  lemma LastGrows<T>(s: seq<T>, x: T, n: nat)
    ensures var buf := Last(s, n) + [x]; (if |buf| > n then buf[|buf| - n..] else buf) == Last(s + [x], n)
  {
  }

  function Front<T>(s: seq<T>): (f: seq<T>)
    requires s != []
    ensures |f| == |s| - 1
  {
    s[..|s| - 1]
  }

  /** The concatenation of a sequence of sequences. */
  function Flatten<T>(parts: seq<seq<T>>): seq<T> {
    if parts == [] then [] else parts[0] + Flatten(parts[1..])
  }

  lemma {:induction false} FlattenAppend<T>(xs: seq<seq<T>>, ys: seq<seq<T>>)
    ensures Flatten(xs + ys) == Flatten(xs) + Flatten(ys)
  {
    if xs == [] {
      assert xs + ys == ys;
    } else {
      assert (xs + ys)[1..] == xs[1..] + ys;
      FlattenAppend(xs[1..], ys);
    }
  }

  lemma FlattenSnoc<T>(xs: seq<seq<T>>, y: seq<T>)
    ensures Flatten(xs + [y]) == Flatten(xs) + y
  {
    FlattenAppend(xs, [y]);
    assert Flatten([y]) == y + Flatten<T>([]);
  }
}
