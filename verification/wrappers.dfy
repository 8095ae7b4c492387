/** Rust's `Option` and `Result`, and mapping over a sequence. */
module Wrappers {

  /** A value that may be absent; a failed `TryFrom` conversion is `None`. */
  datatype Option<+T> = None | Some(value: T)

  /** A success value or an error, as Rust's `Result`. */
  datatype Result<+T, +E> = Ok(value: T) | Err(error: E)

  /** Applies `f` to every element, keeping length and order. */
  function Map<A, B>(f: A -> B, xs: seq<A>): (ys: seq<B>)
    ensures |ys| == |xs|
    ensures forall i :: 0 <= i < |xs| ==> ys[i] == f(xs[i])
  {
    seq(|xs|, i requires 0 <= i < |xs| => f(xs[i]))
  }
}
