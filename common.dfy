/** Result shapes shared by the whole model. */
module Wrappers {

  /** Rust's `Option`. */
  datatype Option<+T> = None | Some(value: T)

  /** Rust's `Result`. */
  datatype Result<+T, +E> = Ok(value: T) | Err(error: E)

  /** What a call of a Rust function does: it returns a value, or it panics
      (an out-of-range index, an `unwrap` on a failure, an explicit `panic!`).
      A panic ends the process, so nothing is said about the state it leaves. */
  datatype Run<+T> = Returns(value: T) | Panics(reason: string)
}

/** Sequence operations that the Rust iterator chains of the model use. */
module Sequences {

  function Min(a: int, b: int): int
  {
    if a < b then a else b
  }

  /** `iter().flatten().collect()` */
  function Flatten<T>(ss: seq<seq<T>>): seq<T>
  {
    if ss == [] then [] else ss[0] + Flatten(ss[1..])
  }

  /** Rust's `slice::chunks(n)`: consecutive pieces of length `n`, the last one
      possibly shorter, none empty. */
  function Chunks<T>(s: seq<T>, n: nat): (r: seq<seq<T>>)
    requires n > 0
    ensures Flatten(r) == s
    ensures forall i :: 0 <= i < |r| ==> 0 < |r[i]| <= n
    ensures forall i :: 0 <= i < |r| - 1 ==> |r[i]| == n
    decreases |s|
  {
    if |s| <= n then
      (if s == [] then [] else [s])
    else
      [s[..n]] + Chunks(s[n..], n)
  }

  /** `a.iter().zip(b.iter()).map(|(x, y)| x + y).collect()`: the zip stops
      at the shorter operand. */
  function ZipSum(a: seq<real>, b: seq<real>): (r: seq<real>)
    ensures |r| == Min(|a|, |b|)
    ensures forall k :: 0 <= k < |r| ==> r[k] == a[k] + b[k]
  {
    if a == [] || b == [] then [] else [a[0] + b[0]] + ZipSum(a[1..], b[1..])
  }
}

/** Facts of the telescope and of the simulations shared by several parts of
    the model. */
module Telescope {

  /** The numbers 1 to 7 of the mirror segments. */
  type SegmentId = i: int | 1 <= i <= 7 witness 1

  /** The sampling rate of the simulations, in Hz. */
  const SimSamplingFrequency: nat := 8000
}
