/** The wind-loading response binary (src/main.rs): its smooth-start
    `Sigmoid` source and its `Adder`, which adds the ASM face-sheet forces to
    the M2 wind loads. */
module Response {
  import opened Wrappers
  import opened Sequences
  import WindLoading

  /** The time argument of write number `i` (counted from 0): seconds from the
      0.75 s mark, at 8 kHz. */
  function Argument(i: nat): real
  {
    (i as real - 6000.0) / 8000.0
  }

  /** `(1 + exp(-5 u)).recip()`, where `exp` is any positive function
      standing for `f64::exp`: strictly between 0 and 1. */
  function Logistic(exp: real -> real, u: real): (r: real)
    requires forall x :: exp(x) > 0.0
    ensures 0.0 < r < 1.0
  {
    var e := exp(-5.0 * u);
    assert 1.0 < 1.0 + e;
    1.0 / (1.0 + e)
  }

  /** The weight of write number `i`: the square of the logistic at
      `Argument(i)`, also strictly between 0 and 1. */
  function Weight(exp: real -> real, i: nat): (w: real)
    requires forall x :: exp(x) > 0.0
    ensures 0.0 < w < 1.0
  {
    var r := Logistic(exp, Argument(i));
    assert r * r < r by {
      assert r * r < r * 1.0;
    }
    r * r
  }

  /** The `Sigmoid` smooth-start source: a counter of the writes served. */
  class Sigmoid {
    var i: nat

    /** `Sigmoid::new()` */
    constructor ()
      ensures i == 0
    {
      i := 0;
    }

    /** `Write<U>`: always some value, the weight of the current count,
        which advances by exactly one. */
    method Write(exp: real -> real) returns (r: Option<real>)
      requires forall x :: exp(x) > 0.0
      modifies this
      ensures i == old(i) + 1
      ensures r == Some(Weight(exp, old(i)))
    {
      var u := Argument(i);
      ghost var w := Weight(exp, i);
      i := i + 1;
      var l := Logistic(exp, u);
      r := Some(l * l);
      assert l * l == w;
    }
  }

  /** The `n`-th write from a fresh source uses count `n - 1`. */
  method SigmoidUse(exp: real -> real)
    requires forall x :: exp(x) > 0.0
  {
    var s := new Sigmoid();
    var first := s.Write(exp);
    var second := s.Write(exp);
    var third := s.Write(exp);
    assert first == Some(Weight(exp, 0)) && second == Some(Weight(exp, 1)) && third == Some(Weight(exp, 2));
    assert s.i == 3;
  }

  /** The merge node that adds the ASM face-sheet forces (`Ufs`) to the M2
      wind loads (`M2Loads`), writing `MCM2Lcl6F`. */
  class Adder {
    var m2Loads: Option<seq<real>>
    var uFs: Option<seq<real>>

    /** `Adder::default()`: nothing received yet. */
    constructor ()
      ensures m2Loads == None && uFs == None
    {
      m2Loads := None;
      uFs := None;
    }

    /** `Read<M2Loads>`: the newest wind loads replace the previous ones; the
        face-sheet forces are untouched. */
    method ReadM2Loads(data: seq<real>)
      modifies this
      ensures m2Loads == Some(data) && uFs == old(uFs)
    {
      m2Loads := Some(data);
    }

    /** `Read<Ufs>`: the newest face-sheet forces replace the previous ones;
        the wind loads are untouched. */
    method ReadUfs(data: seq<real>)
      modifies this
      ensures uFs == Some(data) && m2Loads == old(m2Loads)
    {
      uFs := Some(data);
    }

    /** `Write<MCM2Lcl6F>`: a function of the stored inputs, which it leaves
        in place, so writes without reads in between agree. */
    function Write(): (r: Option<seq<real>>)
      reads this
      ensures r.Some? <==> m2Loads.Some? && uFs.Some?
      ensures r.Some? ==> |r.value| == Min(|m2Loads.value|, |uFs.value|)
      ensures r.Some? ==> forall k :: 0 <= k < |r.value| ==> r.value[k] == m2Loads.value[k] + uFs.value[k]
    {
      WindLoading.Merge(m2Loads, uFs)
    }
  }
}
