/** The wind-loading scenario library (src/lib.rs): the `Adder` merge node,
    the partition of the run into parts, and the `fig_2_mode` reshape of the
    M1 figure-to-mode matrices. */
module WindLoading {
  import opened Wrappers
  import opened Sequences
  import opened Telescope

  // ---------------------------------------------------------------------
  // Adder

  /** What an adder emits from its two last-received inputs: nothing until
      both are there, then their zip-truncated elementwise sum. */
  function Merge(a: Option<seq<real>>, b: Option<seq<real>>): (r: Option<seq<real>>)
    ensures r.Some? <==> a.Some? && b.Some?
    ensures r.Some? ==> |r.value| == Min(|a.value|, |b.value|)
    ensures r.Some? ==> forall k :: 0 <= k < |r.value| ==> r.value[k] == a.value[k] + b.value[k]
  {
    if a.Some? && b.Some? then Some(ZipSum(a.value, b.value)) else None
  }

  /** The merge node that adds the ASM control forces to the CFD wind loads on
      M2 (input tags `CFDM2WindLoads` and `Ucp`, output `CFDM2WindLoads`). */
  class Adder {
    var m2Loads: Option<seq<real>>
    var uCp: Option<seq<real>>

    /** `Adder::default()`: nothing received yet. */
    constructor ()
      ensures m2Loads == None && uCp == None
    {
      m2Loads := None;
      uCp := None;
    }

    /** `Read<CFDM2WindLoads>`: the newest wind loads replace the previous
        ones; the control forces are untouched. */
    method ReadM2Loads(data: seq<real>)
      modifies this
      ensures m2Loads == Some(data) && uCp == old(uCp)
    {
      m2Loads := Some(data);
    }

    /** `Read<Ucp>`: the newest control forces replace the previous ones; the
        wind loads are untouched. */
    method ReadUcp(data: seq<real>)
      modifies this
      ensures uCp == Some(data) && m2Loads == old(m2Loads)
    {
      uCp := Some(data);
    }

    /** `Write<CFDM2WindLoads>`: a function of the stored inputs, which it
        leaves in place, so writes without reads in between agree. */
    function Write(): (r: Option<seq<real>>)
      reads this
      ensures r.Some? <==> m2Loads.Some? && uCp.Some?
      ensures r.Some? ==> |r.value| == Min(|m2Loads.value|, |uCp.value|)
      ensures r.Some? ==> forall k :: 0 <= k < |r.value| ==> r.value[k] == m2Loads.value[k] + uCp.value[k]
    {
      Merge(m2Loads, uCp)
    }
  }

  /** A few reads and writes in the order the actor model issues them. */
  method AdderUse(loads: seq<real>, forces: seq<real>, newer: seq<real>)
  {
    var adder := new Adder();
    assert adder.Write() == None;
    adder.ReadM2Loads(loads);
    assert adder.Write() == None;
    adder.ReadUcp(forces);
    var first := adder.Write();
    var second := adder.Write();
    assert first == second && first.Some?;
    adder.ReadM2Loads(newer);
    assert adder.uCp == Some(forces);
    assert |adder.Write().value| == Min(|newer|, |forces|);
  }

  // ---------------------------------------------------------------------
  // Partition of the run

  const SimDuration: nat := 400
  const NStep: nat := SimSamplingFrequency * SimDuration
  const NPart: nat := 10

  /** Part `p` of a run of `nStep` steps cut into `nPart` parts: the CFD loads
      start from `p * nStep / nPart` and stop after `(p + 1) * nStep / nPart`. */
  function Window(p: nat, nStep: nat, nPart: nat): (nat, nat)
    requires nPart > 0
  {
    (p * nStep / nPart, (p + 1) * nStep / nPart)
  }

  /** The `for part in 0..n_part` loop of `model`: the window each part sets
      on the CFD loads, in order. */
  method Parts(nStep: nat, nPart: nat) returns (windows: seq<(nat, nat)>)
    ensures |windows| == nPart
    ensures forall p :: 0 <= p < nPart ==> windows[p] == Window(p, nStep, nPart)
  {
    windows := [];
    for part := 0 to nPart
      invariant |windows| == part
      invariant forall p :: 0 <= p < part ==> windows[p] == Window(p, nStep, nPart)
    {
      windows := windows + [(part * nStep / nPart, (part + 1) * nStep / nPart)];
    }
  }

  lemma DivMonotone(a: nat, b: nat, d: nat)
    requires d > 0 && a <= b
    ensures a / d <= b / d
  {
    var qa, qb := a / d, b / d;
    assert qa * d <= a && b < qb * d + d;
    if qb < qa {
      assert (qb + 1) * d <= qa * d by { MulLe(qb + 1, qa, d); }
      MulSucc(qb, d);
    }
  }

  lemma MulSucc(m: int, n: int)
    ensures (m + 1) * n == m * n + n
  {
  }

  lemma MulLe(a: nat, b: nat, d: nat)
    requires a <= b
    ensures a * d <= b * d
  {
    assert b * d - a * d == (b - a) * d;
  }

  /** Window bounds never decrease with the part number. */
  lemma WindowMonotone(p: nat, q: nat, nStep: nat, nPart: nat)
    requires nPart > 0 && p <= q
    ensures Window(p, nStep, nPart).0 <= Window(q, nStep, nPart).0
  {
    MulLe(p, q, nStep);
    DivMonotone(p * nStep, q * nStep, nPart);
  }

  /** The windows follow each other without gap or overlap, none ends before
      it starts, the first starts at 0 and the last stops at `nStep`. */
  lemma WindowsChain(nStep: nat, nPart: nat)
    requires nPart > 0
    ensures Window(0, nStep, nPart).0 == 0
    ensures Window(nPart - 1, nStep, nPart).1 == nStep
    ensures forall p :: 0 <= p < nPart ==> Window(p, nStep, nPart).0 <= Window(p, nStep, nPart).1
    ensures forall p :: 0 <= p < nPart - 1 ==> Window(p, nStep, nPart).1 == Window(p + 1, nStep, nPart).0
  {
    assert (nPart - 1 + 1) * nStep / nPart == nStep by {
      DivCancel(nStep, nPart);
    }
    forall p | 0 <= p < nPart
      ensures Window(p, nStep, nPart).0 <= Window(p, nStep, nPart).1
    {
      WindowMonotone(p, p + 1, nStep, nPart);
    }
  }

  lemma DivCancel(a: nat, d: nat)
    requires d > 0
    ensures d * a / d == a
  {
    var q := d * a / d;
    assert q * d <= d * a < q * d + d;
    if q < a {
      MulLe(q + 1, a, d);
    } else if q > a {
      MulLe(a + 1, q, d);
    }
  }

  /** Every step of the run falls in exactly one part. */
  lemma WindowsTile(nStep: nat, nPart: nat, t: nat)
    requires nPart > 0 && t < nStep
    ensures exists p :: 0 <= p < nPart && Window(p, nStep, nPart).0 <= t < Window(p, nStep, nPart).1
    ensures forall p, q ::
      (0 <= p < nPart && 0 <= q < nPart &&
       Window(p, nStep, nPart).0 <= t < Window(p, nStep, nPart).1 &&
       Window(q, nStep, nPart).0 <= t < Window(q, nStep, nPart).1) ==> p == q
  {
    WindowsChain(nStep, nPart);
    WindowFrom(nStep, nPart, t, 0);
    forall p, q | 0 <= p < nPart && 0 <= q < nPart &&
      Window(p, nStep, nPart).0 <= t < Window(p, nStep, nPart).1 &&
      Window(q, nStep, nPart).0 <= t < Window(q, nStep, nPart).1
      ensures p == q
    {
      if p < q {
        WindowMonotone(p + 1, q, nStep, nPart);
      } else if q < p {
        WindowMonotone(q + 1, p, nStep, nPart);
      }
    }
  }

  /** The part holding step `t`, searched from part `q` on. */
  lemma {:induction false} WindowFrom(nStep: nat, nPart: nat, t: nat, q: nat)
    requires nPart > 0 && t < nStep && q < nPart
    requires Window(q, nStep, nPart).0 <= t
    requires Window(nPart - 1, nStep, nPart).1 == nStep
    ensures exists p :: q <= p < nPart && Window(p, nStep, nPart).0 <= t < Window(p, nStep, nPart).1
    decreases nPart - q
  {
    if t >= Window(q, nStep, nPart).1 {
      assert q + 1 < nPart;
      WindowFrom(nStep, nPart, t, q + 1);
    }
  }

  /** The run of the model: 400 s at 8 kHz in ten parts of 40 s each. */
  lemma RunParts()
    ensures NStep == 3200000
    ensures forall p :: 0 <= p < NPart ==> Window(p, NStep, NPart) == (p * 320000, (p + 1) * 320000)
  {
    forall p | 0 <= p < NPart
      ensures Window(p, NStep, NPart) == (p * 320000, (p + 1) * 320000)
    {
      assert p * NStep == (p * 320000) * 10;
      assert (p + 1) * NStep == ((p + 1) * 320000) * 10;
    }
  }

  // ---------------------------------------------------------------------
  // fig_2_mode

  /** A dense nalgebra matrix, stored column-major as its columns. */
  datatype Matrix = Matrix(nrows: nat, ncols: nat, columns: seq<seq<real>>)

  predicate Shaped(m: Matrix)
  {
    |m.columns| == m.ncols && forall j :: 0 <= j < m.ncols ==> |m.columns[j]| == m.nrows
  }

  function Entry(m: Matrix, i: nat, j: nat): real
    requires Shaped(m) && i < m.nrows && j < m.ncols
  {
    m.columns[j][i]
  }

  /** Consecutive runs of `nrows` values of `v`, `ncols` of them. */
  function Columns(v: seq<real>, nrows: nat, ncols: nat): (cs: seq<seq<real>>)
    requires |v| == nrows * ncols
    ensures |cs| == ncols
    ensures forall j :: 0 <= j < ncols ==> |cs[j]| == nrows
  {
    if ncols == 0 then []
    else
      assert |v[nrows..]| == nrows * (ncols - 1) by { MulSucc(ncols - 1, nrows); }
      [v[..nrows]] + Columns(v[nrows..], nrows, ncols - 1)
  }

  lemma {:induction false} ColumnsAt(v: seq<real>, nrows: nat, ncols: nat, j: nat, lo: nat)
    requires |v| == nrows * ncols && j < ncols && lo == j * nrows
    ensures lo + nrows <= |v|
    ensures Columns(v, nrows, ncols)[j] == v[lo .. lo + nrows]
  {
    MulSucc(ncols - 1, nrows);
    if j > 0 {
      assert lo - nrows == (j - 1) * nrows by { MulSucc(j - 1, nrows); }
      ColumnsAt(v[nrows..], nrows, ncols - 1, j - 1, lo - nrows);
    } else {
      assert lo == 0;
    }
  }

  /** `DMatrix::from_vec(nrows, ncols, v)`: column-major, a panic when the
      vector does not hold exactly `nrows * ncols` values. */
  function FromVec(nrows: nat, ncols: nat, v: seq<real>): (r: Run<Matrix>)
    ensures r.Returns? <==> |v| == nrows * ncols
    ensures r.Returns? ==> Shaped(r.value) && r.value.nrows == nrows && r.value.ncols == ncols
  {
    if |v| != nrows * ncols then Panics("Data storage buffer dimension mismatch.")
    else Returns(Matrix(nrows, ncols, Columns(v, nrows, ncols)))
  }

  /** Entry `(i, j)` of `from_vec` is value `i + j * nrows`. */
  lemma FromVecEntry(nrows: nat, ncols: nat, v: seq<real>, i: nat, j: nat)
    requires |v| == nrows * ncols && i < nrows && j < ncols
    ensures j * nrows + i < |v|
    ensures Entry(FromVec(nrows, ncols, v).value, i, j) == v[j * nrows + i]
  {
    ColumnsAt(v, nrows, ncols, j, j * nrows);
  }

  /** `m.insert_rows(at, n, val)`: `n` rows of `val` inserted before row
      `at`, a panic when `at` is past the last row. */
  function InsertRows(m: Matrix, at: nat, n: nat, val: real): (r: Run<Matrix>)
    requires Shaped(m)
    ensures r.Returns? <==> at <= m.nrows
    ensures r.Returns? ==> Shaped(r.value) && r.value.nrows == m.nrows + n && r.value.ncols == m.ncols
    ensures r.Returns? ==> forall i, j :: 0 <= i < m.nrows + n && 0 <= j < m.ncols ==>
      Entry(r.value, i, j) ==
        if i < at then Entry(m, i, j) else if i < at + n then val else Entry(m, i - n, j)
  {
    if at > m.nrows then Panics("Row insertion index out of range.")
    else
      var pad := seq(n, _ => val);
      var cols := seq(m.ncols, j requires 0 <= j < m.ncols => m.columns[j][..at] + pad + m.columns[j][at..]);
      InsertedColumns(m, at, n, val, pad, cols);
      var r := Matrix(m.nrows + n, m.ncols, cols);
      assert Shaped(r);
      assert forall i, j :: 0 <= i < m.nrows + n && 0 <= j < m.ncols && i < at ==> Entry(r, i, j) == Entry(m, i, j);
      assert forall i, j :: 0 <= i < m.nrows + n && 0 <= j < m.ncols && at <= i < at + n ==> Entry(r, i, j) == val;
      assert forall i, j :: 0 <= i < m.nrows + n && 0 <= j < m.ncols && at + n <= i ==> Entry(r, i, j) == Entry(m, i - n, j);
      Returns(r)
  }

  lemma InsertedColumns(m: Matrix, at: nat, n: nat, val: real, pad: seq<real>, cols: seq<seq<real>>)
    requires Shaped(m) && at <= m.nrows
    requires |pad| == n && forall k :: 0 <= k < n ==> pad[k] == val
    requires |cols| == m.ncols
    requires forall j :: 0 <= j < m.ncols ==> cols[j] == m.columns[j][..at] + pad + m.columns[j][at..]
    ensures forall j :: 0 <= j < m.ncols ==> |cols[j]| == m.nrows + n
    ensures forall i, j {:trigger cols[j][i]} :: 0 <= i < m.nrows + n && 0 <= j < m.ncols ==>
      cols[j][i] == if i < at then m.columns[j][i] else if i < at + n then val else m.columns[j][i - n]
  {
  }

  /** Rust `u32`. */
  type u32 = x: int | 0 <= x < 0x1_0000_0000

  /** The reshape of `fig_2_mode(sid)` applied to the values `v` read from
      `m1s<sid>fig2mode.bin`: segments below 7 are 162 x 602; segment 7 is
      151 x 579 with 11 zero rows inserted at row 151. Either way the result
      has the 162 rows of the M1 modes, and a file with the wrong number of
      values panics. */
  function Fig2Mode(sid: u32, v: seq<real>): (r: Run<Matrix>)
    ensures r.Returns? <==> |v| == (if sid < 7 then 162 * 602 else 151 * 579)
    ensures r.Returns? ==> Shaped(r.value) && r.value.nrows == 162
    ensures r.Returns? ==> r.value.ncols == (if sid < 7 then 602 else 579)
  {
    if sid < 7 then FromVec(162, 602, v)
    else
      match FromVec(151, 579, v)
      case Panics(e) => Panics(e)
      case Returns(m) => InsertRows(m, 151, 11, 0.0)
  }

  /** The values land column-major; for segment 7 the first 151 rows are the
      file's and the 11 added rows are zero. */
  lemma Fig2ModeEntry(sid: u32, v: seq<real>, i: nat, j: nat)
    requires Fig2Mode(sid, v).Returns?
    requires i < 162 && j < Fig2Mode(sid, v).value.ncols
    ensures Shaped(Fig2Mode(sid, v).value)
    ensures sid < 7 ==> j * 162 + i < |v| && Entry(Fig2Mode(sid, v).value, i, j) == v[j * 162 + i]
    ensures sid >= 7 && i < 151 ==> j * 151 + i < |v| && Entry(Fig2Mode(sid, v).value, i, j) == v[j * 151 + i]
    ensures sid >= 7 && i >= 151 ==> Entry(Fig2Mode(sid, v).value, i, j) == 0.0
  {
    if sid < 7 {
      FromVecEntry(162, 602, v, i, j);
    } else if i < 151 {
      FromVecEntry(151, 579, v, i, j);
    }
  }
}
