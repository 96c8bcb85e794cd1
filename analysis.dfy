/** The CFD-loads analysis binary (src/bin/analysis/main.rs): `ForcesToOSS`,
    which turns the M1 segment forces and moments from the segments' local
    frames into the OSS frame. */
module Analysis {
  import opened Wrappers
  import opened Sequences

  /** A force-and-moment record per segment: 3 forces, then 3 moments. */
  const ChunkLen: nat := 6
  const Segments: nat := 7

  /** `geotrans::vtov` of 3 values into the frame of a segment: `None` stands
      for its error. Not part of this model; any function will do. */
  type Vtov = (seq<real>, int) -> Option<seq<real>>

  /** A frame change that returns as many values as it is given. */
  ghost predicate LengthPreserving(vtov: Vtov)
  {
    forall x, sid :: vtov(x, sid).Some? ==> |vtov(x, sid).value| == |x|
  }

  /** One chunk `fm` of segment `sid`: `fm[..3].to_vec().vtov(segment).unwrap()`
      extended by `fm[3..]`. A chunk shorter than 3 makes the slice panic, an
      error of `vtov` makes the `unwrap` panic. */
  function ChunkOut(vtov: Vtov, fm: seq<real>, sid: int): (r: Run<seq<real>>)
    ensures r.Returns? <==> |fm| >= 3 && vtov(fm[..3], sid).Some?
    ensures r.Returns? ==> r.value == vtov(fm[..3], sid).value + fm[3..]
  {
    if |fm| < 3 then Panics("range end index 3 out of range for slice")
    else match vtov(fm[..3], sid)
      case None => Panics("called `Result::unwrap()` on an `Err` value")
      case Some(f) => Returns(f + fm[3..])
  }

  /** Two pieces of output one after the other; the first panic wins. */
  function Concat(a: Run<seq<real>>, b: Run<seq<real>>): (r: Run<seq<real>>)
    ensures r.Returns? <==> a.Returns? && b.Returns?
    ensures r.Returns? ==> r.value == a.value + b.value
  {
    match a
    case Panics(e) => Panics(e)
    case Returns(x) =>
      match b
      case Panics(e) => Panics(e)
      case Returns(y) => Returns(x + y)
  }

  /** `chunks.enumerate().flat_map(..).collect()`, the first chunk belonging to
      segment `sid`. */
  function ConvertChunks(vtov: Vtov, cs: seq<seq<real>>, sid: int): Run<seq<real>>
  {
    if cs == [] then Returns([])
    else Concat(ChunkOut(vtov, cs[0], sid), ConvertChunks(vtov, cs[1..], sid + 1))
  }

  /** The conversion of a flat vector of segment records, segment 1 first. */
  function Convert(vtov: Vtov, data: seq<real>): Run<seq<real>>
  {
    ConvertChunks(vtov, Chunks(data, ChunkLen), 1)
  }

  /** The same conversion, read record by record straight off the data: the
      last record is whatever is left, possibly cut short. */
  function ConvertRecords(vtov: Vtov, s: seq<real>, sid: int): Run<seq<real>>
    decreases |s|
  {
    if s == [] then Returns([])
    else if |s| <= 6 then ChunkOut(vtov, s, sid)
    else Concat(ChunkOut(vtov, s[..6], sid), ConvertRecords(vtov, s[6..], sid + 1))
  }

  /** Converting the 6-element chunks of `s` is converting its records. */
  lemma {:induction false} ChunksAreRecords(vtov: Vtov, s: seq<real>, sid: int)
    ensures ConvertChunks(vtov, Chunks(s, 6), sid) == ConvertRecords(vtov, s, sid)
    decreases |s|
  {
    if |s| > 6 {
      assert Chunks(s, 6) == [s[..6]] + Chunks(s[6..], 6);
      assert ([s[..6]] + Chunks(s[6..], 6))[1..] == Chunks(s[6..], 6);
      ChunksAreRecords(vtov, s[6..], sid + 1);
    } else if s != [] {
      assert Chunks(s, 6) == [s];
      assert [s][1..] == [];
      var c := ChunkOut(vtov, s, sid);
      if c.Returns? {
        assert c.value + [] == c.value;
      }
    }
  }

  /** Record `k` of `s`, if it reaches its forces, has them accepted by
      `vtov` in the frame of segment `sid + k`. */
  ghost predicate RecordOk(vtov: Vtov, s: seq<real>, sid: int, k: nat)
  {
    6 * k + 3 <= |s| ==> vtov(s[6 * k .. 6 * k + 3], sid + k).Some?
  }

  /** Record `k + 1` of `s` is record `k` of `s[6..]`. */
  lemma RecordOkShift(vtov: Vtov, s: seq<real>, sid: int, k: nat, lo: nat)
    requires |s| > 6 && lo == 6 * k
    ensures RecordOk(vtov, s, sid, k + 1) <==> RecordOk(vtov, s[6..], sid + 1, k)
  {
    assert 6 * (k + 1) == lo + 6;
    if lo + 9 <= |s| {
      assert s[6..][lo .. lo + 3] == s[lo + 6 .. lo + 9];
    }
  }

  /** A conversion that goes through has accepted the forces of each record
      `k` (at offset `lo == 6 * k`), none of them cut short. */
  lemma {:induction false} RecordAccepted(vtov: Vtov, s: seq<real>, sid: int, k: nat, lo: nat)
    requires ConvertRecords(vtov, s, sid).Returns?
    requires lo == 6 * k && lo < |s|
    ensures lo + 3 <= |s| && vtov(s[lo .. lo + 3], sid + k).Some?
    decreases k
  {
    if |s| > 6 {
      if k == 0 {
        assert s[..6][..3] == s[lo .. lo + 3];
      } else {
        RecordAccepted(vtov, s[6..], sid + 1, k - 1, lo - 6);
        assert s[6..][lo - 6 .. lo - 3] == s[lo .. lo + 3];
      }
    } else {
      assert k == 0;
      assert s[..3] == s[lo .. lo + 3];
    }
  }

  /** A conversion that goes through leaves no record cut below its forces. */
  lemma {:induction false} NoShortRecord(vtov: Vtov, s: seq<real>, sid: int)
    requires ConvertRecords(vtov, s, sid).Returns?
    ensures |s| % 6 == 0 || |s| % 6 >= 3
    decreases |s|
  {
    if |s| > 6 {
      NoShortRecord(vtov, s[6..], sid + 1);
      assert |s[6..]| % 6 == |s| % 6;
    } else if s != [] {
    }
  }

  /** Conversely, when no record is cut below its forces and `vtov` accepts
      the forces of every record, the conversion goes through. */
  lemma {:induction false} AllAccepted(vtov: Vtov, s: seq<real>, sid: int)
    requires |s| % 6 == 0 || |s| % 6 >= 3
    requires forall k: nat :: RecordOk(vtov, s, sid, k)
    ensures ConvertRecords(vtov, s, sid).Returns?
    decreases |s|
  {
    assert RecordOk(vtov, s, sid, 0);
    if |s| > 6 {
      var t := s[6..];
      assert s[..6][..3] == s[0 .. 3];
      var next := sid + 1;
      forall k: nat
        ensures RecordOk(vtov, t, next, k)
      {
        assert RecordOk(vtov, s, sid, k + 1);
        RecordOkShift(vtov, s, sid, k, 6 * k);
      }
      assert |t| % 6 == |s| % 6;
      AllAccepted(vtov, t, next);
    } else if s != [] {
    }
  }

  /** The conversion goes through exactly when no record is cut below its
      three forces and `vtov` accepts the forces of every record, record `k`
      in the frame of segment `1 + k`. */
  lemma ConvertReturns(vtov: Vtov, data: seq<real>)
    ensures Convert(vtov, data).Returns? <==>
      (|data| % 6 == 0 || |data| % 6 >= 3) && forall k: nat :: RecordOk(vtov, data, 1, k)
  {
    ChunksAreRecords(vtov, data, 1);
    if ConvertRecords(vtov, data, 1).Returns? {
      forall k: nat
        ensures RecordOk(vtov, data, 1, k)
      {
        if 6 * k + 3 <= |data| {
          RecordAccepted(vtov, data, 1, k, 6 * k);
        }
      }
      NoShortRecord(vtov, data, 1);
    } else if (|data| % 6 == 0 || |data| % 6 >= 3) && forall k: nat :: RecordOk(vtov, data, 1, k) {
      AllAccepted(vtov, data, 1);
    }
  }

  /** With a length-preserving `vtov` the output is as long as the input. */
  lemma {:induction false} RecordsLength(vtov: Vtov, s: seq<real>, sid: int)
    requires LengthPreserving(vtov)
    requires ConvertRecords(vtov, s, sid).Returns?
    ensures |ConvertRecords(vtov, s, sid).value| == |s|
    decreases |s|
  {
    if |s| > 6 {
      RecordsLength(vtov, s[6..], sid + 1);
    }
  }

  /** With a length-preserving `vtov` a conversion that goes through is as
      long as its input. */
  lemma ConvertLength(vtov: Vtov, data: seq<real>)
    ensures LengthPreserving(vtov) && Convert(vtov, data).Returns? ==> |Convert(vtov, data).value| == |data|
  {
    ChunksAreRecords(vtov, data, 1);
    if LengthPreserving(vtov) && Convert(vtov, data).Returns? {
      RecordsLength(vtov, data, 1);
    }
  }

  /** A slice past a prefix `p` is a slice of what follows it. */
  lemma SliceAfter(out: seq<real>, p: seq<real>, rest: seq<real>, lo: nat, hi: nat)
    requires out == p + rest && |p| <= lo <= hi <= |out|
    ensures out[lo .. hi] == rest[lo - |p| .. hi - |p|]
  {
  }

  /** The forces and moments of a later record, seen past the first one. */
  lemma DropRecord(s: seq<real>, lo: nat, hi: nat)
    requires 6 <= lo && lo + 3 <= hi <= |s|
    ensures s[6..][lo - 6 .. lo - 3] == s[lo .. lo + 3]
    ensures s[6..][lo - 3 .. hi - 6] == s[lo + 3 .. hi]
  {
  }

  /** The first record of a length-preserving conversion `out`. */
  lemma FirstRecord(vtov: Vtov, s: seq<real>, sid: int, out: seq<real>, hi: nat)
    requires LengthPreserving(vtov)
    requires ConvertRecords(vtov, s, sid) == Returns(out)
    requires 0 < |s| && hi == Min(6, |s|) && |out| == |s|
    ensures 3 <= |s| && vtov(s[..3], sid).Some?
    ensures out[..hi] == vtov(s[..3], sid).value + s[3 .. hi]
  {
    if |s| > 6 {
      var c := ChunkOut(vtov, s[..6], sid);
      var rest := ConvertRecords(vtov, s[6..], sid + 1);
      assert s[..6][..3] == s[..3] && s[..6][3..] == s[3..6];
      assert out == c.value + rest.value;
      assert |c.value| == 6;
    } else {
    }
  }

  /** Record `k` of the records conversion `out`, from offset `lo == 6 * k`
      to `hi`, the end of the record or of the data. */
  lemma {:induction false} RecordAt(vtov: Vtov, s: seq<real>, sid: int, out: seq<real>, k: nat, lo: nat, hi: nat)
    requires LengthPreserving(vtov)
    requires ConvertRecords(vtov, s, sid) == Returns(out) && |out| == |s|
    requires lo == 6 * k && lo < |s| && hi == Min(lo + 6, |s|)
    ensures lo + 3 <= |s| && vtov(s[lo .. lo + 3], sid + k).Some?
    ensures out[lo .. hi] == vtov(s[lo .. lo + 3], sid + k).value + s[lo + 3 .. hi]
    decreases k
  {
    if k == 0 {
      FirstRecord(vtov, s, sid, out, hi);
    } else {
      var t := s[6..];
      var c := ChunkOut(vtov, s[..6], sid);
      var rest := ConvertRecords(vtov, t, sid + 1);
      RecordsLength(vtov, t, sid + 1);
      SliceAfter(out, c.value, rest.value, lo, hi);
      RecordAt(vtov, t, sid + 1, rest.value, k - 1, lo - 6, hi - 6);
      DropRecord(s, lo, hi);
      assert sid + 1 + (k - 1) == sid + k;
    }
  }

  /** With a length-preserving `vtov` the output is as long as the input,
      and record `k` of it (offsets `lo == 6 * k` up to `hi`, the end of the
      record or of the data) is the frame change of record `k`'s three forces
      into segment `k + 1`, followed by record `k`'s moments unchanged. */
  lemma ConvertRecord(vtov: Vtov, data: seq<real>, k: nat, lo: nat, hi: nat)
    requires LengthPreserving(vtov)
    requires Convert(vtov, data).Returns?
    requires lo == 6 * k && lo < |data| && hi == Min(lo + 6, |data|)
    ensures lo + 3 <= |data| && vtov(data[lo .. lo + 3], k + 1).Some?
    ensures |Convert(vtov, data).value| == |data|
    ensures Convert(vtov, data).value[lo .. hi] == vtov(data[lo .. lo + 3], k + 1).value + data[lo + 3 .. hi]
  {
    ChunksAreRecords(vtov, data, 1);
    RecordsLength(vtov, data, 1);
    RecordAt(vtov, data, 1, Convert(vtov, data).value, k, lo, hi);
  }

  /** The analysis client: the last M1 loads received. */
  class ForcesToOSS {
    var data: seq<real>

    /** `ForcesToOSS::new()`: an empty vector. */
    constructor ()
      ensures data == []
    {
      data := [];
    }

    /** `Read<M1Loads>`: the newest loads replace the stored ones. */
    method Read(d: seq<real>)
      modifies this
      ensures data == d
    {
      data := d;
    }

    /** `Write<M1ForcesOSS>`: a function of the stored loads, which it leaves
        in place. It goes through exactly when no record is cut below its
        forces and `vtov` accepts the forces of every record; then it returns
        some vector, the converted loads (record by record as `ConvertRecord`
        states), as long as the loads when `vtov` keeps lengths, and the
        empty one for empty loads. */
    function Write(vtov: Vtov): (r: Run<Option<seq<real>>>)
      reads this
      ensures r.Returns? <==>
        (|data| % 6 == 0 || |data| % 6 >= 3) && forall k: nat :: RecordOk(vtov, data, 1, k)
      ensures r.Returns? <==> Convert(vtov, data).Returns?
      ensures r.Returns? ==> r.value == Some(Convert(vtov, data).value)
      ensures data == [] ==> r == Returns(Some([]))
      ensures r.Returns? && LengthPreserving(vtov) ==> |r.value.value| == |data|
    {
      ConvertReturns(vtov, data);
      ConvertLength(vtov, data);
      match Convert(vtov, data)
      case Panics(e) => Panics(e)
      case Returns(fm) => Returns(Some(fm))
    }

    /** `Size<M1ForcesOSS>`: one record per segment. */
    function Len(): (n: nat)
      ensures n == Segments * ChunkLen
    {
      42
    }
  }

  /** Loads of the declared size convert to a vector of the declared size, as
      long as the frame change keeps lengths. */
  lemma WriteSize(vtov: Vtov, data: seq<real>)
    requires LengthPreserving(vtov) && |data| == Segments * ChunkLen
    requires Convert(vtov, data).Returns?
    ensures |Convert(vtov, data).value| == 42
  {
    ConvertLength(vtov, data);
  }
}
