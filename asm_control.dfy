/** The ASMS control model: the seven adaptive-secondary-mirror segment
    controllers behind one `Dos` interface (asm-control/src/lib.rs).

    Each per-segment controller is a Simulink-generated state machine that is
    not part of this model; it is represented by a `Law`, a record of the
    functions its Rust wrapper exposes, over an opaque state type `S`. */
module AsmControl {
  import opened Wrappers
  import Sequences
  import opened Telescope

  /** Rust `u8`. */
  type u8 = x: int | 0 <= x < 256

  /** The per-segment signals the aggregate addresses by name. */
  datatype Signal = Cmd | FSRBModalD | FSCPModalF | FSRBModalF

  /** A dosio tag: `Segment(3, Cmd)` is `M2S3Cmd`; `Other` stands for every
      tag the aggregate never names. */
  datatype Tag = Segment(sid: int, signal: Signal) | Other(name: string)

  /** A dosio `IO<Vec<f64>>`: a tagged vector. */
  datatype IO = IO(tag: Tag, data: seq<real>)

  /** dosio's `DOSIOSError`. */
  datatype DosError = Inputs(msg: string) | Outputs(msg: string) | Step(msg: string)

  const EmptyInputs: string := "Empty inputs passed to ASMS controllers"
  const BadSegmentId: string := "Segment number id must in the range [1,2,...,7]"
  const TagNotFound: string := "no IO with this tag"

  const DefaultModalForcesGain: real := 0.5
  const DefaultFluidDampingGain: real := -9.1

  /** What the wrapper of one segment's Simulink controller offers:
      `Controller::new()`, the two tag lists, `outputs()`, `inputs(..)` and
      `step()`. `inputs` and `step` take `&mut self`, so they return the new
      state beside their result; `outputs` only reads the state. */
  datatype Law<!S> = Law(
    init: SegmentId -> S,
    inputsTags: SegmentId -> seq<Tag>,
    outputsTags: SegmentId -> seq<Tag>,
    outputs: (SegmentId, S) -> Option<seq<IO>>,
    inputs: (SegmentId, S, seq<IO>) -> (S, Result<(), DosError>),
    step: (SegmentId, S) -> (S, Result<(), DosError>))

  /** One `AsmController` variant: `One(..)` is `SegmentController(1, ..)`. */
  datatype SegmentController<S> = SegmentController(sid: SegmentId, state: S)

  // ---------------------------------------------------------------------
  // Construction from segment ids

  /** `sid.into_iter().map(|i| match i { 1 => One(..), .., _ => panic!(..) }).collect()`:
      `None` stands for the panic. */
  function ControllersFrom<S>(law: Law<S>, sid: seq<u8>): (r: Option<seq<SegmentController<S>>>)
    ensures r.Some? <==> forall k :: 0 <= k < |sid| ==> 1 <= sid[k] <= 7
    ensures r.Some? ==> |r.value| == |sid|
    ensures r.Some? ==> forall k :: 0 <= k < |sid| ==>
      r.value[k].sid == sid[k] && r.value[k].state == law.init(r.value[k].sid)
  {
    if sid == [] then Some([])
    else if !(1 <= sid[0] <= 7) then None
    else match ControllersFrom(law, sid[1..])
      case None => None
      case Some(rest) => Some([SegmentController(sid[0], law.init(sid[0]))] + rest)
  }

  // ---------------------------------------------------------------------
  // Tags

  /** `controllers.iter().flat_map(|c| c.<x>_tags()).collect()` */
  function TagsOf<S>(cs: seq<SegmentController<S>>, tags: SegmentId -> seq<Tag>): seq<Tag>
  {
    if cs == [] then [] else tags(cs[0].sid) + TagsOf(cs[1..], tags)
  }

  lemma {:induction false} TagsOfAppend<S>(a: seq<SegmentController<S>>, b: seq<SegmentController<S>>, tags: SegmentId -> seq<Tag>)
    ensures TagsOf(a + b, tags) == TagsOf(a, tags) + TagsOf(b, tags)
  {
    if a == [] {
      assert a + b == b;
    } else {
      assert (a + b)[1..] == a[1..] + b;
      TagsOfAppend(a[1..], b, tags);
    }
  }

  /** The tags of controller `k` sit, in full, right after those of the
      controllers before it. */
  lemma TagsOfAt<S>(cs: seq<SegmentController<S>>, tags: SegmentId -> seq<Tag>, k: nat)
    requires k < |cs|
    ensures |TagsOf(cs[..k], tags)| + |tags(cs[k].sid)| <= |TagsOf(cs, tags)|
    ensures TagsOf(cs, tags)[|TagsOf(cs[..k], tags)| .. |TagsOf(cs[..k], tags)| + |tags(cs[k].sid)|]
         == tags(cs[k].sid)
  {
    assert cs == cs[..k] + ([cs[k]] + cs[k + 1..]);
    TagsOfAppend(cs[..k], [cs[k]] + cs[k + 1..], tags);
    TagsOfAppend([cs[k]], cs[k + 1..], tags);
    assert TagsOf([cs[k]], tags) == tags(cs[k].sid) by {
      assert [cs[k]][1..] == [];
    }
  }

  /** `r` holds the tags of each controller `k` of `cs`, whole, right after
      the tags of the controllers before it, and nothing after the last. */
  predicate TagsLaidOut<S>(cs: seq<SegmentController<S>>, tags: SegmentId -> seq<Tag>, r: seq<Tag>)
  {
    && |r| == |TagsOf(cs, tags)|
    && forall k :: 0 <= k < |cs| ==>
      |TagsOf(cs[..k], tags)| + |tags(cs[k].sid)| <= |r| &&
      r[|TagsOf(cs[..k], tags)| .. |TagsOf(cs[..k], tags)| + |tags(cs[k].sid)|] == tags(cs[k].sid)
  }

  lemma TagsOfLayout<S>(cs: seq<SegmentController<S>>, tags: SegmentId -> seq<Tag>)
    ensures TagsLaidOut(cs, tags, TagsOf(cs, tags))
  {
    forall k | 0 <= k < |cs|
      ensures |TagsOf(cs[..k], tags)| + |tags(cs[k].sid)| <= |TagsOf(cs, tags)|
      ensures TagsOf(cs, tags)[|TagsOf(cs[..k], tags)| .. |TagsOf(cs[..k], tags)| + |tags(cs[k].sid)|]
           == tags(cs[k].sid)
    {
      TagsOfAt(cs, tags, k);
    }
  }

  // ---------------------------------------------------------------------
  // Tag-indexed access: dosio's `Index<Tags> for Vec<IO>`

  /** `i` is the first entry of `ios` tagged `t`. */
  predicate IsFirst(ios: seq<IO>, t: Tag, i: int)
  {
    0 <= i < |ios| && ios[i].tag == t && forall j :: 0 <= j < i ==> ios[j].tag != t
  }

  predicate HasTag(ios: seq<IO>, t: Tag)
  {
    exists i :: 0 <= i < |ios| && ios[i].tag == t
  }

  /** The position `ios[tag]` resolves to. */
  function Find(ios: seq<IO>, t: Tag): (r: Option<nat>)
    ensures r.Some? <==> HasTag(ios, t)
    ensures r.Some? ==> IsFirst(ios, t, r.value)
  {
    if ios == [] then None
    else if ios[0].tag == t then Some(0)
    else match Find(ios[1..], t)
      case None =>
        assert forall i :: 1 <= i < |ios| ==> ios[i] == ios[1..][i - 1];
        None
      case Some(i) => Some(i + 1)
  }

  /** `io *= g` */
  function Scaled(v: seq<real>, g: real): (r: seq<real>)
    ensures |r| == |v|
    ensures forall k :: 0 <= k < |v| ==> r[k] == g * v[k]
  {
    if v == [] then [] else [g * v[0]] + Scaled(v[1..], g)
  }

  /** `v[ios!(t)] *= g`, a panic when no entry is tagged `t`. */
  function ScaleEntry(ios: seq<IO>, t: Tag, g: real): (r: Run<seq<IO>>)
    ensures r.Returns? <==> HasTag(ios, t)
    ensures r.Panics? ==> r.reason == TagNotFound
    ensures r.Returns? ==> |r.value| == |ios| && forall k :: 0 <= k < |ios| ==>
      r.value[k].tag == ios[k].tag &&
      r.value[k].data == if IsFirst(ios, t, k) then Scaled(ios[k].data, g) else ios[k].data
  {
    match Find(ios, t)
    case None => Panics(TagNotFound)
    case Some(i) => Returns(ios[i := IO(ios[i].tag, Scaled(ios[i].data, g))])
  }

  // ---------------------------------------------------------------------
  // Outputs

  /** The two gains applied to the outputs of segment `sid`: its
      `M2S<sid>FSCPModalF` entry times `mg`, its `M2S<sid>FSRBModalF` entry
      times `fg`; every other entry is left as it is. */
  function Gained(y: seq<IO>, sid: SegmentId, mg: real, fg: real): (r: Run<seq<IO>>)
    ensures r.Returns? <==> HasTag(y, Segment(sid, FSCPModalF)) && HasTag(y, Segment(sid, FSRBModalF))
    ensures r.Returns? ==> |r.value| == |y|
    ensures r.Returns? ==> forall k :: 0 <= k < |y| ==>
      r.value[k].tag == y[k].tag &&
      r.value[k].data ==
        if IsFirst(y, Segment(sid, FSCPModalF), k) then Scaled(y[k].data, mg)
        else if IsFirst(y, Segment(sid, FSRBModalF), k) then Scaled(y[k].data, fg)
        else y[k].data
  {
    match ScaleEntry(y, Segment(sid, FSCPModalF), mg)
    case Panics(e) => Panics(e)
    case Returns(v) =>
      SameTagsSameFirst(y, v, Segment(sid, FSRBModalF));
      ScaleEntry(v, Segment(sid, FSRBModalF), fg)
  }

  lemma SameTagsSameFirst(a: seq<IO>, b: seq<IO>, t: Tag)
    requires |a| == |b| && forall k :: 0 <= k < |a| ==> a[k].tag == b[k].tag
    ensures HasTag(a, t) <==> HasTag(b, t)
    ensures forall k :: IsFirst(a, t, k) <==> IsFirst(b, t, k)
  {
    if HasTag(a, t) {
      var i :| 0 <= i < |a| && a[i].tag == t;
      assert b[i].tag == t;
    }
    if HasTag(b, t) {
      var i :| 0 <= i < |b| && b[i].tag == t;
      assert a[i].tag == t;
    }
  }

  /** What controller `c` contributes: `None`, its gained outputs, or the
      panic of a missing tag. */
  function ControllerOutputs<S>(law: Law<S>, c: SegmentController<S>, mg: real, fg: real): Run<Option<seq<IO>>>
  {
    match law.outputs(c.sid, c.state)
    case None => Returns(None)
    case Some(y) =>
      match Gained(y, c.sid, mg, fg)
      case Panics(e) => Panics(e)
      case Returns(v) => Returns(Some(v))
  }

  /** What one controller contributes to a collection of outputs. */
  type Part<!S> = SegmentController<S> -> Run<Option<seq<IO>>>

  /** Sequencing of `collect::<Option<Vec<_>>>()`: the second part counts only
      when the first produced outputs, and then the two are concatenated. */
  function Then(a: Run<Option<seq<IO>>>, b: Run<Option<seq<IO>>>): (r: Run<Option<seq<IO>>>)
    ensures !(a.Returns? && a.value.Some?) ==> r == a
    ensures a.Returns? && a.value.Some? && !(b.Returns? && b.value.Some?) ==> r == b
    ensures a.Returns? && a.value.Some? && b.Returns? && b.value.Some? ==>
      r == Returns(Some(a.value.value + b.value.value))
  {
    match a
    case Returns(Some(v)) =>
      (match b
       case Returns(Some(w)) => Returns(Some(v + w))
       case _ => b)
    case _ => a
  }

  /** `cs.iter().map(part).collect::<Option<Vec<_>>>().map(flatten)`. */
  function Collect<S>(cs: seq<SegmentController<S>>, part: Part<S>): Run<Option<seq<IO>>>
  {
    if cs == [] then Returns(Some([])) else Then(part(cs[0]), Collect(cs[1..], part))
  }

  /** The part of the aggregate's outputs: one controller's gained outputs. */
  function Gains<S>(law: Law<S>, mg: real, fg: real): Part<S>
  {
    (c: SegmentController<S>) => ControllerOutputs(law, c, mg, fg)
  }

  /** `Dos::outputs` of the aggregate, as a value. */
  function OutputsOf<S>(law: Law<S>, cs: seq<SegmentController<S>>, mg: real, fg: real): Run<Option<seq<IO>>>
  {
    Collect(cs, Gains(law, mg, fg))
  }

  predicate Emits<S>(part: Part<S>, c: SegmentController<S>)
  {
    part(c).Returns? && part(c).value.Some?
  }

  /** The outputs of `c`, or `[]` when it has none. */
  function Emitted<S>(part: Part<S>, c: SegmentController<S>): seq<IO>
  {
    if Emits(part, c) then part(c).value.value else []
  }

  lemma ThenNil(b: Run<Option<seq<IO>>>)
    ensures Then(Returns(Some([])), b) == b
  {
    if b.Returns? && b.value.Some? {
      assert [] + b.value.value == b.value.value;
    }
  }

  lemma ThenAssoc(a: Run<Option<seq<IO>>>, b: Run<Option<seq<IO>>>, c: Run<Option<seq<IO>>>)
    ensures Then(a, Then(b, c)) == Then(Then(a, b), c)
  {
    if a.Returns? && a.value.Some? && b.Returns? && b.value.Some? && c.Returns? && c.value.Some? {
      assert a.value.value + (b.value.value + c.value.value) == (a.value.value + b.value.value) + c.value.value;
    }
  }

  /** The outputs of a concatenation of controller lists are those of the first
      list followed, only if it produced any, by those of the second. */
  lemma {:induction false} CollectAppend<S>(a: seq<SegmentController<S>>, b: seq<SegmentController<S>>, part: Part<S>)
    ensures Collect(a + b, part) == Then(Collect(a, part), Collect(b, part))
  {
    if a == [] {
      assert a + b == b;
      var o := Collect(b, part);
      if o.Returns? && o.value.Some? {
        assert [] + o.value.value == o.value.value;
      }
    } else {
      assert (a + b)[1..] == a[1..] + b;
      CollectAppend(a[1..], b, part);
      ThenAssoc(part(a[0]), Collect(a[1..], part), Collect(b, part));
    }
  }

  /** Short circuit: once a prefix of the controllers yields `None` (or
      panics), the controllers after it are not consulted. */
  lemma CollectShortCircuit<S>(a: seq<SegmentController<S>>, b: seq<SegmentController<S>>, part: Part<S>)
    requires !(Collect(a, part).Returns? && Collect(a, part).value.Some?)
    ensures Collect(a + b, part) == Collect(a, part)
  {
    CollectAppend(a, b, part);
  }

  /** Outputs are produced exactly when every controller produces some, and
      they are then those of each controller, concatenated in controller
      order. */
  lemma {:induction false} CollectConcat<S>(cs: seq<SegmentController<S>>, part: Part<S>)
    ensures (Collect(cs, part).Returns? && Collect(cs, part).value.Some?)
        <==> forall k :: 0 <= k < |cs| ==> Emits(part, cs[k])
    ensures (forall k :: 0 <= k < |cs| ==> Emits(part, cs[k])) ==>
      Collect(cs, part) == Returns(Some(Sequences.Flatten(seq(|cs|, k requires 0 <= k < |cs| => Emitted(part, cs[k])))))
  {
    if cs != [] {
      var parts := seq(|cs|, k requires 0 <= k < |cs| => Emitted(part, cs[k]));
      var tail := cs[1..];
      CollectConcat(tail, part);
      assert parts[1..] == seq(|tail|, k requires 0 <= k < |tail| => Emitted(part, tail[k]));
      assert forall k :: 1 <= k < |cs| ==> cs[k] == tail[k - 1];
      if !Emits(part, cs[0]) {
        assert !(forall k :: 0 <= k < |cs| ==> Emits(part, cs[k]));
      } else if !(forall k :: 0 <= k < |tail| ==> Emits(part, tail[k])) {
        var k :| 0 <= k < |tail| && !Emits(part, tail[k]);
        assert !Emits(part, cs[k + 1]);
      }
    }
  }

  /** The first controller that yields `None` ends the collection with `None`,
      whatever the controllers after it would have produced. */
  lemma {:induction false} CollectFirstNone<S>(cs: seq<SegmentController<S>>, part: Part<S>, k: nat)
    requires k < |cs|
    requires forall j :: 0 <= j < k ==> Emits(part, cs[j])
    requires part(cs[k]) == Returns(None)
    ensures Collect(cs, part) == Returns(None)
  {
    if k > 0 {
      assert forall j :: 0 <= j < k - 1 ==> cs[1..][j] == cs[j + 1];
      CollectFirstNone(cs[1..], part, k - 1);
    }
  }

  /** The aggregate yields `None` as soon as one controller has no outputs
      and all controllers before it had some. */
  lemma OutputsFirstNone<S>(law: Law<S>, cs: seq<SegmentController<S>>, mg: real, fg: real, k: nat)
    requires k < |cs|
    requires forall j :: 0 <= j < k ==> Emits(Gains(law, mg, fg), cs[j])
    requires law.outputs(cs[k].sid, cs[k].state).None?
    ensures OutputsOf(law, cs, mg, fg) == Returns(None)
  {
    CollectFirstNone(cs, Gains(law, mg, fg), k);
  }

  /** Every value of every entry is zero. */
  predicate AllZero(ios: seq<IO>)
  {
    forall k, j :: 0 <= k < |ios| && 0 <= j < |ios[k].data| ==> ios[k].data[j] == 0.0
  }

  /** The gains are linear: zero outputs stay zero whatever the gains. */
  lemma GainedZero(y: seq<IO>, sid: SegmentId, mg: real, fg: real)
    requires AllZero(y)
    ensures Gained(y, sid, mg, fg).Returns? ==> AllZero(Gained(y, sid, mg, fg).value)
  {
    var r := Gained(y, sid, mg, fg);
    if r.Returns? {
      forall k, j | 0 <= k < |r.value| && 0 <= j < |r.value[k].data|
        ensures r.value[k].data[j] == 0.0
      {
        assert y[k].data[j] == 0.0;
      }
    }
  }

  /** Concatenation keeps outputs zero. */
  lemma {:induction false} CollectZero<S>(cs: seq<SegmentController<S>>, part: Part<S>)
    requires forall k :: 0 <= k < |cs| ==> Emits(part, cs[k]) ==> AllZero(part(cs[k]).value.value)
    ensures Collect(cs, part).Returns? && Collect(cs, part).value.Some? ==> AllZero(Collect(cs, part).value.value)
  {
    if cs != [] {
      assert forall k :: 0 <= k < |cs[1..]| ==> cs[1..][k] == cs[k + 1];
      CollectZero(cs[1..], part);
      var o := part(cs[0]);
      var rest := Collect(cs[1..], part);
      if o.Returns? && o.value.Some? && rest.Returns? && rest.value.Some? {
        var v, w := o.value.value, rest.value.value;
        assert forall k :: 0 <= k < |v + w| ==> (v + w)[k] == if k < |v| then v[k] else w[k - |v|];
      }
    }
  }

  predicate ZeroOutputs<S>(law: Law<S>, c: SegmentController<S>)
  {
    match law.outputs(c.sid, c.state)
    case None => true
    case Some(y) => AllZero(y)
  }

  /** When every controller outputs zeros, so does the aggregate, whatever the
      two gains are. */
  lemma OutputsZero<S>(law: Law<S>, cs: seq<SegmentController<S>>, mg: real, fg: real)
    requires forall k :: 0 <= k < |cs| ==> ZeroOutputs(law, cs[k])
    ensures OutputsOf(law, cs, mg, fg).Returns? && OutputsOf(law, cs, mg, fg).value.Some? ==>
      AllZero(OutputsOf(law, cs, mg, fg).value.value)
  {
    var part := Gains(law, mg, fg);
    forall k | 0 <= k < |cs| && Emits(part, cs[k])
      ensures AllZero(part(cs[k]).value.value)
    {
      GainedZero(law.outputs(cs[k].sid, cs[k].state).value, cs[k].sid, mg, fg);
    }
    CollectZero(cs, part);
  }

  // ---------------------------------------------------------------------
  // Inputs and step: a fallible in-order sweep over the controllers

  /** What visiting one controller does: its new state and its result, or a
      panic. */
  type Visit<!S> = SegmentController<S> -> Run<(S, Result<(), DosError>)>

  /** `controllers.iter_mut().map(visit).collect::<Result<Vec<()>, _>>()`
      from controller `k` on: each controller is visited in turn and replaced
      by its visited self, and the sweep stops at the first error (or panic).
      The result holds the controllers afterwards and the error, if any. */
  function SweepFrom<S>(cs: seq<SegmentController<S>>, k: nat, visit: Visit<S>): (r: Run<(seq<SegmentController<S>>, Result<(), DosError>)>)
    requires k <= |cs|
    ensures r.Returns? ==> |r.value.0| == |cs|
    ensures r.Returns? ==> forall j :: 0 <= j < |cs| ==> r.value.0[j].sid == cs[j].sid
    ensures r.Returns? ==> forall j :: 0 <= j < k ==> r.value.0[j] == cs[j]
    decreases |cs| - k
  {
    if k == |cs| then Returns((cs, Ok(())))
    else match visit(cs[k])
      case Panics(e) => Panics(e)
      case Returns((s, res)) =>
        var cs' := cs[k := SegmentController(cs[k].sid, s)];
        if res.Err? then Returns((cs', res)) else SweepFrom(cs', k + 1, visit)
  }

  /** The whole sweep. */
  function Sweep<S>(cs: seq<SegmentController<S>>, visit: Visit<S>): Run<(seq<SegmentController<S>>, Result<(), DosError>)>
  {
    SweepFrom(cs, 0, visit)
  }

  predicate VisitOk<S>(visit: Visit<S>, c: SegmentController<S>)
  {
    visit(c).Returns? && visit(c).value.1.Ok?
  }

  /** `c` after a visit that did not panic. */
  function Visited<S>(visit: Visit<S>, c: SegmentController<S>): SegmentController<S>
  {
    if visit(c).Returns? then SegmentController(c.sid, visit(c).value.0) else c
  }

  lemma {:induction false} SweepFromAllOk<S>(cs: seq<SegmentController<S>>, k: nat, visit: Visit<S>)
    requires k <= |cs|
    ensures (SweepFrom(cs, k, visit).Returns? && SweepFrom(cs, k, visit).value.1.Ok?)
        <==> forall j :: k <= j < |cs| ==> VisitOk(visit, cs[j])
    ensures (forall j :: k <= j < |cs| ==> VisitOk(visit, cs[j])) ==>
      forall j :: k <= j < |cs| ==> SweepFrom(cs, k, visit).value.0[j] == Visited(visit, cs[j])
    decreases |cs| - k
  {
    if k < |cs| && visit(cs[k]).Returns? && visit(cs[k]).value.1.Ok? {
      var cs' := cs[k := Visited(visit, cs[k])];
      SweepFromAllOk(cs', k + 1, visit);
      assert forall j :: k + 1 <= j < |cs| ==> cs'[j] == cs[j];
    }
  }

  /** A sweep succeeds exactly when every visit does, and then every controller
      holds the state of its own visit. */
  lemma SweepAllOk<S>(cs: seq<SegmentController<S>>, visit: Visit<S>)
    ensures (Sweep(cs, visit).Returns? && Sweep(cs, visit).value.1.Ok?)
        <==> forall k :: 0 <= k < |cs| ==> VisitOk(visit, cs[k])
    ensures (forall k :: 0 <= k < |cs| ==> VisitOk(visit, cs[k])) ==>
      forall k :: 0 <= k < |cs| ==> Sweep(cs, visit).value.0[k] == Visited(visit, cs[k])
  {
    SweepFromAllOk(cs, 0, visit);
  }

  lemma {:induction false} SweepFromFirstError<S>(cs: seq<SegmentController<S>>, k: nat, visit: Visit<S>, e: nat)
    requires k <= e < |cs|
    requires forall j :: k <= j < e ==> VisitOk(visit, cs[j])
    requires visit(cs[e]).Returns? && visit(cs[e]).value.1.Err?
    ensures SweepFrom(cs, k, visit).Returns?
    ensures SweepFrom(cs, k, visit).value.1 == visit(cs[e]).value.1
    ensures forall j :: k <= j <= e ==> SweepFrom(cs, k, visit).value.0[j] == Visited(visit, cs[j])
    ensures forall j :: e < j < |cs| ==> SweepFrom(cs, k, visit).value.0[j] == cs[j]
    decreases |cs| - k
  {
    if k < e {
      var cs' := cs[k := Visited(visit, cs[k])];
      assert forall j :: k + 1 <= j < |cs| ==> cs'[j] == cs[j];
      SweepFromFirstError(cs', k + 1, visit, e);
    }
  }

  /** The first visit that fails ends the sweep with its error: the controllers
      before it and the failing one hold their new states, the ones after it
      are untouched. */
  lemma SweepFirstError<S>(cs: seq<SegmentController<S>>, visit: Visit<S>, k: nat)
    requires k < |cs|
    requires forall j :: 0 <= j < k ==> VisitOk(visit, cs[j])
    requires visit(cs[k]).Returns? && visit(cs[k]).value.1.Err?
    ensures Sweep(cs, visit).Returns?
    ensures Sweep(cs, visit).value.1 == visit(cs[k]).value.1
    ensures forall j :: 0 <= j <= k ==> Sweep(cs, visit).value.0[j] == Visited(visit, cs[j])
    ensures forall j :: k < j < |cs| ==> Sweep(cs, visit).value.0[j] == cs[j]
  {
    SweepFromFirstError(cs, 0, visit, k);
  }

  lemma {:induction false} StepFromNeverPanics<S>(law: Law<S>, cs: seq<SegmentController<S>>, k: nat)
    requires k <= |cs|
    ensures SweepFrom(cs, k, StepVisit(law)).Returns?
    decreases |cs| - k
  {
    if k < |cs| {
      var (s, _) := law.step(cs[k].sid, cs[k].state);
      StepFromNeverPanics(law, cs[k := SegmentController(cs[k].sid, s)], k + 1);
    }
  }

  /** Nothing can stop a step sweep but a controller error. */
  lemma StepNeverPanics<S>(law: Law<S>, cs: seq<SegmentController<S>>)
    ensures Sweep(cs, StepVisit(law)).Returns?
  {
    StepFromNeverPanics(law, cs, 0);
  }

  /** The two inputs a segment's controller gets: `[data[M2S<sid>Cmd],
      data[M2S<sid>FSRBModalD]]`, a panic when either is missing. */
  function Routed(d: seq<IO>, sid: SegmentId): (r: Run<seq<IO>>)
    ensures r.Returns? <==> HasTag(d, Segment(sid, Cmd)) && HasTag(d, Segment(sid, FSRBModalD))
    ensures r.Returns? ==>
      exists i, j :: IsFirst(d, Segment(sid, Cmd), i) && IsFirst(d, Segment(sid, FSRBModalD), j) && r.value == [d[i], d[j]]
  {
    match Find(d, Segment(sid, Cmd))
    case None => Panics(TagNotFound)
    case Some(i) =>
      match Find(d, Segment(sid, FSRBModalD))
      case None => Panics(TagNotFound)
      case Some(j) => Returns([d[i], d[j]])
  }

  /** Feeding one controller from the input table `d`. */
  function FeedVisit<S>(law: Law<S>, d: seq<IO>): Visit<S>
  {
    (c: SegmentController<S>) => match Routed(d, c.sid)
         case Panics(e) => Panics(e)
         case Returns(u) => Returns(law.inputs(c.sid, c.state, u))
  }

  /** Stepping one controller. */
  function StepVisit<S>(law: Law<S>): Visit<S>
  {
    (c: SegmentController<S>) => Returns(law.step(c.sid, c.state))
  }

  /** When feeding succeeds, each controller got exactly its own command and
      rigid-body feedback entries and nothing else. */
  lemma FeedAllOk<S>(law: Law<S>, cs: seq<SegmentController<S>>, d: seq<IO>)
    requires Sweep(cs, FeedVisit(law, d)).Returns? && Sweep(cs, FeedVisit(law, d)).value.1.Ok?
    ensures forall k :: 0 <= k < |cs| ==>
      Routed(d, cs[k].sid).Returns? &&
      Sweep(cs, FeedVisit(law, d)).value.0[k] ==
        SegmentController(cs[k].sid, law.inputs(cs[k].sid, cs[k].state, Routed(d, cs[k].sid).value).0)
  {
    SweepAllOk(cs, FeedVisit(law, d));
  }

  // ---------------------------------------------------------------------
  // The aggregate

  /** The ASMS control model: the segment controllers in order and the two
      run-wide gains. */
  class ASMS<S> {
    const law: Law<S>
    var controllers: seq<SegmentController<S>>
    /** The proportional gain on the voice-coil modal forces. */
    var modalForcesGain: real
    /** The segments' fluid-damping gain. */
    var fluidDampingGain: real

    /** `ASMS::default()`, also `ASMS::new()`: the seven segments in order. */
    constructor Default(law: Law<S>)
      ensures this.law == law
      ensures |controllers| == 7
      ensures forall k :: 0 <= k < 7 ==> controllers[k] == SegmentController(k + 1, law.init(k + 1))
      ensures modalForcesGain == 0.5 && fluidDampingGain == -9.1
    {
      this.law := law;
      controllers := [
        SegmentController(1, law.init(1)),
        SegmentController(2, law.init(2)),
        SegmentController(3, law.init(3)),
        SegmentController(4, law.init(4)),
        SegmentController(5, law.init(5)),
        SegmentController(6, law.init(6)),
        SegmentController(7, law.init(7))
      ];
      modalForcesGain := DefaultModalForcesGain;
      fluidDampingGain := DefaultFluidDampingGain;
    }

    /** `From<Vec<u8>>`: one controller per id, in the order given, and the
        default gains; an id outside 1..7 panics. */
    static method From(law: Law<S>, sid: seq<u8>) returns (r: Run<ASMS<S>>)
      ensures r.Returns? <==> forall k :: 0 <= k < |sid| ==> 1 <= sid[k] <= 7
      ensures r.Panics? ==> r.reason == BadSegmentId
      ensures r.Returns? ==> fresh(r.value) && r.value.law == law
      ensures r.Returns? ==> |r.value.controllers| == |sid| && forall k :: 0 <= k < |sid| ==>
        r.value.controllers[k].sid == sid[k] && r.value.controllers[k].state == law.init(sid[k])
      ensures r.Returns? ==> r.value.modalForcesGain == 0.5 && r.value.fluidDampingGain == -9.1
    {
      var cs := ControllersFrom(law, sid);
      if cs.None? {
        return Panics(BadSegmentId);
      }
      var a := new ASMS.Default(law);
      a.controllers := cs.value;
      r := Returns(a);
    }

    /** `modal_forces_gain(g)`: only the modal-forces gain changes. */
    method ModalForcesGain(g: real)
      modifies this
      ensures modalForcesGain == g
      ensures controllers == old(controllers) && fluidDampingGain == old(fluidDampingGain)
    {
      modalForcesGain := g;
    }

    /** `outputs_tags`: controller `k`'s output tags, whole, right after
        those of the controllers before it. */
    function OutputsTags(): (r: seq<Tag>)
      reads this
      ensures TagsLaidOut(controllers, law.outputsTags, r)
    {
      TagsOfLayout(controllers, law.outputsTags);
      TagsOf(controllers, law.outputsTags)
    }

    /** `inputs_tags`: controller `k`'s input tags, whole, right after those
        of the controllers before it. */
    function InputsTags(): (r: seq<Tag>)
      reads this
      ensures TagsLaidOut(controllers, law.inputsTags, r)
    {
      TagsOfLayout(controllers, law.inputsTags);
      TagsOf(controllers, law.inputsTags)
    }

    /** `Dos::outputs`: each controller's outputs with the two gains applied,
        concatenated; `None` as soon as one controller has none. */
    method Outputs() returns (r: Run<Option<seq<IO>>>)
      ensures r == OutputsOf(law, controllers, modalForcesGain, fluidDampingGain)
    {
      var mg, fg := modalForcesGain, fluidDampingGain;
      ghost var part := Gains(law, mg, fg);
      var acc: seq<IO> := [];
      ThenNil(Collect(controllers, part));
      assert controllers[0..] == controllers;
      var k := 0;
      while k < |controllers|
        invariant 0 <= k <= |controllers|
        invariant OutputsOf(law, controllers, mg, fg) == Then(Returns(Some(acc)), Collect(controllers[k..], part))
      {
        var c := controllers[k];
        assert controllers[k..][0] == c && controllers[k..][1..] == controllers[k + 1..];
        assert Collect(controllers[k..], part) == Then(part(c), Collect(controllers[k + 1..], part));
        var y := law.outputs(c.sid, c.state);
        if y.None? {
          assert part(c) == Returns(None);
          return Returns(None);
        }
        // v[ios!(M2S<sid>FSCPModalF)] *= modal_forces_gain
        var v := ScaleEntry(y.value, Segment(c.sid, FSCPModalF), mg);
        if v.Panics? {
          assert part(c) == Panics(v.reason);
          return Panics(v.reason);
        }
        // v[ios!(M2S<sid>FSRBModalF)] *= fluid_damping_gain
        v := ScaleEntry(v.value, Segment(c.sid, FSRBModalF), fg);
        if v.Panics? {
          assert part(c) == Panics(v.reason);
          return Panics(v.reason);
        }
        assert part(c) == Returns(Some(v.value));
        ThenAssoc(Returns(Some(acc)), Returns(Some(v.value)), Collect(controllers[k + 1..], part));
        acc := acc + v.value;
        k := k + 1;
      }
      assert controllers[k..] == [] && acc + [] == acc;
      r := Returns(Some(acc));
    }

    /** `Dos::inputs`: `None` is refused without touching any controller;
        otherwise every controller is fed its own two entries of the table, in
        order, up to the first error, which is returned. */
    method Inputs(data: Option<seq<IO>>) returns (r: Run<Result<(), DosError>>)
      modifies this
      ensures modalForcesGain == old(modalForcesGain) && fluidDampingGain == old(fluidDampingGain)
      ensures data.None? ==> r == Returns(Err(DosError.Inputs(EmptyInputs))) && controllers == old(controllers)
      ensures data.Some? ==>
        match Sweep(old(controllers), FeedVisit(law, data.value))
        case Panics(e) => r == Panics(e)
        case Returns(out) => r == Returns(out.1) && controllers == out.0
    {
      if data.None? {
        return Returns(Err(DosError.Inputs(EmptyInputs)));
      }
      var d := data.value;
      ghost var visit := FeedVisit(law, d);
      ghost var cs0 := controllers;
      var k := 0;
      while k < |controllers|
        invariant |controllers| == |cs0| && 0 <= k <= |cs0|
        invariant Sweep(cs0, visit) == SweepFrom(controllers, k, visit)
        invariant modalForcesGain == old(modalForcesGain) && fluidDampingGain == old(fluidDampingGain)
      {
        var c := controllers[k];
        // vec![data[ios!(M2S<sid>Cmd)].clone(), data[ios!(M2S<sid>FSRBModalD)].clone()]
        var u := Routed(d, c.sid);
        if u.Panics? {
          assert visit(c) == Panics(u.reason);
          return Panics(u.reason);
        }
        var (s, res) := law.inputs(c.sid, c.state, u.value);
        assert visit(c) == Returns((s, res));
        controllers := controllers[k := SegmentController(c.sid, s)];
        if res.Err? {
          return Returns(res);
        }
        k := k + 1;
      }
      r := Returns(Ok(()));
    }

    /** `Iterator::next`: step every controller in order, stopping at the first
        failure; `Some(())` exactly when every step succeeded. */
    method Next() returns (r: Option<()>)
      modifies this
      ensures modalForcesGain == old(modalForcesGain) && fluidDampingGain == old(fluidDampingGain)
      ensures Sweep(old(controllers), StepVisit(law)).Returns?
      ensures controllers == Sweep(old(controllers), StepVisit(law)).value.0
      ensures r.Some? <==> Sweep(old(controllers), StepVisit(law)).value.1.Ok?
    {
      ghost var visit := StepVisit(law);
      ghost var cs0 := controllers;
      StepNeverPanics(law, cs0);
      var k := 0;
      while k < |controllers|
        invariant |controllers| == |cs0| && 0 <= k <= |cs0|
        invariant Sweep(cs0, visit) == SweepFrom(controllers, k, visit)
        invariant modalForcesGain == old(modalForcesGain) && fluidDampingGain == old(fluidDampingGain)
      {
        var c := controllers[k];
        var (s, res) := law.step(c.sid, c.state);
        assert visit(c) == Returns((s, res));
        controllers := controllers[k := SegmentController(c.sid, s)];
        if res.Err? {
          return None;
        }
        k := k + 1;
      }
      r := Some(());
    }
  }
}
