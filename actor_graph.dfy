/** The actor graphs the three entry points declare (`model` in src/lib.rs,
    `main` in src/main.rs and in src/bin/analysis/main.rs), as lists of
    outputs, with the wiring checks their authors rely on: every multiplexed
    output feeds as many consumers as it is split into, every FEM output is
    seeded by a bootstrap, so that no feedback loop waits on itself, and
    producer and consumer rates agree on every edge. */
module ActorGraph {
  import opened Telescope

  /** The types the outputs are built for (`build::<T>()`), by their names
      in the source; `SHPLC(i)` and `M1ActuatorsSegment(i)` stand for the
      seven `S<i>HPLC` and `M1ActuatorsSegment<i>`. */
  datatype Uid =
    | Weight | CFDM1WindLoads | CFDM2WindLoads | CFDMountWindLoads | MountSetPoint | MountTorques
    | M1RBMcmd | OSSHarpointDeltaF | SHPLC(sid: SegmentId) | M1ActuatorsSegment(sid: SegmentId)
    | M2poscmd | M2PositionerForces | Rrbfs | M2ASMFaceSheetForces | M2ASMRigidBodyForces | Ucp
    | MountEncoders | OSSHardpointD | M1RigidBodyMotions | M2ASMFaceSheetNodes | M2PositionerNodes
    | M2ASMRigidBodyNodes | M1ModeShapes | OSSM1EdgeSensors
    | M1Loads | OSSM1Lcl6F | M2Loads | MCM2Lcl6F | MountLoads | CFD2021106F | MCM2SmHexF
    | MCM2CP6F | MCM2RB6F | Ufs | OSSM1Lcl | MCM2Lcl6D | MCM2SmHexD | MCM2RB6D | M1ForcesOSS

  /** The actors of the three graphs; `Sink` is the logger (`sink`, `logs`). */
  datatype Actor =
    | CfdLoads | Fem | Sigmoid
    | SmoothM1Loads | SmoothM2Loads | SmoothMountLoads | Adder | Sink
    | MountSetPoint | Mount
    | M1RbmSetPoint | M1Hardpoints | M1HpLoadcells | M1Segment(sid: SegmentId)
    | M2PosCmd | M2Positionner | AsmCmd | AsmInner
    | OssForces

  /** One `add_output()` chain: who produces it, the type it is built for,
      how many ways it is split (`multiplex(n)`, 1 without it), whether it is
      `bootstrap()`ed and `unbounded()`, and the actors it goes into, loggers
      included, in the order of the chain. */
  datatype Output = Output(producer: Actor, tag: Uid, mux: nat, bootstrap: bool,
                           unbounded: bool, consumers: seq<Actor>)

  /** An output with no options and a single consumer. */
  function Plain(producer: Actor, tag: Uid, to: Actor): Output
  {
    Output(producer, tag, 1, false, false, [to])
  }

  /** A bootstrapped output with a single consumer. */
  function Seeded(producer: Actor, tag: Uid, to: Actor): Output
  {
    Output(producer, tag, 1, true, false, [to])
  }

  /** The rate of the M1 control loop, in simulation steps. */
  const M1Rate: nat := 80

  /** The input rate `NI` of `Actor<_, NI, NO>`: 1 unless declared. */
  function InRate(a: Actor): nat
  {
    if a.M1Segment? then M1Rate else 1
  }

  /** The output rate `NO` of `Actor<_, NI, NO>`: 1 unless declared. */
  function OutRate(a: Actor): nat
  {
    if a == M1HpLoadcells then M1Rate else 1
  }

  /** The output feeds exactly as many consumers as it is split into. */
  predicate MuxOk(o: Output)
  {
    |o.consumers| == o.mux
  }

  /** The output joins its producer's output rate to the same input rate of
      each consumer. */
  predicate RateOk(o: Output)
  {
    forall c :: c in o.consumers ==> OutRate(o.producer) == InRate(c)
  }

  /** The output's producer and consumers are all among `actors`. */
  predicate DeclaredIn(o: Output, actors: set<Actor>)
  {
    o.producer in actors && forall c :: c in o.consumers ==> c in actors
  }

  /** The output is bootstrapped, or `rank` goes up from its producer to
      each of its consumers. */
  predicate RankOk(o: Output, rank: Actor -> int)
  {
    o.bootstrap || forall c :: c in o.consumers ==> rank(o.producer) < rank(c)
  }

  /* A graph is a function from the names `K` of its outputs to the outputs:
     each `add_output()` chain of an entry point has its own name. */

  /** Every output feeds exactly as many consumers as it is split into. */
  ghost predicate MultiplexMatches<K(!new)>(g: K -> Output)
  {
    forall k :: MuxOk(g(k))
  }

  /** Every output of `a` is bootstrapped. */
  ghost predicate Bootstrapped<K(!new)>(g: K -> Output, a: Actor)
  {
    forall k :: g(k).producer == a ==> g(k).bootstrap
  }

  /** Every edge joins a producer's output rate to the same input rate. */
  ghost predicate RatesAgree<K(!new)>(g: K -> Output)
  {
    forall k :: RateOk(g(k))
  }

  /** Every actor of the graph is one of the actors given to `Model::new`. */
  ghost predicate Declared<K(!new)>(g: K -> Output, actors: set<Actor>)
  {
    forall k :: DeclaredIn(g(k), actors)
  }

  /** `rank` increases along every edge that is not bootstrapped: the edges
      that must wait for their producer form no cycle. */
  ghost predicate Ranked<K(!new)>(g: K -> Output, rank: Actor -> int)
  {
    forall k :: RankOk(g(k), rank)
  }

  /** One step of a walk: output `out`, to its consumer number `to`. */
  datatype Hop<K> = Hop(out: K, to: nat)

  predicate IsHop<K>(g: K -> Output, h: Hop<K>)
  {
    h.to < |g(h.out).consumers|
  }

  function Source<K>(g: K -> Output, h: Hop<K>): Actor
  {
    g(h.out).producer
  }

  function Target<K>(g: K -> Output, h: Hop<K>): Actor
    requires IsHop(g, h)
  {
    g(h.out).consumers[h.to]
  }

  /** A nonempty walk along the edges of `g` that ends where it starts. */
  predicate IsClosedWalk<K>(g: K -> Output, w: seq<Hop<K>>)
  {
    && |w| > 0
    && (forall i :: 0 <= i < |w| ==> IsHop(g, w[i]))
    && (forall i :: 0 < i < |w| ==> Source(g, w[i]) == Target(g, w[i - 1]))
    && Source(g, w[0]) == Target(g, w[|w| - 1])
  }

  /** Some step of the walk is a bootstrapped edge. */
  predicate Broken<K>(g: K -> Output, w: seq<Hop<K>>)
  {
    exists i :: 0 <= i < |w| && g(w[i].out).bootstrap
  }

  /** Along the first `n + 1` steps of a walk without bootstrapped edges the
      rank rises at every step. */
  lemma {:induction false} RankRises<K(!new)>(g: K -> Output, rank: Actor -> int, w: seq<Hop<K>>, n: nat)
    requires Ranked(g, rank) && IsClosedWalk(g, w) && n < |w|
    requires forall i :: 0 <= i <= n ==> !g(w[i].out).bootstrap
    ensures rank(Target(g, w[n])) >= rank(Source(g, w[0])) + n + 1
  {
    assert IsHop(g, w[n]) && RankOk(g(w[n].out), rank);
    assert g(w[n].out).consumers[w[n].to] in g(w[n].out).consumers;
    if n > 0 {
      RankRises(g, rank, w, n - 1);
      assert Source(g, w[n]) == Target(g, w[n - 1]);
    }
  }

  /** A ranking of the edges that wait shows that every closed walk (every
      feedback loop) of the graph crosses a bootstrapped edge. */
  lemma RankBreaksLoops<K(!new)>(g: K -> Output, rank: Actor -> int, w: seq<Hop<K>>)
    requires Ranked(g, rank) && IsClosedWalk(g, w)
    ensures Broken(g, w)
  {
    if !Broken(g, w) {
      RankRises(g, rank, w, |w| - 1);
    }
  }

  /** When every FEM output is bootstrapped, every closed walk through the
      FEM (step `k` starts or ends there) crosses a bootstrapped edge: the
      one that leaves the FEM. */
  lemma FemLoopsBroken<K(!new)>(g: K -> Output, w: seq<Hop<K>>, k: nat)
    requires Bootstrapped(g, Fem) && IsClosedWalk(g, w) && k < |w|
    requires Source(g, w[k]) == Fem || Target(g, w[k]) == Fem
    ensures Broken(g, w)
  {
    var next := if k + 1 < |w| then k + 1 else 0;
    var from := if Source(g, w[k]) == Fem then k else next;
    assert Source(g, w[from]) == Fem;
    assert g(w[from].out).bootstrap;
  }

  /** A rank under which every edge of the three graphs that is not
      bootstrapped goes up: sources, then filters and controllers, then the
      nodes they feed, then the M1 actuators, then the FEM and the logger. */
  function FeedRank(a: Actor): int
  {
    match a
    case CfdLoads => 0
    case Sigmoid => 0
    case MountSetPoint => 0
    case M1RbmSetPoint => 0
    case M2PosCmd => 0
    case AsmCmd => 0
    case SmoothM1Loads => 1
    case SmoothM2Loads => 1
    case SmoothMountLoads => 1
    case Mount => 1
    case M1Hardpoints => 1
    case M2Positionner => 1
    case AsmInner => 1
    case Adder => 2
    case M1HpLoadcells => 2
    case OssForces => 2
    case M1Segment(_) => 3
    case Fem => 4
    case Sink => 4
  }

  /** The actors given to `Model::new` by both simulation entry points. */
  function SimActors(): set<Actor>
  {
    {Actor.MountSetPoint, Mount, M1RbmSetPoint, M1Hardpoints, M1HpLoadcells,
     M1Segment(1), M1Segment(2), M1Segment(3), M1Segment(4), M1Segment(5), M1Segment(6), M1Segment(7),
     M2PosCmd, M2Positionner, AsmCmd, AsmInner, Fem, Sink, CfdLoads, Sigmoid,
     SmoothM1Loads, SmoothM2Loads, Adder, SmoothMountLoads}
  }

  /** What the authors check of each output of a simulation graph: its
      multiplex count, its rates, its actors handed to the model, the rank
      rising along it unless it is bootstrapped, and a bootstrap on it if it
      leaves the FEM. */
  predicate Wired(o: Output)
  {
    && MuxOk(o) && RateOk(o) && DeclaredIn(o, SimActors()) && RankOk(o, FeedRank)
    && (o.producer == Fem ==> o.bootstrap)
  }

  /** The outputs of the wind loads and of the mount, named alike in both
      simulation graphs. */
  datatype LoadOut =
    | SigmoidWeight | RawM1Loads | SmoothedM1Loads | RawM2Loads | SmoothedM2Loads | SummedM2Loads
    | RawMountLoads | SmoothedMountLoads | MountCmd | TorqueCmd

  /** The outputs of the M1 part, alike in both simulation graphs. */
  datatype M1Out = RbmCmd | HardpointForces | Loadcell(sid: SegmentId) | Actuator(sid: SegmentId)

  /** The outputs of the M2 positioner and of the ASM inner controller. */
  datatype M2Out = PositionerCmd | PositionerForces | AsmSetPoint | CpForces | RbForces | FaceSheetSum

  /** The M1 part: set point, hardpoints, load cells at the M1 rate, and the
      seven segment actuators, whose outputs into the FEM are bootstrapped. */
  function M1Wire(m: M1Out): (o: Output)
    ensures Wired(o)
  {
    match m
    case RbmCmd => Plain(M1RbmSetPoint, M1RBMcmd, M1Hardpoints)
    case HardpointForces => Output(M1Hardpoints, OSSHarpointDeltaF, 2, false, false, [Fem, M1HpLoadcells])
    case Loadcell(i) => Plain(M1HpLoadcells, SHPLC(i), M1Segment(i))
    case Actuator(i) => Seeded(M1Segment(i), M1ActuatorsSegment(i), Fem)
  }

  /** The wind loads of src/lib.rs: the smooth-start weight, split three
      ways, and each CFD load through its smoother, the M2 loads through the
      `Adder`; then the mount loop. */
  function LibLoadWire(l: LoadOut): (o: Output)
    ensures Wired(o)
  {
    match l
    case SigmoidWeight => Output(Sigmoid, Weight, 3, false, false, [SmoothM1Loads, SmoothM2Loads, SmoothMountLoads])
    case RawM1Loads => Plain(CfdLoads, CFDM1WindLoads, SmoothM1Loads)
    case SmoothedM1Loads => Plain(SmoothM1Loads, CFDM1WindLoads, Fem)
    case RawM2Loads => Plain(CfdLoads, CFDM2WindLoads, SmoothM2Loads)
    case SmoothedM2Loads => Plain(SmoothM2Loads, CFDM2WindLoads, Adder)
    case SummedM2Loads => Plain(Adder, CFDM2WindLoads, Fem)
    case RawMountLoads => Plain(CfdLoads, CFDMountWindLoads, SmoothMountLoads)
    case SmoothedMountLoads => Plain(SmoothMountLoads, CFDMountWindLoads, Fem)
    case MountCmd => Plain(Actor.MountSetPoint, Uid.MountSetPoint, Mount)
    case TorqueCmd => Plain(Mount, Uid.MountTorques, Fem)
  }

  /** The M2 positioner and the ASM inner controller of src/lib.rs. */
  function LibM2Wire(n: M2Out): (o: Output)
    ensures Wired(o)
  {
    match n
    case PositionerCmd => Plain(M2PosCmd, M2poscmd, M2Positionner)
    case PositionerForces => Plain(M2Positionner, M2PositionerForces, Fem)
    case AsmSetPoint => Plain(AsmCmd, Rrbfs, AsmInner)
    case CpForces => Plain(AsmInner, M2ASMFaceSheetForces, Fem)
    case RbForces => Plain(AsmInner, M2ASMRigidBodyForces, Fem)
    case FaceSheetSum => Plain(AsmInner, Ucp, Adder)
  }

  /** The FEM outputs of src/lib.rs. */
  datatype LibFemOut =
    | Encoders | HardpointD | RigidBodyMotions | FaceSheetNodes
    | PositionerNodes | RigidBodyNodes | ModeShapes | EdgeSensors

  function LibFemWire(f: LibFemOut): (o: Output)
    ensures Wired(o)
  {
    match f
    case Encoders => Seeded(Fem, Uid.MountEncoders, Mount)
    case HardpointD => Seeded(Fem, OSSHardpointD, M1HpLoadcells)
    case RigidBodyMotions => Output(Fem, M1RigidBodyMotions, 1, true, true, [Sink])
    case FaceSheetNodes => Output(Fem, M2ASMFaceSheetNodes, 2, true, true, [AsmInner, Sink])
    case PositionerNodes => Seeded(Fem, M2PositionerNodes, M2Positionner)
    case RigidBodyNodes => Seeded(Fem, M2ASMRigidBodyNodes, AsmInner)
    case ModeShapes => Output(Fem, M1ModeShapes, 1, true, true, [Sink])
    case EdgeSensors => Output(Fem, OSSM1EdgeSensors, 1, true, true, [Sink])
  }

  /** The outputs of each part of the wind-loading run (src/lib.rs). */
  datatype LibOut = LibLoad(l: LoadOut) | LibM1(m: M1Out) | LibM2(n: M2Out) | LibFem(f: LibFemOut)

  function LibWire(k: LibOut): (o: Output)
    ensures Wired(o)
  {
    match k
    case LibLoad(l) => LibLoadWire(l)
    case LibM1(m) => M1Wire(m)
    case LibM2(n) => LibM2Wire(n)
    case LibFem(f) => LibFemWire(f)
  }

  /** The wind loads of src/main.rs, wired as in src/lib.rs under other
      names; then the mount loop. */
  function MainLoadWire(l: LoadOut): (o: Output)
    ensures Wired(o)
  {
    match l
    case SigmoidWeight => Output(Sigmoid, Weight, 3, false, false, [SmoothM1Loads, SmoothM2Loads, SmoothMountLoads])
    case RawM1Loads => Plain(CfdLoads, M1Loads, SmoothM1Loads)
    case SmoothedM1Loads => Plain(SmoothM1Loads, OSSM1Lcl6F, Fem)
    case RawM2Loads => Plain(CfdLoads, M2Loads, SmoothM2Loads)
    case SmoothedM2Loads => Plain(SmoothM2Loads, M2Loads, Adder)
    case SummedM2Loads => Plain(Adder, MCM2Lcl6F, Fem)
    case RawMountLoads => Plain(CfdLoads, MountLoads, SmoothMountLoads)
    case SmoothedMountLoads => Plain(SmoothMountLoads, CFD2021106F, Fem)
    case MountCmd => Plain(Actor.MountSetPoint, Uid.MountSetPoint, Mount)
    case TorqueCmd => Plain(Mount, Uid.MountTorques, Fem)
  }

  /** The M2 positioner and the ASM inner controller of src/main.rs. */
  function MainM2Wire(n: M2Out): (o: Output)
    ensures Wired(o)
  {
    match n
    case PositionerCmd => Plain(M2PosCmd, M2poscmd, M2Positionner)
    case PositionerForces => Plain(M2Positionner, MCM2SmHexF, Fem)
    case AsmSetPoint => Plain(AsmCmd, Rrbfs, AsmInner)
    case CpForces => Plain(AsmInner, MCM2CP6F, Fem)
    case RbForces => Plain(AsmInner, MCM2RB6F, Fem)
    case FaceSheetSum => Plain(AsmInner, Ufs, Adder)
  }

  /** The FEM outputs of src/main.rs. */
  datatype MainFemOut = Encoders | HardpointD | M1Lcl | FaceSheetD | PositionerD | RigidBodyD

  function MainFemWire(f: MainFemOut): (o: Output)
    ensures Wired(o)
  {
    match f
    case Encoders => Seeded(Fem, Uid.MountEncoders, Mount)
    case HardpointD => Seeded(Fem, OSSHardpointD, M1HpLoadcells)
    case M1Lcl => Seeded(Fem, OSSM1Lcl, Sink)
    case FaceSheetD => Output(Fem, MCM2Lcl6D, 2, true, false, [AsmInner, Sink])
    case PositionerD => Seeded(Fem, MCM2SmHexD, M2Positionner)
    case RigidBodyD => Seeded(Fem, MCM2RB6D, AsmInner)
  }

  /** The outputs of the wind-loading response (src/main.rs). */
  datatype MainOut = MainLoad(l: LoadOut) | MainM1(m: M1Out) | MainM2(n: M2Out) | MainFem(f: MainFemOut)

  function MainWire(k: MainOut): (o: Output)
    ensures Wired(o)
  {
    match k
    case MainLoad(l) => MainLoadWire(l)
    case MainM1(m) => M1Wire(m)
    case MainM2(n) => MainM2Wire(n)
    case MainFem(f) => MainFemWire(f)
  }

  /** The actors given to `Model::new` by the analysis. */
  function AnalysisActors(): set<Actor>
  {
    {CfdLoads, Sink, OssForces}
  }

  /** The outputs of the CFD-loads analysis (src/bin/analysis/main.rs). */
  datatype AnalysisOut = SegmentLoads | OssLoads

  function AnalysisWire(k: AnalysisOut): (o: Output)
    ensures MuxOk(o) && RateOk(o) && DeclaredIn(o, AnalysisActors())
    ensures !o.bootstrap && RankOk(o, FeedRank)
  {
    match k
    case SegmentLoads => Output(CfdLoads, M1Loads, 2, false, true, [OssForces, Sink])
    case OssLoads => Output(OssForces, M1ForcesOSS, 1, false, true, [Sink])
  }

  /** The wiring of src/lib.rs: every multiplexed output feeds as many
      consumers as it is split into, the rates agree on every edge (the load
      cells at the M1 rate, 100 times slower than the simulation, feed the
      actuators at the M1 rate), every FEM output is bootstrapped, every
      actor is handed to the model, and the edges that wait are ranked. */
  lemma LibWiring()
    ensures MultiplexMatches(LibWire) && RatesAgree(LibWire)
    ensures SimSamplingFrequency / M1Rate == 100
    ensures Bootstrapped(LibWire, Fem) && Declared(LibWire, SimActors())
    ensures Ranked(LibWire, FeedRank)
  {
  }

  /** The same facts of src/main.rs. */
  lemma MainWiring()
    ensures MultiplexMatches(MainWire) && RatesAgree(MainWire)
    ensures SimSamplingFrequency / M1Rate == 100
    ensures Bootstrapped(MainWire, Fem) && Declared(MainWire, SimActors())
    ensures Ranked(MainWire, FeedRank)
  {
  }

  /** The analysis graph: multiplex counts and rates match, its three actors
      are handed to the model, and its edges are ranked. */
  lemma AnalysisWiring()
    ensures MultiplexMatches(AnalysisWire) && RatesAgree(AnalysisWire)
    ensures Declared(AnalysisWire, AnalysisActors()) && Ranked(AnalysisWire, FeedRank)
  {
  }

  /** Every feedback loop of the wind-loading run crosses a bootstrap. */
  lemma LibLoopsBroken(w: seq<Hop<LibOut>>)
    requires IsClosedWalk(LibWire, w)
    ensures Broken(LibWire, w)
  {
    LibWiring();
    RankBreaksLoops(LibWire, FeedRank, w);
  }

  /** Every feedback loop of the wind-loading response crosses a bootstrap. */
  lemma MainLoopsBroken(w: seq<Hop<MainOut>>)
    requires IsClosedWalk(MainWire, w)
    ensures Broken(MainWire, w)
  {
    MainWiring();
    RankBreaksLoops(MainWire, FeedRank, w);
  }

  /** The analysis graph has no closed walk: none of its edges is
      bootstrapped, and the rank rises along each. */
  lemma AnalysisAcyclic(w: seq<Hop<AnalysisOut>>)
    ensures !IsClosedWalk(AnalysisWire, w)
  {
    if IsClosedWalk(AnalysisWire, w) {
      AnalysisWiring();
      RankBreaksLoops(AnalysisWire, FeedRank, w);
    }
  }
}
