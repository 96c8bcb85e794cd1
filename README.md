# asm-im wind loading: a Dafny model

This project models the logic of the asm-im integrated-model crate that
lives in the crate itself rather than in the `dos_actors` engine it drives:

- **`ASMS`** (asm-control/src/lib.rs). It aggregates up to seven
  adaptive-secondary-mirror segment controllers behind one `Dos` interface.
  - It is built from segment ids, and an id outside 1..7 panics.
  - It routes each controller its own command and rigid-body feedback from a
    tag-indexed input table.
  - On output it scales two entries of each controller's outputs by the two
    run-wide gains, then concatenates the outputs in controller order.
  - It steps the controllers in order, stopping at the first failure.
- **The `Adder` merge nodes** of src/lib.rs and src/main.rs. Each keeps the
  last value received on each of its two inputs. It emits nothing until both
  are present, then their zip-truncated elementwise sum.
- **The smooth-start `Sigmoid` source** of src/main.rs.
- **The partition of the wind-loading run** into parts, in src/lib.rs.
- **The `fig_2_mode` reshape** of the M1 figure-to-mode matrices, in
  src/lib.rs.
- **`ForcesToOSS`** of the CFD-loads analysis (src/bin/analysis/main.rs). It
  turns each segment's 6-value force-and-moment record from the segment frame
  to the OSS frame.
- **The actor graphs** the three entry points declare, as lists of outputs,
  with the wiring facts they rely on:
  - multiplex counts match consumer counts;
  - every FEM output is bootstrapped, so every feedback loop crosses a
    bootstrap;
  - rates agree on every edge;
  - every actor is handed to `Model::new`.

How the model is laid out:

- Each Rust panic is a `Run.Panics(reason)` value. Each `Option`/`Result` of
  the source is the datatype of the same name (common.dfy), with two
  exceptions:
  - the `Result` of `geotrans::vtov` is an `Option` (`Vtov` in analysis.dfy):
    `None` stands for any `Err`, whose value the source only unwraps;
  - `AsmControl.ControllersFrom` returns `None` for the out-of-range segment
    id that panics in the source; `ASMS.From` turns it into that panic.
- Code that changes state in place is a class with `modifies` clauses:
  - `ASMS`, with methods `Outputs`, `Inputs` and `Next` that loop over the
    controllers;
  - both `Adder`s, `Sigmoid` and `ForcesToOSS`.
- The methods are proved against specification functions:
  - `OutputsOf`/`Collect` model the short-circuiting
    `collect::<Option<Vec<_>>>`;
  - `Sweep`/`SweepFrom` model `iter_mut().map(..).collect::<Result<..>>`.
  - Lemmas about these functions state the promised properties.
- Foreign code becomes parameters:
  - the Simulink-generated segment controllers are a `Law<S>` record of
    functions over an opaque state;
  - `geotrans::vtov` is any function `Vtov`;
  - `f64::exp` is any positive function.

Files:

- common.dfy: `Wrappers`, `Sequences`, and `Telescope` (the segment numbers
  1 to 7 and the 8 kHz sampling rate, shared by the other modules).
- asm_control.dfy: `AsmControl`.
- wind_loading.dfy: `WindLoading`, for src/lib.rs.
- response.dfy: `Response`, for src/main.rs.
- analysis.dfy: `Analysis`.
- actor_graph.dfy: `ActorGraph`.

## Model

| member | source | states |
|---|---|---|
| Sequences.Chunks | src/bin/analysis/main.rs:35-36 | `chunks(n)`: pieces that flattened again give back the vector, none empty, none longer than `n`, every piece but the last exactly `n` long |
| Sequences.ZipSum | src/lib.rs:45-49 | zip, add, collect: length is the shorter length, entry `k` is the sum of the two entries `k` |
| AsmControl.ControllersFrom | asm-control/src/lib.rs:74-86 | the id-to-controller map succeeds iff every id is in 1..7; then one controller per id, in input order, id `i` giving segment `i` in its initial state |
| AsmControl.TagsOf | asm-control/src/lib.rs:97-108 | the `flat_map` of a per-controller tag list over the controllers, in order; its layout is stated by `TagsOfAt` and `TagsOfLayout` |
| AsmControl.TagsOfAppend | asm-control/src/lib.rs:95-124 | the flat-mapped tags of two controller lists are those of the first followed by those of the second |
| AsmControl.TagsOfAt | asm-control/src/lib.rs:95-124 | `outputs_tags`/`inputs_tags`: controller `k`'s tags appear, whole, right after the tags of every controller before it |
| AsmControl.TagsOfLayout | asm-control/src/lib.rs:95-124 | the same layout for every controller at once: each controller's tags whole, in controller order, nothing else |
| AsmControl.ASMS.OutputsTags | asm-control/src/lib.rs:95-109 | controller `k`'s output tags appear, whole, right after those of the controllers before it, and the list holds nothing else |
| AsmControl.ASMS.InputsTags | asm-control/src/lib.rs:110-124 | controller `k`'s input tags appear, whole, right after those of the controllers before it, and the list holds nothing else |
| AsmControl.Find | asm-control/src/lib.rs:143-144 | the position `v[ios!(tag)]` resolves to exists iff some entry has the tag, and it is the first such entry |
| AsmControl.Scaled | asm-control/src/lib.rs:143-144 | `io *= g` multiplies every value by `g` and keeps the length |
| AsmControl.ScaleEntry | asm-control/src/lib.rs:143-144 | `v[ios!(t)] *= g`: a panic iff no entry is tagged `t`; otherwise the tags and length are kept, the first entry tagged `t` is scaled by `g` and every other entry is unchanged |
| AsmControl.Gained | asm-control/src/lib.rs:140-146 | the two gains on one controller's outputs: no panic iff both the `FSCPModalF` and `FSRBModalF` tags of its segment are present; then only the first `FSCPModalF` entry is scaled by the modal-forces gain, only the first `FSRBModalF` entry by the fluid-damping gain, and all tags and other entries are unchanged |
| AsmControl.SameTagsSameFirst | asm-control/src/lib.rs:143-144 | scaling the first entry does not move where the second tag resolves |
| AsmControl.ControllerOutputs | asm-control/src/lib.rs:140-147 | one arm of the `outputs` map: the controller's outputs with the two gains applied, `None` when it has none; a specification function, stated through `Gained` and `OutputsFirstNone` |
| AsmControl.Then | asm-control/src/lib.rs:196-198 | one step of `collect::<Option<Vec<_>>>()` and flattening: a `None` or a panic of the first part wins; otherwise the second part's `None` or panic wins; otherwise the two outputs concatenated |
| AsmControl.Collect | asm-control/src/lib.rs:137-198 | `map(part).collect::<Option<Vec<_>>>()` flattened; a specification function, characterised by `CollectConcat`, `CollectAppend` and `CollectFirstNone` |
| AsmControl.OutputsOf | asm-control/src/lib.rs:130-199 | `Dos::outputs` as a value: `Collect` of the gained controller outputs: `Gains` maps each controller to its `ControllerOutputs` with the CP and RB modal-force gains; characterised by `CollectConcat`, `OutputsFirstNone` and `OutputsZero`, and met by `ASMS.Outputs` |
| AsmControl.ThenNil | asm-control/src/lib.rs:137-198 | an empty collected prefix leaves the rest unchanged |
| AsmControl.ThenAssoc | asm-control/src/lib.rs:137-198 | sequencing collected parts is associative |
| AsmControl.CollectAppend | asm-control/src/lib.rs:137-198 | collecting two controller lists is the first's result, followed by the second's only if the first produced outputs |
| AsmControl.CollectShortCircuit | asm-control/src/lib.rs:137-198 | once a prefix yields `None` or panics, the controllers after it do not affect the result |
| AsmControl.CollectConcat | asm-control/src/lib.rs:137-198 | outputs are `Some` iff every controller produced some; then they are the controllers' outputs flattened in controller order |
| AsmControl.CollectFirstNone | asm-control/src/lib.rs:137-198 | the first controller that yields `None` makes the collection `None`, whatever follows |
| AsmControl.OutputsFirstNone | asm-control/src/lib.rs:137-198 | the aggregate's outputs are `None` as soon as one controller has none and all before it had some |
| AsmControl.GainedZero | asm-control/src/lib.rs:140-146 | gains keep all-zero outputs at zero |
| AsmControl.CollectZero | asm-control/src/lib.rs:137-198 | concatenation keeps all-zero outputs at zero |
| AsmControl.OutputsZero | asm-control/src/lib.rs:137-198 | when every controller outputs zeros, the aggregate does too, whatever the gains |
| AsmControl.SweepFrom | asm-control/src/lib.rs:204-251 | an in-order sweep over the controllers keeps their number and segments, and leaves the ones already passed as they were |
| AsmControl.Sweep | asm-control/src/lib.rs:204-251 | `iter_mut().map(visit).collect::<Result<Vec<()>, _>>()` from the first controller; characterised by `SweepAllOk` and `SweepFirstError`, and met by `ASMS.Inputs` and `ASMS.Next` |
| AsmControl.SweepFromAllOk | asm-control/src/lib.rs:204-251 | a sweep from `k` succeeds iff every visit from `k` on succeeds, and then each controller holds its own visit's state |
| AsmControl.SweepAllOk | asm-control/src/lib.rs:263-277 | the whole sweep succeeds iff every visit succeeds; then every controller holds its visit's state |
| AsmControl.SweepFromFirstError | asm-control/src/lib.rs:204-251 | the first failing visit from `k` on ends the sweep with its error; later controllers untouched |
| AsmControl.SweepFirstError | asm-control/src/lib.rs:204-251 | the first failing visit ends the sweep with its error: the controllers up to it hold their new states, the later ones are untouched |
| AsmControl.StepFromNeverPanics | asm-control/src/lib.rs:265-276 | a step sweep from `k` never panics |
| AsmControl.StepNeverPanics | asm-control/src/lib.rs:265-276 | only a controller error, never a panic, can stop the step sweep |
| AsmControl.Routed | asm-control/src/lib.rs:207-211 | a controller's inputs are exactly `[d[Cmd_i], d[FSRBModalD_i]]`, the first entries with those tags, and a panic iff either tag is missing |
| AsmControl.FeedVisit | asm-control/src/lib.rs:206-250 | one arm of the `inputs` map: the controller is fed its `Routed` entries, a panic when either is missing; stated through `Routed` and `FeedAllOk` |
| AsmControl.StepVisit | asm-control/src/lib.rs:267-275 | one arm of the `next` map: the controller steps and never panics; stated through `StepNeverPanics` |
| AsmControl.FeedAllOk | asm-control/src/lib.rs:201-252 | when feeding succeeds, each controller got its own two entries and nothing else |
| AsmControl.ASMS.Default | asm-control/src/lib.rs:37-53 | seven controllers for segments 1..7 in order, in their initial states; gains 0.5 and -9.1 |
| AsmControl.ASMS.From | asm-control/src/lib.rs:69-90 | a new aggregate iff every id is in 1..7, with one controller per id in input order and the default gains; otherwise the out-of-range panic |
| AsmControl.ASMS.ModalForcesGain | asm-control/src/lib.rs:61-66 | only the modal-forces gain changes |
| AsmControl.ASMS.Outputs | asm-control/src/lib.rs:130-199 | the loop over the controllers returns exactly the collected, gained, short-circuited outputs |
| AsmControl.ASMS.Inputs | asm-control/src/lib.rs:201-258 | `None` is refused with the `Inputs` error and no controller changes; otherwise the controllers and the result are those of the feeding sweep; the gains never change |
| AsmControl.ASMS.Next | asm-control/src/lib.rs:263-279 | the controllers become those of the step sweep, which never panics; `Some(())` iff every step succeeded; the gains never change |
| WindLoading.Merge | src/lib.rs:44-53 | `Some` iff both inputs are present; then length the shorter length, entry `k` the sum of the entries `k` |
| WindLoading.Adder.constructor | src/lib.rs:26-30 | nothing received yet |
| WindLoading.Adder.ReadM2Loads | src/lib.rs:32-36 | the newest wind loads replace the old ones; the control forces are untouched |
| WindLoading.Adder.ReadUcp | src/lib.rs:37-41 | the newest control forces replace the old ones; the wind loads are untouched |
| WindLoading.Adder.Write | src/lib.rs:42-55 | `None` unless both inputs were read; then the zip-truncated sum; a function of the state, so repeated writes agree |
| WindLoading.AdderUse | src/lib.rs:32-55 | a read/write sequence: no sum before both reads, repeated writes agree, a newer read replaces only its own input |
| WindLoading.Window | src/lib.rs:185-186 | the steps `[p * n_step / n_part, (p + 1) * n_step / n_part)` of part `p`, read as a half-open window; its properties are `WindowsChain` and `WindowsTile` |
| WindLoading.Parts | src/lib.rs:184-186 | the loop sets, in order, the window `[p * n_step / n_part, (p + 1) * n_step / n_part)` of each part |
| WindLoading.DivMonotone | src/lib.rs:185-186 | integer division by a positive number is monotone |
| WindLoading.WindowMonotone | src/lib.rs:185-186 | window starts never decrease with the part number |
| WindLoading.WindowsChain | src/lib.rs:184-186 | the first window starts at 0, the last stops at `n_step`, none is reversed, and each stops where the next starts |
| WindLoading.WindowsTile | src/lib.rs:184-186 | every step of the run falls in exactly one part |
| WindLoading.WindowFrom | src/lib.rs:184-186 | a step past the start of part `q` lies in some part from `q` on |
| WindLoading.RunParts | src/lib.rs:71-74 | 400 s at 8 kHz is 3,200,000 steps, in ten parts of 320,000 |
| WindLoading.Columns | src/lib.rs:64 | the column-major split of a vector into `ncols` columns of `nrows` |
| WindLoading.ColumnsAt | src/lib.rs:64 | column `j` is the slice starting at `j * nrows` |
| WindLoading.FromVec | src/lib.rs:64 | `from_vec` returns iff the vector holds exactly `nrows * ncols` values, and then a matrix of that shape |
| WindLoading.FromVecEntry | src/lib.rs:64 | entry `(i, j)` of `from_vec` is value `j * nrows + i` |
| WindLoading.InsertRows | src/lib.rs:66 | `insert_rows(at, n, val)` panics iff `at` is past the last row; otherwise it adds `n` rows and `n` rows of `val` sit at `at`, with rows above unchanged and rows below shifted down by `n` |
| WindLoading.InsertedColumns | src/lib.rs:66 | the entries of each padded column |
| WindLoading.Fig2Mode | src/lib.rs:57-68 | returns iff the file holds 162 x 602 values (segments below 7) or 151 x 579 values (segment 7); then the matrix has 162 rows and 602 or 579 columns |
| WindLoading.Fig2ModeEntry | src/lib.rs:63-67 | the values land column-major; for segment 7 the first 151 rows are the file's and the 11 added rows are zero |
| Response.Argument | src/main.rs:37 | the time argument `(i - 6000) / 8000` of write number `i`; `Weight` uses it |
| Response.Logistic | src/main.rs:39 | `(1 + exp(-5 u)).recip()` lies strictly between 0 and 1 for any positive `exp` |
| Response.Weight | src/main.rs:37-40 | the square of the logistic at `(i - 6000) / 8000` lies strictly between 0 and 1 |
| Response.Sigmoid.constructor | src/main.rs:27-29 | the count starts at 0 |
| Response.Sigmoid.Write | src/main.rs:36-41 | always `Some`, the weight of the current count, and the count goes up by exactly one, so the `n`-th write uses count `n - 1` |
| Response.SigmoidUse | src/main.rs:27-41 | three writes from a fresh source use counts 0, 1 and 2, and leave the count at 3 |
| Response.Adder.constructor | src/main.rs:44-48 | nothing received yet |
| Response.Adder.ReadM2Loads | src/main.rs:50-54 | the newest loads replace the old ones; the face-sheet forces are untouched |
| Response.Adder.ReadUfs | src/main.rs:55-59 | the newest face-sheet forces replace the old ones; the loads are untouched |
| Response.Adder.Write | src/main.rs:60-73 | `None` unless both inputs were read; then the zip-truncated sum; repeated writes agree |
| Analysis.ChunkOut | src/bin/analysis/main.rs:39-42 | one chunk converts iff it has at least 3 values and `vtov` accepts them; then it is `vtov` of the first 3 values followed by the rest unchanged |
| Analysis.Concat | src/bin/analysis/main.rs:38-44 | the flat map returns iff both parts do, and then it is their concatenation |
| Analysis.ConvertChunks | src/bin/analysis/main.rs:36-44 | `enumerate().flat_map(..).collect()` over the chunks, the first in segment `sid`; a specification function, equal to `ConvertRecords` by `ChunksAreRecords` |
| Analysis.Convert | src/bin/analysis/main.rs:34-44 | the conversion of the stored loads, segment 1 first; characterised by `ConvertReturns`, `ConvertLength` and `ConvertRecord` |
| Analysis.ConvertRecords | src/bin/analysis/main.rs:35-44 | the same conversion read record by record off the data, the last record whatever is left; a specification function |
| Analysis.ChunksAreRecords | src/bin/analysis/main.rs:35-44 | converting the 6-value chunks is converting the records read straight off the data |
| Analysis.RecordOkShift | src/bin/analysis/main.rs:37-39 | record `k + 1` of the data is record `k` after the first, in the next segment |
| Analysis.RecordAccepted | src/bin/analysis/main.rs:38-40 | a conversion that goes through accepted every record's forces, with none cut short |
| Analysis.NoShortRecord | src/bin/analysis/main.rs:40 | a conversion that goes through leaves no last record shorter than 3 |
| Analysis.AllAccepted | src/bin/analysis/main.rs:35-44 | if no record is cut below 3 and every record's forces are accepted, the conversion goes through |
| Analysis.ConvertReturns | src/bin/analysis/main.rs:35-44 | the conversion goes through iff no record is cut below its 3 forces and `vtov` accepts the forces of record `k` in segment `k + 1`, for every `k` |
| Analysis.RecordsLength | src/bin/analysis/main.rs:40-42 | with a length-preserving `vtov` the output is as long as the input |
| Analysis.ConvertLength | src/bin/analysis/main.rs:40-42 | with a length-preserving `vtov` a conversion that goes through is as long as its input |
| Analysis.SliceAfter | src/bin/analysis/main.rs:41 | a slice past a prefix is a slice of what follows |
| Analysis.DropRecord | src/bin/analysis/main.rs:36 | the slices of a later record, seen past the first one |
| Analysis.FirstRecord | src/bin/analysis/main.rs:39-42 | the first record's output is `vtov` of its forces in the first segment, then its moments unchanged |
| Analysis.RecordAt | src/bin/analysis/main.rs:37-43 | record `k` of the output is `vtov` of record `k`'s forces in segment `sid + k`, then its moments unchanged |
| Analysis.ConvertRecord | src/bin/analysis/main.rs:35-43 | with a length-preserving `vtov`, output length is input length, and record `k` of the output (offset `6k`) is `vtov` of record `k`'s 3 forces in segment `k + 1`, then record `k`'s moments unchanged |
| Analysis.ForcesToOSS.constructor | src/bin/analysis/main.rs:17-23 | the stored vector starts empty |
| Analysis.ForcesToOSS.Read | src/bin/analysis/main.rs:27-31 | the newest loads replace the stored ones |
| Analysis.ForcesToOSS.Write | src/bin/analysis/main.rs:32-47 | goes through iff no record is cut below its forces and `vtov` accepts every record's forces; then always `Some` of the conversion of the stored loads (record by record as `ConvertRecord` states), as long as the loads when `vtov` keeps lengths, the empty vector for empty loads; the stored data is only read |
| Analysis.ForcesToOSS.Len | src/bin/analysis/main.rs:48-52 | the declared size is 7 segments x 6 values |
| Analysis.WriteSize | src/bin/analysis/main.rs:32-52 | loads of the declared size 42 convert to 42 values when `vtov` keeps lengths |
| ActorGraph.RankRises | src/lib.rs:212-434 | along a walk with no bootstrapped edge, a rank that rises on every such edge rises at every step |
| ActorGraph.RankBreaksLoops | src/lib.rs:212-434 | if the edges that wait are ranked, every closed walk crosses a bootstrapped edge |
| ActorGraph.FemLoopsBroken | src/lib.rs:391-434 | when every FEM output is bootstrapped, every closed walk through the FEM crosses a bootstrapped edge |
| ActorGraph.M1Wire | src/lib.rs:278-354 | each M1 output: multiplex count equals consumers, rates agree (load cells out at 80 into actuators in at 80), actors declared, rank rises unless bootstrapped; actuator outputs into the FEM are bootstrapped |
| ActorGraph.LibLoadWire | src/lib.rs:212-276 | the sigmoid splits 3 ways into the 3 smoothers; each load edge and the mount edges satisfy the same per-output checks |
| ActorGraph.LibM2Wire | src/lib.rs:356-389 | the positioner and ASM outputs satisfy the per-output checks |
| ActorGraph.LibFemWire | src/lib.rs:391-434 | every FEM output is bootstrapped; face-sheet nodes split 2 ways into the ASM controller and the logger |
| ActorGraph.LibWire | src/lib.rs:212-434 | every output of the wind-loading run satisfies the per-output checks |
| ActorGraph.MainLoadWire | src/main.rs:145-216 | the sigmoid splits 3 ways; each load edge and the mount edges satisfy the per-output checks |
| ActorGraph.MainM2Wire | src/main.rs:295-330 | the positioner and ASM outputs satisfy the per-output checks |
| ActorGraph.MainFemWire | src/main.rs:332-362 | every FEM output is bootstrapped; `MCM2Lcl6D` splits 2 ways |
| ActorGraph.MainWire | src/main.rs:145-362 | every output of the response run satisfies the per-output checks |
| ActorGraph.AnalysisWire | src/bin/analysis/main.rs:88-101 | the analysis outputs: the loads split 2 ways into the conversion and the logger, rates agree, actors declared, no bootstrap, rank rises |
| ActorGraph.LibWiring | src/lib.rs:212-461 | every multiplex count matches its consumers, rates agree on every edge, 8000 / 80 = 100, every FEM output is bootstrapped, every actor is handed to `Model::new`, the edges that wait are ranked |
| ActorGraph.MainWiring | src/main.rs:145-389 | the same facts of the response run |
| ActorGraph.AnalysisWiring | src/bin/analysis/main.rs:88-103 | the same facts of the analysis graph |
| ActorGraph.LibLoopsBroken | src/lib.rs:391-434 | every feedback loop of the wind-loading run crosses a bootstrap |
| ActorGraph.MainLoopsBroken | src/main.rs:332-362 | every feedback loop of the response run crosses a bootstrap |
| ActorGraph.AnalysisAcyclic | src/bin/analysis/main.rs:88-101 | the analysis graph has no feedback loop at all |

## Left out

- The `dos_actors` engine is not part of this model. That covers actor
  scheduling, channels, the bounded/unbounded discipline, how a bootstrap
  seeds a channel, rate-ratio gathering, and `Model::check`/`run`. The
  graphs are modelled only as declared. `bootstrap` is read as "this edge
  does not wait for its producer", and `unbounded` is recorded but not
  interpreted.
- The Simulink-generated ASM `segment<i>` controllers are the opaque
  `Law<S>`. The other Simulink controllers (`m1_ctrl`, `m2_ctrl` and `Mount`)
  appear only as actors of the graphs; their control laws are not modelled.
  - Each `SegmentController` holds its own state. In the source a segment's
    controller keeps its state in C static variables named after the segment
    number, so two controllers of the same segment share one state: an
    aggregate built from repeated ids (`From` accepts `[1, 1]`), or two
    aggregates, alias it. The model does not capture that aliasing: it steps
    and feeds each list entry's own copy once per sweep.
  - `outputs()` of one segment is assumed to read its controller's state
    without changing it.
  - `inputs()` and `step()` return a new state beside their result.
- The FEM solver, `CfdLoads`, `Smooth` and the `Arrow` logger are external
  numerics and I/O. They appear only as actors of the graphs.
- The `LOM` tip-tilt statistics that src/main.rs computes from the logged
  data after the run are post-processing and are not part of this model.
- `geotrans::vtov` and `f64::exp` are parameters. `Segment::<M1>::new` is
  not modelled separately: `vtov` receives the segment number.
- Values are `real`. IEEE rounding is not modelled.
- dosio's `Vec<IO>[tag]` is not part of this model. It is taken to be the
  first entry with that tag, and a panic when there is none.
- The panic messages of dosio, nalgebra and slice indexing stand in for the
  libraries' exact texts.
- The environment and file access of `fig_2_mode` are I/O. The model starts
  from the values read.
- The windloads client's `start_from(a)`/`stop_after(b)` are not part of
  this model. `WindLoading.Window` assumes they select the half-open range of
  steps `[a, b)`. `WindowsTile` ("every step falls in exactly one part")
  rests on that reading: if `stop_after` were inclusive, each boundary step
  would fall in two parts.
- `usize`/`u8`/`i32` overflow is not modelled. The window arithmetic and the
  `Sigmoid` counter use unbounded integers. The constants of the run do not
  come near overflow.
- `ASMS` is not wrapped in `Arc`/`Mutex`, and the lifetimes are dropped.
- `Model::new` receives each entry point's actors as a list. The model
  keeps them as a set, so their order is not modelled.
- The gusts and batch binaries: wiring and an env-var lookup only.
- AsmControl.ASMS.ModalForcesGain: the source's builder consumes `self` and
  returns the updated aggregate. The model updates the object in place, with
  the same fields changed.
- ActorGraph.Wired: a `log`/`logn` into the logger counts as one consumer
  of the output. `logn`'s size argument is not modelled.
- Response.Weight: bounded only in (0, 1) for any positive `exp`. It does
  not state the value of `f64::exp`. The strict `< 1` holds for reals only:
  in `f64`, `1 + exp(-5u)` rounds to 1 once `u` passes about 7.3, i.e. after
  about 64,780 writes, so within the 80,000-step run the source's weight
  becomes exactly 1.0.
