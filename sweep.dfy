/** The measure loop of `Single_Qubit` (directive/manipulate.py), and the
    four-channel loop of `Qubits`, as an ordered protocol of instrument
    actions. The instruments are abstract: every action the generator takes
    on them is an `Event` appended to a trace, and every buffer it yields is
    an `Emit` event. The acquisition, the job registry and the demodulation
    step are parameters (`Env`). */
module Sweep {
  import opened Wrappers
  import opened Sizing
  import opened Indexing
  import opened Text
  import opened Score
  import opened PostProcessing

  /** The names of the three physical axes of the C-Structure. */
  const FluxBias: string := "Flux-Bias"
  const XyFrequency: string := "XY-LO-Frequency"
  const RoFrequency: string := "RO-LO-Frequency"

  /** A parameter whose data holds this entry is optional: its instrument is
      neither initiated, driven nor closed. */
  const OptionalMark: string := "opt"

  /** The local-oscillator type list that gets a second output turned off. */
  const DualOutputTypes: string := "DDSLO,..."

  datatype Variant = SingleQubit | Qubits

  /** A DAC slot of the wiring: its driver type (`TKAWG`, `SDAWG`, ...) and
      the channel numbers wired to it. */
  datatype Slot = Slot(dacType: string, channels: seq<nat>)

  /** The two signal generators: `SG[0]` drives the XY tone, `SG[1]` the readout. */
  datatype Lo = Xy | Ro

  datatype Instrument = Dc | Sg(lo: Lo) | Dac(slot: nat) | Adc

  /** `update_settings` of a score composed in the loop. */
  datatype Settings = Settings(master: bool, clearQ: bool)

  datatype Event =
    | Initiate(inst: Instrument)
    | DcOutput(on: bool)
    | BiasSweep(value: string, currentMode: bool)
    | LoPower(lo: Lo)
    | LoOutput(lo: Lo, action: string, on: bool)
    | LoFrequency(lo: Lo, value: string, action: string)
    | DacClock(slot: nat)
    | DacClear(slot: nat)
    | DacAllOff(slot: nat, off: bool)
    | DacPrepare(slot: nat, channel: nat, master: bool)
    | DacComposeIdle(slot: nat, channel: nat, markerOption: nat)
    | DacCompose(slot: nat, channel: nat, score: string, marker: nat, settings: Option<Settings>)
    | DacReady(slot: nat)
    | DacPlay(slot: nat)
    | AdcConfigure(totalPoints: nat, cycles: nat)
    | Acquire(index: nat)
    | Emit(index: nat, data: Trace)
    | Close(inst: Instrument)
    | QueueOut

  /** The inputs of a run: the structure (C-Structure then the R-JSON keys),
      each parameter's data as text, the score template, the DAC wiring, the
      driver types and the perimeter entries the loop reads. */
  datatype Config = Config(
    variant: Variant,
    structure: seq<string>,
    data: map<string, seq<string>>,
    template: ScoreMap,
    slots: seq<Slot>,
    dcType: string,
    roLoType: string,
    biasCurrentMode: bool,
    readoutType: string,
    demod: string,
    recordSum: nat,
    recordTimeNs: nat,
    resolutionNs: nat,
    roCompensateMHz: real,
    resumePoint: nat)

  /** What the generator learns from outside: the record the ADC returns at
      each index, whether the job is still listed after each index, and the
      demodulation step. */
  datatype Env = Env(acquire: nat -> Trace, listed: nat -> bool, baseband: Baseband)

  /** Every parameter the run reads has data. */
  predicate Named(cfg: Config)
  {
    && FluxBias in cfg.data && XyFrequency in cfg.data && RoFrequency in cfg.data
    && forall j :: 0 <= j < |cfg.structure| ==> cfg.structure[j] in cfg.data
  }

  predicate Optional(cfg: Config, name: string)
    requires name in cfg.data
  {
    OptionalMark in cfg.data[name]
  }

  /** The score keys of the wired channels, in wiring order: `CH<slot>-<ch>`
      for every slot of Single_Qubit, `CH1` to `CH4` for Qubits. */
  function SlotChannels(slots: seq<Slot>, n: nat): seq<Channel>
    requires n <= |slots|
  {
    if n == 0 then []
    else
      var chs := slots[n - 1].channels;
      SlotChannels(slots, n - 1) + seq(|chs|, k requires 0 <= k < |chs| => Slotted(n, chs[k]))
  }

  function Chans(cfg: Config): seq<Channel>
  {
    match cfg.variant
    case SingleQubit => SlotChannels(cfg.slots, |cfg.slots|)
    case Qubits => [Numbered(1), Numbered(2), Numbered(3), Numbered(4)]
  }

  /** The score map has an entry for every wired channel. */
  predicate Keyed(score: ScoreMap, cfg: Config)
  {
    match cfg.variant
    case SingleQubit =>
      forall s, k :: 0 <= s < |cfg.slots| && 0 <= k < |cfg.slots[s].channels| ==>
        Slotted(s + 1, cfg.slots[s].channels[k]) in score
    case Qubits => forall ch: nat :: 1 <= ch <= 4 ==> Numbered(ch) in score
  }

  predicate WellFormed(cfg: Config)
  {
    Named(cfg) && Keyed(cfg.template, cfg)
  }

  /** `cstructure`: the number of values of every axis. */
  function Counts(cfg: Config): (c: seq<nat>)
    requires Named(cfg)
    ensures |c| == |cfg.structure|
  {
    seq(|cfg.structure|, j requires 0 <= j < |cfg.structure| => |cfg.data[cfg.structure[j]]|)
  }

  /** What the measure loop needs, fixed before it starts. */
  datatype Plan = Plan(counts: seq<nat>, lo: nat, hi: nat, shape: Shape)

  /** A plan of the configuration; an index range that is not empty implies
      that no axis is empty, as in `PlanOf`. */
  predicate Ready(cfg: Config, plan: Plan)
  {
    WellFormed(cfg) && plan.counts == Counts(cfg) && (plan.lo < plan.hi ==> Positive(plan.counts))
  }

  /** A configuration together with its plan. */
  datatype Job = Job(cfg: Config, plan: Plan)

  /** A job whose plan is a plan of its configuration. */
  type ReadyJob = job: Job | Ready(job.cfg, job.plan) witness IdleJob

  /** The job of a configuration with no axis, no channel and an empty range. */
  const IdleJob: Job :=
    Job(Config(SingleQubit, [], map[FluxBias := [], XyFrequency := [], RoFrequency := []], map[], [],
               "", "", false, "", "", 0, 0, 0, 0.0, 0),
        Plan([], 0, 0, Shape(Averaged, "", 0, 0, 0)))

  /** The last index the loop can reach; `range(lo, hi)` is empty when `hi <= lo`. */
  function LoopEnd(plan: Plan): nat
  {
    if plan.lo <= plan.hi then plan.hi else plan.lo
  }

  /** The action string of the readout oscillator's frequency and output calls. */
  function RoAction(v: Variant): string
  {
    if v == SingleQubit then "Set_" else "Set"
  }

  /** The axis data of a run, its counts, and a coordinate tuple of them. */
  predicate Addressed(cfg: Config, counts: seq<nat>, address: seq<nat>)
  {
    Named(cfg) && counts == Counts(cfg) && Positive(counts) && Within(address, counts)
  }

  /** The hardware write of axis `j` at index `i`: only when the axis is
      refreshed and is one of the three physical axes whose data is not optional. */
  function Drive(cfg: Config, counts: seq<nat>, address: seq<nat>, i: nat, first: nat, j: nat): seq<Event>
    requires Addressed(cfg, counts, address) && j < |counts|
  {
    if !Refreshed(counts, i, j, first) then []
    else
      var name := cfg.structure[j];
      var value := cfg.data[name][address[j]];
      if name == FluxBias then
        if Optional(cfg, FluxBias) then [] else [BiasSweep(value, cfg.biasCurrentMode)]
      else if name == XyFrequency then
        if Optional(cfg, XyFrequency) then [] else [LoFrequency(Xy, value, "Set")]
      else if name == RoFrequency then
        if Optional(cfg, RoFrequency) then [] else [LoFrequency(Ro, value, RoAction(cfg.variant))]
      else []
  }

  /** The hardware writes of axes `< j` at index `i`, whose coordinate tuple
      is `address`, outermost first. */
  function DrivesUpTo(cfg: Config, counts: seq<nat>, address: seq<nat>, i: nat, first: nat, j: nat): seq<Event>
    requires Addressed(cfg, counts, address) && j <= |counts|
  {
    if j == 0 then [] else DrivesUpTo(cfg, counts, address, i, first, j - 1) + Drive(cfg, counts, address, i, first, j - 1)
  }

  /** The action string of a frequency write to an oscillator. */
  function FrequencyAction(cfg: Config, lo: Lo): string
  {
    if lo == Xy then "Set" else RoAction(cfg.variant)
  }

  /** Axis `j` writes `e` at index `i`: the axis is refreshed, it names the
      physical quantity `e` sets, that quantity's data is not optional, and
      `e` carries the axis's value at coordinate `address[j]`. */
  predicate WritesAt(cfg: Config, counts: seq<nat>, address: seq<nat>, i: nat, first: nat, j: nat, e: Event)
    requires Addressed(cfg, counts, address) && j < |counts|
  {
    var name := cfg.structure[j];
    && Refreshed(counts, i, j, first)
    && (match e
        case BiasSweep(value, mode) =>
          name == FluxBias && !Optional(cfg, FluxBias) && value == cfg.data[name][address[j]]
          && mode == cfg.biasCurrentMode
        case LoFrequency(lo, value, action) =>
          name == AxisOf(lo) && !Optional(cfg, name) && value == cfg.data[name][address[j]]
          && action == FrequencyAction(cfg, lo)
        case _ => false)
  }

  /** One axis's write is exactly what `WritesAt` says. */
  lemma DriveWrites(cfg: Config, counts: seq<nat>, address: seq<nat>, i: nat, first: nat, j: nat, e: Event)
    requires Addressed(cfg, counts, address) && j < |counts|
    ensures e in Drive(cfg, counts, address, i, first, j) <==> WritesAt(cfg, counts, address, i, first, j, e)
  {
  }

  /** The events of `parts`, one part after the other. */
  function Concat(parts: seq<seq<Event>>): seq<Event>
  {
    if parts == [] then [] else Concat(parts[..|parts| - 1]) + parts[|parts| - 1]
  }

  /** An event is in a concatenation exactly when it is in one of the parts. */
  lemma {:induction false} ConcatMembers(parts: seq<seq<Event>>, e: Event)
    ensures e in Concat(parts) <==> exists j :: 0 <= j < |parts| && e in parts[j]
  {
    if parts != [] {
      var init := parts[..|parts| - 1];
      ConcatMembers(init, e);
      if exists j :: 0 <= j < |parts| && e in parts[j] {
        var j :| 0 <= j < |parts| && e in parts[j];
        if j < |parts| - 1 {
          assert init[j] == parts[j];
        }
      }
    }
  }

  /** The writes of each of the first `n` axes. */
  function DriveParts(cfg: Config, counts: seq<nat>, address: seq<nat>, i: nat, first: nat, n: nat): (parts: seq<seq<Event>>)
    requires Addressed(cfg, counts, address) && n <= |counts|
    ensures |parts| == n
    ensures forall j :: 0 <= j < n ==> parts[j] == Drive(cfg, counts, address, i, first, j)
  {
    if n == 0 then [] else DriveParts(cfg, counts, address, i, first, n - 1) + [Drive(cfg, counts, address, i, first, n - 1)]
  }

  /** The axis loop's writes are the concatenation of each axis's writes. */
  lemma {:induction false} DrivesConcat(cfg: Config, counts: seq<nat>, address: seq<nat>, i: nat, first: nat, n: nat)
    requires Addressed(cfg, counts, address) && n <= |counts|
    ensures DrivesUpTo(cfg, counts, address, i, first, n) == Concat(DriveParts(cfg, counts, address, i, first, n))
  {
    if n > 0 {
      DrivesConcat(cfg, counts, address, i, first, n - 1);
      var parts := DriveParts(cfg, counts, address, i, first, n);
      assert parts[..n - 1] == DriveParts(cfg, counts, address, i, first, n - 1);
    }
  }

  /** The axis loop of an index issues exactly the writes of its refreshed,
      non-optional physical axes, each with the value at the axis's coordinate. */
  lemma DrivesWrite(cfg: Config, counts: seq<nat>, address: seq<nat>, i: nat, first: nat, n: nat, e: Event)
    requires Addressed(cfg, counts, address) && n <= |counts|
    ensures e in DrivesUpTo(cfg, counts, address, i, first, n)
            <==> exists j :: 0 <= j < n && WritesAt(cfg, counts, address, i, first, j, e)
  {
    var parts := DriveParts(cfg, counts, address, i, first, n);
    DrivesConcat(cfg, counts, address, i, first, n);
    ConcatMembers(parts, e);
    forall j | 0 <= j < n
      ensures e in parts[j] <==> WritesAt(cfg, counts, address, i, first, j, e)
    {
      DriveWrites(cfg, counts, address, i, first, j, e);
    }
  }

  /** The text of every axis's value at index `i`. */
  function AxisValues(cfg: Config, counts: seq<nat>, i: nat): (v: seq<string>)
    requires Named(cfg) && counts == Counts(cfg) && Positive(counts)
    ensures |v| == |cfg.structure|
  {
    var a := Address(i, counts);
    seq(|cfg.structure|, j requires 0 <= j < |cfg.structure| => cfg.data[cfg.structure[j]][a[j]])
  }

  /** SCORE_DEFINED at index `i`. */
  function ScoreAt(cfg: Config, counts: seq<nat>, i: nat): (score: ScoreMap)
    requires WellFormed(cfg) && counts == Counts(cfg) && Positive(counts)
    ensures score.Keys == cfg.template.Keys
  {
    KeyedIsWired(cfg.template, cfg);
    Materialised(cfg.template, cfg.structure, AxisValues(cfg, counts, i), Chans(cfg))
  }

  /** The marker of slot `s`'s scores: the PIN switch (7) on an SDAWG master, else 2. */
  function Marker(cfg: Config, s: nat): nat
    requires s < |cfg.slots|
  {
    if s == 0 && Contains(cfg.slots[s].dacType, "SDAWG") then 7 else 2
  }

  /** Slot 0 is the master; `clearQ` is set on a slot of four channels. */
  function SlotSettings(cfg: Config, s: nat): Settings
    requires s < |cfg.slots|
  {
    Settings(s == 0, |cfg.slots[s].channels| == 4)
  }

  /** The scores composed onto the first `k` channels of slot `s`. */
  function SlotComposes(cfg: Config, score: ScoreMap, s: nat, k: nat): seq<Event>
    requires cfg.variant == SingleQubit && Keyed(score, cfg) && s < |cfg.slots| && k <= |cfg.slots[s].channels|
  {
    if k == 0 then []
    else
      var ch := cfg.slots[s].channels[k - 1];
      SlotComposes(cfg, score, s, k - 1)
        + [DacCompose(s, ch, score[Slotted(s + 1, ch)], Marker(cfg, s), Some(SlotSettings(cfg, s)))]
  }

  /** Every channel of slots `< n` composed, each slot then made ready. */
  function ComposeSlots(cfg: Config, score: ScoreMap, n: nat): seq<Event>
    requires cfg.variant == SingleQubit && Keyed(score, cfg) && n <= |cfg.slots|
  {
    if n == 0 then []
    else ComposeSlots(cfg, score, n - 1) + SlotComposes(cfg, score, n - 1, |cfg.slots[n - 1].channels|) + [DacReady(n - 1)]
  }

  /** Channels `1..n` of the single Qubits DAC composed with marker 2. */
  function QubitsComposes(score: ScoreMap, n: nat): seq<Event>
    requires n <= 4 && forall ch: nat :: 1 <= ch <= 4 ==> Numbered(ch) in score
  {
    if n == 0 then [] else QubitsComposes(score, n - 1) + [DacCompose(0, n, score[Numbered(n)], 2, None)]
  }

  /** The per-index DAC block: compose every wired channel, then ready. */
  function ComposeEvents(cfg: Config, score: ScoreMap): seq<Event>
    requires Keyed(score, cfg)
  {
    match cfg.variant
    case SingleQubit => ComposeSlots(cfg, score, |cfg.slots|)
    case Qubits => QubitsComposes(score, 4) + [DacReady(0)]
  }

  /** How the loop stands: still running, or stopped by a shape mismatch or
      by the job leaving the queue at an index. */
  datatype Stop = Running | MismatchAt(index: nat) | CancelledAt(index: nat)

  datatype LoopState = LoopState(trace: seq<Event>, stop: Stop)

  /** The loop body's actions at index `i` before its yield: the axis writes,
      the scores, and the acquisition. */
  function IndexEvents(job: ReadyJob, i: nat): seq<Event>
    requires Positive(job.plan.counts)
  {
    var cfg, counts := job.cfg, job.plan.counts;
    DrivesUpTo(cfg, counts, Address(i, counts), i, job.plan.lo, |counts|) + ComposeEvents(cfg, ScoreAt(cfg, counts, i)) + [Acquire(i)]
  }

  /** The end of the loop body: a buffer of the wrong shape breaks the loop,
      a processed buffer is yielded while the job is listed, and the loop
      breaks when it is not. */
  function Yield(pre: seq<Event>, processed: Processed, listed: bool, i: nat): LoopState
  {
    match processed
    case Mismatch => LoopState(pre, MismatchAt(i))
    case Buffer(d) => if listed then LoopState(pre + [Emit(i, d)], Running) else LoopState(pre, CancelledAt(i))
  }

  /** One pass of the loop body at index `i`, post-processing the record as `reading` says. */
  function IndexStep(job: ReadyJob, env: Env, i: nat, reading: Reading := Corrected): LoopState
    requires Positive(job.plan.counts)
  {
    Yield(IndexEvents(job, i), ProcessBy(reading, job.plan.shape, env.baseband, env.acquire(i)), env.listed(i), i)
  }

  /** The loop before index `k`: nothing has run at `lo`, and otherwise it is
      the loop after visiting `k - 1`. */
  function RunUpTo(job: ReadyJob, env: Env, k: nat, reading: Reading := Corrected): LoopState
    requires job.plan.lo <= k <= LoopEnd(job.plan)
    decreases k, 0
  {
    if k == job.plan.lo then LoopState([], Running) else Visited(job, env, k - 1, reading)
  }

  /** The loop after visiting index `i`: unchanged when an earlier index broke it. */
  function Visited(job: ReadyJob, env: Env, i: nat, reading: Reading := Corrected): LoopState
    requires job.plan.lo <= i < LoopEnd(job.plan)
    decreases i, 2
  {
    if RunUpTo(job, env, i, reading).stop != Running then RunUpTo(job, env, i, reading) else Continued(job, env, i, reading)
  }

  /** The loop after index `i` when it still ran there: the body's actions at
      `i` appended, and its break, if any. */
  function Continued(job: ReadyJob, env: Env, i: nat, reading: Reading := Corrected): LoopState
    requires job.plan.lo <= i < LoopEnd(job.plan)
    decreases i, 1
  {
    var st := RunUpTo(job, env, i, reading);
    var step := IndexStep(job, env, i, reading);
    LoopState(st.trace + step.trace, step.stop)
  }

  /** The whole measure loop. */
  function MeasureSpec(job: ReadyJob, env: Env, reading: Reading := Corrected): LoopState
  {
    RunUpTo(job, env, LoopEnd(job.plan), reading)
  }

  /** Whether the job id is still listed at the teardown: only the poll after
      each index changes the list, and a poll that finds it gone breaks the loop. */
  predicate StillListed(stop: Stop)
  {
    !stop.CancelledAt?
  }

  function DacsOff(n: nat): seq<Event>
  {
    if n == 0 then [] else DacsOff(n - 1) + [DacAllOff(n - 1, true), Close(Dac(n - 1))]
  }

  function RoOff(cfg: Config): seq<Event>
    requires Named(cfg)
  {
    if Optional(cfg, RoFrequency) then []
    else
      [LoOutput(Ro, RoAction(cfg.variant), false)]
        + (if cfg.variant == SingleQubit && Contains(DualOutputTypes, cfg.roLoType) then [LoOutput(Ro, "Set_2", false)] else [])
        + [Close(Sg(Ro))]
  }

  function XyOff(cfg: Config): seq<Event>
    requires Named(cfg)
  {
    if Optional(cfg, XyFrequency) then [] else [LoOutput(Xy, "Set", false), Close(Sg(Xy))]
  }

  function DcOff(cfg: Config): seq<Event>
    requires Named(cfg)
  {
    if Optional(cfg, FluxBias) then [] else [DcOutput(false), Close(Dc)]
  }

  function QueueOutIf(stop: Stop): seq<Event>
  {
    if StillListed(stop) then [QueueOut] else []
  }

  /** The block after the loop: close the ADC, turn off and close the DACs,
      then each optional-guarded oscillator and the bias source, then queue out. */
  function TeardownEvents(cfg: Config, stop: Stop): seq<Event>
    requires Named(cfg)
  {
    var dacs := if cfg.variant == SingleQubit then DacsOff(|cfg.slots|) else DacsOff(1);
    [Close(Adc)] + dacs + RoOff(cfg) + XyOff(cfg) + DcOff(cfg) + QueueOutIf(stop)
  }

  /** Some index of the trace swept the bias, which binds `sweeprate`. */
  predicate BiasSwept(trace: seq<Event>)
  {
    exists k :: 0 <= k < |trace| && trace[k].BiasSweep?
  }

  /** The teardown as written: the bias source's close passes `sweeprate`,
      which only a bias sweep in the loop assigns, so with a non-optional bias
      and no sweep the close raises UnboundLocalError after the bias output
      was turned off, and neither the close nor the queue-out happens. */
  function TeardownAsWritten(cfg: Config, stop: Stop, swept: bool): (seq<Event>, Outcome)
    requires Named(cfg)
  {
    var dacs := if cfg.variant == SingleQubit then DacsOff(|cfg.slots|) else DacsOff(1);
    var head := [Close(Adc)] + dacs + RoOff(cfg) + XyOff(cfg);
    if !Optional(cfg, FluxBias) && !swept then (head + [DcOutput(false)], Crashed(UnboundSweepRate))
    else (head + DcOff(cfg) + QueueOutIf(stop), Finished(stop))
  }

  /** The loop and the teardown as written: the records are processed as
      written (`ProcessAsWritten`) and the bias close reads `sweeprate`. */
  function MeasureAndCloseAsWritten(job: ReadyJob, env: Env): (seq<Event>, Outcome)
  {
    var st := MeasureSpec(job, env, AsWritten);
    var td := TeardownAsWritten(job.cfg, st.stop, BiasSwept(st.trace));
    (st.trace + td.0, td.1)
  }

  /** The loop and the teardown, from a completed setup. */
  function MeasureAndCloseSpec(job: ReadyJob, env: Env): LoopState
  {
    var st := MeasureSpec(job, env);
    LoopState(st.trace + TeardownEvents(job.cfg, st.stop), st.stop)
  }

  /** ASCII `str.upper()`. */
  function Upper(s: string): (u: string)
    ensures |u| == |s|
  {
    seq(|s|, k requires 0 <= k < |s| => if 'a' <= s[k] <= 'z' then (s[k] as int - 32) as char else s[k])
  }

  /** A `DUMMY` bias driver is never imported, so a bias that is not optional
      fails on its first call. */
  predicate DummyBias(cfg: Config)
    requires Named(cfg)
  {
    !Optional(cfg, FluxBias) && Contains(Upper(cfg.dcType), "DUMMY")
  }

  function DcSetup(cfg: Config): seq<Event>
    requires Named(cfg)
  {
    if Optional(cfg, FluxBias) then [] else [Initiate(Dc), DcOutput(true)]
  }

  function AxisOf(lo: Lo): string
  {
    if lo == Xy then XyFrequency else RoFrequency
  }

  function LoSetup(cfg: Config, lo: Lo): seq<Event>
    requires Named(cfg)
  {
    if Optional(cfg, AxisOf(lo)) then [] else [Initiate(Sg(lo)), LoPower(lo), LoOutput(lo, "Set", true)]
  }

  /** The first `k` channels of slot `s` prepared; the first slot is the master. */
  function Prepares(cfg: Config, s: nat, k: nat): seq<Event>
    requires s < |cfg.slots| && k <= |cfg.slots[s].channels|
  {
    if k == 0 then [] else Prepares(cfg, s, k - 1) + [DacPrepare(s, cfg.slots[s].channels[k - 1], s == 0)]
  }

  /** The idle score composed onto the first `k` channels of slot `s`
      (marker option 7 on the first slot, 0 on the others). */
  function Idles(cfg: Config, s: nat, k: nat): seq<Event>
    requires s < |cfg.slots| && k <= |cfg.slots[s].channels|
  {
    if k == 0 then []
    else Idles(cfg, s, k - 1) + [DacComposeIdle(s, cfg.slots[s].channels[k - 1], if s == 0 then 7 else 0)]
  }

  function SlotSetup(cfg: Config, s: nat): seq<Event>
    requires s < |cfg.slots|
  {
    var n := |cfg.slots[s].channels|;
    [Initiate(Dac(s)), DacClock(s), DacClear(s), DacAllOff(s, true)]
      + Prepares(cfg, s, n) + Idles(cfg, s, n)
      + [DacAllOff(s, false), DacReady(s), DacPlay(s)]
  }

  function SlotsSetup(cfg: Config, n: nat): seq<Event>
    requires n <= |cfg.slots|
  {
    if n == 0 then [] else SlotsSetup(cfg, n - 1) + SlotSetup(cfg, n - 1)
  }

  /** The pre-loop settings of Single_Qubit up to the ADC's initiation. */
  function SetupEvents(cfg: Config): seq<Event>
    requires Named(cfg)
  {
    DcSetup(cfg) + LoSetup(cfg, Xy) + LoSetup(cfg, Ro) + SlotsSetup(cfg, |cfg.slots|) + [Initiate(Adc)]
  }

  /** The exceptions that end a run without its teardown. */
  datatype Crash = DummyBiasSource | ZeroResolution | ZeroBufferSize | UnboundSweepRate

  datatype Outcome = Finished(stop: Stop) | Crashed(reason: Crash)

  /** The plan of a configuration once TOTAL_POINTS and the buffer size are known. */
  function PlanFor(cfg: Config, totalPoints: nat, range: Range): Plan
    requires Named(cfg)
  {
    var shape := Shape(ReadoutOf(cfg.readoutType), cfg.demod, cfg.recordSum, totalPoints,
                       SkipPoints(cfg.demod, cfg.roCompensateMHz).points);
    Plan(Counts(cfg), range.lo, range.hi, shape)
  }

  /** The job of a sized run. */
  function SizedJob(cfg: Config, tp: nat, range: Range): ReadyJob
    requires WellFormed(cfg)
    requires var bs := BufferSize(ReadoutOf(cfg.readoutType), cfg.recordSum, tp);
             MeasureRange(cfg.resumePoint, bs, DataSize(Counts(cfg), bs)) == Some(range)
  {
    PlanReady(cfg, tp, range);
    Job(cfg, PlanFor(cfg, tp, range))
  }

  /** What follows the setup: sizing the record, configuring the ADC, the
      loop and the teardown. */
  function Measured(cfg: Config, env: Env): (seq<Event>, Outcome)
    requires WellFormed(cfg)
  {
    match TotalPoints(cfg.recordTimeNs, cfg.resolutionNs)
    case None => ([], Crashed(ZeroResolution))
    case Some(tp) =>
      var bs := BufferSize(ReadoutOf(cfg.readoutType), cfg.recordSum, tp);
      match MeasureRange(cfg.resumePoint, bs, DataSize(Counts(cfg), bs))
      case None => ([AdcConfigure(tp, cfg.recordSum)], Crashed(ZeroBufferSize))
      case Some(range) =>
        var st := MeasureAndCloseSpec(SizedJob(cfg, tp, range), env);
        ([AdcConfigure(tp, cfg.recordSum)] + st.trace, Finished(st.stop))
  }

  /** A run of Single_Qubit: setup, sizing, the loop and the teardown. */
  function RunSpec(cfg: Config, env: Env): (seq<Event>, Outcome)
    requires WellFormed(cfg) && cfg.variant == SingleQubit
  {
    if DummyBias(cfg) then ([], Crashed(DummyBiasSource))
    else
      var rest := Measured(cfg, env);
      (SetupEvents(cfg) + rest.0, rest.1)
  }

  /** `Measured` with the loop and teardown as written. */
  function MeasuredAsWritten(cfg: Config, env: Env): (seq<Event>, Outcome)
    requires WellFormed(cfg)
  {
    match TotalPoints(cfg.recordTimeNs, cfg.resolutionNs)
    case None => ([], Crashed(ZeroResolution))
    case Some(tp) =>
      var bs := BufferSize(ReadoutOf(cfg.readoutType), cfg.recordSum, tp);
      match MeasureRange(cfg.resumePoint, bs, DataSize(Counts(cfg), bs))
      case None => ([AdcConfigure(tp, cfg.recordSum)], Crashed(ZeroBufferSize))
      case Some(range) =>
        var r := MeasureAndCloseAsWritten(SizedJob(cfg, tp, range), env);
        ([AdcConfigure(tp, cfg.recordSum)] + r.0, r.1)
  }

  /** A run of Single_Qubit as written: the processing and the teardown as written. */
  function RunAsWritten(cfg: Config, env: Env): (seq<Event>, Outcome)
    requires WellFormed(cfg) && cfg.variant == SingleQubit
  {
    if DummyBias(cfg) then ([], Crashed(DummyBiasSource))
    else
      var rest := MeasuredAsWritten(cfg, env);
      (SetupEvents(cfg) + rest.0, rest.1)
  }

  /** A loop range from the sizing rules is empty when some axis is empty. */
  lemma PlanReady(cfg: Config, tp: nat, range: Range)
    requires WellFormed(cfg)
    requires var bs := BufferSize(ReadoutOf(cfg.readoutType), cfg.recordSum, tp);
             MeasureRange(cfg.resumePoint, bs, DataSize(Counts(cfg), bs)) == Some(range)
    ensures Ready(cfg, PlanFor(cfg, tp, range))
  {
    var counts := Counts(cfg);
    var bs := BufferSize(ReadoutOf(cfg.readoutType), cfg.recordSum, tp);
    SweepLength(counts, bs, cfg.resumePoint);
    ProdZero(counts);
    if range.lo < range.hi {
      forall k | 0 <= k < |counts| ensures counts[k] > 0 {
      }
    }
  }

  /** Keys for every wired slot channel are keys for every channel of `Chans`. */
  lemma KeyedIsWired(score: ScoreMap, cfg: Config)
    requires Keyed(score, cfg)
    ensures Wired(score, Chans(cfg))
  {
    if cfg.variant == SingleQubit {
      SlotChannelsKeyed(score, cfg, |cfg.slots|);
    }
  }

  lemma {:induction false} SlotChannelsKeyed(score: ScoreMap, cfg: Config, n: nat)
    requires cfg.variant == SingleQubit && Keyed(score, cfg) && n <= |cfg.slots|
    ensures Wired(score, SlotChannels(cfg.slots, n))
  {
    if n > 0 {
      SlotChannelsKeyed(score, cfg, n - 1);
      var chs := cfg.slots[n - 1].channels;
      var tail := seq(|chs|, k requires 0 <= k < |chs| => Slotted(n, chs[k]));
      forall c | c in tail ensures c in score {
        var k :| 0 <= k < |chs| && tail[k] == c;
        assert c == Slotted((n - 1) + 1, cfg.slots[n - 1].channels[k]);
      }
    }
  }

  // ---------------------------------------------------------------------
  // The generator's code, step by step.

  /** The pre-loop settings: bias source, the two oscillators, every DAC slot
      and its channels, then the ADC. */
  method SetupInstruments(cfg: Config) returns (trace: seq<Event>)
    requires Named(cfg)
    ensures trace == SetupEvents(cfg)
  {
    var dc: seq<Event> := [];
    if OptionalMark !in cfg.data[FluxBias] {
      dc := [Initiate(Dc), DcOutput(true)];
    }
    var los := [Xy, Ro];
    var sgs: seq<seq<Event>> := [];
    for g := 0 to 2
      invariant |sgs| == g && forall h :: 0 <= h < g ==> sgs[h] == LoSetup(cfg, los[h])
    {
      var lo := los[g];
      var sg: seq<Event> := [];
      if OptionalMark !in cfg.data[AxisOf(lo)] {
        sg := [Initiate(Sg(lo)), LoPower(lo), LoOutput(lo, "Set", true)];
      }
      sgs := sgs + [sg];
    }
    var dacs: seq<Event> := [];
    for s := 0 to |cfg.slots|
      invariant dacs == SlotsSetup(cfg, s)
    {
      var master := s == 0;
      var markerOption := if s == 0 then 7 else 0;
      var chs := cfg.slots[s].channels;
      var prepared: seq<Event> := [];
      for k := 0 to |chs|
        invariant prepared == Prepares(cfg, s, k)
      {
        prepared := prepared + [DacPrepare(s, chs[k], master)];
      }
      var idle: seq<Event> := [];
      for k := 0 to |chs|
        invariant idle == Idles(cfg, s, k)
      {
        idle := idle + [DacComposeIdle(s, chs[k], markerOption)];
      }
      dacs := dacs + ([Initiate(Dac(s)), DacClock(s), DacClear(s), DacAllOff(s, true)]
                      + prepared + idle + [DacAllOff(s, false), DacReady(s), DacPlay(s)]);
    }
    trace := dc + sgs[0] + sgs[1] + dacs + [Initiate(Adc)];
  }

  /** The DAC block of one index: every wired channel gets its score, then
      each DAC is made ready. */
  method ComposeAll(cfg: Config, score: ScoreMap, trace0: seq<Event>) returns (trace: seq<Event>)
    requires Keyed(score, cfg)
    ensures trace == trace0 + ComposeEvents(cfg, score)
  {
    trace := trace0;
    match cfg.variant
    case SingleQubit =>
      for s := 0 to |cfg.slots|
        invariant trace == trace0 + ComposeSlots(cfg, score, s)
      {
        trace := ComposeSlot(cfg, score, s, trace);
      }
    case Qubits =>
      for ch := 1 to 5
        invariant trace == trace0 + QubitsComposes(score, ch - 1)
      {
        trace := trace + [DacCompose(0, ch, score[Numbered(ch)], 2, None)];
      }
      trace := trace + [DacReady(0)];
  }

  /** One Single_Qubit slot: compose each of its channels, then ready it. */
  method ComposeSlot(cfg: Config, score: ScoreMap, s: nat, trace0: seq<Event>) returns (trace: seq<Event>)
    requires cfg.variant == SingleQubit && Keyed(score, cfg) && s < |cfg.slots|
    ensures trace == trace0 + SlotComposes(cfg, score, s, |cfg.slots[s].channels|) + [DacReady(s)]
  {
    var settings := Settings(s == 0, |cfg.slots[s].channels| == 4);
    var marker := if s == 0 && Contains(cfg.slots[s].dacType, "SDAWG") then 7 else 2;
    var chs := cfg.slots[s].channels;
    trace := trace0;
    for k := 0 to |chs|
      invariant trace == trace0 + SlotComposes(cfg, score, s, k)
    {
      trace := trace + [DacCompose(s, chs[k], score[Slotted(s + 1, chs[k])], marker, Some(settings))];
    }
    trace := trace + [DacReady(s)];
  }

  /** The write of axis `j` at index `i`, if it is refreshed: the bias, the
      XY tone or the readout tone, each unless its data is optional. */
  method DriveAxis(cfg: Config, counts: seq<nat>, address: seq<nat>, i: nat, first: nat, j: nat) returns (events: seq<Event>)
    requires Addressed(cfg, counts, address) && j < |counts|
    ensures events == Drive(cfg, counts, address, i, first, j)
    ensures |events| <= 1 && forall e :: e in events <==> WritesAt(cfg, counts, address, i, first, j, e)
  {
    events := [];
    if i % Stride(counts, j) == 0 || i == first {
      var name := cfg.structure[j];
      var value := cfg.data[name][address[j]];
      if name == FluxBias {
        if OptionalMark !in cfg.data[FluxBias] {
          events := [BiasSweep(value, cfg.biasCurrentMode)];
        }
      } else if name == XyFrequency {
        if OptionalMark !in cfg.data[XyFrequency] {
          events := [LoFrequency(Xy, value, "Set")];
        }
      } else if name == RoFrequency {
        if OptionalMark !in cfg.data[RoFrequency] {
          events := [LoFrequency(Ro, value, RoAction(cfg.variant))];
        }
      }
    }
  }

  /** The hardware writes of index `i`, axis by axis, outermost first. */
  method DriveAxes(cfg: Config, counts: seq<nat>, address: seq<nat>, first: nat, i: nat) returns (drives: seq<Event>)
    requires Addressed(cfg, counts, address)
    ensures drives == DrivesUpTo(cfg, counts, address, i, first, |counts|)
    ensures forall e :: e in drives <==> exists j :: 0 <= j < |counts| && WritesAt(cfg, counts, address, i, first, j, e)
  {
    drives := [];
    for j := 0 to |counts|
      invariant drives == DrivesUpTo(cfg, counts, address, i, first, j)
    {
      var events := DriveAxis(cfg, counts, address, i, first, j);
      drives := drives + events;
    }
    forall e ensures e in drives <==> exists j :: 0 <= j < |counts| && WritesAt(cfg, counts, address, i, first, j, e) {
      DrivesWrite(cfg, counts, address, i, first, |counts|, e);
    }
  }

  /** The loop body at index `i` up to the acquisition: drive the refreshed
      axes, rewrite the scores with the current values, compose and acquire. */
  method PrepareIndex(job: ReadyJob, i: nat) returns (pre: seq<Event>)
    requires Positive(job.plan.counts)
    ensures pre == IndexEvents(job, i)
  {
    var cfg, plan := job.cfg, job.plan;
    var address := Address(i, plan.counts);
    var drives := DriveAxes(cfg, plan.counts, address, plan.lo, i);
    KeyedIsWired(cfg.template, cfg);
    var score := MaterialiseScores(cfg.template, cfg.structure, AxisValues(cfg, plan.counts, i), Chans(cfg));
    pre := ComposeAll(cfg, score, drives);
    pre := pre + [Acquire(i)];
  }

  /** The loop body at index `i`. */
  method MeasureIndex(job: ReadyJob, env: Env, i: nat) returns (st: LoopState)
    requires Positive(job.plan.counts)
    ensures st == IndexStep(job, env, i)
  {
    var pre := PrepareIndex(job, i);
    var processed := PostProcess(job.plan.shape, env.baseband, env.acquire(i));
    match processed
    case Mismatch =>
      st := LoopState(pre, MismatchAt(i));
    case Buffer(d) =>
      if env.listed(i) {
        st := LoopState(pre + [Emit(i, d)], Running);
      } else {
        st := LoopState(pre, CancelledAt(i));
      }
  }

  /** `for i in range(lo, hi)` with its two breaks. */
  method MeasureLoop(job: ReadyJob, env: Env) returns (st: LoopState)
    ensures st == MeasureSpec(job, env)
  {
    st := LoopState([], Running);
    var i := job.plan.lo;
    while i < job.plan.hi
      invariant job.plan.lo <= i <= LoopEnd(job.plan)
      invariant st == RunUpTo(job, env, i) && st.stop == Running
    {
      st := LoopBody(job, env, i, st);
      if st.stop != Running {
        StoppedStays(job, env, i + 1, LoopEnd(job.plan));
        return;
      }
      i := i + 1;
    }
  }

  /** One pass of the loop body while the loop runs. */
  method LoopBody(job: ReadyJob, env: Env, i: nat, st: LoopState) returns (next: LoopState)
    requires job.plan.lo <= i < job.plan.hi
    requires st == RunUpTo(job, env, i) && st.stop == Running
    ensures next == RunUpTo(job, env, i + 1)
  {
    var step := MeasureIndex(job, env, i);
    LoopAdvance(job, env, i, st, step);
    next := LoopState(st.trace + step.trace, step.stop);
  }

  /** While the loop runs, one more index appends that index's actions and its break. */
  lemma LoopAdvance(job: ReadyJob, env: Env, k: nat, st: LoopState, step: LoopState)
    requires job.plan.lo <= k < job.plan.hi
    requires st == RunUpTo(job, env, k) && st.stop == Running
    requires step == IndexStep(job, env, k)
    ensures RunUpTo(job, env, k + 1) == LoopState(st.trace + step.trace, step.stop)
  {
    assert RunUpTo(job, env, k + 1) == Visited(job, env, k);
    assert Visited(job, env, k) == Continued(job, env, k);
  }

  /** Once the loop has broken, later indices change nothing. */
  lemma {:induction false} StoppedStays(job: ReadyJob, env: Env, k: nat, m: nat, reading: Reading := Corrected)
    requires job.plan.lo <= k <= m <= LoopEnd(job.plan)
    requires RunUpTo(job, env, k, reading).stop != Running
    ensures RunUpTo(job, env, m, reading) == RunUpTo(job, env, k, reading)
  {
    if m > k {
      StoppedStays(job, env, k, m - 1, reading);
    }
  }

  /** The block that follows the loop. */
  method Teardown(cfg: Config, stop: Stop, trace0: seq<Event>) returns (trace: seq<Event>)
    requires Named(cfg)
    ensures trace == trace0 + TeardownEvents(cfg, stop)
  {
    var dacs := if cfg.variant == SingleQubit then |cfg.slots| else 1;
    var off: seq<Event> := [Close(Adc)];
    for s := 0 to dacs
      invariant off == [Close(Adc)] + DacsOff(s)
    {
      off := off + [DacAllOff(s, true), Close(Dac(s))];
    }
    var ro: seq<Event> := [];
    if OptionalMark !in cfg.data[RoFrequency] {
      ro := [LoOutput(Ro, RoAction(cfg.variant), false)];
      if cfg.variant == SingleQubit && Contains(DualOutputTypes, cfg.roLoType) {
        ro := ro + [LoOutput(Ro, "Set_2", false)];
      }
      ro := ro + [Close(Sg(Ro))];
    }
    assert ro == RoOff(cfg);
    var xy: seq<Event> := [];
    if OptionalMark !in cfg.data[XyFrequency] {
      xy := [LoOutput(Xy, "Set", false), Close(Sg(Xy))];
    }
    var dc: seq<Event> := [];
    if OptionalMark !in cfg.data[FluxBias] {
      dc := [DcOutput(false), Close(Dc)];
    }
    var queue: seq<Event> := [];
    if !stop.CancelledAt? {
      queue := [QueueOut];
    }
    trace := trace0 + (off + ro + xy + dc + queue);
  }

  /** The loop and the teardown (the only part of Qubits that is modelled). */
  method MeasureAndClose(job: ReadyJob, env: Env) returns (st: LoopState)
    ensures st == MeasureAndCloseSpec(job, env)
  {
    var loop := MeasureLoop(job, env);
    var trace := Teardown(job.cfg, loop.stop, loop.trace);
    st := LoopState(trace, loop.stop);
  }

  /** Sizing, the ADC configuration, the loop and the teardown. */
  method SizeAndMeasure(cfg: Config, env: Env) returns (trace: seq<Event>, outcome: Outcome)
    requires WellFormed(cfg)
    ensures (trace, outcome) == Measured(cfg, env)
  {
    var totalPoints := TotalPoints(cfg.recordTimeNs, cfg.resolutionNs);
    if totalPoints.None? {
      return [], Crashed(ZeroResolution);
    }
    var tp := totalPoints.value;
    trace := [AdcConfigure(tp, cfg.recordSum)];
    var bufferSize := BufferSize(ReadoutOf(cfg.readoutType), cfg.recordSum, tp);
    var range := MeasureRange(cfg.resumePoint, bufferSize, DataSize(Counts(cfg), bufferSize));
    if range.None? {
      return trace, Crashed(ZeroBufferSize);
    }
    PlanReady(cfg, tp, range.value);
    var st := MeasureAndClose(Job(cfg, PlanFor(cfg, tp, range.value)), env);
    trace := trace + st.trace;
    outcome := Finished(st.stop);
  }

  /** A run of Single_Qubit. */
  method Run(cfg: Config, env: Env) returns (trace: seq<Event>, outcome: Outcome)
    requires WellFormed(cfg) && cfg.variant == SingleQubit
    ensures (trace, outcome) == RunSpec(cfg, env)
  {
    if OptionalMark !in cfg.data[FluxBias] && Contains(Upper(cfg.dcType), "DUMMY") {
      return [], Crashed(DummyBiasSource);
    }
    var setup := SetupInstruments(cfg);
    var rest, o := SizeAndMeasure(cfg, env);
    trace := setup + rest;
    outcome := o;
  }
}
