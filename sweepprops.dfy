/** What a run of the sweep guarantees about its trace of instrument actions:
    the buffers come out in index order, each one the processed record of its
    index; every instrument the setup initiates is closed exactly once;
    the job is queued out exactly when it was not cancelled. */
module SweepProperties {
  import opened Wrappers
  import opened Sizing
  import opened Indexing
  import opened Text
  import opened Score
  import opened PostProcessing
  import opened Sweep

  // ---------------------------------------------------------------------
  // Trace vocabulary.

  /** The actions the body of the measure loop takes. */
  predicate LoopEvent(e: Event)
  {
    e.BiasSweep? || e.LoFrequency? || e.DacCompose? || e.DacReady? || e.Acquire? || e.Emit?
  }

  predicate LoopOnly(t: seq<Event>)
  {
    forall k :: 0 <= k < |t| ==> LoopEvent(t[k])
  }

  lemma LoopOnlyAppend(a: seq<Event>, b: seq<Event>)
    requires LoopOnly(a) && LoopOnly(b)
    ensures LoopOnly(a + b)
  {
    forall k | 0 <= k < |a + b| ensures LoopEvent((a + b)[k]) {
      if k >= |a| {
        assert (a + b)[k] == b[k - |a|];
      }
    }
  }

  /** No buffer is yielded. */
  predicate Silent(t: seq<Event>)
  {
    forall k :: 0 <= k < |t| ==> !t[k].Emit?
  }

  /** The indices of the yielded buffers, in the order they are yielded. */
  function Emitted(t: seq<Event>): seq<nat>
  {
    if t == [] then []
    else Emitted(t[..|t| - 1]) + (if t[|t| - 1].Emit? then [t[|t| - 1].index] else [])
  }

  /** `range(lo, hi)` as a sequence. */
  function Span(lo: nat, hi: nat): (s: seq<nat>)
    requires lo <= hi
    ensures |s| == hi - lo && forall k :: 0 <= k < |s| ==> s[k] == lo + k
  {
    seq(hi - lo, k requires 0 <= k < hi - lo => lo + k)
  }

  /** Every yielded buffer is the record of its index post-processed as `reading` says. */
  predicate Processes(job: ReadyJob, env: Env, t: seq<Event>, reading: Reading := Corrected)
  {
    forall k :: 0 <= k < |t| && t[k].Emit? ==>
      ProcessBy(reading, job.plan.shape, env.baseband, env.acquire(t[k].index)) == Buffer(t[k].data)
  }

  lemma {:induction false} EmittedAppend(a: seq<Event>, b: seq<Event>)
    ensures Emitted(a + b) == Emitted(a) + Emitted(b)
    decreases |b|
  {
    if b == [] {
      assert a + b == a;
    } else {
      assert (a + b)[..|a + b| - 1] == a + b[..|b| - 1];
      EmittedAppend(a, b[..|b| - 1]);
    }
  }

  lemma {:induction false} SilentEmitsNothing(t: seq<Event>)
    requires Silent(t)
    ensures Emitted(t) == []
    decreases |t|
  {
    if t != [] {
      SilentEmitsNothing(t[..|t| - 1]);
    }
  }

  lemma SpanStep(lo: nat, k: nat)
    requires lo <= k
    ensures Span(lo, k + 1) == Span(lo, k) + [k]
  {
  }

  // ---------------------------------------------------------------------
  // One index of the loop.

  /** Only axis writes. */
  predicate WritesOnly(t: seq<Event>)
  {
    forall k :: 0 <= k < |t| ==> t[k].BiasSweep? || t[k].LoFrequency?
  }

  /** Only score compositions and DAC readies. */
  predicate ComposesOnly(t: seq<Event>)
  {
    forall k :: 0 <= k < |t| ==> t[k].DacCompose? || t[k].DacReady?
  }

  lemma DriveOnly(cfg: Config, counts: seq<nat>, address: seq<nat>, i: nat, first: nat, j: nat)
    requires Addressed(cfg, counts, address) && j < |counts|
    ensures WritesOnly(Drive(cfg, counts, address, i, first, j))
  {
  }

  lemma WritesAppend(a: seq<Event>, b: seq<Event>)
    requires WritesOnly(a) && WritesOnly(b)
    ensures WritesOnly(a + b)
  {
    forall k | 0 <= k < |a + b| ensures (a + b)[k].BiasSweep? || (a + b)[k].LoFrequency? {
      if k >= |a| {
        assert (a + b)[k] == b[k - |a|];
      }
    }
  }

  lemma {:induction false} DrivesOnly(cfg: Config, counts: seq<nat>, address: seq<nat>, i: nat, first: nat, j: nat)
    requires Addressed(cfg, counts, address) && j <= |counts|
    ensures WritesOnly(DrivesUpTo(cfg, counts, address, i, first, j))
  {
    if j > 0 {
      DrivesOnly(cfg, counts, address, i, first, j - 1);
      DriveOnly(cfg, counts, address, i, first, j - 1);
      WritesAppend(DrivesUpTo(cfg, counts, address, i, first, j - 1), Drive(cfg, counts, address, i, first, j - 1));
    }
  }

  lemma {:induction false} SlotComposesOnly(cfg: Config, score: ScoreMap, s: nat, n: nat)
    requires cfg.variant == SingleQubit && Keyed(score, cfg) && s < |cfg.slots| && n <= |cfg.slots[s].channels|
    ensures ComposesOnly(SlotComposes(cfg, score, s, n))
  {
    if n > 0 {
      SlotComposesOnly(cfg, score, s, n - 1);
    }
  }

  lemma {:induction false} ComposeSlotsOnly(cfg: Config, score: ScoreMap, n: nat)
    requires cfg.variant == SingleQubit && Keyed(score, cfg) && n <= |cfg.slots|
    ensures ComposesOnly(ComposeSlots(cfg, score, n))
  {
    if n > 0 {
      ComposeSlotsOnly(cfg, score, n - 1);
      SlotComposesOnly(cfg, score, n - 1, |cfg.slots[n - 1].channels|);
    }
  }

  lemma {:induction false} QubitsComposesOnly(score: ScoreMap, n: nat)
    requires n <= 4 && forall ch: nat :: 1 <= ch <= 4 ==> Numbered(ch) in score
    ensures ComposesOnly(QubitsComposes(score, n))
  {
    if n > 0 {
      QubitsComposesOnly(score, n - 1);
    }
  }

  lemma ComposeEventsOnly(cfg: Config, score: ScoreMap)
    requires Keyed(score, cfg)
    ensures ComposesOnly(ComposeEvents(cfg, score))
  {
    match cfg.variant
    case SingleQubit => ComposeSlotsOnly(cfg, score, |cfg.slots|);
    case Qubits => QubitsComposesOnly(score, 4);
  }

  /** Before its yield, the body at an index only drives axes, composes,
      readies and acquires. */
  lemma IndexEventsQuiet(job: ReadyJob, i: nat)
    requires Positive(job.plan.counts)
    ensures LoopOnly(IndexEvents(job, i)) && Silent(IndexEvents(job, i))
  {
    var cfg, counts := job.cfg, job.plan.counts;
    DrivesOnly(cfg, counts, Address(i, counts), i, job.plan.lo, |counts|);
    ComposeEventsOnly(cfg, ScoreAt(cfg, counts, i));
  }

  // ---------------------------------------------------------------------
  // Which hardware writes an index makes.

  /** The three physical quantities, whose axes are written to hardware. */
  predicate Physical(name: string)
  {
    name == FluxBias || name == XyFrequency || name == RoFrequency
  }

  /** A bias or frequency write is in the body of index `i` exactly when some
      axis writes it there. */
  lemma IndexWrites(job: ReadyJob, i: nat, e: Event)
    requires Positive(job.plan.counts) && (e.BiasSweep? || e.LoFrequency?)
    ensures e in IndexEvents(job, i)
            <==> exists j :: 0 <= j < |job.plan.counts|
                   && WritesAt(job.cfg, job.plan.counts, Address(i, job.plan.counts), i, job.plan.lo, j, e)
  {
    var cfg, counts := job.cfg, job.plan.counts;
    var address := Address(i, counts);
    DrivesWrite(cfg, counts, address, i, job.plan.lo, |counts|, e);
    ComposeEventsOnly(cfg, ScoreAt(cfg, counts, i));
    var drives := DrivesUpTo(cfg, counts, address, i, job.plan.lo, |counts|);
    var composes := ComposeEvents(cfg, ScoreAt(cfg, counts, i));
    assert IndexEvents(job, i) == drives + composes + [Acquire(i)];
  }

  /** The event by which a physical axis sets value `v`. */
  function AxisWrite(cfg: Config, name: string, v: string): Event
  {
    if name == FluxBias then BiasSweep(v, cfg.biasCurrentMode)
    else if name == XyFrequency then LoFrequency(Xy, v, FrequencyAction(cfg, Xy))
    else LoFrequency(Ro, v, FrequencyAction(cfg, Ro))
  }

  /** The instrument of a non-optional physical axis holds the axis's current
      value at every index: the last index since the first at which the axis
      was written wrote the value at the current coordinate, and no index
      since then wrote the axis. */
  lemma AxisHeld(job: ReadyJob, i: nat, j: nat)
    requires Positive(job.plan.counts) && job.plan.lo <= i && j < |job.plan.counts|
    requires Physical(job.cfg.structure[j]) && !Optional(job.cfg, job.cfg.structure[j])
    ensures var cfg, counts, lo := job.cfg, job.plan.counts, job.plan.lo;
            var r := LastRefresh(counts, lo, i, j);
            var name := cfg.structure[j];
            && lo <= r <= i
            && AxisWrite(cfg, name, cfg.data[name][Address(i, counts)[j]]) in IndexEvents(job, r)
            && forall m, e :: r < m <= i ==> !WritesAt(cfg, counts, Address(m, counts), m, lo, j, e)
  {
    var cfg, counts, lo := job.cfg, job.plan.counts, job.plan.lo;
    LastRefreshHolds(counts, lo, i, j);
    var r := LastRefresh(counts, lo, i, j);
    var name := cfg.structure[j];
    var e := AxisWrite(cfg, name, cfg.data[name][Address(i, counts)[j]]);
    assert WritesAt(cfg, counts, Address(r, counts), r, lo, j, e);
    IndexWrites(job, r, e);
  }

  /** Every buffer in `t` is the buffer `processed` of index `i`. */
  predicate YieldsOnly(t: seq<Event>, i: nat, processed: Processed)
  {
    forall k :: 0 <= k < |t| && t[k].Emit? ==> t[k].index == i && processed == Buffer(t[k].data)
  }

  /** The end of the loop body appends the body's actions and at most the
      buffer of its index, and stops the loop, if at all, at that index. */
  lemma YieldShape(before: seq<Event>, pre: seq<Event>, processed: Processed, listed: bool, i: nat)
    requires LoopOnly(pre) && Silent(pre)
    ensures LoopOnly(before) ==> LoopOnly(before + Yield(pre, processed, listed, i).trace)
    ensures YieldsOnly(Yield(pre, processed, listed, i).trace, i, processed)
    ensures Yield(pre, processed, listed, i).stop == Running || Yield(pre, processed, listed, i).stop.index == i
  {
    var y := Yield(pre, processed, listed, i);
    if processed.Buffer? && listed {
      var e := Emit(i, processed.data);
      assert y.trace == pre + [e];
      LoopOnlyAppend(pre, [e]);
      assert forall k :: 0 <= k < |pre| ==> y.trace[k] == pre[k];
    }
    if LoopOnly(before) {
      LoopOnlyAppend(before, y.trace);
    }
  }

  /** ... and yields the index exactly when the loop goes on. */
  lemma YieldEmits(before: seq<Event>, pre: seq<Event>, processed: Processed, listed: bool, i: nat)
    requires Silent(pre)
    ensures Emitted(before + Yield(pre, processed, listed, i).trace)
            == Emitted(before) + (if Yield(pre, processed, listed, i).stop == Running then [i] else [])
  {
    SilentEmitsNothing(pre);
    EmittedAppend(before, pre);
    if processed.Buffer? && listed {
      var e := Emit(i, processed.data);
      assert before + (pre + [e]) == (before + pre) + [e];
      EmittedAppend(before + pre, [e]);
      assert Emitted([e]) == Emitted([]) + [i];
    }
  }

  lemma ProcessesAppend(job: ReadyJob, env: Env, a: seq<Event>, b: seq<Event>, i: nat, reading: Reading := Corrected)
    requires Processes(job, env, a, reading)
    requires YieldsOnly(b, i, ProcessBy(reading, job.plan.shape, env.baseband, env.acquire(i)))
    ensures Processes(job, env, a + b, reading)
  {
    forall k | 0 <= k < |a + b| && (a + b)[k].Emit?
      ensures ProcessBy(reading, job.plan.shape, env.baseband, env.acquire((a + b)[k].index)) == Buffer((a + b)[k].data)
    {
      if k >= |a| {
        assert (a + b)[k] == b[k - |a|];
      }
    }
  }

  /** Visiting an index of a running loop appends only loop actions, yields
      at most the buffer of that index (the processed record), and breaks, if
      at all, at that index. */
  lemma StepShape(job: ReadyJob, env: Env, i: nat, reading: Reading := Corrected)
    requires job.plan.lo <= i < LoopEnd(job.plan) && RunUpTo(job, env, i, reading).stop == Running
    ensures LoopOnly(RunUpTo(job, env, i, reading).trace) ==> LoopOnly(RunUpTo(job, env, i + 1, reading).trace)
    ensures Processes(job, env, RunUpTo(job, env, i, reading).trace, reading) ==>
              Processes(job, env, RunUpTo(job, env, i + 1, reading).trace, reading)
    ensures Emitted(RunUpTo(job, env, i + 1, reading).trace)
            == Emitted(RunUpTo(job, env, i, reading).trace) + (if RunUpTo(job, env, i + 1, reading).stop == Running then [i] else [])
    ensures RunUpTo(job, env, i + 1, reading).stop == Running || RunUpTo(job, env, i + 1, reading).stop.index == i
  {
    var before := RunUpTo(job, env, i, reading).trace;
    var pre := IndexEvents(job, i);
    var processed := ProcessBy(reading, job.plan.shape, env.baseband, env.acquire(i));
    IndexEventsQuiet(job, i);
    YieldShape(before, pre, processed, env.listed(i), i);
    YieldEmits(before, pre, processed, env.listed(i), i);
    assert Visited(job, env, i, reading) == Continued(job, env, i, reading);
    if Processes(job, env, before, reading) {
      ProcessesAppend(job, env, before, Yield(pre, processed, env.listed(i), i).trace, i, reading);
    }
  }

  /** A broken loop visits no further index. */
  lemma StoppedStep(job: ReadyJob, env: Env, i: nat, reading: Reading := Corrected)
    requires job.plan.lo <= i < LoopEnd(job.plan) && RunUpTo(job, env, i, reading).stop != Running
    ensures RunUpTo(job, env, i + 1, reading) == RunUpTo(job, env, i, reading)
  {
    StoppedStays(job, env, i, i + 1, reading);
  }

  // ---------------------------------------------------------------------
  // The whole loop.

  /** A loop state reached before index `k`: while running it has yielded
      the buffers of `lo..k-1` in order, and once broken at some index it has
      yielded those before that index. */
  predicate EmitsInOrder(st: LoopState, lo: nat, k: nat)
  {
    lo <= k
    && (st.stop == Running ==> Emitted(st.trace) == Span(lo, k))
    && (st.stop != Running ==> lo <= st.stop.index < k && Emitted(st.trace) == Span(lo, st.stop.index))
  }

  /** One index of the loop keeps the yielded indices in order. */
  lemma EmitsStep(st0: LoopState, st1: LoopState, lo: nat, k: nat)
    requires EmitsInOrder(st0, lo, k)
    requires st0.stop != Running ==> st1 == st0
    requires st0.stop == Running ==>
               Emitted(st1.trace) == Emitted(st0.trace) + (if st1.stop == Running then [k] else [])
               && (st1.stop == Running || st1.stop.index == k)
    ensures EmitsInOrder(st1, lo, k + 1)
  {
    SpanStep(lo, k);
  }

  /** The loop before index `k` yields the buffers of `lo, lo+1, ...` in that
      order: all of `lo..k-1` while it runs, and those before the breaking
      index once it has broken. */
  lemma {:induction false} LoopEmits(job: ReadyJob, env: Env, k: nat, reading: Reading := Corrected)
    requires job.plan.lo <= k <= LoopEnd(job.plan)
    ensures LoopOnly(RunUpTo(job, env, k, reading).trace)
    ensures EmitsInOrder(RunUpTo(job, env, k, reading), job.plan.lo, k)
    decreases k
  {
    if k > job.plan.lo {
      LoopEmits(job, env, k - 1, reading);
      if RunUpTo(job, env, k - 1, reading).stop == Running {
        StepShape(job, env, k - 1, reading);
      } else {
        StoppedStep(job, env, k - 1, reading);
      }
      EmitsStep(RunUpTo(job, env, k - 1, reading), RunUpTo(job, env, k, reading), job.plan.lo, k - 1);
    }
  }

  /** Every buffer the loop yields is the processed record of its index. */
  lemma {:induction false} LoopProcesses(job: ReadyJob, env: Env, k: nat, reading: Reading := Corrected)
    requires job.plan.lo <= k <= LoopEnd(job.plan)
    ensures Processes(job, env, RunUpTo(job, env, k, reading).trace, reading)
    decreases k
  {
    if k > job.plan.lo {
      LoopProcesses(job, env, k - 1, reading);
      if RunUpTo(job, env, k - 1, reading).stop == Running {
        StepShape(job, env, k - 1, reading);
      } else {
        StoppedStep(job, env, k - 1, reading);
      }
    }
  }

  /** The whole loop: only loop actions; the buffers of `lo..hi-1` in order
      when it ran to the end, those before the breaking index otherwise; each
      the processed record of its index. */
  lemma MeasureEmits(job: ReadyJob, env: Env, reading: Reading := Corrected)
    ensures LoopOnly(MeasureSpec(job, env, reading).trace)
    ensures EmitsInOrder(MeasureSpec(job, env, reading), job.plan.lo, LoopEnd(job.plan))
    ensures Processes(job, env, MeasureSpec(job, env, reading).trace, reading)
  {
    LoopEmits(job, env, LoopEnd(job.plan), reading);
    LoopProcesses(job, env, LoopEnd(job.plan), reading);
  }

  /** Every yielded buffer has the size the sizing rules give the shape. */
  lemma EmitSizes(job: ReadyJob, env: Env, reading: Reading := Corrected)
    ensures forall k :: 0 <= k < |MeasureSpec(job, env, reading).trace| && MeasureSpec(job, env, reading).trace[k].Emit? ==>
              |MeasureSpec(job, env, reading).trace[k].data|
              == BufferSize(job.plan.shape.readout, job.plan.shape.recordSum, job.plan.shape.totalPoints)
  {
    var t := MeasureSpec(job, env, reading).trace;
    LoopProcesses(job, env, LoopEnd(job.plan), reading);
    forall k | 0 <= k < |t| && t[k].Emit?
      ensures |t[k].data| == BufferSize(job.plan.shape.readout, job.plan.shape.recordSum, job.plan.shape.totalPoints)
    {
      ReadingsAgree(job.plan.shape, env.baseband, env.acquire(t[k].index));
      ProcessedLength(job.plan.shape, env.baseband, env.acquire(t[k].index));
    }
  }

  // ---------------------------------------------------------------------
  // Instrument lifecycle.

  /** The actions that are counted: initiating or closing an instrument, and
      taking the job off the queue. */
  predicate Visible(e: Event)
  {
    e.Initiate? || e.Close? || e.QueueOut?
  }

  /** No counted action. */
  predicate Inert(t: seq<Event>)
  {
    forall k :: 0 <= k < |t| ==> !Visible(t[k])
  }

  /** The instruments a run opens and must close: the bias source and each
      oscillator unless optional, every wired DAC slot (one DAC in Qubits),
      and the ADC. */
  predicate Opened(cfg: Config, x: Instrument)
    requires Named(cfg)
  {
    match x
    case Dc => !Optional(cfg, FluxBias)
    case Sg(lo) => !Optional(cfg, AxisOf(lo))
    case Dac(s) => s < (if cfg.variant == SingleQubit then |cfg.slots| else 1)
    case Adc => true
  }

  function Count(b: bool): nat
  {
    if b then 1 else 0
  }

  /** The number of occurrences of `e` in `t`. */
  function Tally(t: seq<Event>, e: Event): nat
    decreases |t|
  {
    if t == [] then 0 else Count(t[0] == e) + Tally(t[1..], e)
  }

  lemma {:induction false} TallyAppend(a: seq<Event>, b: seq<Event>, e: Event)
    ensures Tally(a + b, e) == Tally(a, e) + Tally(b, e)
    decreases |a|
  {
    if a == [] {
      assert a + b == b;
    } else {
      assert (a + b)[1..] == a[1..] + b;
      TallyAppend(a[1..], b, e);
    }
  }

  lemma {:induction false} TallyAbsent(t: seq<Event>, e: Event)
    requires e !in t
    ensures Tally(t, e) == 0
    decreases |t|
  {
    if t != [] {
      TallyAbsent(t[1..], e);
    }
  }

  lemma TallyFour(a: seq<Event>, b: seq<Event>, c: seq<Event>, d: seq<Event>, e: Event)
    ensures Tally(a + b + c + d, e) == Tally(a, e) + Tally(b, e) + Tally(c, e) + Tally(d, e)
  {
    TallyAppend(a, b, e);
    TallyAppend(a + b, c, e);
    TallyAppend(a + b + c, d, e);
  }

  lemma TallyFive(a: seq<Event>, b: seq<Event>, c: seq<Event>, d: seq<Event>, f: seq<Event>, e: Event)
    ensures Tally(a + b + c + d + f, e) == Tally(a, e) + Tally(b, e) + Tally(c, e) + Tally(d, e) + Tally(f, e)
  {
    TallyFour(a, b, c, d, e);
    TallyAppend(a + b + c + d, f, e);
  }

  /** An action occurs in a trace exactly when its tally is positive. */
  lemma {:induction false} TallyPositive(t: seq<Event>, e: Event)
    ensures e in t <==> Tally(t, e) > 0
    decreases |t|
  {
    if t != [] {
      TallyPositive(t[1..], e);
      assert t == [t[0]] + t[1..];
    }
  }

  lemma TallySix(a: seq<Event>, b: seq<Event>, c: seq<Event>, d: seq<Event>, f: seq<Event>, g: seq<Event>, e: Event)
    ensures Tally(a + b + c + d + f + g, e)
            == Tally(a, e) + Tally(b, e) + Tally(c, e) + Tally(d, e) + Tally(f, e) + Tally(g, e)
  {
    TallyFive(a, b, c, d, f, e);
    TallyAppend(a + b + c + d + f, g, e);
  }

  /** `Tally` is the multiplicity in the multiset of the trace. */
  lemma {:induction false} TallyIsMultiplicity(t: seq<Event>, e: Event)
    ensures Tally(t, e) == multiset(t)[e]
    decreases |t|
  {
    if t != [] {
      TallyIsMultiplicity(t[1..], e);
      assert t == [t[0]] + t[1..];
      assert multiset(t) == multiset{t[0]} + multiset(t[1..]);
    }
  }

  lemma InertCounts(t: seq<Event>, e: Event)
    requires Inert(t) && Visible(e)
    ensures Tally(t, e) == 0
  {
    assert e !in t;
    TallyAbsent(t, e);
  }

  /** A piece holding one counted action `life` among inert actions. */
  lemma Piece(pre: seq<Event>, life: Event, post: seq<Event>, e: Event)
    requires Inert(pre) && Inert(post) && Visible(e)
    ensures Tally(pre + [life] + post, e) == Count(life == e)
  {
    InertCounts(pre, e);
    InertCounts(post, e);
    TallyAppend(pre, [life], e);
    TallyAppend(pre + [life], post, e);
    assert [life][1..] == [];
  }

  lemma {:induction false} PreparesInert(cfg: Config, s: nat, k: nat)
    requires s < |cfg.slots| && k <= |cfg.slots[s].channels|
    ensures Inert(Prepares(cfg, s, k))
  {
    if k > 0 {
      PreparesInert(cfg, s, k - 1);
    }
  }

  lemma {:induction false} IdlesInert(cfg: Config, s: nat, k: nat)
    requires s < |cfg.slots| && k <= |cfg.slots[s].channels|
    ensures Inert(Idles(cfg, s, k))
  {
    if k > 0 {
      IdlesInert(cfg, s, k - 1);
    }
  }

  /** Setting up slot `s` initiates its DAC once and nothing else. */
  lemma SlotSetupCounts(cfg: Config, s: nat, e: Event)
    requires s < |cfg.slots| && Visible(e)
    ensures Tally(SlotSetup(cfg, s), e) == Count(e == Initiate(Dac(s)))
  {
    var n := |cfg.slots[s].channels|;
    var body := Prepares(cfg, s, n) + Idles(cfg, s, n);
    var post := [DacClock(s), DacClear(s), DacAllOff(s, true)] + body + [DacAllOff(s, false), DacReady(s), DacPlay(s)];
    PreparesInert(cfg, s, n);
    IdlesInert(cfg, s, n);
    assert Inert(post);
    assert SlotSetup(cfg, s) == [] + [Initiate(Dac(s))] + post;
    Piece([], Initiate(Dac(s)), post, e);
  }

  lemma {:induction false} SlotsSetupCounts(cfg: Config, n: nat, e: Event)
    requires n <= |cfg.slots| && Visible(e)
    ensures Tally(SlotsSetup(cfg, n), e) == Count(e.Initiate? && e.inst.Dac? && e.inst.slot < n)
  {
    if n > 0 {
      SlotsSetupCounts(cfg, n - 1, e);
      SlotSetupCounts(cfg, n - 1, e);
      TallyAppend(SlotsSetup(cfg, n - 1), SlotSetup(cfg, n - 1), e);
    }
  }

  lemma DcSetupCounts(cfg: Config, e: Event)
    requires Named(cfg) && Visible(e)
    ensures Tally(DcSetup(cfg), e) == Count(e == Initiate(Dc) && Opened(cfg, Dc))
  {
    if !Optional(cfg, FluxBias) {
      assert DcSetup(cfg) == [] + [Initiate(Dc)] + [DcOutput(true)];
      Piece([], Initiate(Dc), [DcOutput(true)], e);
    }
  }

  lemma LoSetupCounts(cfg: Config, lo: Lo, e: Event)
    requires Named(cfg) && Visible(e)
    ensures Tally(LoSetup(cfg, lo), e) == Count(e == Initiate(Sg(lo)) && Opened(cfg, Sg(lo)))
  {
    if !Optional(cfg, AxisOf(lo)) {
      assert LoSetup(cfg, lo) == [] + [Initiate(Sg(lo))] + [LoPower(lo), LoOutput(lo, "Set", true)];
      Piece([], Initiate(Sg(lo)), [LoPower(lo), LoOutput(lo, "Set", true)], e);
    }
  }

  /** The setup of Single_Qubit initiates every opened instrument exactly
      once and takes no other counted action. */
  lemma SetupCounts(cfg: Config, e: Event)
    requires Named(cfg) && cfg.variant == SingleQubit && Visible(e)
    ensures Tally(SetupEvents(cfg), e) == Count(e.Initiate? && Opened(cfg, e.inst))
  {
    var dc, xy, ro := DcSetup(cfg), LoSetup(cfg, Xy), LoSetup(cfg, Ro);
    var slots := SlotsSetup(cfg, |cfg.slots|);
    DcSetupCounts(cfg, e);
    LoSetupCounts(cfg, Xy, e);
    LoSetupCounts(cfg, Ro, e);
    SlotsSetupCounts(cfg, |cfg.slots|, e);
    Piece([], Initiate(Adc), [], e);
    assert [] + [Initiate(Adc)] + [] == [Initiate(Adc)];
    TallyFive(dc, xy, ro, slots, [Initiate(Adc)], e);
    SetupSum(cfg, e);
  }

  /** The setup's pieces add up to one initiation per opened instrument. */
  lemma SetupSum(cfg: Config, e: Event)
    requires Named(cfg) && cfg.variant == SingleQubit
    ensures Count(e == Initiate(Dc) && Opened(cfg, Dc)) + Count(e == Initiate(Sg(Xy)) && Opened(cfg, Sg(Xy)))
            + Count(e == Initiate(Sg(Ro)) && Opened(cfg, Sg(Ro)))
            + Count(e.Initiate? && e.inst.Dac? && e.inst.slot < |cfg.slots|) + Count(Initiate(Adc) == e)
            == Count(e.Initiate? && Opened(cfg, e.inst))
  {
  }

  lemma {:induction false} DacsOffCounts(n: nat, e: Event)
    requires Visible(e)
    ensures Tally(DacsOff(n), e) == Count(e.Close? && e.inst.Dac? && e.inst.slot < n)
  {
    if n > 0 {
      DacsOffCounts(n - 1, e);
      Piece([DacAllOff(n - 1, true)], Close(Dac(n - 1)), [], e);
      assert [DacAllOff(n - 1, true)] + [Close(Dac(n - 1))] + [] == [DacAllOff(n - 1, true), Close(Dac(n - 1))];
      TallyAppend(DacsOff(n - 1), [DacAllOff(n - 1, true), Close(Dac(n - 1))], e);
    }
  }

  lemma RoOffCounts(cfg: Config, e: Event)
    requires Named(cfg) && Visible(e)
    ensures Tally(RoOff(cfg), e) == Count(e == Close(Sg(Ro)) && Opened(cfg, Sg(Ro)))
  {
    if !Optional(cfg, RoFrequency) {
      var pre := [LoOutput(Ro, RoAction(cfg.variant), false)]
        + (if cfg.variant == SingleQubit && Contains(DualOutputTypes, cfg.roLoType) then [LoOutput(Ro, "Set_2", false)] else []);
      assert RoOff(cfg) == pre + [Close(Sg(Ro))] + [];
      Piece(pre, Close(Sg(Ro)), [], e);
    }
  }

  lemma XyOffCounts(cfg: Config, e: Event)
    requires Named(cfg) && Visible(e)
    ensures Tally(XyOff(cfg), e) == Count(e == Close(Sg(Xy)) && Opened(cfg, Sg(Xy)))
  {
    if !Optional(cfg, XyFrequency) {
      assert XyOff(cfg) == [LoOutput(Xy, "Set", false)] + [Close(Sg(Xy))] + [];
      Piece([LoOutput(Xy, "Set", false)], Close(Sg(Xy)), [], e);
    }
  }

  lemma DcOffCounts(cfg: Config, e: Event)
    requires Named(cfg) && Visible(e)
    ensures Tally(DcOff(cfg), e) == Count(e == Close(Dc) && Opened(cfg, Dc))
  {
    if !Optional(cfg, FluxBias) {
      assert DcOff(cfg) == [DcOutput(false)] + [Close(Dc)] + [];
      Piece([DcOutput(false)], Close(Dc), [], e);
    }
  }

  lemma QueueOutCounts(stop: Stop, e: Event)
    requires Visible(e)
    ensures Tally(QueueOutIf(stop), e) == Count(e == QueueOut && StillListed(stop))
  {
    if StillListed(stop) {
      assert QueueOutIf(stop) == [] + [QueueOut] + [];
      Piece([], QueueOut, [], e);
    }
  }

  /** The teardown closes every opened instrument exactly once, initiates
      nothing, and queues the job out exactly when it is still listed. */
  lemma TeardownCounts(cfg: Config, stop: Stop, e: Event)
    requires Named(cfg) && Visible(e)
    ensures Tally(TeardownEvents(cfg, stop), e)
            == Count((e.Close? && Opened(cfg, e.inst)) || (e == QueueOut && StillListed(stop)))
  {
    var n := if cfg.variant == SingleQubit then |cfg.slots| else 1;
    var adc, dacs, ro, xy, dc, q := [Close(Adc)], DacsOff(n), RoOff(cfg), XyOff(cfg), DcOff(cfg), QueueOutIf(stop);
    Piece([], Close(Adc), [], e);
    assert [] + [Close(Adc)] + [] == adc;
    DacsOffCounts(n, e);
    RoOffCounts(cfg, e);
    XyOffCounts(cfg, e);
    DcOffCounts(cfg, e);
    QueueOutCounts(stop, e);
    TallySix(adc, dacs, ro, xy, dc, q, e);
    TeardownSum(cfg, stop, e, n);
  }

  /** The teardown's pieces add up to one close per opened instrument. */
  lemma TeardownSum(cfg: Config, stop: Stop, e: Event, n: nat)
    requires Named(cfg) && n == (if cfg.variant == SingleQubit then |cfg.slots| else 1)
    ensures Count(e == Close(Adc)) + Count(e.Close? && e.inst.Dac? && e.inst.slot < n)
            + Count(e == Close(Sg(Ro)) && Opened(cfg, Sg(Ro))) + Count(e == Close(Sg(Xy)) && Opened(cfg, Sg(Xy)))
            + Count(e == Close(Dc) && Opened(cfg, Dc)) + Count(e == QueueOut && StillListed(stop))
            == Count((e.Close? && Opened(cfg, e.inst)) || (e == QueueOut && StillListed(stop)))
  {
  }

  /** The loop takes no counted action. */
  lemma LoopCounts(job: ReadyJob, env: Env, e: Event, reading: Reading := Corrected)
    requires Visible(e)
    ensures Tally(MeasureSpec(job, env, reading).trace, e) == 0
  {
    var t := MeasureSpec(job, env, reading).trace;
    MeasureEmits(job, env, reading);
    assert Inert(t) by {
      forall k | 0 <= k < |t| ensures !Visible(t[k]) {
        assert LoopEvent(t[k]);
      }
    }
    InertCounts(t, e);
  }

  // ---------------------------------------------------------------------
  // Whole runs of Single_Qubit.

  /** How a run ends: the three crashes before the loop are exactly the
      `DUMMY` bias driver, a zero resolution and a zero buffer size; a
      crashed run has only its setup and, for a zero buffer size, the ADC
      configuration behind it; no run crashes at its teardown. */
  lemma RunOutcome(cfg: Config, env: Env)
    requires WellFormed(cfg) && cfg.variant == SingleQubit
    ensures RunSpec(cfg, env).1 == Crashed(DummyBiasSource) <==> DummyBias(cfg)
    ensures RunSpec(cfg, env).1 == Crashed(ZeroResolution) <==> !DummyBias(cfg) && cfg.resolutionNs == 0
    ensures RunSpec(cfg, env).1 == Crashed(ZeroBufferSize)
            <==> !DummyBias(cfg) && cfg.resolutionNs > 0
                 && BufferSize(ReadoutOf(cfg.readoutType), cfg.recordSum, TotalPoints(cfg.recordTimeNs, cfg.resolutionNs).value) == 0
    ensures RunSpec(cfg, env).1 != Crashed(UnboundSweepRate)
    ensures DummyBias(cfg) ==> RunSpec(cfg, env).0 == []
    ensures RunSpec(cfg, env).1 == Crashed(ZeroResolution) ==> RunSpec(cfg, env).0 == SetupEvents(cfg)
    ensures RunSpec(cfg, env).1 == Crashed(ZeroBufferSize) ==>
              RunSpec(cfg, env).0
              == SetupEvents(cfg) + [AdcConfigure(TotalPoints(cfg.recordTimeNs, cfg.resolutionNs).value, cfg.recordSum)]
  {
    assert SetupEvents(cfg) + [] == SetupEvents(cfg);
  }

  /** A run that is sized is the setup, the ADC configuration, the loop of
      the sized job and the teardown, in that order, and finishes with the
      loop's stop. */
  lemma RunDecomposes(cfg: Config, env: Env, tp: nat, range: Range)
    requires WellFormed(cfg) && cfg.variant == SingleQubit && !DummyBias(cfg)
    requires TotalPoints(cfg.recordTimeNs, cfg.resolutionNs) == Some(tp)
    requires var bs := BufferSize(ReadoutOf(cfg.readoutType), cfg.recordSum, tp);
             MeasureRange(cfg.resumePoint, bs, DataSize(Counts(cfg), bs)) == Some(range)
    ensures var st := MeasureSpec(SizedJob(cfg, tp, range), env);
            RunSpec(cfg, env)
            == (SetupEvents(cfg) + [AdcConfigure(tp, cfg.recordSum)] + st.trace + TeardownEvents(cfg, st.stop), Finished(st.stop))
  {
    var st := MeasureSpec(SizedJob(cfg, tp, range), env);
    var a, b, c, d := SetupEvents(cfg), [AdcConfigure(tp, cfg.recordSum)], st.trace, TeardownEvents(cfg, st.stop);
    assert a + (b + (c + d)) == a + b + c + d;
  }

  /** The actions of setup, ADC configuration, loop and teardown in turn
      open and close every opened instrument once, and queue out once
      exactly when the job is still listed. */
  lemma PhasesBalanced(job: ReadyJob, env: Env, tp: nat, e: Event)
    requires job.cfg.variant == SingleQubit && Visible(e)
    ensures var st := MeasureSpec(job, env);
            Tally(SetupEvents(job.cfg) + [AdcConfigure(tp, job.cfg.recordSum)] + st.trace + TeardownEvents(job.cfg, st.stop), e)
            == Count(e.Initiate? && Opened(job.cfg, e.inst))
               + Count((e.Close? && Opened(job.cfg, e.inst)) || (e == QueueOut && StillListed(st.stop)))
  {
    var cfg, st := job.cfg, MeasureSpec(job, env);
    TallyFour(SetupEvents(cfg), [AdcConfigure(tp, cfg.recordSum)], st.trace, TeardownEvents(cfg, st.stop), e);
    SetupCounts(cfg, e);
    InertCounts([AdcConfigure(tp, cfg.recordSum)], e);
    LoopCounts(job, env, e);
    TeardownCounts(cfg, st.stop, e);
  }

  /** Every instrument a sized run opens is initiated once and closed once,
      every other one never; the job is queued out once when it was not
      cancelled and never when it was. */
  lemma RunBalanced(cfg: Config, env: Env, tp: nat, range: Range, x: Instrument)
    requires WellFormed(cfg) && cfg.variant == SingleQubit && !DummyBias(cfg)
    requires TotalPoints(cfg.recordTimeNs, cfg.resolutionNs) == Some(tp)
    requires var bs := BufferSize(ReadoutOf(cfg.readoutType), cfg.recordSum, tp);
             MeasureRange(cfg.resumePoint, bs, DataSize(Counts(cfg), bs)) == Some(range)
    ensures RunSpec(cfg, env).1.Finished?
    ensures Tally(RunSpec(cfg, env).0, Initiate(x)) == Count(Opened(cfg, x))
    ensures Tally(RunSpec(cfg, env).0, Close(x)) == Count(Opened(cfg, x))
    ensures Tally(RunSpec(cfg, env).0, QueueOut) == Count(!RunSpec(cfg, env).1.stop.CancelledAt?)
  {
    var job := SizedJob(cfg, tp, range);
    RunDecomposes(cfg, env, tp, range);
    PhasesBalanced(job, env, tp, Initiate(x));
    PhasesBalanced(job, env, tp, Close(x));
    PhasesBalanced(job, env, tp, QueueOut);
  }

  /** The setup followed by actions that count nothing. */
  lemma SetupOnly(cfg: Config, tail: seq<Event>, e: Event)
    requires Named(cfg) && cfg.variant == SingleQubit && Inert(tail) && Visible(e)
    ensures Tally(SetupEvents(cfg) + tail, e) == Count(e.Initiate? && Opened(cfg, e.inst))
  {
    TallyAppend(SetupEvents(cfg), tail, e);
    InertCounts(tail, e);
    SetupCounts(cfg, e);
  }

  /** A run that crashes sizing the record leaves every instrument its setup
      opened open: nothing is closed and the job is not queued out. */
  lemma CrashLeavesOpen(cfg: Config, env: Env, x: Instrument)
    requires WellFormed(cfg) && cfg.variant == SingleQubit
    requires RunSpec(cfg, env).1 == Crashed(ZeroResolution) || RunSpec(cfg, env).1 == Crashed(ZeroBufferSize)
    ensures Tally(RunSpec(cfg, env).0, Initiate(x)) == Count(Opened(cfg, x))
    ensures Tally(RunSpec(cfg, env).0, Close(x)) == 0
    ensures Tally(RunSpec(cfg, env).0, QueueOut) == 0
  {
    RunOutcome(cfg, env);
    var tail := if RunSpec(cfg, env).1 == Crashed(ZeroResolution) then []
                else [AdcConfigure(TotalPoints(cfg.recordTimeNs, cfg.resolutionNs).value, cfg.recordSum)];
    assert SetupEvents(cfg) + [] == SetupEvents(cfg);
    assert RunSpec(cfg, env).0 == SetupEvents(cfg) + tail;
    SetupOnly(cfg, tail, Initiate(x));
    SetupOnly(cfg, tail, Close(x));
    SetupOnly(cfg, tail, QueueOut);
  }

  // ---------------------------------------------------------------------
  // The loop and the teardown (both variants), and the unbound sweep rate.

  /** Loop and teardown: the teardown's counted actions only. */
  lemma LoopTeardownCounts(job: ReadyJob, env: Env, e: Event)
    requires Visible(e)
    ensures var st := MeasureSpec(job, env);
            Tally(st.trace + TeardownEvents(job.cfg, st.stop), e)
            == Count((e.Close? && Opened(job.cfg, e.inst)) || (e == QueueOut && StillListed(st.stop)))
  {
    var st := MeasureSpec(job, env);
    TallyAppend(st.trace, TeardownEvents(job.cfg, st.stop), e);
    LoopCounts(job, env, e);
    TeardownCounts(job.cfg, st.stop, e);
  }

  /** After the loop, the teardown closes every instrument the run opened
      once and queues the job out once unless it was cancelled. */
  lemma MeasureAndCloseBalanced(job: ReadyJob, env: Env, x: Instrument)
    ensures Tally(MeasureAndCloseSpec(job, env).trace, Close(x)) == Count(Opened(job.cfg, x))
    ensures Tally(MeasureAndCloseSpec(job, env).trace, Initiate(x)) == 0
    ensures Tally(MeasureAndCloseSpec(job, env).trace, QueueOut) == Count(!MeasureSpec(job, env).stop.CancelledAt?)
  {
    LoopTeardownCounts(job, env, Close(x));
    LoopTeardownCounts(job, env, Initiate(x));
    LoopTeardownCounts(job, env, QueueOut);
  }

  /** The teardown as written up to the failing close takes no counted action
      but closing the ADC, the DACs and the oscillators. */
  lemma HeadAsWrittenCounts(cfg: Config, e: Event)
    requires Named(cfg) && (e == Close(Dc) || e == QueueOut)
    ensures var dacs := if cfg.variant == SingleQubit then DacsOff(|cfg.slots|) else DacsOff(1);
            Tally([Close(Adc)] + dacs + RoOff(cfg) + XyOff(cfg) + [DcOutput(false)], e) == 0
  {
    var n := if cfg.variant == SingleQubit then |cfg.slots| else 1;
    Piece([], Close(Adc), [], e);
    assert [] + [Close(Adc)] + [] == [Close(Adc)];
    DacsOffCounts(n, e);
    RoOffCounts(cfg, e);
    XyOffCounts(cfg, e);
    InertCounts([DcOutput(false)], e);
    TallyFive([Close(Adc)], DacsOff(n), RoOff(cfg), XyOff(cfg), [DcOutput(false)], e);
  }

  // ---------------------------------------------------------------------
  // The loop as written against the corrected loop.

  /** Two traces that differ at most in the data of their yielded buffers. */
  predicate AlikeButData(a: seq<Event>, b: seq<Event>)
  {
    |a| == |b| && forall k :: 0 <= k < |a| ==> a[k] == b[k] || (a[k].Emit? && b[k].Emit? && a[k].index == b[k].index)
  }

  lemma AlikeAppend(a: seq<Event>, b: seq<Event>, c: seq<Event>, d: seq<Event>)
    requires AlikeButData(a, b) && AlikeButData(c, d)
    ensures AlikeButData(a + c, b + d)
  {
    forall k | 0 <= k < |a + c|
      ensures (a + c)[k] == (b + d)[k] || ((a + c)[k].Emit? && (b + d)[k].Emit? && (a + c)[k].index == (b + d)[k].index)
    {
      if k >= |a| {
        assert (a + c)[k] == c[k - |a|] && (b + d)[k] == d[k - |a|];
      } else {
        assert (a + c)[k] == a[k] && (b + d)[k] == b[k];
      }
    }
  }

  /** Traces alike but for buffer data sweep the bias alike and take the same counted actions. */
  lemma AlikeSweptAndCounted(a: seq<Event>, b: seq<Event>, e: Event)
    requires AlikeButData(a, b)
    ensures BiasSwept(a) <==> BiasSwept(b)
    ensures !e.Emit? ==> (e in a <==> e in b)
  {
    if BiasSwept(a) {
      var k :| 0 <= k < |a| && a[k].BiasSweep?;
      assert b[k].BiasSweep?;
    }
    if BiasSwept(b) {
      var k :| 0 <= k < |b| && b[k].BiasSweep?;
      assert a[k].BiasSweep?;
    }
    if !e.Emit? {
      if e in a {
        var k :| 0 <= k < |a| && a[k] == e;
        assert b[k] == e;
      }
      if e in b {
        var k :| 0 <= k < |b| && b[k] == e;
        assert a[k] == e;
      }
    }
  }

  /** Records that break both readings or neither end the body alike. */
  lemma YieldAlike(pre: seq<Event>, p: Processed, q: Processed, listed: bool, i: nat)
    requires p.Mismatch? <==> q.Mismatch?
    ensures Yield(pre, p, listed, i).stop == Yield(pre, q, listed, i).stop
    ensures AlikeButData(Yield(pre, p, listed, i).trace, Yield(pre, q, listed, i).trace)
  {
    if p.Buffer? && listed {
      AlikeAppend(pre, pre, [Emit(i, p.data)], [Emit(i, q.data)]);
    }
  }

  /** The loop as written takes the same actions and breaks at the same index
      as the corrected loop; only the data of its buffers can differ, and only
      in the original one-shot mode. */
  lemma {:induction false} LoopReadingsAlike(job: ReadyJob, env: Env, k: nat)
    requires job.plan.lo <= k <= LoopEnd(job.plan)
    ensures RunUpTo(job, env, k, AsWritten).stop == RunUpTo(job, env, k).stop
    ensures AlikeButData(RunUpTo(job, env, k, AsWritten).trace, RunUpTo(job, env, k).trace)
    ensures !(job.plan.shape.readout == OneShot && job.plan.shape.demod == Original) ==>
              RunUpTo(job, env, k, AsWritten) == RunUpTo(job, env, k)
    decreases k
  {
    if k > job.plan.lo {
      var i := k - 1;
      LoopReadingsAlike(job, env, i);
      var aw, st := RunUpTo(job, env, i, AsWritten), RunUpTo(job, env, i);
      if st.stop == Running {
        assert RunUpTo(job, env, k, AsWritten) == Continued(job, env, i, AsWritten);
        assert RunUpTo(job, env, k) == Continued(job, env, i);
        var raw := env.acquire(i);
        ReadingsAgree(job.plan.shape, env.baseband, raw);
        YieldAlike(IndexEvents(job, i), ProcessAsWritten(job.plan.shape, env.baseband, raw),
                   Process(job.plan.shape, env.baseband, raw), env.listed(i), i);
        AlikeAppend(aw.trace, st.trace, IndexStep(job, env, i, AsWritten).trace, IndexStep(job, env, i).trace);
      } else {
        StoppedStep(job, env, i, AsWritten);
        StoppedStep(job, env, i);
      }
    }
  }

  lemma LoopThenHeadLacks(job: ReadyJob, env: Env, e: Event)
    requires e == Close(Dc) || e == QueueOut
    ensures var cfg := job.cfg;
            var dacs := if cfg.variant == SingleQubit then DacsOff(|cfg.slots|) else DacsOff(1);
            e !in MeasureSpec(job, env, AsWritten).trace + ([Close(Adc)] + dacs + RoOff(cfg) + XyOff(cfg) + [DcOutput(false)])
  {
    var cfg := job.cfg;
    var dacs := if cfg.variant == SingleQubit then DacsOff(|cfg.slots|) else DacsOff(1);
    var head := [Close(Adc)] + dacs + RoOff(cfg) + XyOff(cfg) + [DcOutput(false)];
    var t := MeasureSpec(job, env, AsWritten).trace;
    LoopCounts(job, env, e, AsWritten);
    HeadAsWrittenCounts(cfg, e);
    TallyAppend(t, head, e);
    TallyPositive(t + head, e);
  }

  /** As written, a bias source that is not optional and was never swept in
      the loop makes the teardown crash on the unbound sweep rate: the bias
      source is never closed and the job never queued out. */
  lemma SweepRateUnbound(job: ReadyJob, env: Env)
    requires !Optional(job.cfg, FluxBias) && !BiasSwept(MeasureSpec(job, env).trace)
    ensures MeasureAndCloseAsWritten(job, env).1 == Crashed(UnboundSweepRate)
    ensures Close(Dc) !in MeasureAndCloseAsWritten(job, env).0
    ensures QueueOut !in MeasureAndCloseAsWritten(job, env).0
  {
    LoopReadingsAlike(job, env, LoopEnd(job.plan));
    AlikeSweptAndCounted(MeasureSpec(job, env, AsWritten).trace, MeasureSpec(job, env).trace, QueueOut);
    LoopThenHeadLacks(job, env, Close(Dc));
    LoopThenHeadLacks(job, env, QueueOut);
  }

  /** Whenever the bias is optional or was swept, the loop and teardown as
      written finish like the corrected ones, with the same actions; only the
      data of the buffers can differ, and only in the original one-shot mode. */
  lemma AsWrittenAgrees(job: ReadyJob, env: Env)
    requires Optional(job.cfg, FluxBias) || BiasSwept(MeasureSpec(job, env).trace)
    ensures MeasureAndCloseAsWritten(job, env).1 == Finished(MeasureSpec(job, env).stop)
    ensures AlikeButData(MeasureAndCloseAsWritten(job, env).0, MeasureAndCloseSpec(job, env).trace)
    ensures !(job.plan.shape.readout == OneShot && job.plan.shape.demod == Original) ==>
              MeasureAndCloseAsWritten(job, env) == (MeasureAndCloseSpec(job, env).trace, Finished(MeasureSpec(job, env).stop))
  {
    var cfg, st, aw := job.cfg, MeasureSpec(job, env), MeasureSpec(job, env, AsWritten);
    LoopReadingsAlike(job, env, LoopEnd(job.plan));
    AlikeSweptAndCounted(aw.trace, st.trace, QueueOut);
    var dacs := if cfg.variant == SingleQubit then DacsOff(|cfg.slots|) else DacsOff(1);
    var td := TeardownEvents(cfg, st.stop);
    assert [Close(Adc)] + dacs + RoOff(cfg) + XyOff(cfg) + DcOff(cfg) + QueueOutIf(st.stop) == td;
    AlikeAppend(aw.trace, st.trace, td, td);
  }

  /** The idle job (no axis, empty range, a bias that is not optional) shows
      the crash: as written it ends on the unbound sweep rate with the bias
      source still open, while the modelled teardown closes it. */
  lemma SweepRateCounterexample(env: Env)
    ensures MeasureAndCloseAsWritten(IdleJob, env).1 == Crashed(UnboundSweepRate)
    ensures Close(Dc) !in MeasureAndCloseAsWritten(IdleJob, env).0
    ensures Close(Dc) in MeasureAndCloseSpec(IdleJob, env).trace
  {
    var job: ReadyJob := IdleJob;
    assert MeasureSpec(job, env) == LoopState([], Running);
    assert !BiasSwept(MeasureSpec(job, env).trace);
    assert !Optional(job.cfg, FluxBias);
    SweepRateUnbound(job, env);
    MeasureAndCloseBalanced(job, env, Dc);
    TallyPositive(MeasureAndCloseSpec(job, env).trace, Close(Dc));
  }

  /** A sized run as written is the setup and the ADC configuration followed
      by the loop and teardown as written. */
  lemma SizedRunAsWritten(cfg: Config, env: Env, tp: nat, range: Range)
    requires WellFormed(cfg) && cfg.variant == SingleQubit && !DummyBias(cfg)
    requires TotalPoints(cfg.recordTimeNs, cfg.resolutionNs) == Some(tp)
    requires var bs := BufferSize(ReadoutOf(cfg.readoutType), cfg.recordSum, tp);
             MeasureRange(cfg.resumePoint, bs, DataSize(Counts(cfg), bs)) == Some(range)
    ensures var aw := MeasureAndCloseAsWritten(SizedJob(cfg, tp, range), env);
            RunAsWritten(cfg, env) == (SetupEvents(cfg) + [AdcConfigure(tp, cfg.recordSum)] + aw.0, aw.1)
  {
    var aw := MeasureAndCloseAsWritten(SizedJob(cfg, tp, range), env);
    var adc := [AdcConfigure(tp, cfg.recordSum)];
    assert MeasuredAsWritten(cfg, env) == (adc + aw.0, aw.1);
    assert SetupEvents(cfg) + (adc + aw.0) == SetupEvents(cfg) + adc + aw.0;
  }

  /** The corrected sized run, in the same shape. */
  lemma SizedRunSpec(cfg: Config, env: Env, tp: nat, range: Range)
    requires WellFormed(cfg) && cfg.variant == SingleQubit && !DummyBias(cfg)
    requires TotalPoints(cfg.recordTimeNs, cfg.resolutionNs) == Some(tp)
    requires var bs := BufferSize(ReadoutOf(cfg.readoutType), cfg.recordSum, tp);
             MeasureRange(cfg.resumePoint, bs, DataSize(Counts(cfg), bs)) == Some(range)
    ensures var job := SizedJob(cfg, tp, range);
            RunSpec(cfg, env) == (SetupEvents(cfg) + [AdcConfigure(tp, cfg.recordSum)] + MeasureAndCloseSpec(job, env).trace,
                                  Finished(MeasureSpec(job, env).stop))
  {
    var job := SizedJob(cfg, tp, range);
    var sp := MeasureAndCloseSpec(job, env);
    var adc := [AdcConfigure(tp, cfg.recordSum)];
    assert Measured(cfg, env) == (adc + sp.trace, Finished(sp.stop));
    assert SetupEvents(cfg) + (adc + sp.trace) == SetupEvents(cfg) + adc + sp.trace;
  }

  /** A sized run as written crashes on the unbound sweep rate exactly when
      its bias is not optional and the loop never swept it; the bias source
      is then never closed and the job never queued out. Every other sized
      run as written ends as the corrected run does, with the same actions;
      the data of its buffers differs only in the original one-shot mode,
      and otherwise it is the corrected run. */
  lemma RunAsWrittenOutcome(cfg: Config, env: Env, tp: nat, range: Range)
    requires WellFormed(cfg) && cfg.variant == SingleQubit && !DummyBias(cfg)
    requires TotalPoints(cfg.recordTimeNs, cfg.resolutionNs) == Some(tp)
    requires var bs := BufferSize(ReadoutOf(cfg.readoutType), cfg.recordSum, tp);
             MeasureRange(cfg.resumePoint, bs, DataSize(Counts(cfg), bs)) == Some(range)
    ensures RunAsWritten(cfg, env).1 == Crashed(UnboundSweepRate)
            <==> !Optional(cfg, FluxBias) && !BiasSwept(MeasureSpec(SizedJob(cfg, tp, range), env).trace)
    ensures RunAsWritten(cfg, env).1 == Crashed(UnboundSweepRate) ==>
              Close(Dc) !in RunAsWritten(cfg, env).0 && QueueOut !in RunAsWritten(cfg, env).0
    ensures RunAsWritten(cfg, env).1 != Crashed(UnboundSweepRate) ==>
              RunAsWritten(cfg, env).1 == RunSpec(cfg, env).1 && AlikeButData(RunAsWritten(cfg, env).0, RunSpec(cfg, env).0)
    ensures RunAsWritten(cfg, env).1 != Crashed(UnboundSweepRate) && !(ReadoutOf(cfg.readoutType) == OneShot && cfg.demod == Original) ==>
              RunAsWritten(cfg, env) == RunSpec(cfg, env)
  {
    var job := SizedJob(cfg, tp, range);
    var aw := MeasureAndCloseAsWritten(job, env);
    var head := SetupEvents(cfg) + [AdcConfigure(tp, cfg.recordSum)];
    SizedRunAsWritten(cfg, env, tp, range);
    SizedRunSpec(cfg, env, tp, range);
    if !Optional(cfg, FluxBias) && !BiasSwept(MeasureSpec(job, env).trace) {
      SweepRateUnbound(job, env);
      forall e | e == Close(Dc) || e == QueueOut
        ensures e !in head + aw.0
      {
        SetupCounts(cfg, e);
        InertCounts([AdcConfigure(tp, cfg.recordSum)], e);
        TallyAppend(SetupEvents(cfg), [AdcConfigure(tp, cfg.recordSum)], e);
        TallyPositive(head, e);
      }
    } else {
      AsWrittenAgrees(job, env);
      AlikeAppend(head, head, aw.0, MeasureAndCloseSpec(job, env).trace);
    }
  }


  /** A run as written that ends before the loop is the modelled run. */
  lemma EarlyCrashAsWritten(cfg: Config, env: Env)
    requires WellFormed(cfg) && cfg.variant == SingleQubit && RunSpec(cfg, env).1.Crashed?
    ensures RunAsWritten(cfg, env) == RunSpec(cfg, env)
  {
    RunOutcome(cfg, env);
  }

  // ---------------------------------------------------------------------
  // The DAC block of one index (Single_Qubit).

  /** A composition as the wiring asks for it: a wired channel of a slot,
      the channel's score, the slot's marker, the master flag on slot 0 only
      and `clearQ` on a slot of four channels. */
  predicate AsWired(cfg: Config, score: ScoreMap, e: Event)
    requires cfg.variant == SingleQubit && Keyed(score, cfg) && e.DacCompose?
  {
    && e.slot < |cfg.slots|
    && e.channel in cfg.slots[e.slot].channels
    && e.score == score[Slotted(e.slot + 1, e.channel)]
    && e.marker == Marker(cfg, e.slot)
    && e.settings == Some(Settings(e.slot == 0, |cfg.slots[e.slot].channels| == 4))
  }

  predicate AllAsWired(cfg: Config, score: ScoreMap, t: seq<Event>)
    requires cfg.variant == SingleQubit && Keyed(score, cfg)
  {
    forall k :: 0 <= k < |t| && t[k].DacCompose? ==> AsWired(cfg, score, t[k])
  }

  lemma {:induction false} SlotComposesAsWired(cfg: Config, score: ScoreMap, s: nat, n: nat)
    requires cfg.variant == SingleQubit && Keyed(score, cfg) && s < |cfg.slots| && n <= |cfg.slots[s].channels|
    ensures AllAsWired(cfg, score, SlotComposes(cfg, score, s, n))
  {
    if n > 0 {
      SlotComposesAsWired(cfg, score, s, n - 1);
    }
  }

  lemma {:induction false} ComposeSlotsAsWired(cfg: Config, score: ScoreMap, n: nat)
    requires cfg.variant == SingleQubit && Keyed(score, cfg) && n <= |cfg.slots|
    ensures AllAsWired(cfg, score, ComposeSlots(cfg, score, n))
  {
    if n > 0 {
      ComposeSlotsAsWired(cfg, score, n - 1);
      SlotComposesAsWired(cfg, score, n - 1, |cfg.slots[n - 1].channels|);
    }
  }

  /** Every composition of the DAC block is as the wiring asks for it. */
  lemma ComposeSound(cfg: Config, score: ScoreMap)
    requires cfg.variant == SingleQubit && Keyed(score, cfg)
    ensures AllAsWired(cfg, score, ComposeEvents(cfg, score))
  {
    ComposeSlotsAsWired(cfg, score, |cfg.slots|);
  }

  /** The composition of channel `k` of slot `s`. */
  function Composition(cfg: Config, score: ScoreMap, s: nat, k: nat): Event
    requires cfg.variant == SingleQubit && Keyed(score, cfg) && s < |cfg.slots| && k < |cfg.slots[s].channels|
  {
    var ch := cfg.slots[s].channels[k];
    DacCompose(s, ch, score[Slotted(s + 1, ch)], Marker(cfg, s), Some(SlotSettings(cfg, s)))
  }

  lemma {:induction false} SlotComposesCover(cfg: Config, score: ScoreMap, s: nat, n: nat, k: nat)
    requires cfg.variant == SingleQubit && Keyed(score, cfg) && s < |cfg.slots| && k < n <= |cfg.slots[s].channels|
    ensures Composition(cfg, score, s, k) in SlotComposes(cfg, score, s, n)
  {
    if k < n - 1 {
      SlotComposesCover(cfg, score, s, n - 1, k);
    }
  }

  lemma {:induction false} ComposeSlotsCover(cfg: Config, score: ScoreMap, n: nat, s: nat, k: nat)
    requires cfg.variant == SingleQubit && Keyed(score, cfg) && s < n <= |cfg.slots| && k < |cfg.slots[s].channels|
    ensures Composition(cfg, score, s, k) in ComposeSlots(cfg, score, n)
  {
    if s < n - 1 {
      ComposeSlotsCover(cfg, score, n - 1, s, k);
    } else {
      SlotComposesCover(cfg, score, s, |cfg.slots[s].channels|, k);
    }
  }

  /** Every wired channel of every slot gets its score at every index. */
  lemma ComposeCovers(cfg: Config, score: ScoreMap, s: nat, k: nat)
    requires cfg.variant == SingleQubit && Keyed(score, cfg) && s < |cfg.slots| && k < |cfg.slots[s].channels|
    ensures Composition(cfg, score, s, k) in ComposeEvents(cfg, score)
  {
    ComposeSlotsCover(cfg, score, |cfg.slots|, s, k);
  }

  /** The score a wired channel gets at index `i` is its template text with
      every template axis's current value substituted in structure order;
      entries of unwired channels stay the template's. */
  lemma ScoreAtChannel(cfg: Config, counts: seq<nat>, i: nat, c: Channel)
    requires WellFormed(cfg) && counts == Counts(cfg) && Positive(counts) && Distinct(Chans(cfg))
    requires c in cfg.template
    ensures ScoreAt(cfg, counts, i)[c]
            == if c in Chans(cfg) then AxesApplied(cfg.template[c], cfg.structure, AxisValues(cfg, counts, i), |cfg.structure|)
               else cfg.template[c]
  {
    KeyedIsWired(cfg.template, cfg);
    MaterialisedAt(cfg.template, cfg.structure, AxisValues(cfg, counts, i), Chans(cfg), |cfg.structure|, c);
  }
}
