# Sweep acquisition engine of PYQUM's `manipulate` directive

This project models the measure loop of `Single_Qubit` in
`TEST/FACE/pyqum/directive/manipulate.py`. That generator drives a bias
source, two local oscillators (XY and readout), the DAC slots and the ADC
through a multi-dimensional parameter sweep. It yields one processed buffer
per flat progress index. The loop of `Qubits` is the same generator wired to
one DAC with four channels `CH1`..`CH4`, and is modelled as a `Variant` of
the same code.

The model has these parts:

- **Sizing** (`Sizing`):
  - the number of samples per trace, `TOTAL_POINTS`, computed with Python's rounding (half to even);
  - the buffer size: `recordsum*2` for one-shot readout, `TOTAL_POINTS*2` otherwise;
  - the data size, the uint64 product of the axis counts times the buffer size;
  - the loop range `range(resumepoint//buffersize, datasize//buffersize)`.
- **Indexing** (`Indexing`):
  - the coordinate tuple of a flat index, read as a mixed-radix number;
  - the lazy-refresh test `i % prod(cstructure[j+1:]) == 0 or i == first index`.

  The code of `cdatasearch` is not part of this model. Its declared contract,
  `coord[j] = (i / prod(s[j+1:])) % s[j]`, is the definition of `Address`. It is
  an assumption here, not verified code.
- **Score materialisation** (`Text`, `Score`): each index starts from an
  unchanged copy of the score template. For every structure position past the
  three physical axes, each `{name}` placeholder is replaced by the value's
  text in every wired channel. `str.replace` is modelled as
  split-at-leftmost-occurrences and join.
- **Post-processing** (`PostProcessing`):
  - the reshape of the ADC record into shots;
  - the in-place rewrite of each shot row, over an `array2`;
  - the half-row time averages after `skipoints` leading samples (one-shot);
  - the shot average (averaged readout);
  - the `ValueError` that breaks the loop.

  The demodulation step `pulse_baseband` is a parameter.
- **The generator** (`Sweep`): the instruments are abstract. Every action on
  them is an `Event` appended to a trace, and every `yield` of the measure loop
  (manipulate.py:308) is an `Emit` event.
  - The ADC record of each index, whether the job id is still listed after each
    index, and the demodulation step come from outside (`Env`).
  - The imperative methods (`Run`, `SetupInstruments`, `MeasureLoop`,
    `MeasureIndex`, `ComposeAll`, `DriveAxes`, `Teardown`, ...) follow the
    source's statements and loops, with two corrections listed under
    "## Findings". `Teardown` closes the bias source even when `sweeprate` was
    never bound (manipulate.py:325), and the post-processing de-interleaves
    the shot rows in the original one-shot mode (manipulate.py:282-288).
    Each method is proved equal to a specification function (`RunSpec`,
    `SetupEvents`, `MeasureSpec`, `IndexStep`, ...).
  - The loop's specification functions (`IndexStep`, `RunUpTo`, `MeasureSpec`)
    take a `Reading`: `Corrected` processes each record with `Process`, and
    `AsWritten` with `ProcessAsWritten`, the one-shot path as written.
    `RunAsWritten` and `MeasureAndCloseAsWritten` are the code as written:
    they use the loop with the `AsWritten` reading and the teardown as written
    (`TeardownAsWritten`). Lemmas relate them to the corrected functions.
  - The measure loop's specification is a fold over the flat indices,
    `RunUpTo`, that stops at the first break.
- **Properties** (`SweepProperties`): what the traces of those functions
  guarantee.
  - The loop body only drives axes, composes, acquires and emits.
  - The loop emits exactly the indices `lo, lo+1, ...` in increasing order,
    one buffer per index, up to the index where it broke.
  - Every emitted buffer is the post-processing of that index's record, and has
    the buffer size.
  - Every instrument the setup initiates is closed exactly once, and no other
    instrument is.
  - The job is queued out exactly when the loop was not cancelled.
  - A crash in the sizing leaves the instruments open and queues nothing out.
  - Every composition goes to a wired channel with its slot's marker and
    settings (slot 0 is the master), and every wired channel is composed.

Counts of events are stated with `Tally`, the number of occurrences of an
event in a trace. `SweepProperties.TallyIsMultiplicity` shows that `Tally` is
the trace's multiset multiplicity.

Behaviour of the code worth noting:

- The resume index is `resumepoint // buffersize`, a floor (manipulate.py:206), not a ceiling.
- `datasize` is built as a multiple of `buffersize` (manipulate.py:196), so the range division has no remainder.
- Slot 0 is prepared, composed and made ready first, and it is the master (manipulate.py:155-160, 252-253). It is not armed last.
- The teardown runs after the loop ends normally, after a `ValueError` break and after a cancellation break. It is not a finalizer: an exception elsewhere skips it, as do the sizing crashes (`Crashed` outcomes).
- A zero buffer size raises `ZeroDivisionError` only after every instrument was initiated (manipulate.py:206).

## Model

| member | source | states |
|---|---|---|
| Sizing.ProdZero | TEST/FACE/pyqum/directive/manipulate.py:195 | the product of the counts is zero exactly when some count is zero |
| Sizing.TotalPoints | TEST/FACE/pyqum/directive/manipulate.py:182 | TOTAL_POINTS raises a division error exactly when the time resolution is zero |
| Sizing.RoundHalfEvenNearest | TEST/FACE/pyqum/directive/manipulate.py:182 | Python's `round(n / d)` is within half a divisor of `n / d`, and a tie goes to the even neighbour |
| Sizing.TotalPointsNearest | TEST/FACE/pyqum/directive/manipulate.py:182 | a computed TOTAL_POINTS is the record time over the resolution, rounded to the nearest integer |
| Sizing.MeasureRange | TEST/FACE/pyqum/directive/manipulate.py:206 | the loop range raises a division error exactly when the buffer size is zero |
| Sizing.MeasureRangeFloors | TEST/FACE/pyqum/directive/manipulate.py:206 | the range starts at the buffer holding the resume point (floor division) and ends at the buffer holding the end of the data |
| Sizing.SweepLength | TEST/FACE/pyqum/directive/manipulate.py:188-206 | `datasize // buffersize` is the uint64 product of the counts, and equals the product exactly when it fits in 64 bits |
| Sizing.EmptySweep | TEST/FACE/pyqum/directive/manipulate.py:195-206 | the loop range is empty exactly when some count is zero or the resume index is at or past the product of the counts |
| Sizing.ResumeAtBuffer | TEST/FACE/pyqum/directive/manipulate.py:206 | resuming at `k * buffersize` starts the loop at index `k` |
| Indexing.Stride | TEST/FACE/pyqum/directive/manipulate.py:218 | `prod(cstructure[j+1:])` is positive when every count is |
| Indexing.Address | TEST/FACE/pyqum/directive/manipulate.py:211 | the assumed `cdatasearch` contract gives one coordinate per axis, each below its axis's count |
| Indexing.ComposeAddress | TEST/FACE/pyqum/directive/manipulate.py:211 | composing the coordinates of `i` gives back `i` modulo the size of the space |
| Indexing.AddressRoundTrip | TEST/FACE/pyqum/directive/manipulate.py:211 | every index of the space is recovered from its coordinates |
| Indexing.ComposeBound | TEST/FACE/pyqum/directive/manipulate.py:211 | an in-range coordinate tuple composes to an index inside the space |
| Indexing.AddressOfCompose | TEST/FACE/pyqum/directive/manipulate.py:211 | the coordinates of a composed tuple are the tuple, so the resolver is a bijection between the indices and the tuples |
| Indexing.AddressModProd | TEST/FACE/pyqum/directive/manipulate.py:211 | the coordinates depend only on the index modulo the size of the space |
| Indexing.TwoByThree | TEST/FACE/pyqum/directive/manipulate.py:211 | sizes [2, 3] enumerate (0,0), (0,1), (0,2), (1,0), (1,1), (1,2) |
| Indexing.NotRefreshedKeepsCoordinate | TEST/FACE/pyqum/directive/manipulate.py:218 | an axis whose refresh test is false keeps the coordinate of the previous index, so the skipped hardware write loses nothing |
| Indexing.RefreshAdvancesCoordinate | TEST/FACE/pyqum/directive/manipulate.py:218 | at a positive multiple of its stride an axis's coordinate advances by one, wrapping to 0 |
| Indexing.InnermostAlwaysRefreshed | TEST/FACE/pyqum/directive/manipulate.py:218 | the innermost axis (empty product) is refreshed at every index |
| Indexing.RefreshPropagatesInward | TEST/FACE/pyqum/directive/manipulate.py:218 | a refresh of axis `j` by divisibility refreshes every inner axis `k > j` |
| Indexing.LastRefreshHolds | TEST/FACE/pyqum/directive/manipulate.py:217-234 | at every index, the last refresh of each axis since the first index happened at an index with the current coordinate, and no later index refreshed it, so the hardware holds the current value |
| Text.Split | TEST/FACE/pyqum/directive/manipulate.py:244 | splitting a text at a placeholder gives at least one segment |
| Text.ReplaceIsJoinOfSplit | TEST/FACE/pyqum/directive/manipulate.py:244 | `str.replace` cuts the text at the leftmost occurrences and joins the pieces with the replacement |
| Text.SplitJoin | TEST/FACE/pyqum/directive/manipulate.py:244 | joining the segments with the placeholder gives the text back |
| Text.ReplaceBySelf | TEST/FACE/pyqum/directive/manipulate.py:244 | replacing a placeholder by itself leaves the text unchanged |
| Text.SplitHeadIsPrefix | TEST/FACE/pyqum/directive/manipulate.py:244 | the first segment is the text before the first occurrence: a prefix with no occurrence, followed by the placeholder when there is one |
| Text.SplitIsLeftmost | TEST/FACE/pyqum/directive/manipulate.py:244 | no segment holds an occurrence starting inside it, so every occurrence the left-to-right scan finds is replaced |
| Text.ReplaceAbsent | TEST/FACE/pyqum/directive/manipulate.py:244 | text without the placeholder comes through unchanged |
| Score.SubstitutePrefix | TEST/FACE/pyqum/directive/manipulate.py:240-244 | rewriting the channels keeps the score map's keys |
| Score.MaterialisedUpTo | TEST/FACE/pyqum/directive/manipulate.py:216-244 | the rewritten copy of the template has the template's keys |
| Score.SubstitutePrefixAt | TEST/FACE/pyqum/directive/manipulate.py:240-244 | one axis's pass replaces the placeholder in each wired channel once and leaves every other entry unchanged |
| Score.MaterialisedAt | TEST/FACE/pyqum/directive/manipulate.py:216-244 | a wired channel's score is its template text with every template axis substituted in structure order; every other entry is the template's |
| Score.AxesAppliedAbsent | TEST/FACE/pyqum/directive/manipulate.py:238-244 | a channel text holding none of the template axes' placeholders comes through unchanged |
| Score.NoTemplateAxes | TEST/FACE/pyqum/directive/manipulate.py:238 | with no structure position past the three physical axes, the scores are the template's |
| Score.SubstituteSegments | TEST/FACE/pyqum/directive/manipulate.py:244 | one substitution cuts the text at the placeholder's leftmost occurrences, keeps the text between them, and puts the value in each cut |
| Score.SubstituteAxis | TEST/FACE/pyqum/directive/manipulate.py:240-244 | the channel loop of one axis rewrites the map as the specification of one axis's pass says |
| Score.MaterialiseScores | TEST/FACE/pyqum/directive/manipulate.py:216-244 | the deep copy and the axis loop produce the materialised score map of the index |
| PostProcessing.Drop | TEST/FACE/pyqum/directive/manipulate.py:288 | `s[k:]` keeps `len(s) - k` samples, none when `k` exceeds the length |
| PostProcessing.SkipPoints | TEST/FACE/pyqum/directive/manipulate.py:99-103 | `ceil(1000 / abs(IF))` samples are skipped in the two single-quadrature homodyne modes and none otherwise; a zero IF prints the warning and skips none |
| PostProcessing.SplitInterleave | TEST/FACE/pyqum/directive/manipulate.py:284 | de-interleaving an interleaved pair of traces gives the I trace and the Q trace |
| PostProcessing.InterleaveSplit | TEST/FACE/pyqum/directive/manipulate.py:293-295 | re-interleaving the I and Q samples of an even-length trace gives the trace back |
| PostProcessing.FramedLength | TEST/FACE/pyqum/directive/manipulate.py:281 | a record can be reshaped into `n` rows of width `w` exactly when its length is `n * w` |
| PostProcessing.Reshape | TEST/FACE/pyqum/directive/manipulate.py:281 | the reshape has `n` rows, each of width `w` |
| PostProcessing.FlattenReshape | TEST/FACE/pyqum/directive/manipulate.py:281 | flattening the reshaped rows gives the record back |
| PostProcessing.HalfRowsAreReshape | TEST/FACE/pyqum/directive/manipulate.py:288 | the `[recordsum*2, TOTAL_POINTS]` view of the shot rows is their halves, in order |
| PostProcessing.HalfRowMeans | TEST/FACE/pyqum/directive/manipulate.py:288 | the one-shot average has two entries per shot |
| PostProcessing.ColumnMeans | TEST/FACE/pyqum/directive/manipulate.py:291 | the averaged-readout mean over shots has one entry per column |
| PostProcessing.Rewritten | TEST/FACE/pyqum/directive/manipulate.py:283-286 | rewriting keeps the number of shot rows, and keeps their width when every rewrite fits |
| PostProcessing.ProcessFails | TEST/FACE/pyqum/directive/manipulate.py:278-300 | the ValueError happens exactly when the record length is not `recordsum*TOTAL_POINTS*2`, or when a demodulated trace does not have `TOTAL_POINTS` samples |
| PostProcessing.OneShotQuadratures | TEST/FACE/pyqum/directive/manipulate.py:280-288 | a one-shot buffer has the buffer size, and pair `r` is the average, from sample `skipoints` on, of shot `r`'s rewritten I trace and of its rewritten Q trace |
| PostProcessing.OriginalOneShotAverages | TEST/FACE/pyqum/directive/manipulate.py:280-288 | in the original mode a one-shot pair averages the shot's I samples and its Q samples, and no record of the right length fails |
| PostProcessing.OriginalOneShotMixesQuadratures | TEST/FACE/pyqum/directive/manipulate.py:282-288 | as written, the original mode averages a shot [1, 0, 1, 0] to [0.5, 0.5], where the quadrature averages are [1, 0] |
| PostProcessing.AveragedTrace | TEST/FACE/pyqum/directive/manipulate.py:290-295 | an averaged buffer has the buffer size; in the original mode each sample is its column's mean over shots, and otherwise its I and Q samples are the demodulation of the averaged traces |
| PostProcessing.ReadingsAgree | TEST/FACE/pyqum/directive/manipulate.py:278-300 | the processing as written fails exactly when the corrected one does, gives buffers of the same size, and differs from it only in the original one-shot mode |
| PostProcessing.ProcessedLength | TEST/FACE/pyqum/directive/manipulate.py:188-193 | every processed buffer has the buffer size of its readout type |
| PostProcessing.RewriteRows | TEST/FACE/pyqum/directive/manipulate.py:283-286 | the in-place loop `DATA[r,:] = ...` succeeds exactly when every shot's rewrite fits, and then leaves each row as its rewritten I trace followed by its Q trace |
| PostProcessing.PostProcess | TEST/FACE/pyqum/directive/manipulate.py:276-300 | the reshape, the row rewrite and the averages compute the specified processed buffer, or the mismatch |
| Sweep.Counts | TEST/FACE/pyqum/directive/manipulate.py:201 | `cstructure` has one count per structure position |
| Sweep.ScoreAt | TEST/FACE/pyqum/directive/manipulate.py:216 | SCORE_DEFINED has the template's keys at every index |
| Sweep.PlanReady | TEST/FACE/pyqum/directive/manipulate.py:195-206 | a non-empty loop range from the sizing rules implies that no axis is empty |
| Sweep.SetupInstruments | TEST/FACE/pyqum/directive/manipulate.py:119-180 | the pre-loop settings initiate the non-optional bias source, then the non-optional oscillators, then every DAC slot (prepare, idle compose, ready, play; slot 0 master with marker option 7), then the ADC |
| Sweep.DriveAxis | TEST/FACE/pyqum/directive/manipulate.py:218-234 | one axis issues at most one write, and a write is issued exactly when the axis is refreshed, names the quantity it sets (bias, XY or readout frequency) whose data is not optional, and carries the value at the axis's coordinate, with the bias current mode or the oscillator's action |
| Sweep.DriveAxes | TEST/FACE/pyqum/directive/manipulate.py:217-234 | the axis loop issues, outermost first, a bias or frequency write exactly when some axis writes it at this index |
| Sweep.DriveWrites | TEST/FACE/pyqum/directive/manipulate.py:218-234 | an event is in one axis's writes exactly when that axis writes it: refreshed, physical, not optional, with the value at the axis's coordinate |
| Sweep.DrivesWrite | TEST/FACE/pyqum/directive/manipulate.py:217-234 | an event is among the writes of the first `n` axes exactly when one of those axes writes it |
| Sweep.ComposeSlot | TEST/FACE/pyqum/directive/manipulate.py:250-272 | each channel of a slot is composed with the slot's marker and settings, then the slot is made ready |
| Sweep.ComposeAll | TEST/FACE/pyqum/directive/manipulate.py:250-272 | the DAC block composes every wired channel, slot by slot, and readies each slot (one DAC with CH1..CH4 and marker 2 in Qubits, 530-542) |
| Sweep.PrepareIndex | TEST/FACE/pyqum/directive/manipulate.py:211-276 | the body up to the acquisition drives the refreshed axes, composes the materialised scores, then acquires |
| Sweep.MeasureIndex | TEST/FACE/pyqum/directive/manipulate.py:208-309 | one index breaks on a mismatch, yields its buffer while the job is listed, and breaks when it is not |
| Sweep.LoopBody | TEST/FACE/pyqum/directive/manipulate.py:208-309 | one pass of the running loop appends that index's actions and its break |
| Sweep.LoopAdvance | TEST/FACE/pyqum/directive/manipulate.py:208-309 | while the loop runs, one more index appends the body's step to the trace |
| Sweep.StoppedStays | TEST/FACE/pyqum/directive/manipulate.py:300 | after a break, later indices change nothing |
| Sweep.MeasureLoop | TEST/FACE/pyqum/directive/manipulate.py:206-309 | `for i in measure_loop` with its two breaks computes the fold of the loop body over the range |
| Sweep.Teardown | TEST/FACE/pyqum/directive/manipulate.py:312-327 | the block after the loop closes the ADC and every DAC, then each non-optional oscillator and the bias source, then queues out only while the job is listed |
| Sweep.MeasureAndClose | TEST/FACE/pyqum/directive/manipulate.py:207-328 | the loop followed by one teardown, then the `while True` exits (also the Qubits loop, 490-597) |
| Sweep.SizeAndMeasure | TEST/FACE/pyqum/directive/manipulate.py:182-206 | TOTAL_POINTS, the ADC configuration, the buffer size and the range, then the loop and teardown, with the two division crashes |
| Sweep.Run | TEST/FACE/pyqum/directive/manipulate.py:119-328 | the generator: the bias-driver crash, the setup, sizing, the loop and the teardown |
| SweepProperties.DrivesOnly | TEST/FACE/pyqum/directive/manipulate.py:217-234 | the axis loop only issues bias sweeps and frequency writes |
| SweepProperties.ComposeEventsOnly | TEST/FACE/pyqum/directive/manipulate.py:250-272 | the DAC block only composes and readies |
| SweepProperties.IndexWrites | TEST/FACE/pyqum/directive/manipulate.py:217-276 | a bias sweep or frequency write is in the body of index `i` exactly when some axis writes it there with its value at the coordinates of `i` |
| SweepProperties.AxisHeld | TEST/FACE/pyqum/directive/manipulate.py:217-234 | for a non-optional physical axis, the last index since the first that wrote the axis wrote the value at the current coordinate, and no later index up to the current one writes that axis, so the instrument holds the current value |
| SweepProperties.IndexEventsQuiet | TEST/FACE/pyqum/directive/manipulate.py:208-276 | before its yield an index only takes loop actions and emits nothing |
| SweepProperties.YieldShape | TEST/FACE/pyqum/directive/manipulate.py:297-309 | the end of the body emits at most the processed buffer of its own index, and a break is at that index |
| SweepProperties.YieldEmits | TEST/FACE/pyqum/directive/manipulate.py:305-309 | an index's buffer is emitted exactly when the loop keeps running |
| SweepProperties.StepShape | TEST/FACE/pyqum/directive/manipulate.py:208-309 | one running index adds loop actions only, emits its own index exactly when it does not break, and breaks, if at all, at itself |
| SweepProperties.StoppedStep | TEST/FACE/pyqum/directive/manipulate.py:300 | a broken loop stays as it is at the next index |
| SweepProperties.LoopEmits | TEST/FACE/pyqum/directive/manipulate.py:206-309 | the loop takes only loop actions and emits `lo, lo+1, ...` in increasing order, one buffer per index, every index while it runs and up to the break index when it breaks |
| SweepProperties.LoopProcesses | TEST/FACE/pyqum/directive/manipulate.py:276-308 | under either reading, every emitted buffer is the record of its own index processed by that reading |
| SweepProperties.MeasureEmits | TEST/FACE/pyqum/directive/manipulate.py:206-309 | under either reading, the whole loop takes only loop actions, emits its indices in order, and emits records processed by that reading |
| SweepProperties.EmitSizes | TEST/FACE/pyqum/directive/manipulate.py:188-193 | under either reading, every emitted buffer has the buffer size |
| SweepProperties.LoopCounts | TEST/FACE/pyqum/directive/manipulate.py:207-309 | the loop never initiates or closes an instrument and never queues out |
| SweepProperties.SetupCounts | TEST/FACE/pyqum/directive/manipulate.py:119-180 | the setup initiates each opened instrument once (bias and oscillators unless optional, each DAC slot, the ADC) and nothing else |
| SweepProperties.TeardownCounts | TEST/FACE/pyqum/directive/manipulate.py:312-327 | the teardown closes each opened instrument once and queues out once exactly when the job is still listed |
| SweepProperties.RunOutcome | TEST/FACE/pyqum/directive/manipulate.py:119-206 | a run crashes on a DUMMY bias driver (with no action), on a zero time resolution (after the setup) or on a zero buffer size (after the ADC configuration) exactly in those cases, and otherwise finishes |
| SweepProperties.RunDecomposes | TEST/FACE/pyqum/directive/manipulate.py:119-328 | a sized run is setup, ADC configuration, the measure loop and one teardown, in that order |
| SweepProperties.PhasesBalanced | TEST/FACE/pyqum/directive/manipulate.py:119-327 | over the phases of a run, every counted action occurs once per opened instrument initiation, closing and listed queue-out |
| SweepProperties.RunBalanced | TEST/FACE/pyqum/directive/manipulate.py:119-327 | a sized run finishes, initiates and closes each opened instrument exactly once and no other, and queues out exactly when not cancelled |
| SweepProperties.CrashLeavesOpen | TEST/FACE/pyqum/directive/manipulate.py:182-206 | a sizing crash leaves every initiated instrument open and queues nothing out |
| SweepProperties.LoopTeardownCounts | TEST/FACE/pyqum/directive/manipulate.py:207-327 | the loop and its teardown close each opened instrument once and queue out exactly when listed |
| SweepProperties.MeasureAndCloseBalanced | TEST/FACE/pyqum/directive/manipulate.py:305-327 | the measure-and-close phase closes each opened instrument exactly once, initiates none, and queues out exactly when not cancelled |
| SweepProperties.SweepRateUnbound | TEST/FACE/pyqum/directive/manipulate.py:223-225 | as written, a non-optional bias that no index swept makes the bias close raise UnboundLocalError, so the bias source is never closed and the job never queued out |
| SweepProperties.LoopReadingsAlike | TEST/FACE/pyqum/directive/manipulate.py:276-309 | the loop as written breaks where the corrected loop breaks and takes the same actions, its buffers differing at most in their data; outside the original one-shot mode it is the corrected loop |
| SweepProperties.AsWrittenAgrees | TEST/FACE/pyqum/directive/manipulate.py:276-327 | when the bias is optional or was swept, the loop and teardown as written finish as the corrected ones, with the same actions and buffers differing at most in their data, and are the corrected ones outside the original one-shot mode |
| SweepProperties.SweepRateCounterexample | TEST/FACE/pyqum/directive/manipulate.py:325 | an empty loop range with a non-optional bias crashes as written without closing the bias source, which the corrected teardown closes |
| SweepProperties.RunAsWrittenOutcome | TEST/FACE/pyqum/directive/manipulate.py:119-328 | a sized run as written crashes on the unbound `sweeprate` exactly when the bias is not optional and no index swept it, and then never closes the bias source nor queues out; otherwise it ends as the corrected run with the same actions, its buffers differing at most in their data, and outside the original one-shot mode it is the corrected run |
| SweepProperties.EarlyCrashAsWritten | TEST/FACE/pyqum/directive/manipulate.py:119-206 | a run that crashes before the loop is the same as written and corrected |
| SweepProperties.ComposeSound | TEST/FACE/pyqum/directive/manipulate.py:250-270 | every composition goes to a wired channel of its slot, with that channel's score, the slot's marker (7 on an SDAWG master), Master on slot 0 only and clearQ on a four-channel slot |
| SweepProperties.ComposeCovers | TEST/FACE/pyqum/directive/manipulate.py:250-270 | every wired channel of every slot is composed at each index |
| SweepProperties.ScoreAtChannel | TEST/FACE/pyqum/directive/manipulate.py:216-244 | at each index a wired channel's score is its template with every template axis's current value substituted, and every other entry is the template's |

## Left out

- The DDSLO driver and every other instrument driver (`im(...)` imports): each instrument is an abstract sequence of events.
- The Flask `session`/`g` objects, `jobsinqueue`, `job_update_perimeter` and `qout`: only "is the job id still listed after index `i`" is modelled (`Env.listed`) and queue-out is an event.
- `pulser`, `song`, `music`/`envelope` and `waveform`: a composition records the channel's materialised score text. An axis's data is its list of value texts, and its count is that list's length.
- `pulse_baseband` and the ADC acquisition: they are parameters of the run (`Env.baseband`, `Env.acquire`).
- Floating point: means are over `real`. numpy's NaN mean of an empty slice (all samples skipped) is 0 here.
- Sweep.Drive: a frequency write records the axis value's text; the `+ Compensate_MHz/1e3` offset and the `"GHz"` suffix of the source's frequency text (231, 234) are not modelled.
- The sweep-rate constants (224-225), the `dt` rounding (164), the oscillator power values, the trigger delay and the progress percentage (303): they are floats or print-only.
- Printing and colours.
- Sweep.Upper: ASCII upper-casing only; Python's Unicode case mapping is not modelled.
- The setup of `Qubits` (396-489): it uses undefined names (427, 429, 445), calls `.split` on lists (418, 442) and passes lists to `dict.fromkeys` (361), so it cannot run as written. Only its loop and teardown are modelled, from a completed setup (`Sweep.MeasureAndClose` with `Variant.Qubits`).
- Closing the generator early from the consumer side, and any exception other than the modelled ValueError, division errors and the unbound sweep rate.
- `instr['SG']` with more or fewer than two generators, and instrument names without a `_`.
- Sweep.WellFormed: a score key missing for a wired channel, or a structure name without data, raises KeyError in the source; the model requires these keys instead of modelling the KeyError.
- Sizing.EmptySweep: stated for products of the counts that fit in 64 bits; `Sizing.SweepLength` states the uint64 wrap-around in general.
- SweepProperties.ScoreAtChannel: requires that no channel is wired twice (`Distinct`); a channel wired twice has its placeholders rewritten again, which is not characterised.
- Score.SubstitutePrefixAt: requires that no channel is wired twice (`Distinct`), as for `ScoreAtChannel`.
- Score.MaterialisedAt: requires that no channel is wired twice (`Distinct`), as for `ScoreAtChannel`.
- SweepProperties.RunOutcome and the other run lemmas are about `Single_Qubit`; `Sweep.RunSpec` requires `Variant.SingleQubit`.
- SweepProperties.RunOutcome: "no run crashes at its teardown" holds for the corrected run only. As written, a sized run with a non-optional bias that no index swept crashes on the unbound `sweeprate` (manipulate.py:325); `SweepProperties.RunAsWrittenOutcome` states exactly when.
- Sweep.Teardown: follows the corrected teardown, which closes the bias source unconditionally. As written, the close at manipulate.py:325 raises UnboundLocalError when no index swept a non-optional bias, after the bias output was turned off (`Sweep.TeardownAsWritten`, `SweepProperties.SweepRateUnbound`).
- Sweep.MeasureAndClose: uses the corrected teardown and processing; `Sweep.MeasureAndCloseAsWritten` is the code as written, and `SweepProperties.AsWrittenAgrees` says how the two agree.
- Sweep.MeasureIndex: computes the corrected reading (`PostProcessing.PostProcess`); the index as written is `Sweep.IndexStep` with the `AsWritten` reading.
- Sweep.LoopBody: computes the corrected reading, as for `MeasureIndex`.
- Sweep.MeasureLoop: computes the corrected loop `MeasureSpec(job, env)`; the loop as written is `MeasureSpec(job, env, AsWritten)`, related to it by `SweepProperties.LoopReadingsAlike`.
- Sweep.SizeAndMeasure: uses the corrected teardown, so it has no third crash on the unbound `sweeprate` (manipulate.py:325).
- Sweep.Run: computes the corrected run `Sweep.RunSpec`; the run as written is `Sweep.RunAsWritten`, related to it by `SweepProperties.RunAsWrittenOutcome` and `SweepProperties.EarlyCrashAsWritten`.
- SweepProperties.TeardownCounts: about the corrected teardown; the teardown as written never closes the bias source or queues out when it crashes on the unbound `sweeprate`.
- SweepProperties.LoopTeardownCounts: about the corrected teardown, as for `TeardownCounts`.
- SweepProperties.PhasesBalanced: about the corrected teardown, as for `TeardownCounts`.
- SweepProperties.RunBalanced: about the corrected run. As written, a sized run whose non-optional bias was never swept leaves the bias source open and does not queue out (`SweepProperties.RunAsWrittenOutcome`).
- PostProcessing.OneShotQuadratures: states the corrected one-shot processing, which de-interleaves the shot rows in the original mode too. As written, the original mode skips the rewrite (manipulate.py:282), and `PostProcessing.OriginalOneShotMixesQuadratures` shows the difference.
- PostProcessing.PostProcess: computes the corrected processing `PostProcessing.Process`; the one-shot path as written is `PostProcessing.ProcessAsWritten`.
- Indexing.Stride: `prod(cstructure[j+1:])` is an unbounded product here. numpy's int64 product wraps above 2^63 - 1, and that is not modelled.

## Findings

| source | as written | input that shows it | evidently intended | confidence | as-written member | corrected member |
|---|---|---|---|---|---|---|
| TEST/FACE/pyqum/directive/manipulate.py:325 | `DC.close(..., sweeprate=sweeprate)` reads `sweeprate`, which is bound only inside a bias refresh of the loop (224-225). | A non-optional Flux-Bias with an empty `measure_loop`, such as a resume point at or past `datasize`: the close raises UnboundLocalError after the bias output was turned off. The bias source stays open and the job is never queued out. | The teardown closes the bias source and queues the job out, as it does after a sweep. | not executed; high | SweepProperties.SweepRateCounterexample | SweepProperties.MeasureAndCloseBalanced |
| TEST/FACE/pyqum/directive/manipulate.py:282-288 | In the "original" mode the shot rows are not rewritten and stay interleaved (I, Q, I, Q, ...). The `[recordsum*2, TOTAL_POINTS]` mean of line 288 then averages a mix of both quadratures in each half-row. | `recordsum` 1, `TOTAL_POINTS` 2, record `[1, 0, 1, 0]` gives `[0.5, 0.5]`. | One I average and one Q average per shot, `[1, 0]`, as the demodulated modes produce. | not executed; medium | PostProcessing.OriginalOneShotMixesQuadratures | PostProcessing.OriginalOneShotAverages |

In the model:

- `Sweep.TeardownAsWritten` is the teardown as written.
- `PostProcessing.ProcessAsWritten` is the one-shot path as written, and the `AsWritten` reading of the loop uses it.
- `Sweep.MeasureAndCloseAsWritten` and `Sweep.RunAsWritten` combine the two.
- `Sweep.TeardownEvents` is the corrected teardown.
- `PostProcessing.Process` de-interleaves the rows in the original mode too, and the `Corrected` reading uses it.
- `Sweep.MeasureAndCloseSpec`, `Sweep.RunSpec` and `Sweep.Run` combine the two corrections.
