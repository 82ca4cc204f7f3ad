/** Post-processing of one acquired record before it is emitted: the ADC
    record is viewed as `recordsum` shots of `TOTAL_POINTS` interleaved
    (I, Q) pairs; one-shot readout rewrites every shot row and averages each
    quadrature trace over time, averaged readout takes the mean over shots.
    A shape that does not fit is numpy's ValueError, which ends the sweep. */
module PostProcessing {
  import opened Arith
  import opened Sizing

  type Trace = seq<real>

  /** `pulse_baseband` with the run's mode, IF and alignment fixed: it maps an
      (I, Q) pair of traces to a new pair. Its code is not part of this model. */
  type Baseband = (Trace, Trace) -> (Trace, Trace)

  /** The processing mode that leaves the acquired traces as they are. */
  const Original: string := "original"

  /** The two single-quadrature homodyne modes that drop leading samples. */
  predicate SingleQuadrature(demod: string)
  {
    demod == "i_digital_homodyne" || demod == "q_digital_homodyne"
  }

  function Sum(s: Trace): real
  {
    if s == [] then 0.0 else s[0] + Sum(s[1..])
  }

  /** numpy's `mean`; the mean of no samples (NaN in numpy) is 0 here. */
  function Mean(s: Trace): real
  {
    if |s| == 0 then 0.0 else Sum(s) / (|s| as real)
  }

  /** Python's `s[k:]`. */
  function Drop(s: Trace, k: nat): (r: Trace)
    ensures |r| == if k <= |s| then |s| - k else 0
  {
    if k <= |s| then s[k..] else []
  }

  /** `skipoints` and whether the "infinite integration" warning was printed. */
  datatype Skip = Skip(points: nat, warned: bool)

  /** `ceil(1 / |IF| * 1000)` samples are skipped in the single-quadrature
      modes; a zero IF raises ZeroDivisionError, which is caught with a
      warning and leaves the count at 0; every other mode skips nothing. */
  function SkipPoints(demod: string, roCompensateMHz: real): (r: Skip)
    ensures r.warned <==> SingleQuadrature(demod) && roCompensateMHz == 0.0
    ensures !SingleQuadrature(demod) || roCompensateMHz == 0.0 ==> r.points == 0
    ensures SingleQuadrature(demod) && roCompensateMHz != 0.0 ==>
              var x := 1000.0 / (if roCompensateMHz < 0.0 then -roCompensateMHz else roCompensateMHz);
              (r.points - 1) as real < x <= r.points as real
  {
    if !SingleQuadrature(demod) then Skip(0, false)
    else if roCompensateMHz == 0.0 then Skip(0, true)
    else
      var x := 1000.0 / (if roCompensateMHz < 0.0 then -roCompensateMHz else roCompensateMHz);
      var c := -((-x).Floor);
      Skip(c, false)
  }

  /** `s.reshape((n, 2)).transpose()[0]`: the I samples of an interleaved trace. */
  function Evens(s: Trace): (e: Trace)
    requires |s| % 2 == 0
    ensures |e| == |s| / 2
  {
    seq(|s| / 2, k requires 0 <= k < |s| / 2 => s[2 * k])
  }

  /** `s.reshape((n, 2)).transpose()[1]`: the Q samples of an interleaved trace. */
  function Odds(s: Trace): (o: Trace)
    requires |s| % 2 == 0
    ensures |o| == |s| / 2
  {
    seq(|s| / 2, k requires 0 <= k < |s| / 2 => s[2 * k + 1])
  }

  /** `array([i, q]).transpose().reshape(2 * n)`: back to interleaved pairs. */
  function Interleave(i: Trace, q: Trace): (s: Trace)
    requires |i| == |q|
    ensures |s| == 2 * |i|
  {
    seq(2 * |i|, t requires 0 <= t < 2 * |i| => if t % 2 == 0 then i[t / 2] else q[t / 2])
  }

  /** De-interleaving an interleaved pair gives the pair back. */
  lemma SplitInterleave(i: Trace, q: Trace)
    requires |i| == |q|
    ensures Evens(Interleave(i, q)) == i && Odds(Interleave(i, q)) == q
  {
    var s := Interleave(i, q);
    forall k | 0 <= k < |i| ensures Evens(s)[k] == i[k] && Odds(s)[k] == q[k] {
      assert s[2 * k] == i[(2 * k) / 2];
      assert s[2 * k + 1] == q[(2 * k + 1) / 2];
    }
  }

  /** Interleaving the two quadratures of a trace gives the trace back. */
  lemma InterleaveSplit(s: Trace)
    requires |s| % 2 == 0
    ensures Interleave(Evens(s), Odds(s)) == s
  {
    var t := Interleave(Evens(s), Odds(s));
    forall k | 0 <= k < |s| ensures t[k] == s[k] {
      if k % 2 == 0 {
        assert 2 * (k / 2) == k;
      } else {
        assert 2 * (k / 2) + 1 == k;
      }
    }
  }


  /** A record viewed as rows (numpy's two-dimensional view). */
  type Rows = seq<Trace>

  /** Every row has `width` samples. */
  predicate Shaped(rows: Rows, width: nat)
  {
    forall r :: 0 <= r < |rows| ==> |rows[r]| == width
  }

  /** The record splits into `n` consecutive rows of `width` samples. */
  predicate Framed(raw: Trace, n: nat, width: nat)
    decreases n
  {
    if n == 0 then raw == [] else width <= |raw| && Framed(raw[width..], n - 1, width)
  }

  /** A record splits into `n` rows of `width` exactly when it has `n * width` samples. */
  lemma {:induction false} FramedLength(raw: Trace, n: nat, width: nat)
    ensures Framed(raw, n, width) <==> |raw| == n * width
  {
    if n > 0 {
      if width <= |raw| {
        FramedLength(raw[width..], n - 1, width);
        assert (n - 1) * width + width == n * width;
      } else {
        MulAtLeast(n, width);
      }
    }
  }

  /** `raw.reshape([n, width])`, defined when the record has exactly `n * width` samples. */
  function Reshape(raw: Trace, n: nat, width: nat): (rows: Rows)
    requires Framed(raw, n, width)
    ensures |rows| == n && Shaped(rows, width)
  {
    if n == 0 then [] else [raw[..width]] + Reshape(raw[width..], n - 1, width)
  }

  /** The flat record a two-dimensional view stands for. */
  function Flatten(rows: Rows): Trace
  {
    if rows == [] then [] else rows[0] + Flatten(rows[1..])
  }

  /** Reshaping neither loses nor reorders a sample. */
  lemma {:induction false} FlattenReshape(raw: Trace, n: nat, width: nat)
    requires Framed(raw, n, width)
    ensures Flatten(Reshape(raw, n, width)) == raw
  {
    if n > 0 {
      FlattenReshape(raw[width..], n - 1, width);
      var rows := Reshape(raw, n, width);
      assert rows[1..] == Reshape(raw[width..], n - 1, width);
      assert raw == raw[..width] + raw[width..];
    }
  }

  /** The flat record of `n` rows of `width` samples has `n * width` samples. */
  lemma {:induction false} FlattenLength(rows: Rows, width: nat)
    requires Shaped(rows, width)
    ensures |Flatten(rows)| == |rows| * width
  {
    if rows != [] {
      assert Shaped(rows[1..], width);
      FlattenLength(rows[1..], width);
      assert (|rows| - 1) * width + width == |rows| * width;
    }
  }

  /** Half `k % 2` of row `k / 2`: row `k` of the `[2 * n, tp]` view of `n` rows of `2 * tp`. */
  function HalfRow(rows: Rows, tp: nat, k: nat): (h: Trace)
    requires Shaped(rows, 2 * tp) && k < 2 * |rows|
    ensures |h| == tp
  {
    var row := rows[k / 2];
    if k % 2 == 0 then row[..tp] else row[tp..]
  }

  /** All half-rows, in order. */
  function HalfRows(rows: Rows, tp: nat): (h: Rows)
    requires Shaped(rows, 2 * tp)
    ensures |h| == 2 * |rows|
  {
    seq(2 * |rows|, k requires 0 <= k < 2 * |rows| => HalfRow(rows, tp, k))
  }

  lemma HalfRowsCons(rows: Rows, tp: nat)
    requires Shaped(rows, 2 * tp) && rows != []
    ensures Shaped(rows[1..], 2 * tp)
    ensures HalfRows(rows, tp) == [rows[0][..tp], rows[0][tp..]] + HalfRows(rows[1..], tp)
  {
    var rest := rows[1..];
    assert Shaped(rest, 2 * tp);
    var h, t := HalfRows(rows, tp), HalfRows(rest, tp);
    forall k | 2 <= k < |h| ensures h[k] == t[k - 2] {
      assert (k - 2) / 2 == k / 2 - 1 && (k - 2) % 2 == k % 2;
    }
  }

  lemma ReshapeTwoRows(x: Trace, fr: Trace, m: nat, tp: nat)
    requires |x| == 2 * tp && Framed(fr, m, tp)
    ensures Framed(x + fr, m + 2, tp)
    ensures Reshape(x + fr, m + 2, tp) == [x[..tp], x[tp..]] + Reshape(fr, m, tp)
  {
    assert (x + fr)[..tp] == x[..tp];
    assert (x + fr)[tp..] == x[tp..] + fr;
    assert (x[tp..] + fr)[..tp] == x[tp..];
    assert (x[tp..] + fr)[tp..] == fr;
  }

  /** The half-rows are exactly numpy's `reshape([2 * n, tp])` of the record. */
  lemma {:induction false} HalfRowsAreReshape(rows: Rows, tp: nat)
    requires Shaped(rows, 2 * tp)
    ensures Framed(Flatten(rows), 2 * |rows|, tp)
    ensures Reshape(Flatten(rows), 2 * |rows|, tp) == HalfRows(rows, tp)
  {
    if rows != [] {
      var rest := rows[1..];
      HalfRowsCons(rows, tp);
      HalfRowsAreReshape(rest, tp);
      ReshapeTwoRows(rows[0], Flatten(rest), 2 * |rest|, tp);
    }
  }

  /** `mean(DATA.reshape([2 * n, tp])[:, skip:], axis=1)`: every half-row
      averaged from column `skip` on. */
  function HalfRowMeans(rows: Rows, tp: nat, skip: nat): (m: Trace)
    requires Shaped(rows, 2 * tp)
    ensures |m| == 2 * |rows|
  {
    seq(2 * |rows|, k requires 0 <= k < 2 * |rows| => Mean(Drop(HalfRows(rows, tp)[k], skip)))
  }

  /** Column `t` of a shaped view: sample `t` of every shot. */
  function Column(rows: Rows, width: nat, t: nat): (c: Trace)
    requires Shaped(rows, width) && t < width
    ensures |c| == |rows|
  {
    seq(|rows|, r requires 0 <= r < |rows| => rows[r][t])
  }

  /** `mean(DATA, axis=0)`: the average over the shots of every sample. */
  function ColumnMeans(rows: Rows, width: nat): (m: Trace)
    requires Shaped(rows, width)
    ensures |m| == width
  {
    seq(width, t requires 0 <= t < width => Mean(Column(rows, width, t)))
  }

  /** One shot row after `array([I, Q]).reshape(2 * TOTAL_POINTS)`: the
      rewritten I trace followed by the rewritten Q trace. */
  function BlockRow(row: Trace, f: Baseband): Trace
    requires |row| % 2 == 0
  {
    var iq := f(Evens(row), Odds(row));
    iq.0 + iq.1
  }

  /** The rewritten pair fits back into a row of `2 * tp` samples. */
  predicate Fits(row: Trace, f: Baseband, tp: nat)
    requires |row| % 2 == 0
  {
    var iq := f(Evens(row), Odds(row));
    |iq.0| == tp && |iq.1| == tp
  }

  /** Every shot row fits after its rewrite. */
  predicate AllFit(rows: Rows, f: Baseband, tp: nat)
    requires Shaped(rows, 2 * tp)
  {
    forall r :: 0 <= r < |rows| ==> Fits(rows[r], f, tp)
  }

  /** The shot rows after the rewrite loop. */
  function Rewritten(rows: Rows, f: Baseband, tp: nat): (out: Rows)
    requires Shaped(rows, 2 * tp)
    ensures |out| == |rows|
    ensures AllFit(rows, f, tp) ==> Shaped(out, 2 * tp)
  {
    seq(|rows|, r requires 0 <= r < |rows| => BlockRow(rows[r], f))
  }

  /** What the post-processing of one record needs to know about the run. */
  datatype Shape = Shape(readout: Readout, demod: string, recordSum: nat, totalPoints: nat, skip: nat)

  /** The emitted buffer, or the ValueError that ends the sweep. */
  datatype Processed = Buffer(data: Trace) | Mismatch

  function KeepPair(i: Trace, q: Trace): (Trace, Trace)
  {
    (i, q)
  }

  /** The rewrite applied to each shot row: the baseband step, or in the
      original mode only the separation of the I and Q traces. */
  function ShotMap(demod: string, bb: Baseband): Baseband
  {
    if demod == Original then KeepPair else bb
  }

  /** The post-processing of one record, as the loop uses it. In the original
      mode the shot rows are de-interleaved too, so that each averaged
      half-row is a single quadrature (see `ProcessAsWritten`). */
  function Process(shape: Shape, bb: Baseband, raw: Trace): Processed
  {
    var tp, rs := shape.totalPoints, shape.recordSum;
    if !Framed(raw, rs, 2 * tp) then Mismatch
    else
      var rows := Reshape(raw, rs, 2 * tp);
      match shape.readout
      case OneShot =>
        var f := ShotMap(shape.demod, bb);
        if !AllFit(rows, f, tp) then Mismatch
        else Buffer(HalfRowMeans(Rewritten(rows, f, tp), tp, shape.skip))
      case Averaged =>
        var c := ColumnMeans(rows, 2 * tp);
        if shape.demod == Original then Buffer(c)
        else if !Fits(c, bb, tp) then Mismatch
        else
          var iq := bb(Evens(c), Odds(c));
          Buffer(Interleave(iq.0, iq.1))
  }

  /** The one-shot path as written: in the original mode the shot rows are not
      rewritten, so each averaged half-row still holds interleaved I and Q samples. */
  function ProcessAsWritten(shape: Shape, bb: Baseband, raw: Trace): Processed
  {
    var tp, rs := shape.totalPoints, shape.recordSum;
    if !Framed(raw, rs, 2 * tp) then Mismatch
    else if shape.readout == OneShot && shape.demod == Original then
      Buffer(HalfRowMeans(Reshape(raw, rs, 2 * tp), tp, shape.skip))
    else Process(shape, bb, raw)
  }

  /** One shot of two (I, Q) pairs with I = 1 and Q = 0: as written the
      original mode emits 0.5 for both quadratures, where the I and Q
      averages are 1 and 0. */
  lemma OriginalOneShotMixesQuadratures()
    ensures ProcessAsWritten(Shape(OneShot, Original, 1, 2, 0), KeepPair, [1.0, 0.0, 1.0, 0.0]) == Buffer([0.5, 0.5])
    ensures Process(Shape(OneShot, Original, 1, 2, 0), KeepPair, [1.0, 0.0, 1.0, 0.0]) == Buffer([1.0, 0.0])
  {
    var raw: Trace := [1.0, 0.0, 1.0, 0.0];
    var rows := Reshape(raw, 1, 4);
    assert raw[4..] == [] && raw[..4] == raw;
    assert rows == [raw];
    assert HalfRow(rows, 2, 0) == [1.0, 0.0] && HalfRow(rows, 2, 1) == [1.0, 0.0];
    assert Mean([1.0, 0.0]) == 0.5;
    assert HalfRowMeans(rows, 2, 0) == [0.5, 0.5];
    assert Evens(raw) == [1.0, 1.0] && Odds(raw) == [0.0, 0.0];
    assert Fits(raw, KeepPair, 2);
    var d := Rewritten(rows, KeepPair, 2);
    assert d[0] == Evens(raw) + Odds(raw) == [1.0, 1.0, 0.0, 0.0];
    assert d == [[1.0, 1.0, 0.0, 0.0]];
    assert HalfRow(d, 2, 0) == [1.0, 1.0] && HalfRow(d, 2, 1) == [0.0, 0.0];
    assert Mean([1.0, 1.0]) == 1.0 && Mean([0.0, 0.0]) == 0.0;
    assert HalfRowMeans(d, 2, 0) == [1.0, 0.0];
  }

  /** Which post-processing the loop applies: the one-shot original mode with
      its shot rows de-interleaved (`Process`), or as written (`ProcessAsWritten`). */
  datatype Reading = Corrected | AsWritten

  function ProcessBy(reading: Reading, shape: Shape, bb: Baseband, raw: Trace): Processed
  {
    if reading == Corrected then Process(shape, bb, raw) else ProcessAsWritten(shape, bb, raw)
  }

  /** Both readings raise the ValueError on the same records and yield buffers
      of the buffer size; they differ only in the original one-shot mode. */
  lemma ReadingsAgree(shape: Shape, bb: Baseband, raw: Trace)
    ensures ProcessAsWritten(shape, bb, raw).Mismatch? <==> Process(shape, bb, raw).Mismatch?
    ensures ProcessAsWritten(shape, bb, raw).Buffer? ==>
              |ProcessAsWritten(shape, bb, raw).data| == BufferSize(shape.readout, shape.recordSum, shape.totalPoints)
    ensures !(shape.readout == OneShot && shape.demod == Original) ==> ProcessAsWritten(shape, bb, raw) == Process(shape, bb, raw)
  {
    ProcessFails(shape, bb, raw);
    if Process(shape, bb, raw).Buffer? {
      ProcessedLength(shape, bb, raw);
    }
  }

  /** The ValueError cases: the record does not hold `recordsum` shots of
      `TOTAL_POINTS` IQ pairs, or the baseband step returns traces of another
      length; the original mode fails only on the record's length. */
  lemma ProcessFails(shape: Shape, bb: Baseband, raw: Trace)
    ensures Framed(raw, shape.recordSum, 2 * shape.totalPoints) <==> |raw| == shape.recordSum * (2 * shape.totalPoints)
    ensures var tp, rs := shape.totalPoints, shape.recordSum;
            Process(shape, bb, raw).Mismatch? <==>
              |raw| != rs * (2 * tp) ||
              (shape.demod != Original &&
                var rows := Reshape(raw, rs, 2 * tp);
                if shape.readout == OneShot then !AllFit(rows, bb, tp)
                else !Fits(ColumnMeans(rows, 2 * tp), bb, tp))
  {
    var tp, rs := shape.totalPoints, shape.recordSum;
    FramedLength(raw, rs, 2 * tp);
    if |raw| == rs * (2 * tp) {
      var rows := Reshape(raw, rs, 2 * tp);
      if shape.readout == OneShot && shape.demod == Original {
        assert AllFit(rows, KeepPair, tp);
      }
    }
  }

  /** A one-shot buffer holds `recordsum` IQ pairs (the buffer size); pair `r`
      is the time average, from sample `skip` on, of shot `r`'s rewritten I
      trace and of its rewritten Q trace. */
  lemma OneShotQuadratures(shape: Shape, bb: Baseband, raw: Trace, r: nat)
    requires shape.readout == OneShot && Process(shape, bb, raw).Buffer? && r < shape.recordSum
    ensures |Process(shape, bb, raw).data| == BufferSize(OneShot, shape.recordSum, shape.totalPoints)
    ensures |raw| == shape.recordSum * (2 * shape.totalPoints) &&
            var row := Reshape(raw, shape.recordSum, 2 * shape.totalPoints)[r];
            var iq := ShotMap(shape.demod, bb)(Evens(row), Odds(row));
            var out := Process(shape, bb, raw).data;
            out[2 * r] == Mean(Drop(iq.0, shape.skip)) && out[2 * r + 1] == Mean(Drop(iq.1, shape.skip))
  {
    var tp, rs, f := shape.totalPoints, shape.recordSum, ShotMap(shape.demod, bb);
    FramedLength(raw, rs, 2 * tp);
    var rows := Reshape(raw, rs, 2 * tp);
    var d := Rewritten(rows, f, tp);
    var iq := f(Evens(rows[r]), Odds(rows[r]));
    assert Fits(rows[r], f, tp);
    assert d[r] == iq.0 + iq.1;
    assert (2 * r) / 2 == r && (2 * r + 1) / 2 == r && (2 * r + 1) % 2 == 1;
    assert HalfRow(d, tp, 2 * r) == iq.0;
    assert HalfRow(d, tp, 2 * r + 1) == iq.1;
  }

  /** Every processed buffer holds the buffer size's worth of samples. */
  lemma ProcessedLength(shape: Shape, bb: Baseband, raw: Trace)
    requires Process(shape, bb, raw).Buffer?
    ensures |Process(shape, bb, raw).data| == BufferSize(shape.readout, shape.recordSum, shape.totalPoints)
  {
    if shape.readout == Averaged {
      AveragedTrace(shape, bb, raw);
    }
  }

  /** In the original mode a one-shot pair is the average of the shot's I
      samples and of its Q samples. */
  lemma OriginalOneShotAverages(shape: Shape, bb: Baseband, raw: Trace, r: nat)
    requires shape.readout == OneShot && shape.demod == Original
    requires |raw| == shape.recordSum * (2 * shape.totalPoints) && r < shape.recordSum
    ensures Process(shape, bb, raw).Buffer?
    ensures var row := Reshape(raw, shape.recordSum, 2 * shape.totalPoints)[r];
            var out := Process(shape, bb, raw).data;
            out[2 * r] == Mean(Drop(Evens(row), shape.skip)) && out[2 * r + 1] == Mean(Drop(Odds(row), shape.skip))
  {
    FramedLength(raw, shape.recordSum, 2 * shape.totalPoints);
    ProcessFails(shape, bb, raw);
    OneShotQuadratures(shape, bb, raw, r);
  }

  /** An averaged buffer holds `TOTAL_POINTS` IQ pairs (the buffer size):
      in the original mode sample `t` is the mean of sample `t` over the
      shots, otherwise its I and Q samples are the baseband step applied to
      the averaged traces. */
  lemma AveragedTrace(shape: Shape, bb: Baseband, raw: Trace)
    requires shape.readout == Averaged && Process(shape, bb, raw).Buffer?
    ensures |Process(shape, bb, raw).data| == BufferSize(Averaged, shape.recordSum, shape.totalPoints)
    ensures |raw| == shape.recordSum * (2 * shape.totalPoints) &&
            var rows := Reshape(raw, shape.recordSum, 2 * shape.totalPoints);
            var c := ColumnMeans(rows, 2 * shape.totalPoints);
            var out := Process(shape, bb, raw).data;
            (shape.demod == Original ==>
               forall t :: 0 <= t < 2 * shape.totalPoints ==> out[t] == Mean(Column(rows, 2 * shape.totalPoints, t)))
            && (shape.demod != Original ==> bb(Evens(c), Odds(c)) == (Evens(out), Odds(out)))
  {
    FramedLength(raw, shape.recordSum, 2 * shape.totalPoints);
    if shape.demod != Original {
      var rows := Reshape(raw, shape.recordSum, 2 * shape.totalPoints);
      var c := ColumnMeans(rows, 2 * shape.totalPoints);
      var iq := bb(Evens(c), Odds(c));
      SplitInterleave(iq.0, iq.1);
    }
  }

  /** The contents of a two-dimensional array, row by row. */
  function Contents(a: array2<real>): (rows: Rows)
    reads a
    ensures |rows| == a.Length0 && Shaped(rows, a.Length1)
  {
    seq(a.Length0, r requires 0 <= r < a.Length0 reads a =>
      seq(a.Length1, k requires 0 <= k < a.Length1 reads a => a[r, k]))
  }

  /** The shot-row loop `DATA[r, :] = ...`: every row of the `[recordsum,
      2 * tp]` record is replaced in place by the I trace then the Q trace of
      its rewrite; a rewrite that does not fit stops with a ValueError. */
  method RewriteRows(data: array2<real>, tp: nat, f: Baseband) returns (ok: bool)
    requires data.Length1 == 2 * tp
    modifies data
    ensures ok <==> AllFit(old(Contents(data)), f, tp)
    ensures ok ==> Contents(data) == Rewritten(old(Contents(data)), f, tp)
  {
    ghost var orig := Contents(data);
    var w := 2 * tp;
    for r := 0 to data.Length0
      invariant forall r' :: 0 <= r' < r ==> Fits(orig[r'], f, tp)
      invariant forall r', c :: 0 <= r' < r && 0 <= c < w ==> data[r', c] == BlockRow(orig[r'], f)[c]
      invariant forall r', c :: r <= r' < data.Length0 && 0 <= c < w ==> data[r', c] == orig[r'][c]
    {
      var row := seq(w, c requires 0 <= c < w reads data => data[r, c]);
      assert row == orig[r];
      var iq := f(Evens(row), Odds(row));
      if |iq.0| != tp || |iq.1| != tp {
        assert !Fits(orig[r], f, tp);
        return false;
      }
      var block := iq.0 + iq.1;
      assert block == BlockRow(orig[r], f);
      for c := 0 to w
        invariant forall r', c' :: 0 <= r' < r && 0 <= c' < w ==> data[r', c'] == BlockRow(orig[r'], f)[c']
        invariant forall c' :: 0 <= c' < c ==> data[r, c'] == block[c']
        invariant forall r', c' :: r < r' < data.Length0 && 0 <= c' < w ==> data[r', c'] == orig[r'][c']
      {
        data[r, c] := block[c];
      }
    }
    forall r | 0 <= r < data.Length0 ensures Contents(data)[r] == Rewritten(orig, f, tp)[r] {
    }
    return true;
  }

  /** Post-processing of one record: the shape check, the in-place shot-row
      rewrite and the averages. */
  method PostProcess(shape: Shape, bb: Baseband, raw: Trace) returns (r: Processed)
    ensures r == Process(shape, bb, raw)
  {
    var tp, rs := shape.totalPoints, shape.recordSum;
    FramedLength(raw, rs, 2 * tp);
    if |raw| != rs * (2 * tp) {
      return Mismatch;
    }
    var rows := Reshape(raw, rs, 2 * tp);
    match shape.readout
    case OneShot =>
      var f := ShotMap(shape.demod, bb);
      var data := new real[rs, 2 * tp]((i, k) requires 0 <= i < rs && 0 <= k < 2 * tp => rows[i][k]);
      forall i | 0 <= i < rs ensures Contents(data)[i] == rows[i] {
        assert |rows[i]| == 2 * tp;
      }
      assert Contents(data) == rows;
      var ok := RewriteRows(data, tp, f);
      if !ok {
        return Mismatch;
      }
      r := Buffer(HalfRowMeans(Contents(data), tp, shape.skip));
    case Averaged =>
      var c := ColumnMeans(rows, 2 * tp);
      if shape.demod == Original {
        return Buffer(c);
      }
      var iq := bb(Evens(c), Odds(c));
      if |iq.0| != tp || |iq.1| != tp {
        return Mismatch;
      }
      r := Buffer(Interleave(iq.0, iq.1));
  }
}
