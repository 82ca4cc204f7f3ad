/** Sizing of one sweep run: record length, buffer size, total data size and
    the range of flat indices the measure loop visits
    (`Single_Qubit` in directive/manipulate.py). */
module Sizing {
  import opened Arith
  import opened Wrappers

  /** 2^64: `numpy.prod(..., dtype='uint64')` wraps modulo this. */
  const U64: nat := 0x1_0000_0000_0000_0000

  /** All counts are positive. */
  predicate Positive(counts: seq<nat>)
  {
    forall k :: 0 <= k < |counts| ==> counts[k] > 0
  }

  /** The product of the axis counts; the empty product is 1. */
  function Prod(s: seq<nat>): (p: nat)
    ensures Positive(s) ==> p > 0
  {
    if s == [] then 1 else s[0] * Prod(s[1..])
  }

  lemma {:induction false} ProdAppend(a: seq<nat>, b: seq<nat>)
    ensures Prod(a + b) == Prod(a) * Prod(b)
  {
    if a == [] {
      assert a + b == b;
    } else {
      assert (a + b)[1..] == a[1..] + b;
      ProdAppend(a[1..], b);
      assert a[0] * (Prod(a[1..]) * Prod(b)) == (a[0] * Prod(a[1..])) * Prod(b);
    }
  }

  /** The product is zero exactly when some count is zero. */
  lemma {:induction false} ProdZero(s: seq<nat>)
    ensures Prod(s) == 0 <==> exists k :: 0 <= k < |s| && s[k] == 0
  {
    if s != [] {
      ProdZero(s[1..]);
      if Prod(s[1..]) == 0 {
        var k :| 0 <= k < |s[1..]| && s[1..][k] == 0;
        assert s[k + 1] == 0;
      }
      if s[0] != 0 && Prod(s[1..]) != 0 {
        assert s[0] * Prod(s[1..]) != 0;
        forall k | 0 <= k < |s| ensures s[k] != 0 {
          if k > 0 { assert s[k] == s[1..][k - 1]; }
        }
      }
    }
  }

  /** The readout type named by the READOUTYPE perimeter entry. */
  datatype Readout = OneShot | Averaged

  function ReadoutOf(readoutype: string): Readout
  {
    if readoutype == "one-shot" then OneShot else Averaged
  }

  /** Python's `round(n / d)`: the nearest integer, ties to the even one. */
  function RoundHalfEven(n: nat, d: nat): nat
    requires d > 0
  {
    var q, rem := n / d, n % d;
    if 2 * rem < d then q
    else if 2 * rem > d then q + 1
    else if q % 2 == 0 then q
    else q + 1
  }

  /** The rounded quotient is within half a divisor of `n`, and a tie goes to
      the even neighbour. */
  lemma RoundHalfEvenNearest(n: nat, d: nat)
    requires d > 0
    ensures var r := RoundHalfEven(n, d);
            && -(d as int) <= 2 * (n - r * d) <= d
            && ((2 * (n - r * d) == d || 2 * (n - r * d) == -(d as int)) ==> r % 2 == 0)
  {
    var q, rem := n / d, n % d;
    assert n == q * d + rem;
    assert n - (q + 1) * d == rem - d;
  }

  /** TOTAL_POINTS, the samples per trace: `round(recordtime_ns / TIME_RESOLUTION_NS)`.
      A zero time resolution raises ZeroDivisionError (None). */
  function TotalPoints(recordTimeNs: nat, resolutionNs: nat): (r: Option<nat>)
    ensures r.None? <==> resolutionNs == 0
  {
    if resolutionNs == 0 then None else Some(RoundHalfEven(recordTimeNs, resolutionNs))
  }

  /** A computed TOTAL_POINTS is the record time over the resolution, rounded
      to the nearest integer. */
  lemma TotalPointsNearest(recordTimeNs: nat, resolutionNs: nat)
    requires resolutionNs > 0
    ensures var r := TotalPoints(recordTimeNs, resolutionNs).value;
            -(resolutionNs as int) <= 2 * (recordTimeNs - r * resolutionNs) <= resolutionNs
  {
    RoundHalfEvenNearest(recordTimeNs, resolutionNs);
  }

  /** The buffer emitted per flat index: one IQ pair per shot in one-shot
      readout, one IQ pair per trace point otherwise (data density 2). */
  function BufferSize(readout: Readout, recordSum: nat, totalPoints: nat): nat
  {
    match readout
    case OneShot => recordSum * 2
    case Averaged => totalPoints * 2
  }

  /** datasize: the uint64 product of the counts, times the buffer size. */
  function DataSize(counts: seq<nat>, bufferSize: nat): nat
  {
    (Prod(counts) % U64) * bufferSize
  }

  /** The half-open range `[lo, hi)` of `measure_loop`. */
  datatype Range = Range(lo: nat, hi: nat)

  /** `range(resumepoint // buffersize, datasize // buffersize)`; a zero buffer
      size raises ZeroDivisionError (None). */
  function MeasureRange(resumePoint: nat, bufferSize: nat, dataSize: nat): (r: Option<Range>)
    ensures r.None? <==> bufferSize == 0
  {
    if bufferSize == 0 then None
    else Some(Range(resumePoint / bufferSize, dataSize / bufferSize))
  }

  /** The range's ends are the buffers holding the resume point and the end of the data. */
  lemma MeasureRangeFloors(resumePoint: nat, bufferSize: nat, dataSize: nat)
    requires bufferSize > 0
    ensures var r := MeasureRange(resumePoint, bufferSize, dataSize).value;
            && r.lo * bufferSize <= resumePoint < (r.lo + 1) * bufferSize
            && r.hi * bufferSize <= dataSize < (r.hi + 1) * bufferSize
  {
    var lo, hi := resumePoint / bufferSize, dataSize / bufferSize;
    assert resumePoint == lo * bufferSize + resumePoint % bufferSize;
    assert dataSize == hi * bufferSize + dataSize % bufferSize;
  }

  /** `datasize // buffersize` recovers the (uint64) product of the counts, and
      equals the product exactly while it fits in 64 bits. */
  lemma SweepLength(counts: seq<nat>, bufferSize: nat, resumePoint: nat)
    requires bufferSize > 0
    ensures MeasureRange(resumePoint, bufferSize, DataSize(counts, bufferSize))
            == Some(Range(resumePoint / bufferSize, Prod(counts) % U64))
    ensures Prod(counts) < U64 ==> DataSize(counts, bufferSize) / bufferSize == Prod(counts)
  {
    var p := Prod(counts) % U64;
    DivModUnique(p * bufferSize, bufferSize, p, 0);
  }

  /** The loop range is empty exactly when some count is zero or the resume
      index is at or past the end (for products that fit in 64 bits). */
  lemma EmptySweep(counts: seq<nat>, bufferSize: nat, resumePoint: nat)
    requires bufferSize > 0 && Prod(counts) < U64
    ensures var r := MeasureRange(resumePoint, bufferSize, DataSize(counts, bufferSize)).value;
            r.hi <= r.lo <==> (exists k :: 0 <= k < |counts| && counts[k] == 0) || resumePoint / bufferSize >= Prod(counts)
  {
    SweepLength(counts, bufferSize, resumePoint);
    ProdZero(counts);
  }

  /** Resuming at a whole number of buffers starts the loop at that buffer. */
  lemma ResumeAtBuffer(k: nat, bufferSize: nat, dataSize: nat)
    requires bufferSize > 0
    ensures MeasureRange(k * bufferSize, bufferSize, dataSize).value.lo == k
  {
    DivModUnique(k * bufferSize, bufferSize, k, 0);
  }
}
