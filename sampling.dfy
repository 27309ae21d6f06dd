/**
  Reading the potentiometer: one raw read of the SAR ADC's sysfs file, and
  the sum of several raw reads remapped linearly to about -0.01 .. 1.01.
  The file read and the decimal parsing are external: a read is given by
  the byte count the read returned and the integer the parser made of the
  bytes.
 */
module Sampling {

  /** Raw reads summed for the sample that seeds the fast average. */
  const SeedCount: nat := 32
  /** Raw reads summed for each sample of the read loop. */
  const SampleCount: nat := 16

  /** Largest raw value of the 10-bit converter. */
  const AdcMax: int := 1023
  /** Divisor that maps one full-scale raw read to about 1.02. */
  const Scale: real := 1002.9
  /** Offset subtracted after the remap. */
  const Offset: real := 0.01

  /** One raw read: the byte count returned, and the integer parsed from the bytes. */
  datatype RawRead = RawRead(bytes: int, parsed: int)

  /** The value of one raw read: a failed or empty read counts as 0. */
  function ReadRaw(r: RawRead): (raw: int)
    ensures r.bytes <= 0 ==> raw == 0
    ensures r.bytes > 0 ==> raw == r.parsed
  {
    if r.bytes <= 0 then 0 else r.parsed
  }

  /** The sum of the values of `batch`, accumulated front to back. */
  function SumRaw(batch: seq<RawRead>): int
    decreases |batch|
  {
    if batch == [] then 0 else SumRaw(batch[..|batch| - 1]) + ReadRaw(batch[|batch| - 1])
  }

  /** The remap of a sum of `count` raw reads. */
  function Level(raw: int, count: nat): real
    requires count > 0
  {
    (1.0 / count as real / Scale) * raw as real - Offset
  }

  /** A successful read whose value lies within the converter's range. */
  predicate InRange(r: RawRead)
  {
    r.bytes <= 0 || 0 <= r.parsed <= AdcMax
  }

  /** Sums `count` raw reads, one per loop iteration, and remaps the sum. */
  method AdcRead(batch: seq<RawRead>, count: int) returns (level: real)
    requires 0 < count == |batch|
    ensures level == Level(SumRaw(batch), count)
  {
    var m := 1.0 / count as real / Scale;
    var raw := 0;
    var i := 0;
    while i < count
      invariant 0 <= i <= count
      invariant raw == SumRaw(batch[..i])
    {
      assert batch[..i + 1][..i] == batch[..i];
      raw := raw + ReadRaw(batch[i]);
      i := i + 1;
    }
    assert batch[..count] == batch;
    level := m * raw as real - Offset;
  }

  /** When every read fails the sum is 0. */
  lemma {:induction false} AllFailedSumZero(batch: seq<RawRead>)
    requires forall i :: 0 <= i < |batch| ==> batch[i].bytes <= 0
    ensures SumRaw(batch) == 0
    decreases |batch|
  {
    if batch != [] {
      AllFailedSumZero(batch[..|batch| - 1]);
    }
  }

  /** When every read fails the sample is the bottom of the range, -0.01. */
  lemma {:induction false} AllFailedLevel(batch: seq<RawRead>)
    requires |batch| > 0
    requires forall i :: 0 <= i < |batch| ==> batch[i].bytes <= 0
    ensures Level(SumRaw(batch), |batch|) == -Offset
  {
    AllFailedSumZero(batch);
  }

  /** The sum of reads within range lies between 0 and full scale times their number. */
  lemma {:induction false} SumRawBounds(batch: seq<RawRead>)
    requires forall i :: 0 <= i < |batch| ==> InRange(batch[i])
    ensures 0 <= SumRaw(batch) <= AdcMax * |batch|
    decreases |batch|
  {
    if batch != [] {
      SumRawBounds(batch[..|batch| - 1]);
    }
  }

  /** Reads within range give a sample between -0.01 and 1023 / 1002.9 - 0.01 (about 1.01004). */
  lemma {:induction false} LevelBounds(batch: seq<RawRead>)
    requires |batch| > 0
    requires forall i :: 0 <= i < |batch| ==> InRange(batch[i])
    ensures -Offset <= Level(SumRaw(batch), |batch|) <= AdcMax as real / Scale - Offset
  {
    SumRawBounds(batch);
    ScaledBounds(SumRaw(batch) as real, |batch| as real);
  }

  /** Remapping a sum of at most `n` full-scale reads stays within full scale of one read. */
  lemma ScaledBounds(raw: real, n: real)
    requires n > 0.0
    requires 0.0 <= raw <= AdcMax as real * n
    ensures 0.0 <= (1.0 / n / Scale) * raw <= AdcMax as real / Scale
  {
    var m := 1.0 / n / Scale;
    assert m > 0.0;
    MulMono(m, raw, AdcMax as real * n);
    assert m * (AdcMax as real * n) == AdcMax as real / Scale;
  }

  /** Multiplying by a positive factor keeps the order of non-negative reals. */
  lemma MulMono(m: real, a: real, b: real)
    requires m > 0.0 && 0.0 <= a <= b
    ensures 0.0 <= m * a <= m * b
  {
  }
}
