/**
  The ADC read loop of `main`, as an object: the loop variables are the
  fields of an `Engine`, which shares the target register with the
  actuation worker. Each call of `Sample` is one iteration after the
  sample has been read; `Drive` runs the loop over a finite stretch of
  batches of raw reads.
 */
module ReadLoop {
  import opened Filter
  import opened Sampling
  import opened Actuation
  import opened Wrappers

  /** The samples the loop makes of successive batches of raw reads. */
  function Samples(batches: seq<seq<RawRead>>): (vals: seq<real>)
    ensures |vals| == |batches|
  {
    seq(|batches|, i requires 0 <= i < |batches| => Level(SumRaw(batches[i]), SampleCount))
  }

  class Engine {
    var ema: real
    var emas: real
    var stable: nat
    var interval: nat
    const target: TargetRegister

    /** The loop variables together with the committed target. */
    function State(): FilterState
      reads this, target
    {
      FilterState(ema, emas, stable, interval, target.level)
    }

    /**
      Seeds the fast average from a batch of 32 raw reads and enters the
      loop with the counter at its sentinel and slow scanning. The slow
      average is left at 0.0, a value no commit uses before a disturbance
      reseeds it.
     */
    constructor (seedBatch: seq<RawRead>, target: TargetRegister)
      requires |seedBatch| == SeedCount
      ensures this.target == target
      ensures State() == Init(Level(SumRaw(seedBatch), SeedCount), target.level, 0.0)
    {
      var seed := AdcRead(seedBatch, SeedCount);
      this.target := target;
      ema := seed;
      emas := 0.0;
      stable := Unseeded;
      interval := SlowScan;
    }

    /** One iteration of the loop body for the sample `val`. */
    method Sample(val: real)
      modifies this, target
      ensures State() == Step(old(State()), val)
    {
      ema := K1 * val + K2 * ema;
      var vol := target.Read();
      var delta := if ema > vol then ema - vol else vol - ema;
      if delta >= NoiseBand {
        interval := FastScan;
        stable := 0;
        emas := ema;
        target.Write(ema);
      } else if stable < CommitAt {
        stable := stable + 1;
        emas := K3 * val + K4 * emas;
      } else if stable == CommitAt {
        stable := stable + 1;
        interval := SlowScan;
        target.Write(emas);
      }
    }

    /** Iterations of the loop, each reading one batch of 16 raw reads. */
    method Drive(batches: seq<seq<RawRead>>)
      requires forall i :: 0 <= i < |batches| ==> |batches[i]| == SampleCount
      modifies this, target
      ensures State() == Run(old(State()), Samples(batches))
    {
      ghost var start := State();
      var i := 0;
      while i < |batches|
        invariant 0 <= i <= |batches|
        invariant State() == Run(start, Samples(batches[..i]))
      {
        var val := AdcRead(batches[i], SampleCount);
        assert Samples(batches[..i + 1]) == Samples(batches[..i]) + [val];
        RunSnoc(start, Samples(batches[..i]), val);
        Sample(val);
        i := i + 1;
      }
      assert batches[..i] == batches;
    }
  }

  /**
    Once settled, an in-band sample leaves the target alone, so a worker
    that has applied the target issues no further request.
   */
  lemma SettledIdempotent(s: FilterState, val: real, currvol: real)
    requires s.stable > CommitAt
    requires Classify(s, val) != Disturbance
    requires currvol == s.vol
    ensures Step(s, val).vol == s.vol
    ensures Issue(currvol, Step(s, val).vol) == None
  {
  }

  /**
    A disturbance always changes the target, so the worker's next iteration
    sends the new level.
   */
  lemma DisturbanceIssues(s: FilterState, val: real, currvol: real)
    requires Classify(s, val) == Disturbance
    requires currvol == s.vol
    ensures Issue(currvol, Step(s, val).vol) == Some(Encode(FastEma(val, s.ema)))
  {
  }
}
