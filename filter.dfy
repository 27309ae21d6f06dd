/**
  The filter and stability state machine of the ADC read loop of adc2pulse.

  One step consumes one normalised sample `val`: it updates the fast
  ("unstable") exponential moving average `ema`, measures its distance to
  the committed target `vol`, and then either
    - treats the sample as a disturbance (commit `ema` at once, restart the
      slow average from it, scan fast), or
    - lets the slow ("stable") average `emas` settle for 200 in-band samples
      and commits it exactly once on the next in-band sample (scan slow).
  Doubles are modelled as reals.
 */
module Filter {

  /** Sleep between two samples, in nanoseconds, while the knob is moving. */
  const FastScan: nat := 8000000
  /** Sleep between two samples, in nanoseconds, once the level has settled. */
  const SlowScan: nat := 50000000

  /** A smoothed level at least this far from the committed target is a disturbance. */
  const NoiseBand: real := 0.01

  /** In-band samples folded into the slow average before the stable commit. */
  const CommitAt: nat := 200

  /** Initial stability counter: past the commit, so nothing is pending. */
  const Unseeded: nat := 100000

  /** Coefficients of the fast average (window of about 7 samples). */
  const K1: real := 2.0 / 8.0
  const K2: real := 1.0 - K1

  /** Coefficients of the slow average (window of about 150 samples). */
  const K3: real := 2.0 / 151.0
  const K4: real := 1.0 - K3

  /** Absolute difference, computed as the loop computes `delta`. */
  function Dist(a: real, b: real): real
  {
    if a > b then a - b else b - a
  }

  /** x lies in the closed interval spanned by a and b. */
  predicate Between(x: real, a: real, b: real)
  {
    (a <= x <= b) || (b <= x <= a)
  }

  /** One update of the fast average: the new value moves a quarter of the way to `val`. */
  function FastEma(val: real, ema: real): (r: real)
    ensures Between(r, ema, val)
    ensures Dist(r, val) == K2 * Dist(ema, val)
  {
    K1 * val + K2 * ema
  }

  /** One update of the slow average: the new value moves 2/151 of the way to `val`. */
  function SlowEma(val: real, emas: real): (r: real)
    ensures Between(r, emas, val)
    ensures Dist(r, val) == K4 * Dist(emas, val)
  {
    K3 * val + K4 * emas
  }

  /** The fast average after folding in `vals` from the first to the last. */
  function FastFold(ema: real, vals: seq<real>): real
    decreases |vals|
  {
    if vals == [] then ema else FastFold(FastEma(vals[0], ema), vals[1..])
  }

  /** The slow average after folding in `vals` from the first to the last. */
  function SlowFold(emas: real, vals: seq<real>): real
    decreases |vals|
  {
    if vals == [] then emas else SlowFold(SlowEma(vals[0], emas), vals[1..])
  }

  /** The loop variables of the read loop, plus the committed target `vol`. */
  datatype FilterState = FilterState(ema: real, emas: real, stable: nat, interval: nat, vol: real)

  /** Which branch of the loop body a sample takes. */
  datatype Event =
    | Disturbance   // |ema - vol| >= 0.01: commit ema, restart the slow average
    | Settling      // in band, counter below 200: fold the sample into emas
    | StableCommit  // in band, counter exactly 200: commit emas
    | Settled       // in band, counter past 200: nothing but the fast average

  /**
    The state on entry to the loop: the fast average seeded from a startup
    read, the counter at its sentinel, slow scanning, and the target read
    from the sink. The slow average is not initialised by the loop; `emas`
    stands for whatever it holds.
   */
  function Init(seed: real, vol: real, emas: real): FilterState
  {
    FilterState(seed, emas, Unseeded, SlowScan, vol)
  }

  function Classify(s: FilterState, val: real): Event
  {
    var ema := FastEma(val, s.ema);
    if Dist(ema, s.vol) >= NoiseBand then Disturbance
    else if s.stable < CommitAt then Settling
    else if s.stable == CommitAt then StableCommit
    else Settled
  }

  /** One iteration of the read loop after the sample has been read. */
  function Step(s: FilterState, val: real): FilterState
  {
    var ema := FastEma(val, s.ema);
    match Classify(s, val)
    case Disturbance => FilterState(ema, ema, 0, FastScan, ema)
    case Settling => s.(ema := ema, emas := SlowEma(val, s.emas), stable := s.stable + 1)
    case StableCommit => s.(ema := ema, stable := s.stable + 1, interval := SlowScan, vol := s.emas)
    case Settled => s.(ema := ema)
  }

  /** The state after the loop has consumed `vals`. */
  function Run(s: FilterState, vals: seq<real>): FilterState
    decreases |vals|
  {
    if vals == [] then s else Run(Step(s, vals[0]), vals[1..])
  }

  /** The branch taken for each sample of `vals`. */
  function Events(s: FilterState, vals: seq<real>): (es: seq<Event>)
    ensures |es| == |vals|
    decreases |vals|
  {
    if vals == [] then [] else [Classify(s, vals[0])] + Events(Step(s, vals[0]), vals[1..])
  }

  // ---------------------------------------------------------------------
  // One step, branch by branch

  lemma DisturbanceStep(s: FilterState, val: real)
    ensures Classify(s, val) == Disturbance <==> Dist(FastEma(val, s.ema), s.vol) >= NoiseBand
    ensures Classify(s, val) == Disturbance ==>
      var r := Step(s, val);
      r.ema == FastEma(val, s.ema) && r.stable == 0 && r.emas == r.ema &&
      r.interval == FastScan && r.vol == r.ema
  {
  }

  lemma SettlingStep(s: FilterState, val: real)
    requires Dist(FastEma(val, s.ema), s.vol) < NoiseBand
    requires s.stable < CommitAt
    ensures Classify(s, val) == Settling
    ensures var r := Step(s, val);
      r.ema == FastEma(val, s.ema) && r.stable == s.stable + 1 &&
      r.emas == SlowEma(val, s.emas) && r.vol == s.vol && r.interval == s.interval
  {
  }

  lemma CommitStep(s: FilterState, val: real)
    requires Dist(FastEma(val, s.ema), s.vol) < NoiseBand
    requires s.stable == CommitAt
    ensures Classify(s, val) == StableCommit
    ensures var r := Step(s, val);
      r.ema == FastEma(val, s.ema) && r.stable == CommitAt + 1 &&
      r.emas == s.emas && r.vol == s.emas && r.interval == SlowScan
  {
  }

  lemma SettledStep(s: FilterState, val: real)
    requires Dist(FastEma(val, s.ema), s.vol) < NoiseBand
    requires s.stable > CommitAt
    ensures Classify(s, val) == Settled
    ensures Step(s, val) == s.(ema := FastEma(val, s.ema))
  {
  }

  // ---------------------------------------------------------------------
  // The scan interval

  /**
    The interval is fast exactly while a settling episode is under way, and
    the counter is either inside an episode (0..201) or at its sentinel.
   */
  predicate Inv(s: FilterState)
  {
    (s.stable <= CommitAt + 1 || s.stable == Unseeded) &&
    s.interval == (if s.stable <= CommitAt then FastScan else SlowScan)
  }

  lemma InitInv(seed: real, vol: real, emas: real)
    ensures Inv(Init(seed, vol, emas))
  {
  }

  lemma StepPreservesInv(s: FilterState, val: real)
    requires Inv(s)
    ensures Inv(Step(s, val))
    ensures Step(s, val).interval == FastScan || Step(s, val).interval == SlowScan
  {
  }

  /** Only a disturbance makes the scan fast, and only the stable commit makes it slow. */
  lemma IntervalChanges(s: FilterState, val: real)
    ensures Step(s, val).interval == FastScan && s.interval != FastScan ==> Classify(s, val) == Disturbance
    ensures Step(s, val).interval == SlowScan && s.interval != SlowScan ==> Classify(s, val) == StableCommit
  {
  }

  // ---------------------------------------------------------------------
  // Runs of samples

  lemma {:induction false} RunSnoc(s: FilterState, vals: seq<real>, val: real)
    ensures Run(s, vals + [val]) == Step(Run(s, vals), val)
    decreases |vals|
  {
    if vals != [] {
      assert (vals + [val])[1..] == vals[1..] + [val];
      RunSnoc(Step(s, vals[0]), vals[1..], val);
    }
  }

  /** Whatever branch each sample takes, the fast average sees every sample. */
  lemma {:induction false} RunEma(s: FilterState, vals: seq<real>)
    ensures Run(s, vals).ema == FastFold(s.ema, vals)
    decreases |vals|
  {
    if vals != [] {
      RunEma(Step(s, vals[0]), vals[1..]);
    }
  }

  /** Past the commit, in-band samples change nothing but the fast average. */
  lemma {:induction false} SettledRun(s: FilterState, vals: seq<real>)
    requires s.stable > CommitAt
    requires Disturbance !in Events(s, vals)
    ensures Run(s, vals) == s.(ema := FastFold(s.ema, vals))
    ensures forall i :: 0 <= i < |vals| ==> Events(s, vals)[i] == Settled
    decreases |vals|
  {
    if vals != [] {
      var s' := Step(s, vals[0]);
      assert Events(s, vals) == [Classify(s, vals[0])] + Events(s', vals[1..]);
      SettledRun(s', vals[1..]);
    }
  }

  /**
    A settling episode: starting with the counter at or below 200, in-band
    samples each bump the counter and feed the slow average until the
    counter reaches 200; the next one commits the slow average and switches
    to slow scanning; every later one changes nothing but the fast average.
   */
  lemma {:induction false} SettlingRun(s: FilterState, vals: seq<real>)
    requires s.stable <= CommitAt
    requires Disturbance !in Events(s, vals)
    ensures forall i :: 0 <= i < |vals| ==>
      Events(s, vals)[i] ==
        (if s.stable + i < CommitAt then Settling
         else if s.stable + i == CommitAt then StableCommit
         else Settled)
    ensures var r := Run(s, vals);
      var k := CommitAt - s.stable;
      if |vals| <= k then
        r.stable == s.stable + |vals| && r.emas == SlowFold(s.emas, vals) &&
        r.vol == s.vol && r.interval == s.interval
      else
        r.stable == CommitAt + 1 && r.emas == SlowFold(s.emas, vals[..k]) &&
        r.vol == r.emas && r.interval == SlowScan
    decreases |vals|
  {
    if vals != [] {
      var s' := Step(s, vals[0]);
      var tail := vals[1..];
      assert Events(s, vals) == [Classify(s, vals[0])] + Events(s', tail);
      if s.stable < CommitAt {
        assert s'.emas == SlowEma(vals[0], s.emas);
        SettlingRun(s', tail);
        var k := CommitAt - s.stable;
        if k < |vals| {
          assert vals[..k][1..] == tail[..k - 1];
        }
      } else {
        SettledRun(s', tail);
      }
    }
  }

  /**
    After a disturbance, in-band samples produce exactly one stable commit,
    on the 201st of them; the level it commits is the slow average, seeded
    from the fast average of the disturbance, of the 200 samples before it.
   */
  lemma AfterDisturbance(s: FilterState, val: real, vals: seq<real>)
    requires Classify(s, val) == Disturbance
    requires Disturbance !in Events(Step(s, val), vals)
    ensures forall i :: 0 <= i < |vals| ==>
      (Events(Step(s, val), vals)[i] == StableCommit <==> i == CommitAt)
    ensures Run(Step(s, val), vals).vol ==
      if |vals| <= CommitAt then FastEma(val, s.ema)
      else SlowFold(FastEma(val, s.ema), vals[..CommitAt])
  {
    SettlingRun(Step(s, val), vals);
  }

  /** With the counter past 200, a stable commit is always preceded by a disturbance. */
  lemma {:induction false} CommitNeedsDisturbance(s: FilterState, vals: seq<real>)
    requires s.stable > CommitAt
    ensures CommitsPreceded(Events(s, vals))
    decreases |vals|
  {
    if vals != [] {
      var s' := Step(s, vals[0]);
      var e0 := Classify(s, vals[0]);
      assert Events(s, vals) == [e0] + Events(s', vals[1..]);
      if e0 != Disturbance {
        CommitNeedsDisturbance(s', vals[1..]);
      }
      PrecededCons(e0, Events(s', vals[1..]));
    }
  }

  /** Every stable commit in `es` has a disturbance somewhere before it. */
  predicate CommitsPreceded(es: seq<Event>)
  {
    forall i :: 0 <= i < |es| && es[i] == StableCommit ==> Disturbance in es[..i]
  }

  lemma PrecededCons(e0: Event, rest: seq<Event>)
    requires e0 != StableCommit
    requires e0 == Disturbance || CommitsPreceded(rest)
    ensures CommitsPreceded([e0] + rest)
  {
    var es := [e0] + rest;
    forall i | 0 < i < |es| && es[i] == StableCommit
      ensures Disturbance in es[..i]
    {
      assert es[..i] == [e0] + rest[..i - 1];
      if e0 != Disturbance {
        assert rest[i - 1] == StableCommit;
      }
    }
  }

  /** From the loop's initial state no stable commit happens before the first disturbance. */
  lemma NoCommitBeforeDisturbance(seed: real, vol: real, emas: real, vals: seq<real>)
    ensures CommitsPreceded(Events(Init(seed, vol, emas), vals))
  {
    CommitNeedsDisturbance(Init(seed, vol, emas), vals);
  }

  /** The slow average stays within any interval holding its seed and its samples. */
  lemma {:induction false} SlowFoldBounds(emas: real, vals: seq<real>, lo: real, hi: real)
    requires lo <= emas <= hi
    requires forall i :: 0 <= i < |vals| ==> lo <= vals[i] <= hi
    ensures lo <= SlowFold(emas, vals) <= hi
    decreases |vals|
  {
    if vals != [] {
      SlowFoldBounds(SlowEma(vals[0], emas), vals[1..], lo, hi);
    }
  }

  /**
    The level of the stable commit lies between the lowest and the highest
    of the disturbance's fast average and the 200 in-band samples after it.
   */
  lemma CommitWithinRange(s: FilterState, val: real, vals: seq<real>, lo: real, hi: real)
    requires Classify(s, val) == Disturbance
    requires Disturbance !in Events(Step(s, val), vals)
    requires |vals| > CommitAt
    requires lo <= FastEma(val, s.ema) <= hi
    requires forall i :: 0 <= i < CommitAt ==> lo <= vals[i] <= hi
    ensures lo <= Run(Step(s, val), vals).vol <= hi
  {
    AfterDisturbance(s, val, vals);
    SlowFoldBounds(FastEma(val, s.ema), vals[..CommitAt], lo, hi);
  }

  /** A settled knob read exactly at the committed level leaves the whole state unchanged. */
  lemma {:induction false} ConstantAtTarget(s: FilterState, vals: seq<real>)
    requires s.stable > CommitAt
    requires s.ema == s.vol
    requires forall i :: 0 <= i < |vals| ==> vals[i] == s.vol
    ensures Run(s, vals) == s
    ensures forall i :: 0 <= i < |vals| ==> Events(s, vals)[i] == Settled
    decreases |vals|
  {
    if vals != [] {
      assert Step(s, vals[0]) == s;
      ConstantAtTarget(s, vals[1..]);
    }
  }

  /** Settled at 0.5, one sample at 0.7 is a disturbance committing 0.55. */
  lemma DisturbanceFromHalf(emas: real)
    ensures var s := FilterState(0.5, emas, CommitAt + 1, SlowScan, 0.5);
      Classify(s, 0.7) == Disturbance &&
      Step(s, 0.7) == FilterState(0.55, 0.55, 0, FastScan, 0.55)
  {
  }
}
