/**
  The target register (`vol`) and the actuation worker that forwards it to
  the PulseAudio sink. The worker keeps the level it last sent and issues a
  set-volume request only when the target differs from it. Requests are
  recorded in a ghost log; the conversion of a linear level to the sink's
  volume scale is the sink's business and is kept symbolic.
 */
module Actuation {
  import opened Wrappers

  /** The worker's applied level before its first request: below any level the loop commits. */
  const InitialApplied: real := -1.0

  /**
    A volume as sent to the sink: `Norm` is full scale (PA_VOLUME_NORM,
    0x10000), `FromLinear` the sink's conversion of a linear level.
   */
  datatype SinkVolume = Norm | FromLinear(level: real)

  /** One set-volume request: every one of `channels` channels set to `volume`. */
  datatype Request = SetSinkVolume(channels: nat, volume: SinkVolume)

  /** Levels at or above 1.0 are sent as full scale; all others go through the sink's conversion. */
  function Encode(level: real): (v: SinkVolume)
    ensures v == Norm <==> level >= 1.0
    ensures v.FromLinear? ==> v.level == level
  {
    if level >= 1.0 then Norm else FromLinear(level)
  }

  /** What one worker iteration sends, given the level it last applied and the target it reads. */
  function Issue(currvol: real, vol: real): Option<SinkVolume>
  {
    if currvol == vol then None else Some(Encode(vol))
  }

  /** The volumes sent by successive iterations that read the targets `observed`. */
  function WorkerRun(currvol: real, observed: seq<real>): (sent: seq<SinkVolume>)
    ensures |sent| <= |observed|
    decreases |observed|
  {
    if observed == [] then []
    else
      (match Issue(currvol, observed[0]) case None => [] case Some(v) => [v]) +
      WorkerRun(observed[0], observed[1..])
  }

  /** The requests that carry the volumes `sent`, each for all `channels` channels. */
  function Requests(channels: nat, sent: seq<SinkVolume>): (rs: seq<Request>)
    ensures |rs| == |sent|
  {
    seq(|sent|, j requires 0 <= j < |sent| => SetSinkVolume(channels, sent[j]))
  }

  /** The level the worker holds after the iterations that read `observed`. */
  function LastApplied(currvol: real, observed: seq<real>): real
  {
    if observed == [] then currvol else observed[|observed| - 1]
  }

  /** The shared target slot: written by the read loop, read by the worker; the last write wins. */
  class TargetRegister {
    var level: real

    constructor (initial: real)
      ensures level == initial
    {
      level := initial;
    }

    method Write(v: real)
      modifies this
      ensures level == v
    {
      level := v;
    }

    method Read() returns (v: real)
      ensures v == level
    {
      v := level;
    }
  }

  /** The actuation worker: the level it last sent, and the requests it has issued. */
  class Worker {
    const target: TargetRegister
    const channels: nat
    var currvol: real
    ghost var requests: seq<Request>

    constructor (target: TargetRegister, channels: nat)
      ensures this.target == target && this.channels == channels
      ensures currvol == InitialApplied && requests == []
    {
      this.target := target;
      this.channels := channels;
      currvol := InitialApplied;
      requests := [];
    }

    /** One iteration of the worker loop, up to its sleep. */
    method Iterate()
      modifies this
      ensures currvol == target.level
      ensures requests == old(requests) +
        match Issue(old(currvol), target.level)
        case None => []
        case Some(v) => [SetSinkVolume(channels, v)]
    {
      var vol := target.Read();
      if currvol == vol {
        return;
      }
      currvol := vol;
      var cv := if currvol >= 1.0 then Norm else FromLinear(currvol);
      requests := requests + [SetSinkVolume(channels, cv)];
    }
  }

  /**
    Successive iterations of the worker `w`, the read loop having committed
    `levels[i]` to the shared target just before the i-th of them. The
    writes stand for the read loop; the worker itself only reads the target.
   */
  method Follow(w: Worker, levels: seq<real>)
    modifies w, w.target
    ensures w.currvol == LastApplied(old(w.currvol), levels)
    ensures w.requests == old(w.requests) + Requests(w.channels, WorkerRun(old(w.currvol), levels))
    ensures w.target.level == LastApplied(old(w.target.level), levels)
  {
    ghost var c0 := w.currvol;
    ghost var t0 := w.target.level;
    ghost var r0 := w.requests;
    var i := 0;
    while i < |levels|
      invariant 0 <= i <= |levels|
      invariant w.currvol == LastApplied(c0, levels[..i])
      invariant w.requests == r0 + Requests(w.channels, WorkerRun(c0, levels[..i]))
      invariant w.target.level == LastApplied(t0, levels[..i])
    {
      ghost var before := WorkerRun(c0, levels[..i]);
      w.target.Write(levels[i]);
      w.Iterate();
      assert levels[..i + 1] == levels[..i] + [levels[i]];
      WorkerRunAppend(c0, levels[..i], [levels[i]]);
      ghost var step := WorkerRun(LastApplied(c0, levels[..i]), [levels[i]]);
      RequestsAppend(w.channels, before, step);
      i := i + 1;
    }
    assert levels[..i] == levels;
  }

  /** A request is issued exactly when the target differs from the applied level. */
  lemma IssueOnChange(currvol: real, vol: real)
    ensures Issue(currvol, vol).Some? <==> vol != currvol
    ensures Issue(currvol, vol).Some? ==> Issue(currvol, vol).value == Encode(vol)
  {
  }

  /** The first iteration that reads a non-negative target always issues a request. */
  lemma FirstIterationIssues(vol: real)
    requires vol >= 0.0
    ensures Issue(InitialApplied, vol) == Some(Encode(vol))
  {
  }

  /** Iterations split at any point: the second part starts from the level the first left. */
  lemma {:induction false} WorkerRunAppend(currvol: real, a: seq<real>, b: seq<real>)
    ensures WorkerRun(currvol, a + b) == WorkerRun(currvol, a) + WorkerRun(LastApplied(currvol, a), b)
    decreases |a|
  {
    if a != [] {
      var head := match Issue(currvol, a[0]) case None => [] case Some(v) => [v];
      assert (a + b)[0] == a[0] && (a + b)[1..] == a[1..] + b;
      WorkerRunAppend(a[0], a[1..], b);
      LastAppliedCons(currvol, a);
      AppendAssoc(head, WorkerRun(a[0], a[1..]), WorkerRun(LastApplied(currvol, a), b));
    } else {
      assert a + b == b;
    }
  }

  lemma RequestsAppend(channels: nat, a: seq<SinkVolume>, b: seq<SinkVolume>)
    ensures Requests(channels, a + b) == Requests(channels, a) + Requests(channels, b)
  {
  }

  lemma LastAppliedCons(currvol: real, a: seq<real>)
    requires a != []
    ensures LastApplied(a[0], a[1..]) == LastApplied(currvol, a)
  {
    if a[1..] != [] {
      assert a[1..][|a[1..]| - 1] == a[|a| - 1];
    }
  }

  lemma AppendAssoc<T>(x: seq<T>, y: seq<T>, z: seq<T>)
    ensures x + (y + z) == (x + y) + z
  {
  }

  /**
    While the target holds one level, the first iteration sends it (unless it
    was already applied) and no later iteration sends anything.
   */
  lemma {:induction false} WorkerRunSteady(currvol: real, observed: seq<real>, level: real)
    requires |observed| > 0
    requires forall i :: 0 <= i < |observed| ==> observed[i] == level
    ensures WorkerRun(currvol, observed) == if currvol == level then [] else [Encode(level)]
    decreases |observed|
  {
    if |observed| > 1 {
      WorkerRunSteady(level, observed[1..], level);
    }
  }
}
