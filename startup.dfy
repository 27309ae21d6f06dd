/**
  The startup checks of `main`: the command-line argument count and the
  ADC channel number, and the bounded wait for the sink's first volume
  report, which seeds the target register.
 */
module Startup {
  import opened Wrappers

  /** Polls of the sink state before giving up, 50 ms apart. */
  const MaxPolls: nat := 100

  /** Highest channel number of the SAR ADC. */
  const MaxChannel: int := 7

  datatype StartError = Usage | BadChannel | Timeout

  /** The sink's volume as first reported: its channel count and its first channel as a linear level. */
  datatype SinkReport = SinkReport(channels: nat, linear: real)

  /**
    The argument check: two or three arguments after the program name; the
    optional third is the channel, given here as the integer parsed from it;
    channel 0 when it is absent.
   */
  function CheckArguments(argc: int, channelArg: int): (r: Result<nat, StartError>)
    ensures r.Success? <==> 3 <= argc <= 4 && (argc == 4 ==> 0 <= channelArg <= MaxChannel)
    ensures r.Success? ==> r.value <= MaxChannel && r.value == if argc == 4 then channelArg else 0
    ensures r == Failure(BadChannel) <==> argc == 4 && !(0 <= channelArg <= MaxChannel)
    ensures r == Failure(Usage) <==> argc < 3 || argc > 4
  {
    if argc < 3 || argc > 4 then Failure(Usage)
    else if argc == 4 then
      if channelArg < 0 || channelArg > MaxChannel then Failure(BadChannel) else Success(channelArg)
    else Success(0)
  }

  /**
    The wait for the first volume report: `polls[i]` is what the i-th poll
    finds. Returns the first report, or a timeout when none of the 100
    polls found one, together with the final poll index.
   */
  method WaitForSink(polls: seq<Option<SinkReport>>) returns (r: Result<SinkReport, StartError>, i: nat)
    requires |polls| == MaxPolls
    ensures i <= MaxPolls
    ensures r.Failure? <==> i == MaxPolls
    ensures r.Failure? <==> forall k :: 0 <= k < MaxPolls ==> polls[k].None?
    ensures r.Failure? ==> r.error == Timeout
    ensures r.Success? ==> polls[i] == Some(r.value) && forall k :: 0 <= k < i ==> polls[k].None?
  {
    i := 0;
    while i < MaxPolls
      invariant 0 <= i <= MaxPolls
      invariant forall k :: 0 <= k < i ==> polls[k].None?
    {
      if polls[i].Some? {
        break;
      }
      i := i + 1;
    }
    if i == MaxPolls {
      r := Failure(Timeout);
    } else {
      r := Success(polls[i].value);
    }
  }
}
