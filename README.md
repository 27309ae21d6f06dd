# adc2pulse in Dafny

adc2pulse turns the position of a potentiometer, read through the 10-bit
SAR ADC of an Odroid board, into the volume of a PulseAudio sink. This
project models its control core:

- **Sampling** (`sampling.dfy`): `adc_read_raw` (a failed read counts as 0)
  and `adc_read`, which sums `count` raw reads in a loop and remaps the sum
  linearly to about -0.01 .. 1.01.
- **Filter** (`filter.dfy`): the body of the read loop as a pure state
  machine. A fast exponential moving average `ema` (coefficient 1/4) is
  compared with the committed target `vol`. When they are 0.01 or more
  apart the sample is a disturbance: the target becomes `ema` at once, the
  slow average `emas` (coefficient 2/151) restarts from it, the counter
  `stable` restarts at 0 and the loop scans every 8 ms. Otherwise the
  next 200 in-band samples feed `emas`; the 201st commits `emas` as the
  target and returns to 50 ms scanning; later in-band samples change only
  `ema`. Runs of samples, the scan interval invariant, and the value and
  uniqueness of the stable commit are proved here.
- **Actuation** (`actuation.dfy`): the target slot `vol` as a last-write-wins
  register object, and one iteration of the worker thread that sends a
  set-volume request to the sink only when the target differs from the
  level it last sent, with levels of 1.0 or more sent as full scale.
  `Follow` runs successive iterations on a worker object and is proved
  to log exactly the requests of the pure `WorkerRun`.
- **ReadLoop** (`readloop.dfy`): the loop variables of `main` as the fields
  of an `Engine` object that shares the register with the worker; each
  loop iteration is proved to perform exactly the pure `Step`, and a
  finite stretch of the loop exactly `Run`.
- **Startup** (`startup.dfy`): the argument-count and channel-number check,
  and the wait of at most 100 polls for the sink's first volume report.

Doubles are modelled as reals. The file read, the decimal parser and the
sink's linear-to-volume conversion are outside the model: a raw read is
given by the byte count returned and the integer parsed, and a request
carries either full scale or the linear level the sink converts.

Where the code differs from what its comments or a first reading suggest,
the model follows the code:

- The stable commit happens on the cycle that finds `stable == 200` on
  entry, the 201st consecutive in-band sample after a disturbance, and that
  cycle does not fold the sample into `emas`; it is not on the 200th sample.
- The counter starts at 100000, so no stable commit happens before the first
  disturbance; a knob that never moves and lies within 0.01 of the sink's
  starting level is never committed by the loop.
- Only levels of 1.0 or more are clamped (to full scale); levels below 0.0
  are passed to the sink's conversion as they are.
- A full-scale read remaps to 1023 / 1002.9 - 0.01, about 1.01004, slightly
  above the 1.01 the code's comment gives.

## Model

| member | source | states |
|---|---|---|
| `Filter.FastEma` | adc2pulse.c:379-403 | the new fast average lies between the old one and the sample, and its distance to the sample is 3/4 of the old distance |
| `Filter.SlowEma` | adc2pulse.c:384-426 | the new slow average lies between the old one and the sample, and its distance to the sample is 149/151 of the old distance |
| `Filter.DisturbanceStep` | adc2pulse.c:402-421 | a step is a disturbance exactly when the updated fast average is at least 0.01 from the target; it then sets the counter to 0, the slow average and the target to the fast average, and the interval to fast |
| `Filter.SettlingStep` | adc2pulse.c:422-426 | an in-band step with the counter below 200 adds 1 to the counter, folds the sample into the slow average, and keeps target and interval |
| `Filter.CommitStep` | adc2pulse.c:427-437 | an in-band step with the counter at 200 sets it to 201, the interval to slow and the target to the slow average, which it does not update |
| `Filter.SettledStep` | adc2pulse.c:422-438 | an in-band step with the counter past 200 changes only the fast average |
| `Filter.InitInv` | adc2pulse.c:382-390 | the loop starts with the counter at its sentinel and slow scanning, which satisfies the interval invariant |
| `Filter.StepPreservesInv` | adc2pulse.c:390-433 | every step keeps the interval fast exactly while the counter is at most 200, the counter within 0..201 or at its sentinel, and the interval one of 8 ms and 50 ms |
| `Filter.IntervalChanges` | adc2pulse.c:411-433 | the interval turns fast only through a disturbance and slow only through the stable commit |
| `Filter.RunSnoc` | adc2pulse.c:393-439 | running the loop over samples followed by one more is the run followed by one step |
| `Filter.RunEma` | adc2pulse.c:400-403 | whatever branches are taken, the fast average after a run is the fast average folded over every sample |
| `Filter.SettledRun` | adc2pulse.c:422-438 | with the counter past 200, in-band samples take the settled branch and change nothing but the fast average |
| `Filter.SettlingRun` | adc2pulse.c:422-437 | from a counter at or below 200, in-band samples settle until the counter reaches 200, the next one commits the slow average folded over exactly the samples before it and scans slow, and the rest are settled |
| `Filter.AfterDisturbance` | adc2pulse.c:411-437 | after a disturbance, among in-band samples the stable commit happens on exactly the 201st, and the target is then the slow average seeded from the disturbance's fast average over the 200 samples before it |
| `Filter.CommitNeedsDisturbance` | adc2pulse.c:424-433 | with the counter past 200, every stable commit is preceded by a disturbance |
| `Filter.NoCommitBeforeDisturbance` | adc2pulse.c:382-437 | from the loop's initial state no stable commit happens before the first disturbance |
| `Filter.SlowFoldBounds` | adc2pulse.c:414-426 | the slow average stays within any interval that holds its seed and its samples |
| `Filter.CommitWithinRange` | adc2pulse.c:411-433 | the level of the stable commit lies between the lowest and the highest of the disturbance's fast average and the 200 in-band samples after it |
| `Filter.ConstantAtTarget` | adc2pulse.c:403-438 | a settled knob whose fast average equals the committed level, read exactly at that level, leaves the whole state unchanged and takes the settled branch every time |
| `Filter.DisturbanceFromHalf` | adc2pulse.c:403-418 | settled at 0.5, one sample at 0.7 is a disturbance that commits 0.55, scans fast and restarts the counter |
| `Sampling.ReadRaw` | adc2pulse.c:170-186 | a read returning no bytes or an error gives 0; otherwise the parsed integer |
| `Sampling.AdcRead` | adc2pulse.c:189-200 | the sample is the sum of exactly `count` raw reads times 1 / count / 1002.9, minus 0.01 |
| `Sampling.AllFailedSumZero` | adc2pulse.c:175-196 | when every read fails the sum of the raw reads is 0 |
| `Sampling.AllFailedLevel` | adc2pulse.c:189-199 | when every read fails the sample is -0.01 |
| `Sampling.SumRawBounds` | adc2pulse.c:191-196 | reads within the 10-bit range sum to between 0 and 1023 times their number |
| `Sampling.LevelBounds` | adc2pulse.c:191-199 | reads within the 10-bit range give a sample between -0.01 and 1023 / 1002.9 - 0.01 |
| `Actuation.Encode` | adc2pulse.c:226-230 | a level is sent as full scale exactly when it is 1.0 or more, otherwise as that level |
| `Actuation.WorkerRun` | adc2pulse.c:216-244 | successive worker iterations send no more requests than there are iterations; `WorkerRunAppend` and `WorkerRunSteady` fix which |
| `Actuation.TargetRegister.constructor` | adc2pulse.c:334-341 | the target starts as the level read from the sink |
| `Actuation.TargetRegister.Write` | adc2pulse.c:250-255 | a write replaces the target; the last write wins |
| `Actuation.TargetRegister.Read` | adc2pulse.c:406-408 | a read returns the current target |
| `Actuation.Worker.constructor` | adc2pulse.c:203-214 | the worker starts with applied level -1.0, the sink's channel count and no requests |
| `Actuation.Worker.Iterate` | adc2pulse.c:216-244 | an iteration appends one request for all channels exactly when the target differs from the applied level, and the applied level is then the target |
| `Actuation.Follow` | adc2pulse.c:216-244 | successive iterations of a worker, each after the target is set to the next level, leave the applied level and the target at the last level and log exactly the requests `WorkerRun` gives, each for all channels |
| `Actuation.IssueOnChange` | adc2pulse.c:218-235 | a request is issued exactly when the target differs from the applied level, and it carries the encoded target |
| `Actuation.FirstIterationIssues` | adc2pulse.c:206-223 | the first iteration that reads a non-negative target always issues a request |
| `Actuation.WorkerRunAppend` | adc2pulse.c:216-244 | iterations over two stretches of targets send the requests of the first followed by those of the second, started from the level the first left applied |
| `Actuation.WorkerRunSteady` | adc2pulse.c:216-244 | while the target holds one level, the first iteration sends it unless already applied, and no later iteration sends anything |
| `ReadLoop.Engine.constructor` | adc2pulse.c:379-390 | the loop starts from a fast average seeded by 32 raw reads, the counter at 100000, slow scanning and the target as read from the sink |
| `ReadLoop.Engine.Sample` | adc2pulse.c:399-438 | one loop iteration changes the loop variables and the shared target exactly as the pure step does |
| `ReadLoop.Engine.Drive` | adc2pulse.c:392-439 | iterations over batches of 16 raw reads change the state exactly as the pure run over their samples |
| `ReadLoop.SettledIdempotent` | adc2pulse.c:422-438 | once settled, an in-band sample keeps the target, so a worker that applied it issues no request |
| `ReadLoop.DisturbanceIssues` | adc2pulse.c:411-418 | a disturbance changes the target, so the worker's next iteration sends the new fast average |
| `Startup.CheckArguments` | adc2pulse.c:273-293 | arguments are accepted exactly when there are two or three and an optional channel lies in 0..7; the channel defaults to 0; a wrong count is a usage error and a channel out of range a bad-channel error |
| `Startup.WaitForSink` | adc2pulse.c:334-352 | at most 100 polls; the wait fails with a timeout exactly when the poll index reaches 100, which is exactly when no poll found a report, and otherwise returns the first report |

## Left out

- PulseAudio session plumbing (`ctx_state_cb`, `subscribe_cb`, `set_volume_cb`, mainloop and context setup, adc2pulse.c:40-43, 94-151, 311-332): callbacks of a foreign library and process exits.
- The state file (`sink_info_cb`, adc2pulse.c:46-91), the startup log of channel volumes (adc2pulse.c:354-359) and the `verbose` messages of the worker and the read loop (adc2pulse.c:232-233, 420-421, 435-436): file and console output.
- `adc_open` (adc2pulse.c:154-167), `strdup` failure and thread creation (adc2pulse.c:279-285, 361-375): system calls whose only logic is to exit on failure.
- Threads, the reader/writer locks and every `nanosleep`: the read loop and the worker are separate sequential methods over one shared register object; interleavings and the time a stale target can persist are not modelled.
- IEEE double rounding: doubles are reals, and the worker's exact comparison `currvol == vol` is real equality.
- `pread`, `atoi`, `pa_sw_volume_from_linear` and `pa_sw_volume_to_linear`: a raw read is given by its byte count and parsed integer, a request carries the linear level, and a sink report carries its first channel already converted to linear.
- The string termination in `adc_read_raw` (adc2pulse.c:180-183): it reads `buf[n]`, a byte the read never wrote, and for a 15-byte read writes `buf[16]`, one past the 16-byte buffer; only its outcome, the parsed integer, is modelled.
- Sampling.AdcRead: the C `int` sum is unbounded here; with at most 32 reads in 0..1023 it cannot overflow, and a parser returning larger values is not modelled. It requires `count > 0`, as both callers pass 32 or 16.
- ReadLoop.Engine.constructor: the C loop leaves `emas` uninitialised before the first disturbance; the model starts it at 0.0, and `SettledRun` and `CommitNeedsDisturbance` show that no value of it is committed before a disturbance reseeds it.
- The infinite read and worker loops are modelled by finite stretches (`Engine.Drive`, `WorkerRun`).
