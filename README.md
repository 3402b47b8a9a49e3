# On11 activity tracker — a Dafny model

On11 is a Pebble watchface with a background worker. The worker reads the
accelerometer in batches of samples and keeps a `Counter`: the seconds spent
sleeping, sitting, walking and jogging, a step total, and the time of the last
classified window.

For every full window of 80 samples, the worker does the following:
- it removes gravity with an adaptive low-pass filter, then projects each
  sample onto the gravity direction;
- it classifies the window with four linear scores;
- it books the elapsed seconds to one activity;
- for a walk or a jog, it counts steps with a hysteresis (Schmitt-trigger)
  band around the mean of the projected signal;
- it logs a 24-byte record to the phone at most once a minute, and clears the
  counter once a day at a configured minute;
- it pushes its status to the watchface in 16-bit messages.

Three front ends are modelled:
- the Aplite watchface, which also decides whether the wearer is driving from
  a speed the phone reports;
- the Basalt watchface;
- a small app in `src/` that runs an older recogniser variant itself.

This project models that core in Dafny. The modules follow the program's files:

| module | file | models |
|---|---|---|
| `Machine` | machine.dfy | `uint32_t` wrap-around, `(uint16_t)` and `int32_t`/`uint32_t` casts, little-endian bytes |
| `IntegerRoot` | integer_root.dfy | `wdSqrt` and `norm` (src/lowpassfilter.c), against a reference floor square root |
| `RealBounds` | real_bounds.dfy | facts about weighted means of reals, used by the filter |
| `LowPassFilter` | lowpassfilter.dfy | `clamp`, `initLowPassFilter`, `goThroughFilter` over exact reals |
| `Classifier` | classifier.dfy | `classify` (src/classifier.c) against a first-maximum reference definition |
| `Activity` | activity.dfy | what one classified window does to the `Counter`, as the specification function `Analyze` |
| `Window` | window.dfy | the array loops over a full buffer, proved equal to `Analyze` |
| `SlidingRecognizer` | sliding_recognizer.dfy | the worker's `analyzeAcceleration` (Aplite/worker_src/recognizer.c) |
| `ResettingRecognizer` | resetting_recognizer.dfy | the `analyzeAcceleration` of src/recognizer.c |
| `Persist` | persist.dfy | the persistent store and the two key layouts of a `Counter` |
| `Messages` | messages.dfy | worker-to-watchface status messages and the watchfaces' mailbox |
| `Worker` | worker.dfy | Aplite/worker_src/worker.c |
| `ApliteFace` | aplite_face.dfy | Aplite/src/main.c without drawing |
| `BasaltFace` | basalt_face.dfy | Basalt/src/main.c without drawing |
| `DemoApp` | demo_app.dfy | src/main.c |

### How the model is built

- **State.** Static C state that is updated in place becomes a Dafny `class`
  with those fields: the recognisers' sample buffer (an `array`), the
  worker's counters and settings, and the watchfaces' settings and mailbox.
  Each handler becomes a method whose `ensures` clauses give the new state,
  the recognisers' buffer and fill level included.
- **Window outcome.** Each window is specified by the pure function
  `Activity.Analyze`. The imperative loops in `Window` are proved equal to
  it. The lemmas about `Analyze` then carry over to both recognisers and to
  the worker.
- **Step count.** The step loop is specified twice:
  - as a fold (`Scan`);
  - as an independent reference definition: the number of side changes
    among the samples outside the band (`Changes(Sides(..))`).

  The lemma `ScanCountsSideChanges` proves the two equal.
- **Projection.** The floating-point filter-and-projection pass over a full
  buffer is the parameter `project`. It yields the feature vector and the
  rows written back.

### Inconsistencies recorded as facts

- **Tags 101 and 102.** The Basalt watchface sends the reset time on tag
  101 and the sensitivity on tag 102. The Aplite worker reads tag 101 as
  the sensitivity and tag 102 as the reset time.
  - `BasaltFace.ForwardedSettingsExchanged` proves that the two settings
    arrive exchanged at that worker.
  - `BasaltFace.StoredSettingsMisread` proves that the persistent keys
    disagree too.
  - The Basalt worker's own sources are not part of this model, so this is
    stated only against the Aplite worker.
- **Keys 4 and 5.** src/main.c stores the timestamp at key 4 and the steps
  at key 5; the worker does the reverse. Each layout round-trips on its
  own. `Persist.LayoutsExchangeStepsAndTimestamp` proves that a counter
  saved by one and loaded by the other has steps and timestamp exchanged.
- **Return type.** src/recognizer.h declares `analyzeAcceleration` as
  returning `uint32_t`, but src/recognizer.c returns `bool`. The model
  follows the code.

## Model

| member | source | states |
|---|---|---|
| Machine.AddSubCancel | Aplite/worker_src/recognizer.c:124-127 | taking back from walkTime the seconds just added to it restores walkTime, even across 2^32 wrap-around |
| Machine.SubAddCancel | Aplite/worker_src/worker.c:79-83 | adding a `uint32_t` difference back to the subtrahend restores the minuend, wrap-around or not |
| Machine.AddDifference | src/main.c:21-26 | the steps after an addition minus the steps before it give back what was added, modulo 2^32 |
| Machine.ToU16 | Aplite/worker_src/worker.c:55-69 | `(uint16_t)` keeps the value modulo 2^16, and values in 0-65535 unchanged |
| Machine.U32RoundTrip | Aplite/worker_src/worker.c:44-51 | a `uint32_t` written through `persist_write_int` and read back into a `uint32_t` is unchanged |
| Machine.LittleEndian32RoundTrip | Aplite/worker_src/worker.c:87-94 | the four bytes memcpy copies out of a `uint32_t` decode back to it |
| IntegerRoot.FloorSqrtBounds | src/lowpassfilter.c:10-17 | the reference root r of n satisfies r*r <= n < (r+1)*(r+1) |
| IntegerRoot.FloorSqrtUnique | src/lowpassfilter.c:10-17 | only one r satisfies r*r <= n < (r+1)*(r+1), so any such r is the reference root |
| IntegerRoot.SqrtStep | src/lowpassfilter.c:3-8 | one `iter1(N)` step: the trial value `try << N` is below 2^32, and both outcomes of the comparison keep the partial root's invariant for the next bit |
| IntegerRoot.SetClearBit | src/lowpassfilter.c:7 | `root \|= 2 << N` on a root whose bit is clear adds 2^(N+1) |
| IntegerRoot.WdSqrt | src/lowpassfilter.c:3-17 | for every 32-bit n the result r has r*r <= n < (r+1)*(r+1), equals the reference root and is at most 65535 |
| IntegerRoot.SquareU32Exact | src/lowpassfilter.c:32-34 | `(uint32_t) x * (uint32_t) x` of an `int16_t` is the exact square, at most 2^30 |
| IntegerRoot.Norm | src/lowpassfilter.c:30-35 | the sum of the three squares does not wrap, so `norm` is the floor of the vector's length, at most 56755 |
| RealBounds.MixBetween | src/lowpassfilter.c:63-65 | `x * w + y * (1 - w)` with w in [0, 1] lies between x and y |
| RealBounds.QuotientInRange | src/lowpassfilter.c:61 | dividing the positive filter constant by an attenuation of at least 1 keeps it positive and no larger |
| LowPassFilter.Clamp | src/lowpassfilter.c:20-27 | max above max, min below min, v otherwise; within [min, max] when min <= max |
| LowPassFilter.BlendFactorSelection | src/lowpassfilter.c:54-61 | with minStep 0.02 and attenuation 3, integer norms make d exactly 0 or 1, so alpha is filterConstant/3 for equal norms and filterConstant otherwise |
| LowPassFilter.BlendFactorInUnit | src/lowpassfilter.c:54-61 | for any valid constants alpha lies between filterConstant/attenuation and filterConstant |
| LowPassFilter.TruncBetween | src/lowpassfilter.c:63-65 | truncation toward zero keeps a real between two integers between them |
| LowPassFilter.Blend | src/lowpassfilter.c:63-65 | the blended estimate written back to `int16_t` lies between the sample and the old estimate |
| LowPassFilter.BlendFixedPoint | src/lowpassfilter.c:63-65 | a sample equal to the estimate leaves it unchanged |
| LowPassFilter.Filter.Init | src/lowpassfilter.c:38-50 | filterConstant = dt/(dt+RC) = 0.5, minStep 0.02, attenuation 3, gravity estimate zero |
| LowPassFilter.Filter.GoThroughFilter | src/lowpassfilter.c:53-66 | the constants are kept; alpha is the blend factor of the two norms and lies in (0, filterConstant]; each axis moves to a value between the sample and the old estimate |
| Classifier.Classify | src/classifier.c:5-47 | the result is a class 0-3 whose score is at least every other score and strictly above every lower class's score |
| Classifier.ClassifyIsFirstMaximum | src/classifier.c:5-47 | a class is the result if and only if it is the first maximum of the four scores |
| Classifier.SleepWinsWhenDominant | src/classifier.c:14-44 | class 0 is returned whenever its score is at least the three others |
| Classifier.ScoreIndependence | src/classifier.c:17-40 | the jog score ignores meanV; the sit, walk and jog scores ignore both deviations |
| Activity.BookOneBucket | Aplite/worker_src/recognizer.c:84-97 | the switch grows the bucket of the type by the elapsed seconds and leaves the other buckets, the timestamp and the steps alone |
| Activity.BookTotal | Aplite/worker_src/recognizer.c:84-97 | booking adds the elapsed seconds to the four-bucket total, modulo 2^32 |
| Activity.Scan | Aplite/worker_src/recognizer.c:110-120 | the step loop ends with direction -1, 0 or 1, has counted nothing while the direction is 0, and counts fewer crossings than samples |
| Activity.Sides | Aplite/worker_src/recognizer.c:110-120 | the side of every sample outside the band is 1 or -1 |
| Activity.ScanCountsSideChanges | Aplite/worker_src/recognizer.c:110-120 | the step loop counts exactly the side changes among the samples outside the band and ends on the side of the last such sample |
| Activity.Ratio | Aplite/worker_src/recognizer.c:105-108 | the band's ratio is 0 for any type but walk |
| Activity.Threshold | Aplite/worker_src/recognizer.c:111-115 | over exact reals, each band edge is the mean at ratio 0 and the extreme (maxV or minV) at ratio 1, and for a ratio in [0, 1] lies between the two |
| Activity.MaxV | Aplite/worker_src/recognizer.c:29-61 | maxV is at least every projected v and is either -32767 or one of them |
| Activity.MinV | Aplite/worker_src/recognizer.c:30-61 | minV is at most every projected v and is either 32767 or one of them |
| Activity.WindowStepsBound | src/recognizer.c:93-115 | the steps of a window are at most (samples scanned - 1) / divisor |
| Activity.StepsPerFullWindow | src/recognizer.c:102-113 | a full window of 80 samples adds at most 39 steps in src/recognizer.c and at most 19 in the worker |
| Activity.ImplausibleWalkIsSitting | Aplite/worker_src/recognizer.c:123-130 | a walk faster than maxWalkingSpeed steps per second is booked exactly as a sitting window, with no steps |
| Activity.OneBucketGrows | Aplite/worker_src/recognizer.c:80-98 | after a window exactly one bucket (that of the final type) has grown by now - timestamp, the others are unchanged, and the timestamp is now |
| Activity.TimeConserved | Aplite/worker_src/recognizer.c:80-130 | the four-bucket total grows by exactly the elapsed seconds, with or without the walk-to-sit correction |
| Activity.DrivingForcesSitting | Aplite/worker_src/recognizer.c:75-78 | while driving, a walk or jog is booked as sitting and adds no steps |
| Activity.StepsOnlyWhenMoving | src/recognizer.c:93-115 | steps are added only for walk and jog, and then the window's steps, within the bound |
| Activity.StepDelta | src/main.c:21-26 | the steps after a window minus those before are the window's steps for a walk or jog, and 0 otherwise |
| Window.ProjectInPlace | Aplite/worker_src/recognizer.c:55-61 | the buffer holds the projected rows and maxV/minV are their extremes |
| Window.SlideHalf | Aplite/worker_src/recognizer.c:136-141 | the first half of the buffer becomes the old second half, and the second half stays |
| Window.CountCrossings | Aplite/worker_src/recognizer.c:103-120 | the step loop's count is the fold `Scan` and the number of side changes outside the band, fewer than the samples scanned |
| Window.CountSteps | Aplite/worker_src/recognizer.c:101-121 | the steps are the crossings from the scan start divided by the divisor, as `WindowSteps` specifies |
| Window.AnalyzeWindow | Aplite/worker_src/recognizer.c:69-133 | override, booking, step count and walk correction compute exactly the outcome `Analyze` specifies |
| SlidingRecognizer.Taken | Aplite/worker_src/recognizer.c:15-21 | the fill takes the whole batch or exactly enough to fill the buffer, never more |
| SlidingRecognizer.Recognizer.constructor | Aplite/worker_src/recognizer.c:4-5 | an empty buffer of SAMPLE_SIZE samples |
| SlidingRecognizer.Recognizer.AnalyzeAcceleration | Aplite/worker_src/recognizer.c:8-145 | an empty batch returns 1 and changes nothing; otherwise the surplus is dropped; below SAMPLE_SIZE it returns 2 with the batch stored; at SAMPLE_SIZE it returns 0 with the outcome of `Analyze` on the projected window, the second half moved to the front, and SAMPLE_SIZE/2 samples kept |
| ResettingRecognizer.Recognizer.constructor | src/recognizer.c:4-5 | an empty buffer of SAMPLE_SIZE samples |
| ResettingRecognizer.Recognizer.AnalyzeAcceleration | src/recognizer.c:8-120 | an empty batch returns false and changes nothing; a batch into a non-full buffer is appended and returns false; a batch into a full buffer is discarded, the window is analysed as `Analyze` specifies, the buffer emptied and true returned |
| Persist.WriteThenRead | Aplite/worker_src/worker.c:23-51 | a written value is read back whatever the default, and other keys are unaffected |
| Persist.CounterRoundTrip | Aplite/worker_src/worker.c:23-51 | saving a counter and loading it with the same layout gives it back |
| Persist.CounterDefaults | Aplite/worker_src/worker.c:23-34 | on an empty store every field loads as 0 and the timestamp as now |
| Persist.LayoutsExchangeStepsAndTimestamp | src/main.c:76-83 | a counter saved with the worker's layout and loaded with that of src/main.c has steps and timestamp exchanged |
| Messages.DeliverTouchesOneField | Aplite/src/main.c:463-487 | tags 0-4 overwrite one counter field, tag 5 the type, other tags nothing |
| Messages.StatusPushSynchronises | Aplite/worker_src/worker.c:55-69 | after one status push the watchface holds the low 16 bits of every bucket, the steps and the type |
| Messages.SmallStatusArrivesExactly | Aplite/worker_src/worker.c:55-69 | values below 2^16 arrive unchanged |
| Worker.ControlSetsOneSetting | Aplite/worker_src/worker.c:122-139 | tag 101 sets the sensitivity, 102 the reset minute, 103 the driving flag, and nothing else changes |
| Worker.ResetDueWhenMinutePassed | Aplite/worker_src/worker.c:98-103 | away from wrap-around, the reset fires exactly when today's reset minute has passed and the last record came before it |
| Worker.Record | Aplite/worker_src/worker.c:87-95 | the record is 24 bytes |
| Worker.RecordRoundTrip | Aplite/worker_src/worker.c:79-95 | the record's six fields decode to the deltas of the four buckets and the steps, which restore the counter, and the timestamp |
| Worker.LoggingRule | Aplite/worker_src/worker.c:76-113 | a record is written if and only if 60 seconds have passed since the last one; the counter is then kept or cleared and becomes the last counter |
| Worker.ResetIdempotent | Aplite/worker_src/worker.c:97-112 | after a reset, running the check again at the same moment changes nothing |
| Worker.ResetFiresTwiceAsWritten | Aplite/worker_src/worker.c:97-112 | as written, a record landing exactly on the reset instant lets the next record of the same day clear the counter again |
| Worker.DoubleResetExample | Aplite/worker_src/worker.c:97-112 | reset minute 720: the records at 43200 and 43260 both clear the counter, losing 60 s of sit time |
| Worker.ResetRulesDifferOnlyAtInstant | Aplite/worker_src/worker.c:101-103 | the written `<=` rule and the intended `<` rule differ only when the last record is at the reset instant |
| Worker.ResetAtMostOnce | Aplite/worker_src/worker.c:97-112 | under the intended rule, once the reset has fired, a later record with the same reset instant keeps its counter |
| Worker.SingleResetExample | Aplite/worker_src/worker.c:97-112 | on the same inputs, the intended rule clears once and keeps the 60 s of sit time |
| Worker.StartupBooksNoOfflineTime | Aplite/worker_src/worker.c:147-161 | at start-up the counter is kept or cleared and stamped now whatever happened, so offline time goes to no bucket |
| Worker.WorkerState.constructor | Aplite/worker_src/worker.c:9-19 | default settings, type 0 and an empty sample buffer |
| Worker.WorkerState.LoadStatus | Aplite/worker_src/worker.c:23-34 | the counter is loaded from keys 0-5 with the timestamp defaulting to now |
| Worker.WorkerState.LoadSettings | Aplite/worker_src/worker.c:36-40 | keys 7, 9 and 11 with defaults 0, false and 20 |
| Worker.WorkerState.SaveStatus | Aplite/worker_src/worker.c:44-51 | the counter is saved under keys 0-5 and loads back unchanged |
| Worker.WorkerState.SendStatusToWatchface | Aplite/worker_src/worker.c:55-69 | the six status messages; any mailbox receiving them holds the low 16 bits of the steps |
| Worker.WorkerState.ProcessAccelerometerData | Aplite/worker_src/worker.c:73-118 | the code follows the fill level: an empty batch changes nothing; a batch that leaves the buffer short is copied in as `Filled` says and nothing else changes or is sent; a batch that fills it gives a window whose outcome is that of `Analyze`, which conserves time, after which the buffer slides by half, logging and reset follow `LogAndReset`, and the status is pushed |
| Worker.WorkerState.WorkerMessageReceived | Aplite/worker_src/worker.c:122-139 | tag 100 re-sends the status; 101-103 update the settings as `Control` does; the counters are unchanged |
| Worker.WorkerState.Init | Aplite/worker_src/worker.c:142-161 | status and settings are loaded; the start-up reset and stamp are applied; the last counter is the counter |
| Worker.WorkerState.Deinit | Aplite/worker_src/worker.c:179-181 | the counter is saved with the worker's layout |
| ApliteFace.ConfigRoundTrip | Aplite/src/main.c:71-89 | `saveConfig` then `loadConfig` restores all six settings |
| ApliteFace.ConfigDefaults | Aplite/src/main.c:71-78 | absent keys 6-11 give theme true, reset 0, threshold 0, not driving, battery 0, sensitivity 20 |
| ApliteFace.WorkerLoadsSavedSettings | Aplite/src/main.c:82-89 | the worker's `loadConfig` reads back the reset minute, driving flag and sensitivity this watchface saved |
| ApliteFace.SettingsReachWorker | Aplite/src/main.c:420-425 | the worker takes the forwarded sensitivity and reset minute cut to 16 bits, and values in 0-65535 exactly; tag 103 sets its driving flag |
| ApliteFace.ClockDigits | Aplite/src/main.c:284 | the displayed hours lie in 0-23 and minutes in 0-59, and below a day they give back the duration to the minute |
| ApliteFace.Face.constructor | Aplite/src/main.c:15-21 | the settings' static defaults and type 0 |
| ApliteFace.Face.LoadStatus | Aplite/src/main.c:56-68 | the counter is loaded with the worker's layout, timestamp defaulting to now |
| ApliteFace.Face.LoadSettings | Aplite/src/main.c:71-78 | the settings are those `ReadConfig` loads |
| ApliteFace.Face.SaveSettings | Aplite/src/main.c:82-89 | the settings are written to keys 6-11 and load back unchanged |
| ApliteFace.Face.UpdateClock | Aplite/src/main.c:146-151 | at minutes divisible by 5 with a threshold set, driving is cleared and the speed requested; otherwise nothing changes |
| ApliteFace.Face.MessageReceived | Aplite/src/main.c:397-445 | a 56-byte message sets the five settings, runs the speed check and forwards sensitivity and reset minute; another message sets driving from the speed on monochrome builds and forwards it on tag 103 |
| ApliteFace.Face.WorkerMessageReceived | Aplite/src/main.c:463-487 | the mailbox is updated as `Deliver` specifies and the settings are unchanged |
| ApliteFace.Face.Init | Aplite/src/main.c:540-611 | status and settings are loaded; the window's immediate `updateClock` clears the loaded driving flag and requests the speed at a minute divisible by 5 when a threshold is set; a refresh (tag 100) is requested; the current type is unchanged |
| ApliteFace.Face.Deinit | Aplite/src/main.c:617-619 | the settings are saved |
| BasaltFace.ConfigRoundTrip | Basalt/src/main.c:31-45 | `saveConfig` then `loadConfig` restores the four settings |
| BasaltFace.ConfigDefaults | Basalt/src/main.c:31-36 | absent keys 6-9 give reset 0, sensitivity 15, step goal 10000, active goal 60 |
| BasaltFace.ForwardedSettingsExchanged | Basalt/src/main.c:387-393 | at the Aplite worker the forwarded reset time becomes the sensitivity and vice versa |
| BasaltFace.StoredSettingsMisread | Basalt/src/main.c:40-45 | the Aplite worker would load the saved sensitivity as its reset minute and never see the saved reset time |
| BasaltFace.ClampPercent | Basalt/src/main.c:80-81 | the percentage ends in [0, 100]: unchanged inside, 100 above, 0 below |
| BasaltFace.ProgressLength | Basalt/src/main.c:80-83 | the progress length is the clamped share of the perimeter and never exceeds it |
| BasaltFace.Face.constructor | Basalt/src/main.c:13-16 | the settings' static defaults and type 0 |
| BasaltFace.Face.LoadSettings | Basalt/src/main.c:31-36 | the settings are those `ReadConfig` loads |
| BasaltFace.Face.SaveSettings | Basalt/src/main.c:40-45 | the settings are written to keys 6-9 and load back unchanged |
| BasaltFace.Face.SendConfigToWorker | Basalt/src/main.c:387-393 | reset time on tag 101, sensitivity on tag 102, each cut to 16 bits |
| BasaltFace.Face.MessageReceived | Basalt/src/main.c:397-415 | the four settings are overwritten by the message and forwarded |
| BasaltFace.Face.WorkerMessageReceived | Basalt/src/main.c:433-457 | the mailbox is updated as `Deliver` specifies and the settings are unchanged |
| BasaltFace.Face.Init | Basalt/src/main.c:478-491 | the settings are loaded and forwarded, then a refresh (tag 100) is requested; the worker status held (counter and type) is unchanged |
| BasaltFace.Face.Deinit | Basalt/src/main.c:528-530 | the settings are saved |
| DemoApp.App.constructor | src/main.c:6-15 | not driving, sensitivity 20, type sit, an empty buffer |
| DemoApp.App.Init | src/main.c:76-83 | the counter is loaded with timestamp at key 4 (default now) and steps at key 5 |
| DemoApp.App.Deinit | src/main.c:114-119 | the counter is written to keys 0-5 and loads back unchanged |
| DemoApp.App.ProcessAccelerometerData | src/main.c:20-26 | a full buffer is classified: type and counter change as `Analyze` specifies, the reported delta is the window's steps for a walk or jog and 0 otherwise, and the fill level returns to 0; otherwise a non-empty batch is appended behind the stored samples |

## Left out

- Drawing, text layers, bitmaps, battery and Bluetooth handling, tap events, and the geometry of `drawProgress` beyond its clamp and length: presentation code with no state the model keeps.
- The phone-side JavaScript (geolocation, speed estimate, configuration page): browser I/O and floating point. The speed reaches the model as a message value.
- Pebble SDK calls are not modelled. The persistent store is a map from key to `int32_t`, messages are returned as sequences, and the data-log record is returned as bytes. `time(NULL)` is the parameter `now` and the local time of day is `secondsSinceMidnight`.
- Worker.WorkerState.ProcessAccelerometerData: the two readings of `time(NULL)` in one callback (one in the recogniser, one before the reset check) are modelled as one `now`.
- SlidingRecognizer.Recognizer.AnalyzeAcceleration: the filter-and-projection pass over a full buffer (gravity filter, projection, mean and N-1 variance in doubles) is the parameter `project`. The model does not capture:
  - that the filter's state carries over from window to window;
  - that the projected values are truncated to `int16_t`;
  - that the `(uint32_t)` cast of a possibly negative double is undefined in C.
- ResettingRecognizer.Recognizer.AnalyzeAcceleration: the same `project` abstraction applies. The copy loop has no bounds check, so a batch that would run past the buffer is excluded by a precondition rather than modelled; it would overwrite memory after the buffer.
- DemoApp.App.ProcessAccelerometerData: the step delta is used only for debug logging, which is switched off and not modelled.
- LowPassFilter.Filter.GoThroughFilter: computes over exact reals rather than IEEE doubles, and the norms come from the reference definition `NormOf` rather than `norm`. `Norm` is proved equal to `NormOf`.
- Classifier.Classify: compares exact real scores; double rounding could break ties differently.
- Activity.Threshold: the band edges, the ratio `sensitivity / 100` and the comparisons of `Step` use exact reals, not IEEE doubles. Rounding can move a double edge by an ulp: the edge at ratio 1 can fall just short of the extreme, and a sample equal to the real edge can fall on the other side in C (sensitivity 35, mean -50, maximum 130: the real edge is 13, the double edge just below it). The contracts about the edges and the step count hold over the reals.
- Worker.ResetInstant: `mResetTime * 60` is computed without the `int32_t` overflow C would hit for absurdly large reset minutes; the sum is then wrapped to `uint32_t` as in the source.
- ApliteFace.Face.MessageReceived: the dictionary is a map from key to `int32_t`, and its keys are required to be present (the source dereferences `dict_find` without a check). The current minute for `updateClock` is a parameter.
- ApliteFace.ClockDigits: cites the sit-time display (Aplite/src/main.c:284); the same expressions for the other buckets (lines 298, 312, 336, 349, 362) are the same `Hours` and `Minutes`.
- The Basalt worker's recognizer.c and worker.c are not part of this model (its header's MAX_WALKING_SPEED is 3 rather than 2).
- BasaltFace.Face.MessageReceived: the dictionary is a map from key to `int32_t`, and its four keys are required to be present; the source reads the `dict_find` results without a check, and a missing key would dereference a null tuple.
- Worker.WorkerState.ProcessAccelerometerData: models the daily reset rule as written (`<=`); the corrected rule `LogAndResetOnce` is stated beside it (see Findings) and not substituted, so that the worker stays the source's.
- The worker and the watchface run concurrently. Each handler is modelled as one sequential step on its own state; interleavings are not modelled.

## Findings

| source | as written | input that shows it | evidently intended | confidence | as-written member | corrected member |
|---|---|---|---|---|---|---|
| Aplite/worker_src/worker.c:101-103 | the daily reset fires when the last record's timestamp is at or before the reset instant and the instant is not after now; after a reset at the instant itself, the last timestamp equals the instant, so the test passes again | reset minute 720; a record at 43200 (12:00:00) with the last record at 36000 clears the counter; the next record at 43260 with 60 s of sitting clears it again | the reset fires once per reset instant: the last check strictly before it (`<`) | medium, not executed | Worker.ResetFiresTwiceAsWritten | Worker.ResetAtMostOnce |
