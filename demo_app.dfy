/** The sample app of src/main.c: it feeds accelerometer batches to the
    resetting recognizer of src/recognizer.c, reads the steps each analysed
    window added, and keeps its counter in the persistent store under its
    own key layout. */
module DemoApp {
  import opened Machine
  import opened Activity
  import opened Classifier
  import opened Window
  import opened Persist
  import ResettingRecognizer

  class App {
    var isDriving: bool
    var sensitivity: int32
    var currentType: nat
    var counter: Counter
    const recognizer: ResettingRecognizer.Recognizer

    ghost predicate Valid()
      reads this, recognizer
    {
      && recognizer.Valid()
      && recognizer.sampleSize == SAMPLE_SIZE
      && recognizer.rule == RESETTING_RULE
    }

    /** The static initial values: not driving, sensitivity 20, and the
        current type SIT. */
    constructor()
      ensures Valid() && fresh(recognizer) && fresh(recognizer.buffer)
      ensures !isDriving && sensitivity == 20 && currentType == SIT
      ensures recognizer.dataSize == 0
    {
      isDriving := false;
      sensitivity := 20;
      currentType := SIT;
      counter := Counter(0, 0, 0, 0, 0, 0);
      recognizer := new ResettingRecognizer.Recognizer(SAMPLE_SIZE, RESETTING_RULE);
    }

    /** `init`: the counter is loaded with this app's layout, timestamp at
        key 4 and steps at key 5. */
    method Init(s: Store, now: uint32)
      modifies this
      ensures counter == LoadCounter(s, DEMO_LAYOUT, now)
      ensures isDriving == old(isDriving) && sensitivity == old(sensitivity) && currentType == old(currentType)
    {
      var sleepTime := ReadUint(s, 0, 0);
      var sitTime := ReadUint(s, 1, 0);
      var walkTime := ReadUint(s, 2, 0);
      var jogTime := ReadUint(s, 3, 0);
      var timestamp := if 4 in s then U32OfI32(s[4]) else now;
      var steps := ReadUint(s, 5, 0);
      counter := Counter(sleepTime, sitTime, walkTime, jogTime, timestamp, steps);
    }

    /** `deinit`: the counter is saved with the same layout, so that the
        next `Init` gets it back. */
    method Deinit(s: Store) returns (saved: Store)
      ensures saved == SaveCounter(s, DEMO_LAYOUT, counter)
      ensures forall now: uint32 :: LoadCounter(saved, DEMO_LAYOUT, now) == counter
    {
      saved := WriteUint(s, 0, counter.sleepTime);
      saved := WriteUint(saved, 1, counter.sitTime);
      saved := WriteUint(saved, 2, counter.walkTime);
      saved := WriteUint(saved, 3, counter.jogTime);
      saved := WriteUint(saved, 4, counter.timestamp);
      saved := WriteUint(saved, 5, counter.steps);
      assert Distinct(DEMO_LAYOUT) by {
        LayoutsExchangeStepsAndTimestamp(s, counter, 0);
      }
      forall now: uint32
        ensures LoadCounter(saved, DEMO_LAYOUT, now) == counter
      {
        CounterRoundTrip(s, DEMO_LAYOUT, counter, now);
      }
    }

    /** `processAccelerometerData`: one batch goes to the recognizer; when a
        window was analysed, the steps it added are the difference of the
        counter's steps after and before the call, and the fill level is back
        at zero; otherwise a non-empty batch is appended. `project` stands
        for the filtering and projection of the full buffer and `now` for
        `time(NULL)`. */
    method ProcessAccelerometerData(acceleration: seq<AccelData>, now: uint32,
                                    project: seq<AccelData> -> Projection)
      returns (analyzed: bool, steps: uint32)
      requires Valid()
      requires forall w :: |project(w).rows| == |w|
      requires recognizer.dataSize < SAMPLE_SIZE ==> recognizer.dataSize + |acceleration| <= SAMPLE_SIZE
      modifies this, recognizer, recognizer.buffer
      ensures Valid()
      ensures analyzed <==> |acceleration| > 0 && old(recognizer.dataSize) == SAMPLE_SIZE
      ensures !analyzed ==> counter == old(counter) && currentType == old(currentType) && steps == 0
      ensures analyzed ==>
        var p := project(old(recognizer.buffer[..]));
        var r := Analyze(old(counter), Classify(p.feature), isDriving, sensitivity, now, p.feature.meanV, p.rows, RESETTING_RULE);
        && Outcome(currentType, counter) == r
        && steps == if r.activity <= SIT then 0 else WindowSteps(p.rows, r.activity, sensitivity, p.feature.meanV, RESETTING_RULE)
      ensures |acceleration| == 0 ==>
        recognizer.dataSize == old(recognizer.dataSize) && recognizer.buffer[..] == old(recognizer.buffer[..])
      ensures |acceleration| > 0 && old(recognizer.dataSize) < SAMPLE_SIZE ==>
        && recognizer.dataSize == old(recognizer.dataSize) + |acceleration|
        && recognizer.buffer[..] == old(recognizer.buffer[..recognizer.dataSize]) + acceleration
                                    + old(recognizer.buffer[recognizer.dataSize + |acceleration|..])
      ensures analyzed ==>
        recognizer.dataSize == 0 && recognizer.buffer[..] == project(old(recognizer.buffer[..])).rows
      ensures isDriving == old(isDriving) && sensitivity == old(sensitivity)
    {
      var before := counter;
      ghost var window := project(recognizer.buffer[..]);
      var newType, newCounter;
      analyzed, newType, newCounter := recognizer.AnalyzeAcceleration(currentType, counter, isDriving, sensitivity,
                                                                      acceleration, now, project);
      currentType, counter := newType, newCounter;
      steps := 0;
      if analyzed {
        steps := Sub32(counter.steps, before.steps);
        StepDelta(before, Classify(window.feature), isDriving, sensitivity, now, window.feature.meanV,
                  window.rows, RESETTING_RULE);
      }
    }
  }
}
