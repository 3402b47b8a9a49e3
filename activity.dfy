/** What one classified window does to the activity `Counter`, shared by both
    versions of `analyzeAcceleration` (Aplite/worker_src/recognizer.c and
    src/recognizer.c): the driving override, the single-bucket time
    accounting, the hysteresis step counter over the projected vertical
    component, and the walk-to-sit correction of the worker version. */
module Activity {
  import opened Machine
  import opened RealBounds

  /** One accelerometer sample (the `x`, `y`, `z` fields of `AccelData`). */
  datatype AccelData = AccelData(x: int16, y: int16, z: int16)

  /** The `Counter` struct of src/recognizer.h: seconds spent in each
      activity, the time of the last classified window and the step total. */
  datatype Counter = Counter(sleepTime: uint32, sitTime: uint32, walkTime: uint32,
                             jogTime: uint32, timestamp: uint32, steps: uint32)

  const SLEEP: nat := 0
  const SIT: nat := 1
  const WALK: nat := 2
  const JOG: nat := 3

  /** The step-counting constants that differ between the two versions. */
  datatype StepRule = StepRule(scanStart: nat, divisor: nat, plausibility: bool, maxWalkingSpeed: uint32)

  /** SAMPLE_SIZE of src/recognizer.h: 8 seconds of 10 samples. */
  const SAMPLE_SIZE: nat := 80
  /** MAX_WALKING_SPEED of src/recognizer.h, in steps per second. */
  const MAX_WALKING_SPEED: uint32 := 2

  /** Worker version: scan from index 0, divide the crossings by 4, and undo a
      walk whose step rate exceeds MAX_WALKING_SPEED = 2 steps per second. */
  const SLIDING_RULE := StepRule(0, 4, true, MAX_WALKING_SPEED)
  /** Version in src/: scan from index 1, halve the crossings, no correction. */
  const RESETTING_RULE := StepRule(1, 2, false, MAX_WALKING_SPEED)

  /** The rule fits a window of `size` samples, and that many samples can be
      counted in a `uint32_t`. */
  predicate RuleFits(rule: StepRule, size: nat)
  {
    rule.divisor > 0 && rule.scanStart <= size && size < U32_MODULUS
  }

  /** The seconds booked to activity `t`; 0 for a type outside 0-3. */
  function Bucket(c: Counter, t: nat): uint32
  {
    match t
    case 0 => c.sleepTime
    case 1 => c.sitTime
    case 2 => c.walkTime
    case 3 => c.jogTime
    case _ => 0
  }

  /** The four activity buckets together, as a `uint32_t` sum. */
  function Total(c: Counter): uint32
  {
    Wrap32(c.sleepTime + c.sitTime + c.walkTime + c.jogTime)
  }

  /** The `switch` over the activity type: `e` seconds are added to one
      bucket; a type without a case adds nothing. */
  function Book(c: Counter, t: nat, e: uint32): Counter
  {
    match t
    case 0 => c.(sleepTime := Add32(c.sleepTime, e))
    case 1 => c.(sitTime := Add32(c.sitTime, e))
    case 2 => c.(walkTime := Add32(c.walkTime, e))
    case 3 => c.(jogTime := Add32(c.jogTime, e))
    case _ => c
  }

  /** Booking grows the bucket of `t` by `e` and leaves the other buckets,
      the timestamp and the steps alone. */
  lemma BookOneBucket(c: Counter, t: nat, e: uint32)
    requires t < 4
    ensures Bucket(Book(c, t, e), t) == Add32(Bucket(c, t), e)
    ensures forall k :: 0 <= k < 4 && k != t ==> Bucket(Book(c, t, e), k) == Bucket(c, k)
    ensures Book(c, t, e).timestamp == c.timestamp && Book(c, t, e).steps == c.steps
  {
  }

  /** Booking `e` seconds adds `e` to the total, modulo 2^32. */
  lemma BookTotal(c: Counter, t: nat, e: uint32)
    requires t < 4
    ensures Total(Book(c, t, e)) == Add32(Total(c), e)
  {
    var sum := c.sleepTime + c.sitTime + c.walkTime + c.jogTime;
    var b := Bucket(c, t);
    var d := Book(c, t, e);
    assert d.sleepTime + d.sitTime + d.walkTime + d.jogTime == Wrap32(b + e) + (sum - b);
    WrapAdd(b + e, sum - b);
    WrapAdd(sum, e);
  }

  /** The driving override: a walk or jog while driving counts as sitting. */
  function Override(classified: nat, isDriving: bool): nat
  {
    if classified > 1 && isDriving then SIT else classified
  }

  /** The state of the step loop: crossings counted so far and the side of
      the band the signal was last seen on (-1 below, 1 above, 0 not yet). */
  datatype Trigger = Trigger(count: nat, direction: int)

  /** One iteration of the step loop on the sample value `v`. */
  function Step(t: Trigger, v: int, upper: real, lower: real): Trigger
  {
    if v as real > upper then Trigger(if t.direction == -1 then t.count + 1 else t.count, 1)
    else if v as real < lower then Trigger(if t.direction == 1 then t.count + 1 else t.count, -1)
    else t
  }

  /** The step loop run over the `x` fields of `rows`, from the start state. */
  function Scan(rows: seq<AccelData>, upper: real, lower: real): (r: Trigger)
    ensures r.direction == -1 || r.direction == 0 || r.direction == 1
    ensures r.direction == 0 ==> r.count == 0
    ensures |rows| > 0 ==> r.count < |rows|
  {
    if |rows| == 0 then Trigger(0, 0)
    else Step(Scan(rows[..|rows| - 1], upper, lower), rows[|rows| - 1].x, upper, lower)
  }

  /** Reference definition of the crossings: the samples outside the band,
      each replaced by its side (1 above, -1 below), ... */
  function Sides(rows: seq<AccelData>, upper: real, lower: real): (s: seq<int>)
    ensures forall i :: 0 <= i < |s| ==> s[i] == 1 || s[i] == -1
  {
    if |rows| == 0 then []
    else
      var v := rows[|rows| - 1].x as real;
      Sides(rows[..|rows| - 1], upper, lower) + (if v > upper then [1] else if v < lower then [-1] else [])
  }

  /** ... and the number of neighbours in that sequence that differ. */
  function Changes(s: seq<int>): nat
  {
    if |s| < 2 then 0
    else Changes(s[..|s| - 1]) + (if s[|s| - 2] != s[|s| - 1] then 1 else 0)
  }

  /** The step loop counts exactly the side changes of the samples outside
      the band, and ends on the side of the last of them. */
  lemma {:induction false} ScanCountsSideChanges(rows: seq<AccelData>, upper: real, lower: real)
    ensures Scan(rows, upper, lower).count == Changes(Sides(rows, upper, lower))
    ensures var s := Sides(rows, upper, lower);
      Scan(rows, upper, lower).direction == if |s| == 0 then 0 else s[|s| - 1]
  {
    if |rows| > 0 {
      var prefix := rows[..|rows| - 1];
      ScanCountsSideChanges(prefix, upper, lower);
      var s := Sides(prefix, upper, lower);
      var v := rows[|rows| - 1].x as real;
      if v > upper || v < lower {
        var g := if v > upper then 1 else -1;
        var s' := s + [g];
        assert Sides(rows, upper, lower) == s';
        if |s| > 0 {
          assert s'[..|s|] == s;
          assert s'[|s| - 1] == s[|s| - 1];
        }
      } else {
        assert Sides(rows, upper, lower) == s + [];
        assert s + [] == s;
      }
    }
  }

  /** `ratio`: the band is widened by sensitivity percent of the way to the
      extremes for a walk, and collapses onto the mean for any other type. */
  function Ratio(t: nat, sensitivity: int32): (r: real)
    ensures t != WALK ==> r == 0.0
  {
    if t == WALK then sensitivity as real / 100.0 else 0.0
  }

  /** A band edge `meanV + (extreme - meanV) * ratio`: the upper edge with
      maxV, the lower with minV. For a ratio in [0, 1] the edge lies between
      the mean and the extreme, at the mean for 0 and at the extreme for 1. */
  function Threshold(meanV: real, extreme: int, ratio: real): (r: real)
    ensures ratio == 0.0 ==> r == meanV
    ensures ratio == 1.0 ==> r == extreme as real
    ensures 0.0 <= ratio <= 1.0 && meanV <= extreme as real ==> meanV <= r <= extreme as real
    ensures 0.0 <= ratio <= 1.0 && extreme as real <= meanV ==> extreme as real <= r <= meanV
  {
    var r := meanV + (extreme as real - meanV) * ratio;
    assert r == Mix(extreme as real, meanV, ratio);
    if 0.0 <= ratio <= 1.0 then
      MixBetween(extreme as real, meanV, ratio);
      r
    else r
  }

  /** `maxV` after the projection loop: starts at -32767 and rises to every
      larger `x`. */
  function MaxV(rows: seq<AccelData>): (m: int16)
    ensures m >= -32767
    ensures forall i :: 0 <= i < |rows| ==> rows[i].x <= m
    ensures m == -32767 || exists i :: 0 <= i < |rows| && rows[i].x == m
  {
    if |rows| == 0 then -32767
    else
      var m := MaxV(rows[..|rows| - 1]);
      if rows[|rows| - 1].x > m then rows[|rows| - 1].x else m
  }

  /** `minV` after the projection loop: starts at 32767 and falls to every
      smaller `x`. */
  function MinV(rows: seq<AccelData>): (m: int16)
    ensures m <= 32767
    ensures forall i :: 0 <= i < |rows| ==> m <= rows[i].x
    ensures m == 32767 || exists i :: 0 <= i < |rows| && rows[i].x == m
  {
    if |rows| == 0 then 32767
    else
      var m := MinV(rows[..|rows| - 1]);
      if rows[|rows| - 1].x < m then rows[|rows| - 1].x else m
  }

  /** The steps one window of activity `t` contributes before the
      correction: the crossings from `scanStart` on, divided by `divisor`. */
  function WindowSteps(rows: seq<AccelData>, t: nat, sensitivity: int32, meanV: real, rule: StepRule): (n: uint32)
    requires RuleFits(rule, |rows|)
  {
    var ratio := Ratio(t, sensitivity);
    Scan(rows[rule.scanStart..], Threshold(meanV, MaxV(rows), ratio), Threshold(meanV, MinV(rows), ratio)).count / rule.divisor
  }

  lemma DivMonotone(a: nat, b: nat, d: nat)
    requires a <= b && d > 0
    ensures a / d <= b / d
  {
    if a / d > b / d {
      assert a == d * (a / d) + a % d;
      assert b == d * (b / d) + b % d;
      assert d * (a / d) >= d * (b / d + 1) by {
        MulLeftMonotone(d, b / d + 1, a / d);
      }
    }
  }

  lemma MulLeftMonotone(d: nat, x: nat, y: nat)
    requires x <= y
    ensures d * x <= d * y
  {
    assert d * y - d * x == d * (y - x);
  }

  /** A window never yields more steps than its scanned samples allow: one
      crossing needs two samples on opposite sides. */
  lemma WindowStepsBound(rows: seq<AccelData>, t: nat, sensitivity: int32, meanV: real, rule: StepRule)
    requires RuleFits(rule, |rows|) && rule.scanStart < |rows|
    ensures WindowSteps(rows, t, sensitivity, meanV, rule) <= (|rows| - rule.scanStart - 1) / rule.divisor
  {
    var ratio := Ratio(t, sensitivity);
    var scanned := rows[rule.scanStart..];
    var trig := Scan(scanned, Threshold(meanV, MaxV(rows), ratio), Threshold(meanV, MinV(rows), ratio));
    DivMonotone(trig.count, |scanned| - 1, rule.divisor);
  }

  /** With SAMPLE_SIZE = 80, a window adds at most 19 steps in the worker
      version and at most 39 in the version in src/. */
  lemma StepsPerFullWindow(rows: seq<AccelData>, t: nat, sensitivity: int32, meanV: real)
    requires |rows| == SAMPLE_SIZE
    ensures WindowSteps(rows, t, sensitivity, meanV, SLIDING_RULE) <= 19
    ensures WindowSteps(rows, t, sensitivity, meanV, RESETTING_RULE) <= 39
  {
    WindowStepsBound(rows, t, sensitivity, meanV, SLIDING_RULE);
    WindowStepsBound(rows, t, sensitivity, meanV, RESETTING_RULE);
  }

  /** The activity a window ends with and the updated counter. */
  datatype Outcome = Outcome(activity: nat, counter: Counter)

  /** One classified window, from the classifier's answer to the final
      counter: override, time booking, and for a walk or jog the steps (or,
      when the rule asks for it, the correction of an implausible walk). */
  function Analyze(c: Counter, classified: nat, isDriving: bool, sensitivity: int32, now: uint32,
                   meanV: real, rows: seq<AccelData>, rule: StepRule): Outcome
    requires RuleFits(rule, |rows|)
  {
    var t := Override(classified, isDriving);
    var e := Sub32(now, c.timestamp);
    var booked := Book(c, t, e).(timestamp := now);
    if t <= SIT then Outcome(t, booked)
    else
      var steps := WindowSteps(rows, t, sensitivity, meanV, rule);
      if rule.plausibility && t == WALK && steps > Mul32(e, rule.maxWalkingSpeed) then
        Outcome(SIT, booked.(sitTime := Add32(booked.sitTime, e), walkTime := Sub32(booked.walkTime, e)))
      else
        Outcome(t, booked.(steps := Add32(booked.steps, steps)))
  }

  /** An implausibly fast walk is booked exactly like a sitting window: the
      seconds first added to walkTime are moved back out of it. */
  lemma ImplausibleWalkIsSitting(c: Counter, isDriving: bool, sensitivity: int32, now: uint32,
                                 meanV: real, rows: seq<AccelData>, rule: StepRule)
    requires RuleFits(rule, |rows|) && rule.plausibility && !isDriving
    requires WindowSteps(rows, WALK, sensitivity, meanV, rule) > Mul32(Sub32(now, c.timestamp), rule.maxWalkingSpeed)
    ensures Analyze(c, WALK, isDriving, sensitivity, now, meanV, rows, rule)
      == Outcome(SIT, Book(c, SIT, Sub32(now, c.timestamp)).(timestamp := now))
  {
    AddSubCancel(c.walkTime, Sub32(now, c.timestamp));
  }

  /** Exactly one bucket grows, the one of the activity the window ends
      with, by the seconds since the last window; the timestamp becomes
      `now`. */
  lemma OneBucketGrows(c: Counter, classified: nat, isDriving: bool, sensitivity: int32, now: uint32,
                       meanV: real, rows: seq<AccelData>, rule: StepRule)
    requires RuleFits(rule, |rows|) && classified < 4
    ensures var r := Analyze(c, classified, isDriving, sensitivity, now, meanV, rows, rule);
      && r.activity < 4
      && Bucket(r.counter, r.activity) == Add32(Bucket(c, r.activity), Sub32(now, c.timestamp))
      && (forall k :: 0 <= k < 4 && k != r.activity ==> Bucket(r.counter, k) == Bucket(c, k))
      && r.counter.timestamp == now
  {
    var t := Override(classified, isDriving);
    var e := Sub32(now, c.timestamp);
    var r := Analyze(c, classified, isDriving, sensitivity, now, meanV, rows, rule);
    if r.activity != t {
      ImplausibleWalkIsSitting(c, isDriving, sensitivity, now, meanV, rows, rule);
    }
    BookOneBucket(c, r.activity, e);
  }

  /** Time is conserved: the four buckets together grow by exactly the
      elapsed seconds (modulo 2^32), whatever the activity. */
  lemma TimeConserved(c: Counter, classified: nat, isDriving: bool, sensitivity: int32, now: uint32,
                      meanV: real, rows: seq<AccelData>, rule: StepRule)
    requires RuleFits(rule, |rows|) && classified < 4
    ensures Total(Analyze(c, classified, isDriving, sensitivity, now, meanV, rows, rule).counter)
      == Add32(Total(c), Sub32(now, c.timestamp))
  {
    var t := Override(classified, isDriving);
    var r := Analyze(c, classified, isDriving, sensitivity, now, meanV, rows, rule);
    if r.activity != t {
      ImplausibleWalkIsSitting(c, isDriving, sensitivity, now, meanV, rows, rule);
    }
    BookTotal(c, r.activity, Sub32(now, c.timestamp));
  }

  /** While driving, a window never ends as a walk or jog and adds no steps. */
  lemma DrivingForcesSitting(c: Counter, classified: nat, sensitivity: int32, now: uint32,
                             meanV: real, rows: seq<AccelData>, rule: StepRule)
    requires RuleFits(rule, |rows|)
    ensures var r := Analyze(c, classified, true, sensitivity, now, meanV, rows, rule);
      r.activity <= SIT && r.counter.steps == c.steps
  {
    if classified > 1 {
      assert Override(classified, true) == SIT;
    }
  }

  /** Steps are only added by a window that ends as a walk or jog, and then
      by the window's step count, which the scanned samples bound. */
  lemma StepsOnlyWhenMoving(c: Counter, classified: nat, isDriving: bool, sensitivity: int32, now: uint32,
                            meanV: real, rows: seq<AccelData>, rule: StepRule)
    requires RuleFits(rule, |rows|) && rule.scanStart < |rows|
    ensures var r := Analyze(c, classified, isDriving, sensitivity, now, meanV, rows, rule);
      && (r.activity <= SIT ==> r.counter.steps == c.steps)
      && (r.activity > SIT ==> r.counter.steps == Add32(c.steps, WindowSteps(rows, r.activity, sensitivity, meanV, rule)))
      && WindowSteps(rows, r.activity, sensitivity, meanV, rule) <= (|rows| - rule.scanStart - 1) / rule.divisor
  {
    var r := Analyze(c, classified, isDriving, sensitivity, now, meanV, rows, rule);
    var t := Override(classified, isDriving);
    assert Book(c, t, Sub32(now, c.timestamp)).steps == c.steps;
    WindowStepsBound(rows, r.activity, sensitivity, meanV, rule);
  }
  /** The steps a window adds, recovered as the difference of the counter's
      steps after and before it: the window's steps when it was a walk or a
      jog, and nothing otherwise. */
  lemma StepDelta(c: Counter, classified: nat, isDriving: bool, sensitivity: int32, now: uint32,
                  meanV: real, rows: seq<AccelData>, rule: StepRule)
    requires RuleFits(rule, |rows|)
    ensures var r := Analyze(c, classified, isDriving, sensitivity, now, meanV, rows, rule);
      Sub32(r.counter.steps, c.steps)
        == if r.activity <= SIT then 0 else WindowSteps(rows, r.activity, sensitivity, meanV, rule)
  {
    var r := Analyze(c, classified, isDriving, sensitivity, now, meanV, rows, rule);
    var t := Override(classified, isDriving);
    assert Book(c, t, Sub32(now, c.timestamp)).steps == c.steps;
    if r.activity > SIT {
      AddDifference(c.steps, WindowSteps(rows, r.activity, sensitivity, meanV, rule));
    }
  }
}
