/** The loops both versions of `analyzeAcceleration` run over a full sample
    buffer: writing the projected samples back while tracking `maxV` and
    `minV`, and the step scan; and the classified-window update they feed,
    proved equal to `Activity.Analyze`. */
module Window {
  import opened Machine
  import opened Activity
  import opened Classifier

  /** What the floating-point projection of a full buffer yields: the
      feature vector and, for every sample, the row written back (projected
      vertical part in `x`, horizontal part in `y`, linear acceleration in
      `z`). */
  datatype Projection = Projection(feature: Feature, rows: seq<AccelData>)

  /** The write-back half of the projection loop: every sample is replaced
      by its projection, and the extremes of the new `x` values are tracked
      from -32767 and 32767. */
  method ProjectInPlace(a: array<AccelData>, rows: seq<AccelData>) returns (maxV: int16, minV: int16)
    requires |rows| == a.Length
    modifies a
    ensures a[..] == rows
    ensures maxV == MaxV(rows) && minV == MinV(rows)
  {
    maxV, minV := -32767, 32767;
    var i := 0;
    while i < a.Length
      invariant 0 <= i <= a.Length
      invariant a[..i] == rows[..i]
      invariant maxV == MaxV(rows[..i]) && minV == MinV(rows[..i])
    {
      a[i] := rows[i];
      assert rows[..i + 1][..i] == rows[..i];
      if a[i].x > maxV {
        maxV := a[i].x;
      }
      if a[i].x < minV {
        minV := a[i].x;
      }
      i := i + 1;
    }
    assert rows[..a.Length] == rows;
  }

  /** The sliding step: the first `a.Length / 2` samples are overwritten
      by the ones that follow them; the rest stays. */
  method SlideHalf(a: array<AccelData>)
    modifies a
    ensures a[..a.Length / 2] == old(a[a.Length / 2..2 * (a.Length / 2)])
    ensures a[a.Length / 2..] == old(a[a.Length / 2..])
  {
    var half := a.Length / 2;
    var m := 0;
    while m < half
      invariant 0 <= m <= half
      invariant forall q :: 0 <= q < m ==> a[q] == old(a[half + q])
      invariant forall q :: m <= q < a.Length ==> a[q] == old(a[q])
    {
      a[m] := a[half + m];
      m := m + 1;
    }
  }

  /** The step loop: counts the crossings of the `x` values from index
      `from` on, which are the side changes of the samples outside the band. */
  method CountCrossings(a: array<AccelData>, from: nat, upper: real, lower: real) returns (count: nat)
    requires from <= a.Length
    ensures count == Scan(a[from..], upper, lower).count
    ensures count == Changes(Sides(a[from..], upper, lower))
    ensures from < a.Length ==> count < a.Length - from
  {
    var direction := 0;
    count := 0;
    var i := from;
    while i < a.Length
      invariant from <= i <= a.Length
      invariant Trigger(count, direction) == Scan(a[from..i], upper, lower)
    {
      assert a[from..i + 1][..i - from] == a[from..i];
      if a[i].x as real > upper {
        if direction == -1 {
          count := count + 1;
        }
        direction := 1;
      } else if a[i].x as real < lower {
        if direction == 1 {
          count := count + 1;
        }
        direction := -1;
      }
      i := i + 1;
    }
    assert a[from..a.Length] == a[from..];
    ScanCountsSideChanges(a[from..], upper, lower);
  }

  /** The steps of a walking or jogging window of type `t`: the band's
      crossings from `rule.scanStart` on, divided by `rule.divisor`. */
  method CountSteps(a: array<AccelData>, t: nat, sensitivity: int32, meanV: real, maxV: int16, minV: int16,
                    rule: StepRule)
    returns (steps: uint32)
    requires RuleFits(rule, a.Length)
    requires maxV == MaxV(a[..]) && minV == MinV(a[..])
    ensures steps == WindowSteps(a[..], t, sensitivity, meanV, rule)
  {
    var ratio := 0.0;
    if t == WALK {
      ratio := sensitivity as real / 100.0;
    }
    assert ratio == Ratio(t, sensitivity);
    var upper, lower := Threshold(meanV, maxV, ratio), Threshold(meanV, minV, ratio);
    var crossings := CountCrossings(a, rule.scanStart, upper, lower);
    ghost var rows := a[..];
    assert rows[rule.scanStart..] == a[rule.scanStart..];
    assert crossings / rule.divisor == WindowSteps(rows, t, sensitivity, meanV, rule);
    steps := crossings / rule.divisor;
  }

  /** The classified part of a window, on the buffer after the projection:
      override, time booking and, for a walk or jog, the steps or the
      walk-to-sit correction. */
  method AnalyzeWindow(a: array<AccelData>, c: Counter, classified: nat, isDriving: bool, sensitivity: int32,
                       now: uint32, meanV: real, maxV: int16, minV: int16, rule: StepRule)
    returns (o: Outcome)
    requires RuleFits(rule, a.Length)
    requires maxV == MaxV(a[..]) && minV == MinV(a[..])
    ensures o == Analyze(c, classified, isDriving, sensitivity, now, meanV, a[..], rule)
  {
    var t := classified;
    if t > 1 && isDriving {
      t := SIT;
    }
    assert t == Override(classified, isDriving);
    var elapsed := Sub32(now, c.timestamp);
    var counter := Book(c, t, elapsed).(timestamp := now);
    if t > 1 {
      var steps := CountSteps(a, t, sensitivity, meanV, maxV, minV, rule);
      if rule.plausibility && t == WALK && steps > Mul32(elapsed, rule.maxWalkingSpeed) {
        t := SIT;
        counter := counter.(sitTime := Add32(counter.sitTime, elapsed), walkTime := Sub32(counter.walkTime, elapsed));
        steps := 0;
      }
      counter := counter.(steps := Add32(counter.steps, steps));
    }
    o := Outcome(t, counter);
  }
}
