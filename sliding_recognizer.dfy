/** `analyzeAcceleration` of the worker (Aplite/worker_src/recognizer.c):
    the sample buffer fills up to SAMPLE_SIZE, dropping what does not fit;
    a full buffer is classified, and the window then slides by half, so the
    second half (already overwritten by the projection) starts the next one. */
module SlidingRecognizer {
  import opened Machine
  import opened Activity
  import opened Classifier
  import opened Window

  /** Return codes. */
  const ANALYZED: nat := 0
  const NO_SAMPLES: nat := 1
  const COLLECTING: nat := 2

  /** How many samples of a batch of `size` fit behind `dataSize` stored ones. */
  function Taken(dataSize: nat, size: nat, sampleSize: nat): (k: nat)
    requires dataSize <= sampleSize
    ensures k <= size && dataSize + k <= sampleSize
    ensures k == size || dataSize + k == sampleSize
  {
    if size < sampleSize - dataSize then size else sampleSize - dataSize
  }

  /** The buffer after copying the first `k` samples of `batch` behind the
      `dataSize` stored ones. */
  function Filled(buffer: seq<AccelData>, dataSize: nat, batch: seq<AccelData>, k: nat): seq<AccelData>
    requires dataSize + k <= |buffer| && k <= |batch|
  {
    buffer[..dataSize] + batch[..k] + buffer[dataSize + k..]
  }

  /** The static buffer `mAcceleration` and its fill level `mDataSize`. */
  class Recognizer {
    const sampleSize: nat
    const rule: StepRule
    const buffer: array<AccelData>
    var dataSize: nat

    ghost predicate Valid()
      reads this
    {
      && buffer.Length == sampleSize
      && 0 < sampleSize
      && RuleFits(rule, sampleSize)
      && dataSize <= sampleSize
    }

    /** A zero-filled buffer holding no samples. */
    constructor(sampleSize: nat, rule: StepRule)
      requires 0 < sampleSize && RuleFits(rule, sampleSize)
      ensures Valid() && this.sampleSize == sampleSize && this.rule == rule && dataSize == 0
      ensures fresh(buffer)
    {
      this.sampleSize := sampleSize;
      this.rule := rule;
      buffer := new AccelData[sampleSize](_ => AccelData(0, 0, 0));
      dataSize := 0;
    }

    /** One batch of samples. `project` stands for the filtering and
        projection of a full buffer; `now` for `time(NULL)`. Returns the code,
        the current type and the counter after the call. */
    method AnalyzeAcceleration(currentType: nat, counter: Counter, isDriving: bool, sensitivity: int32,
                               acceleration: seq<AccelData>, now: uint32,
                               project: seq<AccelData> -> Projection)
      returns (code: nat, newType: nat, newCounter: Counter)
      requires Valid()
      requires forall w :: |project(w).rows| == |w|
      modifies this, buffer
      ensures Valid()
      ensures |acceleration| == 0 ==>
        && code == NO_SAMPLES && newType == currentType && newCounter == counter
        && dataSize == old(dataSize) && buffer[..] == old(buffer[..])
      ensures |acceleration| > 0 ==>
        var k := Taken(old(dataSize), |acceleration|, sampleSize);
        var filled := Filled(old(buffer[..]), old(dataSize), acceleration, k);
        if old(dataSize) + k < sampleSize then
          && code == COLLECTING && newType == currentType && newCounter == counter
          && dataSize == old(dataSize) + k && buffer[..] == filled
        else
          var p := project(filled);
          && code == ANALYZED
          && Outcome(newType, newCounter)
             == Analyze(counter, Classify(p.feature), isDriving, sensitivity, now, p.feature.meanV, p.rows, rule)
          && dataSize == sampleSize / 2
          && buffer[..sampleSize / 2] == p.rows[sampleSize / 2..2 * (sampleSize / 2)]
          && buffer[sampleSize / 2..] == p.rows[sampleSize / 2..]
    {
      if |acceleration| == 0 {
        return NO_SAMPLES, currentType, counter;
      }
      ghost var before := buffer[..];
      var i := 0;
      while i < |acceleration| && dataSize + i < sampleSize
        invariant 0 <= i <= |acceleration| && dataSize + i <= sampleSize
        invariant dataSize == old(dataSize)
        invariant forall j :: 0 <= j < sampleSize ==>
          buffer[j] == if dataSize <= j < dataSize + i then acceleration[j - dataSize] else before[j]
      {
        buffer[dataSize + i] := acceleration[i];
        i := i + 1;
      }
      ghost var filled := Filled(before, dataSize, acceleration, i);
      assert i == Taken(dataSize, |acceleration|, sampleSize);
      assert buffer[..] == filled by {
        forall j | 0 <= j < sampleSize
          ensures buffer[j] == filled[j]
        {
          if j < dataSize {
          } else if j < dataSize + i {
            assert filled[j] == acceleration[..i][j - dataSize];
          } else {
            assert filled[j] == before[dataSize + i..][j - dataSize - i];
          }
        }
      }
      dataSize := dataSize + i;

      if dataSize < sampleSize {
        return COLLECTING, currentType, counter;
      }

      var p := project(buffer[..]);
      var maxV, minV := ProjectInPlace(buffer, p.rows);
      var outcome := AnalyzeWindow(buffer, counter, Classify(p.feature), isDriving, sensitivity,
                                   now, p.feature.meanV, maxV, minV, rule);
      newType, newCounter := outcome.activity, outcome.counter;

      // Sliding window: the latter half moves to the front.
      SlideHalf(buffer);
      dataSize := sampleSize / 2;
      code := ANALYZED;
    }
  }
}
