/** `analyzeAcceleration` of src/recognizer.c: batches are appended until the
    buffer is full; the call after that classifies the buffer, discards its
    own batch and empties the buffer. */
module ResettingRecognizer {
  import opened Machine
  import opened Activity
  import opened Classifier
  import opened Window

  /** The static buffer `mAcceleration` and its fill level `mDataSize`. */
  class Recognizer {
    const sampleSize: nat
    const rule: StepRule
    const buffer: array<AccelData>
    var dataSize: nat

    ghost predicate Valid()
      reads this
    {
      && buffer.Length == sampleSize
      && 0 < sampleSize
      && RuleFits(rule, sampleSize)
      && dataSize <= sampleSize
    }

    /** A zero-filled buffer holding no samples. */
    constructor(sampleSize: nat, rule: StepRule)
      requires 0 < sampleSize && RuleFits(rule, sampleSize)
      ensures Valid() && this.sampleSize == sampleSize && this.rule == rule && dataSize == 0
      ensures fresh(buffer)
    {
      this.sampleSize := sampleSize;
      this.rule := rule;
      buffer := new AccelData[sampleSize](_ => AccelData(0, 0, 0));
      dataSize := 0;
    }

    /** One batch of samples; the result says whether a window was
        classified. The copy loop has no bounds check, so a batch that would
        run past the buffer is excluded by the precondition. */
    method AnalyzeAcceleration(currentType: nat, counter: Counter, isDriving: bool, sensitivity: int32,
                               acceleration: seq<AccelData>, now: uint32,
                               project: seq<AccelData> -> Projection)
      returns (analyzed: bool, newType: nat, newCounter: Counter)
      requires Valid()
      requires dataSize < sampleSize ==> dataSize + |acceleration| <= sampleSize
      requires forall w :: |project(w).rows| == |w|
      modifies this, buffer
      ensures Valid()
      ensures |acceleration| == 0 ==>
        && !analyzed && newType == currentType && newCounter == counter
        && dataSize == old(dataSize) && buffer[..] == old(buffer[..])
      ensures |acceleration| > 0 && old(dataSize) < sampleSize ==>
        && !analyzed && newType == currentType && newCounter == counter
        && dataSize == old(dataSize) + |acceleration|
        && buffer[..] == old(buffer[..dataSize]) + acceleration + old(buffer[dataSize + |acceleration|..])
      ensures |acceleration| > 0 && old(dataSize) == sampleSize ==>
        var p := project(old(buffer[..]));
        && analyzed
        && Outcome(newType, newCounter)
           == Analyze(counter, Classify(p.feature), isDriving, sensitivity, now, p.feature.meanV, p.rows, rule)
        && dataSize == 0
        && buffer[..] == p.rows
    {
      if |acceleration| == 0 {
        return false, currentType, counter;
      }
      if dataSize < sampleSize {
        ghost var before := buffer[..];
        var i := 0;
        while i < |acceleration|
          invariant 0 <= i <= |acceleration|
          invariant dataSize == old(dataSize)
          invariant forall j :: 0 <= j < sampleSize ==>
            buffer[j] == if dataSize <= j < dataSize + i then acceleration[j - dataSize] else before[j]
        {
          buffer[dataSize + i] := acceleration[i];
          i := i + 1;
        }
        ghost var filled := before[..dataSize] + acceleration + before[dataSize + |acceleration|..];
        assert buffer[..] == filled by {
          forall j | 0 <= j < sampleSize
            ensures buffer[j] == filled[j]
          {
            if j < dataSize {
            } else if j < dataSize + i {
            } else {
              assert filled[j] == before[dataSize + i..][j - dataSize - i];
            }
          }
        }
        dataSize := dataSize + |acceleration|;
        return false, currentType, counter;
      }

      var p := project(buffer[..]);
      var maxV, minV := ProjectInPlace(buffer, p.rows);
      var outcome := AnalyzeWindow(buffer, counter, Classify(p.feature), isDriving, sensitivity,
                                   now, p.feature.meanV, maxV, minV, rule);
      newType, newCounter := outcome.activity, outcome.counter;
      dataSize := 0;
      analyzed := true;
    }
  }
}
