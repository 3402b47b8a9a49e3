/** The activity classifier of src/classifier.c: four fixed linear scores over
    the window's feature vector, and a running maximum that keeps the first
    class reaching it. The weights are exact reals; double rounding is not
    modelled. */
module Classifier {

  /** The `Feature` struct: mean and deviation of the horizontal and vertical
      acceleration over one window. */
  datatype Feature = Feature(meanH: real, meanV: real, deviationH: real, deviationV: real)

  const CLASS_COUNT: nat := 4

  /** The linear score of class k (0 sleep, 1 sit, 2 walk, 3 jog). */
  function Score(f: Feature, k: nat): real
    requires k < CLASS_COUNT
  {
    match k
    case 0 => 6.95 + f.meanV * 0.87 + f.meanH * -0.26 + f.deviationV * -0.03 + f.deviationH * -0.11
    case 1 => 2.7 + f.meanV * 0.05 + f.meanH * -0.05 + f.deviationV * 0.0 + f.deviationH * 0.0
    case 2 => -3.73 + f.meanV * -0.16 + f.meanH * 0.1 + f.deviationV * 0.0 + f.deviationH * 0.0
    case _ => -65.76 + f.meanH * 0.31 + f.deviationV * 0.0 + f.deviationH * 0.0
  }

  /** Reference definition of the classifier's answer: a class whose score is
      maximal, and strictly greater than the score of every lower class. */
  predicate IsFirstMaximum(f: Feature, t: nat)
  {
    && t < CLASS_COUNT
    && (forall k :: 0 <= k < CLASS_COUNT ==> Score(f, k) <= Score(f, t))
    && (forall k :: 0 <= k < t ==> Score(f, k) < Score(f, t))
  }

  /** One step of the running maximum: a later class replaces the current
      best only with a strictly greater score. */
  function Challenge(best: (real, nat), score: real, k: nat): (real, nat)
  {
    if score > best.0 then (score, k) else best
  }

  /** `classify`: the class scores are compared in order 0 to 3 against the
      best so far. */
  function Classify(f: Feature): (t: nat)
    ensures t < CLASS_COUNT
    ensures forall k :: 0 <= k < CLASS_COUNT ==> Score(f, k) <= Score(f, t)
    ensures forall k :: 0 <= k < t ==> Score(f, k) < Score(f, t)
  {
    var best0 := (Score(f, 0), 0);
    var best1 := Challenge(best0, Score(f, 1), 1);
    var best2 := Challenge(best1, Score(f, 2), 2);
    var best3 := Challenge(best2, Score(f, 3), 3);
    best3.1
  }

  /** The classifier's answer is exactly the first maximum: it is one, and no
      other class is. */
  lemma ClassifyIsFirstMaximum(f: Feature, t: nat)
    ensures IsFirstMaximum(f, t) <==> t == Classify(f)
  {
  }

  /** Sleep wins whenever its score is at least every other score. */
  lemma SleepWinsWhenDominant(f: Feature)
    requires Score(f, 0) >= Score(f, 1) && Score(f, 0) >= Score(f, 2) && Score(f, 0) >= Score(f, 3)
    ensures Classify(f) == 0
  {
  }

  /** The jog score ignores the vertical mean, and the sit, walk and jog
      scores ignore both deviations. */
  lemma ScoreIndependence(f: Feature, g: Feature)
    ensures f.meanH == g.meanH ==> Score(f, 3) == Score(g, 3)
    ensures f.meanH == g.meanH && f.meanV == g.meanV ==>
      Score(f, 1) == Score(g, 1) && Score(f, 2) == Score(g, 2)
  {
  }
}
