/** The adaptive gravity low-pass filter of src/lowpassfilter.c. */
module LowPassFilter {
  import opened Machine
  import opened IntegerRoot
  import opened RealBounds

  /** `clamp` over the reals. */
  function Clamp(v: real, min: real, max: real): (r: real)
    ensures min <= max ==> min <= r <= max
    ensures min <= v <= max ==> r == v
    ensures v > max ==> r == max
    ensures v <= max && v < min ==> r == min
  {
    if v > max then max
    else if v < min then min
    else v
  }

  function Abs(i: int): nat { if i < 0 then -i else i }

  /** The blend factor of `goThroughFilter` from the two magnitudes:
      d = clamp(|estimate - sample| / minStep - 1, 0, 1) and
      alpha = (1 - d) * filterConstant / attenuation + d * filterConstant,
      i.e. the mix of filterConstant and filterConstant / attenuation with weight d. */
  function BlendFactor(estimateNorm: nat, sampleNorm: nat, filterConstant: real, minStep: real, attenuation: real): real
    requires minStep != 0.0 && attenuation != 0.0
  {
    var d := Clamp(Abs(estimateNorm - sampleNorm) as real / minStep - 1.0, 0.0, 1.0);
    Mix(filterConstant, filterConstant / attenuation, d)
  }

  /** With the constants set by `initLowPassFilter`, integer magnitudes make d
      exactly 0 (equal magnitudes) or exactly 1 (any difference), so alpha is
      either filterConstant / 3 or filterConstant. */
  lemma BlendFactorSelection(estimateNorm: nat, sampleNorm: nat, filterConstant: real)
    ensures BlendFactor(estimateNorm, sampleNorm, filterConstant, 0.02, 3.0)
      == if estimateNorm == sampleNorm then filterConstant / 3.0 else filterConstant
  {
    var diff := Abs(estimateNorm - sampleNorm) as real;
    MixEnds(filterConstant, filterConstant / 3.0);
    if estimateNorm != sampleNorm {
      assert diff >= 1.0;
      assert diff / 0.02 - 1.0 >= 49.0;
    }
  }

  /** For any valid filter parameters the blend factor lies between
      filterConstant / attenuation and filterConstant, so in (0, 1]. */
  lemma BlendFactorInUnit(estimateNorm: nat, sampleNorm: nat, filterConstant: real, minStep: real, attenuation: real)
    requires 0.0 < filterConstant <= 1.0 && minStep > 0.0 && attenuation >= 1.0
    ensures var alpha := BlendFactor(estimateNorm, sampleNorm, filterConstant, minStep, attenuation);
      0.0 < filterConstant / attenuation <= alpha <= filterConstant
  {
    var d := Clamp(Abs(estimateNorm - sampleNorm) as real / minStep - 1.0, 0.0, 1.0);
    QuotientInRange(filterConstant, attenuation);
    MixBetween(filterConstant, filterConstant / attenuation, d);
  }

  /** C conversion of a double to an integer type: truncation toward zero. */
  function TruncTowardZero(v: real): int
  {
    if v >= 0.0 then v.Floor else -((-v).Floor)
  }

  /** Integer bounds on both sides of a real survive truncation toward zero. */
  lemma TruncBetween(v: real, a: int, b: int)
    requires a <= b ==> a as real <= v <= b as real
    requires b <= a ==> b as real <= v <= a as real
    ensures a <= b ==> a <= TruncTowardZero(v) <= b
    ensures b <= a ==> b <= TruncTowardZero(v) <= a
  {
  }

  /** `estimate = sample * alpha + estimate * (1 - alpha)` written back to an
      `int16_t`: the double is truncated toward zero. The blend lies between
      the two values, so the write-back never leaves the int16 range. */
  function Blend(sample: int16, estimate: int16, alpha: real): (r: int16)
    requires 0.0 <= alpha <= 1.0
    ensures sample <= estimate ==> sample <= r <= estimate
    ensures estimate <= sample ==> estimate <= r <= sample
  {
    var v := Mix(sample as real, estimate as real, alpha);
    MixBetween(sample as real, estimate as real, alpha);
    TruncBetween(v, sample, estimate);
    TruncTowardZero(v)
  }

  /** A sample equal to the estimate leaves the estimate unchanged, whatever the factor. */
  lemma BlendFixedPoint(v: int16, alpha: real)
    requires 0.0 <= alpha <= 1.0
    ensures Blend(v, v, alpha) == v
  {
    MixBetween(v as real, v as real, alpha);
  }

  /** v lies between a and b, in either order. */
  predicate Between(v: int, a: int, b: int)
  {
    (a <= v <= b) || (b <= v <= a)
  }

  /** The `LowPassFilter` struct: the gravity estimate and the filter constants. */
  class Filter {
    var minStep: real
    var noiseAttenuation: real
    var filterConstant: real
    var x: int16
    var y: int16
    var z: int16

    /** Constants for which `goThroughFilter` is well defined, as `initLowPassFilter` sets them. */
    ghost predicate Ready()
      reads this
    {
      0.0 < filterConstant <= 1.0 && minStep > 0.0 && noiseAttenuation >= 1.0
    }

    /** The zero-initialised static struct, before `initLowPassFilter`. */
    constructor ()
      ensures minStep == 0.0 && noiseAttenuation == 0.0 && filterConstant == 0.0
      ensures x == 0 && y == 0 && z == 0
    {
      minStep, noiseAttenuation, filterConstant := 0.0, 0.0, 0.0;
      x, y, z := 0, 0, 0;
    }

    /** `initLowPassFilter`: filterConstant = dt / (dt + RC) with a 100 Hz
        rate and a 100 Hz cut-off, i.e. one half; gravity estimate zeroed. */
    method Init()
      modifies this
      ensures filterConstant == 0.5 && minStep == 0.02 && noiseAttenuation == 3.0
      ensures x == 0 && y == 0 && z == 0
      ensures Ready()
    {
      var rate := 100.0;
      var freq := 100.0;
      var dt := 1.0 / rate;
      var rc := 1.0 / freq;
      filterConstant := dt / (dt + rc);
      minStep := 0.02;
      noiseAttenuation := 3.0;
      x, y, z := 0, 0, 0;
    }

    /** `goThroughFilter`: blends one sample into the gravity estimate with
        the adaptive factor; the constants do not change. */
    method GoThroughFilter(sx: int16, sy: int16, sz: int16) returns (ghost alpha: real)
      requires Ready()
      modifies this
      ensures Ready()
      ensures filterConstant == old(filterConstant) && minStep == old(minStep)
      ensures noiseAttenuation == old(noiseAttenuation)
      ensures alpha == BlendFactor(NormOf(old(x), old(y), old(z)), NormOf(sx, sy, sz), filterConstant, minStep, noiseAttenuation)
      ensures 0.0 < filterConstant / noiseAttenuation <= alpha <= filterConstant
      ensures minStep == 0.02 && noiseAttenuation == 3.0 ==>
        alpha == if NormOf(old(x), old(y), old(z)) == NormOf(sx, sy, sz) then filterConstant / 3.0 else filterConstant
      ensures Between(x, sx, old(x)) && Between(y, sy, old(y)) && Between(z, sz, old(z))
      ensures x == Blend(sx, old(x), alpha) && y == Blend(sy, old(y), alpha) && z == Blend(sz, old(z), alpha)
    {
      var estimateNorm := Norm(x, y, z);
      var sampleNorm := Norm(sx, sy, sz);
      var a := BlendFactor(estimateNorm, sampleNorm, filterConstant, minStep, noiseAttenuation);
      BlendFactorInUnit(estimateNorm, sampleNorm, filterConstant, minStep, noiseAttenuation);
      BlendFactorSelection(estimateNorm, sampleNorm, filterConstant);
      x := Blend(sx, x, a);
      y := Blend(sy, y, a);
      z := Blend(sz, z, a);
      alpha := a;
    }
  }
}
