/**
 * The emotion-to-colour mapper `get_color` and the loudness gate of `analyze`
 * (emoLamp.py). Scores are exact reals; Python's `int()` on a float is `Trunc`.
 * `math.sqrt` is a parameter of the mapper: the properties that depend on it
 * require only that it return the non-negative square root at the point it is used.
 */
module Mapping {
  import opened Wrappers
  import opened Params

  /** `int(x)` on a float: truncation toward zero. */
  function Trunc(x: real): (r: int)
    ensures x >= 0.0 ==> r >= 0 && r as real <= x < r as real + 1.0
    ensures x <= 0.0 ==> r <= 0 && r as real - 1.0 < x <= r as real
  {
    if x >= 0.0 then x.Floor else -((-x).Floor)
  }

  /** `[int(k * col[0]), int(k * col[1]), int(k * col[2])]` */
  function Scale(k: real, c: Color): (r: Color)
    ensures forall ch: Channel :: r.At(ch) == Trunc(k * c.At(ch) as real)
  {
    Color(Trunc(k * c.red as real), Trunc(k * c.green as real), Trunc(k * c.blue as real))
  }

  /** A factor in [0,1] applied to a channel in [0,b] gives a channel in [0,b]. */
  lemma ScaleChannelBound(k: real, b: int)
    requires 0.0 <= k <= 1.0 && 0 <= b
    ensures 0 <= Trunc(k * b as real) <= b
  {
    var x := b as real;
    ProductNonNegative(k, x);
    ProductNonNegative(1.0 - k, x);
    assert (1.0 - k) * x == x - k * x;
  }

  lemma ProductNonNegative(a: real, b: real)
    requires 0.0 <= a && 0.0 <= b
    ensures 0.0 <= a * b
  {
  }

  /** The classifier's `EmotionProbabilities`. */
  datatype Scores = Scores(neutrality: real, happiness: real, sadness: real, anger: real, fear: real) {

    function Of(e: Emotion): real {
      match e
      case Neutrality => neutrality
      case Happiness => happiness
      case Sadness => sadness
      case Anger => anger
      case Fear => fear
    }

    predicate NonNegative() {
      neutrality >= 0.0 && happiness >= 0.0 && sadness >= 0.0 && anger >= 0.0 && fear >= 0.0
    }

    function Total(): real {
      neutrality + happiness + sadness + anger + fear
    }
  }

  /** `EmotionProbabilities(0, 0, 0, 0, 0)` */
  const Silence := Scores(0.0, 0.0, 0.0, 0.0, 0.0)

  // ---------------------------------------------------------------------------
  // Discrete mode

  /** One `if ep.<e> > m:` step of the running maximum. */
  function Challenge(ep: Scores, leader: Emotion, e: Emotion): Emotion {
    if ep.Of(e) > ep.Of(leader) then e else leader
  }

  /** The emotion the discrete mapper selects. Its score is a maximum of the five, and
      every earlier emotion scores strictly less: ties go to the earliest emotion. */
  function Winner(ep: Scores): (w: Emotion)
    ensures forall e :: ep.Of(e) <= ep.Of(w)
    ensures forall e: Emotion :: e.Rank() < w.Rank() ==> ep.Of(e) < ep.Of(w)
  {
    Challenge(ep, Challenge(ep, Challenge(ep, Challenge(ep, Neutrality, Happiness), Sadness), Anger), Fear)
  }

  /** Reference definition: e scores a maximum and is the first emotion to do so. */
  predicate IsFirstMaximum(ep: Scores, e: Emotion) {
    && (forall d :: ep.Of(d) <= ep.Of(e))
    && (forall d: Emotion :: d.Rank() < e.Rank() ==> ep.Of(d) < ep.Of(e))
  }

  /** The winner is exactly the first maximum. */
  lemma WinnerIsFirstMaximum(ep: Scores, e: Emotion)
    ensures Winner(ep) == e <==> IsFirstMaximum(ep, e)
  {
  }

  /** Equal scores, all zero ones included, select neutrality. */
  lemma TiesGoToNeutrality(ep: Scores)
    requires ep.neutrality == ep.happiness == ep.sadness == ep.anger == ep.fear
    ensures Winner(ep) == Neutrality
  {
  }

  /** Discrete mode: the winner's base colour, scaled by the square root of its score when
      `relative` is set. `None` when that score is negative: `math.sqrt` raises
      ValueError, which the analyzer thread does not catch. */
  function DiscreteColor(ep: Scores, relative: bool, sqrt: real -> real): Option<Color> {
    var w := Winner(ep);
    var m := ep.Of(w);
    if !relative then Some(Base(w))
    else if m < 0.0 then None
    else Some(Scale(sqrt(m), Base(w)))
  }

  // ---------------------------------------------------------------------------
  // Continuous mode

  /** `Σ score_i * base_i[ch]`, summed in the order of the source. */
  function Blend(ep: Scores, ch: Channel): real {
    ep.neutrality * NEUTRALITY.At(ch) as real
    + ep.happiness * HAPPINESS.At(ch) as real
    + ep.sadness * SADNESS.At(ch) as real
    + ep.anger * ANGER.At(ch) as real
    + ep.fear * FEAR.At(ch) as real
  }

  /** Continuous mode: every channel is the truncated weighted sum of the base colours. */
  function ContinuousColor(ep: Scores): (c: Color)
    ensures forall ch: Channel :: c.At(ch) == Trunc(Blend(ep, ch))
  {
    Color(Trunc(Blend(ep, 0)), Trunc(Blend(ep, 1)), Trunc(Blend(ep, 2)))
  }

  /** The five emotions in the order of the source. */
  const Emotions: seq<Emotion> := [Neutrality, Happiness, Sadness, Anger, Fear]

  /** Reference definition: Σ score_e * Base(e)[ch] over a list of emotions, summed left to right. */
  function WeightedSum(ep: Scores, ch: Channel, es: seq<Emotion>): real
    decreases |es|
  {
    if es == [] then 0.0
    else WeightedSum(ep, ch, es[..|es| - 1]) + ep.Of(es[|es| - 1]) * Base(es[|es| - 1]).At(ch) as real
  }

  /** Continuous mode's channel ch is the truncated weighted sum of every emotion's base colour. */
  lemma {:induction false} ContinuousIsWeightedSum(ep: Scores, ch: Channel)
    ensures ContinuousColor(ep).At(ch) == Trunc(WeightedSum(ep, ch, Emotions))
  {
    var s1 := [Neutrality];
    var s2 := s1 + [Happiness];
    var s3 := s2 + [Sadness];
    var s4 := s3 + [Anger];
    assert s1[..0] == [] && s2[..1] == s1 && s3[..2] == s2 && s4[..3] == s3 && Emotions[..4] == s4;
    assert WeightedSum(ep, ch, s1) == ep.neutrality * NEUTRALITY.At(ch) as real;
    assert WeightedSum(ep, ch, s2) == WeightedSum(ep, ch, s1) + ep.happiness * HAPPINESS.At(ch) as real;
    assert WeightedSum(ep, ch, s3) == WeightedSum(ep, ch, s2) + ep.sadness * SADNESS.At(ch) as real;
    assert WeightedSum(ep, ch, s4) == WeightedSum(ep, ch, s3) + ep.anger * ANGER.At(ch) as real;
    assert WeightedSum(ep, ch, Emotions) == WeightedSum(ep, ch, s4) + ep.fear * FEAR.At(ch) as real;
    assert WeightedSum(ep, ch, Emotions) == Blend(ep, ch);
  }

  /** `get_color(ep)` under the flags DISCRETE and RELATIVE. */
  function GetColor(ep: Scores, discrete: bool, relative: bool, sqrt: real -> real): Option<Color> {
    if discrete then DiscreteColor(ep, relative, sqrt) else Some(ContinuousColor(ep))
  }

  /** r is the non-negative square root of m. */
  predicate IsRoot(r: real, m: real) {
    r >= 0.0 && r * r == m
  }

  lemma RootOfUnitInterval(r: real, m: real)
    requires 0.0 <= m <= 1.0 && IsRoot(r, m)
    ensures r <= 1.0
  {
  }

  /** Discrete mode without RELATIVE: a copy of the winner's base colour, never black. */
  lemma DiscreteAbsoluteIsBase(ep: Scores, sqrt: real -> real)
    ensures GetColor(ep, true, false, sqrt) == Some(Base(Winner(ep)))
    ensures !GetColor(ep, true, false, sqrt).value.IsBlack()
  {
  }

  /** A gated-out reading in discrete mode without RELATIVE shows neutrality's green. */
  lemma SilenceShowsGreen(sqrt: real -> real)
    ensures GetColor(Silence, true, false, sqrt) == Some(Color(0, 255, 0))
  {
    TiesGoToNeutrality(Silence);
  }

  /** Discrete mode with RELATIVE: channel ch is int(sqrt(m) * base[ch]) for the winning
      score m, and for m in [0,1] it lies between 0 and the base channel. */
  lemma DiscreteRelativeBounds(ep: Scores, sqrt: real -> real)
    requires 0.0 <= ep.Of(Winner(ep)) <= 1.0
    requires IsRoot(sqrt(ep.Of(Winner(ep))), ep.Of(Winner(ep)))
    ensures GetColor(ep, true, true, sqrt) == Some(Scale(sqrt(ep.Of(Winner(ep))), Base(Winner(ep))))
    ensures forall ch: Channel ::
      0 <= Scale(sqrt(ep.Of(Winner(ep))), Base(Winner(ep))).At(ch) <= Base(Winner(ep)).At(ch)
  {
    var w := Winner(ep);
    var k := sqrt(ep.Of(w));
    var b := Base(w);
    RootOfUnitInterval(k, ep.Of(w));
    forall ch: Channel ensures 0 <= Scale(k, b).At(ch) <= b.At(ch) {
      ScaleChannelBound(k, b.At(ch));
    }
  }

  /** Discrete mode with RELATIVE: a winning score of 0 gives black, one of 1 the base colour. */
  lemma DiscreteRelativeEndpoints(ep: Scores, sqrt: real -> real)
    requires sqrt(0.0) == 0.0 && sqrt(1.0) == 1.0
    ensures ep.Of(Winner(ep)) == 0.0 ==> GetColor(ep, true, true, sqrt) == Some(Black)
    ensures ep.Of(Winner(ep)) == 1.0 ==> GetColor(ep, true, true, sqrt) == Some(Base(Winner(ep)))
  {
  }

  /** Discrete mode with RELATIVE fails (ValueError) exactly when the winning score is negative. */
  lemma DiscreteRelativeDomain(ep: Scores, sqrt: real -> real)
    ensures GetColor(ep, true, true, sqrt).None? <==> ep.Of(Winner(ep)) < 0.0
    ensures ep.NonNegative() ==> GetColor(ep, true, true, sqrt).Some?
  {
  }

  /** Continuous mode ignores RELATIVE and never fails. */
  lemma ContinuousIgnoresRelative(ep: Scores, sqrt: real -> real)
    ensures GetColor(ep, false, true, sqrt) == GetColor(ep, false, false, sqrt) == Some(ContinuousColor(ep))
  {
  }

  /** Non-negative scores summing to at most 1 keep every blended channel in [0,255]. */
  lemma ContinuousInByteRange(ep: Scores)
    requires ep.NonNegative() && ep.Total() <= 1.0
    ensures ContinuousColor(ep).InByteRange()
  {
  }

  /** All-zero scores blend to black. */
  lemma ContinuousSilenceIsBlack()
    ensures ContinuousColor(Silence) == Black
  {
  }

  // ---------------------------------------------------------------------------
  // Loudness gate

  /** `MAX_LOUDNESS`: the calibration added to a clip's dBFS before comparing it with MIN_LOUDNESS. */
  const MAX_LOUDNESS := 103

  /** The scores `analyze` hands to `get_color`: the classifier's scores when the quality is
      valid and the clip is loud enough (with MIN_LOUDNESS = 63, louder than -40 dBFS),
      five zeros otherwise. */
  function Gate(valid: bool, ep: Scores, decibel: real): (r: Scores)
    ensures valid && decibel > -40.0 ==> r == ep
    ensures !(valid && decibel > -40.0) ==> r == Silence
  {
    if valid && MAX_LOUDNESS as real + decibel > MIN_LOUDNESS as real then ep else Silence
  }

  /** For a reading that is not already all zero, the gate passes it through iff the
      quality is valid and the loudness exceeds the threshold. */
  lemma GatePassesExactly(valid: bool, ep: Scores, decibel: real)
    requires ep != Silence
    ensures Gate(valid, ep, decibel) == ep <==> valid && MAX_LOUDNESS as real + decibel > MIN_LOUDNESS as real
  {
  }
}
