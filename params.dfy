/**
 * The configuration constants of params.py, each with the range its comment documents
 * stated as a subset type, so that the verifier checks every constant against its range.
 */
module Params {

  /** One colour channel index of a three-element RGB list. */
  type Channel = ch: int | 0 <= ch < 3

  /** An RGB triple as the three-element lists of the source hold it. Channels are unbounded
      integers: nothing in the code clamps them. */
  datatype Color = Color(red: int, green: int, blue: int) {

    /** `col[ch]` */
    function At(ch: Channel): int {
      if ch == 0 then red else if ch == 1 then green else blue
    }

    predicate IsBlack() {
      red == 0 && green == 0 && blue == 0
    }

    predicate InByteRange() {
      0 <= red <= 255 && 0 <= green <= 255 && 0 <= blue <= 255
    }
  }

  const Black := Color(0, 0, 0)

  /** The five emotions the classifier scores, named as the attributes of params that hold
      their base colours. */
  datatype Emotion = Neutrality | Happiness | Sadness | Anger | Fear {

    /** Position in the order in which the discrete mapper compares the scores. */
    function Rank(): nat {
      match this
      case Neutrality => 0
      case Happiness => 1
      case Sadness => 2
      case Anger => 3
      case Fear => 4
    }
  }

  type Seconds = t: real | t > 0.0 witness 1.0
  type Percent = x: int | 0 <= x <= 100
  type PixelCount = n: int | 0 <= n <= 3
  type Level = x: int | 0 <= x <= 255

  /** Length of one recording; the initial sample time of the main loop. */
  const RECORD_SECONDS: Seconds := 1.0

  /** Minimal loudness required for analysis, documented as [0..100]. */
  const MIN_LOUDNESS: Percent := 63

  /** Show the strongest emotion only, instead of mixing all five. */
  const DISCRETE: bool := true

  /** Scale the discrete colour by the strength of the winning emotion. */
  const RELATIVE: bool := true

  const NEUTRALITY := Color(0, 255, 0)  // green
  const HAPPINESS := Color(255, 90, 0)  // orange
  const SADNESS := Color(0, 0, 255)     // blue
  const ANGER := Color(255, 0, 0)       // red
  const FEAR := Color(255, 0, 255)      // pink

  /** Number of on-device LEDs to drive, documented as [0..3]; 0 disables them. */
  const NEO_PIXELS: PixelCount := 3

  /** Maximal LED brightness, documented as [0..255]. */
  const MAX_NEO_VALUE: Level := 16

  /** `getattr(params, emo)`: the configured base colour of an emotion. Every base colour
      has all channels in [0,255] and none is black. */
  function Base(e: Emotion): (c: Color)
    ensures c.InByteRange()
    ensures !c.IsBlack()
  {
    match e
    case Neutrality => NEUTRALITY
    case Happiness => HAPPINESS
    case Sadness => SADNESS
    case Anger => ANGER
    case Fear => FEAR
  }
}
