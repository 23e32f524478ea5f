/**
 * `set_color` (emoLamp.py): dispatch a colour to the bulb, dimming the previous colour to a
 * quarter when the new one is black, remember the dispatched colour in `prev_col`, and paint
 * the first NEO_PIXELS LEDs of the strip with a scaled copy.
 */
module Bulb {
  import opened Wrappers
  import opened Params
  import opened Mapping

  /** The LED strip is created with three pixels. */
  const STRIP_LEDS := 3

  /** `int(x / 4)`: true division, then truncation toward zero. */
  function Quarter(x: int): (r: int)
    ensures x >= 0 ==> r == x / 4
    ensures x < 0 ==> r == -((-x) / 4)
  {
    Trunc(x as real / 4.0)
  }

  /** The previous colour at a quarter of its intensity. */
  function Dimmed(c: Color): Color {
    Color(Quarter(c.red), Quarter(c.green), Quarter(c.blue))
  }

  /** The colour `set_color(col)` sends to the bulb when `prev_col` holds `prev` (`None`
      while the global is still unbound), or `None` when it sends nothing: reading an
      unbound `prev_col` raises NameError. */
  function Dispatch(prev: Option<Color>, col: Color): (r: Option<Color>)
    ensures r.None? <==> col.IsBlack() && prev.None?
    ensures !col.IsBlack() ==> r == Some(col)
    ensures col.IsBlack() && prev.Some? ==> r == Some(Dimmed(prev.value))
  {
    if col.IsBlack() then
      match prev
      case None => None
      case Some(p) => if !p.IsBlack() then Some(Dimmed(p)) else Some(col)
    else
      Some(col)
  }

  /** `int(MAX_NEO_VALUE / 255 * col[ch])` per channel: an LED level never exceeds
      MAX_NEO_VALUE when the colour is in byte range. */
  function LedColor(c: Color): (r: Color)
    ensures c.InByteRange() ==> forall ch: Channel :: 0 <= r.At(ch) <= MAX_NEO_VALUE
  {
    var led := Scale(MAX_NEO_VALUE as real / 255.0, c);
    assert c.InByteRange() ==> forall ch: Channel :: 0 <= led.At(ch) <= MAX_NEO_VALUE by {
      if c.InByteRange() {
        forall ch: Channel ensures 0 <= led.At(ch) <= MAX_NEO_VALUE {
          LedChannelBound(c.At(ch));
        }
      }
    }
    led
  }

  lemma LedChannelBound(x: int)
    requires 0 <= x <= 255
    ensures 0 <= Trunc(MAX_NEO_VALUE as real / 255.0 * x as real) <= MAX_NEO_VALUE
  {
    var d := MAX_NEO_VALUE as real / 255.0;
    assert d * x as real <= d * 255.0;
  }

  /** The strip after the loop `for i in range(NEO_PIXELS)`: pixels below NEO_PIXELS show
      the scaled colour, the rest keep what they showed. */
  function Painted(before: seq<Color>, c: Color): (after: seq<Color>)
    ensures |after| == |before|
    ensures forall i :: 0 <= i < |before| ==> after[i] == if i < NEO_PIXELS then LedColor(c) else before[i]
  {
    seq(|before|, i requires 0 <= i < |before| => if i < NEO_PIXELS then LedColor(c) else before[i])
  }

  /** What the lamp retains between calls: `prev_col`, every colour sent to the bulb (oldest
      first), the strip's pixel buffer and the frame last flushed to the strip. */
  datatype LampState = LampState(prevCol: Option<Color>, bulbLog: seq<Color>, leds: seq<Color>, shown: seq<Color>)

  /** `prev_col` is bound exactly when a colour has been sent, and then holds the last one. */
  predicate Consistent(s: LampState) {
    && |s.leds| == STRIP_LEDS
    && (if s.bulbLog == [] then s.prevCol == None else s.prevCol == Some(s.bulbLog[|s.bulbLog| - 1]))
  }

  /** The effect of one `set_color(col)` that either completes or raises NameError. */
  function SetColorEffect(s: LampState, col: Color): LampState {
    match Dispatch(s.prevCol, col)
    case None => s
    case Some(c) =>
      if 0 < NEO_PIXELS then
        var leds := Painted(s.leds, c);
        LampState(Some(c), s.bulbLog + [c], leds, leds)
      else
        LampState(Some(c), s.bulbLog + [c], s.leds, s.shown)
  }

  /** After every dispatch, `prev_col` is the dispatched colour. */
  lemma SetColorKeepsConsistent(s: LampState, col: Color)
    requires Consistent(s)
    ensures Consistent(SetColorEffect(s, col))
    ensures Dispatch(s.prevCol, col).Some? ==>
      SetColorEffect(s, col).prevCol == Dispatch(s.prevCol, col)
      && SetColorEffect(s, col).bulbLog == s.bulbLog + [Dispatch(s.prevCol, col).value]
    ensures Dispatch(s.prevCol, col).None? ==> SetColorEffect(s, col) == s
  {
  }

  /** A previous colour of [200,0,0] and a black input dispatch [50,0,0]. */
  lemma DimsToAQuarter()
    ensures Dispatch(Some(Color(200, 0, 0)), Black) == Some(Color(50, 0, 0))
  {
  }

  /** A black input with a black previous colour stays black. */
  lemma BlackAfterBlackStaysBlack()
    ensures Dispatch(Some(Black), Black) == Some(Black)
  {
  }

  /** `prev_col` after n further black inputs. */
  function AfterBlacks(prev: Option<Color>, n: nat): Option<Color>
    decreases n
  {
    if n == 0 then prev else AfterBlacks(Dispatch(prev, Black), n - 1)
  }

  function Pow4(n: nat): (p: nat)
    ensures p >= 1
  {
    if n == 0 then 1 else 4 * Pow4(n - 1)
  }

  lemma {:induction false} QuarterShrinks(x: int, n: nat)
    requires -(Pow4(n + 1) as int) < x < Pow4(n + 1)
    ensures -(Pow4(n) as int) < Quarter(x) < Pow4(n)
  {
  }

  predicate Within(c: Color, bound: int) {
    -bound < c.red < bound && -bound < c.green < bound && -bound < c.blue < bound
  }

  /** Repeated black inputs divide the previous colour by four each time, so a colour whose
      channels are below 4^n in magnitude is black after n of them. */
  lemma {:induction false} RepeatedBlacksReachBlack(p: Color, n: nat)
    requires Within(p, Pow4(n))
    ensures AfterBlacks(Some(p), n) == Some(Black)
    decreases n
  {
    if n == 0 {
      assert p == Black;
    } else {
      QuarterShrinks(p.red, n - 1);
      QuarterShrinks(p.green, n - 1);
      QuarterShrinks(p.blue, n - 1);
      RepeatedBlacksReachBlack(Dimmed(p), n - 1);
    }
  }

  /** Any byte-range colour is black after four black inputs. */
  lemma ByteColorBlackAfterFour(p: Color)
    requires p.InByteRange()
    ensures AfterBlacks(Some(p), 4) == Some(Black)
  {
    assert Pow4(4) == 256;
    RepeatedBlacksReachBlack(p, 4);
  }

  /** While `prev_col` is unbound, no black input is ever dispatched. */
  lemma {:induction false} UnboundStaysUnbound(n: nat)
    ensures AfterBlacks(None, n) == None
  {
    if n > 0 {
      UnboundStaysUnbound(n - 1);
    }
  }

  /** The lamp: the bulb as the log of colours sent to it, `prev_col`, and the LED strip. */
  class Lamp {
    var prevCol: Option<Color>
    var bulbLog: seq<Color>
    const leds: array<Color>
    var shown: seq<Color>

    ghost function State(): LampState
      reads this, leds
    {
      LampState(prevCol, bulbLog, leds[..], shown)
    }

    ghost predicate Valid()
      reads this, leds
    {
      Consistent(State())
    }

    /** `prev_col` is unbound and the strip shows its start-up pattern. */
    constructor ()
      ensures Valid() && fresh(leds)
      ensures prevCol == None && bulbLog == []
      ensures leds[..] == [Color(1, 0, 0), Color(0, 1, 0), Color(0, 0, 1)] && shown == leds[..]
    {
      prevCol := None;
      bulbLog := [];
      leds := new Color[STRIP_LEDS] [Color(1, 0, 0), Color(0, 1, 0), Color(0, 0, 1)];
      new;
      shown := leds[..];
    }

    /** `set_color(col)`; `sent` is false when it raised NameError before sending anything. */
    method SetColor(col: Color) returns (sent: bool)
      requires Valid()
      modifies this, leds
      ensures Valid()
      ensures sent <==> Dispatch(old(prevCol), col).Some?
      ensures State() == SetColorEffect(old(State()), col)
    {
      var c := col;
      if c.IsBlack() {
        if prevCol.None? {
          return false;
        }
        var p := prevCol.value;
        if !p.IsBlack() {
          c := Dimmed(p);
        }
      }
      prevCol := Some(c);
      bulbLog := bulbLog + [c];
      if 0 < NEO_PIXELS {
        for i := 0 to NEO_PIXELS
          modifies leds
          invariant forall k :: 0 <= k < i ==> leds[k] == LedColor(c)
          invariant forall k :: i <= k < leds.Length ==> leds[k] == old(leds[k])
        {
          leds[i] := LedColor(c);
        }
        shown := leds[..];
      }
      sent := true;
    }
  }
}
