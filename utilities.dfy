/**
  The two numeric helpers of Headitude/Utilities/Utilities.swift: the radian to
  degree conversion and the channel computation of `Color(hex:alpha:)`.
 */
module Utilities {

  /** Swift's `Double.pi`, taken as an exact rational. */
  const Pi: real := 3.141592653589793

  /** `number * 180 / .pi`: the angle in degrees, so that r * pi == x * 180. */
  function Rad2Deg(x: real): (r: real)
    ensures r * Pi == x * 180.0
  {
    x * 180.0 / Pi
  }

  lemma Rad2DegOdd(x: real)
    ensures Rad2Deg(-x) == -Rad2Deg(x)
  {
  }

  lemma Rad2DegLinear(a: real, b: real, k: real)
    ensures Rad2Deg(a + b) == Rad2Deg(a) + Rad2Deg(b)
    ensures Rad2Deg(k * a) == k * Rad2Deg(a)
  {
  }

  lemma Rad2DegPi()
    ensures Rad2Deg(Pi) == 180.0
    ensures Rad2Deg(0.0) == 0.0
  {
  }

  /** An sRGB colour with channels and opacity as SwiftUI stores them. */
  datatype Color = Color(red: real, green: real, blue: real, opacity: real)

  /** `(hex & 0xFF0000) >> 16` */
  function RedByte(hex: bv32): (r: bv32)
    ensures r <= 0xFF
  {
    (hex & 0xFF0000) >> 16
  }

  /** `(hex & 0x00FF00) >> 8` */
  function GreenByte(hex: bv32): (r: bv32)
    ensures r <= 0xFF
  {
    (hex & 0x00FF00) >> 8
  }

  /** `hex & 0x0000FF` */
  function BlueByte(hex: bv32): (r: bv32)
    ensures r <= 0xFF
  {
    hex & 0x0000FF
  }

  /** A byte as a channel value in [0, 1]. */
  function Channel(b: bv32): (r: real)
    requires b <= 0xFF
    ensures 0.0 <= r <= 1.0
    ensures r * 255.0 == b as int as real
  {
    (b as int as real) / 255.0
  }

  /** `Color(hex:alpha:)`: one byte per channel, the opacity passed through. */
  function ColorFromHex(hex: bv32, alpha: real): (c: Color)
    ensures 0.0 <= c.red <= 1.0 && 0.0 <= c.green <= 1.0 && 0.0 <= c.blue <= 1.0
    ensures c.opacity == alpha
  {
    Color(Channel(RedByte(hex)), Channel(GreenByte(hex)), Channel(BlueByte(hex)), alpha)
  }

  /** The three bytes put back together are the low 24 bits of the input. */
  lemma BytesRecombine(hex: bv32)
    ensures (RedByte(hex) << 16) | (GreenByte(hex) << 8) | BlueByte(hex) == hex & 0xFFFFFF
  {
  }

  /** Bits above bit 23 (a would-be alpha byte) do not affect the colour. */
  lemma HighBitsIgnored(hex: bv32, alpha: real)
    ensures ColorFromHex(hex, alpha) == ColorFromHex(hex & 0xFFFFFF, alpha)
  {
    assert RedByte(hex) == RedByte(hex & 0xFFFFFF);
    assert GreenByte(hex) == GreenByte(hex & 0xFFFFFF);
    assert BlueByte(hex) == BlueByte(hex & 0xFFFFFF);
  }

  lemma WhiteAndBlack(alpha: real)
    ensures ColorFromHex(0xFFFFFF, alpha) == Color(1.0, 1.0, 1.0, alpha)
    ensures ColorFromHex(0, alpha) == Color(0.0, 0.0, 0.0, alpha)
  {
    assert RedByte(0xFFFFFF) == 0xFF && GreenByte(0xFFFFFF) == 0xFF && BlueByte(0xFFFFFF) == 0xFF;
    assert RedByte(0) == 0 && GreenByte(0) == 0 && BlueByte(0) == 0;
  }
}
