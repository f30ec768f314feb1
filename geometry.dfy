/**
 * Timeline geometry. Time is counted in integer ticks, 705,600,000 to the second, a number
 * divisible by every common sample rate, so that one sample of a track is a whole number of
 * ticks (the track's sample period) and a shift followed by its negation is exact.
 */
module Geometry {

  const TicksPerSecond: int := 705600000

  /** The horizontal view mapping: the time shown at the pixel origin and the ticks per pixel. */
  datatype Zoom = Zoom(h: int, ticksPerPixel: int)

  /** ViewInfo::PositionToTime: the time under pixel `x` of a panel whose left edge is `origin`. */
  function PositionToTime(z: Zoom, x: int, origin: int): int
  {
    z.h + (x - origin) * z.ticksPerPixel
  }

  /** ViewInfo::TimeToPosition: the pixel nearest to time `t` (halves round up). */
  function TimeToPosition(z: Zoom, t: int, origin: int): int
    requires z.ticksPerPixel > 0
  {
    origin + (2 * (t - z.h) + z.ticksPerPixel) / (2 * z.ticksPerPixel)
  }

  lemma {:induction false} MulAtLeast(k: int, d: int)
    requires k >= 1 && d > 0
    ensures k * d >= d
    decreases k
  {
    if k > 1 {
      MulAtLeast(k - 1, d);
    }
  }

  /** Euclidean division has one quotient for a remainder in [0, d). */
  lemma DivUnique(n: int, d: int, q: int, r: int)
    requires d > 0 && 0 <= r < d && n == q * d + r
    ensures n / d == q && n % d == r
  {
    var q', r' := n / d, n % d;
    assert (q - q') * d == r' - r;
    if q > q' {
      MulAtLeast(q - q', d);
    } else if q < q' {
      MulAtLeast(q' - q, d);
    }
  }

  /** The pixel of the time under a pixel is that pixel. */
  lemma TimeToPositionInverse(z: Zoom, x: int, origin: int)
    requires z.ticksPerPixel > 0
    ensures TimeToPosition(z, PositionToTime(z, x, origin), origin) == x
  {
    var p := z.ticksPerPixel;
    var a := x - origin;
    assert 2 * (PositionToTime(z, x, origin) - z.h) + p == a * (2 * p) + p;
    DivUnique(a * (2 * p) + p, 2 * p, a, p);
  }

  /** rint(a / b): the nearest integer, halves to the even neighbour. */
  function RoundHalfEven(a: int, b: int): (q: int)
    requires b > 0
    ensures -b <= 2 * (q * b - a) <= b
  {
    var f := a / b;
    var r := a % b;
    if 2 * r < b then f
    else if 2 * r > b then f + 1
    else if f % 2 == 0 then f
    else f + 1
  }

  /** rint(d * rate) / rate: the amount `d` set to the nearest whole number of sample periods. */
  function Quantise(d: int, period: int): (q: int)
    requires period > 0
    ensures q % period == 0
    ensures -period <= 2 * (q - d) <= period
  {
    var k := RoundHalfEven(d, period);
    DivUnique(k * period, period, k, 0);
    k * period
  }

  /** An amount already on a sample boundary is left alone. */
  lemma QuantiseIdempotent(d: int, period: int)
    requires period > 0
    ensures Quantise(Quantise(d, period), period) == Quantise(d, period)
  {
    var k := RoundHalfEven(d, period);
    DivUnique(k * period, period, k, 0);
  }

  /** Division truncating toward zero, as a C++ cast of a double to an integer does. */
  function TruncDiv(a: int, b: int): (q: int)
    requires b > 0
    ensures a >= 0 ==> q == a / b
    ensures a < 0 ==> q <= 0 && -q == (-a) / b
  {
    if a >= 0 then a / b else -((-a) / b)
  }

  /** (sampleCount)(time * rate + 0.5) for a track with sample period `period`. */
  function SampleAt(time: int, period: int): int
    requires period > 0
  {
    TruncDiv(2 * time + period, 2 * period)
  }

  /** The grip test of TimeShiftHandle::HitTest: the pointer, adjusted by the cursor hotspot, is in a border band. */
  const AdjustedDragHandleWidth: int := 14
  const HotspotOffset: int := 5

  function HitTest(x: int, rectX: int, rectWidth: int): (hit: bool)
    ensures hit <==> x < rectX + 9 || rectX + rectWidth - 19 <= x
  {
    x + HotspotOffset < rectX + AdjustedDragHandleWidth ||
    x + HotspotOffset >= rectX + rectWidth - AdjustedDragHandleWidth
  }
}
