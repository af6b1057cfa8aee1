/**
 * One light beam of the animated background and the two ways a beam gets its
 * values: `CreateBeam` (a beam of a freshly built field) and `Reset` (a beam
 * recycled below the bottom edge once it has drifted off the top).
 *
 * Every `Math.random()` draw is an explicit parameter in [0, 1).
 */
module Beams {

  /** `Math.PI`, as the decimal JavaScript prints for it, taken as an exact real. */
  const PI: real := 3.141592653589793

  /** A beam record; all fields are JavaScript numbers, modelled as reals. */
  datatype Beam = Beam(
    x: real,
    y: real,
    width: real,
    length: real,
    angle: real,      // tilt in degrees
    speed: real,      // upward drift per frame
    opacity: real,    // base alpha, before the pulse
    hue: real,        // degrees of the HSL colour wheel
    pulse: real,      // phase of the breathing effect, in radians
    pulseSpeed: real  // increment of `pulse` per frame
  )

  /** A value `Math.random()` can return. */
  predicate Unit(r: real) {
    0.0 <= r < 1.0
  }

  /** The nine draws `createBeam` makes, one per random field. */
  datatype CreateDraws = CreateDraws(
    rAngle: real, rX: real, rY: real, rWidth: real, rSpeed: real,
    rOpacity: real, rHue: real, rPulse: real, rPulseSpeed: real)
  {
    predicate Valid() {
      Unit(rAngle) && Unit(rX) && Unit(rY) && Unit(rWidth) && Unit(rSpeed) &&
      Unit(rOpacity) && Unit(rHue) && Unit(rPulse) && Unit(rPulseSpeed)
    }
  }

  /** The four draws `resetBeam` makes: jitter of x, width, speed, opacity. */
  datatype ResetDraws = ResetDraws(rX: real, rWidth: real, rSpeed: real, rOpacity: real)
  {
    predicate Valid() {
      Unit(rX) && Unit(rWidth) && Unit(rSpeed) && Unit(rOpacity)
    }
  }

  /**
   * The ranges every live beam stays in: width, angle, speed, opacity, hue and
   * pulse speed lie in the union of the creation and recycle ranges, pulse
   * and length are non-negative, and x and y are unconstrained.
   */
  predicate Plausible(b: Beam) {
    30.0 <= b.width < 200.0 &&
    -35.0 <= b.angle < -25.0 &&
    0.5 <= b.speed < 1.8 &&
    0.12 <= b.opacity < 0.3 &&
    190.0 <= b.hue < 260.0 &&
    0.0 <= b.pulse &&
    0.02 <= b.pulseSpeed < 0.05 &&
    0.0 <= b.length
  }

  /** `r * k` lies in [0, k) for a draw `r` and a positive scale `k`. */
  lemma ScaledDraw(r: real, k: real)
    requires Unit(r)
    ensures 0.0 < k ==> 0.0 <= r * k < k
  {
    if 0.0 < k { assert (1.0 - r) * k > 0.0; }
  }

  /** The recycle jitter `(r - 0.5) * s * 0.5` stays within a quarter of `s`. */
  function Jitter(r: real, s: real): (j: real)
    requires Unit(r)
    ensures 0.0 < s ==> -s / 4.0 <= j < s / 4.0
  {
    JitterBound(r, s);
    (r - 0.5) * s * 0.5
  }

  /** The bound of `Jitter`, on the expression itself. */
  lemma JitterBound(r: real, s: real)
    requires Unit(r)
    ensures 0.0 < s ==> -s / 4.0 <= (r - 0.5) * s * 0.5 < s / 4.0
  {
    ScaledDraw(r, s * 0.5);
    assert (r - 0.5) * s * 0.5 == r * (s * 0.5) - s / 4.0;
  }

  /** Real division by a positive divisor keeps a strict upper bound. */
  lemma DivBelow(a: real, n: real, c: real)
    requires 0.0 < n && a < c * n
    ensures a / n < c
  {
    var q := a / n;
    assert q * n == a;
    if q >= c {
      assert q * n >= c * n;
    }
  }

  /** A beam of a freshly built field, for a surface of `width` by `height`. */
  function CreateBeam(width: real, height: real, d: CreateDraws): (b: Beam)
    requires d.Valid()
    ensures 30.0 <= b.width < 90.0 && -35.0 <= b.angle < -25.0
    ensures 0.6 <= b.speed < 1.8 && 0.12 <= b.opacity < 0.28
    ensures 190.0 <= b.hue < 260.0 && 0.02 <= b.pulseSpeed < 0.05
    ensures 0.0 <= b.pulse < 2.0 * PI
    ensures b.length == height * 2.5
    ensures 0.0 < width ==> -width * 0.25 <= b.x < width * 1.25
    ensures 0.0 < height ==> -height * 0.25 <= b.y < height * 1.25
    ensures 0.0 <= height ==> Plausible(b)
  {
    ScaledDraw(d.rPulse, PI * 2.0);
    var angle := -35.0 + d.rAngle * 10.0;
    Beam(
      x := Scatter(d.rX, width),
      y := Scatter(d.rY, height),
      width := 30.0 + d.rWidth * 60.0,
      length := height * 2.5,
      angle := angle,
      speed := 0.6 + d.rSpeed * 1.2,
      opacity := 0.12 + d.rOpacity * 0.16,
      hue := 190.0 + d.rHue * 70.0,
      pulse := d.rPulse * PI * 2.0,
      pulseSpeed := 0.02 + d.rPulseSpeed * 0.03)
  }

  /**
   * `Math.random() * k * 1.5 - k * 0.25`: a start coordinate from a quarter of
   * `k` before the edge to a quarter of `k` past the far edge.
   */
  function Scatter(r: real, k: real): (v: real)
    requires Unit(r)
    ensures 0.0 < k ==> -k * 0.25 <= v < k * 1.25
  {
    Spread(r, k);
    r * k * 1.5 - k * 0.25
  }

  /** `r * k * 1.5 - k * 0.25` ranges over [-k/4, 5k/4) for a draw `r`. */
  lemma Spread(r: real, k: real)
    requires Unit(r)
    ensures 0.0 < k ==> -k * 0.25 <= r * k * 1.5 - k * 0.25 < k * 1.25
  {
    if 0.0 < k {
      ScaledDraw(r, k);
      var p := r * k;
      assert r * k * 1.5 == p * 1.5;
    }
  }

  /** Which of the three vertical columns the beam at `index` is recycled into. */
  function Column(index: nat): (c: nat)
    ensures c < 3 && (index - c) % 3 == 0
  {
    index % 3
  }

  /** The hue a recycled beam gets from its place in the field. */
  function IndexHue(index: nat, totalBeams: nat): (h: real)
    requires 0 < totalBeams
    ensures 190.0 <= h
    ensures index < totalBeams ==> h < 260.0
  {
    HueShare(index, totalBeams);
    190.0 + (index as real * 70.0) / (totalBeams as real)
  }

  /** The hue grows with the index: the field shows a gradient of hues. */
  lemma HueIncreasing(i: nat, j: nat, totalBeams: nat)
    requires 0 < totalBeams && i < j
    ensures IndexHue(i, totalBeams) < IndexHue(j, totalBeams)
  {
    var n := totalBeams as real;
    var qi := (i as real * 70.0) / n;
    var qj := (j as real * 70.0) / n;
    assert qi * n == i as real * 70.0;
    assert qj * n == j as real * 70.0;
    if qj <= qi { assert qj * n <= qi * n; }
  }

  /** The share `index * 70 / totalBeams` of the hue band an index gets. */
  lemma HueShare(index: nat, totalBeams: nat)
    requires 0 < totalBeams
    ensures 0.0 <= (index as real * 70.0) / (totalBeams as real)
    ensures index < totalBeams ==> (index as real * 70.0) / (totalBeams as real) < 70.0
  {
    var n := totalBeams as real;
    var a := index as real * 70.0;
    var q := a / n;
    assert q * n == a;
    if index < totalBeams { DivBelow(a, n, 70.0); }
  }

  /**
   * Where `resetBeam` puts x: the middle half of column `c` of three, jittered
   * by up to a quarter of the column spacing either way.
   */
  function ColumnX(c: nat, width: real, r: real): (x: real)
    requires Unit(r)
    ensures 0.0 < width ==>
      var s := width / 3.0;
      c as real * s + s / 4.0 <= x < c as real * s + 3.0 * s / 4.0
  {
    var spacing := width / 3.0;
    var centre := c as real * spacing + spacing / 2.0;
    centre + Jitter(r, spacing)
  }

  /**
   * What recycling promises of the recycled beam `r`: it sits 100 below the
   * bottom edge, in the middle half of its own column, with the
   * recycle ranges for width, speed and opacity and the hue of its index.
   */
  predicate RecycledInto(r: Beam, index: nat, totalBeams: nat, width: real, height: real)
    requires 0 < totalBeams
  {
    var s := width / 3.0;
    var c := Column(index) as real;
    r.y == height + 100.0 &&
    (0.0 < width ==> c * s + s / 4.0 <= r.x < c * s + 3.0 * s / 4.0) &&
    100.0 <= r.width < 200.0 &&
    0.5 <= r.speed < 0.9 &&
    0.2 <= r.opacity < 0.3 &&
    r.hue == IndexHue(index, totalBeams)
  }

  /**
   * Recycling the beam `b` at position `index` of a field of `totalBeams`
   * beams, on a surface of `width` by `height`; angle, length, pulse and
   * pulse speed are kept.
   */
  function Reset(b: Beam, index: nat, totalBeams: nat, width: real, height: real, d: ResetDraws): (r: Beam)
    requires 0 < totalBeams && d.Valid()
    ensures RecycledInto(r, index, totalBeams, width, height)
    ensures r.angle == b.angle && r.length == b.length
    ensures r.pulse == b.pulse && r.pulseSpeed == b.pulseSpeed
    ensures Plausible(b) && index < totalBeams ==> Plausible(r)
  {
    b.(
      y := height + 100.0,
      x := ColumnX(Column(index), width, d.rX),
      width := 100.0 + d.rWidth * 100.0,
      speed := 0.5 + d.rSpeed * 0.4,
      hue := IndexHue(index, totalBeams),
      opacity := 0.2 + d.rOpacity * 0.1)
  }

  /**
   * The recycle test: the trailing edge is more than 100 above the top, so a
   * beam of non-negative length is wholly out of sight.
   */
  predicate OffScreen(y: real, length: real)
    ensures OffScreen(y, length) && 0.0 <= length ==> y < -100.0 && y + length < -100.0
  {
    y + length < -100.0
  }

  /**
   * One frame for the beam at `index`: drift up by `speed`, advance the
   * pulse, and recycle at once if that took the beam off screen.
   */
  function Advance(b: Beam, index: nat, totalBeams: nat, width: real, height: real, d: ResetDraws): (r: Beam)
    requires 0 < totalBeams && d.Valid()
    ensures r.pulse == b.pulse + b.pulseSpeed
    ensures r.angle == b.angle && r.length == b.length && r.pulseSpeed == b.pulseSpeed
    ensures OffScreen(b.y - b.speed, b.length) ==> RecycledInto(r, index, totalBeams, width, height)
    ensures !OffScreen(b.y - b.speed, b.length) ==>
      r.y == b.y - b.speed && r.x == b.x && r.width == b.width &&
      r.speed == b.speed && r.opacity == b.opacity && r.hue == b.hue
    ensures Plausible(b) && index < totalBeams ==> Plausible(r) && r.pulse > b.pulse
  {
    var moved := b.(y := b.y - b.speed, pulse := b.pulse + b.pulseSpeed);
    if OffScreen(moved.y, moved.length) then
      Reset(moved, index, totalBeams, width, height, d)
    else
      moved
  }
}
