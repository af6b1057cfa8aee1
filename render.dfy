/**
 * What `drawBeam` feeds to the canvas for one beam: the transform, the
 * rectangle, and the colour stops of its linear gradient. The canvas calls
 * themselves are not modelled; `Math.sin` is a parameter.
 */
module Render {
  import opened Beams

  /** The named intensity levels of the beams. */
  datatype Intensity = Subtle | Medium | Strong

  /** The global alpha multiplier of each intensity level. */
  function OpacityFactor(level: Intensity): (f: real)
    ensures 0.7 <= f <= 1.0
    ensures f == 1.0 <==> level == Strong
  {
    match level
    case Subtle => 0.7
    case Medium => 0.85
    case Strong => 1.0
  }

  /** The level this site is configured with. */
  const INTENSITY: Intensity := Strong

  /** `a * x` is monotone in `x` for a non-negative `a`. */
  lemma ScaleBetween(a: real, lo: real, x: real, hi: real)
    requires 0.0 <= a && lo <= x <= hi
    ensures a * lo <= a * x <= a * hi
  {
    assert a * (x - lo) >= 0.0;
    assert a * (hi - x) >= 0.0;
  }

  /**
   * The breathing alpha of a beam of base `opacity` whose pulse has sine
   * `sinPulse`, under the global multiplier `factor`: between 60 % and 100 %
   * of `opacity * factor`, reaching 100 % at the crest of the sine.
   */
  function PulsingOpacity(opacity: real, sinPulse: real, factor: real): (p: real)
    requires -1.0 <= sinPulse <= 1.0
    ensures 0.0 <= opacity && 0.0 <= factor ==> 0.6 * opacity * factor <= p <= opacity * factor
    ensures sinPulse == 1.0 ==> p == opacity * factor
    ensures sinPulse == -1.0 ==> p == 0.6 * opacity * factor
  {
    BreathRange(opacity, 0.8 + sinPulse * 0.2, factor);
    opacity * (0.8 + sinPulse * 0.2) * factor
  }

  /** The bound of `PulsingOpacity`, for a breathing factor in [0.6, 1]. */
  lemma BreathRange(opacity: real, breath: real, factor: real)
    requires 0.6 <= breath <= 1.0
    ensures 0.0 <= opacity && 0.0 <= factor ==>
      0.6 * opacity * factor <= opacity * breath * factor <= opacity * factor
  {
    if 0.0 <= opacity && 0.0 <= factor {
      ScaleBetween(opacity, 0.6, breath, 1.0);
      ScaleBetween(factor, opacity * 0.6, opacity * breath, opacity);
      assert factor * (opacity * breath) == opacity * breath * factor;
      assert factor * (opacity * 0.6) == 0.6 * opacity * factor;
      assert factor * opacity == opacity * factor;
    }
  }

  /** One `addColorStop(offset, hsla(hue, saturation%, lightness%, alpha))`. */
  datatype ColorStop = ColorStop(offset: real, hue: real, saturation: real, lightness: real, alpha: real)

  /**
   * The six stops of a beam's gradient at peak alpha `p`: half alpha at 10 %
   * and 90 %, full alpha from 40 % to 60 %, hue `hue` at 85 % saturation and
   * 65 % lightness.
   */
  function GradientStops(hue: real, p: real): (stops: seq<ColorStop>)
    ensures |stops| == 6
  {
    [ ColorStop(0.0, hue, 85.0, 65.0, 0.0),
      ColorStop(0.1, hue, 85.0, 65.0, p * 0.5),
      ColorStop(0.4, hue, 85.0, 65.0, p),
      ColorStop(0.6, hue, 85.0, 65.0, p),
      ColorStop(0.9, hue, 85.0, 65.0, p * 0.5),
      ColorStop(1.0, hue, 85.0, 65.0, 0.0) ]
  }

  /**
   * The gradient's alpha profile: transparent at both ends, symmetric about
   * its middle, one colour throughout, and never above the peak alpha.
   */
  lemma GradientProfile(hue: real, p: real)
    ensures var stops := GradientStops(hue, p);
      forall k :: 0 <= k < 6 ==>
        stops[k].hue == hue && stops[k].saturation == 85.0 && stops[k].lightness == 65.0
    ensures var stops := GradientStops(hue, p);
      stops[0].offset == 0.0 && stops[5].offset == 1.0 &&
      forall k :: 0 <= k < 5 ==> stops[k].offset < stops[k + 1].offset
    ensures var stops := GradientStops(hue, p);
      forall k :: 0 <= k < 6 ==>
        stops[k].offset + stops[5 - k].offset == 1.0 && stops[k].alpha == stops[5 - k].alpha
    ensures var stops := GradientStops(hue, p);
      stops[0].alpha == 0.0 && stops[2].alpha == p && stops[3].alpha == p && stops[1].alpha * 2.0 == p
    ensures var stops := GradientStops(hue, p);
      0.0 <= p ==> forall k :: 0 <= k < 6 ==> 0.0 <= stops[k].alpha <= p
  {
  }

  /**
   * What one `drawBeam` draws: translate to the beam, rotate by its angle in
   * radians, fill a rectangle centred on the beam's axis with a gradient that
   * runs along its whole length.
   */
  datatype Drawing = Drawing(
    originX: real, originY: real, rotation: real,
    rectX: real, rectY: real, rectWidth: real, rectHeight: real,
    gradientLength: real, stops: seq<ColorStop>)

  function DrawBeam(b: Beam, sin: real -> real, level: Intensity): (d: Drawing)
    requires -1.0 <= sin(b.pulse) <= 1.0
    ensures d.originX == b.x && d.originY == b.y
    ensures d.rectX + d.rectWidth / 2.0 == 0.0 && d.rectY == 0.0 && d.rectWidth == b.width
    ensures d.rectHeight == b.length && d.gradientLength == b.length
    ensures d.rotation * 180.0 == b.angle * PI
    ensures |d.stops| == 6 && forall k :: 0 <= k < 6 ==> d.stops[k].hue == b.hue
    ensures 0.0 <= b.opacity ==> forall k :: 0 <= k < 6 ==>
      0.0 <= d.stops[k].alpha <= b.opacity * OpacityFactor(level)
  {
    var p := PulsingOpacity(b.opacity, sin(b.pulse), OpacityFactor(level));
    Drawing(
      originX := b.x, originY := b.y,
      rotation := (b.angle * PI) / 180.0,
      rectX := -b.width / 2.0, rectY := 0.0, rectWidth := b.width, rectHeight := b.length,
      gradientLength := b.length,
      stops := GradientStops(b.hue, p))
  }
}
