/**
 * The beam field the page owns: the canvas size in device pixels and the
 * array of beams, rebuilt on every resize and updated in place every frame.
 */
module Field {
  import opened Beams
  import opened Render
  import opened Animation

  /** `MINIMUM_BEAMS` of the page. */
  const MINIMUM_BEAMS: nat := 20

  /** `Array.from({ length: MINIMUM_BEAMS * 1.5 })` builds this many beams. */
  const TOTAL_BEAMS: nat := (MINIMUM_BEAMS as real * 1.5).Floor

  /** `window.devicePixelRatio || 1`: a missing (zero) ratio counts as 1. */
  function DeviceRatio(devicePixelRatio: real): (ratio: real)
    requires 0.0 <= devicePixelRatio
    ensures 0.0 < ratio
    ensures 0.0 < devicePixelRatio ==> ratio == devicePixelRatio
    ensures devicePixelRatio == 0.0 ==> ratio == 1.0
  {
    if 0.0 < devicePixelRatio then devicePixelRatio else 1.0
  }

  /**
   * The canvas size for a CSS size of `inner` pixels: `canvas.width` and
   * `canvas.height` are unsigned integers, so the product is truncated.
   */
  function CanvasSize(inner: nat, devicePixelRatio: real): (n: nat)
    requires 0.0 <= devicePixelRatio
    ensures n as real <= inner as real * DeviceRatio(devicePixelRatio) < n as real + 1.0
  {
    (inner as real * DeviceRatio(devicePixelRatio)).Floor
  }

  /**
   * The body of the `forEach` callback up to the draw: `beam.y -= beam.speed`,
   * `beam.pulse += beam.pulseSpeed`, then the recycle test.
   */
  method MoveBeam(beam: Beam, index: nat, totalBeams: nat, width: real, height: real, d: ResetDraws)
    returns (moved: Beam)
    requires 0 < totalBeams && d.Valid()
    ensures moved == Advance(beam, index, totalBeams, width, height, d)
  {
    moved := beam.(y := beam.y - beam.speed);
    moved := moved.(pulse := moved.pulse + moved.pulseSpeed);
    if moved.y + moved.length < -100.0 {
      moved := Reset(moved, index, totalBeams, width, height, d);
    }
  }

  class BeamField {
    var canvasWidth: nat
    var canvasHeight: nat
    var beams: array<Beam>

    /**
     * Either no field has been built yet, or it has `TOTAL_BEAMS` beams; every
     * beam is within the live-beam ranges and as long as 2.5 canvas heights.
     */
    ghost predicate Valid()
      reads this, beams
    {
      (beams.Length == 0 || beams.Length == TOTAL_BEAMS) &&
      forall k :: 0 <= k < beams.Length ==>
        Plausible(beams[k]) && beams[k].length == canvasHeight as real * 2.5
    }

    /** A new canvas (300 by 150 until sized) with no beams yet. */
    constructor ()
      ensures Valid() && fresh(beams)
      ensures canvasWidth == 300 && canvasHeight == 150 && beams.Length == 0
    {
      canvasWidth, canvasHeight := 300, 150;
      beams := new Beam[0];
    }

    /** The frame `animate` sees: recycle draws and the CSS-pixel canvas size. */
    function CssFrame(draws: seq<ResetDraws>, devicePixelRatio: real): (f: Frame)
      reads this
      requires 0.0 < devicePixelRatio
      ensures f.draws == draws
      ensures f.width * devicePixelRatio == canvasWidth as real
      ensures f.height * devicePixelRatio == canvasHeight as real
    {
      Frame(draws, canvasWidth as real / devicePixelRatio, canvasHeight as real / devicePixelRatio)
    }

    /**
     * `updateCanvasSize`: size the canvas for the window and replace the beams,
     * whatever they were, with `TOTAL_BEAMS` freshly created ones.
     */
    method Resize(innerWidth: nat, innerHeight: nat, devicePixelRatio: real, draws: seq<CreateDraws>)
      requires 0.0 <= devicePixelRatio
      requires |draws| == TOTAL_BEAMS && forall k :: 0 <= k < |draws| ==> draws[k].Valid()
      modifies this
      ensures Valid() && fresh(beams)
      ensures canvasWidth == CanvasSize(innerWidth, devicePixelRatio)
      ensures canvasHeight == CanvasSize(innerHeight, devicePixelRatio)
      ensures beams.Length == TOTAL_BEAMS == 30
      ensures forall k :: 0 <= k < beams.Length ==>
        beams[k] == CreateBeam(canvasWidth as real, canvasHeight as real, draws[k])
    {
      canvasWidth := CanvasSize(innerWidth, devicePixelRatio);
      canvasHeight := CanvasSize(innerHeight, devicePixelRatio);
      var total := TOTAL_BEAMS;
      var rebuilt := new Beam[total];
      var i := 0;
      while i < total
        modifies rebuilt
        invariant 0 <= i <= total
        invariant forall k :: 0 <= k < i ==>
          rebuilt[k] == CreateBeam(canvasWidth as real, canvasHeight as real, draws[k])
      {
        rebuilt[i] := CreateBeam(canvasWidth as real, canvasHeight as real, draws[i]);
        i := i + 1;
      }
      beams := rebuilt;
    }

    /**
     * The beam loop of `animate`: move each beam up, advance its pulse,
     * recycle it if it left the top, and draw it, in array order. Returns
     * what was drawn for each beam.
     */
    method Tick(devicePixelRatio: real, draws: seq<ResetDraws>, sin: real -> real) returns (drawn: seq<Drawing>)
      requires Valid() && 0.0 < devicePixelRatio
      requires Fits(CssFrame(draws, devicePixelRatio), beams.Length)
      requires forall t :: -1.0 <= sin(t) <= 1.0
      modifies beams
      ensures Valid()
      ensures beams[..] == Ticked(old(beams[..]), CssFrame(draws, devicePixelRatio))
      ensures |drawn| == beams.Length
      ensures forall k :: 0 <= k < beams.Length ==> drawn[k] == DrawBeam(beams[k], sin, INTENSITY)
    {
      var totalBeams := beams.Length;
      var f := CssFrame(draws, devicePixelRatio);
      var width, height := f.width, f.height;
      drawn := [];
      var index := 0;
      while index < totalBeams
        invariant 0 <= index <= totalBeams && |drawn| == index
        invariant TickFrom(beams[..], index, f) == Ticked(old(beams[..]), f)
        invariant forall k :: 0 <= k < index ==> drawn[k] == DrawBeam(beams[k], sin, INTENSITY)
      {
        var beam := MoveBeam(beams[index], index, totalBeams, width, height, draws[index]);
        beams[index] := beam;
        drawn := drawn + [DrawBeam(beam, sin, INTENSITY)];
        index := index + 1;
      }
      TickedPlausible(old(beams[..]), f);
      forall k | 0 <= k < totalBeams ensures beams[k].length == old(beams[k]).length {
        TickedFields(old(beams[..]), f, k);
      }
    }
  }
}
