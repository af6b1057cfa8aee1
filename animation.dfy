/**
 * The per-frame update of the whole beam field, as a function of the beam
 * sequence: `beams.forEach` in `animate` updating every beam in place, and a
 * run of many frames with what it keeps invariant.
 */
module Animation {
  import opened Beams

  /**
   * What the host supplies for one frame: the draws a recycled beam at each
   * index would use, and the CSS-pixel size `resetBeam` is given.
   */
  datatype Frame = Frame(draws: seq<ResetDraws>, width: real, height: real)

  /** `f` carries one valid set of recycle draws for each of `n` beams. */
  predicate Fits(f: Frame, n: nat) {
    |f.draws| == n && forall k :: 0 <= k < n ==> f.draws[k].Valid()
  }

  /** Every beam of `bs` is within the live-beam ranges. */
  predicate AllPlausible(bs: seq<Beam>) {
    forall k :: 0 <= k < |bs| ==> Plausible(bs[k])
  }

  /**
   * The `forEach` loop from index `k` on, writing each updated beam back into
   * the sequence before visiting the next.
   */
  function TickFrom(bs: seq<Beam>, k: nat, f: Frame): (r: seq<Beam>)
    requires k <= |bs| && Fits(f, |bs|)
    ensures |r| == |bs|
    decreases |bs| - k
  {
    if k == |bs| then bs
    else TickFrom(bs[k := Advance(bs[k], k, |bs|, f.width, f.height, f.draws[k])], k + 1, f)
  }

  /**
   * Whatever the earlier visits of the loop wrote, each later beam is
   * advanced from its own old value, with its own index and the length of
   * the whole field; the beams before `k` are left alone.
   */
  lemma {:induction false} TickFromAt(bs: seq<Beam>, k: nat, f: Frame, i: nat)
    requires k <= |bs| && Fits(f, |bs|) && i < |bs|
    ensures TickFrom(bs, k, f)[i] ==
      if i < k then bs[i] else Advance(bs[i], i, |bs|, f.width, f.height, f.draws[i])
    decreases |bs| - k
  {
    if k < |bs| {
      var next := bs[k := Advance(bs[k], k, |bs|, f.width, f.height, f.draws[k])];
      TickFromAt(next, k + 1, f, i);
    }
  }

  /** One frame of the whole field. */
  function Ticked(bs: seq<Beam>, f: Frame): (r: seq<Beam>)
    requires Fits(f, |bs|)
    ensures |r| == |bs|
  {
    TickFrom(bs, 0, f)
  }

  /** Beam `i` after one frame: beam `i` before it, advanced. */
  lemma TickedAt(bs: seq<Beam>, f: Frame, i: nat)
    requires Fits(f, |bs|) && i < |bs|
    ensures Ticked(bs, f)[i] == Advance(bs[i], i, |bs|, f.width, f.height, f.draws[i])
  {
    TickFromAt(bs, 0, f, i);
  }

  /**
   * A frame touches no beam on behalf of another: beam `i` after the frame
   * depends on nothing but beam `i` before it, `i`, and the field's length.
   */
  lemma TickedLocal(bs: seq<Beam>, cs: seq<Beam>, f: Frame, i: nat)
    requires |bs| == |cs| && Fits(f, |bs|) && i < |bs| && bs[i] == cs[i]
    ensures Ticked(bs, f)[i] == Ticked(cs, f)[i]
  {
    TickedAt(bs, f, i);
    TickedAt(cs, f, i);
  }

  /**
   * A frame keeps each beam's angle, length and pulse speed, and grows its
   * pulse by exactly its pulse speed.
   */
  lemma TickedFields(bs: seq<Beam>, f: Frame, i: nat)
    requires Fits(f, |bs|) && i < |bs|
    ensures Ticked(bs, f)[i].angle == bs[i].angle
    ensures Ticked(bs, f)[i].length == bs[i].length
    ensures Ticked(bs, f)[i].pulseSpeed == bs[i].pulseSpeed
    ensures Ticked(bs, f)[i].pulse == bs[i].pulse + bs[i].pulseSpeed
  {
    TickedAt(bs, f, i);
  }

  /** A frame keeps every beam in the live-beam ranges. */
  lemma TickedPlausible(bs: seq<Beam>, f: Frame)
    requires Fits(f, |bs|) && AllPlausible(bs)
    ensures AllPlausible(Ticked(bs, f))
  {
    forall i | 0 <= i < |bs| ensures Plausible(Ticked(bs, f)[i]) {
      TickedAt(bs, f, i);
    }
  }

  /** Every frame of `frames` fits a field of `n` beams. */
  predicate AllFit(frames: seq<Frame>, n: nat) {
    forall j :: 0 <= j < |frames| ==> Fits(frames[j], n)
  }

  /** The field after the frames `frames`, in order, with no resize between. */
  function Run(bs: seq<Beam>, frames: seq<Frame>): (r: seq<Beam>)
    requires AllFit(frames, |bs|)
    ensures |r| == |bs|
    decreases |frames|
  {
    if frames == [] then bs else Run(Ticked(bs, frames[0]), frames[1..])
  }

  /**
   * `n` frames' worth of growth for a pulse `p` that gains `ps` each frame:
   * one `ps` is added per frame, which comes to `p + n * ps`.
   */
  function Grown(p: real, ps: real, n: nat): (g: real)
    ensures g == p + n as real * ps
  {
    if n == 0 then p else Grown(p, ps, n - 1) + ps
  }

  /** Starting one frame later is the same as growing for one frame more. */
  lemma {:induction false} GrownShift(p: real, ps: real, n: nat)
    ensures Grown(p + ps, ps, n) == Grown(p, ps, n + 1)
  {
    if n > 0 { GrownShift(p, ps, n - 1); }
  }

  /** With a non-negative gain, more frames never give a smaller pulse. */
  lemma {:induction false} GrownMonotone(p: real, ps: real, a: nat, b: nat)
    requires a <= b && 0.0 <= ps
    ensures Grown(p, ps, a) <= Grown(p, ps, b)
    decreases b
  {
    if a < b { GrownMonotone(p, ps, a, b - 1); }
  }

  /**
   * Over any run, each beam keeps its angle, length and pulse speed, and its
   * pulse has grown by exactly one pulse speed per frame.
   */
  lemma {:induction false} RunPulse(bs: seq<Beam>, frames: seq<Frame>, i: nat)
    requires AllFit(frames, |bs|) && i < |bs|
    ensures Run(bs, frames)[i].angle == bs[i].angle
    ensures Run(bs, frames)[i].length == bs[i].length
    ensures Run(bs, frames)[i].pulseSpeed == bs[i].pulseSpeed
    ensures Run(bs, frames)[i].pulse == Grown(bs[i].pulse, bs[i].pulseSpeed, |frames|)
    decreases |frames|
  {
    if frames != [] {
      var next := Ticked(bs, frames[0]);
      TickedFields(bs, frames[0], i);
      RunPulse(next, frames[1..], i);
      GrownShift(bs[i].pulse, bs[i].pulseSpeed, |frames| - 1);
    }
  }

  /** A run keeps every beam in the live-beam ranges. */
  lemma {:induction false} RunPlausible(bs: seq<Beam>, frames: seq<Frame>)
    requires AllFit(frames, |bs|) && AllPlausible(bs)
    ensures AllPlausible(Run(bs, frames))
    decreases |frames|
  {
    if frames != [] {
      TickedPlausible(bs, frames[0]);
      RunPlausible(Ticked(bs, frames[0]), frames[1..]);
    }
  }

  /** The pulse of every beam never decreases from one frame of a run to a later one. */
  lemma PulseNonDecreasing(bs: seq<Beam>, frames: seq<Frame>, j: nat, m: nat, i: nat)
    requires AllFit(frames, |bs|) && AllPlausible(bs)
    requires j <= m <= |frames| && i < |bs|
    ensures Run(bs, frames[..j])[i].pulse <= Run(bs, frames[..m])[i].pulse
  {
    var early, later := frames[..j], frames[..m];
    assert AllFit(early, |bs|);
    assert AllFit(later, |bs|);
    RunPulse(bs, early, i);
    RunPulse(bs, later, i);
    assert Plausible(bs[i]);
    GrownMonotone(bs[i].pulse, bs[i].pulseSpeed, |early|, |later|);
  }
}
