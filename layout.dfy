/** The layout arithmetic of index.js: per-slide x-offsets (`_getOffsets`),
    the animation targets built from them (`_setOffsets`), the track length
    (`_setTrackLength`) and the track translation (`_moveTrack`). */
module Layout {
  import opened Width

  /** Which side of the active slide a slide sits on: -1 before, 0 on, 1 after. */
  function Side(i: int, active: int): int
  {
    if i < active then -1 else if i > active then 1 else 0
  }

  /** The x-offset of slide `i` when slide `active` is active and slides are
      `sw` wide. Every slide advances by one shrunk width and one margin per
      index; the slides before the active one are pulled left, and those after
      it pushed right, by half of what the shrink takes off a slide. The
      `i == 0` branch agrees with the general formula for slides before the
      active one, and the last branch of the source is unreachable. */
  function Offset(i: int, active: int, sw: real, o: Options): (r: real)
    ensures r == (sw * o.inactiveScaling + o.margin) * i as real + o.margin
                 + Side(i, active) as real * (sw - sw * o.inactiveScaling) / 2.0
  {
    var scaled := sw * o.inactiveScaling;
    var margin := o.margin;
    var base :=
      if i == active then scaled * i as real + margin
      else if i > active then scaled * i as real + (sw - scaled) / 2.0 + margin
      else if i == 0 then -(sw - scaled) / 2.0 + margin
      else if i < active then scaled * i as real - (sw - scaled) / 2.0 + margin
      else assert false; scaled * i as real;
    base + margin * i as real
  }

  /** One offset per slide (the `map` over the slide list). */
  function Offsets(n: nat, active: int, sw: real, o: Options): (r: seq<real>)
    ensures |r| == n
    ensures forall i :: 0 <= i < n ==> r[i] == Offset(i, active, sw, o)
  {
    seq(n, i requires 0 <= i < n => Offset(i, active, sw, o))
  }

  /** The layout parameters under which slides keep their left-to-right order. */
  predicate Ordered(sw: real, o: Options)
  {
    sw > 0.0 && 0.0 < o.inactiveScaling <= 1.0 && o.margin >= 0.0
  }

  /** The distance from slide `i` to slide `i + 1`: one shrunk width and one
      margin, plus half the shrink when one of the two is the active slide. */
  lemma OffsetGap(i: int, active: int, sw: real, o: Options)
    ensures Offset(i + 1, active, sw, o) - Offset(i, active, sw, o) ==
      sw * o.inactiveScaling + o.margin
      + (if i + 1 == active || i == active then (sw - sw * o.inactiveScaling) / 2.0 else 0.0)
  {
    var c := sw * o.inactiveScaling + o.margin;
    assert c * (i + 1) as real == c * i as real + c;
  }

  /** The gap just before the active slide equals the gap just after it. */
  lemma GapsAroundActive(n: nat, active: nat, sw: real, o: Options)
    requires 0 < active < n
    ensures var r := Offsets(n, active, sw, o);
      r[active] - r[active - 1] == sw * o.inactiveScaling + (sw - sw * o.inactiveScaling) / 2.0 + o.margin
    ensures var r := Offsets(n, active, sw, o);
      active + 1 < n ==> r[active + 1] - r[active] == r[active] - r[active - 1]
  {
    OffsetGap(active - 1, active, sw, o);
    OffsetGap(active, active, sw, o);
  }

  /** Away from the active slide, neighbours are one shrunk width and one
      margin apart. */
  lemma GapAwayFromActive(n: nat, active: int, i: nat, sw: real, o: Options)
    requires i + 1 < n && i + 1 != active && i != active
    ensures var r := Offsets(n, active, sw, o);
      r[i + 1] - r[i] == sw * o.inactiveScaling + o.margin
  {
    OffsetGap(i, active, sw, o);
  }

  /** Under `Ordered`, every slide lies strictly right of its predecessor. */
  lemma GapPositive(i: int, active: int, sw: real, o: Options)
    requires Ordered(sw, o)
    ensures Offset(i, active, sw, o) < Offset(i + 1, active, sw, o)
  {
    OffsetGap(i, active, sw, o);
    var scaled := sw * o.inactiveScaling;
    assert scaled > 0.0;
    assert scaled <= sw by { assert sw * o.inactiveScaling <= sw * 1.0; }
  }

  /** A sequence that grows at every step grows between any two indices. */
  lemma {:induction false} StepsIncrease(r: seq<real>, i: nat, j: nat)
    requires forall k :: 0 <= k < |r| - 1 ==> r[k] < r[k + 1]
    requires i < j < |r|
    ensures r[i] < r[j]
    decreases j - i
  {
    if i < j - 1 {
      StepsIncrease(r, i, j - 1);
    }
  }

  /** With positive widths, a shrink factor in (0, 1] and a non-negative
      margin, the offsets strictly increase with the slide index. */
  lemma OffsetsIncrease(n: nat, active: int, sw: real, o: Options)
    requires Ordered(sw, o)
    ensures var r := Offsets(n, active, sw, o);
      forall i, j :: 0 <= i < j < n ==> r[i] < r[j]
  {
    var r := Offsets(n, active, sw, o);
    forall k | 0 <= k < n - 1 ensures r[k] < r[k + 1] {
      GapPositive(k, active, sw, o);
    }
    forall i, j | 0 <= i < j < n ensures r[i] < r[j] {
      StepsIncrease(r, i, j);
    }
  }

  /** With the first slide active, it sits exactly one margin in. */
  lemma FirstSlideAtMargin(n: nat, sw: real, o: Options)
    requires n > 0
    ensures Offsets(n, 0, sw, o)[0] == o.margin
  {
  }

  /** What `_setOffsets` hands to the animation engine for one slide. */
  datatype Target = Target(x: real, opacity: real, scale: real)

  /** The targets for all slides: each at its offset, fully opaque, and at
      full scale exactly when it is the active slide. */
  function Targets(offsets: seq<real>, active: int, scaling: real): (r: seq<Target>)
    ensures |r| == |offsets|
    ensures forall i :: 0 <= i < |r| ==> r[i].x == offsets[i] && r[i].opacity == 1.0
    ensures forall i :: 0 <= i < |r| ==> r[i].scale == (if i == active then 1.0 else scaling)
  {
    seq(|offsets|, i requires 0 <= i < |offsets| => Target(offsets[i], 1.0, if i == active then 1.0 else scaling))
  }

  /** When inactive slides shrink, the active slide is the only full-size one. */
  lemma OnlyActiveAtFullScale(offsets: seq<real>, active: int, scaling: real, i: int)
    requires scaling != 1.0 && 0 <= i < |offsets|
    ensures Targets(offsets, active, scaling)[i].scale == 1.0 <==> i == active
  {
  }

  /** `_setTrackLength`: the track is as long as all slides at full width. */
  function TrackLength(sw: real, n: nat): (r: real)
    ensures n > 0 ==> r / n as real == sw
  {
    sw * n as real
  }

  /** The direction `_mapState` passes to `_moveTrack`. */
  datatype Direction = Left | Right

  /** The track translation `_moveTrack` computes before flooring it, from the
      track's and the active slide's current bounding-box x. Moving right adds
      half a shrunk slide and takes a margin off; otherwise a margin is added. */
  function TrackOffset(dir: Direction, trackX: real, slideX: real, sw: real, o: Options): (r: real)
    ensures r - (trackX - slideX) == if dir == Right then sw * o.inactiveScaling / 2.0 - o.margin else o.margin
  {
    if dir == Right then (trackX - slideX) + (sw * o.inactiveScaling) / 2.0 - o.margin
    else trackX - slideX + o.margin
  }

  /** The right-hand correction differs from the other by half a shrunk slide
      less two margins. */
  lemma RightCorrection(trackX: real, slideX: real, sw: real, o: Options)
    ensures TrackOffset(Right, trackX, slideX, sw, o) ==
      TrackOffset(Left, trackX, slideX, sw, o) + sw * o.inactiveScaling / 2.0 - 2.0 * o.margin
  {
  }

  /** `Math.floor` of the translation: the greatest integer not above it. */
  function TrackTarget(dir: Direction, trackX: real, slideX: real, sw: real, o: Options): (r: int)
    ensures r as real <= TrackOffset(dir, trackX, slideX, sw, o) < r as real + 1.0
  {
    TrackOffset(dir, trackX, slideX, sw, o).Floor
  }
}
