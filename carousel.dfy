/** The `Slider` class of index.js: it owns the state record, the
    `isTransitioning` flag, and what it last handed to the animation engine
    (one target per slide, one for the track) and to the track's style. Page
    reads (the container's client width, bounding-box x positions) arrive as
    parameters. */
module Carousel {
  import opened Wrappers
  import opened Width
  import opened Layout
  import opened SliderState

  class Slider {
    const options: Options
    var state: State
    var isTransitioning: bool
    /** The `to` values of the tweens the last `_setOffsets` started, per slide. */
    var slideTargets: seq<Target>
    /** The `to.x` of the last track tween, once the track has moved. */
    var trackTarget: Option<int>
    /** The width last written to the track's style. */
    var trackLength: real

    ghost predicate Valid()
      reads this
    {
      Supported(options) && ValidState(state)
    }

    /** The targets `_setOffsets` computes for the current record. */
    ghost function LayoutTargets(clientWidth: real): seq<Target>
      reads this
      requires Valid()
    {
      Targets(Offsets(|state.slides|, state.activeSlide, WidthOf(clientWidth, options), options),
              state.activeSlide, options.inactiveScaling)
    }

    /** Construction and `_init`: the first slide is active, the track gets
        its length and every slide its first target. */
    constructor (slides: seq<Slide>, styledSlides: seq<Styler>, options: Options, clientWidth: real)
      requires |slides| > 0 && |styledSlides| == |slides|
      requires Supported(options)
      ensures Valid()
      ensures this.options == options && state == State(slides, styledSlides, 0)
      ensures !isTransitioning && trackTarget == None
      ensures trackLength == TrackLength(WidthOf(clientWidth, options), |slides|)
      ensures slideTargets == LayoutTargets(clientWidth)
    {
      this.options := options;
      state := State(slides, styledSlides, 0);
      isTransitioning := false;
      slideTargets := [];
      trackTarget := None;
      trackLength := 0.0;
      new;
      var w := WidthOf(clientWidth, options);
      SetTrackLength(w);
      SetOffsets(clientWidth);
    }

    /** `_setTrackLength`. */
    method SetTrackLength(slideWidth: real)
      modifies this`trackLength
      ensures trackLength == TrackLength(slideWidth, |state.slides|)
    {
      trackLength := slideWidth * |state.slides| as real;
    }

    /** `_setOffsets`: one tween per styled slide, towards its offset, full
        opacity, and full scale for the active slide only. */
    method SetOffsets(clientWidth: real)
      requires Valid()
      modifies this`slideTargets
      ensures slideTargets == LayoutTargets(clientWidth)
    {
      var slideWidth := WidthOf(clientWidth, options);
      var leftOffset := Offsets(|state.slides|, state.activeSlide, slideWidth, options);
      var started: seq<Target> := [];
      var i := 0;
      while i < |state.styledSlides|
        invariant 0 <= i <= |state.styledSlides|
        invariant |started| == i
        invariant forall k :: 0 <= k < i ==>
          started[k] == Target(leftOffset[k], 1.0, if k == state.activeSlide then 1.0 else options.inactiveScaling)
      {
        var scale := if i == state.activeSlide then 1.0 else options.inactiveScaling;
        started := started + [Target(leftOffset[i], 1.0, scale)];
        i := i + 1;
      }
      slideTargets := started;
    }

    /** `_moveTrack`: `slideX` is the bounding-box x of the slide that is
        active when it runs, `trackX` that of the track. */
    method MoveTrack(direction: Direction, clientWidth: real, trackX: real, slideX: real)
      requires Valid()
      modifies this`trackTarget
      ensures trackTarget == Some(TrackTarget(direction, trackX, slideX, WidthOf(clientWidth, options), options))
    {
      var slideWidth := WidthOf(clientWidth, options);
      var offset := TrackOffset(direction, trackX, slideX, slideWidth, options);
      trackTarget := Some(offset.Floor);
    }

    /** `_mapState`: move the track in the direction the index went, re-target
        the slides, and clear the transition flag. */
    method MapState(prev: State, curr: State, clientWidth: real, trackX: real, slideX: real)
      requires Valid() && curr == state
      modifies this`trackTarget, this`slideTargets, this`isTransitioning
      ensures trackTarget == Some(TrackTarget(DirectionOf(prev, curr), trackX, slideX, WidthOf(clientWidth, options), options))
      ensures slideTargets == LayoutTargets(clientWidth)
      ensures !isTransitioning
    {
      if curr.activeSlide > prev.activeSlide {
        MoveTrack(Right, clientWidth, trackX, slideX);
      } else {
        MoveTrack(Left, clientWidth, trackX, slideX);
      }
      SetOffsets(clientWidth);
      isTransitioning := false;
    }

    /** `_setState`: install the shallow merge of the update over the record,
        then hand the previous and the new record to `_mapState`. */
    method SetState(update: Update, clientWidth: real, trackX: real, slideX: real)
      requires Valid()
      requires ValidState(Apply(update, state))
      modifies this`state, this`trackTarget, this`slideTargets, this`isTransitioning
      ensures Valid()
      ensures state == Apply(update, old(state))
      ensures trackTarget == Some(TrackTarget(DirectionOf(old(state), state), trackX, slideX, WidthOf(clientWidth, options), options))
      ensures slideTargets == LayoutTargets(clientWidth)
      ensures !isTransitioning
    {
      var updatedState;
      match update {
        case Updater(f) => updatedState := Merge(state, f(state));
        case Replacement(p) => updatedState := Merge(state, p);
      }
      var prevState := state;
      state := updatedState;
      MapState(prevState, state, clientWidth, trackX, slideX);
    }

    /** The right arrow's click handler. */
    method Advance(clientWidth: real, trackX: real, slideX: real)
      requires Valid()
      modifies this`state, this`trackTarget, this`slideTargets, this`isTransitioning
      ensures Valid()
      ensures state.slides == old(state.slides) && state.styledSlides == old(state.styledSlides)
      ensures state.activeSlide ==
        if old(state.activeSlide) == |state.slides| - 1 then old(state.activeSlide) else old(state.activeSlide) + 1
      ensures trackTarget == Some(TrackTarget(
        if old(state.activeSlide) < |state.slides| - 1 then Right else Left,
        trackX, slideX, WidthOf(clientWidth, options), options))
      ensures slideTargets == LayoutTargets(clientWidth)
      ensures !isTransitioning
    {
      isTransitioning := true;
      AdvanceStep(state);
      SetState(Updater(AdvancePatch), clientWidth, trackX, slideX);
    }

    /** The left arrow's click handler: the track always moves "left". */
    method Retreat(clientWidth: real, trackX: real, slideX: real)
      requires Valid()
      modifies this`state, this`trackTarget, this`slideTargets, this`isTransitioning
      ensures Valid()
      ensures state.slides == old(state.slides) && state.styledSlides == old(state.styledSlides)
      ensures state.activeSlide == if old(state.activeSlide) == 0 then 0 else old(state.activeSlide) - 1
      ensures trackTarget == Some(TrackTarget(Left, trackX, slideX, WidthOf(clientWidth, options), options))
      ensures slideTargets == LayoutTargets(clientWidth)
      ensures !isTransitioning
    {
      isTransitioning := true;
      RetreatStep(state);
      SetState(Updater(RetreatPatch), clientWidth, trackX, slideX);
    }
  }

  /** Three quick clicks on the right arrow of a five-slide default slider in
      a 1000px container land on the fourth slide, with the first slide
      initially one margin in and the track five slides long. */
  method ThreeClicks(slides: seq<Slide>, styledSlides: seq<Styler>, trackX: real, slideX: real)
    requires |slides| == 5 && |styledSlides| == 5
  {
    DefaultWidth();
    var slider := new Slider(slides, styledSlides, DefaultOptions, 1000.0);
    assert slider.slideTargets[0].x == 10.0;
    assert slider.trackLength == 5.0 * (1706.0 / 7.0);
    slider.Advance(1000.0, trackX, slideX);
    slider.Advance(1000.0, trackX, slideX);
    slider.Advance(1000.0, trackX, slideX);
    assert slider.state.activeSlide == 3;
    assert !slider.isTransitioning;
  }
}
