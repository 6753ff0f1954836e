# nv-slider carousel, modelled in Dafny

nv-slider is a browser carousel. A `Slider` collects the slide elements of a
container and puts them on a horizontal track. The active slide is shown at
full size; every other slide is shrunk by `inactiveScaling`. The two arrow
controls move the active slide one place back or on. They never wrap around:
the index is clamped to the slide list. After each move the slider tweens
every slide towards a new offset and scale, and tweens the track so that the
active slide comes into view.

This project models the logic under that DOM and animation glue:

- `text.dfy` (module `Text`): the substring test the width dispatch uses
  (`/px/g.test`, `/%/g.test`), and `parseInt` as a scan of leading decimal
  digits, with its round trip against decimal rendering.
- `width.dfy` (module `Width`): `_calculateSlideWidth`. It has four width
  formulas and two thrown errors, and the `NaN` that `parseInt` produces
  when there are no digits.
- `layout.dfy` (module `Layout`): `_getOffsets`, the per-slide tween targets
  of `_setOffsets`, `_setTrackLength`, and the floored translation of
  `_moveTrack`.
- `slider_state.dfy` (module `SliderState`): the state record, the shallow
  merge `_setState` performs, `clamp`, the two arrow updaters, and
  `_mapState`'s choice of direction.
- `carousel.dfy` (module `Carousel`): the `Slider` class. It holds the
  record, the `isTransitioning` flag, the track length, and the last
  targets handed to the animation engine. Its methods mirror the source's
  methods and the two click handlers. `ThreeClicks` is a client: three
  right-arrow clicks on a default five-slide slider land on index 3.
- `wrappers.dfy` (module `Wrappers`): `Option` and `Result`.

The model uses `real` for JavaScript numbers. `NaN` appears only where
`parseInt` finds no digits. The container's client width and the
bounding-box x positions the source reads from the page are parameters.

Points where the code may differ from what a reader expects; the model follows
the code:
- A unit is recognised when it occurs anywhere in the string (a substring
  test), not only at its end.
- `px` is tested before `%`.
- A "<n>%" width divides the content width by n (index.js:45): "50%" gives
  `contWidth/50 - 2*margin`, not half of the content width.
- The 'auto' width starts from the `contWidth` expression of index.js:36. That is
  the client width divided by the shrink factor, less one slide's shrink share
  (`cw/slidesToShow - cw/slidesToShow*inactiveScaling`), less one margin per
  slide shown. It is then divided by `slidesToShow`, less two margins.
- The track length is `slideWidth * slides.length`.
- `isTransitioning` is set and cleared within one click handler and never
  blocks a command.

## Model

| member | source | states |
|---|---|---|
| `Text.Contains` | index.js:41-44 | the unit test is true exactly when the pattern occurs at some index of the option string, anywhere in it |
| `Text.LeadingDigits` | index.js:42 | `parseInt` reads the longest prefix made only of digits; the character after it, if any, is not a digit |
| `Text.ParseInt` | index.js:42-45 | `parseInt` of the option string: `NaN` (None) exactly when the string does not start with a digit, its value is fixed by `Text.ParseDecimal` and `Text.ParseLeadingZero` |
| `Text.ParseLeadingZero` | index.js:42-45 | `parseInt` skips a leading zero: "05px" reads as 5, and a zero followed by no digit reads as 0 |
| `Text.ParseDecimal` | index.js:42 | `parseInt` of a number written in decimal and followed by a non-digit suffix such as "px" or "%" gives back that number |
| `Width.ContentWidth` | index.js:36 | `contWidth`: the client width times `1/inactiveScaling - (1 - inactiveScaling)/slidesToShow`, less `margin * slidesToShow` |
| `Width.SlideWidth` | index.js:33-52 | the dispatch: it throws exactly for a value that is neither string nor number, or a non-'auto' string with neither "px" nor "%"; it gives `NaN` exactly for a px or % string without leading digits; a px string with leading digits gives its parsed integer; 'auto' gives the content width divided by `slidesToShow`, less two margins; a number gives itself less two margins; a string containing "%" but not "px" with leading digits n (such as "33.3%", "05%" or "50% ") gives the content width divided by n, less two margins |
| `Width.AutoWidth` | index.js:36-38 | for every client width, 'auto' gives `cw * ContentFactor / slidesToShow - 3*margin`: one margin comes off through the content width and two off the slide |
| `Width.NumberWidth` | index.js:48-49 | a numeric `slideWidth` x gives `x - 2*margin` at every client width |
| `Width.SupportedIffFinite` | index.js:33-52 | the dispatch yields a finite width exactly for 'auto', a px or % string with leading digits, or a number |
| `Width.WidthOf` | index.js:33-52 | for a supported configuration the dispatch succeeds with a finite width |
| `Width.FailsExactly` | index.js:47-51 | "measuring unit not supported" exactly for a non-'auto' string with neither "px" nor "%"; "width type not valid" exactly for a value that is neither a string nor a number |
| `Width.PixelWidthIgnoresContainer` | index.js:41-43 | a string containing "px" gives the same result for every client width, namely its parsed leading integer |
| `Width.PixelWidth` | index.js:41-43 | "<n>px" gives the width n for every client width |
| `Width.PercentWidth` | index.js:44-46 | "<n>%" gives the derived content width divided by n, less two margins |
| `Width.UnknownUnitRefused` | index.js:47 | "10em" is refused with "measuring unit not supported" |
| `Width.AutoWidthGrowsWithContainer` | index.js:35-39 | with the shrink factor in (0, 1] and at least one slide shown, 'auto' slides are strictly wider in a strictly wider container |
| `Width.DefaultWidth` | index.js:33-39 | the default options in a 1000px container give 'auto' slides 1706/7 px wide |
| `Layout.Offset` | index.js:76-87 | each offset is one shrunk width plus one margin per index, plus a margin, and slides before the active one are moved left, those after it moved right (away from it), by half of what the shrink takes off a slide; the `i === 0` branch agrees with the general before-active formula, and the final `else` is unreachable |
| `Layout.Offsets` | index.js:70-89 | exactly one offset per slide, each that of its own index |
| `Layout.OffsetGap` | index.js:76-88 | neighbouring slides are one shrunk width plus one margin apart, plus half the shrink when one of them is the active slide |
| `Layout.GapsAroundActive` | index.js:76-88 | the gap just before the active slide is `sw + (slideWidth - sw)/2 + margin` (`sw` being the shrunk width), and the gap just after it is the same |
| `Layout.GapAwayFromActive` | index.js:78-88 | away from the active slide, neighbours are one shrunk width plus one margin apart |
| `Layout.OffsetsIncrease` | index.js:70-89 | with a positive width, a shrink factor in (0, 1] and a non-negative margin, offsets strictly increase with the index |
| `Layout.FirstSlideAtMargin` | index.js:76-77 | with the first slide active, its offset is the margin |
| `Layout.Targets` | index.js:96-101 | one target per slide: its offset, opacity 1, and scale 1 for the active slide or `inactiveScaling` otherwise |
| `Layout.OnlyActiveAtFullScale` | index.js:99 | when slides shrink, a slide's target scale is 1 exactly when it is the active slide |
| `Layout.TrackLength` | index.js:105 | the track length is `slideWidth * slides.length`: each slide takes one full, unshrunk slide width of track |
| `Layout.TrackOffset` | index.js:115-117 | the translation is the track-to-slide distance `trackX - slx` plus a correction: `slideWidth*inactiveScaling/2 - margin` for "right", `margin` otherwise |
| `Layout.RightCorrection` | index.js:115-117 | moving right places the track half a shrunk slide less two margins further than moving left |
| `Layout.TrackTarget` | index.js:115-120 | the track's target is the greatest integer not above the translation |
| `SliderState.Apply` | index.js:167-177 | the record `_setState` installs, for an updater function or a plain object alike: every field the update does not return is kept, and re-applying the update's fields changes nothing |
| `SliderState.Merge` | index.js:165-177 | a field the update returns replaces the old one, and every other field is kept |
| `SliderState.MergeLaws` | index.js:165-177 | merging two updates in turn is merging their spread; an empty update changes nothing; merging the same update twice is merging it once |
| `SliderState.Clamp` | index.js:27-31 | with `lo <= hi` the result lies in `[lo, hi]`; a value already in range is returned unchanged; the result is always the value or one of the bounds |
| `SliderState.ClampIsNearest` | index.js:27-31 | no point of `[lo, hi]` is closer to the value than the clamped result |
| `SliderState.AdvancePatch` | index.js:150-154 | the right arrow's updater returns only `activeSlide`; for a valid record it is the next index, or the last index again at the end |
| `SliderState.RetreatPatch` | index.js:142-146 | the left arrow's updater returns only `activeSlide`; for a valid record it is the previous index, or 0 again at the start |
| `SliderState.AdvanceStep` | index.js:148-155 | the right arrow moves the index on by one, except at the last slide, where it stays; the slide lists are unchanged and the index stays in range |
| `SliderState.RetreatStep` | index.js:140-147 | the left arrow moves the index back by one, except at slide 0, where it stays; the slide lists are unchanged and the index stays in range |
| `SliderState.RunStaysValid` | index.js:140-155 | after any run of arrow clicks the index is within `[0, slides.length-1]` and the slide lists are unchanged |
| `SliderState.AdvanceRepeatedly` | index.js:148-155 | k right clicks move the index to `min(index + k, slides.length - 1)` |
| `SliderState.RetreatRepeatedly` | index.js:140-147 | k left clicks move the index to `max(index - k, 0)` |
| `SliderState.DirectionOf` | index.js:183-188 | the direction is "right" exactly when the new index is greater than the old one |
| `SliderState.ClickDirection` | index.js:140-155 | a click moves the track "right" exactly when it is the right arrow and the active slide was not the last; clamped no-ops and left clicks give "left" |
| `Carousel.Slider.constructor` | index.js:4-25 | the slider starts at slide 0, not transitioning, with the track length and one target per slide computed from the first width |
| `Carousel.Slider.SetTrackLength` | index.js:104-107 | the track's length becomes the slide width times the number of slides |
| `Carousel.Slider.SetOffsets` | index.js:91-102 | every slide's tween target becomes the layout target for the current record |
| `Carousel.Slider.MoveTrack` | index.js:109-122 | the track's tween target becomes the floored translation for the given direction |
| `Carousel.Slider.MapState` | index.js:183-191 | the track moves in the direction derived from the two records, the slides are re-targeted, and `isTransitioning` is false |
| `Carousel.Slider.SetState` | index.js:165-181 | the new record is the shallow merge of the update over the old one; the direction is derived from the old record; `isTransitioning` is false afterwards |
| `Carousel.Slider.Advance` | index.js:148-155 | the index moves on by one or stays at the last slide; the slide lists are unchanged; the track moves "right" exactly when the index grew; `isTransitioning` is false when the handler returns |
| `Carousel.Slider.Retreat` | index.js:140-147 | the index moves back by one or stays at 0; the slide lists are unchanged; the track moves "left"; `isTransitioning` is false when the handler returns |

## Left out

- DOM construction and styling are not modelled: `_createArrows`, `_setHeight`, `_setSlideWidth`, and appending the slides and the track (index.js:55-68, 124-126, 131-133). They only render.
- The animation engine (popmotion `spring` and `styler`) is not modelled. The model records only the `to` targets handed to each tween. The `from` values read from the stylers and the tween itself are outside the model.
- The `load` and `resize` listeners and the click registration (index.js:139-162) are not modelled. The resize handler only re-runs the width, track-length and offset computations modelled here.
- `getBoundingClientRect().x` and `clientWidth` are page reads. They are method parameters.
- Numbers are `real`, so there is no IEEE-754 rounding. `NaN` is kept only for `parseInt` without digits. A zero divisor (`slidesToShow` or `inactiveScaling` of 0, or "0%") gives Infinity or NaN in JavaScript; `Width.NoDivisionByZero` excludes it. A numeric `slideWidth` of NaN or Infinity is not modelled.
- Text.ParseInt: reads only leading decimal digits. It does not skip leading whitespace, read a sign or a radix prefix, so "-5px" gives NaN here but -5 in JavaScript.
- Carousel.Slider.constructor: requires a non-empty slide list and a configuration for which `Width.Supported` holds. With zero slides, `clamp(..., -1, 0)` would give an index of -1. Of the configurations `Supported` excludes, only two make the JavaScript constructor throw: a unit it does not support (`UnitNotSupported`) and a width that is neither string nor number (`WidthTypeNotValid`), both modelled by `Width.SlideWidth`. The others do not throw. A px or % string without leading digits lays out with `NaN` widths. A zero `slidesToShow` or `inactiveScaling`, or "0%", lays out with Infinity or `NaN`. The slider built from those is not modelled.
- Carousel.Slider.SetState: requires that the merged record still has slides and an index inside them. Otherwise `_moveTrack` would fail reading the bounding box of a missing slide. Only the arrow updaters, which keep this, call it in the source.
- `arrows: false` makes `_init` fail at index.js:140, because the arrow elements are never created. That failure is not modelled.
- Options are modelled as a complete record of all five fields. In the source the `options` parameter's default (index.js:4-10) is replaced wholesale by a caller's object, not merged with it. A field the caller leaves out is `undefined`. A missing `margin`, `slidesToShow` or `inactiveScaling` makes every width and offset `NaN`. A missing `arrows` leaves the arrow elements uncreated, and the constructor then fails at index.js:140. None of that is modelled.
- Layout.TrackLength: states only the product of index.js:105. Whether the track is long enough to hold every offset slide depends on the page's CSS, which is not part of this model.
