/** The slider's state record and how the arrow commands change it: the
    record `{ slides, styledSlides, activeSlide }`, the shallow merge
    `_setState` performs, `clamp`, the two arrow updaters and the direction
    `_mapState` derives from the previous and the new record. */
module SliderState {
  import opened Wrappers
  import opened Layout

  /** A slide element of the page, and the animation handle made for it;
      both are opaque to the slider. */
  datatype Slide = Slide(element: int)
  datatype Styler = Styler(handle: int)

  /** The state record. */
  datatype State = State(slides: seq<Slide>, styledSlides: seq<Styler>, activeSlide: int)

  /** A partial record: the fields an updater returns. */
  datatype Patch = Patch(slides: Option<seq<Slide>>, styledSlides: Option<seq<Styler>>, activeSlide: Option<int>)

  /** What `_setState` accepts: a function of the current record, or a record. */
  datatype Update = Updater(f: State -> Patch) | Replacement(p: Patch)

  /** A state the slider can be in: a non-empty slide list, one handle per
      slide, and an active index inside the list. */
  predicate ValidState(s: State)
  {
    |s.slides| > 0 && |s.styledSlides| == |s.slides| && 0 <= s.activeSlide < |s.slides|
  }

  function Pick<T>(o: Option<T>, otherwise: T): T
  {
    match o
    case Some(v) => v
    case None => otherwise
  }

  /** `{ ...s, ...p }`: a field the patch carries replaces the old one; every
      other field is kept. */
  function Merge(s: State, p: Patch): (r: State)
    ensures p.slides.None? ==> r.slides == s.slides
    ensures p.styledSlides.None? ==> r.styledSlides == s.styledSlides
    ensures p.activeSlide.None? ==> r.activeSlide == s.activeSlide
    ensures p.slides.Some? ==> r.slides == p.slides.value
    ensures p.styledSlides.Some? ==> r.styledSlides == p.styledSlides.value
    ensures p.activeSlide.Some? ==> r.activeSlide == p.activeSlide.value
  {
    State(Pick(p.slides, s.slides), Pick(p.styledSlides, s.styledSlides), Pick(p.activeSlide, s.activeSlide))
  }

  /** `{ ...p, ...q }` for two partial records. */
  function Combine(p: Patch, q: Patch): Patch
  {
    Patch(
      if q.slides.Some? then q.slides else p.slides,
      if q.styledSlides.Some? then q.styledSlides else p.styledSlides,
      if q.activeSlide.Some? then q.activeSlide else p.activeSlide)
  }

  /** Merging two patches one after the other is merging their combination;
      an empty patch changes nothing, and merging the same patch twice is
      merging it once. */
  lemma MergeLaws(s: State, p: Patch, q: Patch)
    ensures Merge(Merge(s, p), q) == Merge(s, Combine(p, q))
    ensures Merge(s, Patch(None, None, None)) == s
    ensures Merge(Merge(s, p), p) == Merge(s, p)
  {
  }

  /** The fields an update supplies, given the current record. */
  function Resolve(u: Update, s: State): Patch
  {
    match u
    case Updater(f) => f(s)
    case Replacement(p) => p
  }

  /** The record `_setState` installs. */
  function Apply(u: Update, s: State): (r: State)
    ensures Merge(r, Resolve(u, s)) == r
    ensures Resolve(u, s).slides.None? ==> r.slides == s.slides
    ensures Resolve(u, s).styledSlides.None? ==> r.styledSlides == s.styledSlides
    ensures Resolve(u, s).activeSlide.None? ==> r.activeSlide == s.activeSlide
  {
    Merge(s, Resolve(u, s))
  }

  /** `clamp(num, hi, lo)`: note the upper bound comes first. */
  function Clamp(num: int, hi: int, lo: int): (r: int)
    ensures lo <= hi ==> lo <= r <= hi
    ensures lo <= num <= hi ==> r == num
    ensures r == num || r == hi || r == lo
  {
    if num > hi then hi else if num < lo then lo else num
  }

  /** In a non-empty range, clamping gives the closest point of the range. */
  lemma ClampIsNearest(num: int, hi: int, lo: int, x: int)
    requires lo <= x <= hi
    ensures Clamp(num, hi, lo) - num <= (if x >= num then x - num else num - x)
    ensures num - Clamp(num, hi, lo) <= (if x >= num then x - num else num - x)
  {
  }

  /** The right arrow's updater. */
  function AdvancePatch(s: State): (p: Patch)
    ensures p.slides.None? && p.styledSlides.None?
    ensures ValidState(s) ==>
      p.activeSlide == Some(if s.activeSlide == |s.slides| - 1 then s.activeSlide else s.activeSlide + 1)
  {
    Patch(None, None, Some(Clamp(s.activeSlide + 1, |s.slides| - 1, 0)))
  }

  /** The left arrow's updater. */
  function RetreatPatch(s: State): (p: Patch)
    ensures p.slides.None? && p.styledSlides.None?
    ensures ValidState(s) ==>
      p.activeSlide == Some(if s.activeSlide == 0 then 0 else s.activeSlide - 1)
  {
    Patch(None, None, Some(Clamp(s.activeSlide - 1, |s.slides| - 1, 0)))
  }

  datatype Arrow = LeftArrow | RightArrow

  function ArrowUpdate(a: Arrow): Update
  {
    match a
    case LeftArrow => Updater(RetreatPatch)
    case RightArrow => Updater(AdvancePatch)
  }

  /** The record after one arrow click. */
  function Step(s: State, a: Arrow): State
  {
    Apply(ArrowUpdate(a), s)
  }

  /** The right arrow moves one slide on, except at the last slide; the slide
      lists are untouched and the state stays valid. */
  lemma AdvanceStep(s: State)
    requires ValidState(s)
    ensures ValidState(Step(s, RightArrow))
    ensures Step(s, RightArrow).slides == s.slides && Step(s, RightArrow).styledSlides == s.styledSlides
    ensures Step(s, RightArrow).activeSlide ==
      if s.activeSlide == |s.slides| - 1 then s.activeSlide else s.activeSlide + 1
  {
  }

  /** The left arrow moves one slide back, except at the first slide. */
  lemma RetreatStep(s: State)
    requires ValidState(s)
    ensures ValidState(Step(s, LeftArrow))
    ensures Step(s, LeftArrow).slides == s.slides && Step(s, LeftArrow).styledSlides == s.styledSlides
    ensures Step(s, LeftArrow).activeSlide == if s.activeSlide == 0 then 0 else s.activeSlide - 1
  {
  }

  /** The record after a run of clicks. */
  function Run(s: State, clicks: seq<Arrow>): State
    decreases |clicks|
  {
    if |clicks| == 0 then s else Run(Step(s, clicks[0]), clicks[1..])
  }

  /** However the arrows are clicked, the active slide stays in the list and
      the slide lists stay as they were. */
  lemma {:induction false} RunStaysValid(s: State, clicks: seq<Arrow>)
    requires ValidState(s)
    ensures ValidState(Run(s, clicks))
    ensures Run(s, clicks).slides == s.slides && Run(s, clicks).styledSlides == s.styledSlides
    decreases |clicks|
  {
    if |clicks| > 0 {
      var t := Step(s, clicks[0]);
      if clicks[0] == RightArrow { AdvanceStep(s); } else { RetreatStep(s); }
      RunStaysValid(t, clicks[1..]);
    }
  }

  function Min(a: int, b: int): int { if a < b then a else b }
  function Max(a: int, b: int): int { if a < b then b else a }

  /** `k` clicks on the right arrow advance `k` slides, stopping at the last. */
  lemma {:induction false} AdvanceRepeatedly(s: State, k: nat)
    requires ValidState(s)
    ensures Run(s, seq(k, _ => RightArrow)).activeSlide == Min(s.activeSlide + k, |s.slides| - 1)
    decreases k
  {
    if k > 0 {
      AdvanceStep(s);
      assert seq(k, _ => RightArrow)[1..] == seq(k - 1, _ => RightArrow);
      AdvanceRepeatedly(Step(s, RightArrow), k - 1);
    }
  }

  /** `k` clicks on the left arrow go back `k` slides, stopping at the first. */
  lemma {:induction false} RetreatRepeatedly(s: State, k: nat)
    requires ValidState(s)
    ensures Run(s, seq(k, _ => LeftArrow)).activeSlide == Max(s.activeSlide - k, 0)
    decreases k
  {
    if k > 0 {
      RetreatStep(s);
      assert seq(k, _ => LeftArrow)[1..] == seq(k - 1, _ => LeftArrow);
      RetreatRepeatedly(Step(s, LeftArrow), k - 1);
    }
  }

  /** `_mapState`'s choice: right exactly when the index grew. */
  function DirectionOf(prev: State, curr: State): (d: Direction)
    ensures d == Right <==> curr.activeSlide > prev.activeSlide
  {
    if curr.activeSlide > prev.activeSlide then Right else Left
  }

  /** An arrow click moves the track right exactly when it was the right arrow
      and the active slide was not the last; a clamped no-op and every left
      click give "left". */
  lemma ClickDirection(s: State, a: Arrow)
    requires ValidState(s)
    ensures DirectionOf(s, Step(s, a)) == Right <==> a == RightArrow && s.activeSlide < |s.slides| - 1
  {
    if a == RightArrow { AdvanceStep(s); } else { RetreatStep(s); }
  }
}
