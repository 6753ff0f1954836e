/** The slide-width dispatch of index.js (`_calculateSlideWidth`): the
    `slideWidth` option selects one of four formulas or one of two errors. */
module Width {
  import opened Wrappers
  import opened Text

  /** The `slideWidth` option, as JavaScript's `typeof` tells its kinds apart. */
  datatype WidthOption = Str(s: string) | Num(n: real) | OtherType

  /** The configuration object handed to the constructor. */
  datatype Options = Options(
    margin: real,
    slidesToShow: real,
    slideWidth: WidthOption,
    arrows: bool,
    inactiveScaling: real)

  /** The constructor's default configuration. */
  const DefaultOptions := Options(10.0, 5.0, Str("auto"), true, 0.7)

  /** A JavaScript number as far as this model needs one: `parseInt` of a
      string without leading digits gives `NaN`, which then propagates. */
  datatype Number = Finite(value: real) | NaN

  /** The two `Error`s the dispatch throws. */
  datatype WidthError = UnitNotSupported | WidthTypeNotValid

  /** The container width the 'auto' and percent formulas start from: the
      client width scaled up by the inactive shrink factor, less the shrink of
      one slide's share, less one margin per slide shown. */
  function ContentWidth(cw: real, o: Options): (r: real)
    requires o.inactiveScaling != 0.0 && o.slidesToShow != 0.0
    ensures r == cw * ContentFactor(o) - o.margin * o.slidesToShow
  {
    var s, n := o.inactiveScaling, o.slidesToShow;
    assert cw / s == cw * (1.0 / s);
    assert cw / n - cw / n * s == cw * ((1.0 - s) / n);
    (cw / o.inactiveScaling) - (cw / o.slidesToShow - (cw / o.slidesToShow * o.inactiveScaling))
      - (o.margin * o.slidesToShow)
  }

  /** What each unit of client width adds to the content width. */
  function ContentFactor(o: Options): real
    requires o.inactiveScaling != 0.0 && o.slidesToShow != 0.0
  {
    1.0 / o.inactiveScaling - (1.0 - o.inactiveScaling) / o.slidesToShow
  }

  /** The string kinds, in the order the dispatch tests them. */
  predicate IsAuto(w: string) { w == "auto" }
  predicate IsPixels(w: string) { !IsAuto(w) && Contains(w, "px") }
  predicate IsPercent(w: string) { !IsAuto(w) && !Contains(w, "px") && Contains(w, "%") }

  /** The divisions the chosen formula performs have non-zero divisors. A
      zero divisor gives Infinity or NaN in JavaScript, not an error; this
      model does not follow those values. */
  predicate NoDivisionByZero(o: Options)
  {
    match o.slideWidth
    case Str(w) =>
      && (IsAuto(w) || IsPercent(w) ==> o.inactiveScaling != 0.0 && o.slidesToShow != 0.0)
      && (IsPercent(w) ==> ParseInt(w) != Some(0))
    case _ => true
  }

  /** `_calculateSlideWidth` for client width `cw`. */
  function SlideWidth(cw: real, o: Options): (r: Result<Number, WidthError>)
    requires NoDivisionByZero(o)
    ensures r.Failure? <==> (o.slideWidth.OtherType? ||
      (o.slideWidth.Str? && !IsAuto(o.slideWidth.s) && !Contains(o.slideWidth.s, "px") && !Contains(o.slideWidth.s, "%")))
    ensures r == Success(NaN) <==> (o.slideWidth.Str? &&
      (IsPixels(o.slideWidth.s) || IsPercent(o.slideWidth.s)) && ParseInt(o.slideWidth.s).None?)
    ensures o.slideWidth.Str? && IsPixels(o.slideWidth.s) && ParseInt(o.slideWidth.s).Some? ==>
      r == Success(Finite(ParseInt(o.slideWidth.s).value as real))
    ensures o.slideWidth == Str("auto") ==>
      r == Success(Finite((cw * ContentFactor(o) - o.margin * o.slidesToShow) / o.slidesToShow - o.margin * 2.0))
    ensures o.slideWidth.Num? ==> r == Success(Finite(o.slideWidth.n - o.margin * 2.0))
    ensures o.slideWidth.Str? && IsPercent(o.slideWidth.s) && ParseInt(o.slideWidth.s).Some? ==>
      r == Success(Finite(ContentWidth(cw, o) / (ParseInt(o.slideWidth.s).value as real) - o.margin * 2.0))
  {
    match o.slideWidth
    case Str(w) =>
      if IsAuto(w) then
        Success(Finite(ContentWidth(cw, o) / o.slidesToShow - o.margin * 2.0))
      else if Contains(w, "px") then
        match ParseInt(w)
        case Some(n) => Success(Finite(n as real))
        case None => Success(NaN)
      else if Contains(w, "%") then
        match ParseInt(w)
        case Some(n) => Success(Finite(ContentWidth(cw, o) / (n as real) - o.margin * 2.0))
        case None => Success(NaN)
      else
        Failure(UnitNotSupported)
    case Num(x) => Success(Finite(x - o.margin * 2.0))
    case OtherType => Failure(WidthTypeNotValid)
  }

  /** The configurations for which the dispatch yields a finite width. */
  predicate Supported(o: Options)
  {
    && NoDivisionByZero(o)
    && match o.slideWidth
       case Str(w) => IsAuto(w) || ((IsPixels(w) || IsPercent(w)) && ParseInt(w).Some?)
       case Num(_) => true
       case OtherType => false
  }

  /** Exactly the supported configurations give a finite width, whatever the
      container's width. */
  lemma SupportedIffFinite(cw: real, o: Options)
    requires NoDivisionByZero(o)
    ensures Supported(o) <==> SlideWidth(cw, o).Success? && SlideWidth(cw, o).value.Finite?
  {
  }

  /** The width of a supported configuration, as a plain real. */
  function WidthOf(cw: real, o: Options): (r: real)
    requires Supported(o)
    ensures SlideWidth(cw, o) == Success(Finite(r))
  {
    match SlideWidth(cw, o)
    case Success(Finite(v)) => v
    case _ => assert false; 0.0
  }

  /** The dispatch throws exactly for a non-'auto' string with neither unit,
      and for a value that is neither a string nor a number. */
  lemma FailsExactly(cw: real, o: Options)
    requires NoDivisionByZero(o)
    ensures SlideWidth(cw, o) == Failure(UnitNotSupported) <==>
      o.slideWidth.Str? && !IsAuto(o.slideWidth.s) && !Contains(o.slideWidth.s, "px") && !Contains(o.slideWidth.s, "%")
    ensures SlideWidth(cw, o) == Failure(WidthTypeNotValid) <==> o.slideWidth.OtherType?
  {
  }

  /** A pixel string yields its leading integer and never reads the container. */
  lemma PixelWidthIgnoresContainer(cw1: real, cw2: real, o: Options)
    requires o.slideWidth.Str? && IsPixels(o.slideWidth.s)
    ensures SlideWidth(cw1, o) == SlideWidth(cw2, o)
    ensures ParseInt(o.slideWidth.s).Some? ==> SlideWidth(cw1, o) == Success(Finite(ParseInt(o.slideWidth.s).value as real))
  {
  }

  /** "<n>px" is the number n, for every container width. */
  lemma {:induction false} PixelWidth(cw: real, o: Options, n: nat)
    requires o.slideWidth == Str(Decimal(n) + "px")
    ensures NoDivisionByZero(o)
    ensures SlideWidth(cw, o) == Success(Finite(n as real))
  {
    var w := Decimal(n) + "px";
    assert w[..|Decimal(n)|] == Decimal(n);
    DecimalHasNoNonDigit(n, 'a', 0);
    assert !IsAuto(w);
    assert OccursAt(w, "px", |Decimal(n)|);
    ParseDecimal(n, "px");
  }

  /** "<n>%" divides the derived container width by n, less two margins. */
  lemma {:induction false} PercentWidth(cw: real, o: Options, n: nat)
    requires o.slideWidth == Str(Decimal(n) + "%")
    requires n != 0 && o.inactiveScaling != 0.0 && o.slidesToShow != 0.0
    ensures NoDivisionByZero(o)
    ensures SlideWidth(cw, o) == Success(Finite(ContentWidth(cw, o) / (n as real) - o.margin * 2.0))
  {
    var w := Decimal(n) + "%";
    var k := |Decimal(n)|;
    assert w[..k] == Decimal(n);
    DecimalHasNoNonDigit(n, 'a', 0);
    assert !IsAuto(w);
    assert OccursAt(w, "%", k);
    forall i: nat ensures !OccursAt(w, "px", i) {
      if i + 2 <= |w| {
        assert w[i..i + 2][0] == w[i];
        if i < k {
          DecimalHasNoNonDigit(n, 'p', i);
        }
      }
    }
    ParseDecimal(n, "%");
  }

  /** An unknown unit is refused rather than guessed. */
  lemma UnknownUnitRefused(cw: real, o: Options)
    requires o.slideWidth == Str("10em")
    ensures NoDivisionByZero(o)
    ensures SlideWidth(cw, o) == Failure(UnitNotSupported)
  {
    var w := "10em";
    forall i: nat ensures !OccursAt(w, "px", i) {
      if i + 2 <= |w| {
        assert w[i] in {'1', '0', 'e'};
        assert w[i..i + 2][0] == w[i];
      }
    }
    forall i: nat ensures !OccursAt(w, "%", i) {
      if i + 1 <= |w| {
        assert w[i] in {'1', '0', 'e', 'm'};
        assert w[i..i + 1][0] == w[i];
      }
    }
  }

  /** With the inactive factor in (0, 1] and at least one slide shown, a
      wider container gives wider 'auto' slides. */
  lemma AutoWidthGrowsWithContainer(cw1: real, cw2: real, o: Options)
    requires o.slideWidth == Str("auto")
    requires 0.0 < o.inactiveScaling <= 1.0 && o.slidesToShow >= 1.0
    requires cw1 < cw2
    ensures NoDivisionByZero(o)
    ensures WidthOf(cw1, o) < WidthOf(cw2, o)
  {
    var s, n := o.inactiveScaling, o.slidesToShow;
    var k := ContentFactor(o);
    assert 1.0 / s >= 1.0 by { assert (1.0 / s) * s == 1.0; }
    var b := 1.0 / n;
    assert 0.0 < b <= 1.0 by { assert b * n == 1.0; }
    assert (1.0 - s) / n <= 1.0 - s by {
      assert (1.0 - s) / n == (1.0 - s) * b;
      var c := 1.0 - s;
      assert c >= 0.0 && 1.0 - b >= 0.0;
      assert c * (1.0 - b) >= 0.0;
      assert c * (1.0 - b) == c - c * b;
    }
    assert k > 0.0;
    var d := ContentWidth(cw2, o) - ContentWidth(cw1, o);
    assert d == (cw2 - cw1) * k;
    assert d > 0.0 by {
      var e := cw2 - cw1;
      assert e * k > 0.0 by { assert e > 0.0 && k > 0.0; }
      assert d == e * k;
    }
    assert ContentWidth(cw2, o) / n - ContentWidth(cw1, o) / n == d * b;
  }

  /** 'auto' gives each slide its share of the content width, and takes three
      margins off it: one from the content width, two from the slide. */
  lemma AutoWidth(cw: real, o: Options)
    requires o.slideWidth == Str("auto")
    requires o.inactiveScaling != 0.0 && o.slidesToShow != 0.0
    ensures Supported(o)
    ensures WidthOf(cw, o) == cw * ContentFactor(o) / o.slidesToShow - 3.0 * o.margin
  {
    var n := o.slidesToShow;
    assert (cw * ContentFactor(o) - o.margin * n) / n == cw * ContentFactor(o) / n - o.margin;
  }

  /** A number gives itself less two margins, whatever the container. */
  lemma NumberWidth(cw: real, o: Options, x: real)
    requires o.slideWidth == Num(x)
    ensures Supported(o)
    ensures WidthOf(cw, o) == x - 2.0 * o.margin
  {
  }

  /** The default configuration in a 1000px container gives 1706/7 px slides. */
  lemma DefaultWidth()
    ensures Supported(DefaultOptions)
    ensures WidthOf(1000.0, DefaultOptions) == 1706.0 / 7.0
  {
  }
}
