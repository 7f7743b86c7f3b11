/** The Sass functions `cmyk`, `cmyk_mix` and `cmyk_scale`: build a colour from four numbers,
    mix two colours, and scale a colour by a percentage. */
module CmykLibrary {
  import opened RubyNumbers
  import opened CmykClass

  // ---------------------------------------------------------------------------
  // cmyk
  // ---------------------------------------------------------------------------

  /** The percentage a component argument stands for: a `%` number as it is, any other
      number taken as a fraction, `(v * 100).round`. */
  function PercentOf(v: SassValue): (p: Num)
    requires v.Number?
    ensures v.percent ==> p == v.value
    ensures !v.percent ==> p.Int? && ToReal(v.value) * 100.0 - 0.5 <= p.i as real <= ToReal(v.value) * 100.0 + 0.5
    ensures !v.percent ==> p == Int(Round(ToReal(v.value) * 100.0))
  {
    if v.percent then v.value else Int(Round(ToReal(v.value) * 100.0))
  }

  /** One component of `cmyk`: `assert_type` demands a number, and the percentage it stands
      for must be an integer in [0, 100]. */
  function CheckedComponent(ch: Channel, v: SassValue): (r: Result<int>)
    ensures r.Ok? ==> v.Number? && InRange(r.value) && PercentOf(v) == Int(r.value)
    ensures r.Err? ==> r.error == NotANumber(ch) || r.error == InvalidComponent(ch)
    ensures r.Err? && v.Number? ==> r.error == InvalidComponent(ch)
  {
    if !v.Number? then Err(NotANumber(ch))
    else
      var p := PercentOf(v);
      if p.Int? && InRange(p.i) then Ok(p.i) else Err(InvalidComponent(ch))
  }

  /** The hash `cmyk` builds, or the error of the first component (in the order cyan, magenta,
      yellow, black) that fails. */
  function CmykHash(c: SassValue, m: SassValue, y: SassValue, k: SassValue): (r: Result<Hash>)
    ensures r.Ok? ==> r.value.Keys == AllChannels && forall ch :: ch in r.value ==> Accepted(r.value[ch])
    ensures r.Err? ==> r.error.NotANumber? || r.error.InvalidComponent?
  {
    match CheckedComponent(Cyan, c)
    case Err(e) => Err(e)
    case Ok(cv) =>
      match CheckedComponent(Magenta, m)
      case Err(e) => Err(e)
      case Ok(mv) =>
        match CheckedComponent(Yellow, y)
        case Err(e) => Err(e)
        case Ok(yv) =>
          match CheckedComponent(Black, k)
          case Err(e) => Err(e)
          case Ok(kv) => Ok(map[Cyan := Int(cv), Magenta := Int(mv), Yellow := Int(yv), Black := Int(kv)])
  }

  /** The outcome of `cmyk(c, m, y, k)`: the checked hash handed to `CMYK.new`. */
  function CmykSpec(c: SassValue, m: SassValue, y: SassValue, k: SassValue): (r: Result<Attrs>)
    ensures r.Ok? ==> ValidAttrs(r.value)
    ensures r.Err? ==> r.error.NotANumber? || r.error.InvalidComponent?
  {
    match CmykHash(c, m, y, k)
    case Err(e) => Err(e)
    case Ok(h) => Construct(h)
  }

  /** A `%` argument is accepted exactly when it is an integer in [0, 100], and then taken as
      it is; `20.0%` and `20.5%` are refused. */
  lemma PercentComponentIff(ch: Channel, x: Num)
    ensures CheckedComponent(ch, Number(x, true)).Ok? <==> x.Int? && 0 <= x.i <= 100
    ensures CheckedComponent(ch, Number(x, true)).Ok? ==> CheckedComponent(ch, Number(x, true)).value == x.i
    ensures CheckedComponent(ch, Number(x, true)).Err? ==>
              CheckedComponent(ch, Number(x, true)).error == InvalidComponent(ch)
  {
  }

  /** A plain real argument is accepted exactly when it lies strictly between -0.005 and 1.005,
      the interval that `(x * 100).round` sends into [0, 100]. */
  lemma FractionComponentIff(ch: Channel, x: real)
    ensures CheckedComponent(ch, Number(Float(x), false)).Ok? <==> -0.005 < x < 1.005
    ensures CheckedComponent(ch, Number(Float(x), false)).Err? ==>
              CheckedComponent(ch, Number(Float(x), false)).error == InvalidComponent(ch)
  {
    var p := x * 100.0;
    var r := Round(p);
    assert CheckedComponent(ch, Number(Float(x), false)).Ok? <==> 0 <= r <= 100;
    if -0.5 < p < 0.0 {
      assert r as real - 0.5 < p;
    }
  }

  /** A plain integer argument is accepted only when it is 0 or 1 (0% or 100%). */
  lemma IntegerFractionComponentIff(ch: Channel, i: int)
    ensures CheckedComponent(ch, Number(Int(i), false)).Ok? <==> i == 0 || i == 1
    ensures CheckedComponent(ch, Number(Int(i), false)).Ok? ==>
              CheckedComponent(ch, Number(Int(i), false)).value == 100 * i
  {
    RoundIntegral(100 * i);
    assert (i as real) * 100.0 == (100 * i) as real;
  }

  /** A component that is not a number is refused as such. */
  lemma NonNumberComponent(ch: Channel, v: SassValue)
    requires !v.Number?
    ensures CheckedComponent(ch, v) == Err(NotANumber(ch))
  {
  }

  /** `cmyk` succeeds exactly when all four components pass their check, and the colour then
      holds the four checked percentages; `CMYK.new` never refuses what the checks let through. */
  lemma CmykSucceedsIff(c: SassValue, m: SassValue, y: SassValue, k: SassValue)
    ensures CmykSpec(c, m, y, k).Ok? <==>
      CheckedComponent(Cyan, c).Ok? && CheckedComponent(Magenta, m).Ok? &&
      CheckedComponent(Yellow, y).Ok? && CheckedComponent(Black, k).Ok?
    ensures CmykSpec(c, m, y, k).Ok? ==>
      CmykSpec(c, m, y, k).value ==
        Attrs(CheckedComponent(Cyan, c).value, CheckedComponent(Magenta, m).value,
              CheckedComponent(Yellow, y).value, CheckedComponent(Black, k).value)
  {
    var h := CmykHash(c, m, y, k);
    if h.Ok? {
      var a := Attrs(CheckedComponent(Cyan, c).value, CheckedComponent(Magenta, m).value,
                     CheckedComponent(Yellow, y).value, CheckedComponent(Black, k).value);
      ConstructOfValid(h.value, a);
    }
  }

  /** When `cmyk` fails, it reports the first failing component, in the order cyan, magenta,
      yellow, black; the constructor's own error never surfaces. */
  lemma CmykFirstError(c: SassValue, m: SassValue, y: SassValue, k: SassValue)
    ensures CheckedComponent(Cyan, c).Err? ==> CmykSpec(c, m, y, k) == Err(CheckedComponent(Cyan, c).error)
    ensures CheckedComponent(Cyan, c).Ok? && CheckedComponent(Magenta, m).Err? ==>
              CmykSpec(c, m, y, k) == Err(CheckedComponent(Magenta, m).error)
    ensures CheckedComponent(Cyan, c).Ok? && CheckedComponent(Magenta, m).Ok? &&
            CheckedComponent(Yellow, y).Err? ==>
              CmykSpec(c, m, y, k) == Err(CheckedComponent(Yellow, y).error)
    ensures CheckedComponent(Cyan, c).Ok? && CheckedComponent(Magenta, m).Ok? &&
            CheckedComponent(Yellow, y).Ok? && CheckedComponent(Black, k).Err? ==>
              CmykSpec(c, m, y, k) == Err(CheckedComponent(Black, k).error)
    ensures CmykSpec(c, m, y, k).Err? ==> CmykSpec(c, m, y, k).error != MissingComponent
  {
    CmykSucceedsIff(c, m, y, k);
  }

  /** `cmyk(20%, 40%, 60%, 70%)` and `cmyk(0.2, 0.4, 0.6, 0.7)` are the same colour. */
  lemma CmykExamples()
    ensures CmykSpec(Number(Int(20), true), Number(Int(40), true), Number(Int(60), true), Number(Int(70), true))
            == Ok(Attrs(20, 40, 60, 70))
    ensures CmykSpec(Number(Float(0.2), false), Number(Float(0.4), false), Number(Float(0.6), false),
                     Number(Float(0.7), false))
            == Ok(Attrs(20, 40, 60, 70))
  {
    RoundIntegral(20);
    RoundIntegral(40);
    RoundIntegral(60);
    RoundIntegral(70);
    CmykSucceedsIff(Number(Int(20), true), Number(Int(40), true), Number(Int(60), true), Number(Int(70), true));
    CmykSucceedsIff(Number(Float(0.2), false), Number(Float(0.4), false), Number(Float(0.6), false),
                    Number(Float(0.7), false));
  }

  /** A non-integer percentage is refused at the component check. */
  lemma CmykRejectsFractionalPercent()
    ensures CmykSpec(Number(Int(10), true), Number(Int(0), true), Number(Float(20.5), true), Number(Int(100), true))
            == Err(InvalidComponent(Yellow))
  {
  }

  /** `cmyk(c, m, y, k)`: check the four components, then call `CMYK.new`. */
  method Cmyk(c: SassValue, m: SassValue, y: SassValue, k: SassValue) returns (r: Result<Color>)
    ensures r.Err? ==> CmykSpec(c, m, y, k) == Err(r.error)
    ensures r.Ok? ==> CmykSpec(c, m, y, k).Ok? && fresh(r.value) && r.value.Valid() &&
                      r.value.attrs == CmykSpec(c, m, y, k).value
  {
    var h := CmykHash(c, m, y, k);
    if h.Err? {
      return Err(h.error);
    }
    r := Color.New(h.value);
  }

  // ---------------------------------------------------------------------------
  // cmyk_mix
  // ---------------------------------------------------------------------------

  /** `cmyk_mix(c1, c2)`: both arguments must be colours; then it is `c1.plus(c2)`. */
  method CmykMix(c1: SassValue, c2: SassValue) returns (r: Result<Color>)
    requires c1.CmykValue? ==> c1.color.Valid()
    requires c2.CmykValue? ==> c2.color.Valid()
    ensures !(c1.CmykValue? && c2.CmykValue?) ==> r == Err(NotTwoColors)
    ensures c1.CmykValue? && c2.CmykValue? ==>
      r.Ok? && fresh(r.value) && r.value.Valid() && r.value.attrs == Mixed(c1.color.attrs, c2.color.attrs)
  {
    if !(c1.CmykValue? && c2.CmykValue?) {
      return Err(NotTwoColors);
    }
    r := c1.color.Plus(c2);
  }

  // ---------------------------------------------------------------------------
  // cmyk_scale
  // ---------------------------------------------------------------------------

  /** The factor `cmyk_scale` multiplies by: the percentage as a float, divided by 100. */
  function ScaleFactor(percent: Num): real
  {
    ToReal(percent) / 100.0
  }

  /** Scaling by a percentage in [0, 100] never fails. */
  lemma ScalePercentSucceeds(a: Attrs, p: Num)
    requires ValidAttrs(a) && 0.0 <= ToReal(p) <= 100.0
    ensures Scaled(a, ScaleFactor(p)).Ok?
  {
    ScaleDownSucceeds(a, ScaleFactor(p));
  }

  /** Scaling by more than 100% fails exactly when some rounded component exceeds 100;
      it is never clamped. */
  lemma ScalePercentOver100(a: Attrs, p: Num)
    requires ValidAttrs(a) && ToReal(p) > 100.0
    ensures Scaled(a, ScaleFactor(p)).Err? <==> !ValidAttrs(ScaledRaw(a, ScaleFactor(p)))
    ensures Scaled(a, ScaleFactor(p)).Err? ==> Scaled(a, ScaleFactor(p)).error == ScaleOver100
  {
    var f := ScaleFactor(p);
    MulNonneg(a.cyan as real, f);
    MulNonneg(a.magenta as real, f);
    MulNonneg(a.yellow as real, f);
    MulNonneg(a.black as real, f);
    ScaledSucceedsIff(a, f);
    ScaledFailures(a, f);
  }

  /** `cmyk_scale(cmyk(20%, 40%, 60%, 70%), 50%)` is `cmyk(0%, 10%, 20%, 45%)`. */
  lemma CmykScaleExample()
    ensures Scaled(Attrs(20, 40, 60, 70), ScaleFactor(Int(50))) == Ok(Attrs(0, 10, 20, 45))
  {
    assert ScaleFactor(Int(50)) == 0.5;
    ScaleExamples();
  }

  /** `cmyk_scale(color, percent)`: the first argument must be a colour and the second a
      `%` number; then it is `color.times(percent / 100)`. */
  method CmykScale(color: SassValue, percent: SassValue) returns (r: Result<Color>)
    requires color.CmykValue? ==> color.color.Valid()
    ensures !color.CmykValue? ==> r == Err(NotCmykColor)
    ensures color.CmykValue? && !(percent.Number? && percent.percent) ==> r == Err(NotPercent)
    ensures color.CmykValue? && percent.Number? && percent.percent ==>
      var s := Scaled(color.color.attrs, ScaleFactor(percent.value));
      (r.Err? ==> s == Err(r.error)) &&
      (r.Ok? ==> s.Ok? && fresh(r.value) && r.value.Valid() && r.value.attrs == s.value)
  {
    if !color.CmykValue? {
      return Err(NotCmykColor);
    }
    if !(percent.Number? && percent.percent) {
      return Err(NotPercent);
    }
    var factor := ScaleFactor(percent.value);
    r := color.color.Times(Number(Float(factor), false));
  }
}
