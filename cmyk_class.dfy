/** The CMYK colour value of the Sass plugin: four integer percentages (cyan, magenta,
    yellow, black), validated on construction, normalised by gray component replacement,
    mixed by saturating addition, scaled by a number and rendered as `cmyk(C%,M%,Y%,K%)`.

    The pure part (what each operation computes) is stated as functions over the
    attributes; the class `Color` holds the attributes in a mutable field and its methods
    do what the Ruby methods do, step by step, proved against those functions. */
module CmykClass {
  import opened RubyNumbers
  import opened Decimal

  // ---------------------------------------------------------------------------
  // Data model
  // ---------------------------------------------------------------------------

  /** The four hash keys `:cyan`, `:magenta`, `:yellow`, `:black`. */
  datatype Channel = Cyan | Magenta | Yellow | Black

  const AllChannels: set<Channel> := {Cyan, Magenta, Yellow, Black}

  /** The order in which `initialize`, `plus` and `times` visit the keys. */
  const ChannelOrder: seq<Channel> := [Cyan, Magenta, Yellow, Black]

  /** Why an operation raises. All are Ruby `ArgumentError`s except `SubtractionUnsupported`,
      which is a `NoMethodError`. */
  datatype Error =
    | MissingComponent                    // CMYK.new: a key is missing once bad values are rejected
    | NotCmykOperand                      // plus: the other operand is not a CMYK colour
    | ScaleOver100                        // times: a scaled component would exceed 100
    | NotNumberOperand                    // times, div: the operand is not a number
    | DivisionByZero                      // div: the divisor is zero
    | SubtractionUnsupported              // minus: always
    | NotANumber(channel: Channel)        // cmyk: assert_type fails on a component
    | InvalidComponent(channel: Channel)  // cmyk: a component outside the accepted range
    | NotTwoColors                        // cmyk_mix: an argument is not a CMYK colour
    | NotCmykColor                        // cmyk_scale: the first argument is not a CMYK colour
    | NotPercent                          // cmyk_scale: the second argument is not a percentage

  predicate IsArgumentError(e: Error)
  {
    !e.SubtractionUnsupported?
  }

  /** A raised exception or a returned value. */
  datatype Result<T> = Ok(value: T) | Err(error: Error)

  /** A hash handed to `CMYK.new`: any of the four keys, each with a Ruby number. */
  type Hash = map<Channel, Num>

  /** The attribute hash `@attrs` of a colour once it has passed `CMYK.new`: a value for
      each of the four keys. */
  datatype Attrs = Attrs(cyan: int, magenta: int, yellow: int, black: int)

  /** `@attrs[ch]`. */
  function Get(a: Attrs, ch: Channel): int
  {
    match ch
    case Cyan => a.cyan
    case Magenta => a.magenta
    case Yellow => a.yellow
    case Black => a.black
  }

  /** A value the host passes to an operation: a number with or without the `%` unit,
      a CMYK colour, or anything else. */
  datatype SassValue =
    | Number(value: Num, percent: bool)
    | CmykValue(color: Color)
    | OtherValue

  predicate InRange(n: int)
  {
    0 <= n <= 100
  }

  /** What every live colour satisfies: each component an integer in [0, 100]. */
  predicate ValidAttrs(a: Attrs)
  {
    InRange(a.cyan) && InRange(a.magenta) && InRange(a.yellow) && InRange(a.black)
  }

  /** The attributes as a hash of Ruby integers, as `CMYK.new` receives them. */
  function AsHash(a: Attrs): Hash
  {
    map[Cyan := Int(a.cyan), Magenta := Int(a.magenta), Yellow := Int(a.yellow), Black := Int(a.black)]
  }

  function Min(a: int, b: int): int
  {
    if a <= b then a else b
  }

  function Min3(a: int, b: int, c: int): int
  {
    Min(Min(a, b), c)
  }

  function Max4(a: int, b: int, c: int, d: int): int
  {
    var ab := if a >= b then a else b;
    var cd := if c >= d then c else d;
    if ab >= cd then ab else cd
  }

  /** `[C, M, Y].min`: the gray component shared by the three chromatic channels. */
  function CmyMin(a: Attrs): int
  {
    Min3(a.cyan, a.magenta, a.yellow)
  }

  /** Total ink: the sum of the four percentages. */
  function Ink(a: Attrs): int
  {
    a.cyan + a.magenta + a.yellow + a.black
  }

  // ---------------------------------------------------------------------------
  // Construction (CMYK.new)
  // ---------------------------------------------------------------------------

  /** The filter of `initialize`: an entry stays only if its value is a `Fixnum` in [0, 100]. */
  predicate Accepted(v: Num)
  {
    v.Int? && InRange(v.i)
  }

  /** The hash after `reject!`. */
  function Kept(h: Hash): Hash
  {
    map ch | ch in h && Accepted(h[ch]) :: h[ch]
  }

  /** `CMYK.new(h)`: reject the unacceptable entries, then demand all four keys.
      It succeeds exactly when every key is present with an integer in [0, 100],
      and the colour then holds exactly those integers. */
  function Construct(h: Hash): (r: Result<Attrs>)
    ensures r.Ok? <==> forall ch :: ch in AllChannels ==> ch in h && Accepted(h[ch])
    ensures r.Ok? ==> ValidAttrs(r.value) && forall ch :: ch in AllChannels ==> h[ch] == Int(Get(r.value, ch))
    ensures r.Err? ==> r.error == MissingComponent
  {
    var kept := Kept(h);
    if AllChannels <= kept.Keys then Ok(Attrs(kept[Cyan].i, kept[Magenta].i, kept[Yellow].i, kept[Black].i))
    else Err(MissingComponent)
  }

  /** A hash that holds the components of valid attributes as integers passes `CMYK.new`
      and gives those attributes back. */
  lemma ConstructOfValid(h: Hash, a: Attrs)
    requires ValidAttrs(a)
    requires forall ch :: ch in AllChannels ==> ch in h && h[ch] == Int(Get(a, ch))
    ensures Construct(h) == Ok(a)
  {
    assert h[Cyan] == Int(a.cyan) && h[Magenta] == Int(a.magenta);
    assert h[Yellow] == Int(a.yellow) && h[Black] == Int(a.black);
  }

  /** `CMYK.new` looks only at the four keys: two hashes that agree on them give the same outcome. */
  lemma ConstructAgrees(h1: Hash, h2: Hash)
    requires forall ch :: ch in AllChannels ==> (ch in h1 <==> ch in h2) && (ch in h1 ==> h1[ch] == h2[ch])
    ensures Construct(h1) == Construct(h2)
  {
    assert Cyan in AllChannels && Magenta in AllChannels && Yellow in AllChannels && Black in AllChannels;
  }

  /** Rebuilding a colour from its own attributes never raises. */
  lemma ConstructValid(a: Attrs)
    requires ValidAttrs(a)
    ensures Construct(AsHash(a)) == Ok(a)
  {
    ConstructOfValid(AsHash(a), a);
  }

  /** The constructor cases of the Ruby test suite. */
  lemma ConstructExamples()
    ensures Construct(map[Cyan := Int(10), Magenta := Int(20), Yellow := Int(30), Black := Int(40)])
            == Ok(Attrs(10, 20, 30, 40))
    ensures Construct(map[Cyan := Int(10), Magenta := Int(0), Yellow := Int(3)]) == Err(MissingComponent)
    ensures Construct(map[Cyan := Int(10), Magenta := Int(0), Yellow := Int(3), Black := Int(120)])
            == Err(MissingComponent)
    ensures Construct(map[Cyan := Int(10), Magenta := Int(0), Yellow := Int(-2), Black := Int(100)])
            == Err(MissingComponent)
    ensures Construct(map[Cyan := Int(10), Magenta := Int(0), Yellow := Float(20.5), Black := Int(100)])
            == Err(MissingComponent)
  {
    ConstructValid(Attrs(10, 20, 30, 40));
    var bad := map[Cyan := Int(10), Magenta := Int(0), Yellow := Float(20.5), Black := Int(100)];
    assert !Accepted(bad[Yellow]);
  }

  // ---------------------------------------------------------------------------
  // Normalisation (_normalize, normalize, normalize!)
  // ---------------------------------------------------------------------------

  /** `_normalize`: move the shared minimum of C, M and Y into K, capping K at 100.
      It yields all four keys, so merging it into `@attrs` replaces every component. */
  function Normalized(a: Attrs): (r: Attrs)
    requires ValidAttrs(a)
    ensures ValidAttrs(r) && CmyMin(r) == 0
  {
    var m := CmyMin(a);
    Attrs(a.cyan - m, a.magenta - m, a.yellow - m, Min(100, a.black + m))
  }

  /** Normalisation is gray component replacement: afterwards some chromatic channel is 0,
      the differences between C, M and Y (the hue) are kept, the same amount leaves each
      chromatic channel and that amount joins K, up to 100. */
  lemma NormalizedIsGrayReplacement(a: Attrs)
    requires ValidAttrs(a)
    ensures var r := Normalized(a);
      CmyMin(r) == 0 &&
      a.cyan - r.cyan == a.magenta - r.magenta == a.yellow - r.yellow >= 0 &&
      r.black == Min(100, a.black + (a.cyan - r.cyan))
  {
  }

  /** Normalisation changes nothing exactly when some chromatic channel is already 0. */
  lemma NormalizeFixedIff(a: Attrs)
    requires ValidAttrs(a)
    ensures Normalized(a) == a <==> CmyMin(a) == 0
  {
  }

  /** Normalising twice is normalising once. */
  lemma NormalizeIdempotent(a: Attrs)
    requires ValidAttrs(a)
    ensures Normalized(Normalized(a)) == Normalized(a)
  {
    NormalizeFixedIff(Normalized(a));
  }

  /** Gray component replacement saves at least twice the gray in total ink. */
  lemma NormalizeSavesInk(a: Attrs)
    requires ValidAttrs(a)
    ensures Ink(Normalized(a)) <= Ink(a) - 2 * CmyMin(a)
  {
  }

  /** The normalisation case of the Ruby test suite: 20% of each chromatic ink becomes black. */
  lemma NormalizeExample()
    ensures Normalized(Attrs(20, 40, 60, 70)) == Attrs(0, 20, 40, 90)
  {
  }

  /** A colour without cyan is already normalised. */
  lemma NormalizeFixedExample()
    ensures Normalized(Attrs(0, 30, 10, 20)) == Attrs(0, 30, 10, 20)
  {
    var a := Attrs(0, 30, 10, 20);
    assert CmyMin(a) == 0;
    NormalizeFixedIff(a);
  }

  // ---------------------------------------------------------------------------
  // Mixing (plus)
  // ---------------------------------------------------------------------------

  /** Component-wise saturating sum, `[a + b, 100].min`. */
  function Sum(a: Attrs, b: Attrs): (s: Attrs)
    requires ValidAttrs(a) && ValidAttrs(b)
    ensures ValidAttrs(s)
  {
    Attrs(Min(a.cyan + b.cyan, 100), Min(a.magenta + b.magenta, 100),
          Min(a.yellow + b.yellow, 100), Min(a.black + b.black, 100))
  }

  /** The colour `plus` returns: the saturating sum, normalised. */
  function Mixed(a: Attrs, b: Attrs): (r: Attrs)
    requires ValidAttrs(a) && ValidAttrs(b)
    ensures ValidAttrs(r) && CmyMin(r) == 0
  {
    Normalized(Sum(a, b))
  }

  /** Mixing two valid colours never raises: the summed hash always passes `CMYK.new`. */
  lemma MixNeverFails(a: Attrs, b: Attrs)
    requires ValidAttrs(a) && ValidAttrs(b)
    ensures Construct(AsHash(Sum(a, b))) == Ok(Sum(a, b))
  {
    ConstructValid(Sum(a, b));
  }

  /** Mixing is commutative. */
  lemma MixCommutative(a: Attrs, b: Attrs)
    requires ValidAttrs(a) && ValidAttrs(b)
    ensures Mixed(a, b) == Mixed(b, a)
  {
  }

  /** Mixing with the blank colour only normalises. */
  lemma MixWithBlank(a: Attrs)
    requires ValidAttrs(a)
    ensures Mixed(a, Attrs(0, 0, 0, 0)) == Normalized(a)
  {
  }

  /** A worked mix whose sum is already normalised. */
  lemma MixExample()
    ensures Mixed(Attrs(25, 50, 0, 0), Attrs(10, 10, 0, 0)) == Attrs(35, 60, 0, 0)
  {
  }

  /** A worked mix that saturates cyan and then moves the shared 20% into black. */
  lemma MixSaturatingExample()
    ensures Mixed(Attrs(75, 50, 0, 0), Attrs(30, 0, 20, 0)) == Attrs(80, 30, 0, 20)
  {
  }

  // ---------------------------------------------------------------------------
  // Scaling (times, div)
  // ---------------------------------------------------------------------------

  /** One component multiplied by `f` and rounded, `(v * f).round`. */
  function ScaledComponent(x: int, f: real): int
  {
    Round(x as real * f)
  }

  /** Each component multiplied by `f` and rounded. */
  function ScaledRaw(a: Attrs, f: real): (r: Attrs)
    ensures a.cyan == 0 ==> r.cyan == 0
    ensures a.magenta == 0 ==> r.magenta == 0
    ensures a.yellow == 0 ==> r.yellow == 0
    ensures a.black == 0 ==> r.black == 0
    ensures f == 0.0 ==> r == Attrs(0, 0, 0, 0)
  {
    Attrs(ScaledComponent(a.cyan, f), ScaledComponent(a.magenta, f),
          ScaledComponent(a.yellow, f), ScaledComponent(a.black, f))
  }

  /** The outcome of `times(f)`: refuse when a rounded component exceeds 100, let `CMYK.new`
      refuse a negative one, and otherwise normalise. */
  function Scaled(a: Attrs, f: real): (r: Result<Attrs>)
    requires ValidAttrs(a)
    ensures r.Ok? ==> ValidAttrs(r.value) && CmyMin(r.value) == 0
  {
    var raw := ScaledRaw(a, f);
    if Max4(raw.cyan, raw.magenta, raw.yellow, raw.black) > 100 then Err(ScaleOver100)
    else
      match Construct(AsHash(raw))
      case Ok(c) => Ok(Normalized(c))
      case Err(e) => Err(e)
  }

  /** `div(x)`: zero is refused, otherwise it is `times(1/x)`. */
  function Divided(a: Attrs, x: real): (r: Result<Attrs>)
    requires ValidAttrs(a)
    ensures x == 0.0 <==> r == Err(DivisionByZero)
  {
    if x == 0.0 then Err(DivisionByZero) else Scaled(a, 1.0 / x)
  }

  /** Scaling succeeds exactly when every rounded component lies in [0, 100], and it then
      yields the rounded components, normalised. */
  lemma ScaledSucceedsIff(a: Attrs, f: real)
    requires ValidAttrs(a)
    ensures Scaled(a, f).Ok? <==> ValidAttrs(ScaledRaw(a, f))
    ensures Scaled(a, f).Ok? ==> Scaled(a, f).value == Normalized(ScaledRaw(a, f))
  {
    var raw := ScaledRaw(a, f);
    if ValidAttrs(raw) {
      ConstructValid(raw);
    } else if Max4(raw.cyan, raw.magenta, raw.yellow, raw.black) <= 100 {
      assert !Accepted(AsHash(raw)[Cyan]) || !Accepted(AsHash(raw)[Magenta]) ||
             !Accepted(AsHash(raw)[Yellow]) || !Accepted(AsHash(raw)[Black]);
    }
  }

  /** Why scaling fails: a component over 100 is refused as such (it is never clamped);
      otherwise a negative component is dropped by the constructor's filter, which then
      misses a key. Neither happens for a factor in [0, 1]. */
  lemma ScaledFailures(a: Attrs, f: real)
    requires ValidAttrs(a)
    ensures var raw := ScaledRaw(a, f);
      raw.cyan > 100 || raw.magenta > 100 || raw.yellow > 100 || raw.black > 100 ==>
        Scaled(a, f) == Err(ScaleOver100)
    ensures var raw := ScaledRaw(a, f);
      raw.cyan <= 100 && raw.magenta <= 100 && raw.yellow <= 100 && raw.black <= 100 &&
      (raw.cyan < 0 || raw.magenta < 0 || raw.yellow < 0 || raw.black < 0) ==>
        Scaled(a, f) == Err(MissingComponent)
    ensures Scaled(a, f).Err? ==> f < 0.0 || f > 1.0
  {
    var raw := ScaledRaw(a, f);
    if Max4(raw.cyan, raw.magenta, raw.yellow, raw.black) <= 100 && !ValidAttrs(raw) {
      ScaledSucceedsIff(a, f);
    }
    if 0.0 <= f <= 1.0 {
      ScaleDownSucceeds(a, f);
    }
  }

  /** The product of two non-negative reals is non-negative. */
  lemma MulNonneg(x: real, y: real)
    requires x >= 0.0 && y >= 0.0
    ensures x * y >= 0.0
  {
  }

  /** A percentage scaled by a factor in [0, 1] rounds back into [0, 100]. */
  lemma ScaledPercentInRange(x: int, f: real)
    requires InRange(x) && 0.0 <= f <= 1.0
    ensures InRange(ScaledComponent(x, f))
  {
    MulNonneg(x as real, f);
    MulNonneg(x as real, 1.0 - f);
    assert x as real * (1.0 - f) == x as real - x as real * f;
  }

  /** Every component scaled by a factor in [0, 1] stays in [0, 100]. */
  lemma ScaledDownRawValid(a: Attrs, f: real)
    requires ValidAttrs(a) && 0.0 <= f <= 1.0
    ensures ValidAttrs(ScaledRaw(a, f))
  {
    ScaledPercentInRange(a.cyan, f);
    ScaledPercentInRange(a.magenta, f);
    ScaledPercentInRange(a.yellow, f);
    ScaledPercentInRange(a.black, f);
  }

  /** Scaling by a factor in [0, 1] never fails. */
  lemma ScaleDownSucceeds(a: Attrs, f: real)
    requires ValidAttrs(a) && 0.0 <= f <= 1.0
    ensures Scaled(a, f).Ok?
  {
    ScaledDownRawValid(a, f);
    ScaledSucceedsIff(a, f);
  }

  /** Scaling a normalised colour by any factor keeps its zero chromatic channel at zero,
      so the final normalisation changes nothing. */
  lemma ScaledNormalisedValue(a: Attrs, f: real)
    requires ValidAttrs(a) && CmyMin(a) == 0
    ensures Scaled(a, f).Ok? ==> Scaled(a, f).value == ScaledRaw(a, f)
  {
    ScaledSucceedsIff(a, f);
    var raw := ScaledRaw(a, f);
    if ValidAttrs(raw) {
      RoundIntegral(0);
      assert 0 as real * f == 0.0;
      assert CmyMin(raw) == 0;
      NormalizeFixedIff(raw);
    }
  }

  /** Scaling by 1 only normalises. */
  lemma ScaleByOne(a: Attrs)
    requires ValidAttrs(a)
    ensures Scaled(a, 1.0) == Ok(Normalized(a))
  {
    RoundIntegral(a.cyan);
    RoundIntegral(a.magenta);
    RoundIntegral(a.yellow);
    RoundIntegral(a.black);
    ScaledSucceedsIff(a, 1.0);
  }

  /** Scaling (20%, 40%, 60%, 70%) by 1.5 is refused, since black would be 105%;
      by 0.5 it gives (10, 20, 30, 35), normalised to (0, 10, 20, 45). */
  lemma ScaleExamples()
    ensures Scaled(Attrs(20, 40, 60, 70), 1.5) == Err(ScaleOver100)
    ensures Scaled(Attrs(20, 40, 60, 70), 0.5) == Ok(Attrs(0, 10, 20, 45))
  {
    RoundIntegral(105);
    RoundIntegral(10);
    RoundIntegral(20);
    RoundIntegral(30);
    RoundIntegral(35);
    ScaledSucceedsIff(Attrs(20, 40, 60, 70), 0.5);
  }

  /** A rounding error of at most one half, shrunk by a factor in (0, 1], stays within one half. */
  lemma HalfTimesFraction(e: real, t: real)
    requires -0.5 <= e <= 0.5 && 0.0 < t <= 1.0
    ensures -0.5 <= e * t <= 0.5
  {
    MulNonneg(0.5 - e, t);
    MulNonneg(0.5 + e, t);
    MulNonneg(0.5, 1.0 - t);
    assert (0.5 - e) * t == 0.5 * t - e * t;
    assert (0.5 + e) * t == 0.5 * t + e * t;
  }

  /** Multiplying by `s >= 1`, rounding, dividing by `s` and rounding again lands within 1
      of where it started. */
  lemma RoundTripComponent(x: int, s: real)
    requires s >= 1.0
    ensures -1 <= ScaledComponent(ScaledComponent(x, s), 1.0 / s) - x <= 1
  {
    var t := 1.0 / s;
    var y := Round(x as real * s);
    var e := y as real - x as real * s;
    MulNonneg(t, s - 1.0);
    assert s * t == 1.0;
    assert 0.0 < t <= 1.0;
    assert y as real * t == x as real * (s * t) + e * t;
    HalfTimesFraction(e, t);
  }

  /** Rounding every component after multiplying by `s >= 1`, then again after multiplying
      by `1/s`, lands each component within 1 of where it started. */
  lemma RoundTripRaw(a: Attrs, s: real)
    requires s >= 1.0
    ensures var c := ScaledRaw(ScaledRaw(a, s), 1.0 / s);
      -1 <= c.cyan - a.cyan <= 1 && -1 <= c.magenta - a.magenta <= 1 &&
      -1 <= c.yellow - a.yellow <= 1 && -1 <= c.black - a.black <= 1
  {
    RoundTripComponent(a.cyan, s);
    RoundTripComponent(a.magenta, s);
    RoundTripComponent(a.yellow, s);
    RoundTripComponent(a.black, s);
  }

  /** Scaling a normalised colour up by `s >= 1` and then dividing by `s` succeeds and returns
      every component to within 1 of the original. (The chromatic channel that is 0 stays 0,
      so neither step's normalisation moves anything.) */
  lemma ScaleThenDivide(a: Attrs, s: real)
    requires ValidAttrs(a) && CmyMin(a) == 0 && s >= 1.0
    requires Scaled(a, s).Ok?
    ensures Divided(Scaled(a, s).value, s).Ok?
    ensures var c := Divided(Scaled(a, s).value, s).value;
      -1 <= c.cyan - a.cyan <= 1 && -1 <= c.magenta - a.magenta <= 1 &&
      -1 <= c.yellow - a.yellow <= 1 && -1 <= c.black - a.black <= 1
  {
    ScaledNormalisedValue(a, s);
    var b := Scaled(a, s).value;
    var t := 1.0 / s;
    MulNonneg(t, s - 1.0);
    assert s * t == 1.0;
    ScaleDownSucceeds(b, t);
    ScaledNormalisedValue(b, t);
    RoundTripRaw(a, s);
  }

  /** Without a zero chromatic channel the round trip can drift far: (10, 10, 10, 0) times 2
      normalises to (0, 0, 0, 20) ... */
  lemma DoubleUnnormalisedExample()
    ensures Scaled(Attrs(10, 10, 10, 0), 2.0) == Ok(Attrs(0, 0, 0, 20))
  {
    RoundIntegral(20);
    RoundIntegral(0);
    assert ScaledRaw(Attrs(10, 10, 10, 0), 2.0) == Attrs(20, 20, 20, 0);
    ScaledSucceedsIff(Attrs(10, 10, 10, 0), 2.0);
  }

  /** ... and halving (0, 0, 0, 20) gives (0, 0, 0, 10), not the (10, 10, 10, 0) it came from. */
  lemma HalveExample()
    ensures Divided(Attrs(0, 0, 0, 20), 2.0) == Ok(Attrs(0, 0, 0, 10))
  {
    var a, f := Attrs(0, 0, 0, 20), 0.5;
    RoundIntegral(10);
    assert ScaledRaw(a, f) == Attrs(0, 0, 0, 10);
    ScaleDownSucceeds(a, f);
    ScaledNormalisedValue(a, f);
    assert 1.0 / 2.0 == f;
  }

  // ---------------------------------------------------------------------------
  // Rendering (to_s)
  // ---------------------------------------------------------------------------

  /** `to_s`: `cmyk(C%,M%,Y%,K%)`, decimal integers, no whitespace. */
  function Render(a: Attrs): (s: string)
    requires ValidAttrs(a)
    ensures |s| >= 17 && s[..5] == "cmyk(" && s[|s| - 2..] == "%)"
  {
    "cmyk(" + NatToString(a.cyan) + "%," + NatToString(a.magenta) + "%," +
    NatToString(a.yellow) + "%," + NatToString(a.black) + "%)"
  }

  /** The rendering case of the Ruby test suite. */
  lemma RenderExample()
    ensures Render(Attrs(20, 40, 60, 70)) == "cmyk(20%,40%,60%,70%)"
  {
  }

  /** The rendering holds no space character. */
  lemma RenderHasNoSpace(a: Attrs)
    requires ValidAttrs(a)
    ensures ' ' !in Render(a)
  {
    var ds := [NatToString(a.cyan), NatToString(a.magenta), NatToString(a.yellow), NatToString(a.black)];
    forall i | 0 <= i < 4
      ensures ' ' !in ds[i]
    {
      assert AllDigits(ds[i]);
    }
  }

  /** A common prefix can be cancelled. */
  lemma PrefixCancel(p: string, x: string, y: string)
    requires p + x == p + y
    ensures x == y
  {
    assert x == (p + x)[|p|..];
    assert y == (p + y)[|p|..];
  }

  /** A rendered number followed by `%` can be read back only one way. */
  lemma PeelPercent(x: nat, y: nat, rx: string, ry: string)
    requires |rx| > 0 && |ry| > 0 && rx[0] == '%' && ry[0] == '%'
    requires NatToString(x) + rx == NatToString(y) + ry
    ensures x == y && rx == ry
  {
    DigitsPrefixUnique(NatToString(x), NatToString(y), rx, ry);
    NatToStringInjective(x, y);
  }

  /** The rendering read from the right: each number is followed by the rest of the string. */
  lemma RenderShape(a: Attrs)
    requires ValidAttrs(a)
    ensures Render(a) == "cmyk(" + (NatToString(a.cyan) + ("%," + (NatToString(a.magenta) +
                         ("%," + (NatToString(a.yellow) + ("%," + (NatToString(a.black) + "%)")))))))
  {
  }

  /** Different colours render differently: the string determines all four components. */
  lemma RenderInjective(a: Attrs, b: Attrs)
    requires ValidAttrs(a) && ValidAttrs(b)
    requires Render(a) == Render(b)
    ensures a == b
  {
    var a4, b4 := "%)", "%)";
    var a3 := "%," + (NatToString(a.black) + a4);
    var b3 := "%," + (NatToString(b.black) + b4);
    var a2 := "%," + (NatToString(a.yellow) + a3);
    var b2 := "%," + (NatToString(b.yellow) + b3);
    var a1 := "%," + (NatToString(a.magenta) + a2);
    var b1 := "%," + (NatToString(b.magenta) + b2);
    RenderShape(a);
    RenderShape(b);
    PrefixCancel("cmyk(", NatToString(a.cyan) + a1, NatToString(b.cyan) + b1);
    PeelPercent(a.cyan, b.cyan, a1, b1);
    PrefixCancel("%,", NatToString(a.magenta) + a2, NatToString(b.magenta) + b2);
    PeelPercent(a.magenta, b.magenta, a2, b2);
    PrefixCancel("%,", NatToString(a.yellow) + a3, NatToString(b.yellow) + b3);
    PeelPercent(a.yellow, b.yellow, a3, b3);
    PrefixCancel("%,", NatToString(a.black) + a4, NatToString(b.black) + b4);
    PeelPercent(a.black, b.black, a4, b4);
  }

  // ---------------------------------------------------------------------------
  // The class
  // ---------------------------------------------------------------------------

  /** `CMYK`: a colour whose attributes `normalize!` updates in place. */
  class Color {
    var attrs: Attrs

    ghost predicate Valid()
      reads this
    {
      ValidAttrs(attrs)
    }

    /** Stores an already validated hash (the last line of `initialize`). */
    constructor FromAttrs(a: Attrs)
      requires ValidAttrs(a)
      ensures Valid() && attrs == a
    {
      attrs := a;
    }

    /** `CMYK.new(h)`: `reject!` the entries that are not integers in [0, 100], one key at a
        time, then raise unless all four keys are left. */
    static method New(h: Hash) returns (r: Result<Color>)
      ensures r.Err? ==> Construct(h) == Err(r.error)
      ensures r.Ok? ==> Construct(h).Ok? && fresh(r.value) && r.value.Valid() &&
                        r.value.attrs == Construct(h).value
    {
      var kept := h;
      for i := 0 to |ChannelOrder|
        invariant forall ch :: ch in kept <==> ch in h && (ch in ChannelOrder[..i] ==> Accepted(h[ch]))
        invariant forall ch :: ch in kept ==> kept[ch] == h[ch]
      {
        var ch := ChannelOrder[i];
        if ch in kept && !Accepted(kept[ch]) {
          kept := kept - {ch};
        }
      }
      assert ChannelOrder[..|ChannelOrder|] == ChannelOrder;
      if AllChannels <= kept.Keys {
        var a := Attrs(kept[Channel.Cyan].i, kept[Channel.Magenta].i, kept[Channel.Yellow].i, kept[Channel.Black].i);
        var c := new Color.FromAttrs(a);
        r := Ok(c);
      } else {
        r := Err(MissingComponent);
      }
    }

    function Cyan(): (r: int)
      reads this
      requires Valid()
      ensures InRange(r) && r == Get(attrs, Channel.Cyan)
    {
      attrs.cyan
    }

    function Magenta(): (r: int)
      reads this
      requires Valid()
      ensures InRange(r) && r == Get(attrs, Channel.Magenta)
    {
      attrs.magenta
    }

    function Yellow(): (r: int)
      reads this
      requires Valid()
      ensures InRange(r) && r == Get(attrs, Channel.Yellow)
    {
      attrs.yellow
    }

    function Black(): (r: int)
      reads this
      requires Valid()
      ensures InRange(r) && r == Get(attrs, Channel.Black)
    {
      attrs.black
    }

    /** `normalize`: a new colour with the normalised attributes; the receiver is untouched. */
    method Normalize() returns (c: Color)
      requires Valid()
      ensures fresh(c) && c.Valid() && c.attrs == Normalized(attrs)
    {
      var merged := Normalized(attrs);
      ConstructValid(merged);
      var made := New(AsHash(merged));
      c := made.value;
    }

    /** `normalize!`: merge the normalised attributes into the receiver and return it. */
    method NormalizeInPlace() returns (self: Color)
      requires Valid()
      modifies this
      ensures self == this && Valid() && attrs == Normalized(old(attrs))
    {
      attrs := Normalized(attrs);
      self := this;
    }

    /** `plus`: add component by component, saturating at 100, build a new colour from the
        sums and normalise it in place. Anything but a CMYK colour is refused. */
    method Plus(other: SassValue) returns (r: Result<Color>)
      requires Valid()
      requires other.CmykValue? ==> other.color.Valid()
      ensures !other.CmykValue? ==> r == Err(NotCmykOperand)
      ensures other.CmykValue? ==> r.Ok? && fresh(r.value) && r.value.Valid() &&
                                   r.value.attrs == Mixed(attrs, other.color.attrs)
    {
      if !other.CmykValue? {
        return Err(NotCmykOperand);
      }
      var o := other.color;
      ghost var sum := Sum(attrs, o.attrs);
      var newAttrs: Hash := map[];
      for i := 0 to |ChannelOrder|
        invariant forall ch :: ch in newAttrs <==> ch in ChannelOrder[..i]
        invariant forall ch :: ch in newAttrs ==> newAttrs[ch] == Int(Get(sum, ch))
      {
        var ch := ChannelOrder[i];
        newAttrs := newAttrs[ch := Int(Min(Get(attrs, ch) + Get(o.attrs, ch), 100))];
      }
      assert ChannelOrder[..|ChannelOrder|] == ChannelOrder;
      ConstructOfValid(newAttrs, sum);
      var made := New(newAttrs);
      var normalized := made.value.NormalizeInPlace();
      r := Ok(normalized);
    }

    /** `minus`: subtraction is not supported, whatever the operand. */
    method Minus(other: SassValue) returns (r: Result<Color>)
      ensures r == Err(SubtractionUnsupported)
    {
      r := Err(SubtractionUnsupported);
    }

    /** `times`: scale every component by the number and round; refuse a result over 100,
        let `CMYK.new` refuse a negative one, and normalise the new colour in place. */
    method Times(other: SassValue) returns (r: Result<Color>)
      requires Valid()
      ensures !other.Number? ==> r == Err(NotNumberOperand)
      ensures other.Number? ==>
        var s := Scaled(attrs, ToReal(other.value));
        (r.Err? ==> s == Err(r.error)) &&
        (r.Ok? ==> s.Ok? && fresh(r.value) && r.value.Valid() && r.value.attrs == s.value)
    {
      if !other.Number? {
        return Err(NotNumberOperand);
      }
      var f := ToReal(other.value);
      ghost var raw := ScaledRaw(attrs, f);
      var newAttrs: Hash := map[];
      for i := 0 to |ChannelOrder|
        invariant forall ch :: ch in newAttrs <==> ch in ChannelOrder[..i]
        invariant forall ch :: ch in newAttrs ==> newAttrs[ch] == Int(Get(raw, ch))
      {
        var ch := ChannelOrder[i];
        newAttrs := newAttrs[ch := Int(ScaledComponent(Get(attrs, ch), f))];
      }
      assert ChannelOrder[..|ChannelOrder|] == ChannelOrder;
      ConstructAgrees(newAttrs, AsHash(raw));
      var largest := Max4(newAttrs[Channel.Cyan].i, newAttrs[Channel.Magenta].i,
                          newAttrs[Channel.Yellow].i, newAttrs[Channel.Black].i);
      if largest > 100 {
        return Err(ScaleOver100);
      }
      var made := New(newAttrs);
      if made.Err? {
        return Err(made.error);
      }
      var normalized := made.value.NormalizeInPlace();
      r := Ok(normalized);
    }

    /** `div`: refuse a non-number and zero, otherwise multiply by the reciprocal. */
    method Div(other: SassValue) returns (r: Result<Color>)
      requires Valid()
      ensures !other.Number? ==> r == Err(NotNumberOperand)
      ensures other.Number? ==>
        var s := Divided(attrs, ToReal(other.value));
        (r.Err? ==> s == Err(r.error)) &&
        (r.Ok? ==> s.Ok? && fresh(r.value) && r.value.Valid() && r.value.attrs == s.value)
    {
      if !other.Number? {
        return Err(NotNumberOperand);
      }
      if ToReal(other.value) == 0.0 {
        return Err(DivisionByZero);
      }
      var reciprocal := Number(Float(1.0 / ToReal(other.value)), false);
      r := Times(reciprocal);
    }

    /** `to_s`. */
    function ToString(): string
      reads this
      requires Valid()
    {
      Render(attrs)
    }
  }
}
