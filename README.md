# sass-cmyk in Dafny

A model of the sass-cmyk plugin, which adds a CMYK colour value to Sass. A colour holds four integer
percentages: cyan, magenta, yellow and black.

- **Construction.** `CMYK.new` drops every entry that is not an integer in [0, 100], then raises
  unless all four keys are left.
- **Normalisation.** It moves the gray shared by cyan, magenta and yellow into black, capped at 100
  (gray component replacement). It comes in two forms:
  - a form that returns a new colour, `normalize`;
  - an in-place form, `normalize!`.
- **Mixing.** `plus` adds component by component, saturating at 100, and normalises.
- **Scaling.** `times` multiplies every component by a number and rounds. It refuses any result
  over 100, and the constructor's filter refuses a negative one. `div` is `times` by the
  reciprocal, refusing zero.
- **Subtraction.** `minus` always raises.
- **Rendering.** `to_s` gives `cmyk(C%,M%,Y%,K%)`.
- **The three Sass functions.**
  - `cmyk` builds a colour from four numbers, each a percentage or a fraction.
  - `cmyk_mix` mixes two colours.
  - `cmyk_scale` scales a colour by a percentage.

The model has five modules.

- `RubyNumbers` (`ruby_numbers.dfy`): Ruby integers and floats, and `Float#round` (halves away from
  zero), on exact reals.
- `Decimal` (`decimal.dfy`): the decimal form of a non-negative integer, as `to_s` prints it, and
  its inverse.
- `CmykClass` (`cmyk_class.dfy`): the colour.
  - Each operation is first stated as a function over the four attributes (`Construct`,
    `Normalized`, `Mixed`, `Scaled`, `Divided`, `Render`), and its properties are proved as lemmas.
  - `class Color` holds `@attrs` in a mutable field. Its methods do what the Ruby methods do:
    - the constructor's `reject!` and the `each` loops of `plus` and `times` are loops over the
      four keys;
    - `normalize!` updates the receiver in place.
  - Each method is proved against the corresponding function.
- `CmykLibrary` (`cmyk_library.dfy`): `cmyk`, `cmyk_mix` and `cmyk_scale`.
- `EarlyCmyk` (`early_cmyk.dfy`): the `cmyk` of the earlier snapshot in `sass-cmyk.rb`.
  - That file's class (lines 1-65) has the same `initialize`, accessors, `normalize`, `normalize!`,
    `_normalize` and `to_s` as the class in `lib/sass-cmyk.rb`, so `CmykClass` models those for
    both. It has none of the four arithmetic methods `plus`, `minus`, `times` and `div`: lines
    55-61 only hold a note that mixing and scaling are still to come. The table below cites one of
    the two files for each shared member. The other file's matching lines are the same code:
    `initialize` 7-12, the accessors 14-28, `normalize` 30-34, `normalize!` 36-40, `_normalize`
    42-53 and `to_s` 62-64.
  - Its `cmyk` checks only the range (line 77), so a fractional percentage such as `20.5%` gets
    through. The constructor's filter then drops it and raises.
  - `SameAsLibrary` proves that both versions accept the same arguments and build the same colour.
    Otherwise both raise an `ArgumentError`.

Errors are values of `Result<T>`, with one `Error` constructor per kind of failure (the non-number operand of `times` and of `div` share one). Values the host passes
in are `SassValue`s. A `SassValue` is one of:

- a number, flagged as carrying the `%` unit or not;
- a CMYK colour;
- anything else.

### Scaling and dividing are not inverses

Multiplying by `s` and then dividing by `s` does not in general give the colour back, even to
within rounding. Scaling normalises its result, so gray moved into black by the first step is not
moved back by the second. `DoubleUnnormalisedExample` and `HalveExample` show this:

- (10, 10, 10, 0) times 2 is (0, 0, 0, 20);
- (0, 0, 0, 20) divided by 2 is (0, 0, 0, 10).

Rounding also loses precision when `s < 1`, even on a normalised colour: (0, 5, 0, 0) times 0.1
rounds to (0, 1, 0, 0), and dividing that by 0.1 gives (0, 10, 0, 0). Scaling down first rounds a
small value, and scaling up afterwards magnifies that rounding error by `1/s`.

The round trip is within 1 per component for colours that are already normalised, with
`s >= 1` (`ScaleThenDivide`).

## Model

| member | source | states |
|---|---|---|
| RubyNumbers.Round | lib/sass-cmyk.rb:88 | `.round` gives an integer within one half of its argument, and a tie goes away from zero |
| RubyNumbers.RoundUnique | lib/sass-cmyk.rb:88 | exactly one integer meets those conditions, so they define `.round` |
| RubyNumbers.RoundIntegral | lib/sass-cmyk.rb:121 | rounding an integral value gives that integer back |
| Decimal.NatToString | lib/sass-cmyk.rb:109 | an integer prints as a non-empty string of decimal digits, one digit exactly when it is below 10, with no leading zero unless it is 0 |
| Decimal.ValueOfNatToString | lib/sass-cmyk.rb:109 | reading the printed digits back gives the integer |
| Decimal.NatToStringInjective | lib/sass-cmyk.rb:109 | distinct integers print differently |
| Decimal.DigitsPrefixUnique | lib/sass-cmyk.rb:109 | a run of digits followed by a non-digit splits only one way |
| CmykClass.Construct | lib/sass-cmyk.rb:11-16 | `CMYK.new` succeeds exactly when all four keys hold integers in [0, 100], keeps exactly those integers, and otherwise raises `ArgumentError` |
| CmykClass.ConstructOfValid | sass-cmyk.rb:7-12 | a hash holding valid integer components builds exactly that colour |
| CmykClass.ConstructValid | lib/sass-cmyk.rb:11-16 | a colour's own attributes always pass the constructor again |
| CmykClass.ConstructExamples | spec/sass-cmyk_spec.rb:7-26 | (10, 20, 30, 40) builds; a missing key, 120, -2 and 20.5 each raise |
| CmykClass.Color.New | lib/sass-cmyk.rb:11-16 | the `reject!` loop followed by the key check raises exactly when `Construct` does, else it returns a fresh colour holding `Construct`'s attributes |
| CmykClass.Color.FromAttrs | lib/sass-cmyk.rb:15 | stores the validated attributes |
| CmykClass.Color.Cyan | lib/sass-cmyk.rb:18-20 | returns the stored cyan percentage, in [0, 100], reading only the receiver |
| CmykClass.Color.Magenta | lib/sass-cmyk.rb:22-24 | returns the stored magenta percentage, in [0, 100] |
| CmykClass.Color.Yellow | lib/sass-cmyk.rb:26-28 | returns the stored yellow percentage, in [0, 100] |
| CmykClass.Color.Black | lib/sass-cmyk.rb:30-32 | returns the stored black percentage, in [0, 100] |
| CmykClass.Normalized | lib/sass-cmyk.rb:46-57 | `_normalize` yields a valid colour in which some chromatic channel is 0 |
| CmykClass.NormalizedIsGrayReplacement | lib/sass-cmyk.rb:46-57 | C, M and Y each lose the same amount, so hue differences are kept; that amount goes to K, capped at 100; afterwards min(C, M, Y) is 0 |
| CmykClass.NormalizeFixedIff | lib/sass-cmyk.rb:46-57 | normalising changes nothing exactly when some chromatic channel is already 0 |
| CmykClass.NormalizeIdempotent | sass-cmyk.rb:42-53 | normalising twice is normalising once |
| CmykClass.NormalizeSavesInk | lib/sass-cmyk.rb:46-57 | normalising saves at least twice the gray in total ink |
| CmykClass.NormalizeExample | spec/sass-cmyk_spec.rb:59-67 | (20, 40, 60, 70) normalises to (0, 20, 40, 90) |
| CmykClass.NormalizeFixedExample | spec/sass-cmyk_spec.rb:69-77 | (0, 30, 10, 20) is left as it is |
| CmykClass.Color.Normalize | lib/sass-cmyk.rb:34-38 | `normalize` returns a fresh colour holding the normalised attributes; the receiver is untouched |
| CmykClass.Color.NormalizeInPlace | lib/sass-cmyk.rb:40-44 | `normalize!` replaces the receiver's attributes with their normalised form and returns the receiver itself |
| CmykClass.Sum | lib/sass-cmyk.rb:62-66 | the per-component sum capped at 100 is a valid colour |
| CmykClass.Mixed | lib/sass-cmyk.rb:59-74 | the mixed colour is valid and normalised |
| CmykClass.MixNeverFails | lib/sass-cmyk.rb:64-68 | the summed hash always passes `CMYK.new`, so mixing two colours never raises |
| CmykClass.MixCommutative | lib/sass-cmyk.rb:59-74 | `a.plus(b)` and `b.plus(a)` are the same colour |
| CmykClass.MixWithBlank | lib/sass-cmyk.rb:59-74 | adding the blank colour only normalises |
| CmykClass.MixExample | lib/sass-cmyk.rb:59-74 | (25, 50, 0, 0) plus (10, 10, 0, 0) is (35, 60, 0, 0) |
| CmykClass.MixSaturatingExample | lib/sass-cmyk.rb:59-74 | (75, 50, 0, 0) plus (30, 0, 20, 0) saturates cyan and normalises to (80, 30, 0, 20) |
| CmykClass.Color.Plus | lib/sass-cmyk.rb:59-74 | for a colour operand it returns a fresh colour holding the mixed attributes; anything else raises `ArgumentError` |
| CmykClass.Color.Minus | lib/sass-cmyk.rb:76-78 | raises `NoMethodError`, whatever the operand |
| CmykClass.ScaledRaw | lib/sass-cmyk.rb:85-89 | the `each` loop's hash: every component multiplied by the factor and rounded; a zero component stays zero whatever the factor, and a factor of 0 gives (0, 0, 0, 0) |
| CmykClass.Scaled | lib/sass-cmyk.rb:82-99 | whenever `times` succeeds, the result is valid and normalised |
| CmykClass.ScaledSucceedsIff | lib/sass-cmyk.rb:86-95 | `times` succeeds exactly when every rounded component is in [0, 100], and then yields those components normalised |
| CmykClass.ScaledFailures | lib/sass-cmyk.rb:91-93 | a component over 100 raises the scaling error and is never clamped; otherwise a negative component raises the constructor's error; a factor in [0, 1] never fails |
| CmykClass.ScaledPercentInRange | lib/sass-cmyk.rb:88 | a percentage scaled by a factor in [0, 1] rounds into [0, 100] |
| CmykClass.ScaledDownRawValid | lib/sass-cmyk.rb:86-89 | scaling by a factor in [0, 1] keeps all four rounded components in [0, 100] |
| CmykClass.ScaleDownSucceeds | lib/sass-cmyk.rb:82-99 | `times` by a factor in [0, 1] never raises |
| CmykClass.ScaledNormalisedValue | lib/sass-cmyk.rb:93-95 | when scaling a normalised colour by any factor succeeds, it gives exactly the rounded components; the final `normalize!` has nothing to do |
| CmykClass.ScaleByOne | lib/sass-cmyk.rb:82-99 | `times(1)` only normalises |
| CmykClass.ScaleExamples | lib/sass-cmyk.rb:82-99 | (20, 40, 60, 70) times 1.5 raises, because black would be 105; times 0.5 gives (0, 10, 20, 45) |
| CmykClass.Color.Times | lib/sass-cmyk.rb:82-99 | a non-number raises; otherwise it raises exactly when `Scaled` does, with the same error, else it returns a fresh colour holding `Scaled`'s result |
| CmykClass.Divided | lib/sass-cmyk.rb:101-106 | `div` raises the division-by-zero error exactly when the divisor is 0 |
| CmykClass.Color.Div | lib/sass-cmyk.rb:101-106 | a non-number raises, and so does zero; otherwise it is `times` by the reciprocal, as `Divided`'s body defines |
| CmykClass.RoundTripComponent | lib/sass-cmyk.rb:88 | a component multiplied by s >= 1 and rounded, then multiplied by 1/s and rounded, is within 1 of where it started |
| CmykClass.RoundTripRaw | lib/sass-cmyk.rb:86-89 | the same holds for all four components at once |
| CmykClass.ScaleThenDivide | lib/sass-cmyk.rb:82-106 | for a normalised colour and s >= 1, when `times(s)` succeeds, `div(s)` on its result also succeeds and is within 1 of the original in every component |
| CmykClass.DoubleUnnormalisedExample | lib/sass-cmyk.rb:82-99 | (10, 10, 10, 0) times 2 is (0, 0, 0, 20), so the gray has moved into black |
| CmykClass.HalveExample | lib/sass-cmyk.rb:101-106 | (0, 0, 0, 20) divided by 2 is (0, 0, 0, 10), not the (10, 10, 10, 0) it came from |
| CmykClass.Render | lib/sass-cmyk.rb:108-110 | the string `to_s` returns (`Color.ToString` returns it): at least 17 characters, starting `cmyk(` and ending `%)`; `RenderExample`, `RenderHasNoSpace` and `RenderInjective` carry the rest of its promise |
| CmykClass.RenderExample | spec/sass-cmyk_spec.rb:55-57 | (20, 40, 60, 70) renders as `cmyk(20%,40%,60%,70%)` |
| CmykClass.RenderHasNoSpace | sass-cmyk.rb:62-64 | the rendering has no space in it |
| CmykClass.PeelPercent | lib/sass-cmyk.rb:109 | a printed number followed by `%` reads back only one way |
| CmykClass.RenderInjective | lib/sass-cmyk.rb:108-110 | two colours that render the same are the same colour |
| CmykLibrary.PercentOf | lib/sass-cmyk.rb:118-122 | a `%` argument is taken as it is; any other number becomes 100 times its value rounded by `Round`, so within one half of it and with a tie taken away from zero |
| CmykLibrary.CheckedComponent | lib/sass-cmyk.rb:116-128 | a component passes only as a number whose percentage is an integer in [0, 100], and then yields that percentage; it fails with `NotANumber` for a non-number and `InvalidComponent` otherwise, both naming its own channel |
| CmykLibrary.CmykHash | lib/sass-cmyk.rb:116-131 | the hash `cmyk` builds has exactly the four keys, each with a value `CMYK.new` accepts; a failure is a component error |
| CmykLibrary.CmykSpec | lib/sass-cmyk.rb:115-134 | `cmyk` yields a valid colour or a component error; `CMYK.new`'s own error never surfaces |
| CmykLibrary.PercentComponentIff | lib/sass-cmyk.rb:118-128 | a `%` argument is accepted exactly when it is an integer in [0, 100], and is then taken unchanged; `20.0%` and `20.5%` raise `ArgumentError` |
| CmykLibrary.FractionComponentIff | lib/sass-cmyk.rb:120-128 | a plain real argument is accepted exactly when it lies strictly between -0.005 and 1.005; otherwise it raises `ArgumentError` |
| CmykLibrary.IntegerFractionComponentIff | lib/sass-cmyk.rb:120-128 | a plain integer argument is accepted only when it is 0 or 1, giving 0% or 100% |
| CmykLibrary.NonNumberComponent | lib/sass-cmyk.rb:117 | a component that is not a number fails `assert_type` |
| CmykLibrary.CmykSucceedsIff | lib/sass-cmyk.rb:115-134 | `cmyk` succeeds exactly when all four components pass their check, and the colour then holds the four checked percentages |
| CmykLibrary.CmykFirstError | lib/sass-cmyk.rb:116-133 | a failing `cmyk` reports the first failing component, in the order cyan, magenta, yellow, black; the constructor's own error never surfaces |
| CmykLibrary.CmykExamples | lib/sass-cmyk.rb:115-134 | `cmyk(20%, 40%, 60%, 70%)` and `cmyk(0.2, 0.4, 0.6, 0.7)` are both (20, 40, 60, 70) |
| CmykLibrary.CmykRejectsFractionalPercent | lib/sass-cmyk.rb:124-128 | `20.5%` raises at the component check, naming yellow |
| CmykLibrary.Cmyk | lib/sass-cmyk.rb:115-134 | raises exactly when `CmykSpec` does, with the same error, else it returns a fresh colour holding `CmykSpec`'s attributes |
| CmykLibrary.CmykMix | lib/sass-cmyk.rb:138-141 | raises unless both arguments are colours; then it returns the mix of the two |
| CmykLibrary.ScalePercentSucceeds | lib/sass-cmyk.rb:145-150 | `cmyk_scale` by a percentage in [0, 100] never fails |
| CmykLibrary.ScalePercentOver100 | lib/sass-cmyk.rb:145-150 | above 100% it fails exactly when some rounded component exceeds 100, and then with the scaling error |
| CmykLibrary.CmykScaleExample | lib/sass-cmyk.rb:145-150 | `cmyk_scale` of (20, 40, 60, 70) by 50% is (0, 10, 20, 45) |
| CmykLibrary.CmykScale | lib/sass-cmyk.rb:145-150 | raises unless it gets a colour and a `%` number; then it is `times(p / 100)` |
| EarlyCmyk.EarlyComponent | sass-cmyk.rb:69-82 | a component passes exactly when it is a number whose percentage, integer or not, lies in [0, 100], and then yields that percentage; it fails with `NotANumber` or `InvalidComponent` for its own channel |
| EarlyCmyk.EarlyHash | sass-cmyk.rb:69-84 | the hash the earlier `cmyk` builds has exactly the four keys, each with a value in [0, 100]; a failure is a component error |
| EarlyCmyk.EarlyCmykSpec | sass-cmyk.rb:68-87 | the earlier `cmyk` yields a valid colour, or a component error, or `CMYK.new`'s missing-component error |
| EarlyCmyk.EarlyComponentWeaker | sass-cmyk.rb:69-82 | the earlier component check passes everything the later one does, with the same percentage; whatever it refuses, the later one refuses with the same error; anything that only it lets through is dropped by the constructor's filter |
| EarlyCmyk.FractionalPercentPassesRangeCheck | sass-cmyk.rb:77 | `20.5%` passes the range check, and the colour is refused by the constructor at lines 9-10 |
| EarlyCmyk.EarlyAcceptedIff | sass-cmyk.rb:77 | the later check accepts a component exactly when the earlier check and the constructor's filter both do |
| EarlyCmyk.SameAsLibrary | sass-cmyk.rb:68-87 | the earlier `cmyk` succeeds exactly when the later one does, with the same colour, and both raise `ArgumentError` otherwise |
| EarlyCmyk.Cmyk | sass-cmyk.rb:68-87 | raises exactly when `EarlyCmykSpec` does, with the same error, else it returns a fresh colour holding `EarlyCmykSpec`'s attributes |

## Left out

- Sass host integration has no content to model:
  - inheritance from `Sass::Script::Value::Base`;
  - `Sass::Script::Functions.declare`;
  - the module `include`s.
- The host's `assert_type`, `is_unit?("%")` and `Sass::Script::Value::Number` are a tagged input value instead. A number with a unit other than `%` behaves like a unitless one, as in the code.
- Colour equality (`==` in the tests) comes from the host's base class; the model compares attributes.
- IEEE-754 precision of the float arithmetic (`1.0/other.value`, `to_f / 100`, `value * 100`): the model computes on exact reals with round-half-away-from-zero.
- Error message text: each `raise` is an `Error` constructor.
- The aliasing done by `reject!`: it changes the caller's hash, and `@attrs` then shares it. The model copies.
- Hash keys other than the four colour keys: `Hash` has only the four keys, so extra keys that survive the filter and are carried along by `merge` are not represented.
- Hash values that are not numbers: `Num` holds only integers and floats. The code rejects any other value just as it rejects a float, so no outcome is lost.
- `Fixnum` is the integer class of the Ruby versions the code targets. Newer Rubies that drop the name are not modelled.
- The `scalar * CMYK` form does not exist in the code (a TODO at lib/sass-cmyk.rb:80-81).
- CmykClass.Color.ToString: `to_s` has no contract of its own. Its properties are proved about `Render`, which it returns.
