/** The `cmyk` function of the earlier snapshot of the plugin. Its class is the same `CMYK`
    class (construction, accessors, normalisation, rendering), modelled by `CmykClass`; only
    `cmyk` differs: its component check asks just for a value in [0, 100], without demanding
    an integer, so a fractional percentage reaches the constructor, which then refuses it. */
module EarlyCmyk {
  import opened RubyNumbers
  import opened CmykClass
  import opened CmykLibrary

  /** One component of the earlier `cmyk`: a number whose percentage lies in [0, 100]. */
  function EarlyComponent(ch: Channel, v: SassValue): (r: Result<Num>)
    ensures r.Ok? <==> v.Number? && 0.0 <= ToReal(PercentOf(v)) <= 100.0
    ensures r.Ok? ==> r.value == PercentOf(v)
    ensures r.Err? ==> r.error == NotANumber(ch) || r.error == InvalidComponent(ch)
    ensures r.Err? && v.Number? ==> r.error == InvalidComponent(ch)
  {
    if !v.Number? then Err(NotANumber(ch))
    else
      var p := PercentOf(v);
      if !(0.0 <= ToReal(p) <= 100.0) then Err(InvalidComponent(ch)) else Ok(p)
  }

  /** The hash the earlier `cmyk` builds, or the first component error. */
  function EarlyHash(c: SassValue, m: SassValue, y: SassValue, k: SassValue): (r: Result<Hash>)
    ensures r.Ok? ==> r.value.Keys == AllChannels && forall ch :: ch in r.value ==> 0.0 <= ToReal(r.value[ch]) <= 100.0
    ensures r.Err? ==> r.error.NotANumber? || r.error.InvalidComponent?
  {
    match EarlyComponent(Cyan, c)
    case Err(e) => Err(e)
    case Ok(cv) =>
      match EarlyComponent(Magenta, m)
      case Err(e) => Err(e)
      case Ok(mv) =>
        match EarlyComponent(Yellow, y)
        case Err(e) => Err(e)
        case Ok(yv) =>
          match EarlyComponent(Black, k)
          case Err(e) => Err(e)
          case Ok(kv) => Ok(map[Cyan := cv, Magenta := mv, Yellow := yv, Black := kv])
  }

  /** The outcome of the earlier `cmyk(c, m, y, k)`. */
  function EarlyCmykSpec(c: SassValue, m: SassValue, y: SassValue, k: SassValue): (r: Result<Attrs>)
    ensures r.Ok? ==> ValidAttrs(r.value)
    ensures r.Err? ==> r.error.NotANumber? || r.error.InvalidComponent? || r.error == MissingComponent
  {
    match EarlyHash(c, m, y, k)
    case Err(e) => Err(e)
    case Ok(h) => Construct(h)
  }

  /** The earlier check is weaker: it lets through everything the later one does, with the
      same percentage, and it fails with the same error whenever it fails. */
  lemma EarlyComponentWeaker(ch: Channel, v: SassValue)
    ensures CheckedComponent(ch, v).Ok? ==> EarlyComponent(ch, v) == Ok(Int(CheckedComponent(ch, v).value))
    ensures EarlyComponent(ch, v).Err? ==> CheckedComponent(ch, v) == Err(EarlyComponent(ch, v).error)
    ensures EarlyComponent(ch, v).Ok? && CheckedComponent(ch, v).Err? ==>
              !Accepted(EarlyComponent(ch, v).value)
  {
  }

  /** `20.5%` passes the earlier range check; the colour is refused only by the constructor. */
  lemma FractionalPercentPassesRangeCheck()
    ensures EarlyComponent(Yellow, Number(Float(20.5), true)) == Ok(Float(20.5))
    ensures EarlyCmykSpec(Number(Int(10), true), Number(Int(0), true), Number(Float(20.5), true),
                          Number(Int(100), true)) == Err(MissingComponent)
  {
    var h := EarlyHash(Number(Int(10), true), Number(Int(0), true), Number(Float(20.5), true),
                       Number(Int(100), true));
    assert h.Ok? && Yellow in h.value && !Accepted(h.value[Yellow]);
  }

  /** A component passes the later check exactly when it passes the earlier one and the
      constructor's filter keeps what the earlier one yields. */
  lemma EarlyAcceptedIff(ch: Channel, v: SassValue)
    ensures EarlyComponent(ch, v).Ok? && Accepted(EarlyComponent(ch, v).value) <==> CheckedComponent(ch, v).Ok?
  {
    EarlyComponentWeaker(ch, v);
  }

  /** The two versions of `cmyk` agree: one succeeds exactly when the other does, with the
      same colour, and both raise an `ArgumentError` otherwise. */
  lemma SameAsLibrary(c: SassValue, m: SassValue, y: SassValue, k: SassValue)
    ensures EarlyCmykSpec(c, m, y, k).Ok? <==> CmykSpec(c, m, y, k).Ok?
    ensures CmykSpec(c, m, y, k).Ok? ==> EarlyCmykSpec(c, m, y, k) == CmykSpec(c, m, y, k)
    ensures EarlyCmykSpec(c, m, y, k).Err? ==>
              IsArgumentError(EarlyCmykSpec(c, m, y, k).error) && IsArgumentError(CmykSpec(c, m, y, k).error)
  {
    CmykSucceedsIff(c, m, y, k);
    EarlyAcceptedIff(Cyan, c);
    EarlyAcceptedIff(Magenta, m);
    EarlyAcceptedIff(Yellow, y);
    EarlyAcceptedIff(Black, k);
    CmykFirstError(c, m, y, k);
    var h := EarlyHash(c, m, y, k);
    if h.Ok? {
      assert h.value[Cyan] == EarlyComponent(Cyan, c).value;
      assert h.value[Magenta] == EarlyComponent(Magenta, m).value;
      assert h.value[Yellow] == EarlyComponent(Yellow, y).value;
      assert h.value[Black] == EarlyComponent(Black, k).value;
    }
  }

  /** The earlier `cmyk(c, m, y, k)`: check the four components, then call `CMYK.new`. */
  method Cmyk(c: SassValue, m: SassValue, y: SassValue, k: SassValue) returns (r: Result<Color>)
    ensures r.Err? ==> EarlyCmykSpec(c, m, y, k) == Err(r.error)
    ensures r.Ok? ==> EarlyCmykSpec(c, m, y, k).Ok? && fresh(r.value) && r.value.Valid() &&
                      r.value.attrs == EarlyCmykSpec(c, m, y, k).value
  {
    var h := EarlyHash(c, m, y, k);
    if h.Err? {
      return Err(h.error);
    }
    r := Color.New(h.value);
  }
}
