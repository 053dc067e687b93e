/** `scale_parameters`: rescaling a parameter dictionary by a length factor
    and a time factor according to each parameter's unit
    (projects/mouse_burrows/algorithm/parameters.py). The module uses true
    division throughout, as the source does after `from __future__ import
    division`, and exact rationals instead of floats. */
module Scaling {
  import opened Wrappers
  import opened Units
  import opened ParameterList
  import opened Parameters

  /** Python's numeric reading of a value: numbers, and booleans as 0 or 1
      (`bool` is a subclass of `int`). Anything else has no arithmetic with
      a real factor. */
  function AsNumber(v: Value): Option<real> {
    match v
    case VNum(n) => Some(n)
    case VBool(b) => Some(if b then 1.0 else 0.0)
    case _ => None
  }

  /** `value * factor`: numbers and booleans multiply, as Python's `bool`
      does with `True` as 1; strings, lists and `None` raise `TypeError`. */
  function Multiply(v: Value, factor: real): (r: Result<Value, PyException>)
    ensures r.Success? <==> v.VNum? || v.VBool?
    ensures r.Failure? ==> r.error == TypeError
    ensures r.Success? ==> r.value.VNum?
    ensures v == VBool(false) ==> r.Success? && r.value == VNum(0.0)
    ensures factor == 1.0 && r.Success? ==> r.value == VNum(AsNumber(v).value)
  {
    match AsNumber(v)
    case None => Failure(TypeError)
    case Some(n) => Success(VNum(n * factor))
  }

  /** The rule of the `if`/`elif` chain for one value of a given unit. */
  function ScaleValue(unit: Option<Unit>, v: Value, factorLength: real, factorTime: real)
    : (r: Result<Value, PyException>)
    ensures r.Failure? ==> r.error == TypeError || r.error == ZeroDivisionError
    ensures r.Failure? && r.error == ZeroDivisionError ==>
      factorTime == 0.0 && (unit == Some(RateFrames) || unit == Some(SpeedPixelFrame))
  {
    match unit
    case Some(LengthPixel) => Multiply(v, factorLength)
    case Some(AreaPixel) => Multiply(v, factorLength * factorLength)
    case Some(TimeFrames) => Multiply(v, factorTime)
    case Some(RateFrames) =>
      // `value /= factor_time`: a non-number fails before the division does
      if AsNumber(v).None? then Failure(TypeError)
      else if factorTime == 0.0 then Failure(ZeroDivisionError)
      else Success(VNum(AsNumber(v).value / factorTime))
    case Some(SpeedPixelFrame) =>
      // `factor_length/factor_time` is evaluated before the multiplication
      if factorTime == 0.0 then Failure(ZeroDivisionError)
      else Multiply(v, factorLength / factorTime)
    case _ => Success(v)
  }

  /** One iteration of the loop: look the key up in the registry `reg`
      (`PARAMETERS`; a `KeyError` for an unknown key), then apply its unit's
      rule. */
  function ScaleEntry(reg: map<string, Parameter>, key: string, v: Value,
                      factorLength: real, factorTime: real)
    : (r: Result<Value, PyException>)
    ensures r.Failure? && r.error.KeyError? <==> key !in reg
    ensures r.Failure? && r.error.KeyError? ==> r.error.key == key
  {
    if key !in reg then Failure(KeyError(key))
    else ScaleValue(reg[key].unit, v, factorLength, factorTime)
  }

  /** The rescaled units whose rule divides by the time factor. */
  predicate DividesByTime(unit: Unit) {
    unit == RateFrames || unit == SpeedPixelFrame
  }

  /** The number a value of a rescaled unit is multiplied by. */
  function Multiplier(unit: Unit, factorLength: real, factorTime: real): real
    requires DividesByTime(unit) ==> factorTime != 0.0
  {
    match unit
    case LengthPixel => factorLength
    case AreaPixel => factorLength * factorLength
    case TimeFrames => factorTime
    case RateFrames => 1.0 / factorTime
    case SpeedPixelFrame => factorLength / factorTime
    case _ => 1.0
  }

  /** `after` is `before` rescaled by the rule of `unit`: a rescaled unit
      turns a number into that number times the unit's multiplier, any other
      unit keeps the value as it is. */
  ghost predicate ByUnit(unit: Option<Unit>, before: Value, after: Value,
                         factorLength: real, factorTime: real) {
    if IsScaled(unit) then
      && AsNumber(before).Some?
      && (DividesByTime(unit.value) ==> factorTime != 0.0)
      && after == VNum(AsNumber(before).value * Multiplier(unit.value, factorLength, factorTime))
    else after == before
  }

  // The lemmas below come in families with one member per rescaled unit
  // (`*ByUnit`, `*Rule`, `*Entry`, `*Compose`, `*Num`), each family joined by
  // one lemma that matches on the unit. Real multiplication is nonlinear, and
  // a single proof covering all five units at once does not verify reliably;
  // one small proof obligation per unit does. The one-line arithmetic lemmas
  // at the end of the module (`MulAssoc`, `DivCompose`, ...) serve the same
  // purpose: each names one algebraic step so that no proof has to find it.

  /** A successful rescaling of one value follows the unit's multiplier. */
  lemma ScaleValueByUnit(unit: Option<Unit>, v: Value, factorLength: real, factorTime: real)
    requires ScaleValue(unit, v, factorLength, factorTime).Success?
    ensures ByUnit(unit, v, ScaleValue(unit, v, factorLength, factorTime).value, factorLength, factorTime)
  {
    match unit
    case Some(LengthPixel) => LengthByUnit(v, factorLength, factorTime);
    case Some(AreaPixel) => AreaByUnit(v, factorLength, factorTime);
    case Some(TimeFrames) => TimeByUnit(v, factorLength, factorTime);
    case Some(RateFrames) => RateByUnit(v, factorLength, factorTime);
    case Some(SpeedPixelFrame) => SpeedByUnit(v, factorLength, factorTime);
    case _ => assert !IsScaled(unit);
  }

  lemma LengthByUnit(v: Value, f: real, g: real)
    requires ScaleValue(Some(LengthPixel), v, f, g).Success?
    ensures ByUnit(Some(LengthPixel), v, ScaleValue(Some(LengthPixel), v, f, g).value, f, g)
  {
    LengthRule(v, f, g);
  }

  lemma AreaByUnit(v: Value, f: real, g: real)
    requires ScaleValue(Some(AreaPixel), v, f, g).Success?
    ensures ByUnit(Some(AreaPixel), v, ScaleValue(Some(AreaPixel), v, f, g).value, f, g)
  {
    AreaRule(v, f, g);
    assert Multiplier(AreaPixel, f, g) == f * f;
  }

  lemma TimeByUnit(v: Value, f: real, g: real)
    requires ScaleValue(Some(TimeFrames), v, f, g).Success?
    ensures ByUnit(Some(TimeFrames), v, ScaleValue(Some(TimeFrames), v, f, g).value, f, g)
  {
    TimeRule(v, f, g);
  }

  lemma RateByUnit(v: Value, f: real, g: real)
    requires ScaleValue(Some(RateFrames), v, f, g).Success?
    ensures ByUnit(Some(RateFrames), v, ScaleValue(Some(RateFrames), v, f, g).value, f, g)
  {
    RateRule(v, f, g);
    DivIsMulInverse(AsNumber(v).value, g);
  }

  lemma SpeedByUnit(v: Value, f: real, g: real)
    requires ScaleValue(Some(SpeedPixelFrame), v, f, g).Success?
    ensures ByUnit(Some(SpeedPixelFrame), v, ScaleValue(Some(SpeedPixelFrame), v, f, g).value, f, g)
  {
    SpeedRule(v, f, g);
  }

  // The rule of each rescaled unit on a number, one unit per lemma.

  lemma LengthRule(v: Value, f: real, g: real)
    requires AsNumber(v).Some?
    ensures ScaleValue(Some(LengthPixel), v, f, g).Success?
    ensures ScaleValue(Some(LengthPixel), v, f, g).value == VNum(AsNumber(v).value * f)
  {
  }

  lemma AreaRule(v: Value, f: real, g: real)
    requires AsNumber(v).Some?
    ensures ScaleValue(Some(AreaPixel), v, f, g).Success?
    ensures ScaleValue(Some(AreaPixel), v, f, g).value == VNum(AsNumber(v).value * (f * f))
  {
  }

  lemma TimeRule(v: Value, f: real, g: real)
    requires AsNumber(v).Some?
    ensures ScaleValue(Some(TimeFrames), v, f, g).Success?
    ensures ScaleValue(Some(TimeFrames), v, f, g).value == VNum(AsNumber(v).value * g)
  {
  }

  lemma RateRule(v: Value, f: real, g: real)
    requires AsNumber(v).Some? && g != 0.0
    ensures ScaleValue(Some(RateFrames), v, f, g).Success?
    ensures ScaleValue(Some(RateFrames), v, f, g).value == VNum(AsNumber(v).value / g)
  {
  }

  lemma SpeedRule(v: Value, f: real, g: real)
    requires AsNumber(v).Some? && g != 0.0
    ensures ScaleValue(Some(SpeedPixelFrame), v, f, g).Success?
    ensures ScaleValue(Some(SpeedPixelFrame), v, f, g).value == VNum(AsNumber(v).value * (f / g))
  {
  }

  lemma DivIsMulInverse(n: real, t: real)
    requires t != 0.0
    ensures n / t == n * (1.0 / t)
  {
  }

  /** Every entry of `params` can be rescaled without an exception. */
  ghost predicate Scalable(reg: map<string, Parameter>, params: map<string, Value>, factorLength: real, factorTime: real) {
    forall k :: k in params ==> ScaleEntry(reg, k, params[k], factorLength, factorTime).Success?
  }

  /** `params` uses only known keys and holds a number wherever the unit is
      rescaled. */
  ghost predicate WellTyped(reg: map<string, Parameter>, params: map<string, Value>) {
    forall k :: k in params ==> k in reg && (IsScaled(reg[k].unit) ==> params[k].VNum?)
  }

  /** Scaling succeeds exactly when every key is known, every rescaled value
      is a number or a boolean, and no rate or speed needs a division by a
      zero time factor. */
  lemma ScalableIff(reg: map<string, Parameter>, params: map<string, Value>, factorLength: real, factorTime: real)
    ensures Scalable(reg, params, factorLength, factorTime) <==>
      forall k :: k in params ==>
        && k in reg
        && (IsScaled(reg[k].unit) ==> AsNumber(params[k]).Some?)
        && (reg[k].unit in {Some(RateFrames), Some(SpeedPixelFrame)} ==> factorTime != 0.0)
  {
  }

  /** The dictionary after a complete, successful pass: the same keys, each
      value rescaled by the rule of its unit. */
  function ScaledMap(reg: map<string, Parameter>, params: map<string, Value>,
                     factorLength: real, factorTime: real)
    : (r: map<string, Value>)
    requires Scalable(reg, params, factorLength, factorTime)
    ensures r.Keys == params.Keys
    ensures forall k :: k in params ==>
      k in reg && ByUnit(reg[k].unit, params[k], r[k], factorLength, factorTime)
  {
    var r := map k | k in params :: ScaleEntry(reg, k, params[k], factorLength, factorTime).value;
    assert forall k :: k in params ==> ByUnit(reg[k].unit, params[k], r[k], factorLength, factorTime) by {
      forall k | k in params
        ensures ByUnit(reg[k].unit, params[k], r[k], factorLength, factorTime)
      {
        ScaleValueByUnit(reg[k].unit, params[k], factorLength, factorTime);
      }
    }
    r
  }

  /** The rule of each unit spelled out: lengths by `factor_length`, areas by
      its square, times by `factor_time`, rates divided by it, speeds by
      `factor_length/factor_time`; every other unit is left alone. */
  lemma ScaledMapPerUnit(reg: map<string, Parameter>, params: map<string, Value>,
                         factorLength: real, factorTime: real, k: string)
    requires Scalable(reg, params, factorLength, factorTime)
    requires k in params
    ensures k in reg
    ensures reg[k].unit == Some(LengthPixel) ==> (
      && AsNumber(params[k]).Some?
      && ScaledMap(reg, params, factorLength, factorTime)[k] == VNum(AsNumber(params[k]).value * factorLength))
    ensures reg[k].unit == Some(AreaPixel) ==> (
      && AsNumber(params[k]).Some?
      && ScaledMap(reg, params, factorLength, factorTime)[k]
         == VNum(AsNumber(params[k]).value * (factorLength * factorLength)))
    ensures reg[k].unit == Some(TimeFrames) ==> (
      && AsNumber(params[k]).Some?
      && ScaledMap(reg, params, factorLength, factorTime)[k] == VNum(AsNumber(params[k]).value * factorTime))
    ensures reg[k].unit == Some(RateFrames) ==> (
      && AsNumber(params[k]).Some? && factorTime != 0.0
      && ScaledMap(reg, params, factorLength, factorTime)[k] == VNum(AsNumber(params[k]).value / factorTime))
    ensures reg[k].unit == Some(SpeedPixelFrame) ==> (
      && AsNumber(params[k]).Some? && factorTime != 0.0
      && ScaledMap(reg, params, factorLength, factorTime)[k]
         == VNum(AsNumber(params[k]).value * (factorLength / factorTime)))
    ensures !IsScaled(reg[k].unit) ==> ScaledMap(reg, params, factorLength, factorTime)[k] == params[k]
  {
    EntryOfScaledMap(reg, params, factorLength, factorTime, k);
    var unit := reg[k].unit;
    if unit == Some(LengthPixel) {
      LengthEntry(reg, params, factorLength, factorTime, k);
    } else if unit == Some(AreaPixel) {
      AreaEntry(reg, params, factorLength, factorTime, k);
    } else if unit == Some(TimeFrames) {
      TimeEntry(reg, params, factorLength, factorTime, k);
    } else if unit == Some(RateFrames) {
      RateEntry(reg, params, factorLength, factorTime, k);
    } else if unit == Some(SpeedPixelFrame) {
      SpeedEntry(reg, params, factorLength, factorTime, k);
    }
  }

  // The entry of a complete pass under a key of each rescaled unit.

  lemma LengthEntry(reg: map<string, Parameter>, params: map<string, Value>,
                    factorLength: real, factorTime: real, k: string)
    requires Scalable(reg, params, factorLength, factorTime)
    requires k in params && k in reg && reg[k].unit == Some(LengthPixel)
    ensures AsNumber(params[k]).Some?
    ensures ScaledMap(reg, params, factorLength, factorTime)[k] == VNum(AsNumber(params[k]).value * factorLength)
  {
    EntryOfScaledMap(reg, params, factorLength, factorTime, k);
    LengthRule(params[k], factorLength, factorTime);
  }

  lemma AreaEntry(reg: map<string, Parameter>, params: map<string, Value>,
                  factorLength: real, factorTime: real, k: string)
    requires Scalable(reg, params, factorLength, factorTime)
    requires k in params && k in reg && reg[k].unit == Some(AreaPixel)
    ensures AsNumber(params[k]).Some?
    ensures ScaledMap(reg, params, factorLength, factorTime)[k]
         == VNum(AsNumber(params[k]).value * (factorLength * factorLength))
  {
    EntryOfScaledMap(reg, params, factorLength, factorTime, k);
    AreaRule(params[k], factorLength, factorTime);
  }

  lemma TimeEntry(reg: map<string, Parameter>, params: map<string, Value>,
                  factorLength: real, factorTime: real, k: string)
    requires Scalable(reg, params, factorLength, factorTime)
    requires k in params && k in reg && reg[k].unit == Some(TimeFrames)
    ensures AsNumber(params[k]).Some?
    ensures ScaledMap(reg, params, factorLength, factorTime)[k] == VNum(AsNumber(params[k]).value * factorTime)
  {
    EntryOfScaledMap(reg, params, factorLength, factorTime, k);
    TimeRule(params[k], factorLength, factorTime);
  }

  lemma RateEntry(reg: map<string, Parameter>, params: map<string, Value>,
                  factorLength: real, factorTime: real, k: string)
    requires Scalable(reg, params, factorLength, factorTime)
    requires k in params && k in reg && reg[k].unit == Some(RateFrames)
    ensures AsNumber(params[k]).Some? && factorTime != 0.0
    ensures ScaledMap(reg, params, factorLength, factorTime)[k] == VNum(AsNumber(params[k]).value / factorTime)
  {
    EntryOfScaledMap(reg, params, factorLength, factorTime, k);
    RateRule(params[k], factorLength, factorTime);
  }

  lemma SpeedEntry(reg: map<string, Parameter>, params: map<string, Value>,
                   factorLength: real, factorTime: real, k: string)
    requires Scalable(reg, params, factorLength, factorTime)
    requires k in params && k in reg && reg[k].unit == Some(SpeedPixelFrame)
    ensures AsNumber(params[k]).Some? && factorTime != 0.0
    ensures ScaledMap(reg, params, factorLength, factorTime)[k]
         == VNum(AsNumber(params[k]).value * (factorLength / factorTime))
  {
    EntryOfScaledMap(reg, params, factorLength, factorTime, k);
    SpeedRule(params[k], factorLength, factorTime);
  }

  /** The entry of a complete pass under `k` is that key's rescaled value. */
  lemma EntryOfScaledMap(reg: map<string, Parameter>, params: map<string, Value>,
                         factorLength: real, factorTime: real, k: string)
    requires Scalable(reg, params, factorLength, factorTime)
    requires k in params
    ensures k in reg
    ensures ScaleValue(reg[k].unit, params[k], factorLength, factorTime).Success?
    ensures ScaledMap(reg, params, factorLength, factorTime)[k]
         == ScaleValue(reg[k].unit, params[k], factorLength, factorTime).value
  {
    assert ScaleEntry(reg, k, params[k], factorLength, factorTime).Success?;
  }

  /** The iteration order is an enumeration of the dictionary's keys. */
  ghost predicate EnumeratesKeys(order: seq<string>, params: map<string, Value>) {
    && (forall i :: 0 <= i < |order| ==> order[i] in params)
    && (forall k :: k in params ==> k in order)
    && (forall i, j :: 0 <= i < j < |order| ==> order[i] != order[j])
  }

  /** `scale_parameters(parameters, factor_length, factor_time)`, visiting
      the keys in the dictionary's iteration order `order`. The dictionary is
      updated in place, so `out` is its content when the call returns or
      raises; `err` is the exception raised, if any. */
  method ScaleParametersWith(reg: map<string, Parameter>, params: map<string, Value>, order: seq<string>,
                         factorLength: real, factorTime: real)
    returns (out: map<string, Value>, err: Option<PyException>)
    requires EnumeratesKeys(order, params)
    ensures out.Keys == params.Keys
    ensures err.None? <==> Scalable(reg, params, factorLength, factorTime)
    ensures err.None? ==> out == ScaledMap(reg, params, factorLength, factorTime)
    ensures err.Some? ==> exists i ::
      && 0 <= i < |order|
      // the first key whose entry raises ...
      && ScaleEntry(reg, order[i], params[order[i]], factorLength, factorTime) == Failure(err.value)
      // ... after every earlier key was rescaled ...
      && (forall j :: 0 <= j < i ==>
            ScaleEntry(reg, order[j], params[order[j]], factorLength, factorTime)
              == Success(out[order[j]]))
      // ... and no later key was touched
      && (forall j :: i <= j < |order| ==> out[order[j]] == params[order[j]])
  {
    out := params;
    var i := 0;
    while i < |order|
      invariant 0 <= i <= |order|
      invariant out.Keys == params.Keys
      invariant forall j :: 0 <= j < i ==>
        ScaleEntry(reg, order[j], params[order[j]], factorLength, factorTime) == Success(out[order[j]])
      invariant forall j :: i <= j < |order| ==> out[order[j]] == params[order[j]]
    {
      var key := order[i];
      var scaled := ScaleEntry(reg, key, out[key], factorLength, factorTime);
      if scaled.Failure? {
        err := Some(scaled.error);
        assert !Scalable(reg, params, factorLength, factorTime) by {
          assert ScaleEntry(reg, key, params[key], factorLength, factorTime).Failure?;
        }
        return;
      }
      out := out[key := scaled.value];
      i := i + 1;
    }
    err := None;
    forall k | k in params
      ensures ScaleEntry(reg, k, params[k], factorLength, factorTime) == Success(out[k])
    {
      var j :| 0 <= j < |order| && order[j] == k;
    }
  }

  /** `scale_parameters` against the program's own `PARAMETERS`. */
  method ScaleParameters(params: map<string, Value>, order: seq<string>,
                         factorLength: real, factorTime: real)
    returns (out: map<string, Value>, err: Option<PyException>)
    requires EnumeratesKeys(order, params)
    ensures out.Keys == params.Keys
    ensures err.None? <==> Scalable(Registry, params, factorLength, factorTime)
    ensures err.None? ==> out == ScaledMap(Registry, params, factorLength, factorTime)
    ensures err.Some? ==> exists i ::
      && 0 <= i < |order|
      && ScaleEntry(Registry, order[i], params[order[i]], factorLength, factorTime) == Failure(err.value)
      && (forall j :: 0 <= j < i ==>
            ScaleEntry(Registry, order[j], params[order[j]], factorLength, factorTime)
              == Success(out[order[j]]))
      && (forall j :: i <= j < |order| ==> out[order[j]] == params[order[j]])
  {
    out, err := ScaleParametersWith(Registry, params, order, factorLength, factorTime);
  }

  /** The default factors `(1, 1)` leave a well-typed dictionary unchanged. */
  lemma ScaleByOneIsIdentity(reg: map<string, Parameter>, params: map<string, Value>)
    requires WellTyped(reg, params)
    ensures Scalable(reg, params, 1.0, 1.0)
    ensures ScaledMap(reg, params, 1.0, 1.0) == params
  {
    ScalableIff(reg, params, 1.0, 1.0);
  }

  /** One value rescaled twice is the value rescaled once by the products
      of the factors. */
  lemma ScaleValueCompose(unit: Option<Unit>, v: Value, a: real, b: real, c: real, d: real)
    requires ScaleValue(unit, v, a, b).Success?
    requires b != 0.0 && d != 0.0
    ensures ScaleValue(unit, ScaleValue(unit, v, a, b).value, c, d).Success?
    ensures ScaleValue(unit, v, a * c, b * d).Success?
    ensures ScaleValue(unit, ScaleValue(unit, v, a, b).value, c, d).value
         == ScaleValue(unit, v, a * c, b * d).value
  {
    if IsScaled(unit) {
      var n := AsNumber(v).value;
      ScaleValueOfNumber(unit.value, v, a, b);
      ScaleValueOfNumber(unit.value, v, a * c, b * d);
      ScaledUnitCompose(unit.value, n, a, b, c, d);
    }
  }

  /** Under a rescaled unit a value counts only through its number. */
  lemma ScaleValueOfNumber(unit: Unit, v: Value, f: real, g: real)
    requires IsScaled(Some(unit)) && AsNumber(v).Some?
    ensures ScaleValue(Some(unit), v, f, g).Success? == ScaleValue(Some(unit), VNum(AsNumber(v).value), f, g).Success?
    ensures ScaleValue(Some(unit), v, f, g).Success? ==>
      ScaleValue(Some(unit), v, f, g).value == ScaleValue(Some(unit), VNum(AsNumber(v).value), f, g).value
  {
  }

  /** The same for a number under a rescaled unit. */
  lemma ScaledUnitCompose(unit: Unit, n: real, a: real, b: real, c: real, d: real)
    requires IsScaled(Some(unit))
    requires b != 0.0 && d != 0.0
    ensures ScaleValue(Some(unit), VNum(n), a, b).Success?
    ensures ScaleValue(Some(unit), ScaleValue(Some(unit), VNum(n), a, b).value, c, d).Success?
    ensures ScaleValue(Some(unit), VNum(n), a * c, b * d).Success?
    ensures ScaleValue(Some(unit), ScaleValue(Some(unit), VNum(n), a, b).value, c, d).value
         == ScaleValue(Some(unit), VNum(n), a * c, b * d).value
  {
    match unit
    case LengthPixel => LengthCompose(n, a, b, c, d);
    case AreaPixel => AreaCompose(n, a, b, c, d);
    case TimeFrames => TimeCompose(n, a, b, c, d);
    case RateFrames => RateCompose(n, a, b, c, d);
    case SpeedPixelFrame => SpeedCompose(n, a, b, c, d);
  }

  // Two rescalings against one, one unit per lemma.

  lemma LengthCompose(n: real, a: real, b: real, c: real, d: real)
    ensures ScaleValue(Some(LengthPixel), VNum(n), a, b).Success?
    ensures ScaleValue(Some(LengthPixel), ScaleValue(Some(LengthPixel), VNum(n), a, b).value, c, d).Success?
    ensures ScaleValue(Some(LengthPixel), VNum(n), a * c, b * d).Success?
    ensures ScaleValue(Some(LengthPixel), ScaleValue(Some(LengthPixel), VNum(n), a, b).value, c, d).value
         == ScaleValue(Some(LengthPixel), VNum(n), a * c, b * d).value
  {
    LengthNum(n, a, b);
    LengthNum(n * a, c, d);
    LengthNum(n, a * c, b * d);
    MulAssoc(n, a, c);
  }

  lemma AreaCompose(n: real, a: real, b: real, c: real, d: real)
    ensures ScaleValue(Some(AreaPixel), VNum(n), a, b).Success?
    ensures ScaleValue(Some(AreaPixel), ScaleValue(Some(AreaPixel), VNum(n), a, b).value, c, d).Success?
    ensures ScaleValue(Some(AreaPixel), VNum(n), a * c, b * d).Success?
    ensures ScaleValue(Some(AreaPixel), ScaleValue(Some(AreaPixel), VNum(n), a, b).value, c, d).value
         == ScaleValue(Some(AreaPixel), VNum(n), a * c, b * d).value
  {
    AreaNum(n, a, b);
    assert ScaleValue(Some(AreaPixel), VNum(n), a, b).value == VNum(n * (a * a));
    AreaNum(n * (a * a), c, d);
    assert ScaleValue(Some(AreaPixel), VNum(n * (a * a)), c, d).value == VNum(n * (a * a) * (c * c));
    AreaNum(n, a * c, b * d);
    assert ScaleValue(Some(AreaPixel), VNum(n), a * c, b * d).value == VNum(n * ((a * c) * (a * c)));
    AreaArith(n, a, c);
    assert n * (a * a) * (c * c) == n * ((a * c) * (a * c));
  }

  lemma TimeCompose(n: real, a: real, b: real, c: real, d: real)
    ensures ScaleValue(Some(TimeFrames), VNum(n), a, b).Success?
    ensures ScaleValue(Some(TimeFrames), ScaleValue(Some(TimeFrames), VNum(n), a, b).value, c, d).Success?
    ensures ScaleValue(Some(TimeFrames), VNum(n), a * c, b * d).Success?
    ensures ScaleValue(Some(TimeFrames), ScaleValue(Some(TimeFrames), VNum(n), a, b).value, c, d).value
         == ScaleValue(Some(TimeFrames), VNum(n), a * c, b * d).value
  {
    TimeNum(n, a, b);
    TimeNum(n * b, c, d);
    TimeNum(n, a * c, b * d);
    MulAssoc(n, b, d);
  }

  lemma RateCompose(n: real, a: real, b: real, c: real, d: real)
    requires b != 0.0 && d != 0.0
    ensures ScaleValue(Some(RateFrames), VNum(n), a, b).Success?
    ensures ScaleValue(Some(RateFrames), ScaleValue(Some(RateFrames), VNum(n), a, b).value, c, d).Success?
    ensures ScaleValue(Some(RateFrames), VNum(n), a * c, b * d).Success?
    ensures ScaleValue(Some(RateFrames), ScaleValue(Some(RateFrames), VNum(n), a, b).value, c, d).value
         == ScaleValue(Some(RateFrames), VNum(n), a * c, b * d).value
  {
    NonzeroProduct(b, d);
    RateNum(n, a, b);
    RateNum(n / b, c, d);
    RateNum(n, a * c, b * d);
    DivCompose(n, b, d);
  }

  lemma SpeedCompose(n: real, a: real, b: real, c: real, d: real)
    requires b != 0.0 && d != 0.0
    ensures ScaleValue(Some(SpeedPixelFrame), VNum(n), a, b).Success?
    ensures ScaleValue(Some(SpeedPixelFrame), ScaleValue(Some(SpeedPixelFrame), VNum(n), a, b).value, c, d).Success?
    ensures ScaleValue(Some(SpeedPixelFrame), VNum(n), a * c, b * d).Success?
    ensures ScaleValue(Some(SpeedPixelFrame), ScaleValue(Some(SpeedPixelFrame), VNum(n), a, b).value, c, d).value
         == ScaleValue(Some(SpeedPixelFrame), VNum(n), a * c, b * d).value
  {
    NonzeroProduct(b, d);
    SpeedNum(n, a, b);
    SpeedNum(n * (a / b), c, d);
    SpeedNum(n, a * c, b * d);
    SpeedArith(n, a, b, c, d);
  }

  // The rule of each rescaled unit on a literal number.

  lemma LengthNum(x: real, f: real, g: real)
    ensures ScaleValue(Some(LengthPixel), VNum(x), f, g).Success?
    ensures ScaleValue(Some(LengthPixel), VNum(x), f, g).value == VNum(x * f)
  {
    LengthRule(VNum(x), f, g);
    MulCongruence(AsNumber(VNum(x)).value, x, f);
  }

  lemma AreaNum(x: real, f: real, g: real)
    ensures ScaleValue(Some(AreaPixel), VNum(x), f, g).Success?
    ensures ScaleValue(Some(AreaPixel), VNum(x), f, g).value == VNum(x * (f * f))
  {
    AreaRule(VNum(x), f, g);
    MulCongruence(AsNumber(VNum(x)).value, x, f * f);
  }

  lemma TimeNum(x: real, f: real, g: real)
    ensures ScaleValue(Some(TimeFrames), VNum(x), f, g).Success?
    ensures ScaleValue(Some(TimeFrames), VNum(x), f, g).value == VNum(x * g)
  {
    TimeRule(VNum(x), f, g);
    MulCongruence(AsNumber(VNum(x)).value, x, g);
  }

  lemma RateNum(x: real, f: real, g: real)
    requires g != 0.0
    ensures ScaleValue(Some(RateFrames), VNum(x), f, g).Success?
    ensures ScaleValue(Some(RateFrames), VNum(x), f, g).value == VNum(x / g)
  {
    RateRule(VNum(x), f, g);
  }

  lemma SpeedNum(x: real, f: real, g: real)
    requires g != 0.0
    ensures ScaleValue(Some(SpeedPixelFrame), VNum(x), f, g).Success?
    ensures ScaleValue(Some(SpeedPixelFrame), VNum(x), f, g).value == VNum(x * (f / g))
  {
    SpeedRule(VNum(x), f, g);
    MulCongruence(AsNumber(VNum(x)).value, x, f / g);
  }

  lemma MulCongruence(x: real, y: real, f: real)
    requires x == y
    ensures x * f == y * f
  {
  }

  lemma SpeedArith(n: real, a: real, b: real, c: real, d: real)
    requires b != 0.0 && d != 0.0
    ensures n * (a / b) * (c / d) == n * ((a * c) / (b * d))
  {
    MulAssoc(n, a / b, c / d);
    QuotientCompose(a, b, c, d);
  }

  lemma NonzeroProduct(b: real, d: real)
    requires b != 0.0 && d != 0.0
    ensures b * d != 0.0
  {
  }

  lemma MulAssoc(n: real, x: real, y: real)
    ensures n * x * y == n * (x * y)
  {
  }

  lemma AreaArith(n: real, a: real, c: real)
    ensures n * (a * a) * (c * c) == n * ((a * c) * (a * c))
  {
    MulAssoc(n, a * a, c * c);
    SquareCompose(a, c);
  }

  lemma SquareCompose(a: real, c: real)
    ensures (a * a) * (c * c) == (a * c) * (a * c)
  {
  }

  lemma DivCompose(n: real, b: real, d: real)
    requires b != 0.0 && d != 0.0
    ensures n / b / d == n / (b * d)
  {
  }

  lemma QuotientCompose(a: real, b: real, c: real, d: real)
    requires b != 0.0 && d != 0.0
    ensures (a / b) * (c / d) == (a * c) / (b * d)
  {
  }

  /** Rescaling twice is rescaling once by the products of the factors. */
  lemma ScaleCompose(reg: map<string, Parameter>, params: map<string, Value>, a: real, b: real, c: real, d: real)
    requires Scalable(reg, params, a, b)
    requires b != 0.0 && d != 0.0
    ensures Scalable(reg, ScaledMap(reg, params, a, b), c, d)
    ensures Scalable(reg, params, a * c, b * d)
    ensures ScaledMap(reg, ScaledMap(reg, params, a, b), c, d) == ScaledMap(reg, params, a * c, b * d)
  {
    var once := ScaledMap(reg, params, a, b);
    forall k | k in params
      ensures ScaleEntry(reg, k, once[k], c, d).Success?
      ensures ScaleEntry(reg, k, params[k], a * c, b * d).Success?
      ensures ScaleEntry(reg, k, once[k], c, d).value == ScaleEntry(reg, k, params[k], a * c, b * d).value
    {
      ScaleValueCompose(reg[k].unit, params[k], a, b, c, d);
    }
  }

  /** Rescaling by non-zero factors is undone by rescaling with their
      reciprocals. */
  lemma ScaleInverse(reg: map<string, Parameter>, params: map<string, Value>, a: real, b: real)
    requires WellTyped(reg, params)
    requires a != 0.0 && b != 0.0
    ensures Scalable(reg, params, a, b)
    ensures Scalable(reg, ScaledMap(reg, params, a, b), 1.0 / a, 1.0 / b)
    ensures ScaledMap(reg, ScaledMap(reg, params, a, b), 1.0 / a, 1.0 / b) == params
  {
    ScalableIff(reg, params, a, b);
    var ia, ib := 1.0 / a, 1.0 / b;
    ScaleCompose(reg, params, a, b, ia, ib);
    var one, other := a * ia, b * ib;
    assert one == 1.0 && other == 1.0;
    ScaleByOneIsIdentity(reg, params);
  }

  /** A key that `PARAMETERS` does not know makes the whole pass fail. */
  lemma UnknownKeyFails(reg: map<string, Parameter>, params: map<string, Value>, key: string, factorLength: real, factorTime: real)
    requires key in params && key !in reg
    ensures !Scalable(reg, params, factorLength, factorTime)
    ensures ScaleEntry(reg, key, params[key], factorLength, factorTime) == Failure(KeyError(key))
  {
  }
}
