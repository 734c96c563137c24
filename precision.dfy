/** `count_sig_digits`, `round_to_sig_figs` and `calculateLiquidationTargPrice`
    (main.py:18-32). The floating-point primitives they call are parameters. */
module PrecisionMath {

  /** The floating-point primitives the source relies on: `int(round(math.log10(x)))`,
      `int(math.floor(math.log10(x)))` and the built-in `round(x, ndigits)`. */
  datatype FloatOps = FloatOps(
    roundLog10: real -> int,
    floorLog10: real -> int,
    roundTo: (real, int) -> real)

  function Abs(x: real): real { if x < 0.0 then -x else x }

  /** `count_sig_digits`: a tick size of 1 or more counts as one digit; a fractional tick
      size counts the magnitude of its rounded base-10 logarithm. */
  function CountSigDigits(f: FloatOps, precision: real): (d: int)
    ensures d >= 0
    ensures precision >= 1.0 ==> d == 1
  {
    if precision < 1.0 then
      var e := f.roundLog10(precision);
      if e < 0 then -e else e
    else 1
  }

  /** `round_to_sig_figs`: zero stays zero; anything else is rounded at the decimal
      position given by its magnitude. */
  function RoundToSigFigs(f: FloatOps, num: real, sigFigs: int): (r: real)
    ensures num == 0.0 ==> r == 0.0
  {
    if num == 0.0 then 0.0
    else f.roundTo(num, sigFigs - f.floorLog10(Abs(num)) - 1)
  }

  /** The unrounded target of `calculateLiquidationTargPrice(_liqprice, _entryprice, _percnt, ...)`:
      `_entryprice + (_liqprice - _entryprice) * _percnt`, the point a fraction `_percnt` of the way
      from the second argument towards the first. */
  function TargetPrice(liqParam: real, entryParam: real, percent: real): (t: real)
    ensures percent == 0.0 ==> t == entryParam
    ensures percent == 1.0 ==> t == liqParam
    ensures liqParam == entryParam ==> t == entryParam
  {
    entryParam + (liqParam - entryParam) * percent
  }

  /** `calculateLiquidationTargPrice`. */
  function CalculateLiquidationTargPrice(f: FloatOps, liqParam: real, entryParam: real, percent: real,
                                         digits: int): (r: real)
    ensures percent == 0.0 ==> r == RoundToSigFigs(f, entryParam, digits)
    ensures percent == 1.0 ==> r == RoundToSigFigs(f, liqParam, digits)
  {
    RoundToSigFigs(f, TargetPrice(liqParam, entryParam, percent), digits)
  }

  /** For a fraction in [0, 1] the target lies between the two prices, and strictly between
      them for a fraction in (0, 1) when they differ. */
  lemma TargetBetween(liqParam: real, entryParam: real, percent: real)
    requires 0.0 <= percent <= 1.0
    ensures var t := TargetPrice(liqParam, entryParam, percent);
            (entryParam <= liqParam ==> entryParam <= t <= liqParam)
            && (liqParam <= entryParam ==> liqParam <= t <= entryParam)
            && (0.0 < percent < 1.0 && entryParam < liqParam ==> entryParam < t < liqParam)
            && (0.0 < percent < 1.0 && liqParam < entryParam ==> liqParam < t < entryParam)
  {
    var d := liqParam - entryParam;
    var t := TargetPrice(liqParam, entryParam, percent);
    assert t == entryParam + d * percent;
    assert d * (1.0 - percent) == d - d * percent;
    if d >= 0.0 {
      ProductSign(d, percent);
      ProductSign(d, 1.0 - percent);
    } else {
      ProductSign(-d, percent);
      ProductSign(-d, 1.0 - percent);
      assert (-d) * percent == -(d * percent);
      assert (-d) * (1.0 - percent) == -(d * (1.0 - percent));
    }
  }

  /** The sign of a product of two non-negative reals. */
  lemma ProductSign(a: real, b: real)
    requires a >= 0.0 && b >= 0.0
    ensures a * b >= 0.0
    ensures a > 0.0 && b > 0.0 ==> a * b > 0.0
  {
  }

  /** Going a fraction p from b towards a is going 1 - p from a towards b. */
  lemma TargetFromOtherEnd(a: real, b: real, p: real)
    ensures TargetPrice(a, b, p) == TargetPrice(b, a, 1.0 - p)
  {
  }
}
