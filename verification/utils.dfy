/** The numeric codec and the addressing guards of the client
    (thermotecaeroflowflexismart/utils.py). Temperatures are exact reals:
    the wire carries integers, and every conversion below is exact. */
module Utils {
  import opened Wrappers
  import opened Text

  /** `int(x)` on a float: truncation toward zero. */
  function Trunc(x: real): (n: int)
    ensures x >= 0.0 ==> n as real <= x < n as real + 1.0
    ensures x < 0.0 ==> n as real - 1.0 < x <= n as real
  {
    if x >= 0.0 then x.Floor else -((-x).Floor)
  }

  /** `x % 1 == 0`: the value has no fractional part. */
  predicate IsWhole(x: real) {
    x == x.Floor as real
  }

  // ------------------------------------------------------------ target temperature

  /** Decodes a target temperature: codes above 128 carry a half degree, (code - 128) + 0.5. */
  function CalculateTemperatureFromInt(value: int): (t: real)
    ensures IsWhole(t) <==> value <= 128
    ensures value <= 128 ==> t == value as real
    ensures value > 128 ==> t.Floor == value - 128 && t - t.Floor as real == 0.5
    ensures IsWhole(2.0 * t)
  {
    if value > 128 then
      var t := (value - 128) as real + 0.5;
      assert 2.0 * t == (2 * value - 255) as real;
      assert (2.0 * t).Floor == 2 * value - 255;
      t
    else
      assert (2.0 * value as real).Floor == 2 * value;
      value as real
  }

  /** Encodes a target temperature: the truncated degrees, plus 128 when there is any fraction. */
  function CalculateIntFromTemperature(temperature: real): (n: int)
    ensures IsWhole(temperature) ==> n as real == temperature
    ensures !IsWhole(temperature) && temperature >= 0.0 ==> n == 128 + temperature.Floor
    ensures !IsWhole(temperature) && temperature < 0.0 ==> n == 129 + temperature.Floor
  {
    var intResponse := Trunc(temperature);
    if !IsWhole(temperature) then 128 + intResponse else intResponse
  }

  /** Every code read from the wire is re-encoded to itself. */
  lemma TemperatureCodeRoundTrip(value: int)
    ensures CalculateIntFromTemperature(CalculateTemperatureFromInt(value)) == value
  {
    var t := CalculateTemperatureFromInt(value);
    if value > 128 {
      assert t.Floor == value - 128;
      assert !IsWhole(t);
      assert Trunc(t) == value - 128;
    }
  }

  /** A temperature in whole degrees up to 128, or in half degrees from 1.5 up, survives encode then decode. */
  lemma TemperatureHalfStepRoundTrip(t: real)
    requires (IsWhole(t) && t <= 128.0) || (IsWhole(t - 0.5) && t >= 1.5)
    ensures CalculateTemperatureFromInt(CalculateIntFromTemperature(t)) == t
  {
    if !IsWhole(t) {
      var k := (t - 0.5).Floor;
      assert t == k as real + 0.5;
      assert t.Floor == k;
      assert Trunc(t) == k;
    }
  }

  /** The codes the set and get tests use, and the one alias of the encoding:
      0.5 degrees encodes to 128, which decodes as 128.0. */
  lemma TemperatureCodecExamples()
    ensures CalculateTemperatureFromInt(128) == 128.0
    ensures CalculateTemperatureFromInt(129) == 1.5
    ensures CalculateTemperatureFromInt(20) == 20.0
    ensures CalculateIntFromTemperature(22.5) == 150
    ensures CalculateIntFromTemperature(21.5) == 149
    ensures CalculateIntFromTemperature(21.0) == 21
    ensures CalculateIntFromTemperature(0.5) == 128
  {
    assert (22.5).Floor == 22;
    assert (21.5).Floor == 21;
    assert (0.5).Floor == 0;
  }

  // ------------------------------------------------------------ offset temperature

  /** Decodes an offset in tenths of a degree, codes 128 and up standing for negatives (one byte). */
  function CalculateTemperatureOffsetFromInt(value: int): (t: real)
    ensures 0 <= value <= 255 ==> -12.8 <= t <= 12.7
    ensures IsWhole(10.0 * t)
    ensures 0 <= value <= 255 ==> (t < 0.0 <==> value >= 128)
    ensures 0 <= value <= 255 ==> ((10.0 * t).Floor - value) % 256 == 0
  {
    var v := if value >= 128 then value - 256 else value;
    v as real / 10.0
  }

  /** Encodes an offset: tenths truncated toward zero, a negative count n sent as 256 - |n|. */
  function CalculateIntFromTemperatureOffset(temperature: real): (n: int)
    ensures -12.8 <= temperature < 12.8 ==> 0 <= n <= 255
    ensures 0.0 <= temperature < 12.8 ==> n < 128
    ensures -12.8 <= temperature <= -0.1 ==> n >= 128
    ensures 0.0 <= temperature < 12.8 ==> n as real <= 10.0 * temperature < n as real + 1.0
    ensures -12.8 <= temperature <= -0.1 ==> (n - 256) as real - 1.0 < 10.0 * temperature <= (n - 256) as real
    ensures -0.1 < temperature < 0.0 ==> n == 0
  {
    var value := Trunc(temperature * 10.0);
    if value < 0 then 256 - (value * -1) else value
  }

  /** Every byte read from the wire is re-encoded to itself. */
  lemma OffsetCodeRoundTrip(value: int)
    requires 0 <= value <= 255
    ensures CalculateIntFromTemperatureOffset(CalculateTemperatureOffsetFromInt(value)) == value
  {
    var v := if value >= 128 then value - 256 else value;
    var t := CalculateTemperatureOffsetFromInt(value);
    assert t * 10.0 == v as real;
    assert Trunc(t * 10.0) == v;
  }

  /** An offset in whole tenths within [-12.8, 12.7] survives encode then decode. */
  lemma OffsetRoundTrip(t: real)
    requires IsWhole(10.0 * t) && -12.8 <= t <= 12.7
    ensures CalculateTemperatureOffsetFromInt(CalculateIntFromTemperatureOffset(t)) == t
  {
    var v := (10.0 * t).Floor;
    assert t * 10.0 == v as real;
    assert Trunc(t * 10.0) == v;
  }

  /** The codes the offset tests use. */
  lemma OffsetCodecExamples()
    ensures CalculateTemperatureOffsetFromInt(10) == 1.0
    ensures CalculateTemperatureOffsetFromInt(246) == -1.0
    ensures CalculateTemperatureOffsetFromInt(157) == -9.9
    ensures CalculateIntFromTemperatureOffset(1.5) == 15
    ensures CalculateIntFromTemperatureOffset(-1.0) == 246
  {
    assert Trunc(1.5 * 10.0) == 15;
    assert Trunc(-1.0 * 10.0) == -10;
  }

  // ------------------------------------------------------------ current temperature

  /** The fraction `second` contributes: its digits after the decimal point. */
  function Fraction(second: nat): (f: real)
    ensures 0.0 <= f < 1.0
  {
    DigitsValueOfNatToString(second);
    BelowOne(second, Pow10(NumDigits(second)));
    second as real / Pow10(NumDigits(second)) as real
  }

  lemma BelowOne(n: nat, d: nat)
    requires n < d
    ensures 0.0 <= n as real / d as real < 1.0
  {
    var q := n as real / d as real;
    assert q * d as real == n as real;
  }

  /** `float(f"{main}.{second}")`: the digits of `second` become the fraction, so
      (18, 8) is 18.8 and (14, 12) is 14.12; a negative `second` makes text no float reads. */
  function CreateCurrentTemperature(main: int, second: int): (r: Option<real>)
    ensures r.Some? <==> second >= 0
    ensures r.Some? && main >= 0 ==> main as real <= r.value < main as real + 1.0
    ensures r.Some? && main < 0 ==> main as real - 1.0 < r.value <= main as real
  {
    if second < 0 then None
    else if main < 0 then Some(-((-main) as real + Fraction(second)))
    else Some(main as real + Fraction(second))
  }

  /** The unsigned part of the text: digits of the integer part, a dot, then `str(second)`. */
  lemma UnsignedDecimalText(m: nat, second: int)
    ensures ParseUnsignedDecimal(NatToString(m) + "." + IntToString(second))
         == if second < 0 then None else Some(m as real + Fraction(second))
  {
    var a := NatToString(m);
    var b := IntToString(second);
    IntToStringChars(m);
    IntToStringChars(second);
    DecimalParts(a, b);
    DigitsValueOfNatToString(m);
    if second >= 0 {
      DigitsValueOfNatToString(second);
    } else {
      assert b[0] == '-';
    }
  }

  /** Two dot-free texts joined by a dot read as a decimal exactly when both are digit runs. */
  lemma DecimalParts(a: string, b: string)
    requires '.' !in a && '.' !in b
    ensures ParseUnsignedDecimal(a + "." + b)
         == if IsDigits(a) && IsDigits(b) then Some(DecimalValue(a, b)) else None
  {
    assert a + "." + b == a + ['.'] + b;
    SplitAfterPiece(a, '.', b);
    SplitPiece(b, '.');
    DecimalOfParts(a, b);
  }

  lemma DecimalOfParts(a: string, b: string)
    requires Split(a + "." + b, '.') == [a, b]
    ensures ParseUnsignedDecimal(a + "." + b)
         == if IsDigits(a) && IsDigits(b) then Some(DecimalValue(a, b)) else None
  {
    var parts := Split(a + "." + b, '.');
    assert parts[0] == a && parts[1] == b;
  }

  /** The arithmetic above is exactly what reading the text "main.second" as a decimal gives. */
  lemma CurrentTemperatureIsDecimalText(main: int, second: int)
    ensures CreateCurrentTemperature(main, second) == ParseDecimal(IntToString(main) + "." + IntToString(second))
  {
    if main < 0 {
      NegativeTemperatureText(main, second);
    } else {
      UnsignedTemperatureText(main, second);
    }
  }

  lemma NegativeTemperatureText(main: int, second: int)
    requires main < 0
    ensures CreateCurrentTemperature(main, second) == ParseDecimal(IntToString(main) + "." + IntToString(second))
  {
    var u := NatToString(-main) + "." + IntToString(second);
    UnsignedDecimalText(-main, second);
    SignedText(NatToString(-main), IntToString(second));
    NegativeDecimal(u);
  }

  lemma UnsignedTemperatureText(main: nat, second: int)
    ensures CreateCurrentTemperature(main, second) == ParseDecimal(IntToString(main) + "." + IntToString(second))
  {
    var u := NatToString(main) + "." + IntToString(second);
    UnsignedDecimalText(main, second);
    PlainDecimal(u);
  }

  lemma SignedText(a: string, b: string)
    ensures "-" + a + "." + b == "-" + (a + "." + b)
  {
  }

  /** A leading minus negates what the rest reads as. */
  lemma NegativeDecimal(u: string)
    ensures ParseDecimal("-" + u) == match ParseUnsignedDecimal(u) case Some(v) => Some(-v) case None => None
  {
    assert ("-" + u)[0] == '-' && ("-" + u)[1..] == u;
  }

  /** Text that starts with a digit is read without a sign. */
  lemma PlainDecimal(u: string)
    requires |u| > 0 && IsDigit(u[0])
    ensures ParseDecimal(u) == ParseUnsignedDecimal(u)
  {
  }

  /** The readings the tests use: leading zeros of the second field are gone once it is an int. */
  lemma CurrentTemperatureExamples()
    ensures CreateCurrentTemperature(18, 8) == Some(18.8)
    ensures CreateCurrentTemperature(20, 5) == Some(20.5)
    ensures CreateCurrentTemperature(14, 12) == Some(14.12)
    ensures CreateCurrentTemperature(18, -5) == None
  {
  }

  // ------------------------------------------------------------ addressing guards

  /** Raises unless `zone` is a 1-based index into the topology. */
  function CheckIfZoneExists(zones: seq<int>, zone: int): (o: Outcome)
    ensures o.Pass? <==> 1 <= zone <= |zones|
    ensures |zones| == 0 ==> o == Fail(NoZones)
    ensures |zones| > 0 && o.Fail? ==> o == Fail(ZoneOutOfRange(1, |zones|, zone))
  {
    if |zones| == 0 then Fail(NoZones)
    else if zone <= 0 || zone > |zones| then Fail(ZoneOutOfRange(1, |zones|, zone))
    else Pass
  }

  /** Raises InvalidModule when the id exceeds the zone's module count; there is no lower bound. */
  function CheckIfModuleIsValid(moduleCount: int, moduleId: int): (o: Outcome)
    ensures o.Pass? <==> moduleId <= moduleCount
    ensures o.Fail? ==> o.error == InvalidModule
  {
    if moduleId > moduleCount then Fail(InvalidModule) else Pass
  }
}
