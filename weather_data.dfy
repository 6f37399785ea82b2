/**
 * The display record shown by the day cards (`WeatherDataModel`) and its
 * `displayTemperature` property.
 */
module WeatherData {
  import opened Wrappers
  import opened Numerics

  datatype WeatherDataModel = WeatherDataModel(day: string, temperature: string, icon: string, isFahrenheit: bool)

  /** The exact Fahrenheit value of a Celsius temperature. */
  function Fahrenheit(celsius: real): real {
    celsius * 9.0 / 5.0 + 32.0
  }

  /** `v` is what truncating `x` toward zero gives. */
  ghost predicate TruncatesTo(x: real, v: int) {
    (x >= 0.0 ==> v as real <= x < v as real + 1.0) &&
    (x < 0.0 ==> v as real - 1.0 < x <= v as real)
  }

  /**
   * A Fahrenheit model shows its stored string as is; a Celsius model shows
   * the truncated Fahrenheit value followed by "°F".  The force-unwrapped
   * parse traps unless the string is a number, hence the precondition.
   */
  function DisplayTemperature(m: WeatherDataModel): (r: string)
    requires m.isFahrenheit || ParseInt(m.temperature).Some?
    ensures m.isFahrenheit ==> r == m.temperature
    ensures !m.isFahrenheit ==>
      |r| > 2 && r[|r| - 2..] == "°F" &&
      ParseInt(r[..|r| - 2]).Some? &&
      TruncatesTo(Fahrenheit(ParseInt(m.temperature).value as real), ParseInt(r[..|r| - 2]).value)
    ensures !m.isFahrenheit ==>
      r == IntToString(TruncToZero(Fahrenheit(ParseInt(m.temperature).value as real))) + "°F"
  {
    if m.isFahrenheit then m.temperature
    else
      var v := TruncToZero(Fahrenheit(ParseInt(m.temperature).value as real));
      ParseIntOfIntToString(v);
      var digits := IntToString(v);
      assert (digits + "°F")[..|digits|] == digits;
      digits + "°F"
  }

  /** 28 °C is 82.4 °F and shows as "82°F". */
  lemma DisplayTemperatureTwentyEight()
    ensures DisplayTemperature(WeatherDataModel("Mon", "28", "cloud.fill", false)) == "82°F"
  {
    assert IntToString(28) == "28" by { assert NatToString(2) == "2"; }
    assert ParseInt("28") == Some(28) by { ParseIntOfIntToString(28); }
    assert Fahrenheit(28 as real) == 82.4;
    assert TruncToZero(82.4) == 82;
    assert IntToString(82) == "82" by { assert NatToString(8) == "8"; }
  }

  /** -18 °C is -0.4 °F, which truncates (not rounds) to "0°F". */
  lemma DisplayTemperatureTruncates()
    ensures DisplayTemperature(WeatherDataModel("Mon", "-18", "snow", false)) == "0°F"
  {
    assert ParseInt("-18") == Some(-18) by { ParseIntOfIntToString(-18); assert IntToString(-18) == "-18"; }
    assert IntToString(0) == "0";
  }

  /** -40 is the same in both scales. */
  lemma DisplayTemperatureFixedPoint()
    ensures DisplayTemperature(WeatherDataModel("Mon", "-40", "snow", false)) == "-40°F"
  {
    assert IntToString(-40) == "-40" by {
      assert NatToString(4) == "4";
      assert NatToString(40) == "40";
    }
    assert ParseInt("-40") == Some(-40) by { ParseIntOfIntToString(-40); }
    assert Fahrenheit(-40 as real) == -40.0;
    assert TruncToZero(-40.0) == -40;
  }
}
