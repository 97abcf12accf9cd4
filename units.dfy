/** Conversion of the user's flow and head into the canonical units, litres per minute and
    metres (pump.py:370-376 over the tables of config.py:26-36). */
module Units {
  import opened Config

  /** The flow units the conversion table knows; any other token is taken as litres per minute. */
  const CONVERTED_FLOW_UNITS: set<string> := {"L/sec", "m³/hr", "m³/min", "US gpm"}

  /** The flow in litres per minute. */
  function FlowToLpm(value: real, unit: string): (lpm: real)
    ensures unit == "L/sec" ==> lpm == value * 60.0
    ensures unit == "m³/hr" ==> lpm == value * 1000.0 / 60.0
    ensures unit == "m³/min" ==> lpm == value * 1000.0
    ensures unit == "US gpm" ==> lpm == value * 3.785
    ensures unit !in CONVERTED_FLOW_UNITS ==> lpm == value
  {
    if unit in FLOW_UNIT_CONVERSIONS then value * FLOW_UNIT_CONVERSIONS[unit] else value
  }

  /** The head in metres: only the token "m" is kept as it is, every other one is read as feet. */
  function HeadToMetres(value: real, unit: string): (m: real)
    ensures unit == "m" ==> m == value
    ensures unit != "m" ==> m == value * 0.3048
  {
    if unit == "m" then value else value * HEAD_UNIT_CONVERSIONS["ft"]
  }

  /** The factor `FlowToLpm` multiplies by. */
  function FlowFactor(unit: string): (f: real)
    ensures f > 0.0
  {
    if unit in FLOW_UNIT_CONVERSIONS then FLOW_UNIT_CONVERSIONS[unit] else 1.0
  }

  /** The inverse conversion, from litres per minute back to `unit`. */
  function FlowFromLpm(lpm: real, unit: string): real {
    lpm / FlowFactor(unit)
  }

  lemma FlowToLpmIsScaling(value: real, unit: string)
    ensures FlowToLpm(value, unit) == value * FlowFactor(unit)
  {
  }

  /** Converting to litres per minute and back returns the original value, and so does the
      converse round trip: each conversion is invertible. */
  lemma FlowRoundTrip(value: real, unit: string)
    ensures FlowFromLpm(FlowToLpm(value, unit), unit) == value
    ensures FlowToLpm(FlowFromLpm(value, unit), unit) == value
  {
    var f := FlowFactor(unit);
    FlowToLpmIsScaling(value, unit);
    FlowToLpmIsScaling(value / f, unit);
    assert value * f / f == value;
    assert value / f * f == value;
  }

  /** Both conversions keep the sign, so a positive input stays an active filter threshold. */
  lemma ConversionsKeepSign(value: real, flowUnit: string, headUnit: string)
    ensures value > 0.0 ==> FlowToLpm(value, flowUnit) > 0.0 && HeadToMetres(value, headUnit) > 0.0
    ensures value == 0.0 ==> FlowToLpm(value, flowUnit) == 0.0 && HeadToMetres(value, headUnit) == 0.0
  {
    FlowToLpmIsScaling(value, flowUnit);
  }
}
