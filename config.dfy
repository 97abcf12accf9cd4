/** The constant tables of config.py. */
module Config {

  /** Multiplicative factors that turn a flow in the named unit into litres per minute. */
  const FLOW_UNIT_CONVERSIONS: map<string, real> :=
    map["L/sec" := 60.0, "m³/hr" := 1000.0 / 60.0, "m³/min" := 1000.0, "US gpm" := 3.785]

  /** Multiplicative factors that turn a head in the named unit into metres. */
  const HEAD_UNIT_CONVERSIONS: map<string, real> := map["ft" := 0.3048]

  /** Identifier columns that are always displayed when present. */
  const ESSENTIAL_COLUMNS: seq<string> := ["id", "ID", "Model", "Model No."]

  const PERFORMANCE_COLUMNS: seq<string> := ["Q Rated/LPM", "Head Rated/M", "Max Flow (LPM)", "Max Head (M)"]

  const ELECTRICAL_COLUMNS: seq<string> := ["Frequency (Hz)", "Phase"]

  const PHYSICAL_COLUMNS: seq<string> := ["Pass Solid Dia(mm)", "HP", "Power(KW)", "Outlet (mm)", "Outlet (inch)"]

  /** The palette the comparison chart cycles through. */
  const CHART_COLORS: seq<string> := ["blue", "red", "green", "orange", "purple", "brown", "pink", "gray"]
}
