/** The status classifier: the threshold rules the dashboard applies to a
    reading before it colours a sensor card, a tank bar or an NPK label. */
module Status {
  import opened Telemetry

  /** Severity of one monitored metric. */
  datatype Severity = Normal | Warning | Critical

  function Rank(s: Severity): nat {
    match s
    case Normal => 0
    case Warning => 1
    case Critical => 2
  }

  /** The more severe of two severities. */
  function Worst(a: Severity, b: Severity): Severity {
    if Rank(a) >= Rank(b) then a else b
  }

  /** Two severities are at most one band apart. */
  predicate Adjacent(a: Severity, b: Severity) {
    -1 <= Rank(a) - Rank(b) <= 1
  }

  /** Temperature card: critical above 30, warning above 28. */
  function TemperatureStatus(t: real): (s: Severity)
    ensures s == Critical <==> t > 30.0
    ensures s == Warning <==> 28.0 < t <= 30.0
    ensures s == Normal <==> t <= 28.0
  {
    if t > 30.0 then Critical else if t > 28.0 then Warning else Normal
  }

  /** Humidity card: warning above 80, never critical. */
  function HumidityStatus(h: real): (s: Severity)
    ensures s != Critical
    ensures s == Warning <==> h > 80.0
  {
    if h > 80.0 then Warning else Normal
  }

  /** Soil-moisture card: critical below 40, warning below 50. */
  function SoilMoistureStatus(m: real): (s: Severity)
    ensures s == Critical <==> m < 40.0
    ensures s == Warning <==> 40.0 <= m < 50.0
    ensures s == Normal <==> m >= 50.0
  {
    if m < 40.0 then Critical else if m < 50.0 then Warning else Normal
  }

  /** pH card: warning outside [6.0, 7.5], never critical. */
  function PhStatus(p: real): (s: Severity)
    ensures s != Critical
    ensures s == Warning <==> p < 6.0 || p > 7.5
  {
    if p < 6.0 || p > 7.5 then Warning else Normal
  }

  /** Tank bar colour, the same rule for both tanks: green (normal) above 50,
      yellow (warning) above 25, red (critical) otherwise. */
  function WaterLevelStatus(level: real): (s: Severity)
    ensures s == Normal <==> level > 50.0
    ensures s == Warning <==> 25.0 < level <= 50.0
    ensures s == Critical <==> level <= 25.0
  {
    if level > 50.0 then Normal else if level > 25.0 then Warning else Critical
  }

  /** The severity of a metric whose table lists a warning condition and a
      critical condition: the worst condition that holds. */
  function ByConditions(warning: bool, critical: bool): Severity {
    Worst(if critical then Critical else Normal, if warning then Warning else Normal)
  }

  /** Critical takes precedence over warning: each classifier gives the worst
      of the table's conditions that hold, even where both hold. */
  lemma CriticalTakesPrecedence(t: real, m: real, level: real)
    ensures TemperatureStatus(t) == ByConditions(t > 28.0, t > 30.0)
    ensures SoilMoistureStatus(m) == ByConditions(m < 50.0, m < 40.0)
    ensures WaterLevelStatus(level) == ByConditions(level <= 50.0, level <= 25.0)
  {
  }

  /** Hotter, more humid, drier soil and a lower tank never look better. */
  lemma StatusMonotone(a: real, b: real)
    requires a <= b
    ensures Rank(TemperatureStatus(a)) <= Rank(TemperatureStatus(b))
    ensures Rank(HumidityStatus(a)) <= Rank(HumidityStatus(b))
    ensures Rank(SoilMoistureStatus(a)) >= Rank(SoilMoistureStatus(b))
    ensures Rank(WaterLevelStatus(a)) >= Rank(WaterLevelStatus(b))
  {
  }

  /** Label of a soil nutrient reading. */
  datatype NpkLabel = Low | Good | Optimal

  function LabelRank(l: NpkLabel): nat {
    match l
    case Low => 0
    case Good => 1
    case Optimal => 2
  }

  /** The three-band nutrient rule: optimal above `optimalAbove`, good above
      `goodAbove`, low otherwise. */
  function ThreeBand(x: real, goodAbove: real, optimalAbove: real): (l: NpkLabel)
    requires goodAbove <= optimalAbove
    ensures l == Optimal <==> x > optimalAbove
    ensures l == Good <==> goodAbove < x <= optimalAbove
    ensures l == Low <==> x <= goodAbove
  {
    if x > optimalAbove then Optimal else if x > goodAbove then Good else Low
  }

  /** Nitrogen card label: Optimal above 150, Good above 100, Low otherwise. */
  function NitrogenLabel(n: real): (l: NpkLabel)
    ensures l == Optimal <==> n > 150.0
    ensures l == Good <==> 100.0 < n <= 150.0
    ensures l == Low <==> n <= 100.0
  {
    ThreeBand(n, 100.0, 150.0)
  }

  /** Phosphorus card label: Optimal above 100, Good above 60, Low otherwise. */
  function PhosphorusLabel(p: real): (l: NpkLabel)
    ensures l == Optimal <==> p > 100.0
    ensures l == Good <==> 60.0 < p <= 100.0
    ensures l == Low <==> p <= 60.0
  {
    ThreeBand(p, 60.0, 100.0)
  }

  /** Potassium card label: Optimal above 180, Good above 120, Low otherwise. */
  function PotassiumLabel(k: real): (l: NpkLabel)
    ensures l == Optimal <==> k > 180.0
    ensures l == Good <==> 120.0 < k <= 180.0
    ensures l == Low <==> k <= 120.0
  {
    ThreeBand(k, 120.0, 180.0)
  }

  /** Raising a nutrient reading never lowers its label. */
  lemma NpkLabelsMonotone(a: real, b: real)
    requires a <= b
    ensures LabelRank(NitrogenLabel(a)) <= LabelRank(NitrogenLabel(b))
    ensures LabelRank(PhosphorusLabel(a)) <= LabelRank(PhosphorusLabel(b))
    ensures LabelRank(PotassiumLabel(a)) <= LabelRank(PotassiumLabel(b))
  {
  }

  /** Everything the dashboard derives from one reading. */
  datatype Report = Report(
    temperature: Severity,
    humidity: Severity,
    soilMoisture: Severity,
    ph: Severity,
    tank1: Severity,
    tank2: Severity,
    nitrogen: NpkLabel,
    phosphorus: NpkLabel,
    potassium: NpkLabel)

  /** Every card, bar and label of the dashboard for one reading, each from
      its own field. The two tanks share one rule, so equal levels give equal
      bars. */
  function Classify(s: SensorData): (r: Report)
    ensures r.temperature == Critical <==> s.temperature > 30.0
    ensures r.temperature == Warning <==> 28.0 < s.temperature <= 30.0
    ensures r.temperature == Normal <==> s.temperature <= 28.0
    ensures r.humidity != Critical
    ensures r.humidity == Warning <==> s.humidity > 80.0
    ensures r.soilMoisture == Critical <==> s.soilMoisture < 40.0
    ensures r.soilMoisture == Warning <==> 40.0 <= s.soilMoisture < 50.0
    ensures r.soilMoisture == Normal <==> s.soilMoisture >= 50.0
    ensures r.ph != Critical
    ensures r.ph == Warning <==> s.ph < 6.0 || s.ph > 7.5
    ensures r.tank1 == Normal <==> s.waterLevel1 > 50.0
    ensures r.tank1 == Warning <==> 25.0 < s.waterLevel1 <= 50.0
    ensures r.tank1 == Critical <==> s.waterLevel1 <= 25.0
    ensures r.tank2 == Normal <==> s.waterLevel2 > 50.0
    ensures r.tank2 == Warning <==> 25.0 < s.waterLevel2 <= 50.0
    ensures r.tank2 == Critical <==> s.waterLevel2 <= 25.0
    ensures s.waterLevel1 == s.waterLevel2 ==> r.tank1 == r.tank2
    ensures r.nitrogen == Optimal <==> s.nitrogen > 150.0
    ensures r.nitrogen == Good <==> 100.0 < s.nitrogen <= 150.0
    ensures r.nitrogen == Low <==> s.nitrogen <= 100.0
    ensures r.phosphorus == Optimal <==> s.phosphorus > 100.0
    ensures r.phosphorus == Good <==> 60.0 < s.phosphorus <= 100.0
    ensures r.phosphorus == Low <==> s.phosphorus <= 60.0
    ensures r.potassium == Optimal <==> s.potassium > 180.0
    ensures r.potassium == Good <==> 120.0 < s.potassium <= 180.0
    ensures r.potassium == Low <==> s.potassium <= 120.0
  {
    Report(
      TemperatureStatus(s.temperature),
      HumidityStatus(s.humidity),
      SoilMoistureStatus(s.soilMoisture),
      PhStatus(s.ph),
      WaterLevelStatus(s.waterLevel1),
      WaterLevelStatus(s.waterLevel2),
      NitrogenLabel(s.nitrogen),
      PhosphorusLabel(s.phosphorus),
      PotassiumLabel(s.potassium))
  }

  /** A reading with soil moisture 35 shows a critical soil card; one with 55
      shows a normal card. */
  lemma SoilMoistureScenario(s: SensorData)
    ensures Classify(s.(soilMoisture := 35.0)).soilMoisture == Critical
    ensures Classify(s.(soilMoisture := 55.0)).soilMoisture == Normal
  {
  }

  /** A tick never changes the pH status or the nutrient labels, since it
      copies those fields through. */
  lemma TickKeepsStaticStatuses(prev: SensorData, d: Draws)
    ensures Classify(Tick(prev, d)).ph == Classify(prev).ph
    ensures Classify(Tick(prev, d)).nitrogen == Classify(prev).nitrogen
    ensures Classify(Tick(prev, d)).phosphorus == Classify(prev).phosphorus
    ensures Classify(Tick(prev, d)).potassium == Classify(prev).potassium
  {
  }

  /** From an in-range reading, one tick moves the temperature, soil-moisture
      and tank statuses by at most one band: none of them can jump straight
      from normal to critical or back. */
  lemma TickMovesAtMostOneBand(prev: SensorData, d: Draws)
    requires InRange(prev) && ValidDraws(d)
    ensures Adjacent(Classify(Tick(prev, d)).temperature, Classify(prev).temperature)
    ensures Adjacent(Classify(Tick(prev, d)).soilMoisture, Classify(prev).soilMoisture)
    ensures Adjacent(Classify(Tick(prev, d)).tank1, Classify(prev).tank1)
    ensures Adjacent(Classify(Tick(prev, d)).tank2, Classify(prev).tank2)
  {
    TickStepBounded(prev, d);
  }
}
