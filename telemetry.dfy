/** The telemetry simulator: the reading record and the tick that the
    dashboard's interval callback applies to it. Every quantity is a real
    number; `Math.random()` becomes an explicit draw in [0, 1). */
module Telemetry {

  /** One snapshot of every sensor of the farm. */
  datatype SensorData = SensorData(
    temperature: real,
    humidity: real,
    soilMoisture: real,
    waterLevel1: real,
    waterLevel2: real,
    nitrogen: real,
    phosphorus: real,
    potassium: real,
    ph: real,
    voltage: real,
    current: real,
    power: real)

  /** The reading the dashboard starts from. */
  const InitialReading: SensorData :=
    SensorData(26.5, 68.0, 45.0, 75.0, 82.0, 120.0, 85.0, 160.0, 6.8, 415.0, 12.5, 8.9)

  /** Step width and clamp range of one random-walk field. */
  datatype Walk = Walk(delta: real, lo: real, hi: real)

  const TemperatureWalk: Walk := Walk(2.0, 20.0, 35.0)
  const HumidityWalk: Walk := Walk(5.0, 40.0, 90.0)
  const SoilMoistureWalk: Walk := Walk(3.0, 20.0, 80.0)
  const WaterLevelWalk: Walk := Walk(2.0, 10.0, 100.0)
  const CurrentWalk: Walk := Walk(1.0, 8.0, 20.0)
  const PowerWalk: Walk := Walk(0.5, 5.0, 15.0)

  /** The seven values `Math.random()` returns during one tick, one per
      perturbed field, in the order the updater draws them. */
  datatype Draws = Draws(
    temperature: real,
    humidity: real,
    soilMoisture: real,
    waterLevel1: real,
    waterLevel2: real,
    current: real,
    power: real)

  predicate IsDraw(r: real) {
    0.0 <= r < 1.0
  }

  /** Every draw is what `Math.random()` can return. */
  predicate ValidDraws(d: Draws) {
    && IsDraw(d.temperature) && IsDraw(d.humidity) && IsDraw(d.soilMoisture)
    && IsDraw(d.waterLevel1) && IsDraw(d.waterLevel2)
    && IsDraw(d.current) && IsDraw(d.power)
  }

  function Min(a: real, b: real): real {
    if a <= b then a else b
  }

  function Max(a: real, b: real): real {
    if a >= b then a else b
  }

  function Abs(x: real): real {
    if x < 0.0 then -x else x
  }

  /** `Math.max(lo, Math.min(hi, x))`: the nearest point of [lo, hi] to x. */
  function Clamp(x: real, lo: real, hi: real): (r: real)
    requires lo <= hi
    ensures lo <= r <= hi
    ensures lo <= x <= hi ==> r == x
    ensures x < lo ==> r == lo
    ensures hi < x ==> r == hi
  {
    Max(lo, Min(hi, x))
  }

  predicate Within(x: real, w: Walk) {
    w.lo <= x <= w.hi
  }

  /** One step of a bounded random walk: move by (r - 0.5) * delta, then clamp. */
  function Step(prev: real, r: real, w: Walk): (x: real)
    requires w.lo <= w.hi
    ensures Within(x, w)
  {
    Clamp(prev + (r - 0.5) * w.delta, w.lo, w.hi)
  }

  /** Every perturbed field lies in its clamp range. */
  predicate InRange(s: SensorData) {
    && Within(s.temperature, TemperatureWalk)
    && Within(s.humidity, HumidityWalk)
    && Within(s.soilMoisture, SoilMoistureWalk)
    && Within(s.waterLevel1, WaterLevelWalk)
    && Within(s.waterLevel2, WaterLevelWalk)
    && Within(s.current, CurrentWalk)
    && Within(s.power, PowerWalk)
  }

  /** The fields the tick copies through `...prev`. */
  predicate SameStaticFields(a: SensorData, b: SensorData) {
    && a.nitrogen == b.nitrogen
    && a.phosphorus == b.phosphorus
    && a.potassium == b.potassium
    && a.ph == b.ph
    && a.voltage == b.voltage
  }

  /** The interval callback's updater: seven fields take a clamped random
      step, the rest are copied from the previous reading. Whatever the
      draws, the result is in range and the static fields are untouched. */
  function Tick(prev: SensorData, d: Draws): (next: SensorData)
    ensures InRange(next)
    ensures SameStaticFields(prev, next)
  {
    prev.(
      temperature := Step(prev.temperature, d.temperature, TemperatureWalk),
      humidity := Step(prev.humidity, d.humidity, HumidityWalk),
      soilMoisture := Step(prev.soilMoisture, d.soilMoisture, SoilMoistureWalk),
      waterLevel1 := Step(prev.waterLevel1, d.waterLevel1, WaterLevelWalk),
      waterLevel2 := Step(prev.waterLevel2, d.waterLevel2, WaterLevelWalk),
      current := Step(prev.current, d.current, CurrentWalk),
      power := Step(prev.power, d.power, PowerWalk))
  }

  /** A walk step from a point inside the range moves by at most delta / 2. */
  lemma StepBounded(prev: real, r: real, w: Walk)
    requires 0.0 < w.delta && w.lo <= w.hi
    requires Within(prev, w) && IsDraw(r)
    ensures Within(Step(prev, r, w), w)
    ensures Abs(Step(prev, r, w) - prev) <= w.delta / 2.0
  {
    var move := (r - 0.5) * w.delta;
    assert -0.5 * w.delta <= move < 0.5 * w.delta by {
      assert -0.5 <= r - 0.5 < 0.5;
    }
  }

  /** The tick is a bounded random walk: from an in-range reading, no
      perturbed field moves by more than half its step width. */
  lemma TickStepBounded(prev: SensorData, d: Draws)
    requires InRange(prev) && ValidDraws(d)
    ensures Abs(Tick(prev, d).temperature - prev.temperature) <= 1.0
    ensures Abs(Tick(prev, d).humidity - prev.humidity) <= 2.5
    ensures Abs(Tick(prev, d).soilMoisture - prev.soilMoisture) <= 1.5
    ensures Abs(Tick(prev, d).waterLevel1 - prev.waterLevel1) <= 1.0
    ensures Abs(Tick(prev, d).waterLevel2 - prev.waterLevel2) <= 1.0
    ensures Abs(Tick(prev, d).current - prev.current) <= 0.5
    ensures Abs(Tick(prev, d).power - prev.power) <= 0.25
  {
    StepBounded(prev.temperature, d.temperature, TemperatureWalk);
    StepBounded(prev.humidity, d.humidity, HumidityWalk);
    StepBounded(prev.soilMoisture, d.soilMoisture, SoilMoistureWalk);
    StepBounded(prev.waterLevel1, d.waterLevel1, WaterLevelWalk);
    StepBounded(prev.waterLevel2, d.waterLevel2, WaterLevelWalk);
    StepBounded(prev.current, d.current, CurrentWalk);
    StepBounded(prev.power, d.power, PowerWalk);
  }

  /** The reading after the interval callback has fired once per element of
      `draws`, starting from `s`. */
  function Run(s: SensorData, draws: seq<Draws>): (r: SensorData)
    ensures draws == [] ==> r == s
    ensures draws != [] ==> InRange(r)
    ensures SameStaticFields(s, r)
    decreases |draws|
  {
    if draws == [] then s else Run(Tick(s, draws[0]), draws[1..])
  }

  /** Repeated ticks never leave the clamp ranges, for any sequence of draws,
      and never alter the static fields. This is the one statement of the
      bound over every sequence of draws, the empty one included; the
      contract of `Run` covers only sequences with at least one firing. */
  lemma {:induction false} RunStaysInRange(s: SensorData, draws: seq<Draws>)
    requires InRange(s)
    ensures InRange(Run(s, draws))
    ensures SameStaticFields(s, Run(s, draws))
    decreases |draws|
  {
    if draws != [] {
      RunStaysInRange(Tick(s, draws[0]), draws[1..]);
    }
  }

  /** The dashboard's starting reading is itself in range, so every reading
      it ever shows is. */
  lemma InitialReadingInRange()
    ensures InRange(InitialReading)
    ensures forall draws: seq<Draws> :: InRange(Run(InitialReading, draws))
  {
    forall draws: seq<Draws> ensures InRange(Run(InitialReading, draws)) {
      RunStaysInRange(InitialReading, draws);
    }
  }
}
