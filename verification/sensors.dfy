/** `VirtualSensorController`: six simulated sensors, each with a fixed
    range and accuracy, an enabled flag, a latest reading and a history of
    at most 100 readings. One pass of the monitoring loop is modelled as
    an atomic step; the random draws of `_generate_reading` are an oracle,
    one per sensor. */
module Sensors {
  import opened Wrappers
  import opened PySemantics

  datatype SensorType = Proximity | Weight | Temperature | Humidity | Light | Pressure
  {
    function Value(): string
    {
      match this
      case Proximity => "proximity"
      case Weight => "weight"
      case Temperature => "temperature"
      case Humidity => "humidity"
      case Light => "light"
      case Pressure => "pressure"
    }

    /** The configured `range`, in the sensor's unit. */
    function Low(): int
    {
      match this
      case Proximity => 0
      case Weight => 0
      case Temperature => 15
      case Humidity => 30
      case Light => 100
      case Pressure => 95
    }

    function High(): int
    {
      match this
      case Proximity => 100
      case Weight => 1000
      case Temperature => 35
      case Humidity => 80
      case Light => 1000
      case Pressure => 105
    }

    function Accuracy(): real
    {
      match this
      case Proximity => 0.1
      case Weight => 1.0
      case Temperature => 0.1
      case Humidity => 1.0
      case Light => 10.0
      case Pressure => 0.1
    }

    function Unit(): string
    {
      match this
      case Proximity => "cm"
      case Weight => "g"
      case Temperature => "°C"
      case Humidity => "%"
      case Light => "lux"
      case Pressure => "kPa"
    }
  }

  /** The sensors in the order the controller registers them. */
  const AllTypes: seq<SensorType> := [Proximity, Weight, Temperature, Humidity, Light, Pressure]

  /** A sensor argument: one of the six types, or any other value a
      caller might pass, which the controller's dictionaries do not hold. */
  datatype SensorKey = Known(sensor: SensorType) | Foreign(name: string)

  datatype Reading = Reading(sensorType: SensorType, value: real, unit: string, timestamp: real, valid: bool)

  /** The random draws behind one reading: `random.choice([5, 95])` (near
      is 5), `random.random() < 0.1` (flip), the spread drawn from
      `uniform(-variation, variation)` and the noise drawn from
      `uniform(-accuracy, accuracy)`. */
  datatype Draw = Draw(near: bool, flip: bool, spread: real, noise: real)

  /** `max(lo, min(hi, v))` */
  function ClampTo(v: real, lo: int, hi: int): (r: real)
    requires lo <= hi
    ensures lo as real <= r <= hi as real
    ensures lo as real <= v <= hi as real ==> r == v
    ensures v < lo as real ==> r == lo as real
    ensures v > hi as real ==> r == hi as real
  {
    if v < lo as real then lo as real else if v > hi as real then hi as real else v
  }

  /** The value before noise: 5 or 95 cm for the proximity sensor
      (swapped with probability 0.1), otherwise the range's centre moved by
      up to a tenth of the range, kept inside it. */
  function Base(t: SensorType, d: Draw): real
  {
    if t == Proximity then
      var b := if d.near then 5.0 else 95.0;
      if d.flip then 100.0 - b else b
    else
      var center := (t.Low() + t.High()) as real / 2.0;
      ClampTo(center + d.spread, t.Low(), t.High())
  }

  /** `_generate_reading`: the noisy value is clamped into the sensor's
      range and then rounded to two decimals, so the reading stays in the
      range. */
  function GenerateReading(t: SensorType, timestamp: real, d: Draw): (r: Reading)
    ensures r.sensorType == t && r.unit == t.Unit() && r.timestamp == timestamp && r.valid
    ensures t.Low() as real <= r.value <= t.High() as real
    ensures -0.005 <= r.value - ClampTo(Base(t, d) + d.noise, t.Low(), t.High()) <= 0.005
  {
    var v := ClampTo(Base(t, d) + d.noise, t.Low(), t.High());
    Round2Within(v, t.Low(), t.High());
    Reading(t, Round2(v), t.Unit(), timestamp, true)
  }

  /** With noise inside the accuracy, the proximity sensor reads under
      20 cm exactly when the draw put the object near. */
  lemma ProximityReadsDraw(timestamp: real, d: Draw)
    requires -0.1 <= d.noise <= 0.1
    ensures GenerateReading(Proximity, timestamp, d).value < 20.0 <==> d.near != d.flip
  {
    var r := GenerateReading(Proximity, timestamp, d);
    if d.near != d.flip {
      assert Base(Proximity, d) == 5.0;
    } else {
      assert Base(Proximity, d) == 95.0;
    }
  }

  /** With draws inside their intervals, an environmental reading lies
      within a tenth of the range plus the accuracy of the range's centre,
      up to the rounding. */
  lemma EnvironmentNearCenter(t: SensorType, timestamp: real, d: Draw)
    requires t != Proximity
    requires var variation := (t.High() - t.Low()) as real * 0.1;
             -variation <= d.spread <= variation
    requires -t.Accuracy() <= d.noise <= t.Accuracy()
    ensures var center := (t.Low() + t.High()) as real / 2.0;
            var bound := (t.High() - t.Low()) as real * 0.1 + t.Accuracy() + 0.005;
            var v := GenerateReading(t, timestamp, d).value;
            -bound <= v - center <= bound
  {
    var center := (t.Low() + t.High()) as real / 2.0;
    assert Base(t, d) == center + d.spread;
  }

  // ------------------------------------------------------------ the controller

  datatype SensorController = SensorController(isRunning: bool, enabled: map<SensorType, bool>,
                                               readings: map<SensorType, Reading>,
                                               history: map<SensorType, seq<Reading>>)

  const HistoryLimit: nat := 100

  function AllTypesSet(): set<SensorType>
  {
    set t | t in AllTypes
  }

  lemma EveryTypeRegistered(t: SensorType)
    ensures t in AllTypesSet()
  {
    assert t in AllTypes;
  }

  /** A fresh controller: every sensor registered and enabled, no reading
      yet, every history empty. */
  function NewController(): (c: SensorController)
    ensures !c.isRunning && c.readings == map[]
    ensures c.enabled.Keys == AllTypesSet() && forall t | t in c.enabled :: c.enabled[t]
    ensures c.history.Keys == AllTypesSet() && forall t | t in c.history :: c.history[t] == []
  {
    SensorController(false, map t | t in AllTypes :: true, map[], map t | t in AllTypes :: [])
  }

  /** What every operation keeps: all six sensors registered with a
      history, histories bounded by 100, and every reading the right
      sensor's and inside its range. */
  predicate Valid(c: SensorController)
  {
    && c.enabled.Keys == AllTypesSet()
    && c.history.Keys == AllTypesSet()
    && (forall t | t in c.history :: |c.history[t]| <= HistoryLimit)
    && (forall t | t in c.readings ::
          c.readings[t].sensorType == t && t.Low() as real <= c.readings[t].value <= t.High() as real)
  }

  lemma NewControllerValid()
    ensures Valid(NewController())
  {
  }

  function EnabledSet(c: SensorController): set<SensorType>
  {
    set t | t in c.enabled && c.enabled[t]
  }

  /** One pass of `_monitoring_loop`: every enabled sensor gets a fresh
      reading at `now`, which becomes its latest reading and is appended
      to its history, cut back to the 100 most recent. Disabled sensors
      keep both. */
  function MonitorStep(c: SensorController, now: real, draws: SensorType -> Draw): (r: SensorController)
    ensures r.isRunning == c.isRunning && r.enabled == c.enabled
    ensures r.readings.Keys == c.readings.Keys + EnabledSet(c)
    ensures r.history.Keys == c.history.Keys
    ensures forall t | t in EnabledSet(c) :: r.readings[t] == GenerateReading(t, now, draws(t))
    ensures forall t | t in c.readings && t !in EnabledSet(c) :: r.readings[t] == c.readings[t]
    ensures forall t | t in c.history && t !in EnabledSet(c) :: r.history[t] == c.history[t]
    ensures forall t | t in c.history && t in EnabledSet(c) ::
              r.history[t] == KeepLast(c.history[t] + [r.readings[t]], HistoryLimit)
  {
    var on := EnabledSet(c);
    var readings := map t | t in c.readings.Keys + on ::
                      if t in on then GenerateReading(t, now, draws(t)) else c.readings[t];
    var history := map t | t in c.history ::
                     if t in on then KeepLast(c.history[t] + [GenerateReading(t, now, draws(t))], HistoryLimit)
                     else c.history[t];
    c.(readings := readings, history := history)
  }

  lemma MonitorStepValid(c: SensorController, now: real, draws: SensorType -> Draw)
    requires Valid(c)
    ensures Valid(MonitorStep(c, now, draws))
  {
  }

  /** After a pass, an enabled sensor's history ends with its latest
      reading. */
  lemma MonitorStepRecords(c: SensorController, now: real, draws: SensorType -> Draw, t: SensorType)
    requires Valid(c) && t in EnabledSet(c)
    ensures var r := MonitorStep(c, now, draws);
            |r.history[t]| > 0 && r.history[t][|r.history[t]| - 1] == r.readings[t]
  {
    var r := MonitorStep(c, now, draws);
    var full := c.history[t] + [r.readings[t]];
    assert full[|full| - 1] == r.readings[t];
  }

  /** `start_monitoring`: the loop runs; a second start also answers true.
      The thread itself is not modelled. */
  function StartMonitoring(c: SensorController): (r: (SensorController, bool))
    ensures r.1 && r.0 == c.(isRunning := true)
  {
    (c.(isRunning := true), true)
  }

  function StopMonitoring(c: SensorController): (r: SensorController)
    ensures !r.isRunning && r.(isRunning := c.isRunning) == c
  {
    c.(isRunning := false)
  }

  // ------------------------------------------------------------ queries

  /** `get_reading`: the latest reading, None before the first one or for
      a key the controller does not hold. */
  function GetReading(c: SensorController, key: SensorKey): (r: Option<Reading>)
    ensures r.Some? <==> key.Known? && key.sensor in c.readings
    ensures r.Some? ==> r.value == c.readings[key.sensor]
  {
    if key.Known? && key.sensor in c.readings then Some(c.readings[key.sensor]) else None
  }

  /** `get_history`: the last `limit` readings for a positive limit, the
      whole history otherwise; an unknown key has an empty history. */
  function GetHistory(c: SensorController, key: SensorKey, limit: int): (r: seq<Reading>)
    ensures var h := if key.Known? && key.sensor in c.history then c.history[key.sensor] else [];
            && (limit <= 0 ==> r == h)
            && (limit > 0 ==> |r| == (if limit < |h| then limit else |h|) && r == h[|h| - |r|..])
  {
    var h := if key.Known? && key.sensor in c.history then c.history[key.sensor] else [];
    LastOrAll(h, limit)
  }

  /** `is_garbage_detected`: a valid proximity reading under 20 cm; false
      when there is no reading. */
  function IsGarbageDetected(c: SensorController): (b: bool)
    ensures b <==> Proximity in c.readings && c.readings[Proximity].valid && c.readings[Proximity].value < 20.0
  {
    match GetReading(c, Known(Proximity))
    case None => false
    case Some(reading) => reading.valid && reading.value < 20.0
  }

  /** After a pass with the proximity sensor enabled and its noise inside
      the accuracy, garbage is detected exactly when the draw put it near. */
  lemma DetectionFollowsDraw(c: SensorController, now: real, draws: SensorType -> Draw)
    requires Proximity in EnabledSet(c) && -0.1 <= draws(Proximity).noise <= 0.1
    ensures IsGarbageDetected(MonitorStep(c, now, draws)) <==> draws(Proximity).near != draws(Proximity).flip
  {
    ProximityReadsDraw(now, draws(Proximity));
  }

  /** `get_garbage_weight`: with a valid weight reading and garbage
      detected, the weight but at least 10 g; 0 otherwise. */
  function GetGarbageWeight(c: SensorController): (w: real)
    ensures w != 0.0 ==> IsGarbageDetected(c) && Weight in c.readings && c.readings[Weight].valid
    ensures IsGarbageDetected(c) && Weight in c.readings && c.readings[Weight].valid ==>
              w >= 10.0 && w >= c.readings[Weight].value && (w == 10.0 || w == c.readings[Weight].value)
  {
    match GetReading(c, Known(Weight))
    case None => 0.0
    case Some(reading) =>
      if !reading.valid then 0.0
      else if IsGarbageDetected(c) then (if reading.value > 10.0 then reading.value else 10.0)
      else 0.0
  }

  datatype Environment = Environment(temperature: real, humidity: real, light: real, pressure: real)

  /** `get_environmental_data`: each latest value, or 25 °C, 50 %, 500 lux
      and 100 kPa when that sensor has no reading yet. */
  function GetEnvironmentalData(c: SensorController): (e: Environment)
    ensures e.temperature == if Temperature in c.readings then c.readings[Temperature].value else 25.0
    ensures e.humidity == if Humidity in c.readings then c.readings[Humidity].value else 50.0
    ensures e.light == if Light in c.readings then c.readings[Light].value else 500.0
    ensures e.pressure == if Pressure in c.readings then c.readings[Pressure].value else 100.0
  {
    Environment(GetReading(c, Known(Temperature)).GetOr(Reading(Temperature, 25.0, "", 0.0, false)).value,
                GetReading(c, Known(Humidity)).GetOr(Reading(Humidity, 50.0, "", 0.0, false)).value,
                GetReading(c, Known(Light)).GetOr(Reading(Light, 500.0, "", 0.0, false)).value,
                GetReading(c, Known(Pressure)).GetOr(Reading(Pressure, 100.0, "", 0.0, false)).value)
  }

  /** On a valid controller every environmental value lies in its
      sensor's range, whether read or defaulted. */
  lemma EnvironmentInRange(c: SensorController)
    requires Valid(c)
    ensures var e := GetEnvironmentalData(c);
            && 15.0 <= e.temperature <= 35.0 && 30.0 <= e.humidity <= 80.0
            && 100.0 <= e.light <= 1000.0 && 95.0 <= e.pressure <= 105.0
  {
  }

  /** One entry of `get_sensor_status`. */
  datatype SensorStatus = SensorStatus(name: string, enabled: bool, currentValue: Option<real>,
                                       unit: Option<string>, lastUpdate: Option<real>, valid: bool)

  /** `get_sensor_status`: one entry per sensor, in registration order
      (every sensor is registered in a valid controller). */
  function GetSensorStatus(c: SensorController): (r: seq<SensorStatus>)
    ensures |r| == |AllTypes|
    ensures forall i | 0 <= i < |r| ::
              var t := AllTypes[i];
              && r[i].name == t.Value() && r[i].enabled == (t in c.enabled && c.enabled[t])
              && (r[i].currentValue.Some? <==> t in c.readings)
              && (t in c.readings ==> r[i].currentValue == Some(c.readings[t].value)
                                      && r[i].unit == Some(c.readings[t].unit)
                                      && r[i].lastUpdate == Some(c.readings[t].timestamp)
                                      && r[i].valid == c.readings[t].valid)
              && (t !in c.readings ==> !r[i].valid && r[i].unit.None? && r[i].lastUpdate.None?)
  {
    seq(|AllTypes|, i requires 0 <= i < |AllTypes| =>
      var t := AllTypes[i];
      match GetReading(c, Known(t))
      case None => SensorStatus(t.Value(), t in c.enabled && c.enabled[t], None, None, None, false)
      case Some(reading) =>
        SensorStatus(t.Value(), t in c.enabled && c.enabled[t], Some(reading.value), Some(reading.unit),
                     Some(reading.timestamp), reading.valid))
  }

  // ------------------------------------------------------------ updates

  /** `enable_sensor` / `disable_sensor`: false for a key the controller
      does not hold; otherwise that one flag is set and the answer is
      true. */
  function SetEnabled(c: SensorController, key: SensorKey, flag: bool): (r: (SensorController, bool))
    ensures r.1 <==> key.Known? && key.sensor in c.enabled
    ensures !r.1 ==> r.0 == c
    ensures r.1 ==> r.0 == c.(enabled := c.enabled[key.sensor := flag])
  {
    if key.Known? && key.sensor in c.enabled then (c.(enabled := c.enabled[key.sensor := flag]), true)
    else (c, false)
  }

  lemma SetEnabledValid(c: SensorController, key: SensorKey, flag: bool)
    requires Valid(c)
    ensures Valid(SetEnabled(c, key, flag).0)
  {
  }

  /** A disabled sensor is frozen: a monitoring pass keeps its reading and
      its history. */
  lemma DisabledSensorFrozen(c: SensorController, t: SensorType, now: real, draws: SensorType -> Draw)
    requires Valid(c)
    ensures var d := SetEnabled(c, Known(t), false).0;
            var r := MonitorStep(d, now, draws);
            && (t in d.readings ==> t in r.readings && r.readings[t] == d.readings[t])
            && t in r.history && r.history[t] == d.history[t]
  {
    var d := SetEnabled(c, Known(t), false).0;
    EveryTypeRegistered(t);
    assert t !in EnabledSet(d);
  }

  /** Enabling after disabling gives back the enabled controller. */
  lemma EnableDisableRoundTrip(c: SensorController, t: SensorType)
    requires Valid(c) && c.enabled[t]
    ensures SetEnabled(SetEnabled(c, Known(t), false).0, Known(t), true).0 == c
  {
    var d := SetEnabled(c, Known(t), false).0;
    assert d.enabled[t := true] == c.enabled;
  }

  /** `reset_history`: every history is emptied and every sensor keeps
      its entry; the latest readings stay. */
  function ResetHistory(c: SensorController): (r: SensorController)
    ensures r.history.Keys == c.history.Keys && forall t | t in r.history :: r.history[t] == []
    ensures r.readings == c.readings && r.enabled == c.enabled && r.isRunning == c.isRunning
  {
    c.(history := map t | t in c.history :: [])
  }

  /** Clearing the history changes none of the answers based on the
      latest readings. */
  lemma ResetHistoryKeepsReadings(c: SensorController)
    ensures IsGarbageDetected(ResetHistory(c)) == IsGarbageDetected(c)
    ensures GetGarbageWeight(ResetHistory(c)) == GetGarbageWeight(c)
    ensures GetEnvironmentalData(ResetHistory(c)) == GetEnvironmentalData(c)
    ensures Valid(c) ==> Valid(ResetHistory(c))
  {
  }
}
