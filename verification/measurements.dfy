/** The measurement mapper: a flat zone record becomes the time-series points written to the
    metrics store. */
module Measurements {
  import opened Wrappers
  import opened Json
  import LccZone

  /** One time-series point. The unit label is the measurement name, `domain` and `entityId` are
      its tags, and the reading is its only field. It carries no timestamp: the store stamps
      points on write. */
  datatype Point = Point(measurement: string, domain: string, entityId: string, value: Json)

  /** Why a record cannot be mapped: `systemName` is missing (`KeyError`) or not text (`TypeError`
      on concatenation), or a reading is a value `float()` rejects. */
  datatype MeasureError = MissingSystemName | SystemNameNotText | NotNumeric(key: string)

  const HumidityKey := "Humidity"
  const TemperatureKey := "AmbientTemperature"
  const HumidityUnit := "%"
  const TemperatureUnit := "°F"
  const Domain := "sensor"

  /** The values `float()` accepts without raising. Text is accepted whatever it says. */
  predicate Floatable(j: Json)
  {
    j.JInt? || j.JBool? || j.JStr?
  }

  /** `rec["systemName"]`, usable as the left side of a string concatenation. */
  function SystemName(rec: Record): Result<string, MeasureError>
  {
    if "systemName" !in rec then Failure(MissingSystemName)
    else match rec["systemName"]
      case JStr(name) => Success(name)
      case _ => Failure(SystemNameNotText)
  }

  /** The point for the reading under `key`, or nothing when the record lacks it. */
  function Reading(rec: Record, key: string, unit: string, suffix: string): Result<seq<Point>, MeasureError>
  {
    if key !in rec then Success([])
    else
      var name :- SystemName(rec);
      if !Floatable(rec[key]) then Failure(NotNumeric(key))
      else Success([Point(unit, Domain, name + suffix, rec[key])])
  }

  /** The record can be mapped: a system name of text whenever a reading is present, and every
      present reading numeric. */
  ghost predicate Exportable(rec: Record)
  {
    && (HumidityKey in rec || TemperatureKey in rec ==> "systemName" in rec && rec["systemName"].JStr?)
    && (HumidityKey in rec ==> Floatable(rec[HumidityKey]))
    && (TemperatureKey in rec ==> Floatable(rec[TemperatureKey]))
  }

  /** `p` is the humidity point of `rec` or its temperature point. */
  ghost predicate PointOf(rec: Record, p: Point)
  {
    && "systemName" in rec && rec["systemName"].JStr?
    && p.domain == Domain
    && ((&& p.measurement == HumidityUnit && HumidityKey in rec
         && p.entityId == rec["systemName"].s + "_humidity" && p.value == rec[HumidityKey])
     || (&& p.measurement == TemperatureUnit && TemperatureKey in rec
         && p.entityId == rec["systemName"].s + "_temp" && p.value == rec[TemperatureKey]))
  }

  /** The humidity point (if the record has a humidity reading) followed by the ambient
      temperature point (if it has that reading). `now` stands for the clock reading the source
      takes and never uses. */
  function GenerateMeasurements(rec: Record, now: int): (r: Result<seq<Point>, MeasureError>)
    ensures r.Success? <==> Exportable(rec)
    ensures r.Success? ==>
      |r.value| == (if HumidityKey in rec then 1 else 0) + (if TemperatureKey in rec then 1 else 0)
    ensures r.Success? ==> forall i :: 0 <= i < |r.value| ==> PointOf(rec, r.value[i])
    ensures r.Success? && HumidityKey in rec && TemperatureKey in rec ==>
      r.value[0].measurement == HumidityUnit && r.value[1].measurement == TemperatureUnit
  {
    var humidity :- Reading(rec, HumidityKey, HumidityUnit, "_humidity");
    var temperature :- Reading(rec, TemperatureKey, TemperatureUnit, "_temp");
    Success(humidity + temperature)
  }

  /** Which points a measurement sequence holds, by unit label. */
  predicate HasPoint(pts: seq<Point>, unit: string)
  {
    exists i :: 0 <= i < |pts| && pts[i].measurement == unit
  }

  /** A humidity point is emitted if and only if the record has a humidity reading, and a
      temperature point if and only if it has an ambient temperature reading. */
  lemma PointsMatchReadings(rec: Record, now: int)
    requires GenerateMeasurements(rec, now).Success?
    ensures HumidityKey in rec <==> HasPoint(GenerateMeasurements(rec, now).value, HumidityUnit)
    ensures TemperatureKey in rec <==> HasPoint(GenerateMeasurements(rec, now).value, TemperatureUnit)
  {
    var pts := GenerateMeasurements(rec, now).value;
    assert HumidityUnit != TemperatureUnit by {
      assert HumidityUnit[0] != TemperatureUnit[0];
    }
    if HumidityKey in rec {
      assert pts[0].measurement == HumidityUnit;
    }
    if TemperatureKey in rec {
      assert pts[|pts| - 1].measurement == TemperatureUnit;
    }
    if HasPoint(pts, HumidityUnit) {
      var i :| 0 <= i < |pts| && pts[i].measurement == HumidityUnit;
      assert PointOf(rec, pts[i]);
    }
    if HasPoint(pts, TemperatureUnit) {
      var i :| 0 <= i < |pts| && pts[i].measurement == TemperatureUnit;
      assert PointOf(rec, pts[i]);
    }
  }

  /** The output does not depend on the clock. */
  lemma MeasurementsIgnoreClock(rec: Record, t1: int, t2: int)
    ensures GenerateMeasurements(rec, t1) == GenerateMeasurements(rec, t2)
  {
  }

  /** A record with an integer ambient temperature maps to a sequence ending in its temperature
      point, preceded by a humidity point exactly when a humidity reading is present. */
  lemma TemperatureLast(rec: Record, now: int, name: Json, humidity: Option<Json>, degrees: int)
    requires "systemName" in rec && rec["systemName"] == name
    requires HumidityKey in rec <==> humidity.Some?
    requires humidity.Some? ==> rec[HumidityKey] == humidity.value
    requires TemperatureKey in rec && rec[TemperatureKey] == JInt(degrees)
    ensures var r := GenerateMeasurements(rec, now);
      && (r.Success? <==> name.JStr? && (humidity.Some? ==> Floatable(humidity.value)))
      && (r.Success? ==>
            && name.JStr?
            && |r.value| == (if humidity.Some? then 2 else 1)
            && r.value[|r.value| - 1] == Point(TemperatureUnit, Domain, name.s + "_temp", JInt(degrees)))
  {
  }

  /** What the collection loop exports for one zone after an online refresh (a reply `ParseUpdate`
      accepts, with the record it returns): the temperature point
      is always last, carrying the integer read from the ambient-temperature wrapper, and a humidity
      point precedes it exactly when the zone detail has a humidity member. */
  lemma RefreshThenMeasure(update: Json, rec: Record, now: int)
    requires LccZone.WellShaped(update) && LccZone.FlattenedFrom(update, rec)
    ensures var ms := LccZone.ZoneDetail(update);
      var name := LccZone.SystemNameOf(update);
      var r := GenerateMeasurements(rec, now);
      && (r.Success? <==> name.JStr? && (Get(ms, HumidityKey).Some? ==> Floatable(Get(ms, HumidityKey).value)))
      && (r.Success? ==>
            && name.JStr?
            && |r.value| == (if Get(ms, HumidityKey).Some? then 2 else 1)
            && r.value[|r.value| - 1] == Point(TemperatureUnit, Domain, name.s + "_temp",
                 JInt(LccZone.PyInt(LccZone.Wrapped(ms, TemperatureKey)).value)))
  {
    var ms := LccZone.ZoneDetail(update);
    assert LccZone.DataKeys[4] == "systemName";
    LccZone.KeptMember(update, rec, HumidityKey);
    LccZone.CopiedSystemName(update, rec);
    TemperatureLast(rec, now, LccZone.SystemNameOf(update), Get(ms, HumidityKey),
      LccZone.PyInt(LccZone.Wrapped(ms, TemperatureKey)).value);
  }
}
