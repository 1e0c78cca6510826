/**
 * Consequences of the correctness theorem that describe the flattened record
 * the way its consumers see it: which keys it has, where a leaf is copied and
 * where it becomes null, how the output lists follow the input lists, and
 * which missing keys are errors rather than defaults.
 */
module FlattenProperties {
  import opened Json
  import opened FunctionApp
  import opened FlattenSpec
  import opened FlattenProofs

  // ---- what a path lookup yields ----

  /** A one-key path is the field when it is present, null otherwise. */
  lemma PathLeaf(v: Json, k: string)
    ensures Path(v, [k]) == if v.JObj? && k in v.fields then v.fields[k] else JNull
  {
    FindOne(v, k);
  }

  /** A longer path descends into the field when it is present; when the
      first key is absent the whole path is null, whatever follows. */
  lemma PathStep(v: Json, k: string, rest: seq<string>)
    ensures Path(v, [k] + rest) == if v.JObj? && k in v.fields then Path(v.fields[k], rest) else JNull
  {
    assert ([k] + rest)[0] == k && ([k] + rest)[1..] == rest;
  }

  /** A `location`, `current` or `condition` object that is absent behaves as
      `{}`: every scalar read through it is null. */
  lemma MissingObjectsGiveNull(c: Json)
    requires c.JObj?
    ensures "location" !in c.fields ==> forall k :: Path(c, ["location", k]) == JNull
    ensures "current" !in c.fields ==> forall k :: Path(c, ["current", k]) == JNull
    ensures "current" !in c.fields ==> forall k :: Path(c, ["current", "condition", k]) == JNull
    ensures "current" in c.fields && c.fields["current"].JObj? && "condition" !in c.fields["current"].fields ==>
      forall k :: Path(c, ["current", "condition", k]) == JNull
  {
    forall k ensures Path(c, ["location", k]) == Path(c, ["location"] + [k]) {
      assert ["location", k] == ["location"] + [k];
      PathStep(c, "location", [k]);
    }
    forall k ensures Path(c, ["current", k]) == Path(c, ["current"] + [k]) {
      assert ["current", k] == ["current"] + [k];
      PathStep(c, "current", [k]);
    }
    forall k ensures Path(c, ["current", "condition", k]) ==
      if "current" in c.fields then Path(c.fields["current"], ["condition"] + [k]) else JNull
    {
      assert ["current", "condition", k] == ["current"] + (["condition"] + [k]);
      PathStep(c, "current", ["condition"] + [k]);
      if "current" in c.fields {
        PathStep(c.fields["current"], "condition", [k]);
      }
    }
  }

  // ---- the key set ----

  /** The dict literal of flatten_merge has the twenty keys, whatever it is
      filled with. */
  lemma FlattenedDataKeys(
    loc: map<string, Json>, cond: map<string, Json>, cur: map<string, Json>, aq: map<string, Json>,
    alertRecords: seq<Json>, dayRecords: seq<Json>)
    ensures FlattenedData(loc, cond, cur, aq, alertRecords, dayRecords).fields.Keys == TopKeys
  {
  }

  /** Whenever flatten_merge returns, its record has exactly the twenty keys. */
  lemma FlattenMergeKeys(c: Json, f: Json, a: Json)
    ensures FlattenMerge(c, f, a).Ok? ==>
      FlattenMerge(c, f, a).value.JObj? && FlattenMerge(c, f, a).value.fields.Keys == TopKeys
  {
    if FlattenMerge(c, f, a).Ok? {
      FlattenMergeValue(c, f, a);
      var cur := DictGet(c.fields, "current", EmptyObj).fields;
      var days := Subscript(Subscript(f, "forecast").value, "forecastday").value;
      var alerts := DictGet(DictGet(a.fields, "alerts", EmptyObj).fields, "alerts", JArr([]));
      FlattenedDataKeys(
        DictGet(c.fields, "location", EmptyObj).fields,
        DictGet(cur, "condition", EmptyObj).fields,
        cur,
        DictGet(cur, "air_quality", EmptyObj).fields,
        FlattenAlertList(Elements(alerts).value).value,
        FlattenDayList(Elements(days).value).value);
    }
  }

  // ---- air_quality ----

  lemma ExpectedAirQualityKeys(c: Json)
    ensures ExpectedAirQuality(c).fields.Keys == AirQualityRecordKeys
  {
  }

  /** The `air_quality` object has exactly the eight pollutant keys, each the
      value at its path below `current.air_quality` (null when absent). */
  lemma FlattenMergeAirQuality(c: Json, f: Json, a: Json)
    requires Flattenable(c, f, a)
    ensures FlattenMerge(c, f, a).Ok? && FlattenMerge(c, f, a).value.JObj?
    ensures var out := FlattenMerge(c, f, a).value.fields;
      && "air_quality" in out
      && out["air_quality"] == ExpectedAirQuality(c)
      && out["air_quality"].fields.Keys == AirQualityRecordKeys
  {
    FlattenMergeCorrect(c, f, a);
    RecordAirQuality(c, f, a);
    ExpectedAirQualityKeys(c);
  }

  lemma RecordAirQuality(c: Json, f: Json, a: Json)
    ensures "air_quality" in ExpectedRecord(c, f, a).fields
    ensures ExpectedRecord(c, f, a).fields["air_quality"] == ExpectedAirQuality(c)
  {
  }

  /** A payload whose `air_quality` holds only a carbon-monoxide reading: that
      reading is copied and the other seven pollutants are null. */
  lemma AirQualityExample(f: Json, a: Json)
    requires ForecastOk(f) && AlertsOk(a)
    ensures var c := JObj(map["current" := JObj(map["air_quality" := JObj(map["co" := JNum(200.5)])])]);
      && FlattenMerge(c, f, a).Ok? && FlattenMerge(c, f, a).value.JObj?
      && "air_quality" in FlattenMerge(c, f, a).value.fields
      && FlattenMerge(c, f, a).value.fields["air_quality"] == JObj(map[
        "co" := JNum(200.5), "no2" := JNull, "o3" := JNull, "so2" := JNull,
        "pm2_5" := JNull, "pm10" := JNull, "us-epa-index" := JNull, "gb-defra-index" := JNull])
  {
    var c := JObj(map["current" := JObj(map["air_quality" := JObj(map["co" := JNum(200.5)])])]);
    CurrentOkIff(c);
    FlattenMergeAirQuality(c, f, a);
    AirQualitySpec(c);
  }

  // ---- alerts ----

  lemma ExpectedAlertKeys(alert: Json)
    ensures ExpectedAlert(alert).fields.Keys == AlertRecordKeys
  {
  }

  /** The output alerts follow `alerts.alerts` element by element: same length,
      same order, each with exactly the nine alert keys. */
  lemma FlattenMergeAlerts(c: Json, f: Json, a: Json)
    requires Flattenable(c, f, a)
    ensures FlattenMerge(c, f, a).Ok? && FlattenMerge(c, f, a).value.JObj?
    ensures "alerts" in FlattenMerge(c, f, a).value.fields
    ensures var out := FlattenMerge(c, f, a).value.fields["alerts"];
      && out.JArr? && |out.items| == |AlertList(a)|
      && forall i | 0 <= i < |out.items| ::
        out.items[i] == ExpectedAlert(AlertList(a)[i]) && out.items[i].fields.Keys == AlertRecordKeys
  {
    FlattenMergeCorrect(c, f, a);
    RecordAlerts(c, f, a);
    ExpectedAlertsKeys(AlertList(a));
  }

  lemma RecordAlerts(c: Json, f: Json, a: Json)
    ensures "alerts" in ExpectedRecord(c, f, a).fields
    ensures ExpectedRecord(c, f, a).fields["alerts"] == JArr(ExpectedAlerts(AlertList(a)))
  {
  }

  lemma ExpectedAlertsKeys(alerts: seq<Json>)
    ensures forall i | 0 <= i < |ExpectedAlerts(alerts)| ::
      ExpectedAlerts(alerts)[i] == ExpectedAlert(alerts[i]) && ExpectedAlerts(alerts)[i].fields.Keys == AlertRecordKeys
  {
    forall i | 0 <= i < |alerts| ensures ExpectedAlert(alerts[i]).fields.Keys == AlertRecordKeys {
      ExpectedAlertKeys(alerts[i]);
    }
  }

  /** An alerts payload without `alerts`, or whose `alerts` object has no inner
      `alerts`, gives an empty alert list and no error. */
  lemma AlertsDefaultToEmpty(c: Json, f: Json, a: Json)
    requires CurrentOk(c) && ForecastOk(f)
    requires a.JObj?
    requires "alerts" !in a.fields || (a.fields["alerts"].JObj? && "alerts" !in a.fields["alerts"].fields)
    ensures FlattenMerge(c, f, a).Ok? && FlattenMerge(c, f, a).value.JObj?
    ensures "alerts" in FlattenMerge(c, f, a).value.fields
    ensures FlattenMerge(c, f, a).value.fields["alerts"] == JArr([])
  {
    FindTwo(a, "alerts", "alerts");
    if "alerts" in a.fields {
      FindOne(a.fields["alerts"], "alerts");
    }
    assert AlertsOk(a);
    FlattenMergeAlerts(c, f, a);
  }

  // ---- forecast ----

  lemma ExpectedDayKeys(day: Json)
    ensures ExpectedDay(day).fields.Keys == DayRecordKeys
  {
  }

  /** The output forecast follows `forecast.forecastday` element by element:
      same length, same order, each with exactly the eight day keys. */
  lemma FlattenMergeForecast(c: Json, f: Json, a: Json)
    requires Flattenable(c, f, a)
    ensures FlattenMerge(c, f, a).Ok? && FlattenMerge(c, f, a).value.JObj?
    ensures "forecast" in FlattenMerge(c, f, a).value.fields
    ensures var out := FlattenMerge(c, f, a).value.fields["forecast"];
      && out.JArr? && |out.items| == |ForecastDays(f)|
      && forall i | 0 <= i < |out.items| ::
        out.items[i] == ExpectedDay(ForecastDays(f)[i]) && out.items[i].fields.Keys == DayRecordKeys
  {
    FlattenMergeCorrect(c, f, a);
    RecordForecast(c, f, a);
    ExpectedDaysKeys(ForecastDays(f));
  }

  lemma RecordForecast(c: Json, f: Json, a: Json)
    ensures "forecast" in ExpectedRecord(c, f, a).fields
    ensures ExpectedRecord(c, f, a).fields["forecast"] == JArr(ExpectedDays(ForecastDays(f)))
  {
  }

  lemma ExpectedDaysKeys(days: seq<Json>)
    ensures forall i | 0 <= i < |ExpectedDays(days)| ::
      ExpectedDays(days)[i] == ExpectedDay(days[i]) && ExpectedDays(days)[i].fields.Keys == DayRecordKeys
  {
    forall i | 0 <= i < |days| ensures ExpectedDay(days[i]).fields.Keys == DayRecordKeys {
      ExpectedDayKeys(days[i]);
    }
  }

  /** A forecast day without a `day` object keeps its date; every other field
      is null. */
  lemma DayWithoutDayObject(day: Json)
    requires day.JObj? && "day" !in day.fields
    ensures DayOk(day)
    ensures FlattenDay(day) == Ok(JObj(map[
      "date" := DictGet(day.fields, "date"),
      "date_epoch" := JNull,
      "maxtemp_c" := JNull,
      "maxtemp_f" := JNull,
      "mintemp_c" := JNull,
      "mintemp_f" := JNull,
      "condition" := JNull,
      "condition_icon" := JNull
    ]))
  {
    DayOkIff(day);
  }

  /** A forecast day whose `day` object has no `condition`: only the two
      condition fields are null, the others are copied as usual. */
  lemma DayWithoutCondition(day: Json)
    requires day.JObj? && "day" in day.fields && day.fields["day"].JObj?
    requires "condition" !in day.fields["day"].fields
    ensures DayOk(day)
    ensures FlattenDay(day) == Ok(JObj(map[
      "date" := Path(day, ["date"]),
      "date_epoch" := Path(day, ["day", "date_epoch"]),
      "maxtemp_c" := Path(day, ["day", "maxtemp_c"]),
      "maxtemp_f" := Path(day, ["day", "maxtemp_f"]),
      "mintemp_c" := Path(day, ["day", "mintemp_c"]),
      "mintemp_f" := Path(day, ["day", "mintemp_f"]),
      "condition" := JNull,
      "condition_icon" := JNull
    ]))
  {
    DayOkIff(day);
    FlattenDaySpec(day);
    GetThree(day, "day", "condition", "text");
    GetThree(day, "day", "condition", "icon");
  }

  // ---- the unguarded forecast lookup ----

  /** A forecast payload without `forecast` raises KeyError, even though
      every other lookup would have defaulted. */
  lemma MissingForecastIsKeyError(c: Json, f: Json, a: Json)
    requires c.JObj? && DictGet(c.fields, "current", EmptyObj).JObj?
    requires f.JObj? && "forecast" !in f.fields
    ensures FlattenMerge(c, f, a) == Err(KeyError("forecast"))
  {
  }

  /** Likewise a `forecast` object without `forecastday`. */
  lemma MissingForecastDayIsKeyError(c: Json, f: Json, a: Json)
    requires c.JObj? && DictGet(c.fields, "current", EmptyObj).JObj?
    requires f.JObj? && "forecast" in f.fields && f.fields["forecast"].JObj?
    requires "forecastday" !in f.fields["forecast"].fields
    ensures FlattenMerge(c, f, a) == Err(KeyError("forecastday"))
  {
  }
}
