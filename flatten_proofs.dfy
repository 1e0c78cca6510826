/**
 * The properties of `flatten_merge`: exactly when it raises, the fixed key
 * set of its result, and that every output leaf is the input value at the
 * schema's path (or null), with the output lists following the input lists.
 */
module FlattenProofs {
  import opened Json
  import opened FunctionApp
  import opened FlattenSpec

  // ---- chained lookups of length one, two and three ----

  lemma FindOne(v: Json, k: string)
    ensures Find(v, [k]) == if v.JObj? && k in v.fields then Some(v.fields[k]) else None
    ensures ChainOk(v, [k]) <==> v.JObj?
  {
    assert [k][1..] == [];
  }

  lemma FindTwo(v: Json, k1: string, k2: string)
    ensures Find(v, [k1, k2]) ==
      if v.JObj? && k1 in v.fields then Find(v.fields[k1], [k2]) else None
    ensures ChainOk(v, [k1, k2]) <==>
      v.JObj? && (k1 in v.fields ==> v.fields[k1].JObj?)
  {
    assert [k1, k2][1..] == [k2];
    if v.JObj? && k1 in v.fields {
      FindOne(v.fields[k1], k2);
    }
  }

  lemma FindThree(v: Json, k1: string, k2: string, k3: string)
    ensures Find(v, [k1, k2, k3]) ==
      if v.JObj? && k1 in v.fields then Find(v.fields[k1], [k2, k3]) else None
    ensures ChainOk(v, [k1, k2, k3]) <==>
      v.JObj? && (k1 in v.fields ==> ChainOk(v.fields[k1], [k2, k3]))
  {
    assert [k1, k2, k3][1..] == [k2, k3];
  }

  /** `v.get(k)` on an object is the value at path [k]. */
  lemma GetOne(v: Json, k: string)
    requires v.JObj?
    ensures Path(v, [k]) == DictGet(v.fields, k)
  {
    FindOne(v, k);
  }

  /** `v.get(k1, {}).get(k2)` is the value at path [k1, k2]. */
  lemma GetTwo(v: Json, k1: string, k2: string)
    requires v.JObj? && DictGet(v.fields, k1, EmptyObj).JObj?
    ensures Path(v, [k1, k2]) == DictGet(DictGet(v.fields, k1, EmptyObj).fields, k2)
  {
    FindTwo(v, k1, k2);
    FindOne(DictGet(v.fields, k1, EmptyObj), k2);
  }

  /** `v.get(k1, {}).get(k2, {}).get(k3)` is the value at path [k1, k2, k3]. */
  lemma GetThree(v: Json, k1: string, k2: string, k3: string)
    requires v.JObj?
    requires DictGet(v.fields, k1, EmptyObj).JObj?
    requires DictGet(DictGet(v.fields, k1, EmptyObj).fields, k2, EmptyObj).JObj?
    ensures Path(v, [k1, k2, k3]) ==
      DictGet(DictGet(DictGet(v.fields, k1, EmptyObj).fields, k2, EmptyObj).fields, k3)
  {
    FindThree(v, k1, k2, k3);
    var w := DictGet(v.fields, k1, EmptyObj);
    FindTwo(w, k2, k3);
    FindOne(DictGet(w.fields, k2, EmptyObj), k3);
  }

  lemma ChainOkThree(v: Json, k1: string, k2: string, k3: string)
    ensures ChainOk(v, [k1, k2, k3]) <==>
      && v.JObj?
      && DictGet(v.fields, k1, EmptyObj).JObj?
      && DictGet(DictGet(v.fields, k1, EmptyObj).fields, k2, EmptyObj).JObj?
  {
    FindThree(v, k1, k2, k3);
    if v.JObj? && k1 in v.fields {
      FindTwo(v.fields[k1], k2, k3);
    }
  }

  // ---- the current-conditions payload ----

  /** CurrentOk says exactly that the four `.get` receivers are objects. */
  lemma CurrentOkIff(c: Json)
    ensures CurrentOk(c) <==>
      && c.JObj?
      && DictGet(c.fields, "location", EmptyObj).JObj?
      && DictGet(c.fields, "current", EmptyObj).JObj?
      && DictGet(DictGet(c.fields, "current", EmptyObj).fields, "condition", EmptyObj).JObj?
      && DictGet(DictGet(c.fields, "current", EmptyObj).fields, "air_quality", EmptyObj).JObj?
  {
    if CurrentOk(c) {
      assert "name" in LocationKeys;
      FindTwo(c, "location", "name");
      assert ("condition_text", "text") in ConditionFields;
      ChainOkThree(c, "current", "condition", "text");
      assert "co" in AirQualityKeys;
      ChainOkThree(c, "current", "air_quality", "co");
    }
    if c.JObj? && DictGet(c.fields, "location", EmptyObj).JObj? && DictGet(c.fields, "current", EmptyObj).JObj? {
      forall k | k in LocationKeys ensures ChainOk(c, ["location", k]) { FindTwo(c, "location", k); }
      forall k | k in CurrentKeys ensures ChainOk(c, ["current", k]) { FindTwo(c, "current", k); }
      forall p | p in ConditionFields ensures
        ChainOk(c, ["current", "condition", p.1]) <==>
        DictGet(DictGet(c.fields, "current", EmptyObj).fields, "condition", EmptyObj).JObj?
      {
        ChainOkThree(c, "current", "condition", p.1);
      }
      forall k | k in AirQualityKeys ensures
        ChainOk(c, ["current", "air_quality", k]) <==>
        DictGet(DictGet(c.fields, "current", EmptyObj).fields, "air_quality", EmptyObj).JObj?
      {
        ChainOkThree(c, "current", "air_quality", k);
      }
    }
  }

  // ---- alerts ----

  lemma FlattenAlertSpec(alert: Json)
    ensures FlattenAlert(alert) == if alert.JObj? then Ok(ExpectedAlert(alert)) else Err(AttributeError)
  {
    if alert.JObj? {
      forall k | k in AlertKeys ensures Path(alert, [k]) == DictGet(alert.fields, k) {
        GetOne(alert, k);
      }
    }
  }

  lemma AlertListSpec(alerts: seq<Json>)
    ensures FlattenAlertList(alerts).Ok? <==> forall i | 0 <= i < |alerts| :: alerts[i].JObj?
    ensures FlattenAlertList(alerts).Ok? ==> FlattenAlertList(alerts).value == ExpectedAlerts(alerts)
  {
    if FlattenAlertList(alerts).Ok? {
      var out := FlattenAlertList(alerts).value;
      forall i | 0 <= i < |alerts| ensures out[i] == ExpectedAlert(alerts[i]) {
        FlattenAlertSpec(alerts[i]);
      }
    }
  }

  /** The alert comprehension over any iterated value. */
  lemma AlertsOverSpec(v: Json)
    ensures
      (Elements(v).Ok? && FlattenAlertList(Elements(v).value).Ok?) <==>
      (Iterable(v) && forall i | 0 <= i < |Items(v)| :: Items(v)[i].JObj?)
    ensures Elements(v).Ok? && FlattenAlertList(Elements(v).value).Ok? ==>
      FlattenAlertList(Elements(v).value).value == ExpectedAlerts(Items(v))
  {
    match v
    case JArr(items) =>
      assert Elements(v) == Ok(items) && Items(v) == items;
      AlertListSpec(items);
    case JStr(s) =>
      AlertListSpec(Elements(v).value);
      if |s| == 0 {
        assert v == JStr("") && Elements(v).value == [];
      } else {
        assert !Elements(v).value[0].JObj?;
        assert !Iterable(v);
      }
    case JObj(m) =>
      AlertListSpec([]);
    case _ =>
  }

  /** What line 64 reads out of the alerts payload. */
  lemma AlertsLookup(a: Json)
    requires a.JObj? && DictGet(a.fields, "alerts", EmptyObj).JObj?
    ensures var inner := DictGet(DictGet(a.fields, "alerts", EmptyObj).fields, "alerts", JArr([]));
      && Items(inner) == AlertList(a)
      && (Find(a, ["alerts", "alerts"]).Some? ==> inner == Path(a, ["alerts", "alerts"]))
      && (Find(a, ["alerts", "alerts"]).None? ==> inner == JArr([]))
  {
    FindTwo(a, "alerts", "alerts");
  }

  lemma AlertsOkIff(a: Json)
    ensures AlertsOk(a) <==>
      && a.JObj?
      && DictGet(a.fields, "alerts", EmptyObj).JObj?
      && var inner := DictGet(DictGet(a.fields, "alerts", EmptyObj).fields, "alerts", JArr([]));
         Iterable(inner) && forall i | 0 <= i < |Items(inner)| :: Items(inner)[i].JObj?
  {
    FindTwo(a, "alerts", "alerts");
    if a.JObj? && DictGet(a.fields, "alerts", EmptyObj).JObj? {
      AlertsLookup(a);
    }
  }

  // ---- forecast days ----

  lemma DayOkIff(day: Json)
    ensures DayOk(day) <==>
      && day.JObj?
      && DictGet(day.fields, "day", EmptyObj).JObj?
      && DictGet(DictGet(day.fields, "day", EmptyObj).fields, "condition", EmptyObj).JObj?
  {
    FindOne(day, "date");
    forall k { FindTwo(day, "day", k); }
    forall k { ChainOkThree(day, "day", "condition", k); }
    assert "date_epoch" in DayKeys;
    assert ("condition", "text") in DayConditionFields;
  }

  lemma FlattenDaySpec(day: Json)
    ensures FlattenDay(day).Ok? <==> DayOk(day)
    ensures FlattenDay(day).Ok? ==> FlattenDay(day).value == ExpectedDay(day)
  {
    DayOkIff(day);
    if DayOk(day) {
      GetOne(day, "date");
      GetTwo(day, "day", "date_epoch");
      GetTwo(day, "day", "maxtemp_c");
      GetTwo(day, "day", "maxtemp_f");
      GetTwo(day, "day", "mintemp_c");
      GetTwo(day, "day", "mintemp_f");
      GetThree(day, "day", "condition", "text");
      GetThree(day, "day", "condition", "icon");
    }
  }

  lemma DayListSpec(days: seq<Json>)
    ensures FlattenDayList(days).Ok? <==> forall i | 0 <= i < |days| :: DayOk(days[i])
    ensures FlattenDayList(days).Ok? ==> FlattenDayList(days).value == ExpectedDays(days)
  {
    forall i | 0 <= i < |days|
      ensures FlattenDay(days[i]).Ok? <==> DayOk(days[i])
      ensures FlattenDay(days[i]).Ok? ==> FlattenDay(days[i]).value == ExpectedDay(days[i])
    {
      FlattenDaySpec(days[i]);
    }
  }

  /** The forecast comprehension over any iterated value. */
  lemma DaysOverSpec(v: Json)
    ensures
      (Elements(v).Ok? && FlattenDayList(Elements(v).value).Ok?) <==>
      (Iterable(v) && forall i | 0 <= i < |Items(v)| :: DayOk(Items(v)[i]))
    ensures Elements(v).Ok? && FlattenDayList(Elements(v).value).Ok? ==>
      FlattenDayList(Elements(v).value).value == ExpectedDays(Items(v))
  {
    match v
    case JArr(items) =>
      assert Elements(v) == Ok(items) && Items(v) == items;
      DayListSpec(items);
    case JStr(s) =>
      DayListSpec(Elements(v).value);
      if |s| == 0 {
        assert v == JStr("") && Elements(v).value == [];
      } else {
        DayOkIff(Elements(v).value[0]);
        assert !Iterable(v);
      }
    case JObj(m) =>
      DayListSpec([]);
    case _ =>
  }

  lemma ForecastLookup(f: Json)
    ensures Find(f, ["forecast", "forecastday"]).Some? <==>
      Subscript(f, "forecast").Ok? && Subscript(Subscript(f, "forecast").value, "forecastday").Ok?
    ensures Find(f, ["forecast", "forecastday"]).Some? ==>
      Path(f, ["forecast", "forecastday"]) == Subscript(Subscript(f, "forecast").value, "forecastday").value
  {
    FindTwo(f, "forecast", "forecastday");
    if f.JObj? && "forecast" in f.fields {
      FindOne(f.fields["forecast"], "forecastday");
    }
  }

  // ---- flatten_merge ----

  /** When flatten_merge returns normally, in terms of the values it looks up. */
  lemma FlattenMergeOkSteps(c: Json, f: Json, a: Json)
    requires c.JObj? && DictGet(c.fields, "current", EmptyObj).JObj?
    requires Subscript(f, "forecast").Ok? && Subscript(Subscript(f, "forecast").value, "forecastday").Ok?
    requires a.JObj? && DictGet(a.fields, "alerts", EmptyObj).JObj?
    ensures var cur := DictGet(c.fields, "current", EmptyObj).fields;
      var days := Subscript(Subscript(f, "forecast").value, "forecastday").value;
      var alerts := DictGet(DictGet(a.fields, "alerts", EmptyObj).fields, "alerts", JArr([]));
      FlattenMerge(c, f, a).Ok? <==>
      && DictGet(c.fields, "location", EmptyObj).JObj?
      && DictGet(cur, "condition", EmptyObj).JObj?
      && DictGet(cur, "air_quality", EmptyObj).JObj?
      && Elements(alerts).Ok? && FlattenAlertList(Elements(alerts).value).Ok?
      && Elements(days).Ok? && FlattenDayList(Elements(days).value).Ok?
  {
  }

  /** flatten_merge raises no exception exactly on the payloads of Flattenable. */
  lemma FlattenMergeSucceeds(c: Json, f: Json, a: Json)
    ensures FlattenMerge(c, f, a).Ok? <==> Flattenable(c, f, a)
  {
    CurrentOkIff(c);
    ForecastLookup(f);
    AlertsOkIff(a);
    if !(c.JObj? && DictGet(c.fields, "current", EmptyObj).JObj?) {
      assert FlattenMerge(c, f, a).Err?;
      return;
    }
    if !Find(f, ["forecast", "forecastday"]).Some? {
      assert FlattenMerge(c, f, a).Err?;
      return;
    }
    if !(a.JObj? && DictGet(a.fields, "alerts", EmptyObj).JObj?) {
      assert FlattenMerge(c, f, a).Err?;
      return;
    }
    FlattenMergeOkSteps(c, f, a);
    AlertsOverSpec(DictGet(DictGet(a.fields, "alerts", EmptyObj).fields, "alerts", JArr([])));
    var days := Path(f, ["forecast", "forecastday"]);
    DaysOverSpec(days);
    assert ForecastDays(f) == Items(days);
    assert ForecastOk(f) <==> Iterable(days) && forall i | 0 <= i < |Items(days)| :: DayOk(Items(days)[i]);
  }

  lemma AirQualitySpec(c: Json)
    requires c.JObj? && DictGet(c.fields, "current", EmptyObj).JObj?
    requires DictGet(DictGet(c.fields, "current", EmptyObj).fields, "air_quality", EmptyObj).JObj?
    ensures var cur := DictGet(c.fields, "current", EmptyObj).fields;
      AirQualityData(DictGet(cur, "air_quality", EmptyObj).fields) == ExpectedAirQuality(c)
  {
    GetThree(c, "current", "air_quality", "co");
    GetThree(c, "current", "air_quality", "no2");
    GetThree(c, "current", "air_quality", "o3");
    GetThree(c, "current", "air_quality", "so2");
    GetThree(c, "current", "air_quality", "pm2_5");
    GetThree(c, "current", "air_quality", "pm10");
    GetThree(c, "current", "air_quality", "us-epa-index");
    GetThree(c, "current", "air_quality", "gb-defra-index");
  }

  /** The reference record, written as the dict literal of flatten_merge. */
  lemma ExpectedRecordParts(c: Json, f: Json, a: Json)
    requires c.JObj?
    requires DictGet(c.fields, "location", EmptyObj).JObj?
    requires DictGet(c.fields, "current", EmptyObj).JObj?
    requires DictGet(DictGet(c.fields, "current", EmptyObj).fields, "condition", EmptyObj).JObj?
    requires DictGet(DictGet(c.fields, "current", EmptyObj).fields, "air_quality", EmptyObj).JObj?
    ensures var cur := DictGet(c.fields, "current", EmptyObj).fields;
      ExpectedRecord(c, f, a) == FlattenedData(
        DictGet(c.fields, "location", EmptyObj).fields,
        DictGet(cur, "condition", EmptyObj).fields,
        cur,
        DictGet(cur, "air_quality", EmptyObj).fields,
        ExpectedAlerts(AlertList(a)),
        ExpectedDays(ForecastDays(f)))
  {
    AirQualitySpec(c);
    GetTwo(c, "location", "name");
    GetTwo(c, "location", "country");
    GetTwo(c, "location", "region");
    GetTwo(c, "location", "lat");
    GetTwo(c, "location", "lon");
    GetTwo(c, "location", "localtime_epoch");
    GetTwo(c, "location", "localtime");
    GetThree(c, "current", "condition", "text");
    GetThree(c, "current", "condition", "icon");
    GetThree(c, "current", "condition", "code");
    GetTwo(c, "current", "wind_kph");
    GetTwo(c, "current", "wind_degree");
    GetTwo(c, "current", "wind_dir");
    GetTwo(c, "current", "humidity");
    GetTwo(c, "current", "feelslike_c");
    GetTwo(c, "current", "uv");
    GetTwo(c, "current", "gust_kph");
  }

  /** The value flatten_merge returns, in terms of the values it looks up. */
  lemma FlattenMergeValue(c: Json, f: Json, a: Json)
    requires FlattenMerge(c, f, a).Ok?
    ensures c.JObj? && DictGet(c.fields, "current", EmptyObj).JObj?
    ensures Subscript(f, "forecast").Ok? && Subscript(Subscript(f, "forecast").value, "forecastday").Ok?
    ensures a.JObj? && DictGet(a.fields, "alerts", EmptyObj).JObj?
    ensures var cur := DictGet(c.fields, "current", EmptyObj).fields;
      var days := Subscript(Subscript(f, "forecast").value, "forecastday").value;
      var alerts := DictGet(DictGet(a.fields, "alerts", EmptyObj).fields, "alerts", JArr([]));
      && DictGet(c.fields, "location", EmptyObj).JObj?
      && DictGet(cur, "condition", EmptyObj).JObj?
      && DictGet(cur, "air_quality", EmptyObj).JObj?
      && Elements(alerts).Ok? && FlattenAlertList(Elements(alerts).value).Ok?
      && Elements(days).Ok? && FlattenDayList(Elements(days).value).Ok?
      && FlattenMerge(c, f, a).value == FlattenedData(
        DictGet(c.fields, "location", EmptyObj).fields,
        DictGet(cur, "condition", EmptyObj).fields,
        cur,
        DictGet(cur, "air_quality", EmptyObj).fields,
        FlattenAlertList(Elements(alerts).value).value,
        FlattenDayList(Elements(days).value).value)
  {
  }

  /** flatten_merge, when it raises nothing, returns the reference record. */
  lemma FlattenMergeCorrect(c: Json, f: Json, a: Json)
    requires Flattenable(c, f, a)
    ensures FlattenMerge(c, f, a) == Ok(ExpectedRecord(c, f, a))
  {
    FlattenMergeSucceeds(c, f, a);
    FlattenMergeValue(c, f, a);
    ForecastLookup(f);
    AlertsLookup(a);
    AlertsOverSpec(DictGet(DictGet(a.fields, "alerts", EmptyObj).fields, "alerts", JArr([])));
    DaysOverSpec(Path(f, ["forecast", "forecastday"]));
    ExpectedRecordParts(c, f, a);
  }
}
