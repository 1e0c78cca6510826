/**
 * The pure part of the weather timer function: `api_response`, which turns
 * an HTTP response into either its parsed JSON body or an error string, and
 * `flatten_merge`, which reshapes the current-conditions, forecast and
 * alerts payloads into one flat record.
 *
 * Both follow the Python code step by step, in its evaluation order; every
 * place where Python would raise returns the matching `Err`.
 */
module FunctionApp {
  import opened Json
  import opened Decimal
  import opened FlattenSpec

  /** What `api_response` reads of an HTTP response: the status code, the
      body text, and what `response.json()` returns (None when the body is
      not JSON). */
  datatype Response = Response(statusCode: int, text: string, json: Option<Json>)

  /** The text `api_response` returns for a failed request. */
  function ErrorText(statusCode: int, text: string): string {
    "error : " + IntToDecimal(statusCode) + ", " + text
  }

  /** `api_response`: the parsed body for status 200, otherwise an error string
      (a Python `str`, hence a JSON string value). */
  function ApiResponse(response: Response): (r: Result<Json>)
    ensures response.statusCode == 200 ==> (r.Ok? <==> response.json.Some?)
    ensures response.statusCode == 200 && r.Ok? ==> r.value == response.json.value
    ensures response.statusCode == 200 && r.Err? ==> r.error == JsonDecodeError
    ensures response.statusCode != 200 ==> r.Ok? && r.value.JStr?
    ensures response.statusCode != 200 ==> |r.value.s| > 8 && r.value.s[..8] == "error : "
  {
    if response.statusCode == 200 then
      match response.json
      case Some(data) => Ok(data)
      case None => Err(JsonDecodeError)
    else
      Ok(JStr(ErrorText(response.statusCode, response.text)))
  }

  /** One element of the output `alerts` list: nine keys copied from `alert`. */
  function FlattenAlert(alert: Json): (r: Result<Json>)
    ensures r.Ok? <==> alert.JObj?
    ensures r.Err? ==> r.error == AttributeError
    ensures r.Ok? ==> r.value.JObj? && r.value.fields.Keys == AlertRecordKeys
  {
    var a :- AsDict(alert);
    Ok(JObj(map[
      "headline" := DictGet(a, "headline"),
      "severity" := DictGet(a, "severity"),
      "desc" := DictGet(a, "desc"),
      "date_epoch" := DictGet(a, "date_epoch"),
      "date" := DictGet(a, "date"),
      "status" := DictGet(a, "status"),
      "url" := DictGet(a, "url"),
      "event" := DictGet(a, "event"),
      "type" := DictGet(a, "type")
    ]))
  }

  /** The list comprehension over the alerts, element by element. */
  function FlattenAlertList(alerts: seq<Json>): (r: Result<seq<Json>>)
    ensures r.Ok? <==> forall i | 0 <= i < |alerts| :: alerts[i].JObj?
    ensures r.Ok? ==> |r.value| == |alerts|
    ensures r.Ok? ==> forall i | 0 <= i < |alerts| :: FlattenAlert(alerts[i]) == Ok(r.value[i])
    decreases |alerts|
  {
    if |alerts| == 0 then Ok([])
    else
      var first :- FlattenAlert(alerts[0]);
      var rest :- FlattenAlertList(alerts[1..]);
      Ok([first] + rest)
  }

  /** One element of the output `forecast` list: eight keys taken from the
      day entry, its `day` object and that object's `condition`. */
  function FlattenDay(day: Json): (r: Result<Json>)
    ensures r.Ok? <==>
      && day.JObj?
      && DictGet(day.fields, "day", EmptyObj).JObj?
      && DictGet(DictGet(day.fields, "day", EmptyObj).fields, "condition", EmptyObj).JObj?
    ensures r.Err? ==> r.error == AttributeError
    ensures r.Ok? ==> r.value.JObj? && r.value.fields.Keys == DayRecordKeys
  {
    var d :- AsDict(day);
    var dayData := DictGet(d, "day", EmptyObj);
    var dd :- AsDict(dayData);
    var condition := DictGet(dd, "condition", EmptyObj);
    var c :- AsDict(condition);
    Ok(JObj(map[
      "date" := DictGet(d, "date"),
      "date_epoch" := DictGet(dd, "date_epoch"),
      "maxtemp_c" := DictGet(dd, "maxtemp_c"),
      "maxtemp_f" := DictGet(dd, "maxtemp_f"),
      "mintemp_c" := DictGet(dd, "mintemp_c"),
      "mintemp_f" := DictGet(dd, "mintemp_f"),
      "condition" := DictGet(c, "text"),
      "condition_icon" := DictGet(c, "icon")
    ]))
  }

  /** The list comprehension over the forecast days, element by element. */
  function FlattenDayList(days: seq<Json>): (r: Result<seq<Json>>)
    ensures r.Ok? <==> forall i | 0 <= i < |days| :: FlattenDay(days[i]).Ok?
    ensures r.Ok? ==> |r.value| == |days|
    ensures r.Ok? ==> forall i | 0 <= i < |days| :: FlattenDay(days[i]) == Ok(r.value[i])
    decreases |days|
  {
    if |days| == 0 then Ok([])
    else
      var first :- FlattenDay(days[0]);
      var rest :- FlattenDayList(days[1..]);
      Ok([first] + rest)
  }

  /** `flatten_merge(current_weather, forecast_weather, alert_weather)`. */
  function FlattenMerge(currentWeather: Json, forecastWeather: Json, alertWeather: Json): Result<Json> {
    var locationData :- Get(currentWeather, "location", EmptyObj);
    var current :- Get(currentWeather, "current", EmptyObj);
    var condition :- Get(current, "condition", EmptyObj);
    var airQuality :- Get(current, "air_quality", EmptyObj);
    var forecastObj :- Subscript(forecastWeather, "forecast");
    var forecast :- Subscript(forecastObj, "forecastday");
    var alertsObj :- Get(alertWeather, "alerts", EmptyObj);
    var alerts :- Get(alertsObj, "alerts", JArr([]));
    // the dict literal, in the order Python evaluates it
    var loc :- AsDict(locationData);
    var cond :- AsDict(condition);
    var aq :- AsDict(airQuality);
    var alertItems :- Elements(alerts);
    var alertRecords :- FlattenAlertList(alertItems);
    var days :- Elements(forecast);
    var dayRecords :- FlattenDayList(days);
    Ok(FlattenedData(loc, cond, current.fields, aq, alertRecords, dayRecords))
  }

  /** The dict literal flatten_merge returns, once the objects it reads from
      are known to be dicts and both comprehensions have been evaluated. */
  function FlattenedData(
    loc: map<string, Json>, cond: map<string, Json>, cur: map<string, Json>, aq: map<string, Json>,
    alertRecords: seq<Json>, dayRecords: seq<Json>): Json
  {
    JObj(map[
      "name" := DictGet(loc, "name"),
      "country" := DictGet(loc, "country"),
      "region" := DictGet(loc, "region"),
      "lat" := DictGet(loc, "lat"),
      "lon" := DictGet(loc, "lon"),
      "localtime_epoch" := DictGet(loc, "localtime_epoch"),
      "localtime" := DictGet(loc, "localtime"),
      "condition_text" := DictGet(cond, "text"),
      "condition_icon" := DictGet(cond, "icon"),
      "condition_code" := DictGet(cond, "code"),
      "wind_kph" := DictGet(cur, "wind_kph"),
      "wind_degree" := DictGet(cur, "wind_degree"),
      "wind_dir" := DictGet(cur, "wind_dir"),
      "humidity" := DictGet(cur, "humidity"),
      "feelslike_c" := DictGet(cur, "feelslike_c"),
      "uv" := DictGet(cur, "uv"),
      "gust_kph" := DictGet(cur, "gust_kph"),
      "air_quality" := AirQualityData(aq),
      "alerts" := JArr(alertRecords),
      "forecast" := JArr(dayRecords)
    ])
  }

  /** The `air_quality` sub-object of the flattened record. */
  function AirQualityData(aq: map<string, Json>): (r: Json)
    ensures r.JObj? && r.fields.Keys == AirQualityRecordKeys
  {
    JObj(map[
      "co" := DictGet(aq, "co"),
      "no2" := DictGet(aq, "no2"),
      "o3" := DictGet(aq, "o3"),
      "so2" := DictGet(aq, "so2"),
      "pm2_5" := DictGet(aq, "pm2_5"),
      "pm10" := DictGet(aq, "pm10"),
      "us-epa-index" := DictGet(aq, "us-epa-index"),
      "gb-defra-index" := DictGet(aq, "gb-defra-index")
    ])
  }
}
