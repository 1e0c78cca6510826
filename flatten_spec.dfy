/**
 * What the flattened weather record is, stated independently of how
 * `flatten_merge` computes it: every output leaf is the value found at a
 * fixed path in one of the inputs, or null when some key on that path is
 * absent; the output lists follow the input lists element by element.
 *
 * The key lists below name the lookups whose receivers must be objects; they
 * feed the input predicates `CurrentOk` and `DayOk`. The key sets are the key
 * sets of the output objects, stated on their own so that lemmas can say the
 * output has exactly those keys. The reference records at the end spell out
 * every key and its path as map literals, in the order of the dict literal
 * they describe.
 */
module FlattenSpec {
  import opened Json

  /** The value at `path` below `v`, or None when some key on the way is
      absent (or a value on the way is not an object). */
  function Find(v: Json, path: seq<string>): Option<Json>
    decreases |path|
  {
    if |path| == 0 then Some(v)
    else if v.JObj? && path[0] in v.fields then Find(v.fields[path[0]], path[1..])
    else None
  }

  /** The value at `path` below `v`, null when it is not there. */
  function Path(v: Json, path: seq<string>): Json {
    match Find(v, path)
    case Some(x) => x
    case None => JNull
  }

  /** The chained lookup `v.get(p0, {}).get(p1, {}) ... .get(pn)` raises
      nothing: every value it calls `.get` on is an object. An absent key
      is fine (the lookup goes on in an empty object); a present key that
      holds anything but an object is not. */
  predicate ChainOk(v: Json, path: seq<string>)
    decreases |path|
  {
    |path| == 0 || (v.JObj? && (path[0] in v.fields ==> ChainOk(v.fields[path[0]], path[1..])))
  }

  /** Not every value Python can iterate, only those that a `for` whose body
      calls `.get` on each element can get through: a list (whose elements
      must then be objects), and an empty object or an empty string, which
      yield nothing. A non-empty string is iterable in Python but yields
      strings, on which `.get` raises, so it is excluded. */
  predicate Iterable(v: Json) {
    v.JArr? || v == EmptyObj || v == JStr("")
  }

  /** The elements of an iterable value (none for an empty object or string). */
  function Items(v: Json): seq<Json> {
    if v.JArr? then v.items else []
  }

  // ---- key lists of the lookups, and key sets of the output objects ----

  /** Copied from `location`, under the same names. */
  const LocationKeys: seq<string> :=
    ["name", "country", "region", "lat", "lon", "localtime_epoch", "localtime"]

  /** (output key, key in `current.condition`). */
  const ConditionFields: seq<(string, string)> :=
    [("condition_text", "text"), ("condition_icon", "icon"), ("condition_code", "code")]

  /** Copied from `current`, under the same names. */
  const CurrentKeys: seq<string> :=
    ["wind_kph", "wind_degree", "wind_dir", "humidity", "feelslike_c", "uv", "gust_kph"]

  /** The keys of the `air_quality` sub-object, copied from `current.air_quality`. */
  const AirQualityKeys: seq<string> :=
    ["co", "no2", "o3", "so2", "pm2_5", "pm10", "us-epa-index", "gb-defra-index"]

  /** The keys of each output alert, copied from the input alert. */
  const AlertKeys: seq<string> :=
    ["headline", "severity", "desc", "date_epoch", "date", "status", "url", "event", "type"]

  /** Copied from a forecast day's `day` object, under the same names. */
  const DayKeys: seq<string> :=
    ["date_epoch", "maxtemp_c", "maxtemp_f", "mintemp_c", "mintemp_f"]

  /** (output key, key in a forecast day's `day.condition`). */
  const DayConditionFields: seq<(string, string)> :=
    [("condition", "text"), ("condition_icon", "icon")]

  /** The top-level keys of every flattened record. */
  const TopKeys: set<string> := {
    "name", "country", "region", "lat", "lon", "localtime_epoch", "localtime",
    "condition_text", "condition_icon", "condition_code",
    "wind_kph", "wind_degree", "wind_dir", "humidity", "feelslike_c", "uv", "gust_kph",
    "air_quality", "alerts", "forecast"
  }

  /** The keys of the output `air_quality` object. */
  const AirQualityRecordKeys: set<string> :=
    {"co", "no2", "o3", "so2", "pm2_5", "pm10", "us-epa-index", "gb-defra-index"}

  /** The keys of every output alert. */
  const AlertRecordKeys: set<string> :=
    {"headline", "severity", "desc", "date_epoch", "date", "status", "url", "event", "type"}

  /** The keys of every output forecast element. */
  const DayRecordKeys: set<string> := {
    "date", "date_epoch", "maxtemp_c", "maxtemp_f", "mintemp_c", "mintemp_f",
    "condition", "condition_icon"
  }

  // ---- the inputs flatten_merge accepts ----

  /** The current-conditions payload: every object the lookups pass through
      is an object when it is present. */
  predicate CurrentOk(c: Json) {
    && (forall k | k in LocationKeys :: ChainOk(c, ["location", k]))
    && (forall p | p in ConditionFields :: ChainOk(c, ["current", "condition", p.1]))
    && (forall k | k in CurrentKeys :: ChainOk(c, ["current", k]))
    && (forall k | k in AirQualityKeys :: ChainOk(c, ["current", "air_quality", k]))
  }

  /** The input alert list: `alerts.alerts`, or nothing when either key is absent. */
  function AlertList(a: Json): seq<Json> {
    Items(Path(a, ["alerts", "alerts"]))
  }

  /** The alerts payload: an object whose `alerts`, when present, is an object
      whose `alerts`, when present, is iterable and holds objects only. */
  predicate AlertsOk(a: Json) {
    && ChainOk(a, ["alerts", "alerts"])
    && (Find(a, ["alerts", "alerts"]).Some? ==> Iterable(Path(a, ["alerts", "alerts"])))
    && forall i | 0 <= i < |AlertList(a)| :: AlertList(a)[i].JObj?
  }

  /** The input forecast days: `forecast.forecastday`. */
  function ForecastDays(f: Json): seq<Json> {
    Items(Path(f, ["forecast", "forecastday"]))
  }

  /** One forecast day: an object whose `day` and `day.condition`, when
      present, are objects. */
  predicate DayOk(d: Json) {
    && ChainOk(d, ["date"])
    && (forall k | k in DayKeys :: ChainOk(d, ["day", k]))
    && (forall p | p in DayConditionFields :: ChainOk(d, ["day", "condition", p.1]))
  }

  /** The forecast payload: `forecast.forecastday` must be there (it is read
      by subscripting, with no default), be iterable and hold valid days. */
  predicate ForecastOk(f: Json) {
    && Find(f, ["forecast", "forecastday"]).Some?
    && Iterable(Path(f, ["forecast", "forecastday"]))
    && forall i | 0 <= i < |ForecastDays(f)| :: DayOk(ForecastDays(f)[i])
  }

  /** The three payloads on which flatten_merge raises nothing. */
  predicate Flattenable(c: Json, f: Json, a: Json) {
    CurrentOk(c) && ForecastOk(f) && AlertsOk(a)
  }

  // ---- the output ----

  /** The output alert for input alert `alert`. */
  function ExpectedAlert(alert: Json): Json {
    JObj(map[
      "headline" := Path(alert, ["headline"]),
      "severity" := Path(alert, ["severity"]),
      "desc" := Path(alert, ["desc"]),
      "date_epoch" := Path(alert, ["date_epoch"]),
      "date" := Path(alert, ["date"]),
      "status" := Path(alert, ["status"]),
      "url" := Path(alert, ["url"]),
      "event" := Path(alert, ["event"]),
      "type" := Path(alert, ["type"])
    ])
  }

  /** The output forecast element for input day `day`. */
  function ExpectedDay(day: Json): Json {
    JObj(map[
      "date" := Path(day, ["date"]),
      "date_epoch" := Path(day, ["day", "date_epoch"]),
      "maxtemp_c" := Path(day, ["day", "maxtemp_c"]),
      "maxtemp_f" := Path(day, ["day", "maxtemp_f"]),
      "mintemp_c" := Path(day, ["day", "mintemp_c"]),
      "mintemp_f" := Path(day, ["day", "mintemp_f"]),
      "condition" := Path(day, ["day", "condition", "text"]),
      "condition_icon" := Path(day, ["day", "condition", "icon"])
    ])
  }

  /** The output lists: one record per input element, in the input's order. */
  function ExpectedAlerts(alerts: seq<Json>): seq<Json> {
    seq(|alerts|, i requires 0 <= i < |alerts| => ExpectedAlert(alerts[i]))
  }

  function ExpectedDays(days: seq<Json>): seq<Json> {
    seq(|days|, i requires 0 <= i < |days| => ExpectedDay(days[i]))
  }

  /** The `air_quality` sub-object. */
  function ExpectedAirQuality(c: Json): Json {
    JObj(map[
      "co" := Path(c, ["current", "air_quality", "co"]),
      "no2" := Path(c, ["current", "air_quality", "no2"]),
      "o3" := Path(c, ["current", "air_quality", "o3"]),
      "so2" := Path(c, ["current", "air_quality", "so2"]),
      "pm2_5" := Path(c, ["current", "air_quality", "pm2_5"]),
      "pm10" := Path(c, ["current", "air_quality", "pm10"]),
      "us-epa-index" := Path(c, ["current", "air_quality", "us-epa-index"]),
      "gb-defra-index" := Path(c, ["current", "air_quality", "gb-defra-index"])
    ])
  }

  /** The flattened record for three payloads: each scalar is the value at
      its path in the current-conditions payload, and the lists follow
      `alerts.alerts` and `forecast.forecastday`. */
  function ExpectedRecord(c: Json, f: Json, a: Json): Json {
    JObj(map[
      "name" := Path(c, ["location", "name"]),
      "country" := Path(c, ["location", "country"]),
      "region" := Path(c, ["location", "region"]),
      "lat" := Path(c, ["location", "lat"]),
      "lon" := Path(c, ["location", "lon"]),
      "localtime_epoch" := Path(c, ["location", "localtime_epoch"]),
      "localtime" := Path(c, ["location", "localtime"]),
      "condition_text" := Path(c, ["current", "condition", "text"]),
      "condition_icon" := Path(c, ["current", "condition", "icon"]),
      "condition_code" := Path(c, ["current", "condition", "code"]),
      "wind_kph" := Path(c, ["current", "wind_kph"]),
      "wind_degree" := Path(c, ["current", "wind_degree"]),
      "wind_dir" := Path(c, ["current", "wind_dir"]),
      "humidity" := Path(c, ["current", "humidity"]),
      "feelslike_c" := Path(c, ["current", "feelslike_c"]),
      "uv" := Path(c, ["current", "uv"]),
      "gust_kph" := Path(c, ["current", "gust_kph"]),
      "air_quality" := ExpectedAirQuality(c),
      "alerts" := JArr(ExpectedAlerts(AlertList(a))),
      "forecast" := JArr(ExpectedDays(ForecastDays(f)))
    ])
  }
}
