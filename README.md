# Weather record flattening, modelled in Dafny

The weather streaming function runs on a timer. It fetches three payloads
from a weather API: current conditions (with air quality), a three-day
forecast, and weather alerts. It reshapes them into one flat record and
publishes that record to an event hub. This project models the two pure
pieces of that function:

- `api_response`, which turns an HTTP response into its parsed JSON body
  (status 200) or into the string `"error : <status>, <text>"`;
- `flatten_merge`, which builds the flat record from the three payloads.

The record consists of:

- 7 location scalars;
- 3 condition fields;
- 7 atmospheric scalars;
- an 8-key `air_quality` object;
- an `alerts` list of 9-key objects;
- a `forecast` list of 8-key objects.

## Files

- `json.dfy`, module `Json`. JSON values, and the parts of Python's
  semantics the code relies on:
  - `dict.get` with a default;
  - `d[k]`;
  - what `for x in v` visits.

  Python exceptions become the `Err` case of a `Result`: `KeyError`,
  `TypeError`, `AttributeError`, and the decode error of `response.json()`.
- `decimal.dfy`, module `Decimal`. Python's `str` of an integer, used for
  the status code in the error text, with a parser that reads it back.
- `function_app.dfy`, module `FunctionApp`. `ApiResponse` and `FlattenMerge`
  with their per-element helpers. They follow the Python code in its
  evaluation order, so the exception that surfaces is the one Python raises
  first.
- `flatten_spec.dfy`, module `FlattenSpec`. An independent description of
  the record:
  - `Path(v, keys)` is the value at a key path, or null when some key on
    the way is absent;
  - `Flattenable` is the set of payload triples on which no exception is
    raised;
  - `ExpectedRecord` gives every output leaf as a `Path` into one payload,
    with the output lists following `alerts.alerts` and
    `forecast.forecastday` element by element.
- `flatten_proofs.dfy`, module `FlattenProofs`. The two main theorems:
  - `FlattenMerge` raises exactly when the payloads are not `Flattenable`;
  - otherwise it returns `ExpectedRecord`.
- `flatten_properties.dfy`, module `FlattenProperties`. Consequences of
  those theorems:
  - the fixed key sets;
  - default-to-null behaviour;
  - empty alerts;
  - day entries with parts missing;
  - the unguarded forecast lookup.
- `api_response_proofs.dfy`, module `ApiResponseProofs`. The error text can
  be read back, and an error string fed to `flatten_merge` raises in every
  argument position.

`.get(k, {})` falls back to `{}` only when the key is absent. When the key
is present but holds a non-object (null, say), the next `.get` raises
`AttributeError`. The model keeps that distinction:

- `ChainOk` states it for one key path;
- `Flattenable` collects it for all paths of the record.

The `{}` and `[]` defaults on lines 58-61 and 64, and the guard left
commented out on line 63, suggest that missing data was meant never to
raise. The model follows the code, which in two places does raise:

- `forecast_weather['forecast']['forecastday']` is subscripted without a
  default, so a payload missing it raises KeyError. Even three payloads
  stripped of every optional field do not flatten unless that path is
  there.
- A key that is present but holds null (or any non-object) where an
  object is expected is not replaced by `{}`. The following `.get` raises
  AttributeError.

## Model

| member | source | states |
|---|---|---|
| `Json.DictGet` | Weather_api_streaming_project/weather_function/function_app.py:66-116 | `d.get(k, default)` on a dict: the stored value when `k` is present, the default (None unless one is given) when it is absent. |
| `Json.AsDict` | Weather_api_streaming_project/weather_function/function_app.py:66-116 | The receiver of a `.get`: a dict passes through unchanged; any other value raises AttributeError. |
| `Json.Get` | Weather_api_streaming_project/weather_function/function_app.py:58-64 | `v.get(k, default)` succeeds exactly on a dict. It yields the stored value when the key is present and the default only when it is absent. On any other value it raises AttributeError. |
| `Json.Subscript` | Weather_api_streaming_project/weather_function/function_app.py:62 | `v[k]` succeeds exactly on a dict holding `k`. A dict without `k` raises KeyError(k); a non-dict raises TypeError. |
| `Json.Elements` | Weather_api_streaming_project/weather_function/function_app.py:105-117 | What each of the two comprehensions (over the alerts and over the forecast days) visits. A list gives its items; a string gives its one-character strings; an empty dict gives nothing. A non-empty dict raises AttributeError at the first `.get`; null, booleans and numbers raise TypeError. |
| `FunctionApp.ApiResponse` | Weather_api_streaming_project/weather_function/function_app.py:35-40 | Status 200 gives the parsed body, or the decode error when the body is not JSON. Any other status gives a string starting with `error : `. |
| `FunctionApp.ErrorText` | Weather_api_streaming_project/weather_function/function_app.py:40 | The error text of a failed response. Its contract is carried by `ApiResponseProofs.ErrorTextRoundTrip`: the status code and body text parse back from it. |
| `FunctionApp.FlattenAlert` | Weather_api_streaming_project/weather_function/function_app.py:94-104 | One alert record. It succeeds exactly on an object, raises AttributeError otherwise, and has exactly the nine alert keys (values: `FlattenProofs.FlattenAlertSpec`). |
| `FunctionApp.FlattenAlertList` | Weather_api_streaming_project/weather_function/function_app.py:93-106 | The alert comprehension. It succeeds exactly when every alert is an object, and then has one record per alert, element i being the record of alert i. |
| `FunctionApp.FlattenDay` | Weather_api_streaming_project/weather_function/function_app.py:108-117 | One forecast day record. It succeeds exactly when the day, its `day` (default `{}`) and that object's `condition` (default `{}`) are objects, raises AttributeError otherwise, and has exactly the eight day keys (values: `FlattenProofs.FlattenDaySpec`). |
| `FunctionApp.FlattenDayList` | Weather_api_streaming_project/weather_function/function_app.py:107-118 | The forecast comprehension. It succeeds exactly when every day record does, and then has one record per day, element i being the record of day i. |
| `FunctionApp.AirQualityData` | Weather_api_streaming_project/weather_function/function_app.py:83-92 | The `air_quality` object has exactly the eight pollutant keys (values: `FlattenProofs.AirQualitySpec`). |
| `FunctionApp.FlattenedData` | Weather_api_streaming_project/weather_function/function_app.py:65-119 | The dict literal. Its contract is carried by `FlattenProperties.FlattenedDataKeys` (exactly the twenty keys) and `FlattenProofs.ExpectedRecordParts` (every scalar is the value at its path). |
| `FunctionApp.FlattenMerge` | Weather_api_streaming_project/weather_function/function_app.py:57-120 | `flatten_merge`. Its contract is carried by `FlattenProofs.FlattenMergeSucceeds` (returns exactly on `Flattenable` payloads) and `FlattenProofs.FlattenMergeCorrect` (then returns the reference record). |
| `FlattenProperties.FlattenedDataKeys` | Weather_api_streaming_project/weather_function/function_app.py:65-119 | The dict literal has exactly the twenty top-level keys, whatever values it is filled with. |
| `Decimal.IntToDecimal` | Weather_api_streaming_project/weather_function/function_app.py:40 | Python's `str` of an int, as the f-string formats `status_code`: digits, with `-` before a negative number; `Decimal.IntToDecimalRoundTrip` reads it back. |
| `Decimal.NatToDecimal` | Weather_api_streaming_project/weather_function/function_app.py:40 | The formatted status code is a non-empty run of digits with no leading zero (except `0` itself). |
| `Decimal.IntToDecimalRoundTrip` | Weather_api_streaming_project/weather_function/function_app.py:40 | Parsing the formatted integer gives the integer back. |
| `Decimal.IntToDecimalInjective` | Weather_api_streaming_project/weather_function/function_app.py:40 | Different integers are formatted differently. |
| `ApiResponseProofs.ErrorTextRoundTrip` | Weather_api_streaming_project/weather_function/function_app.py:40 | The status code and body text are recovered from `error : <status>, <text>`. |
| `ApiResponseProofs.ErrorTextInjective` | Weather_api_streaming_project/weather_function/function_app.py:40 | Two failed responses with the same error text have the same status and text. |
| `ApiResponseProofs.ApiResponseError` | Weather_api_streaming_project/weather_function/function_app.py:35-40 | A non-200 response yields a string from which its status and body text parse back. |
| `ApiResponseProofs.ErrorAsCurrentRaises` | Weather_api_streaming_project/weather_function/function_app.py:58 | An error string passed as the current-conditions payload makes `flatten_merge` raise AttributeError at its first `.get`. |
| `ApiResponseProofs.ErrorAsForecastRaises` | Weather_api_streaming_project/weather_function/function_app.py:62 | An error string passed as the forecast payload raises TypeError at the unguarded subscript. |
| `ApiResponseProofs.ErrorAsAlertsRaises` | Weather_api_streaming_project/weather_function/function_app.py:64 | An error string passed as the alerts payload raises AttributeError. |
| `FlattenProofs.CurrentOkIff` | Weather_api_streaming_project/weather_function/function_app.py:58-61 | The current-conditions payload passes all its lookups without raising exactly when the payload, its `location`, its `current`, and `current`'s `condition` and `air_quality` are objects wherever present. |
| `FlattenProofs.ForecastLookup` | Weather_api_streaming_project/weather_function/function_app.py:62 | `forecast_weather['forecast']['forecastday']` succeeds exactly when that path exists. Its value is then the value at the path. |
| `FlattenProofs.AlertsOkIff` | Weather_api_streaming_project/weather_function/function_app.py:64 | The alerts payload passes without raising exactly when the payload and its `alerts` (if present) are objects, and the inner `alerts` (default `[]`) is iterable and holds only objects. |
| `FlattenProofs.FlattenAlertSpec` | Weather_api_streaming_project/weather_function/function_app.py:94-104 | One alert record is the nine values found under the alert's own keys, null for each absent key. An alert that is not an object raises AttributeError. |
| `FlattenProofs.AlertListSpec` | Weather_api_streaming_project/weather_function/function_app.py:93-106 | The alert comprehension succeeds exactly when every element is an object. It then yields one record per element, in order. |
| `FlattenProofs.AlertsOverSpec` | Weather_api_streaming_project/weather_function/function_app.py:93-106 | Over any iterated value: the comprehension succeeds exactly on iterable values whose items are all objects, and then yields their records. |
| `FlattenProofs.DayOkIff` | Weather_api_streaming_project/weather_function/function_app.py:108-117 | A forecast day passes without raising exactly when it, its `day` (if present) and that object's `condition` (if present) are objects. |
| `FlattenProofs.FlattenDaySpec` | Weather_api_streaming_project/weather_function/function_app.py:108-117 | A day record succeeds exactly on valid days. Its eight fields are then the values at `date`, `day.*` and `day.condition.text`/`icon`, null where absent. |
| `FlattenProofs.DayListSpec` | Weather_api_streaming_project/weather_function/function_app.py:107-118 | The forecast comprehension succeeds exactly when every day is valid. It then yields one record per day, in order. |
| `FlattenProofs.DaysOverSpec` | Weather_api_streaming_project/weather_function/function_app.py:107-118 | Over any iterated value: the comprehension succeeds exactly on iterable values whose items are valid days, and then yields their records. |
| `FlattenProofs.AirQualitySpec` | Weather_api_streaming_project/weather_function/function_app.py:61-92 | The `air_quality` object built from `current.air_quality` equals the reference one: each pollutant is the value at its path, null when absent. |
| `FlattenProofs.ExpectedRecordParts` | Weather_api_streaming_project/weather_function/function_app.py:65-119 | The dict literal, filled from the looked-up objects, equals the reference record (every scalar is the value at its path). |
| `FlattenProofs.FlattenMergeSucceeds` | Weather_api_streaming_project/weather_function/function_app.py:57-120 | `flatten_merge` returns normally exactly when the three payloads are `Flattenable`, in both directions. |
| `FlattenProofs.FlattenMergeCorrect` | Weather_api_streaming_project/weather_function/function_app.py:57-120 | On flattenable payloads `flatten_merge` returns the reference record: each scalar at its path, the air-quality object, and the alert and forecast lists element by element. |
| `FlattenProperties.PathLeaf` | Weather_api_streaming_project/weather_function/function_app.py:66-82 | In the reference record, which `FlattenMergeCorrect` equates with the output: a one-key lookup is the field when present and null when absent. |
| `FlattenProperties.PathStep` | Weather_api_streaming_project/weather_function/function_app.py:58-60 | In the reference record, which `FlattenMergeCorrect` equates with the output: a path descends into a present key, and is null as a whole when its first key is absent, which is the effect of the `{}` default. |
| `FlattenProperties.MissingObjectsGiveNull` | Weather_api_streaming_project/weather_function/function_app.py:58-82 | In the reference record, which `FlattenMergeCorrect` equates with the output: a missing `location`, `current` or `condition` object makes every scalar read through it null. |
| `FlattenProperties.FlattenMergeKeys` | Weather_api_streaming_project/weather_function/function_app.py:65-119 | Whenever `flatten_merge` returns, the record has exactly the twenty top-level keys, whatever the input. |
| `FlattenProperties.FlattenMergeAirQuality` | Weather_api_streaming_project/weather_function/function_app.py:83-92 | The `air_quality` object has exactly the eight pollutant keys, each copied from `current.air_quality` or null. |
| `FlattenProperties.AirQualityExample` | Weather_api_streaming_project/weather_function/function_app.py:83-92 | `air_quality` = `{"co": 200.5}` gives `co` = 200.5 and the other seven pollutants null. |
| `FlattenProperties.FlattenMergeAlerts` | Weather_api_streaming_project/weather_function/function_app.py:93-106 | The output alerts have the length and order of `alerts.alerts`. Element i is the record of input alert i and has exactly the nine alert keys. |
| `FlattenProperties.AlertsDefaultToEmpty` | Weather_api_streaming_project/weather_function/function_app.py:64 | No `alerts` key, or no inner `alerts` key, gives an empty alert list and no error. |
| `FlattenProperties.FlattenMergeForecast` | Weather_api_streaming_project/weather_function/function_app.py:107-118 | The output forecast has the length and order of `forecast.forecastday`. Element i is the record of day i and has exactly the eight day keys. |
| `FlattenProperties.DayWithoutDayObject` | Weather_api_streaming_project/weather_function/function_app.py:109-116 | A day without `day` keeps its `date`; the other seven fields are null. |
| `FlattenProperties.DayWithoutCondition` | Weather_api_streaming_project/weather_function/function_app.py:110-116 | A `day` without `condition` nulls only `condition` and `condition_icon`. The other six fields are copied as usual. |
| `FlattenProperties.MissingForecastIsKeyError` | Weather_api_streaming_project/weather_function/function_app.py:62 | A forecast payload without `forecast` raises KeyError('forecast'); nothing defaults. |
| `FlattenProperties.MissingForecastDayIsKeyError` | Weather_api_streaming_project/weather_function/function_app.py:62 | A `forecast` object without `forecastday` raises KeyError('forecastday'). |

## Left out

- The timer trigger, its logging and the `past_due` check
  (function_app.py:12-17). These are scheduling and logging, with no data
  logic.
- The Event Hub client and `send_event`, including `json.dumps`
  (function_app.py:19-33). These are network publishing through library
  code that is not part of this model.
- The URL builders `current_weather_data`, `forecast_weather_data` and
  `alert_weather_data` (function_app.py:42-55). They are HTTP requests.
  The model starts from what `api_response` receives: a status code, a
  body text, and the parse of the body. The parse is an `Option` because
  `response.json()` is library code.
- `get_secret_from_keyvault` and `fetch_data` (function_app.py:122-143).
  These are Azure identity and Key Vault calls and the orchestration that
  chains the modelled functions.
- All of `databricks_dlt/src/utils/api_utils.py`: secrets from a file,
  HTTP calls, date stepping, and building a Spark DataFrame.
- The order of keys in the output dict. Python dicts keep insertion order
  and JSON objects here are maps, so the record is stated up to key order.
- Numbers are copied, never computed on. They are kept as opaque values,
  with no floating-point semantics. `JNum` holds a `real`, so it cannot
  represent the `NaN`, `Infinity` and `-Infinity` that Python's
  `json.loads` accepts, and it does not tell `1` from `1.0`. Neither
  changes what the model computes, since numbers are only copied.
- Strings are sequences of Dafny characters, which cannot hold a lone
  surrogate such as the one Python's `json.loads` produces from `"\ud800"`.
  Strings are only copied, or iterated into one-character strings whose
  `.get` raises, so nothing computed depends on it.
- `Json.Elements`: the keys of a non-empty dict are not enumerated, since
  a map has no order. The model returns the AttributeError that the first
  key raises at its `.get`. The outcome is the same as Python's.
- The repeated evaluation of `day.get('day', {})` on lines 110-116 is
  modelled as one lookup. The lookup is pure, so the values and the
  exception are the same.
