/**
 * What `api_response` hands on. A successful call yields the parsed body;
 * a failed one yields the text "error : <status>, <text>", from which the
 * status code and the body text can be read back. That string is not an
 * object, so passing it on to flatten_merge in any position raises.
 */
module ApiResponseProofs {
  import opened Json
  import opened Decimal
  import opened FunctionApp
  import opened FlattenSpec

  /** The position of the first `c` in `s`. */
  function IndexOf(s: string, c: char): (r: Option<nat>)
    ensures r.Some? ==> r.value < |s| && s[r.value] == c && forall j | 0 <= j < r.value :: s[j] != c
    ensures r.None? ==> forall j | 0 <= j < |s| :: s[j] != c
    decreases |s|
  {
    if |s| == 0 then None
    else if s[0] == c then Some(0)
    else
      match IndexOf(s[1..], c)
      case Some(i) => Some(i + 1)
      case None => None
  }

  const ErrorPrefix: string := "error : "

  /** Reads an error text back into its status code and body text: the
      prefix, an integer up to the first comma, a space, then the body. */
  function ParseErrorText(s: string): Option<(int, string)> {
    if |s| < |ErrorPrefix| || s[..|ErrorPrefix|] != ErrorPrefix then None
    else
      var rest := s[|ErrorPrefix|..];
      match IndexOf(rest, ',')
      case None => None
      case Some(j) =>
        if j + 1 < |rest| && rest[j + 1] == ' ' then
          match ParseInt(rest[..j])
          case Some(n) => Some((n, rest[j + 2..]))
          case None => None
        else None
  }

  /** The decimal text of an integer holds no comma. */
  lemma DecimalHasNoComma(i: int)
    ensures forall j | 0 <= j < |IntToDecimal(i)| :: IntToDecimal(i)[j] != ','
  {
    var d := IntToDecimal(i);
    if i < 0 {
      forall j | 0 <= j < |d| ensures d[j] != ',' {
        if j > 0 { assert d[j] == d[1..][j - 1]; }
      }
    }
  }

  /** The status code and body text can be read back from the error text. */
  lemma ErrorTextRoundTrip(statusCode: int, text: string)
    ensures ParseErrorText(ErrorText(statusCode, text)) == Some((statusCode, text))
  {
    var d := IntToDecimal(statusCode);
    var s := ErrorText(statusCode, text);
    assert s == ErrorPrefix + (d + ", " + text);
    assert s[..|ErrorPrefix|] == ErrorPrefix;
    var rest := s[|ErrorPrefix|..];
    assert rest == d + ", " + text;
    DecimalHasNoComma(statusCode);
    assert rest[|d|] == ',';
    assert IndexOf(rest, ',') == Some(|d|);
    assert rest[..|d|] == d;
    assert rest[|d| + 2..] == text;
    IntToDecimalRoundTrip(statusCode);
  }

  /** Different failed responses give different error texts. */
  lemma ErrorTextInjective(s1: int, t1: string, s2: int, t2: string)
    requires ErrorText(s1, t1) == ErrorText(s2, t2)
    ensures s1 == s2 && t1 == t2
  {
    ErrorTextRoundTrip(s1, t1);
    ErrorTextRoundTrip(s2, t2);
  }

  /** A failed response yields a string from which its status code and body
      text are recovered. */
  lemma ApiResponseError(response: Response)
    requires response.statusCode != 200
    ensures ApiResponse(response).Ok? && ApiResponse(response).value.JStr?
    ensures ParseErrorText(ApiResponse(response).value.s) == Some((response.statusCode, response.text))
  {
    ErrorTextRoundTrip(response.statusCode, response.text);
  }

  /** An error string in the current-conditions position: the first `.get` raises. */
  lemma ErrorAsCurrentRaises(response: Response, f: Json, a: Json)
    requires response.statusCode != 200
    ensures FlattenMerge(ApiResponse(response).value, f, a) == Err(AttributeError)
  {
  }

  /** An error string in the forecast position: subscripting a string with a
      string key raises TypeError. */
  lemma ErrorAsForecastRaises(c: Json, response: Response, a: Json)
    requires c.JObj? && DictGet(c.fields, "current", EmptyObj).JObj?
    requires response.statusCode != 200
    ensures FlattenMerge(c, ApiResponse(response).value, a) == Err(TypeError)
  {
  }

  /** An error string in the alerts position: its `.get` raises. */
  lemma ErrorAsAlertsRaises(c: Json, f: Json, response: Response)
    requires c.JObj? && DictGet(c.fields, "current", EmptyObj).JObj?
    requires Find(f, ["forecast", "forecastday"]).Some?
    requires response.statusCode != 200
    ensures FlattenMerge(c, f, ApiResponse(response).value) == Err(AttributeError)
  {
    assert ["forecast", "forecastday"][1..] == ["forecastday"];
    assert f.JObj? && "forecast" in f.fields;
    assert Find(f.fields["forecast"], ["forecastday"]).Some?;
  }
}
