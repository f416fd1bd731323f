/**
 * How the client reads an HTTP response: a status of 400 or more becomes a
 * `HunterError` whose message is "<status>: <extracted message>", an
 * unparseable body below 400 becomes `HunterError("Invalid JSON response")`,
 * and anything else is the parsed JSON, returned unchanged.
 */
module Http {
  import opened Wrappers
  import opened Text

  /** A JSON value as `response.json()` returns it (numbers are integers here). */
  datatype Json =
    | JNull
    | JBool(b: bool)
    | JNumber(n: int)
    | JString(s: string)
    | JArray(items: seq<Json>)
    | JObject(fields: map<string, Json>)

  /** The part of a `requests` response the client reads: the status code,
      the raw body text, and the outcome of `response.json()`, which is
      `None` when parsing raises `ValueError`. */
  datatype Response = Response(status: int, text: string, json: Option<Json>)

  /** What a request yields: the parsed body, or the `HunterError` raised. */
  datatype Result = Ok(body: Json) | HunterError(message: string)

  const InvalidJsonMessage := "Invalid JSON response"

  /** The object `fields` holds a non-empty string under `key`. */
  predicate HasText(fields: map<string, Json>, key: string) {
    key in fields && fields[key].JString? && fields[key].s != ""
  }

  /** `payload.get(key)` when it is truthy: a non-empty string stored under
      `key` in a JSON object. */
  function TruthyField(payload: Json, key: string): (r: Option<string>)
    ensures r.Some? ==> payload.JObject? && key in payload.fields && payload.fields[key] == JString(r.value) && r.value != ""
    ensures payload.JObject? && HasText(payload.fields, key) ==> r == Some(payload.fields[key].s)
  {
    if payload.JObject? && key in payload.fields && payload.fields[key].JString? && payload.fields[key].s != ""
    then Some(payload.fields[key].s)
    else None
  }

  /** The payload `_extract_error_message` inspects: the parsed body, or an
      empty object, with no field to read, when the body is not JSON. */
  function ErrorPayload(response: Response): (payload: Json)
    ensures response.json.Some? ==> payload == response.json.value
    ensures response.json.None? ==> forall key :: TruthyField(payload, key).None?
  {
    if response.json.Some? then response.json.value else JObject(map[])
  }

  /** `payload.get("errors") or payload.get("message") or response.text`. */
  function ErrorMessage(response: Response): (msg: string)
    ensures response.json.None? ==> msg == response.text
    ensures msg == "" ==> response.text == ""
  {
    var p := ErrorPayload(response);
    match TruthyField(p, "errors")
    case Some(e) => e
    case None =>
      match TruthyField(p, "message")
      case Some(m) => m
      case None => response.text
  }

  /** For a body that parses to an object: a non-empty string under
      "errors" is the message; failing that, a non-empty string under
      "message"; failing both, the raw body text. */
  lemma ErrorMessageFromObject(response: Response, fields: map<string, Json>)
    requires response.json == Some(JObject(fields))
    ensures HasText(fields, "errors") ==> ErrorMessage(response) == fields["errors"].s
    ensures !HasText(fields, "errors") && HasText(fields, "message") ==> ErrorMessage(response) == fields["message"].s
    ensures !HasText(fields, "errors") && !HasText(fields, "message") ==> ErrorMessage(response) == response.text
  {
  }

  /** A body that parses to something other than an object has no fields,
      so the message is the raw body text. */
  lemma ErrorMessageNotObject(response: Response)
    requires response.json.Some? && !response.json.value.JObject?
    ensures ErrorMessage(response) == response.text
  {
  }

  /** The message of the error raised for a failed status: f"{status}: {msg}".
      Its leading run of digits is exactly the status, whatever `msg` is. */
  function StatusError(status: nat, msg: string): (m: string)
    ensures DigitRun(m) == |Decimal(status)|
  {
    var d := Decimal(status);
    var m := d + ": " + msg;
    assert m[..|d|] == d && m[|d|] == ':';
    DigitRunPrefix(m, |d|);
    m
  }

  /** Splits a status error message back into its status and its message:
      the leading run of digits, written without a leading zero, then ": ",
      then the rest. */
  function ParseStatusError(m: string): Option<(nat, string)> {
    var k := DigitRun(m);
    if 0 < k && k + 2 <= |m| && m[k..k + 2] == ": " && (k == 1 || m[0] != '0')
    then Some((DigitsValue(m[..k]), m[k + 2..]))
    else None
  }

  /** A status error message gives back the status and message it was made from. */
  lemma StatusErrorRoundTrip(status: nat, msg: string)
    ensures ParseStatusError(StatusError(status, msg)) == Some((status, msg))
  {
    var d := Decimal(status);
    var m := StatusError(status, msg);
    assert m[..|d|] == d;
    assert m[|d|] == ':';
    assert DigitRun(m) == |d| by {
      DigitRunPrefix(m, |d|);
    }
    assert m[|d|..|d| + 2] == ": ";
    assert m[|d| + 2..] == msg;
    assert m[0] == d[0];
    DecimalRoundTrip(status);
  }

  /** Only the text `f"{status}: {msg}"` parses to `(status, msg)`, so the
      round trip above pins the message down exactly. */
  lemma StatusErrorParseInjective(m: string, status: nat, msg: string)
    requires ParseStatusError(m) == Some((status, msg))
    ensures m == StatusError(status, msg)
  {
    var k := DigitRun(m);
    DecimalOfDigits(m[..k]);
    assert m == m[..k] + m[k..k + 2] + m[k + 2..];
  }

  /** A digit run ends exactly where the first non-digit stands. */
  lemma DigitRunPrefix(s: string, k: nat)
    requires k < |s| && !IsDigit(s[k])
    requires forall i :: 0 <= i < k ==> IsDigit(s[i])
    ensures DigitRun(s) == k
  {
  }

  /** `_perform_get`'s reading of a response: a status of 400 or more is
      an error carrying the status and the extracted message, a lower status
      with an unparseable body is the fixed invalid-JSON error, and
      otherwise the parsed body comes back unchanged. */
  function Classify(response: Response): (r: Result)
    ensures r.Ok? <==> response.status < 400 && response.json.Some?
    ensures r.Ok? ==> r.body == response.json.value
    ensures response.status < 400 && response.json.None? ==> r == HunterError(InvalidJsonMessage)
  {
    if response.status >= 400 then HunterError(StatusError(response.status, ErrorMessage(response)))
    else if response.json.None? then HunterError(InvalidJsonMessage)
    else Ok(response.json.value)
  }

  /** The invalid-JSON message cannot be mistaken for a status error. */
  lemma InvalidJsonNotStatusError()
    ensures ParseStatusError(InvalidJsonMessage).None?
  {
  }

  /** A status of 400 or more is always an error whose message gives back
      the status and the extracted message. */
  lemma ClassifyStatusError(response: Response)
    requires response.status >= 400
    ensures Classify(response).HunterError?
    ensures ParseStatusError(Classify(response).message) == Some((response.status, ErrorMessage(response)))
  {
    StatusErrorRoundTrip(response.status, ErrorMessage(response));
  }

  /** A 404 whose body is {"errors": "not found"} fails with "404: not found". */
  lemma NotFoundExample(text: string)
    ensures Classify(Response(404, text, Some(JObject(map["errors" := JString("not found")]))))
      == HunterError("404: not found")
  {
    var response := Response(404, text, Some(JObject(map["errors" := JString("not found")])));
    DecimalExample();
    assert ErrorMessage(response) == "not found" by {
      assert TruthyField(ErrorPayload(response), "errors") == Some("not found");
    }
  }

  /** `str(404)` is "404". */
  lemma DecimalExample()
    ensures Decimal(404) == "404"
  {
    assert Decimal(4) == "4";
    assert Decimal(40) == "40";
  }
}
