/** What a component sees of `POST /api/tts`: the answer of the route, or a rejected
    `fetch`, and the small conversions its error messages use. */
module TtsClient {
  import opened Text
  import TtsRoute

  /** What `response.json()` gives a component: no JSON at all, or an object seen through
      the fields the components read. A string field is `None` when it is absent;
      `fallback` is whether the field is present and true. */
  datatype Body =
    | NotJson
    | Json(text: Option<string>, audioData: Option<string>, fallback: bool,
           error: Option<string>, fallbackUrl: Option<string>)

  /** The outcome of a component's `fetch("/api/tts", ...)`. */
  datatype Answer = Answered(status: int, body: Body) | FetchRejected(reason: string)

  /** JavaScript truthiness of an optional string field: present and not empty. */
  predicate Truthy(field: Option<string>)
  {
    field.Some? && field.value != ""
  }

  /** The field names an object body carries. */
  function BodyFields(b: Body): set<string>
  {
    match b
    case NotJson => {}
    case Json(text, audioData, fallback, error, fallbackUrl) =>
      (if text.Some? then {"text"} else {}) + (if audioData.Some? then {"audioData"} else {})
      + (if fallback then {"fallback"} else {}) + (if error.Some? then {"error"} else {})
      + (if fallbackUrl.Some? then {"fallbackUrl"} else {})
  }

  /** The body a component reads from a payload of the route: the same fields with the
      same values, and a payload without a body is not JSON. */
  function BodyOf(p: TtsRoute.Payload): (b: Body)
    ensures b.NotJson? <==> p.NoBody?
    ensures BodyFields(b) == TtsRoute.PayloadFields(p)
    ensures p.Audio? ==> b.text == Some(p.text) && b.audioData == Some(p.audioData) && b.fallback == p.fallback
    ensures p.Failure? ==> b.error == Some(p.error)
  {
    match p
    case Audio(text, audioData, fallback) => Json(Some(text), Some(audioData), fallback, None, None)
    case Failure(error) => Json(None, None, false, Some(error), None)
    case NoBody => NotJson
  }

  /** The answer a component receives for a reply of the route. */
  function FromRoute(r: TtsRoute.Reply): (a: Answer)
    ensures a.Answered? && a.status == r.status && a.body == BodyOf(r.payload)
  {
    Answered(r.status, BodyOf(r.payload))
  }

  /** The message `response.json()` rejects with when the body is not JSON (V8's wording). */
  const JsonParseError := "Unexpected end of JSON input"

  /** `${err.message || err}` for an `Error`: its message, or "Error" when that is empty. */
  function ShownError(message: string): (s: string)
    ensures s != ""
    ensures message != "" ==> s == message
  {
    if message == "" then "Error" else message
  }

  /** The decimal digits of a digit value. */
  function Digit(d: nat): (c: char)
    requires d < 10
    ensures '0' <= c <= '9'
  {
    "0123456789"[d]
  }

  /** `${n}` for a non-negative integer. */
  function DecimalString(n: nat): (s: string)
    ensures s != []
    ensures forall i :: 0 <= i < |s| ==> '0' <= s[i] <= '9'
    ensures n >= 10 ==> s[0] != '0'
  {
    if n < 10 then [Digit(n)] else DecimalString(n / 10) + [Digit(n % 10)]
  }

  /** The value a string of decimal digits denotes. */
  function DigitsValue(s: string): int
    requires forall i :: 0 <= i < |s| ==> '0' <= s[i] <= '9'
  {
    if s == [] then 0 else 10 * DigitsValue(s[..|s| - 1]) + (s[|s| - 1] as int - '0' as int)
  }

  /** `DecimalString` writes the number it is given. */
  lemma {:induction false} DecimalStringValue(n: nat)
    ensures DigitsValue(DecimalString(n)) == n
  {
    if n >= 10 {
      DecimalStringValue(n / 10);
      var s := DecimalString(n);
      assert s[..|s| - 1] == DecimalString(n / 10);
    }
  }
}
