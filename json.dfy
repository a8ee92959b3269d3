/** The JSON bodies the inference servers answer with, and the two lookups
    the scripts make in them: `result.get('usage', {}).get(key, 0)` and
    `result['choices'][0]['text']`. */
module Json {
  import opened Wrappers

  datatype Json =
    | JNull
    | JBool(b: bool)
    | JInt(i: int)
    | JStr(s: string)
    | JArr(items: seq<Json>)
    | JObj(fields: map<string, Json>)

  /** An HTTP response as the client sees it: its status code and its body
      decoded as JSON, `None` when the body does not decode. */
  datatype Response = Response(status: int, body: Option<Json>)

  /** One request: `None` when the client raised before a response arrived
      (connection refused, timeout). */
  type Exchange = Option<Response>

  /** The statuses for which `requests`' `raise_for_status()` raises. */
  predicate IsHttpError(status: int) {
    400 <= status < 600
  }

  /** `body.get('usage', {}).get(key, 0)`. `None` where Python raises (the body
      or its `usage` member is not an object) and where the count is not a
      JSON integer. */
  function UsageCount(body: Json, key: string): (r: Option<int>)
    ensures r.Some? ==> body.JObj?
    ensures r.Some? <==>
      && body.JObj?
      && ("usage" !in body.fields
          || (&& body.fields["usage"].JObj?
              && (key !in body.fields["usage"].fields || body.fields["usage"].fields[key].JInt?)))
    ensures body.JObj? && "usage" !in body.fields ==> r == Some(0)
    ensures r.Some? && r.value != 0 ==>
      && "usage" in body.fields && body.fields["usage"].JObj?
      && key in body.fields["usage"].fields
      && body.fields["usage"].fields[key] == JInt(r.value)
    ensures body.JObj? && "usage" in body.fields && body.fields["usage"].JObj?
      && key !in body.fields["usage"].fields
      ==> r == Some(0)
    ensures body.JObj? && "usage" in body.fields && body.fields["usage"].JObj?
      && key in body.fields["usage"].fields && body.fields["usage"].fields[key].JInt?
      ==> r == Some(body.fields["usage"].fields[key].i)
  {
    if !body.JObj? then None
    else match GetOr(body.fields, "usage", JObj(map[]))
      case JObj(usage) =>
        (match GetOr(usage, key, JInt(0))
         case JInt(n) => Some(n)
         case _ => None)
      case _ => None
  }

  /** A body that reports `n` for `key` under `usage`. */
  function WithUsage(key: string, n: int): Json {
    JObj(map["usage" := JObj(map[key := JInt(n)])])
  }

  /** A count put into a body is the count read back. */
  lemma UsageCountRoundTrip(key: string, n: int)
    ensures UsageCount(WithUsage(key, n), key) == Some(n)
  {
  }

  /** `result['choices'][0]['text']`; `None` where Python raises. A text that
      is not a JSON string is also `None`. */
  function GeneratedText(body: Json): (r: Option<string>)
    ensures r.Some? ==>
      && body.JObj? && "choices" in body.fields
      && body.fields["choices"].JArr? && |body.fields["choices"].items| > 0
      && body.fields["choices"].items[0].JObj?
      && "text" in body.fields["choices"].items[0].fields
      && body.fields["choices"].items[0].fields["text"] == JStr(r.value)
    ensures body.JObj? && "choices" in body.fields
      && body.fields["choices"].JArr? && |body.fields["choices"].items| > 0
      && body.fields["choices"].items[0].JObj?
      && "text" in body.fields["choices"].items[0].fields
      && body.fields["choices"].items[0].fields["text"].JStr?
      ==> r == Some(body.fields["choices"].items[0].fields["text"].s)
  {
    if body.JObj? && "choices" in body.fields then
      match body.fields["choices"]
      case JArr(items) =>
        if |items| > 0 && items[0].JObj? && "text" in items[0].fields then
          match items[0].fields["text"]
          case JStr(t) => Some(t)
          case _ => None
        else None
      case _ => None
    else None
  }

  /** A body whose first choice carries `t`. */
  function WithText(t: string): Json {
    JObj(map["choices" := JArr([JObj(map["text" := JStr(t)])])])
  }

  /** A text put into the first choice is the text read back. */
  lemma GeneratedTextRoundTrip(t: string)
    ensures GeneratedText(WithText(t)) == Some(t)
  {
  }
}
