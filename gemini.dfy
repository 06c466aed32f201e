/**
 * `safeGeminiCall` from backend/routes/aiRoutes.js: the reply of the generative-language
 * endpoint is walked along `data?.candidates?.[0]?.content?.parts?.[0]?.text` and anything
 * missing, empty or failed collapses to the empty string. The HTTP round trip itself is an
 * input: this module starts from what `fetch` and `response.json()` settled to.
 */
module Gemini {
  import opened Wrappers

  /** A parsed JSON value. Objects are maps because `JSON.parse` keeps one value per key. */
  datatype Json =
    | JNull
    | JBool(b: bool)
    | JNumber(n: real)
    | JString(s: string)
    | JArray(items: seq<Json>)
    | JObject(fields: map<string, Json>)

  /** What the call to the endpoint settled to. */
  datatype Reply =
    | TransportError(reason: string)   // `fetch` rejected
    | InvalidJsonBody(reason: string)  // `response.json()` rejected
    | Body(data: Json)                 // the parsed body, whatever the HTTP status

  /**
   * `v?.key` for the four property names on the path. None of them is a property of
   * arrays, strings, numbers or booleans, so only an object can supply one.
   */
  function Member(v: Option<Json>, key: string): (r: Option<Json>)
    ensures r.Some? <==> v.Some? && v.value.JObject? && key in v.value.fields
    ensures r.Some? ==> r.value == v.value.fields[key]
  {
    match v
    case Some(JObject(fields)) => if key in fields then Some(fields[key]) else None
    case _ => None
  }

  /**
   * `v?.[0]`: the first element of an array, the property named "0" of an object, or the
   * first character of a string.
   */
  function First(v: Option<Json>): (r: Option<Json>)
    ensures v.None? || v.value.JNull? || v.value.JBool? || v.value.JNumber? ==> r.None?
    ensures v.Some? && v.value.JArray? ==> r == if v.value.items == [] then None else Some(v.value.items[0])
    ensures v.Some? && v.value.JString? ==> r == if v.value.s == [] then None else Some(JString(v.value.s[..1]))
    ensures v.Some? && v.value.JObject? ==> r == if "0" in v.value.fields then Some(v.value.fields["0"]) else None
  {
    match v
    case Some(JArray(items)) => if items != [] then Some(items[0]) else None
    case Some(JObject(fields)) => if "0" in fields then Some(fields["0"]) else None
    case Some(JString(s)) => if s != [] then Some(JString(s[..1])) else None
    case _ => None
  }

  /** The value at `candidates[0].content.parts[0].text`, or None where the chain breaks. */
  function TextPath(data: Json): (r: Option<Json>)
    ensures !data.JObject? || "candidates" !in data.fields ==> r.None?
  {
    Member(First(Member(Member(First(Member(Some(data), "candidates")), "content"), "parts")), "text")
  }

  /**
   * `safeGeminiCall` after its request is sent: never fails; returns the text at the path
   * when it is a non-empty string and "" in every other case.
   */
  function SafeGeminiCall(reply: Reply): (r: string)
    ensures !reply.Body? ==> r == ""
    ensures r != "" ==> reply.Body? && TextPath(reply.data) == Some(JString(r))
    ensures reply.Body? && TextPath(reply.data).Some? && TextPath(reply.data).value.JString? ==>
      r == TextPath(reply.data).value.s
  {
    match reply
    case Body(data) =>
      (match TextPath(data)
       case Some(JString(s)) => s
       case _ => "")
    case _ => ""
  }

  /** A `generateContent` response body whose first candidate's first part carries `text`. */
  function GeneratedResponse(text: string, moreParts: seq<Json>, moreCandidates: seq<Json>): Json
  {
    var part := JObject(map["text" := JString(text)]);
    var content := JObject(map["parts" := JArray([part] + moreParts)]);
    var candidate := JObject(map["content" := content]);
    JObject(map["candidates" := JArray([candidate] + moreCandidates)])
  }

  /** Only the first part of the first candidate is read; every later part and candidate is ignored. */
  lemma GeneratedTextIsReturned(text: string, moreParts: seq<Json>, moreCandidates: seq<Json>)
    ensures SafeGeminiCall(Body(GeneratedResponse(text, moreParts, moreCandidates))) == text
  {
  }

  /** A body without candidates (an API error object, say) gives the empty string. */
  lemma NoCandidatesGivesEmpty(fields: map<string, Json>)
    requires "candidates" !in fields
    ensures SafeGeminiCall(Body(JObject(fields))) == ""
  {
  }

  /** The JSON values `||` treats as false (NaN, which `real` cannot hold, aside). */
  predicate IsFalsy(v: Json)
  {
    v == JNull || v == JBool(false) || v == JNumber(0.0) || v == JString("")
  }

  /** A break anywhere on the path, or a falsy text leaf, gives the empty string, as `|| ""` does. */
  lemma BrokenPathGivesEmpty(data: Json)
    requires TextPath(data).None? || IsFalsy(TextPath(data).value)
    ensures SafeGeminiCall(Body(data)) == ""
  {
  }
}
