/** The response envelope of the Netlify functions: a status code, headers
    and a body that is either empty or the serialisation of a JSON value. */
module Http {
  import opened Js

  /** The body is kept as the value JSON.stringify serialises, not as text. */
  datatype Body = Empty | JsonText(data: Json)

  datatype Response = Response(status: int, headers: map<string, string>, body: Body)

  const JsonHeaders: map<string, string> := map["Content-Type" := "application/json"]

  const CorsHeaders: map<string, string> :=
    map["Access-Control-Allow-Origin" := "*",
        "Access-Control-Allow-Methods" := "GET,POST,PATCH,OPTIONS",
        "Access-Control-Allow-Headers" := "Content-Type"]

  /** `{ message: text }` */
  function MessageObject(text: string): Json {
    JObj(map["message" := JStr(text)])
  }

  /** The `message` string of a `{ message: ... }` body, if the body is one. */
  function MessageOf(r: Response): (m: Option<string>)
    ensures m.Some? <==> r.body.JsonText? && r.body.data.JObj? && "message" in r.body.data.fields
                         && r.body.data.fields["message"].JStr?
  {
    if r.body.JsonText? && r.body.data.JObj? && "message" in r.body.data.fields
       && r.body.data.fields["message"].JStr?
    then Some(r.body.data.fields["message"].s)
    else None
  }

  /** `json(statusCode, data)`: every response it builds is declared as JSON
      and carries `data` as its body. */
  function JsonResponse(status: int, data: Json): (r: Response)
    ensures r.status == status && r.body == JsonText(data)
    ensures r.headers == JsonHeaders && JsonHeaders["Content-Type"] == "application/json"
  {
    Response(status, JsonHeaders, JsonText(data))
  }

  /** `json(status, { message: text })` */
  function ErrorResponse(status: int, text: string): (r: Response)
    ensures r.status == status && r.headers == JsonHeaders && MessageOf(r) == Some(text)
    // the body is `{message}` alone: no cause reaches the client
    ensures r.body == JsonText(JObj(map["message" := JStr(text)]))
  {
    JsonResponse(status, MessageObject(text))
  }

  const MethodPrefix := "Method "
  const MethodSuffix := " Not Allowed"

  /** `methodNotAllowed(method)`: a 405 whose message names the method. */
  function MethodNotAllowed(verb: string): (r: Response)
    ensures r.status == 405 && r.headers == JsonHeaders
    ensures MessageOf(r).Some? && RejectedMethod(MessageOf(r).value) == Some(verb)
  {
    var r := ErrorResponse(405, MethodPrefix + verb + MethodSuffix);
    RejectedMethodInverts(verb);
    r
  }

  /** Reads the method back out of a "Method <M> Not Allowed" message. */
  function RejectedMethod(text: string): Option<string> {
    if |MethodPrefix| + |MethodSuffix| <= |text|
       && text[..|MethodPrefix|] == MethodPrefix
       && text[|text| - |MethodSuffix|..] == MethodSuffix
    then Some(text[|MethodPrefix|..|text| - |MethodSuffix|])
    else None
  }

  /** The 405 message determines the rejected method: no two methods share one. */
  lemma {:induction false} RejectedMethodInverts(verb: string)
    ensures RejectedMethod(MethodPrefix + verb + MethodSuffix) == Some(verb)
  {
    var text := MethodPrefix + verb + MethodSuffix;
    assert text[..|MethodPrefix|] == MethodPrefix;
    assert text[|text| - |MethodSuffix|..] == MethodSuffix;
    assert text[|MethodPrefix|..|text| - |MethodSuffix|] == verb;
  }

  /** The CORS preflight answer: 204, no body, the allowed methods advertised. */
  function Preflight(): (r: Response)
    ensures r.status == 204 && r.body == Empty
    ensures "Access-Control-Allow-Methods" in r.headers && r.headers["Access-Control-Allow-Methods"] == "GET,POST,PATCH,OPTIONS"
  {
    Response(204, CorsHeaders, Empty)
  }

  /** `toUpperCase` on one character, for the ASCII letters. */
  function UpperChar(c: char): char {
    if 'a' <= c <= 'z' then (c as int - 32) as char else c
  }

  predicate IsLowerAscii(c: char) {
    'a' <= c <= 'z'
  }

  /** `String.prototype.toUpperCase`, restricted to ASCII letters: every
      character is mapped on its own and no lower-case letter is left. */
  function ToUpper(s: string): (r: string)
    ensures |r| == |s|
    ensures forall i :: 0 <= i < |s| ==> r[i] == UpperChar(s[i])
    ensures forall i :: 0 <= i < |r| ==> !IsLowerAscii(r[i])
  {
    if s == [] then [] else [UpperChar(s[0])] + ToUpper(s[1..])
  }

  /** A method with no lower-case ASCII letter is left as it is. */
  lemma ToUpperKeepsUpper(s: string)
    requires forall i :: 0 <= i < |s| ==> !IsLowerAscii(s[i])
    ensures ToUpper(s) == s
  {
    assert forall i :: 0 <= i < |s| ==> ToUpper(s)[i] == s[i];
  }

  /** Upper-casing an upper-cased method changes nothing. */
  lemma {:induction false} ToUpperIdempotent(s: string)
    ensures ToUpper(ToUpper(s)) == ToUpper(s)
  {
    var u := ToUpper(s);
    assert forall i :: 0 <= i < |u| ==> UpperChar(u[i]) == u[i];
    assert ToUpper(u) == u;
  }
}
