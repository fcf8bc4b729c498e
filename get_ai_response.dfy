/** The standalone chat function (netlify/functions/getAiResponse.ts): a
    chain of early returns that reads the profile from the store, never from
    the body, and only reads. */
module GetAiResponse {
  import opened Js
  import opened Http
  import opened Paths
  import opened Collaborators
  import Api

  const MethodNotAllowedText := "Method Not Allowed"

  /** What the function answers and the calls it made. */
  datatype Reply = Reply(response: Response, trace: seq<Effect>)

  /** A response of this function other than a 200: no headers at all. */
  function Bare(status: int, text: string): (r: Response)
    ensures r.status == status && r.headers == map[] && MessageOf(r) == Some(text)
    // the body is the message alone: no cause reaches the client
    ensures r.body == JsonText(JObj(map["message" := JStr(text)]))
  {
    Response(status, map[], JsonText(MessageObject(text)))
  }

  /** The context the AI is given: the stored profile, or `undefined`. */
  function StoredContext(stored: Option<Profile>): (v: Value)
    ensures v.None? <==> stored.None?
    ensures v.Some? ==> Truthy(v)
    ensures stored.Some? ==> v == Some(JObj(stored.value))
  {
    if stored.Some? then Some(JObj(stored.value)) else None
  }

  /** The handler, given the method exactly as sent (it is not upper-cased
      here), the body, the outcome of reading the demo user's profile, and
      the AI chat call. */
  function Handler(httpMethod: string, body: RawBody, stored: Settled<Option<Profile>>,
                   chat: (string, Value) -> Settled<Json>): (r: Reply)
    // the method is checked before anything else happens
    ensures httpMethod != "POST" ==> r == Reply(Bare(405, MethodNotAllowedText), [])
    ensures r.response.status in {200, 400, 405, 500}
    ensures r.response.status == 400 <==>
              httpMethod == "POST" && !body.Malformed? && ParseBody(body).value != JNull
              && !Api.MessageAccepted(GetProperty(ParseBody(body).value, "message").value)
    ensures r.response.status == 400 ==> r == Reply(Bare(400, Api.MessageRequired), [])
    ensures r.response.status == 500 ==> r.response == Bare(500, Api.InternalServerError)
    // the profile is read from the store only, and its absence is no error
    ensures !NoAiCall(r.trace) ==>
              && httpMethod == "POST" && !body.Malformed? && ParseBody(body).value != JNull
              && stored.Fulfilled?
              && var m := GetProperty(ParseBody(body).value, "message").value.value.s;
                 var context := StoredContext(stored.value);
                 && r.trace == [StoreGet(Api.DemoUser), AiChat(m, context)]
                 && (r.response.status == 200 <==> chat(m, context).Fulfilled?)
                 && (r.response.status == 200 ==>
                       r.response == Response(200, JsonHeaders, JsonText(JObj(map["response" := chat(m, context).value]))))
    ensures r.response.status == 200 ==> !NoAiCall(r.trace)
    // an accepted message and a successful store read always reach the AI
    ensures httpMethod == "POST" && !body.Malformed? && ParseBody(body).value != JNull
            && Api.MessageAccepted(GetProperty(ParseBody(body).value, "message").value) ==>
              (stored.Fulfilled? <==> !NoAiCall(r.trace))
  {
    if httpMethod != "POST" then Reply(Bare(405, MethodNotAllowedText), [])
    else
      match ParseBody(body)
      case Rejected => Reply(Bare(500, Api.InternalServerError), [])
      case Fulfilled(data) =>
        match GetProperty(data, "message")
        case Rejected => Reply(Bare(500, Api.InternalServerError), [])
        case Fulfilled(m) =>
          if !Api.MessageAccepted(m) then Reply(Bare(400, Api.MessageRequired), [])
          else
            match stored
            case Rejected => Reply(Bare(500, Api.InternalServerError), [StoreGet(Api.DemoUser)])
            case Fulfilled(profile) =>
              var context := StoredContext(profile);
              var trace := [StoreGet(Api.DemoUser), AiChat(m.value.s, context)];
              assert IsAiCall(trace[1]);
              match chat(m.value.s, context)
              case Rejected => Reply(Bare(500, Api.InternalServerError), trace)
              case Fulfilled(reply) =>
                Reply(Response(200, JsonHeaders, JsonText(JObj(map["response" := reply]))), trace)
  }

  /** A profile sent in the body changes nothing: the function answers as if
      the body had carried no profile. */
  lemma BodyProfileIgnored(httpMethod: string, fields: map<string, Json>, p: Json,
                           stored: Settled<Option<Profile>>, chat: (string, Value) -> Settled<Json>)
    ensures Handler(httpMethod, Text(JObj(fields["profile" := p])), stored, chat)
         == Handler(httpMethod, Text(JObj(fields - {"profile"})), stored, chat)
  {
    var withProfile := fields["profile" := p];
    var without := fields - {"profile"};
    assert ("message" in withProfile) == ("message" in without);
    assert "message" in without ==> withProfile["message"] == without["message"];
  }

  /** The outcome of reading the demo user's profile from a store. */
  function ReadStore(store: Store, fails: bool): (r: Settled<Option<Profile>>)
    ensures r.Rejected? <==> fails
    ensures r.Fulfilled? ==> (r.value.Some? <==> Api.DemoUser in store)
    ensures r.Fulfilled? && r.value.Some? ==> r.value.value == store[Api.DemoUser]
  {
    if fails then Rejected
    else if Api.DemoUser in store then Fulfilled(Some(store[Api.DemoUser]))
    else Fulfilled(None)
  }

  /** For a body that carries no truthy profile, the router's /chat rule
      and this function make the same calls and answer alike. */
  lemma {:induction false} ChatRuleAgrees(store: Store, body: RawBody, env: Env)
    requires !(body.Text? && body.parsed.JObj? && "profile" in body.parsed.fields
               && Truthy(Some(body.parsed.fields["profile"])))
    ensures var s := Api.Chat(store, body, env);
            var direct := Handler("POST", body, ReadStore(store, env.faults.getFails), env.ai.chat);
            && s.response.status == direct.response.status
            && s.trace == direct.trace
            && (direct.response.status == 200 ==> s.response == direct.response)
  {
    var direct := Handler("POST", body, ReadStore(store, env.faults.getFails), env.ai.chat);
    match ParseBody(body)
    case Rejected =>
    case Fulfilled(data) =>
      match GetProperty(data, "message")
      case Rejected =>
      case Fulfilled(m) =>
        if Api.MessageAccepted(m) {
          var r := Api.ResolveProfile(store, data, env.faults);
          assert r.trace == [StoreGet(Api.DemoUser)];
          if !env.faults.getFails {
            var stored := ReadStore(store, false).value;
            assert r.profile == Fulfilled(StoredContext(stored));
            var context := StoredContext(stored);
            assert (if Truthy(r.profile.value) then r.profile.value else None) == context;
          }
        }
  }

  /** POST /chat reaches the router's /chat rule, through the outer catch. */
  lemma ChatRouted(store: Store, req: Api.Request, env: Env)
    requires ToUpper(req.httpMethod) == "POST" && NormalizePath(req.pathname) == "/chat"
    ensures Api.Route(store, req, env) == Api.Catch(store, Api.Chat(store, req.body, env))
  {
  }

  /** For a POST whose body carries no truthy profile, this function and
      the router's POST /chat make the same calls, answer with the same
      status, and give the same 200 body; only the texts of their 500s and
      the headers of their errors differ. */
  lemma AgreesWithRouterChat(store: Store, body: RawBody, env: Env)
    requires !(body.Text? && body.parsed.JObj? && "profile" in body.parsed.fields
               && Truthy(Some(body.parsed.fields["profile"])))
    ensures var viaRouter := Api.Route(store, Api.Request("POST", "/chat", body), env);
            var direct := Handler("POST", body, ReadStore(store, env.faults.getFails), env.ai.chat);
            && viaRouter.response.status == direct.response.status
            && viaRouter.trace == direct.trace
            && viaRouter.store == store
            && (direct.response.status == 200 ==> viaRouter.response == direct.response)
  {
    ToUpperKeepsUpper("POST");
    LogicalBySecondChar("/chat");
    PrefixVariantsNormalize("/chat");
    ChatRouted(store, Api.Request("POST", "/chat", body), env);
    ChatRuleAgrees(store, body, env);
  }
}
