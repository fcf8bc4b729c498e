/** The single API function (netlify/functions/api.ts): normalises the path,
    answers CORS preflights, dispatches five logical routes, runs each
    route's business rule against the profile store and the AI capability,
    and turns every failure that escapes a route into a 500. */
module Api {
  import opened Js
  import opened Http
  import opened Paths
  import opened Collaborators

  /** The fixed user every route works for. */
  const DemoUser := "demo-user"

  const InternalServerError := "Internal Server Error"
  const NotFound := "Not Found"
  const InvalidProfileData := "Invalid profile data"
  const InvalidCompletionData := "Invalid completion data"
  const ProfileNotFound := "Profile not found"
  const ProfileRequired := "Profile is required"
  const PlansFailed := "Failed to generate AI plans"
  const ScheduleFailed := "Failed to generate AI schedule"
  const MessageRequired := "Message is required"
  const ChatFailed := "Failed to get AI response"

  /** What the function receives: the HTTP method as sent, the pathname of
      the request URL, and the raw body. */
  datatype Request = Request(httpMethod: string, pathname: string, body: RawBody)

  /** What a route handler does: it returns a response, leaving the store
      as `store`, or it throws to the outer catch. A throw never follows a
      store write, so the store is then as it was. */
  datatype Step =
    | Returned(response: Response, store: Store, trace: seq<Effect>)
    | Threw(trace: seq<Effect>)

  /** What the function answers, the store it leaves and the calls it made. */
  datatype Outcome = Outcome(response: Response, store: Store, trace: seq<Effect>)

  function StoreAfter(before: Store, s: Step): Store {
    if s.Returned? then s.store else before
  }

  /** The only profile a request may change is the demo user's. */
  predicate OnlyDemoUserChanged(before: Store, after: Store) {
    after == before || (DemoUser in after && after == before[DemoUser := after[DemoUser]])
  }

  // ---------------------------------------------------------------- routes

  datatype RouteId = ProfileRoute | CompletionRoute | PlansRoute | ScheduleRoute | ChatRoute

  function PathOf(route: RouteId): string {
    match route
    case ProfileRoute => "/profile"
    case CompletionRoute => "/profile/completion"
    case PlansRoute => "/generate-plans"
    case ScheduleRoute => "/generate-schedule"
    case ChatRoute => "/chat"
  }

  /** The route table: a logical path matches at most one route, and every
      path that matches no route is reported as such. */
  function RouteOf(path: string): (r: Option<RouteId>)
    ensures r.Some? ==> PathOf(r.value) == path
    ensures r.None? ==> forall route :: PathOf(route) != path
  {
    if path == "/profile" then Some(ProfileRoute)
    else if path == "/profile/completion" then Some(CompletionRoute)
    else if path == "/generate-plans" then Some(PlansRoute)
    else if path == "/generate-schedule" then Some(ScheduleRoute)
    else if path == "/chat" then Some(ChatRoute)
    else None
  }

  /** Every route is reached from its own path, and from the function URL
      and the `/api` URL of that path, with or without a trailing slash. */
  lemma {:induction false} RoutesReachable(route: RouteId)
    ensures RouteOf(PathOf(route)) == Some(route)
    ensures RouteOf(NormalizePath(FunctionPrefix + PathOf(route))) == Some(route)
    ensures RouteOf(NormalizePath("/api" + PathOf(route) + "/")) == Some(route)
    ensures RouteOf(NormalizePath("/api" + PathOf(route))) == Some(route)
  {
    PathOfIsLogical(route);
    PrefixVariantsNormalize(PathOf(route));
  }

  /** Each route's path is logical and matches that route. */
  lemma PathOfIsLogical(route: RouteId)
    ensures IsLogicalPath(PathOf(route)) && RouteOf(PathOf(route)) == Some(route)
  {
    LogicalBySecondChar(PathOf(route));
  }

  function AllowedMethods(route: RouteId): set<string> {
    match route
    case ProfileRoute => {"GET", "POST"}
    case CompletionRoute => {"PATCH"}
    case _ => {"POST"}
  }

  /** The 500 message of a route whose own catch reports the failure; the
      two profile routes have none and fall through to the outer catch. */
  function RouteFailureMessage(route: RouteId): string {
    match route
    case PlansRoute => PlansFailed
    case ScheduleRoute => ScheduleFailed
    case ChatRoute => ChatFailed
    case _ => InternalServerError
  }

  // ------------------------------------------------------- request checks

  /** `!completed || typeof completed !== 'object'` rejects exactly the values
      that are neither an array nor an object (`null` is falsy). */
  predicate CompletionAccepted(v: Value)
    ensures CompletionAccepted(v) <==> v.Some? && (v.value.JObj? || v.value.JArr?)
  {
    Truthy(v) && TypeOf(v) == "object"
  }

  /** `!message || typeof message !== 'string'` rejects everything but a
      non-empty string. */
  predicate MessageAccepted(v: Value)
    ensures MessageAccepted(v) <==> v.Some? && v.value.JStr? && v.value.s != ""
  {
    Truthy(v) && TypeOf(v) == "string"
  }

  /** The resolved profile and the store calls made to resolve it. */
  datatype Resolution = Resolution(profile: Settled<Value>, trace: seq<Effect>)

  /** `body.profile || (await storage.getUserProfile(userId))`: a truthy
      profile in the body wins and the store is not read; otherwise the
      stored profile, if any, is used. */
  function ResolveProfile(store: Store, data: Json, faults: StoreFaults): (r: Resolution)
    ensures r.profile.Rejected? <==> data == JNull || (r.trace != [] && faults.getFails)
    ensures r.trace == [] || r.trace == [StoreGet(DemoUser)]
    ensures data.JObj? && "profile" in data.fields && Truthy(Some(data.fields["profile"])) ==>
              r == Resolution(Fulfilled(Some(data.fields["profile"])), [])
    ensures r.trace != [] ==> data.JObj? ==> !("profile" in data.fields && Truthy(Some(data.fields["profile"])))
    ensures r.profile.Fulfilled? && !Truthy(r.profile.value) ==>
              r.profile.value == None && DemoUser !in store && r.trace == [StoreGet(DemoUser)]
    ensures r.profile.Fulfilled? && r.trace != [] && DemoUser in store ==>
              r.profile.value == Some(JObj(store[DemoUser]))
    // a falsy or missing body profile falls back to one read of the store
    ensures data != JNull && !(data.JObj? && "profile" in data.fields && Truthy(Some(data.fields["profile"]))) ==>
              && r.trace == [StoreGet(DemoUser)]
              && (r.profile.Rejected? <==> faults.getFails)
              && (r.profile.Fulfilled? ==>
                    r.profile.value == if DemoUser in store then Some(JObj(store[DemoUser])) else None)
  {
    match GetProperty(data, "profile")
    case Rejected => Resolution(Rejected, [])
    case Fulfilled(fromBody) =>
      if Truthy(fromBody) then Resolution(Fulfilled(fromBody), [])
      else if faults.getFails then Resolution(Rejected, [StoreGet(DemoUser)])
      else Resolution(Fulfilled(if DemoUser in store then Some(JObj(store[DemoUser])) else None),
                      [StoreGet(DemoUser)])
  }

  // ------------------------------------------------ route business rules

  /** GET /profile: 200 with the stored profile, or 200 with `null` (not a
      404) when there is none; the store is read and never written. */
  function GetProfile(store: Store, faults: StoreFaults): (s: Step)
    ensures s.trace == [StoreGet(DemoUser)]
    ensures s.Threw? <==> faults.getFails
    ensures s.Returned? ==> s.store == store && s.response.status == 200 && s.response.headers == JsonHeaders
    ensures s.Returned? ==> (s.response.body == JsonText(JNull) <==> DemoUser !in store)
    ensures s.Returned? && DemoUser in store ==> s.response.body == JsonText(JObj(store[DemoUser]))
  {
    if faults.getFails then Threw([StoreGet(DemoUser)])
    else if DemoUser in store then Returned(JsonResponse(200, JObj(store[DemoUser])), store, [StoreGet(DemoUser)])
    else Returned(JsonResponse(200, JNull), store, [StoreGet(DemoUser)])
  }

  /** POST /profile: an upsert. A valid profile updates the stored one if
      there is one and creates it otherwise, and the response is what is
      then stored. An invalid profile, and any store failure after it was
      validated, give 400; a body that is not JSON escapes to the outer catch. */
  function PostProfile(store: Store, body: RawBody, env: Env): (s: Step)
    ensures s.Threw? <==> body.Malformed?
    ensures s.Threw? ==> s.trace == []
    ensures s.Returned? ==> s.response.status in {200, 400}
    ensures s.Returned? && s.response.status == 400 ==>
              s.response == ErrorResponse(400, InvalidProfileData) && s.store == store
    ensures s.Returned? && s.response.status == 200 ==>
              DemoUser in s.store && s.store == store[DemoUser := s.store[DemoUser]]
              && s.response == JsonResponse(200, JObj(s.store[DemoUser]))
    ensures s.Returned? && env.validate(ParseBody(body).value).None? ==>
              s == Returned(ErrorResponse(400, InvalidProfileData), store, [])
    ensures s.Returned? && env.validate(ParseBody(body).value).Some? ==>
              var v := env.validate(ParseBody(body).value).value;
              var write := if DemoUser in store then StoreUpdate(DemoUser, v) else StoreCreate(DemoUser, v);
              var writeFails := if DemoUser in store then env.faults.updateFails else env.faults.createFails;
              && s.trace == [StoreGet(DemoUser)] + (if env.faults.getFails then [] else [write])
              && (s.response.status == 200 <==> !env.faults.getFails && !writeFails)
              && (s.response.status == 200 ==>
                    s.store[DemoUser] == if DemoUser in store then Merge(store[DemoUser], v) else v)
  {
    match ParseBody(body)
    case Rejected => Threw([])
    case Fulfilled(data) =>
      match env.validate(data)
      case None => Returned(ErrorResponse(400, InvalidProfileData), store, [])
      case Some(v) =>
        if env.faults.getFails then
          Returned(ErrorResponse(400, InvalidProfileData), store, [StoreGet(DemoUser)])
        else if DemoUser in store then
          var trace := [StoreGet(DemoUser), StoreUpdate(DemoUser, v)];
          if env.faults.updateFails then Returned(ErrorResponse(400, InvalidProfileData), store, trace)
          else
            var merged := Merge(store[DemoUser], v);
            Returned(JsonResponse(200, JObj(merged)), store[DemoUser := merged], trace)
        else
          var trace := [StoreGet(DemoUser), StoreCreate(DemoUser, v)];
          if env.faults.createFails then Returned(ErrorResponse(400, InvalidProfileData), store, trace)
          else Returned(JsonResponse(200, JObj(v)), store[DemoUser := v], trace)
  }

  /** PATCH /profile/completion: only `{completed}` is merged into an
      existing profile. A `completed` that is not an array or object is a
      400 before the store is touched; a missing profile is a 404 and is not
      created. A body that is not JSON, or is `null`, and a failing update
      escape to the outer catch. */
  function PatchCompletion(store: Store, body: RawBody, faults: StoreFaults): (s: Step)
    ensures body.Malformed? || ParseBody(body).value == JNull ==> s == Threw([])
    ensures s.Returned? ==> s.response.status in {200, 400, 404}
    ensures s.Returned? && s.response.status == 400 ==>
              s == Returned(ErrorResponse(400, InvalidCompletionData), store, [])
    ensures s.Returned? && s.response.status == 404 ==>
              s.response == ErrorResponse(404, ProfileNotFound) && s.store == store && DemoUser !in store
    ensures s.Returned? && s.response.status == 200 ==>
              DemoUser in store && DemoUser in s.store && s.response == JsonResponse(200, JObj(s.store[DemoUser]))
    ensures forall i :: 0 <= i < |s.trace| ==> s.trace[i].StoreUpdate? && s.trace[i].data.Keys == {"completed"}
    ensures !body.Malformed? && ParseBody(body).value != JNull ==>
              var c := GetProperty(ParseBody(body).value, "completed").value;
              (s.Returned? && s.response.status == 400 <==> !CompletionAccepted(c))
              && (CompletionAccepted(c) ==> (s.Threw? <==> faults.updateFails))
    // the update carries exactly the body's `completed`, and that is what is stored
    ensures !body.Malformed? && ParseBody(body).value != JNull
            && CompletionAccepted(GetProperty(ParseBody(body).value, "completed").value) ==>
              var patch := map["completed" := GetProperty(ParseBody(body).value, "completed").value.value];
              && s.trace == [StoreUpdate(DemoUser, patch)]
              && (s.Returned? ==> (s.response.status == 404 <==> DemoUser !in store))
              && (s.Returned? && DemoUser in store ==>
                    s.response.status == 200 && s.store == store[DemoUser := Merge(store[DemoUser], patch)])
  {
    match ParseBody(body)
    case Rejected => Threw([])
    case Fulfilled(data) =>
      match GetProperty(data, "completed")
      case Rejected => Threw([])
      case Fulfilled(c) =>
        if !CompletionAccepted(c) then Returned(ErrorResponse(400, InvalidCompletionData), store, [])
        else
          var patch := map["completed" := c.value];
          var trace := [StoreUpdate(DemoUser, patch)];
          if faults.updateFails then Threw(trace)
          else if DemoUser !in store then Returned(ErrorResponse(404, ProfileNotFound), store, trace)
          else
            var merged := Merge(store[DemoUser], patch);
            Returned(JsonResponse(200, JObj(merged)), store[DemoUser := merged], trace)
  }

  /** The success body of POST /generate-plans. */
  function PlanBundle(workout: Json, nutrition: Json, sleep: Json): Json {
    JObj(map["workoutPlan" := workout, "nutritionPlan" := nutrition, "sleepPlan" := sleep])
  }

  /** POST /generate-plans: without a profile (in the body or in the store)
      it is a 400 and no AI call is made; otherwise the three generations
      are all issued and joined, and the route answers 200 with the bundle
      only when all three succeed. Every failure is this route's own 500. */
  function GeneratePlans(store: Store, body: RawBody, env: Env): (s: Step)
    ensures s.Returned? && s.store == store
    ensures s.response.status in {200, 400, 500}
    ensures s.response.status == 500 ==> s.response == ErrorResponse(500, PlansFailed)
    // a `null` body or a failed store read is this route's 500, before any AI call
    ensures !body.Malformed? && ResolveProfile(store, ParseBody(body).value, env.faults).profile.Rejected? ==>
              s.response == ErrorResponse(500, PlansFailed) && NoAiCall(s.trace)
    ensures s.response.status == 400 ==>
              s.response == ErrorResponse(400, ProfileRequired) && NoAiCall(s.trace)
    ensures s.response.status == 400 <==>
              !body.Malformed? && ResolveProfile(store, ParseBody(body).value, env.faults).profile == Fulfilled(None)
    ensures !body.Malformed? ==>
              var r := ResolveProfile(store, ParseBody(body).value, env.faults);
              r.profile.Fulfilled? && Truthy(r.profile.value) ==>
                var p := r.profile.value.value;
                && s.trace == r.trace + [AiWorkout(p), AiNutrition(p), AiSleep(p)]
                && (s.response.status == 200 <==>
                      env.ai.workout(p).Fulfilled? && env.ai.nutrition(p).Fulfilled? && env.ai.sleep(p).Fulfilled?)
                && (s.response.status == 200 ==>
                      s.response == JsonResponse(200, PlanBundle(env.ai.workout(p).value,
                                                                 env.ai.nutrition(p).value,
                                                                 env.ai.sleep(p).value)))
  {
    match ParseBody(body)
    case Rejected => Returned(ErrorResponse(500, PlansFailed), store, [])
    case Fulfilled(data) =>
      var r := ResolveProfile(store, data, env.faults);
      match r.profile
      case Rejected => Returned(ErrorResponse(500, PlansFailed), store, r.trace)
      case Fulfilled(p) =>
        if !Truthy(p) then Returned(ErrorResponse(400, ProfileRequired), store, r.trace)
        else
          var profile := p.value;
          var trace := r.trace + [AiWorkout(profile), AiNutrition(profile), AiSleep(profile)];
          match JoinAll([env.ai.workout(profile), env.ai.nutrition(profile), env.ai.sleep(profile)])
          case Rejected => Returned(ErrorResponse(500, PlansFailed), store, trace)
          case Fulfilled(plans) =>
            Returned(JsonResponse(200, PlanBundle(plans[0], plans[1], plans[2])), store, trace)
  }

  /** POST /generate-schedule: the profile rule of /generate-plans with one
      AI call. */
  function GenerateSchedule(store: Store, body: RawBody, env: Env): (s: Step)
    ensures s.Returned? && s.store == store
    ensures s.response.status in {200, 400, 500}
    ensures s.response.status == 500 ==> s.response == ErrorResponse(500, ScheduleFailed)
    // a `null` body or a failed store read is this route's 500, before any AI call
    ensures !body.Malformed? && ResolveProfile(store, ParseBody(body).value, env.faults).profile.Rejected? ==>
              s.response == ErrorResponse(500, ScheduleFailed) && NoAiCall(s.trace)
    ensures s.response.status == 400 ==>
              s.response == ErrorResponse(400, ProfileRequired) && NoAiCall(s.trace)
    ensures s.response.status == 400 <==>
              !body.Malformed? && ResolveProfile(store, ParseBody(body).value, env.faults).profile == Fulfilled(None)
    ensures !body.Malformed? ==>
              var r := ResolveProfile(store, ParseBody(body).value, env.faults);
              r.profile.Fulfilled? && Truthy(r.profile.value) ==>
                var p := r.profile.value.value;
                && s.trace == r.trace + [AiSchedule(p)]
                && (s.response.status == 200 <==> env.ai.schedule(p).Fulfilled?)
                && (s.response.status == 200 ==>
                      s.response == JsonResponse(200, JObj(map["schedule" := env.ai.schedule(p).value])))
  {
    match ParseBody(body)
    case Rejected => Returned(ErrorResponse(500, ScheduleFailed), store, [])
    case Fulfilled(data) =>
      var r := ResolveProfile(store, data, env.faults);
      match r.profile
      case Rejected => Returned(ErrorResponse(500, ScheduleFailed), store, r.trace)
      case Fulfilled(p) =>
        if !Truthy(p) then Returned(ErrorResponse(400, ProfileRequired), store, r.trace)
        else
          var trace := r.trace + [AiSchedule(p.value)];
          match env.ai.schedule(p.value)
          case Rejected => Returned(ErrorResponse(500, ScheduleFailed), store, trace)
          case Fulfilled(schedule) =>
            Returned(JsonResponse(200, JObj(map["schedule" := schedule])), store, trace)
  }

  /** POST /chat: a non-empty string message is required, and without one
      nothing else happens; the profile is optional context, and when there
      is none the AI is asked without one. Every failure is this route's
      own 500. */
  function Chat(store: Store, body: RawBody, env: Env): (s: Step)
    ensures s.Returned? && s.store == store
    ensures s.response.status in {200, 400, 500}
    ensures s.response.status == 500 ==> s.response == ErrorResponse(500, ChatFailed)
    ensures s.response.status == 400 ==> s.response == ErrorResponse(400, MessageRequired) && s.trace == []
    ensures s.response.status == 400 <==>
              !body.Malformed? && ParseBody(body).value != JNull
              && !MessageAccepted(GetProperty(ParseBody(body).value, "message").value)
    ensures !NoAiCall(s.trace) ==>
              !body.Malformed? && ParseBody(body).value != JNull &&
              var data := ParseBody(body).value;
              var m := GetProperty(data, "message").value.value.s;
              var r := ResolveProfile(store, data, env.faults);
              r.profile.Fulfilled? &&
              var context := if Truthy(r.profile.value) then r.profile.value else None;
              && s.trace == r.trace + [AiChat(m, context)]
              && (s.response.status == 200 <==> env.ai.chat(m, context).Fulfilled?)
              && (s.response.status == 200 ==>
                    s.response == JsonResponse(200, JObj(map["response" := env.ai.chat(m, context).value])))
    ensures s.response.status == 200 ==> !NoAiCall(s.trace)
    // once the message is accepted and the profile resolved, the AI is asked
    ensures !body.Malformed? && ParseBody(body).value != JNull
            && MessageAccepted(GetProperty(ParseBody(body).value, "message").value) ==>
              var r := ResolveProfile(store, ParseBody(body).value, env.faults);
              && (r.profile.Fulfilled? ==> !NoAiCall(s.trace))
              && (r.profile.Rejected? ==> s.response == ErrorResponse(500, ChatFailed) && NoAiCall(s.trace))
    ensures !body.Malformed? && ParseBody(body).value != JNull
            && MessageAccepted(GetProperty(ParseBody(body).value, "message").value)
            && ResolveProfile(store, ParseBody(body).value, env.faults).profile == Fulfilled(None) ==>
              |s.trace| > 0 && s.trace[|s.trace| - 1].AiChat? && s.trace[|s.trace| - 1].context == None
  {
    match ParseBody(body)
    case Rejected => Returned(ErrorResponse(500, ChatFailed), store, [])
    case Fulfilled(data) =>
      match GetProperty(data, "message")
      case Rejected => Returned(ErrorResponse(500, ChatFailed), store, [])
      case Fulfilled(m) =>
        if !MessageAccepted(m) then Returned(ErrorResponse(400, MessageRequired), store, [])
        else
          var r := ResolveProfile(store, data, env.faults);
          match r.profile
          case Rejected => Returned(ErrorResponse(500, ChatFailed), store, r.trace)
          case Fulfilled(p) =>
            var context := if Truthy(p) then p else None;
            var trace := r.trace + [AiChat(m.value.s, context)];
            assert IsAiCall(trace[|trace| - 1]);
            match env.ai.chat(m.value.s, context)
            case Rejected => Returned(ErrorResponse(500, ChatFailed), store, trace)
            case Fulfilled(reply) => Returned(JsonResponse(200, JObj(map["response" := reply])), store, trace)
  }

  // ------------------------------------------------------------- dispatch

  /** The route's handler for an allowed method. Whatever it returns is a
      JSON response, and every answer but a 200 carries a message; only the
      two profile routes write, and only the other three call the AI. */
  function RunRoute(route: RouteId, verb: string, store: Store, req: Request, env: Env): (s: Step)
    requires verb in AllowedMethods(route)
    ensures s.Returned? ==>
              && s.response.status in {200, 400, 404, 500}
              && s.response.headers == JsonHeaders && s.response.body.JsonText?
              && (s.response.status != 200 ==> MessageOf(s.response).Some?)
              && OnlyDemoUserChanged(store, s.store)
              && (s.store != store ==> route in {ProfileRoute, CompletionRoute} && verb in {"POST", "PATCH"})
              && (DemoUser !in store && DemoUser in s.store ==> route == ProfileRoute && verb == "POST")
    ensures !NoAiCall(s.trace) ==> route in {PlansRoute, ScheduleRoute, ChatRoute}
    ensures ReadsBody(route, verb) && req.body.Malformed? ==>
              s == if route in {ProfileRoute, CompletionRoute} then Threw([])
                   else Returned(ErrorResponse(500, RouteFailureMessage(route)), store, [])
    // the dispatch table: each route and method runs its own rule
    ensures route == ProfileRoute && verb == "GET" ==> s == GetProfile(store, env.faults)
    ensures route == ProfileRoute && verb == "POST" ==> s == PostProfile(store, req.body, env)
    ensures route == CompletionRoute ==> s == PatchCompletion(store, req.body, env.faults)
    ensures route == PlansRoute ==> s == GeneratePlans(store, req.body, env)
    ensures route == ScheduleRoute ==> s == GenerateSchedule(store, req.body, env)
    ensures route == ChatRoute ==> s == Chat(store, req.body, env)
  {
    match route
    case ProfileRoute => if verb == "GET" then GetProfile(store, env.faults) else PostProfile(store, req.body, env)
    case CompletionRoute => PatchCompletion(store, req.body, env.faults)
    case PlansRoute => GeneratePlans(store, req.body, env)
    case ScheduleRoute => GenerateSchedule(store, req.body, env)
    case ChatRoute => Chat(store, req.body, env)
  }

  /** The AI routes never write: their only store call is the read of the
      demo profile. */
  lemma AiRoutesOnlyReadStore(route: RouteId, verb: string, store: Store, req: Request, env: Env)
    requires verb in AllowedMethods(route) && route in {PlansRoute, ScheduleRoute, ChatRoute}
    ensures forall e :: e in RunRoute(route, verb, store, req, env).trace && IsStoreCall(e) ==>
              e == StoreGet(DemoUser)
  {
    var s := RunRoute(route, verb, store, req, env);
    if !req.body.Malformed? {
      var r := ResolveProfile(store, ParseBody(req.body).value, env.faults);
      assert r.trace == [] || r.trace == [StoreGet(DemoUser)];
    }
  }

  /** The outer catch: a failure that escapes a route becomes a generic 500. */
  function Catch(store: Store, s: Step): (o: Outcome)
    ensures s.Threw? ==> o == Outcome(ErrorResponse(500, InternalServerError), store, s.trace)
    ensures s.Returned? ==> o == Outcome(s.response, s.store, s.trace)
  {
    match s
    case Returned(response, after, trace) => Outcome(response, after, trace)
    case Threw(trace) => Outcome(ErrorResponse(500, InternalServerError), store, trace)
  }

  /** A request that carries a body and reaches a route that reads it. */
  predicate ReadsBody(route: RouteId, verb: string) {
    verb in AllowedMethods(route) && verb != "GET"
  }

  /** The handler as a whole. */
  function Route(store: Store, req: Request, env: Env): (o: Outcome)
    // preflight: any path, no collaborator touched
    ensures ToUpper(req.httpMethod) == "OPTIONS" ==> o == Outcome(Preflight(), store, [])
    // unrouted paths
    ensures ToUpper(req.httpMethod) != "OPTIONS" && RouteOf(NormalizePath(req.pathname)).None? ==>
              o == Outcome(ErrorResponse(404, NotFound), store, [])
    // a routed path with a method it does not serve
    ensures ToUpper(req.httpMethod) != "OPTIONS" && RouteOf(NormalizePath(req.pathname)).Some?
            && ToUpper(req.httpMethod) !in AllowedMethods(RouteOf(NormalizePath(req.pathname)).value) ==>
              o == Outcome(MethodNotAllowed(ToUpper(req.httpMethod)), store, [])
    // a body that is not JSON
    ensures ToUpper(req.httpMethod) != "OPTIONS" && RouteOf(NormalizePath(req.pathname)).Some?
            && ReadsBody(RouteOf(NormalizePath(req.pathname)).value, ToUpper(req.httpMethod))
            && req.body.Malformed? ==>
              o == Outcome(ErrorResponse(500, RouteFailureMessage(RouteOf(NormalizePath(req.pathname)).value)), store, [])
    // a routed path with a method it serves runs that route's rule, under the outer catch
    ensures ToUpper(req.httpMethod) != "OPTIONS" && RouteOf(NormalizePath(req.pathname)).Some?
            && ToUpper(req.httpMethod) in AllowedMethods(RouteOf(NormalizePath(req.pathname)).value) ==>
              o == Catch(store, RunRoute(RouteOf(NormalizePath(req.pathname)).value, ToUpper(req.httpMethod), store, req, env))
    // the envelope
    ensures o.response.status in {200, 204, 400, 404, 405, 500}
    ensures o.response.status == 204 <==> ToUpper(req.httpMethod) == "OPTIONS"
    ensures o.response.status != 204 ==> o.response.headers == JsonHeaders && o.response.body.JsonText?
    ensures o.response.status !in {200, 204} ==> MessageOf(o.response).Some?
    // state
    ensures OnlyDemoUserChanged(store, o.store)
    ensures o.store != store ==>
              RouteOf(NormalizePath(req.pathname)) in {Some(ProfileRoute), Some(CompletionRoute)}
              && ToUpper(req.httpMethod) in {"POST", "PATCH"}
    ensures DemoUser !in store && DemoUser in o.store ==>
              RouteOf(NormalizePath(req.pathname)) == Some(ProfileRoute) && ToUpper(req.httpMethod) == "POST"
    ensures !NoAiCall(o.trace) ==>
              ToUpper(req.httpMethod) == "POST"
              && RouteOf(NormalizePath(req.pathname)) in {Some(PlansRoute), Some(ScheduleRoute), Some(ChatRoute)}
  {
    var verb := ToUpper(req.httpMethod);
    if verb == "OPTIONS" then Outcome(Preflight(), store, [])
    else
      match RouteOf(NormalizePath(req.pathname))
      case None => Outcome(ErrorResponse(404, NotFound), store, [])
      case Some(route) =>
        if verb !in AllowedMethods(route) then Outcome(MethodNotAllowed(verb), store, [])
        else Catch(store, RunRoute(route, verb, store, req, env))
  }
}
