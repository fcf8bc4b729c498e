/** The API function as the source runs it: a chain of early returns that
    calls the profile store object in place, each step proved to do what the
    route functions of module Api say. */
module ApiHandler {
  import opened Js
  import opened Http
  import opened Paths
  import opened Collaborators
  import opened Api

  /** `body.profile || (await storage.getUserProfile(userId))` */
  method ResolveProfileFrom(store: ProfileStore, data: Json, faults: StoreFaults) returns (r: Resolution)
    ensures r == ResolveProfile(store.profiles, data, faults)
  {
    var fromBody := GetProperty(data, "profile");
    if fromBody.Rejected? {
      return Resolution(Rejected, []);
    }
    if Truthy(fromBody.value) {
      return Resolution(Fulfilled(fromBody.value), []);
    }
    var stored := store.GetUserProfile(DemoUser, faults.getFails);
    if stored.Rejected? {
      return Resolution(Rejected, [StoreGet(DemoUser)]);
    }
    var found := if stored.value.Some? then Some(JObj(stored.value.value)) else None;
    r := Resolution(Fulfilled(found), [StoreGet(DemoUser)]);
  }

  /** GET /profile (api.ts:58-63) */
  method HandleGetProfile(store: ProfileStore, faults: StoreFaults) returns (s: Step)
    ensures s == GetProfile(store.profiles, faults)
  {
    var profile := store.GetUserProfile(DemoUser, faults.getFails);
    if profile.Rejected? {
      return Threw([StoreGet(DemoUser)]);
    }
    if profile.value.None? {
      return Returned(JsonResponse(200, JNull), store.profiles, [StoreGet(DemoUser)]);
    }
    s := Returned(JsonResponse(200, JObj(profile.value.value)), store.profiles, [StoreGet(DemoUser)]);
  }

  /** POST /profile (api.ts:65-79) */
  method HandlePostProfile(store: ProfileStore, body: RawBody, env: Env) returns (s: Step)
    modifies store
    ensures s == PostProfile(old(store.profiles), body, env)
    ensures store.profiles == StoreAfter(old(store.profiles), s)
  {
    var parsed := ParseBody(body);
    if parsed.Rejected? {
      return Threw([]);
    }
    // from here on, any failure is caught and reported as invalid data
    var validated := env.validate(parsed.value);
    if validated.None? {
      return Returned(ErrorResponse(400, InvalidProfileData), store.profiles, []);
    }
    var v := validated.value;
    var trace := [StoreGet(DemoUser)];
    var existing := store.GetUserProfile(DemoUser, env.faults.getFails);
    if existing.Rejected? {
      return Returned(ErrorResponse(400, InvalidProfileData), store.profiles, trace);
    }
    var saved: Settled<Profile>;
    if existing.value.Some? {
      trace := trace + [StoreUpdate(DemoUser, v)];
      var updated := store.UpdateUserProfile(DemoUser, v, env.faults.updateFails);
      saved := if updated.Fulfilled? then Fulfilled(updated.value.value) else Rejected;
    } else {
      trace := trace + [StoreCreate(DemoUser, v)];
      saved := store.CreateUserProfile(DemoUser, v, env.faults.createFails);
    }
    if saved.Rejected? {
      return Returned(ErrorResponse(400, InvalidProfileData), store.profiles, trace);
    }
    s := Returned(JsonResponse(200, JObj(saved.value)), store.profiles, trace);
  }

  /** PATCH /profile/completion (api.ts:86-96) */
  method HandlePatchCompletion(store: ProfileStore, body: RawBody, faults: StoreFaults) returns (s: Step)
    modifies store
    ensures s == PatchCompletion(old(store.profiles), body, faults)
    ensures store.profiles == StoreAfter(old(store.profiles), s)
  {
    var parsed := ParseBody(body);
    if parsed.Rejected? {
      return Threw([]);
    }
    var completed := GetProperty(parsed.value, "completed");
    if completed.Rejected? {
      return Threw([]);
    }
    if !CompletionAccepted(completed.value) {
      return Returned(ErrorResponse(400, InvalidCompletionData), store.profiles, []);
    }
    var patch := map["completed" := completed.value.value];
    var trace := [StoreUpdate(DemoUser, patch)];
    var profile := store.UpdateUserProfile(DemoUser, patch, faults.updateFails);
    if profile.Rejected? {
      return Threw(trace);
    }
    if profile.value.None? {
      return Returned(ErrorResponse(404, ProfileNotFound), store.profiles, trace);
    }
    s := Returned(JsonResponse(200, JObj(profile.value.value)), store.profiles, trace);
  }

  /** POST /generate-plans (api.ts:102-120) */
  method HandleGeneratePlans(store: ProfileStore, body: RawBody, env: Env) returns (s: Step)
    ensures s == GeneratePlans(store.profiles, body, env)
  {
    var parsed := ParseBody(body);
    if parsed.Rejected? {
      return Returned(ErrorResponse(500, PlansFailed), store.profiles, []);
    }
    var r := ResolveProfileFrom(store, parsed.value, env.faults);
    if r.profile.Rejected? {
      return Returned(ErrorResponse(500, PlansFailed), store.profiles, r.trace);
    }
    if !Truthy(r.profile.value) {
      return Returned(ErrorResponse(400, ProfileRequired), store.profiles, r.trace);
    }
    var profile := r.profile.value.value;
    // all three generations are issued before any of them is awaited
    var workout := env.ai.workout(profile);
    var nutrition := env.ai.nutrition(profile);
    var sleep := env.ai.sleep(profile);
    var trace := r.trace + [AiWorkout(profile), AiNutrition(profile), AiSleep(profile)];
    var plans := JoinAll([workout, nutrition, sleep]);
    if plans.Rejected? {
      return Returned(ErrorResponse(500, PlansFailed), store.profiles, trace);
    }
    s := Returned(JsonResponse(200, PlanBundle(plans.value[0], plans.value[1], plans.value[2])), store.profiles, trace);
  }

  /** POST /generate-schedule (api.ts:126-139) */
  method HandleGenerateSchedule(store: ProfileStore, body: RawBody, env: Env) returns (s: Step)
    ensures s == GenerateSchedule(store.profiles, body, env)
  {
    var parsed := ParseBody(body);
    if parsed.Rejected? {
      return Returned(ErrorResponse(500, ScheduleFailed), store.profiles, []);
    }
    var r := ResolveProfileFrom(store, parsed.value, env.faults);
    if r.profile.Rejected? {
      return Returned(ErrorResponse(500, ScheduleFailed), store.profiles, r.trace);
    }
    if !Truthy(r.profile.value) {
      return Returned(ErrorResponse(400, ProfileRequired), store.profiles, r.trace);
    }
    var profile := r.profile.value.value;
    var trace := r.trace + [AiSchedule(profile)];
    var schedule := env.ai.schedule(profile);
    if schedule.Rejected? {
      return Returned(ErrorResponse(500, ScheduleFailed), store.profiles, trace);
    }
    s := Returned(JsonResponse(200, JObj(map["schedule" := schedule.value])), store.profiles, trace);
  }

  /** POST /chat (api.ts:145-161) */
  method HandleChat(store: ProfileStore, body: RawBody, env: Env) returns (s: Step)
    ensures s == Chat(store.profiles, body, env)
  {
    var parsed := ParseBody(body);
    if parsed.Rejected? {
      return Returned(ErrorResponse(500, ChatFailed), store.profiles, []);
    }
    var message := GetProperty(parsed.value, "message");
    if message.Rejected? {
      return Returned(ErrorResponse(500, ChatFailed), store.profiles, []);
    }
    if !MessageAccepted(message.value) {
      return Returned(ErrorResponse(400, MessageRequired), store.profiles, []);
    }
    var text := message.value.value.s;
    var r := ResolveProfileFrom(store, parsed.value, env.faults);
    if r.profile.Rejected? {
      return Returned(ErrorResponse(500, ChatFailed), store.profiles, r.trace);
    }
    var context := if Truthy(r.profile.value) then r.profile.value else None;
    var trace := r.trace + [AiChat(text, context)];
    var reply := env.ai.chat(text, context);
    if reply.Rejected? {
      return Returned(ErrorResponse(500, ChatFailed), store.profiles, trace);
    }
    s := Returned(JsonResponse(200, JObj(map["response" := reply.value])), store.profiles, trace);
  }

  /** Runs the handler of a route for a method it serves. */
  method RunRouteOn(store: ProfileStore, route: RouteId, verb: string, req: Request, env: Env) returns (step: Step)
    requires verb in AllowedMethods(route)
    modifies store
    ensures step == RunRoute(route, verb, old(store.profiles), req, env)
    ensures store.profiles == StoreAfter(old(store.profiles), step)
  {
    match route
    case ProfileRoute =>
      if verb == "GET" {
        step := HandleGetProfile(store, env.faults);
      } else {
        step := HandlePostProfile(store, req.body, env);
      }
    case CompletionRoute =>
      step := HandlePatchCompletion(store, req.body, env.faults);
    case PlansRoute =>
      step := HandleGeneratePlans(store, req.body, env);
    case ScheduleRoute =>
      step := HandleGenerateSchedule(store, req.body, env);
    case ChatRoute =>
      step := HandleChat(store, req.body, env);
  }

  /** The exported `handler` of api.ts: normalise the path, answer a
      preflight, match the path and then the method, and catch whatever a
      route lets escape. */
  method Handle(store: ProfileStore, req: Request, env: Env) returns (response: Response, trace: seq<Effect>)
    modifies store
    ensures Outcome(response, store.profiles, trace) == Route(old(store.profiles), req, env)
  {
    var pathname := NormalizePath(req.pathname);
    var verb := ToUpper(req.httpMethod);
    if verb == "OPTIONS" {
      return Preflight(), [];
    }
    var route: RouteId;
    if pathname == "/profile" {
      route := ProfileRoute;
    } else if pathname == "/profile/completion" {
      route := CompletionRoute;
    } else if pathname == "/generate-plans" {
      route := PlansRoute;
    } else if pathname == "/generate-schedule" {
      route := ScheduleRoute;
    } else if pathname == "/chat" {
      route := ChatRoute;
    } else {
      return ErrorResponse(404, NotFound), [];
    }
    if verb !in AllowedMethods(route) {
      return MethodNotAllowed(verb), [];
    }
    var step := RunRouteOn(store, route, verb, req, env);
    match step
    case Returned(r, _, t) =>
      response, trace := r, t;
    case Threw(t) =>
      response, trace := ErrorResponse(500, InternalServerError), t;
  }
}
