# Fitness-planner API functions, modelled in Dafny

This project models the request-handling core of a single-user fitness-planning backend, deployed as two Netlify functions:

- **The API function** (`netlify/functions/api.ts`) takes an HTTP request and returns a status, headers and a JSON body. Its work has five parts:
  - It normalises the request path to a logical path.
  - It answers every `OPTIONS` request with a CORS preflight.
  - It dispatches five logical routes: `GET`/`POST /profile`, `PATCH /profile/completion`, `POST /generate-plans`, `POST /generate-schedule` and `POST /chat`.
  - Each route runs its business rule against two collaborators: the profile store, which always uses the fixed user id `demo-user`, and the AI service.
  - An outer catch turns any failure that escapes a route into `500 Internal Server Error`.
- **The chat function** (`netlify/functions/getAiResponse.ts`) is a smaller, standalone chat endpoint. It reads the profile only from the store.

Files and modules:

- `js.dfy`, module `Js`: the JavaScript values the handlers work on:
  - parsed JSON, and `undefined` as `None`;
  - truthiness and `typeof`;
  - property reads, where reading a property of `null` throws;
  - the raw body and `event.body ? JSON.parse(event.body) : {}`;
  - `Settled`, the outcome of any operation that returns or throws.
- `http.dfy`, module `Http`: the response envelope.
  - Covers `json`, `methodNotAllowed` and the preflight response.
  - Covers `toUpperCase` for ASCII letters.
- `paths.dfy`, module `Paths`: path normalisation, with lemmas about the prefix variants.
- `collaborators.dfy`, module `Collaborators`: the two collaborators.
  - The profile store is a class `ProfileStore`. Its field `profiles: map<string, Profile>` is changed in place by create and update.
  - The AI service is a record of functions. Each returns a value or rejects.
  - The schema validator is a function that returns a validated profile or nothing.
  - Store faults are per-request flags.
  - `JoinAll` models `Promise.all`.
  - Every handler also returns a trace of the collaborator calls it made, so "no AI call" and "no store access" can be stated.
- `api.dfy`, module `Api`: the business rule of each route as a function.
  - Each rule returns a response and the new store, or a throw to the outer catch.
  - `Route` is the whole function, and its contract carries the dispatch and envelope guarantees.
- `api_handler.dfy`, module `ApiHandler`: the handler as the source runs it.
  - It is a chain of early returns that calls the `ProfileStore` object.
  - Each method is proved equal to the route function of module `Api`.
- `api_properties.dfy`, module `ApiProperties`: properties that span several requests.
  - Request sequences are replayed one after another.
  - The store only ever holds the demo user's profile, and only `POST /profile` creates it.
  - The upsert is idempotent, and `GET /profile` reads back what `POST /profile` answered.
- `get_ai_response.dfy`, module `GetAiResponse`: the chat function.
  - A lemma shows that it agrees with the router's `/chat` route when the body carries no profile.

The model keeps these behaviours of the code, some of which a reader might not expect:

- A store failure inside `POST /profile` is answered `400 Invalid profile data`, not 500. The failure is caught by the route's own catch (api.ts:68-78).
- `OPTIONS` gets 204 on every path, routed or not (api.ts:44-54).
- A malformed JSON body gets `500 Internal Server Error` from the outer catch on `/profile` and `/profile/completion`. On the three other POST routes it gets that route's own 500 message.
- A `PATCH /profile/completion` body that is the JSON `null` makes `body.completed` throw. The answer is 500, not 400.
- The completion patch passes `{ completed }` to the store's update. The model's update replaces the stored `completed` field rather than merging inside it.
- `body.profile || stored` accepts any truthy value as the profile. That includes a string or a number, not only an object.
- The chat function's 400, 405 and 500 responses carry no headers. Only its 200 sets `Content-Type: application/json`.
- The chat function compares the method to `POST` as sent, without upper-casing it.
- The bare function URL `/.netlify/functions/api` normalises to the empty path, not to `/`, so it gets a 404.

## Model

| member | source | states |
|---|---|---|
| `Paths.NormalizePath` | netlify/functions/api.ts:26-37 | The logical path is a contiguous piece of the pathname and never longer: normalisation only strips characters. |
| `Paths.PrefixVariantsNormalize` | netlify/functions/api.ts:27-37 | For every logical path q, these all normalise to q: q itself, q with a trailing slash, `/api`+q (with or without the slash), the function URL + q (with or without the slash), and the function URL + `/api` + q. |
| `Paths.OneTrailingSlashRemoved` | netlify/functions/api.ts:36-37 | Only one trailing slash is removed: q followed by `//` normalises to q followed by `/`, also under `/api`. |
| `Paths.RootPaths` | netlify/functions/api.ts:34-37 | `/api` and `/api/` become `/`, the root stays `/`, and the bare function URL becomes the empty path. |
| `Paths.LogicalBySecondChar` | netlify/functions/api.ts:30-35 | A slash-led path whose second character is neither `a` nor `.` and that has no trailing slash is left alone by both prefix strips. |
| `Http.JsonResponse` | netlify/functions/api.ts:9-17 | `json` answers with the given status, a `Content-Type: application/json` header and the given data as the body. |
| `Http.ErrorResponse` | netlify/functions/api.ts:9-17 | `json(status, {message})` answers with the JSON header and a body that is exactly `{message}` with the given text, so no error detail reaches the client. |
| `Http.MethodNotAllowed` | netlify/functions/api.ts:19-21 | The answer is 405 with the JSON header. Its message names the method, which can be read back from it. |
| `Http.RejectedMethodInverts` | netlify/functions/api.ts:20 | Reading the method back out of `Method <M> Not Allowed` gives M, so two methods never share a 405 message. |
| `Http.Preflight` | netlify/functions/api.ts:45-53 | The preflight answer is 204 with an empty body and advertises `GET,POST,PATCH,OPTIONS`. |
| `Http.ToUpper` | netlify/functions/api.ts:39 | Each character is upper-cased on its own, the length is kept, and no lower-case ASCII letter is left. |
| `Http.ToUpperIdempotent` | netlify/functions/api.ts:39 | Upper-casing an already upper-cased method changes nothing. |
| `Http.ToUpperKeepsUpper` | netlify/functions/api.ts:39 | A method with no lower-case letter, such as `POST`, is left as it is. |
| `Js.GetProperty` | netlify/functions/api.ts:89 | Reading a property throws exactly when the body is `null`. A value is read only from an object that holds the key, and that value is returned. |
| `Js.ParseBody` | netlify/functions/api.ts:67 | Only a malformed body throws. An absent or empty body reads as `{}`. |
| `Collaborators.JoinAll` | netlify/functions/api.ts:109-113 | `Promise.all` is fulfilled exactly when every operation is, with all their values in order. One rejection rejects the whole join, and no partial result is produced. |
| `Collaborators.Merge` | netlify/functions/api.ts:72 | The store's update replaces the given fields, keeps all others, and adds no other key. |
| `Collaborators.ProfileStore.GetUserProfile` | netlify/functions/api.ts:60 | Fails exactly when the store faults. Otherwise it returns the stored profile exactly when one exists for the id. |
| `Collaborators.ProfileStore.CreateUserProfile` | netlify/functions/api.ts:73 | On success it stores the data under the id and returns it. On failure nothing changes. |
| `Collaborators.ProfileStore.UpdateUserProfile` | netlify/functions/api.ts:93-94 | Merges into an existing profile and returns the result. For a missing profile it returns nothing and creates nothing. On failure nothing changes. |
| `Api.RouteOf` | netlify/functions/api.ts:56-166 | The route table: a matched path is that route's path, and an unmatched path is no route's path. |
| `Api.RoutesReachable` | netlify/functions/api.ts:26-37 | Every route is reached from its own path, from its function URL, and from its `/api` URL with or without a trailing slash. |
| `Api.CompletionAccepted` | netlify/functions/api.ts:90 | The check `!completed \|\| typeof completed !== 'object'` passes exactly for arrays and objects. |
| `Api.MessageAccepted` | netlify/functions/api.ts:149 | The message check passes exactly for a non-empty string. |
| `Api.ResolveProfile` | netlify/functions/api.ts:106 | A truthy `body.profile` wins and the store is not read. Otherwise the store is read exactly once: the read fails exactly on a store fault, and else the result is the stored profile, or `undefined` when none is stored. A `null` body throws. |
| `Api.GetProfile` | netlify/functions/api.ts:58-63 | The store is read once and never written. The answer is 200 with `null` exactly when no profile is stored, and 200 with the stored profile otherwise. A store failure escapes. |
| `Api.PostProfile` | netlify/functions/api.ts:65-79 | Upsert: update if a profile exists, create otherwise, with one write. The 200 answers what is now stored, and only the demo profile changes. Validation failure gives 400 with no store call. Store failures give 400 with the store unchanged. Malformed JSON escapes. |
| `Api.PatchCompletion` | netlify/functions/api.ts:85-96 | A `completed` that is not an array or object gives 400 with no store call. Otherwise the one update carries exactly the body's `completed`. A missing profile gives 404 and is not created. An existing profile gives 200 with that `completed` merged in. Malformed or `null` bodies and update failures escape. |
| `Api.GeneratePlans` | netlify/functions/api.ts:101-120 | The store is never written. With no profile the answer is 400 and no AI call is made. A `null` body or a failed store read is `500 Failed to generate AI plans` with no AI call. Otherwise all three generations are called with the same profile, and the answer is 200 with the bundle exactly when all three succeed, else that 500. |
| `Api.GenerateSchedule` | netlify/functions/api.ts:125-139 | Same profile rule as the plans route. With no profile the answer is 400, and a `null` body or a failed store read is `500 Failed to generate AI schedule`, both with no AI call. Otherwise there is one AI call, and the answer is 200 `{schedule}` exactly when it succeeds, else that 500. |
| `Api.Chat` | netlify/functions/api.ts:144-161 | A missing, empty or non-string message gives 400 with no call at all. Once the message is accepted, a failed store read is `500 Failed to get AI response` with no AI call. Otherwise the AI is always called, with the profile or, when there is none, `undefined`. The answer is 200 `{response}` exactly when that call succeeds, else that 500. |
| `Api.RunRoute` | netlify/functions/api.ts:56-163 | The dispatch table: GET and POST /profile run the read and the upsert, PATCH /profile/completion the completion patch, and the three POST routes the plans, schedule and chat rules. Every route answers JSON, and every non-200 answer carries a message. Only the profile routes write, only POST /profile creates, and only the three AI routes call the AI. A malformed body escapes on the profile routes and gets the route's own 500 on the others. |
| `Api.AiRoutesOnlyReadStore` | netlify/functions/api.ts:101-163 | On the plans, schedule and chat routes the only store call ever made is the read of the demo profile. |
| `Api.Catch` | netlify/functions/api.ts:167-170 | An escaped failure becomes `500 Internal Server Error` and leaves the store as it was. |
| `Api.Route` | netlify/functions/api.ts:23-171 | `OPTIONS` on any path gives 204 with no collaborator call. An unmatched path gives 404 `Not Found`. A wrong method gives 405 naming the upper-cased method. A matched path with a method it serves runs that route's rule, and a throw from it becomes the outer 500. Statuses are 200/204/400/404/405/500, every non-204 answer is JSON, and errors carry a message. Only the demo profile changes, only POST /profile creates, and only POST AI routes call the AI. |
| `ApiHandler.ResolveProfileFrom` | netlify/functions/api.ts:106 | The imperative profile resolution calls the store object and returns what `Api.ResolveProfile` says. |
| `ApiHandler.HandleGetProfile` | netlify/functions/api.ts:58-63 | Computes exactly `Api.GetProfile` on the store's current contents. |
| `ApiHandler.HandlePostProfile` | netlify/functions/api.ts:65-79 | Computes `Api.PostProfile` on the old store and leaves the store object as that rule says. |
| `ApiHandler.HandlePatchCompletion` | netlify/functions/api.ts:85-96 | Computes `Api.PatchCompletion` on the old store and leaves the store object as that rule says. |
| `ApiHandler.HandleGeneratePlans` | netlify/functions/api.ts:101-120 | Issues the three generations, joins them, and computes exactly `Api.GeneratePlans`. |
| `ApiHandler.HandleGenerateSchedule` | netlify/functions/api.ts:125-139 | Computes exactly `Api.GenerateSchedule`. |
| `ApiHandler.HandleChat` | netlify/functions/api.ts:144-161 | Computes exactly `Api.Chat`. |
| `ApiHandler.RunRouteOn` | netlify/functions/api.ts:56-163 | Runs the handler of the matched route and method, as `Api.RunRoute` says. |
| `ApiHandler.Handle` | netlify/functions/api.ts:23-171 | The handler's response, trace and new store contents are those of `Api.Route` on the old store. |
| `ApiProperties.ReplayKeepsOtherProfiles` | netlify/functions/api.ts:56-163 | Whatever requests arrive, no profile but the demo user's is ever added, changed or removed. |
| `ApiProperties.AtMostOneProfile` | netlify/functions/api.ts:71-73 | From an empty store, any sequence of requests leaves at most one profile, and it is the demo user's. |
| `ApiProperties.NoProfileWithoutPost` | netlify/functions/api.ts:93-94 | Without a POST /profile, no request creates a profile. In particular PATCH /profile/completion never does. |
| `ApiProperties.GetBeforePostIsNull` | netlify/functions/api.ts:61 | Until some POST /profile is made, GET /profile answers 200 `null`. |
| `ApiProperties.PostProfileIdempotent` | netlify/functions/api.ts:70-74 | The same accepted payload posted twice gives 200 both times with the same answer, and leaves the store as the first post left it. |
| `ApiProperties.PostThenGet` | netlify/functions/api.ts:58-79 | After an accepted POST /profile, GET /profile answers exactly what the POST answered. |
| `GetAiResponse.Bare` | netlify/functions/getAiResponse.ts:7-10 | The chat function's error answers carry only a status and a body that is exactly `{message}`, with no headers. |
| `GetAiResponse.StoredContext` | netlify/functions/getAiResponse.ts:26 | `profile \|\| undefined` is `undefined` exactly when no profile is stored, and otherwise the stored profile itself. |
| `GetAiResponse.Handler` | netlify/functions/getAiResponse.ts:5-39 | A non-POST method gives 405 before any parse or call. A missing, empty or non-string message gives 400 with no call. After an accepted message, the AI is called exactly when the store read succeeds. The context is the stored profile or `undefined`, never the body's. The answer is 200 `{response}` with the JSON header exactly when the AI call succeeds, and every failure is `500 Internal Server Error`. |
| `GetAiResponse.BodyProfileIgnored` | netlify/functions/getAiResponse.ts:23-26 | A profile in the body changes nothing: the answer and the calls are those for the same body without it. |
| `GetAiResponse.ReadStore` | netlify/functions/getAiResponse.ts:24 | The store read fails exactly on a store fault, finds a profile exactly when one is stored, and the profile found is the stored one. |
| `GetAiResponse.ChatRuleAgrees` | netlify/functions/getAiResponse.ts:13-38 | For a body without a truthy profile, the router's chat rule and this function make the same calls, with the same status and the same 200 body. |
| `GetAiResponse.AgreesWithRouterChat` | netlify/functions/getAiResponse.ts:5-39 | For a POST without a truthy body profile, `POST /chat` through the router and this function give the same status and calls and the same 200 body. The router's store is left unchanged. |

## Left out

- Parsing the request URL (`new URL(event.rawUrl)`) is left out. The model starts from the pathname.
- `JSON.parse` and `JSON.stringify` are left out. A body is absent, malformed or a parsed JSON value, and a response body is the value that would be serialised.
- Logging (`console.log`, `console.error`) is left out. It does not change any response.
- The code of `storage` (`server/storage`) is not part of this model. The store is an in-memory map. `create` stores the validated data, and `update` does a shallow merge of the given fields. Which store calls fail is an input for each request. That `update` returns nothing and creates nothing for a missing id is assumed, because the storage code is not shown. Two results rest on that assumption: the 404 of `PATCH /profile/completion` with no profile created (api.ts:93-94), and the PATCH half of `ApiProperties.NoProfileWithoutPost`.
- The code of `aiService` (`server/ai-service-replicate`) is not part of this model. Each AI call is a function that returns a value or rejects. Latency and timeouts are not modelled.
- `insertUserProfileSchema` (`shared/schema`) is not part of this model. It is an input function that returns the validated profile or fails.
- Concurrency is left out. The three generations under `Promise.all` are modelled as a join of three independent outcomes, and their interleaving is not modelled. Concurrent requests against the store are not modelled either: each request is handled to completion before the next.
- `Http.ToUpper`: upper-cases the ASCII letters only. JavaScript's `toUpperCase` also maps non-ASCII letters, which HTTP method names do not contain.
- `Js.GetProperty`: reads only a JSON object's own keys. Inherited properties such as `toString` are not modelled. None of the keys the handlers read (`profile`, `message`, `completed`) is an inherited name.
- JSON numbers are modelled as reals. Only their truthiness matters here.
- The client pages and components (`client/src/...`) are not part of this model. They render UI and hold no request-handling logic.
