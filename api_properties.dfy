/** Properties of the API function over several requests: the store only
    ever holds the demo user's profile, only POST /profile creates it, and
    the upsert is idempotent and read back by GET /profile. */
module ApiProperties {
  import opened Js
  import opened Http
  import opened Paths
  import opened Collaborators
  import opened Api

  /** One request and the collaborators' behaviour while it is handled. */
  datatype Call = Call(req: Request, env: Env)

  /** The store after the requests are handled one after the other. */
  function Replay(store: Store, calls: seq<Call>): Store
    decreases |calls|
  {
    if calls == [] then store
    else Replay(Route(store, calls[0].req, calls[0].env).store, calls[1..])
  }

  predicate IsPostProfile(req: Request) {
    ToUpper(req.httpMethod) == "POST" && NormalizePath(req.pathname) == "/profile"
  }

  predicate IsGetProfile(req: Request) {
    ToUpper(req.httpMethod) == "GET" && NormalizePath(req.pathname) == "/profile"
  }

  predicate NoFaults(env: Env) {
    !env.faults.getFails && !env.faults.createFails && !env.faults.updateFails
  }

  /** Whatever requests arrive, no profile but the demo user's is ever
      added, changed or removed. */
  lemma {:induction false} ReplayKeepsOtherProfiles(store: Store, calls: seq<Call>)
    ensures Replay(store, calls).Keys <= store.Keys + {DemoUser}
    ensures forall k :: k in store && k != DemoUser ==> k in Replay(store, calls) && Replay(store, calls)[k] == store[k]
    decreases |calls|
  {
    if calls != [] {
      var next := Route(store, calls[0].req, calls[0].env).store;
      ReplayKeepsOtherProfiles(next, calls[1..]);
    }
  }

  /** Starting from an empty store, there is at most one profile, whatever
      requests arrive. */
  lemma AtMostOneProfile(calls: seq<Call>)
    ensures |Replay(map[], calls)| <= 1
    ensures Replay(map[], calls).Keys <= {DemoUser}
  {
    var after := Replay(map[], calls);
    ReplayKeepsOtherProfiles(map[], calls);
    if DemoUser in after {
      assert after.Keys == {DemoUser};
    } else {
      assert after.Keys == {};
    }
  }

  /** No request but POST /profile creates a profile: in particular
      PATCH /profile/completion never does. */
  lemma {:induction false} NoProfileWithoutPost(store: Store, calls: seq<Call>)
    requires DemoUser !in store
    requires forall i :: 0 <= i < |calls| ==> !IsPostProfile(calls[i].req)
    ensures DemoUser !in Replay(store, calls)
    decreases |calls|
  {
    if calls != [] {
      var next := Route(store, calls[0].req, calls[0].env).store;
      assert !IsPostProfile(calls[0].req);
      assert DemoUser !in next;
      NoProfileWithoutPost(next, calls[1..]);
    }
  }

  /** GET /profile answers 200 `null` until some POST /profile has been made. */
  lemma GetBeforePostIsNull(calls: seq<Call>, get: Call)
    requires forall i :: 0 <= i < |calls| ==> !IsPostProfile(calls[i].req)
    requires IsGetProfile(get.req) && !get.env.faults.getFails
    ensures Route(Replay(map[], calls), get.req, get.env).response == JsonResponse(200, JNull)
  {
    var store := Replay(map[], calls);
    NoProfileWithoutPost(map[], calls);
    GetProfileRouted(store, get.req, get.env);
  }

  /** GET /profile reaches the GET /profile rule, through the outer catch. */
  lemma GetProfileRouted(store: Store, req: Request, env: Env)
    requires IsGetProfile(req)
    ensures Route(store, req, env) == Catch(store, GetProfile(store, env.faults))
  {
  }

  /** A POST /profile that the schema accepts and the store serves: the
      response is 200 and the stored profile is what was answered. */
  predicate AcceptedPost(req: Request, env: Env) {
    IsPostProfile(req) && NoFaults(env) && !req.body.Malformed?
    && env.validate(ParseBody(req.body).value).Some?
  }

  /** POST /profile is idempotent in effect: the same accepted payload sent
      a second time leaves the store as the first call left it, and gets the
      same answer. */
  lemma PostProfileIdempotent(store: Store, req: Request, env: Env)
    requires AcceptedPost(req, env)
    ensures var first := Route(store, req, env);
            var second := Route(first.store, req, env);
            && first.response.status == 200
            && second.store == first.store
            && second.response == first.response
  {
    var v := env.validate(ParseBody(req.body).value).value;
    var first := Route(store, req, env);
    assert first.store[DemoUser] == if DemoUser in store then Merge(store[DemoUser], v) else v;
    MergeIdempotent(if DemoUser in store then store[DemoUser] else map[], v);
    assert Merge(first.store[DemoUser], v) == first.store[DemoUser];
  }

  /** After an accepted POST /profile, GET /profile answers with exactly the
      profile the POST answered with. */
  lemma PostThenGet(store: Store, post: Request, env: Env, get: Request, env': Env)
    requires AcceptedPost(post, env)
    requires IsGetProfile(get) && !env'.faults.getFails
    ensures var first := Route(store, post, env);
            Route(first.store, get, env').response == first.response
  {
  }
}
