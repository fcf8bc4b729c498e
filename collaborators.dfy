/** The two collaborators of the handlers, whose code is not part of this
    model: the profile store (`storage`) and the AI capability (`aiService`),
    together with the calls the handlers make on them. */
module Collaborators {
  import opened Js

  /** A stored profile: the fields of the profile object. */
  type Profile = map<string, Json>

  /** The contents of the profile store, keyed by user id. */
  type Store = map<string, Profile>

  /** One call made on a collaborator, in the order the handler makes it. */
  datatype Effect =
    | StoreGet(id: string)
    | StoreCreate(id: string, data: Profile)
    | StoreUpdate(id: string, data: Profile)
    | AiWorkout(profile: Json)
    | AiNutrition(profile: Json)
    | AiSleep(profile: Json)
    | AiSchedule(profile: Json)
    | AiChat(message: string, context: Value)

  predicate IsAiCall(e: Effect) {
    e.AiWorkout? || e.AiNutrition? || e.AiSleep? || e.AiSchedule? || e.AiChat?
  }

  predicate IsStoreCall(e: Effect) {
    e.StoreGet? || e.StoreCreate? || e.StoreUpdate?
  }

  predicate NoAiCall(trace: seq<Effect>) {
    forall i :: 0 <= i < |trace| ==> !IsAiCall(trace[i])
  }

  /** Which store calls of one request throw. */
  datatype StoreFaults = StoreFaults(getFails: bool, createFails: bool, updateFails: bool)

  /** The AI capability: each call returns a value or rejects. */
  datatype Ai = Ai(
    workout: Json -> Settled<Json>,
    nutrition: Json -> Settled<Json>,
    sleep: Json -> Settled<Json>,
    schedule: Json -> Settled<Json>,
    chat: (string, Value) -> Settled<Json>)

  /** Everything outside the handler that decides one request's outcome:
      the store's faults, the profile schema (`insertUserProfileSchema.parse`,
      None when it throws) and the AI capability. */
  datatype Env = Env(faults: StoreFaults, validate: Json -> Option<Profile>, ai: Ai)

  /** The store's update: the fields given replace those stored, and the
      fields not given are kept. */
  function Merge(stored: Profile, data: Profile): (r: Profile)
    ensures r.Keys == stored.Keys + data.Keys
    ensures forall k :: k in data ==> r[k] == data[k]
    ensures forall k :: k in stored && k !in data ==> r[k] == stored[k]
  {
    stored + data
  }

  /** Merging the same fields a second time changes nothing. */
  lemma MergeIdempotent(stored: Profile, data: Profile)
    ensures Merge(Merge(stored, data), data) == Merge(stored, data)
  {
  }

  /** `Promise.all`: fulfilled exactly when every operation is fulfilled,
      with their values in order; one rejection rejects the whole join, and
      no partial list of values is produced. */
  function JoinAll<T>(ops: seq<Settled<T>>): (r: Settled<seq<T>>)
    ensures r.Fulfilled? <==> forall i :: 0 <= i < |ops| ==> ops[i].Fulfilled?
    ensures r.Fulfilled? ==> |r.value| == |ops| && forall i :: 0 <= i < |ops| ==> ops[i] == Fulfilled(r.value[i])
  {
    if ops == [] then Fulfilled([])
    else
      match (ops[0], JoinAll(ops[1..]))
      case (Fulfilled(x), Fulfilled(xs)) => Fulfilled([x] + xs)
      case _ => Rejected
  }

  /** The profile store as an object: a map from user id to profile that
      create and update change in place. A call that throws changes nothing. */
  class ProfileStore {
    var profiles: Store

    constructor (initial: Store)
      ensures profiles == initial
    {
      profiles := initial;
    }

    /** `storage.getUserProfile(id)`: the stored profile, or nothing. */
    method GetUserProfile(id: string, fails: bool) returns (r: Settled<Option<Profile>>)
      ensures fails <==> r.Rejected?
      ensures r.Fulfilled? ==> (r.value.Some? <==> id in profiles)
      ensures r.Fulfilled? && r.value.Some? ==> r.value.value == profiles[id]
    {
      if fails {
        return Rejected;
      }
      r := Fulfilled(if id in profiles then Some(profiles[id]) else None);
    }

    /** `storage.createUserProfile(id, data)` */
    method CreateUserProfile(id: string, data: Profile, fails: bool) returns (r: Settled<Profile>)
      modifies this
      ensures fails ==> r.Rejected? && profiles == old(profiles)
      ensures !fails ==> r == Fulfilled(data) && profiles == old(profiles)[id := data]
    {
      if fails {
        return Rejected;
      }
      profiles := profiles[id := data];
      r := Fulfilled(data);
    }

    /** `storage.updateUserProfile(id, data)`: merges into an existing
      profile and returns it; returns nothing, and creates nothing, when
      there is no profile for `id`. */
    method UpdateUserProfile(id: string, data: Profile, fails: bool) returns (r: Settled<Option<Profile>>)
      modifies this
      ensures fails ==> r.Rejected? && profiles == old(profiles)
      ensures !fails && id !in old(profiles) ==> r == Fulfilled(None) && profiles == old(profiles)
      ensures !fails && id in old(profiles) ==>
        var merged := Merge(old(profiles)[id], data);
        r == Fulfilled(Some(merged)) && profiles == old(profiles)[id := merged]
    {
      if fails {
        return Rejected;
      }
      if id !in profiles {
        return Fulfilled(None);
      }
      var merged := Merge(profiles[id], data);
      profiles := profiles[id := merged];
      r := Fulfilled(Some(merged));
    }
  }
}
