/** What the identity cache looks like after any sequence of calls on the provider.
    The store may change between calls, so every call carries the data-access object's
    answers at that moment. */
module CallSequences {
  import opened FederationTypes
  import opened UserLookup

  datatype Request =
    | ById(id: string)
    | ByUsername(username: string)
    | ByEmail(email: string)
    | Validate(username: string, input: CredentialInput)
    | Update(input: CredentialInput)
    | Disable(credentialType: string)
    | Disableable

  datatype Call = Call(store: UserDao, request: Request)

  /** The cache after one call, as the provider's methods specify it: the two username
      lookups go through LookupByUsername (getUserById with the extracted external id),
      and every other operation leaves loadedUsers alone. */
  function CacheAfter(cache: Cache, externalId: string -> string, call: Call): Cache {
    match call.request
    case ById(id) => LookupByUsername(cache, call.store, externalId(id)).cache
    case ByUsername(username) => LookupByUsername(cache, call.store, username).cache
    case _ => cache
  }

  function Replay(cache: Cache, externalId: string -> string, calls: seq<Call>): Cache
    decreases |calls|
  {
    if calls == [] then cache
    else Replay(CacheAfter(cache, externalId, calls[0]), externalId, calls[1..])
  }

  /** The usernames the calls look up through the cache and that the store of that
      same call knows. */
  function Found(externalId: string -> string, calls: seq<Call>): set<string>
    decreases |calls|
  {
    if calls == [] then {}
    else
      var queried := match calls[0].request
                     case ById(id) => {externalId(id)}
                     case ByUsername(username) => {username}
                     case _ => {};
      (set u | u in queried && u in calls[0].store.byUsername) + Found(externalId, calls[1..])
  }

  lemma ExtendsTransitive(a: Cache, b: Cache, c: Cache)
    requires Extends(a, b) && Extends(b, c)
    ensures Extends(a, c)
  {
  }

  /** Across any sequence of calls, no cache entry is ever removed or overwritten. */
  lemma {:induction false} ReplayNeverOverwrites(cache: Cache, externalId: string -> string, calls: seq<Call>)
    ensures Extends(cache, Replay(cache, externalId, calls))
    decreases |calls|
  {
    if calls != [] {
      var next := CacheAfter(cache, externalId, calls[0]);
      ReplayNeverOverwrites(next, externalId, calls[1..]);
      ExtendsTransitive(cache, next, Replay(next, externalId, calls[1..]));
    }
  }

  /** The cache only ever gains keys that some call looked up and found in the store
      as it stood at that call. */
  lemma {:induction false} ReplayOnlyAddsFound(cache: Cache, externalId: string -> string, calls: seq<Call>)
    ensures Replay(cache, externalId, calls).Keys <= cache.Keys + Found(externalId, calls)
    decreases |calls|
  {
    if calls != [] {
      var next := CacheAfter(cache, externalId, calls[0]);
      ReplayOnlyAddsFound(next, externalId, calls[1..]);
    }
  }

  /** A username that no store snapshot knows is absent from the cache after any
      sequence of calls, however often it is looked up. */
  lemma {:induction false} UnknownUsernameNeverCachedAcross(cache: Cache, externalId: string -> string,
                                                            calls: seq<Call>, username: string)
    requires username !in cache
    requires forall i :: 0 <= i < |calls| ==> username !in calls[i].store.byUsername
    ensures username !in Replay(cache, externalId, calls)
    decreases |calls|
  {
    if calls != [] {
      var next := CacheAfter(cache, externalId, calls[0]);
      assert username !in calls[0].store.byUsername;
      assert username !in next;
      forall i | 0 <= i < |calls[1..]| ensures username !in calls[1..][i].store.byUsername {
        assert calls[1..][i] == calls[i + 1];
      }
      UnknownUsernameNeverCachedAcross(next, externalId, calls[1..], username);
    }
  }

  /** Starting from the empty cache of a new provider, only adapters over records are
      ever cached, and when the data-access object always answers a username with a
      record of that username, every entry's username is its key. */
  lemma {:induction false} ReplayKeepsCacheSound(cache: Cache, externalId: string -> string, calls: seq<Call>)
    requires HoldsViews(cache)
    ensures HoldsViews(Replay(cache, externalId, calls))
    ensures Coherent(cache) && (forall i :: 0 <= i < |calls| ==> KeyedByUsername(calls[i].store)) ==>
              Coherent(Replay(cache, externalId, calls))
    decreases |calls|
  {
    if calls != [] {
      var next := CacheAfter(cache, externalId, calls[0]);
      ReplayKeepsCacheSound(next, externalId, calls[1..]);
      if Coherent(cache) && (forall i :: 0 <= i < |calls| ==> KeyedByUsername(calls[i].store)) {
        assert KeyedByUsername(calls[0].store);
        assert forall i :: 0 <= i < |calls[1..]| ==> KeyedByUsername(calls[1..][i].store) by {
          forall i | 0 <= i < |calls[1..]| ensures KeyedByUsername(calls[1..][i].store) {
            assert calls[1..][i] == calls[i + 1];
          }
        }
      }
    }
  }
}
