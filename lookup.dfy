/** User resolution through the username-keyed identity cache (loadedUsers), and the
    uncached e-mail path. */
module UserLookup {
  import opened FederationTypes

  /** The provider's loadedUsers map: username to the adapter served for it. */
  type Cache = map<string, UserView>

  /** No entry of `before` is removed or overwritten in `after`. */
  predicate Extends(before: Cache, after: Cache) {
    forall u :: u in before ==> u in after && after[u] == before[u]
  }

  /** Only adapters over actual records are cached. */
  predicate HoldsViews(cache: Cache) {
    forall u :: u in cache ==> cache[u].View?
  }

  /** The data-access object answers a username query with a record of that username. */
  predicate KeyedByUsername(dao: UserDao) {
    forall u :: u in dao.byUsername ==> dao.byUsername[u].username == u
  }

  /** Every cache entry is an adapter whose username is its key. */
  predicate Coherent(cache: Cache) {
    forall u :: u in cache ==> cache[u].View? && cache[u].username == u
  }

  /** createAdapter: an adapter exposing the captured record's username and e-mail. */
  function CreateAdapter(user: Option<Record>): (v: UserView)
    ensures v.View? <==> user.Some?
    ensures user.Some? ==> v.username == user.value.username && v.email == user.value.email
  {
    match user
    case Some(record) => View(record.username, record.email)
    case None => Hollow
  }

  /** The result of a lookup through the cache, and the cache afterwards. */
  datatype Lookup = Lookup(user: Option<UserView>, cache: Cache)

  /** getUserByUsername: serve a hit from the cache; on a miss ask the data-access
      object and cache the adapter only when a record comes back. */
  function LookupByUsername(cache: Cache, dao: UserDao, username: string): (r: Lookup)
    ensures username in cache ==> r == Lookup(Some(cache[username]), cache)
    ensures username !in cache && username in dao.byUsername ==>
              var adapter := View(dao.byUsername[username].username, dao.byUsername[username].email);
              r == Lookup(Some(adapter), cache[username := adapter])
    ensures Extends(cache, r.cache)
    ensures r.cache.Keys <= cache.Keys + {username}
    ensures r.user.Some? <==> username in r.cache
    ensures r.user.Some? ==> r.user.value == r.cache[username]
    ensures username !in cache ==> (r.user.Some? <==> username in dao.byUsername)
    ensures HoldsViews(cache) ==> HoldsViews(r.cache)
    ensures Coherent(cache) && KeyedByUsername(dao) ==> Coherent(r.cache)
  {
    if username in cache then
      Lookup(Some(cache[username]), cache)
    else
      match dao.GetUserByUsername(username)
      case None => Lookup(None, cache)
      case Some(record) =>
        var adapter := CreateAdapter(Some(record));
        Lookup(Some(adapter), cache[username := adapter])
  }

  /** A second lookup of a username that resolved returns the same adapter and leaves
      the cache as the first left it, whatever the external store answers by then. */
  lemma RepeatedLookupIsStable(cache: Cache, dao: UserDao, later: UserDao, username: string)
    ensures var first := LookupByUsername(cache, dao, username);
            first.user.Some? ==> LookupByUsername(first.cache, later, username) == first
  {
  }

  /** A username the external store does not know is never cached, however often it
      is looked up. */
  lemma UnknownUsernameNeverCached(cache: Cache, dao: UserDao, username: string)
    requires username !in cache && username !in dao.byUsername
    ensures LookupByUsername(cache, dao, username) == Lookup(None, cache)
  {
  }

  /** A data-access object that matches usernames loosely (a case-insensitive column,
      say) makes the cache serve, under the queried key, a user of another name. */
  lemma LooseMatchBreaksCoherence()
    ensures var dao := UserDao(map["alice" := Record("Alice", "alice@example.com", "h")], map[]);
            var r := LookupByUsername(map[], dao, "alice");
            r.user == Some(View("Alice", "alice@example.com")) && !Coherent(r.cache)
  {
    var dao := UserDao(map["alice" := Record("Alice", "alice@example.com", "h")], map[]);
    var r := LookupByUsername(map[], dao, "alice");
    assert r.cache["alice"].username == "Alice" != "alice";
  }

  /** getUserByEmail as written: the data-access object's answer is wrapped in an
      adapter whether or not a record came back, and the cache is not consulted. */
  function UserByEmail(dao: UserDao, email: string): (v: UserView)
    ensures v.View? <==> email in dao.byEmail
    ensures email in dao.byEmail ==>
              v.username == dao.byEmail[email].username && v.email == dao.byEmail[email].email
  {
    CreateAdapter(dao.GetUserByEmail(email))
  }

  /** An e-mail address with no record yields a hollow adapter, not an absent user. */
  lemma UnknownEmailYieldsHollowAdapter()
    ensures UserByEmail(UserDao(map[], map[]), "nobody@example.com") == Hollow
  {
  }

  /** getUserByEmail with the null guard the host's lookup contract calls for: absent
      when no record matches, the same adapter as the unguarded path otherwise. */
  function UserByEmailGuarded(dao: UserDao, email: string): (r: Option<UserView>)
    ensures r.None? <==> email !in dao.byEmail
    ensures r.Some? ==> r.value.View? && r.value == UserByEmail(dao, email)
  {
    match dao.GetUserByEmail(email)
    case None => None
    case Some(record) => Some(CreateAdapter(Some(record)))
  }
}
