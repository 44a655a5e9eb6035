# Keycloak external-database user federation provider, modelled in Dafny

This project models `ExternalDatabaseStorageProvider`, the Keycloak user-storage
provider that exposes the users of an external SQL table to Keycloak. It models two
parts of that class.

- **User lookup.** Users are resolved by id, username or e-mail. The provider keeps an
  in-memory map, `loadedUsers`, from username to the adapter it served. It starts
  empty. It is filled on a username miss, and only when the data-access object finds
  a record. It is never invalidated. Lookup by id extracts the external id and looks
  it up as a username. Lookup by e-mail bypasses the map.
- **Credential policy.** It is fail-closed. Only the `password` credential type is
  supported. `isValid` re-reads the record from the data-access object and verifies
  the submitted secret only when the configured algorithm is PKCS5S2. Every password
  update is refused as read-only. Nothing can be disabled.

Collaborators are parameters:

- The data-access object becomes `UserDao`: the records it returns per username and
  per e-mail at the moment of a call. The external store may change between calls, so
  each operation that consults it takes its current answers.
- `StorageId.getExternalId` becomes a function parameter `externalId`.
- The PKCS5S2 password encoder becomes a function parameter `verify(challenge, storedHash)`.

Layout:

- `types.dfy`, module `FederationTypes`: records, adapters, the algorithm enum,
  credential inputs, and the read-only outcome that stands for `ReadOnlyException`.
- `credentials.dfy`, module `CredentialPolicy`: the credential decisions as functions.
- `lookup.dfy`, module `UserLookup`: the cache lookup and the e-mail lookup as
  functions, with their properties.
- `calls.dfy`, module `CallSequences`: the cache after any sequence of calls.
- `provider.dfy`, module `StorageProvider`: the class with the `loadedUsers` field.
  Its methods are specified by the functions above. A scenario method walks through
  one stored user.

Two behaviours of the code are worth stating up front.

- The e-mail path wraps an absent record in an adapter instead of answering "absent"
  (see Findings).
- One would expect a cache hit for username U to yield a user named U. The code
  guarantees this only if the data-access object answers a query for U with a record
  named U. `ReplayKeepsCacheSound` proves it under that assumption.
  `LooseMatchBreaksCoherence` shows how a loosely matching store breaks it.

## Model

| member | source | states |
|---|---|---|
| StorageProvider.ExternalDatabaseStorageProvider.constructor | src/main/java/bg/sirma/keycloak/external/ExternalDatabaseStorageProvider.java:37-47 | a new provider's cache is empty and it keeps the configured algorithm |
| StorageProvider.ExternalDatabaseStorageProvider.GetUserByUsername | src/main/java/bg/sirma/keycloak/external/ExternalDatabaseStorageProvider.java:57-71 | a hit returns the cached adapter and leaves the map unchanged; a miss with a record returns an adapter with the record's username and e-mail and adds exactly that entry under the queried username; a miss without a record returns nothing and leaves the map unchanged |
| StorageProvider.ExternalDatabaseStorageProvider.GetUserById | src/main/java/bg/sirma/keycloak/external/ExternalDatabaseStorageProvider.java:49-55 | same result and same new cache as the username lookup of `externalId(id)` |
| StorageProvider.ExternalDatabaseStorageProvider.GetUserByEmail | src/main/java/bg/sirma/keycloak/external/ExternalDatabaseStorageProvider.java:73-77 | result is the unguarded e-mail adapter; the provider's state is unchanged |
| StorageProvider.ExternalDatabaseStorageProvider.SupportsCredentialType | src/main/java/bg/sirma/keycloak/external/ExternalDatabaseStorageProvider.java:79-82 | true exactly for the password type; state unchanged |
| StorageProvider.ExternalDatabaseStorageProvider.IsConfiguredFor | src/main/java/bg/sirma/keycloak/external/ExternalDatabaseStorageProvider.java:84-87 | agrees with the credential policy; state unchanged |
| StorageProvider.ExternalDatabaseStorageProvider.IsValid | src/main/java/bg/sirma/keycloak/external/ExternalDatabaseStorageProvider.java:89-103 | decides with the provider's configured algorithm as the fail-closed policy does; the cache is unchanged |
| StorageProvider.ExternalDatabaseStorageProvider.UpdateCredential | src/main/java/bg/sirma/keycloak/external/ExternalDatabaseStorageProvider.java:105-111 | outcome is the read-only policy's; state unchanged |
| StorageProvider.ExternalDatabaseStorageProvider.DisableCredentialType | src/main/java/bg/sirma/keycloak/external/ExternalDatabaseStorageProvider.java:113-116 | changes nothing |
| StorageProvider.ExternalDatabaseStorageProvider.GetDisableableCredentialTypes | src/main/java/bg/sirma/keycloak/external/ExternalDatabaseStorageProvider.java:118-121 | result is the policy's (empty) set; state unchanged |
| CredentialPolicy.SupportsCredentialType | src/main/java/bg/sirma/keycloak/external/ExternalDatabaseStorageProvider.java:79-82 | true exactly for the password type |
| CredentialPolicy.IsConfiguredFor | src/main/java/bg/sirma/keycloak/external/ExternalDatabaseStorageProvider.java:84-87 | true exactly for the password type, for any user |
| CredentialPolicy.ConfiguredForEveryUserAlike | src/main/java/bg/sirma/keycloak/external/ExternalDatabaseStorageProvider.java:79-87 | only the password type is supported; isConfiguredFor gives the same answer for any two users and equals supportsCredentialType |
| CredentialPolicy.IsValid | src/main/java/bg/sirma/keycloak/external/ExternalDatabaseStorageProvider.java:89-103 | false if the type is not password, if the input is not a UserCredentialModel, if the store has no record for the username, or if the algorithm is not PKCS5S2; otherwise exactly `verify(challenge, credential)` for the record the store returns |
| CredentialPolicy.UpdateCredential | src/main/java/bg/sirma/keycloak/external/ExternalDatabaseStorageProvider.java:105-111 | read-only failure if and only if the type is password; otherwise returns false |
| CredentialPolicy.GetDisableableCredentialTypes | src/main/java/bg/sirma/keycloak/external/ExternalDatabaseStorageProvider.java:118-121 | no credential type is disableable |
| UserLookup.CreateAdapter | src/main/java/bg/sirma/keycloak/external/ExternalDatabaseStorageProvider.java:123-135 | the adapter exposes the record's username and e-mail; it is hollow exactly when there is no record |
| UserLookup.LookupByUsername | src/main/java/bg/sirma/keycloak/external/ExternalDatabaseStorageProvider.java:58-70 | a hit returns the cached adapter and the cache unchanged; a miss with a record returns the adapter over that record's username and e-mail and caches exactly it under the queried username; keeps every existing entry; adds at most the queried key; a user is returned exactly when the key is cached afterwards, and it is that entry; on a miss, a user is returned exactly when the store has a record; keeps "only views cached" and, for a store keyed by username, "each entry named by its key" |
| UserLookup.RepeatedLookupIsStable | src/main/java/bg/sirma/keycloak/external/ExternalDatabaseStorageProvider.java:59-61 | a second lookup of a resolved username returns the same adapter and cache, whatever the store answers by then |
| UserLookup.UnknownUsernameNeverCached | src/main/java/bg/sirma/keycloak/external/ExternalDatabaseStorageProvider.java:61-70 | a miss on an unknown username returns nothing and leaves the cache unchanged |
| UserLookup.LooseMatchBreaksCoherence | src/main/java/bg/sirma/keycloak/external/ExternalDatabaseStorageProvider.java:63-67 | a store that returns "Alice" for "alice" leaves a cache entry whose username is not its key |
| UserLookup.UserByEmail | src/main/java/bg/sirma/keycloak/external/ExternalDatabaseStorageProvider.java:74-77 | as written: an adapter with the record's username and e-mail if the store has one, a hollow adapter otherwise |
| UserLookup.UnknownEmailYieldsHollowAdapter | src/main/java/bg/sirma/keycloak/external/ExternalDatabaseStorageProvider.java:75-76 | an unknown e-mail yields a hollow adapter, not an absent user |
| UserLookup.UserByEmailGuarded | src/main/java/bg/sirma/keycloak/external/ExternalDatabaseStorageProvider.java:74-77 | absent exactly when the store has no record; otherwise a real adapter equal to the unguarded one |
| CallSequences.ReplayNeverOverwrites | src/main/java/bg/sirma/keycloak/external/ExternalDatabaseStorageProvider.java:58-121 | across any sequence of calls, against a store that may change between them, no cache entry is removed or overwritten |
| CallSequences.ReplayOnlyAddsFound | src/main/java/bg/sirma/keycloak/external/ExternalDatabaseStorageProvider.java:50-77 | the cache gains only keys that a by-id or by-username call looked up and that the store knew at that call |
| CallSequences.UnknownUsernameNeverCachedAcross | src/main/java/bg/sirma/keycloak/external/ExternalDatabaseStorageProvider.java:58-71 | a username that no store snapshot knows is never cached, over any sequence of calls |
| CallSequences.ReplayKeepsCacheSound | src/main/java/bg/sirma/keycloak/external/ExternalDatabaseStorageProvider.java:58-71 | only adapters over records are ever cached; if every store snapshot is keyed by username, every entry's username equals its key |

## Left out

- `close()`: it closes the data-access object's JDBC connection and rethrows a SQL failure. That is resource I/O with no decision logic.
- Thread safety: `loadedUsers` is a `ConcurrentHashMap`. Its concurrency guarantees are the library's, so the model treats the map as a sequential field.
- The PKCS5S2 hashing itself is a foreign cryptographic library. It is the parameter `verify`.
- `StorageId` parsing: its format is Keycloak's. It is the parameter `externalId`.
- The data-access object's SQL: it is the per-call `UserDao` answers. Exceptions it might throw are not modelled.
- Keycloak session, realm and component model: only the username and e-mail of the adapter are kept. The adapter's realm is therefore not modelled. A cached adapter is served for whichever realm asks, and the model does not show that.
- Null arguments (a null username or credential type) would throw in the source. Strings here are never null.
- A null configured hashing algorithm makes `isValid` throw when it reads the algorithm's name (line 99). The model's algorithm is never null.
- `CredentialPolicy.IsValid` and `StorageProvider.ExternalDatabaseStorageProvider.IsValid` take the user's username, not the user model. So they cannot show that `isValid` on a hollow adapter from the e-mail path (see Findings) throws when it reads the username (lines 95 and 127).
- `PasswordHashingAlgorithm`: its constants other than PKCS5S2 are not shown. They are the single constant `Unimplemented`. The source compares the enum names; Java enum names are unique, so comparing constants is the same test.
- `isValid`, `updateCredential` and the disable operations receive Keycloak user models. The model passes only the username to `isValid`, and the others ignore the user as the source does.
- `CallSequences.CacheAfter` takes as given that operations other than the two username lookups leave the cache alone. The provider's methods prove this through their frames and `unchanged(this)`.

## Findings

| source | as written | input that shows it | evidently intended | confidence | as-written member | corrected member |
|---|---|---|---|---|---|---|
| src/main/java/bg/sirma/keycloak/external/ExternalDatabaseStorageProvider.java:74-77 | the DAO's answer is wrapped in an adapter with no null check | an e-mail with no record, e.g. "nobody@example.com" against an empty store: a non-null adapter comes back, and its getUsername dereferences null | return no user (null) when no record matches, as the username path does | high, not executed | UserLookup.UnknownEmailYieldsHollowAdapter | UserLookup.UserByEmailGuarded |

The provider class keeps the as-written e-mail path (`GetUserByEmail`), so the model
stays faithful to the code. `UserByEmailGuarded` is the corrected definition, and its
properties are proved.
