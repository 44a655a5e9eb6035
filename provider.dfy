/** The federation adapter itself: the identity cache it updates in place, and the
    host-facing operations, each delegating its decision to the modules above. */
module StorageProvider {
  import opened FederationTypes
  import opened UserLookup
  import CredentialPolicy

  class ExternalDatabaseStorageProvider {
    /** loadedUsers: the adapters served so far, by the username they were looked up with. */
    var loadedUsers: Cache
    const passwordHashingAlgorithm: PasswordHashingAlgorithm

    constructor (passwordHashingAlgorithm: PasswordHashingAlgorithm)
      ensures loadedUsers == map[]
      ensures this.passwordHashingAlgorithm == passwordHashingAlgorithm
    {
      loadedUsers := map[];
      this.passwordHashingAlgorithm := passwordHashingAlgorithm;
    }

    /** getUserById: the external id the host encoded in `id` (`externalId`, Keycloak's
        StorageId.getExternalId) is looked up as a username. */
    method GetUserById(id: string, externalId: string -> string, userDao: UserDao)
      returns (user: Option<UserView>)
      modifies this`loadedUsers
      ensures Lookup(user, loadedUsers) == LookupByUsername(old(loadedUsers), userDao, externalId(id))
    {
      var username := externalId(id);
      user := GetUserByUsername(username, userDao);
    }

    method GetUserByUsername(username: string, userDao: UserDao) returns (user: Option<UserView>)
      modifies this`loadedUsers
      ensures Lookup(user, loadedUsers) == LookupByUsername(old(loadedUsers), userDao, username)
      ensures username in old(loadedUsers) ==>
                user == Some(old(loadedUsers)[username]) && loadedUsers == old(loadedUsers)
      ensures username !in old(loadedUsers) && username in userDao.byUsername ==>
                var record := userDao.byUsername[username];
                user == Some(View(record.username, record.email)) &&
                loadedUsers == old(loadedUsers)[username := View(record.username, record.email)]
      ensures username !in old(loadedUsers) && username !in userDao.byUsername ==>
                user == None && loadedUsers == old(loadedUsers)
    {
      user := if username in loadedUsers then Some(loadedUsers[username]) else None;
      if user == None {
        var record := userDao.GetUserByUsername(username);
        if record.Some? {
          var adapter := CreateAdapter(record);
          user := Some(adapter);
          loadedUsers := loadedUsers[username := adapter];
        }
      }
    }

    /** getUserByEmail, as written: no cache, no guard against an absent record. */
    method GetUserByEmail(email: string, userDao: UserDao) returns (user: UserView)
      ensures user == UserByEmail(userDao, email)
      ensures unchanged(this)
    {
      var record := userDao.GetUserByEmail(email);
      user := CreateAdapter(record);
    }

    method SupportsCredentialType(credentialType: string) returns (supported: bool)
      ensures supported <==> credentialType == CredentialPolicy.PasswordType
      ensures unchanged(this)
    {
      supported := CredentialPolicy.SupportsCredentialType(credentialType);
    }

    method IsConfiguredFor(user: UserView, credentialType: string) returns (configured: bool)
      ensures configured == CredentialPolicy.IsConfiguredFor(user, credentialType)
      ensures unchanged(this)
    {
      configured := CredentialPolicy.IsConfiguredFor(user, credentialType);
    }

    /** isValid for the user model named `username`; `verify` is the password encoder. */
    method IsValid(username: string, input: CredentialInput, userDao: UserDao,
                   verify: (string, string) -> bool) returns (valid: bool)
      ensures valid == CredentialPolicy.IsValid(passwordHashingAlgorithm, userDao, username, input, verify)
      ensures unchanged(this)
    {
      valid := CredentialPolicy.IsValid(passwordHashingAlgorithm, userDao, username, input, verify);
    }

    method UpdateCredential(user: UserView, input: CredentialInput) returns (outcome: UpdateOutcome)
      ensures outcome == CredentialPolicy.UpdateCredential(input)
      ensures unchanged(this)
    {
      outcome := CredentialPolicy.UpdateCredential(input);
    }

    /** disableCredentialType does nothing. */
    method DisableCredentialType(user: UserView, credentialType: string)
      ensures unchanged(this)
    {
    }

    method GetDisableableCredentialTypes(user: UserView) returns (types: set<string>)
      ensures types == CredentialPolicy.GetDisableableCredentialTypes(user)
      ensures unchanged(this)
    {
      types := CredentialPolicy.GetDisableableCredentialTypes(user);
    }
  }

  /** The scenario of a single stored user "bob": lookup, a right and a wrong password,
      and a refused password update, on a PKCS5S2 provider. */
  method BobScenario(verify: (string, string) -> bool)
    requires verify("correct-pw", "H") && !verify("wrong-pw", "H")
  {
    var bob := Record("bob", "bob@x.com", "H");
    var dao := UserDao(map["bob" := bob], map["bob@x.com" := bob]);
    var provider := new ExternalDatabaseStorageProvider(PKCS5S2);
    var user := provider.GetUserByUsername("bob", dao);
    assert user == Some(View("bob", "bob@x.com"));
    var again := provider.GetUserByUsername("bob", UserDao(map[], map[]));
    assert again == user;
    var ok := provider.IsValid("bob", UserCredentialModel("password", "correct-pw"), dao, verify);
    assert ok;
    var wrong := provider.IsValid("bob", UserCredentialModel("password", "wrong-pw"), dao, verify);
    assert !wrong;
    var update := provider.UpdateCredential(user.value, UserCredentialModel("password", "new-pw"));
    assert update == ReadOnly;
    var byEmail := provider.GetUserByEmail("bob@x.com", dao);
    assert byEmail == View("bob", "bob@x.com");
    assert provider.loadedUsers == map["bob" := View("bob", "bob@x.com")];
  }
}
