/** The fail-closed credential policy of the provider: only password credentials are
    supported, validation consults the external store and the configured algorithm,
    and every attempt to change a credential is refused. */
module CredentialPolicy {
  import opened FederationTypes

  /** The type string of Keycloak's password credential (PasswordCredentialModel.TYPE). */
  const PasswordType: string := "password"

  function SupportsCredentialType(credentialType: string): (r: bool)
    ensures r <==> credentialType == PasswordType
  {
    credentialType == PasswordType
  }

  /** isConfiguredFor ignores the user: every user counts as configured for passwords. */
  function IsConfiguredFor(user: UserView, credentialType: string): (r: bool)
    ensures r <==> credentialType == PasswordType
  {
    SupportsCredentialType(credentialType)
  }

  lemma ConfiguredForEveryUserAlike(user: UserView, other: UserView, credentialType: string)
    ensures SupportsCredentialType(credentialType) <==> credentialType == PasswordType
    ensures IsConfiguredFor(user, credentialType) == IsConfiguredFor(other, credentialType)
    ensures IsConfiguredFor(user, credentialType) == SupportsCredentialType(credentialType)
  {
  }

  /** isValid for the user named `username`. The record is fetched from the
      data-access object (`dao`), never from the provider's cache; `verify` stands for
      the PKCS5S2 password encoder's isValidPassword(challenge, storedHash). */
  function IsValid(algorithm: PasswordHashingAlgorithm, dao: UserDao, username: string,
                   input: CredentialInput, verify: (string, string) -> bool): (r: bool)
    ensures input.credentialType != PasswordType ==> !r
    ensures !input.UserCredentialModel? ==> !r
    ensures username !in dao.byUsername ==> !r
    ensures algorithm != PKCS5S2 ==> !r
    ensures input.credentialType == PasswordType && input.UserCredentialModel? &&
            username in dao.byUsername && algorithm == PKCS5S2 ==>
              r == verify(input.challengeResponse, dao.byUsername[username].credential)
  {
    if !SupportsCredentialType(input.credentialType) || !input.UserCredentialModel? then
      false
    else
      match dao.GetUserByUsername(username)
      case None => false
      case Some(user) =>
        if algorithm == PKCS5S2 then verify(input.challengeResponse, user.credential)
        else false
  }

  /** updateCredential: a password update is refused as read-only, anything else is
      not handled. */
  function UpdateCredential(input: CredentialInput): (r: UpdateOutcome)
    ensures r == ReadOnly <==> input.credentialType == PasswordType
    ensures r != ReadOnly ==> r == Returned(false)
  {
    if SupportsCredentialType(input.credentialType) then ReadOnly else Returned(false)
  }

  /** getDisableableCredentialTypes: nothing can be disabled in a read-only store. */
  function GetDisableableCredentialTypes(user: UserView): (r: set<string>)
    ensures forall t :: t !in r
  {
    {}
  }
}
