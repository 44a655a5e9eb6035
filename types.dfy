/** Values the federation provider exchanges with the host (Keycloak) and with the
    data-access object over the external user table. */
module FederationTypes {

  datatype Option<+T> = None | Some(value: T)

  /** One row of the external user table, as the data-access object returns it
      (SimpleUserModel): the username that keys the table, the e-mail address and
      the stored password hash. */
  datatype Record = Record(username: string, email: string, credential: string)

  /** The user model handed to the host: the adapter that createAdapter builds over a
      record. `View` exposes the captured record's username and e-mail. `Hollow` is an
      adapter built over an absent record: the object exists, but its accessors
      dereference a null record and fail when the host calls them. */
  datatype UserView = View(username: string, email: string) | Hollow

  /** What the data-access object answers at the moment of a call: the record it finds
      for a username, and the record it finds for an e-mail address, if any. The
      external store may change between calls, so every operation that consults the
      data-access object receives its answers as a parameter. */
  datatype UserDao = UserDao(byUsername: map<string, Record>, byEmail: map<string, Record>)
  {
    function GetUserByUsername(username: string): Option<Record> {
      if username in byUsername then Some(byUsername[username]) else None
    }

    function GetUserByEmail(email: string): Option<Record> {
      if email in byEmail then Some(byEmail[email]) else None
    }
  }

  /** The configured hashing algorithm. Only PKCS5S2 has a verification path; every
      other constant of the configuration enum is represented by `Unimplemented`. */
  datatype PasswordHashingAlgorithm = PKCS5S2 | Unimplemented

  /** A credential submitted by the host: either a UserCredentialModel or some other
      implementation of Keycloak's CredentialInput. Both carry a type and a challenge
      response (the submitted secret). */
  datatype CredentialInput =
    | UserCredentialModel(credentialType: string, challengeResponse: string)
    | OtherCredentialInput(credentialType: string, challengeResponse: string)

  /** The outcome of updateCredential: the ReadOnlyException it throws, or the boolean
      it returns. */
  datatype UpdateOutcome = ReadOnly | Returned(updated: bool)
}
