/** The session serializer: a session stores only the user's id, and each request loads the user again. */
module SessionSerializer {
  import opened Wrappers
  import opened Errors
  import opened UserEntity
  import opened PostgresUserMapper
  import opened Database
  import opened Repositories

  /** The one call made to Passport's `done` callback: `done(err, value)`. */
  datatype DoneCall<T> = DoneCall(err: Option<Exception>, value: Option<T>)

  const DeserializationErrorMessage := "Deserialization error"

  function UserNotFoundMessage(userId: string): string {
    "Failed to deserialize user with with id '" + userId + "'. User not found."
  }

  /** `serializeUser`: no error, and the user's id as the session value. */
  function SerializeUser(user: UserState): (call: DoneCall<string>)
    ensures call.err.None? && call.value == Some(user.id)
  {
    DoneCall(None, Some(user.id))
  }

  /**
   * `deserializeUser` given what the get-user interactor produced for `userId`: it never throws,
   * and reports either the user, or an Error and no user.
   */
  function DeserializeUser(userId: string, found: Result<Option<UserState>, Thrown>): (call: DoneCall<UserState>)
    ensures call.err.None? <==> found.Success? && found.value.Some?
    ensures call.err.None? ==> call.value == found.value
    ensures call.err.Some? ==> call.value.None?
    ensures found == Success(None) ==> call.err == Some(Error(UserNotFoundMessage(userId)))
    ensures found.Failure? && found.error.ThrownError? ==> call.err == Some(found.error.error)
    ensures found.Failure? && found.error.ThrownValue? ==> call.err == Some(Error(DeserializationErrorMessage))
  {
    var attempt: Result<UserState, Thrown> :=
      match found
      case Failure(thrown) => Failure(thrown)
      case Success(None) => Failure(ThrownError(Error(UserNotFoundMessage(userId))))
      case Success(Some(user)) => Success(user);
    match attempt
    case Success(user) => DoneCall(None, Some(user))
    case Failure(ThrownError(e)) => DoneCall(Some(e), None)
    case Failure(ThrownValue(_)) => DoneCall(Some(Error(DeserializationErrorMessage)), None)
  }

  /** What a repository lookup looks like to a `catch` block: every exception it raises is an Error. */
  function AsThrown(r: Result<Option<UserState>, Exception>): (s: Result<Option<UserState>, Thrown>)
    ensures s.Success? <==> r.Success?
    ensures s.Success? ==> s.value == r.value
    ensures s.Failure? ==> s.error == ThrownError(r.error)
  {
    match r
    case Success(v) => Success(v)
    case Failure(e) => Failure(ThrownError(e))
  }

  /** A user whose row is stored comes back unchanged from the id its session keeps. */
  lemma SessionRoundTrip(users: seq<PostgresUser>, validate: PostgresUser -> seq<string>, user: UserState)
    requires UserWithId(users, user.id) == Some(ToRecord(user))
    requires validate(ToRecord(user)) == []
    ensures var sessionId := SerializeUser(user).value.value;
            DeserializeUser(sessionId, AsThrown(LoadUser(UserWithId(users, sessionId), validate))) == DoneCall(None, Some(user))
  {
    var loaded := LoadUser(UserWithId(users, user.id), validate);
    ToRecordInjective(loaded.value.value, user);
  }
}
