/** Conversion between the User aggregate and its flat `users` table row. */
module PostgresUserMapper {
  import opened Wrappers
  import opened Errors
  import opened Validation
  import opened UserEntity

  /** A `users` row: the preferences are flattened into four columns. */
  datatype PostgresUser = PostgresUser(
    id: string,
    username: string,
    displayName: string,
    avatar: Option<string>,
    provider: string,
    entryAudio: Option<string>,
    volume: int,
    playOnEntry: bool,
    favorites: seq<string>)

  /** `toRecord`: every field of the user, preferences flattened. */
  function ToRecord(user: UserState): (r: PostgresUser)
    ensures r.id == user.id && r.username == user.username && r.displayName == user.displayName
    ensures r.avatar == user.avatar && r.provider == user.provider
    ensures AudioPreferences(r.entryAudio, r.volume, r.playOnEntry, r.favorites) == user.audioPreferences
  {
    PostgresUser(user.id, user.username, user.displayName, user.avatar, user.provider,
                 user.audioPreferences.entryAudio, user.audioPreferences.volume,
                 user.audioPreferences.playOnEntry, user.audioPreferences.favorites)
  }

  /** `_toUserAttributes`: the row's columns as constructor input, preferences nested again. */
  function ToUserAttributes(row: PostgresUser): (props: CreateUserProps)
    ensures Constructed(props) == UserState(row.id, row.provider, row.username, row.displayName, row.avatar,
                                            AudioPreferences(row.entryAudio, row.volume, row.playOnEntry, row.favorites))
  {
    CreateUserProps(
      row.provider, row.id, row.username, AsNullish(row.avatar), row.displayName,
      Some(PreferencesInput(row.entryAudio, Some(row.volume), Some(row.playOnEntry), Some(row.favorites))))
  }

  /**
   * `toEntity`: a validated row rebuilt into a user; `errors` are what the validator reports for it.
   * A successful result maps back to exactly the row it came from.
   */
  function ToEntity(document: PostgresUser, errors: seq<string>): (r: Result<UserState, Exception>)
    ensures r.Success? <==> |errors| == 0
    ensures r.Success? ==> ToRecord(r.value) == document
    ensures r.Failure? ==> r.error == ValidatedRecord(document, errors).error
  {
    match ValidatedRecord(document, errors)
    case Failure(e) => Failure(e)
    case Success(row) => Success(Constructed(ToUserAttributes(row)))
  }

  /** Storing a user and reading its row back gives the same user. */
  lemma StoredUserReadsBack(user: UserState)
    ensures ToEntity(ToRecord(user), []) == Success(user)
  {
  }

  /** Two users with the same row are the same user: `toRecord` loses nothing. */
  lemma ToRecordInjective(a: UserState, b: UserState)
    requires ToRecord(a) == ToRecord(b)
    ensures a == b
  {
    assert a.audioPreferences == AudioPreferences(ToRecord(a).entryAudio, ToRecord(a).volume,
                                                  ToRecord(a).playOnEntry, ToRecord(a).favorites);
  }
}
