/**
 * AuthService: after an external login, find the user by the provider's id; bring a found
 * user's profile fields up to date, or create the user. Any failure becomes one internal error.
 */
module AuthService {
  import opened Wrappers
  import opened Errors
  import opened UserEntity
  import opened PostgresUserMapper
  import opened Database
  import opened Repositories
  import opened UserInteractors

  const ValidateUserErrorMessage := "An unknown error occured while validating user."

  datatype ProfileField = UsernameField | DisplayNameField | AvatarField

  /** The keys put into `updates`, and `updates` itself as a patch. */
  datatype ProfileDiff = ProfileDiff(changed: set<ProfileField>, patch: UpdateUserProps)

  /**
   * The fields of `_maybeUpdateUser` whose stored value differs from the profile's, compared with
   * `!==`: a profile without an avatar (undefined) always differs from a stored avatar or null.
   */
  function DiffProfile(user: UserState, profile: CreateUserProps): (d: ProfileDiff)
    ensures UsernameField in d.changed <==> user.username != profile.username
    ensures DisplayNameField in d.changed <==> user.displayName != profile.displayName
    ensures AvatarField in d.changed <==> AsNullish(user.avatar) != profile.avatar
    ensures d.patch.id.None? && d.patch.audioPreferences.None?
    ensures d.patch.username == (if UsernameField in d.changed then Some(profile.username) else None)
    ensures d.patch.displayName == (if DisplayNameField in d.changed then Some(profile.displayName) else None)
    ensures d.patch.avatar == (if AvatarField in d.changed then profile.avatar else Undefined)
  {
    var changed := (if user.username != profile.username then {UsernameField} else {})
                 + (if user.displayName != profile.displayName then {DisplayNameField} else {})
                 + (if AsNullish(user.avatar) != profile.avatar then {AvatarField} else {});
    ProfileDiff(changed, UpdateUserProps(
      None,
      if UsernameField in changed then Some(profile.username) else None,
      if DisplayNameField in changed then Some(profile.displayName) else None,
      if AvatarField in changed then profile.avatar else Undefined,
      None))
  }

  /** Applying the diff's patch makes the stored profile fields those of the login profile. */
  lemma DiffPatchAppliesProfile(user: UserState, profile: CreateUserProps)
    ensures var t := Updated(user, DiffProfile(user, profile).patch);
            t.username == profile.username && t.displayName == profile.displayName
            && (if profile.avatar.Undefined? then t.avatar == user.avatar else t.avatar == profile.avatar.OrNull())
            && t.id == user.id && t.provider == user.provider && t.audioPreferences == user.audioPreferences
  {
  }

  /** Any failure inside the `try` surfaces as the one internal error. */
  function Internal(r: Result<UserState, Exception>): (s: Result<UserState, Exception>)
    ensures s.Success? <==> r.Success?
    ensures s.Success? ==> s == r
    ensures s.Failure? ==> s.error == InternalServerErrorException(ValidateUserErrorMessage)
  {
    if r.Failure? then Failure(InternalServerErrorException(ValidateUserErrorMessage)) else r
  }

  /** `validateOrCreateUser` as values: result, `users` table afterwards, statements in order. */
  function ValidateOrCreateSpec(users: seq<PostgresUser>, validate: PostgresUser -> seq<string>, profile: CreateUserProps): (w: UserWrite)
    ensures |w.statements| >= 1 && w.statements[0] == SelectUserById(profile.id)
    ensures w.result.Failure? ==> w.result.error == InternalServerErrorException(ValidateUserErrorMessage)
    ensures w.result.Failure? ==> w.users == users
    ensures LoadUser(UserWithId(users, profile.id), validate).Failure? ==> w.result.Failure? && w.statements == [SelectUserById(profile.id)]
    ensures var found := LoadUser(UserWithId(users, profile.id), validate);
            found.Success? && found.value.Some? && DiffProfile(found.value.value, profile).changed == {}
            ==> w == UserWrite(Success(found.value.value), users, [SelectUserById(profile.id)])
    ensures LoadUser(UserWithId(users, profile.id), validate) == Success(None) && w.result.Success?
            ==> w.result.value == Constructed(profile) && w.users == users + [ToRecord(Constructed(profile))]
  {
    var lookup := [SelectUserById(profile.id)];
    match LoadUser(UserWithId(users, profile.id), validate)
    case Failure(_) => UserWrite(Failure(InternalServerErrorException(ValidateUserErrorMessage)), users, lookup)
    case Success(Some(user)) =>
      var diff := DiffProfile(user, profile);
      if diff.changed == {} then UserWrite(Success(user), users, lookup)
      else
        var update := UpdateUserSpec(users, validate, UpdateUserCommand(user.id, diff.patch));
        UserWrite(Internal(update.result), update.users, lookup + update.statements)
    case Success(None) =>
      var create := CreateUserSpec(users, validate, profile);
      UserWrite(Internal(create.result), create.users, lookup + create.statements)
  }

  /** A first login whose username is free creates the user from the profile. */
  lemma FirstLoginCreatesUser(users: seq<PostgresUser>, validate: PostgresUser -> seq<string>, profile: CreateUserProps)
    requires forall i :: 0 <= i < |users| ==> users[i].id != profile.id && users[i].username != profile.username
    ensures ValidateOrCreateSpec(users, validate, profile).result == Success(Constructed(profile))
    ensures ValidateOrCreateSpec(users, validate, profile).users == users + [ToRecord(Constructed(profile))]
  {
    FirstNone(users, (u: PostgresUser) => u.id == profile.id);
    UserWithUsernameNone(users, profile.username);
  }

  /** A returning user whose profile changed is always refused, because UpdateUser never writes. */
  lemma ChangedProfileIsRefused(users: seq<PostgresUser>, validate: PostgresUser -> seq<string>, profile: CreateUserProps)
    requires var found := LoadUser(UserWithId(users, profile.id), validate);
             found.Success? && found.value.Some? && DiffProfile(found.value.value, profile).changed != {}
    ensures ValidateOrCreateSpec(users, validate, profile).result == Failure(InternalServerErrorException(ValidateUserErrorMessage))
    ensures ValidateOrCreateSpec(users, validate, profile).users == users
  {
    var user := LoadUser(UserWithId(users, profile.id), validate).value.value;
    UpdateUserAlwaysFails(users, validate, UpdateUserCommand(user.id, DiffProfile(user, profile).patch));
  }

  class AuthService {
    /** The repository behind the get-user interactor, which only forwards to `findOneById`. */
    const userRepository: UserRepository
    const createUser: CreateUserInteractor
    const updateUser: UpdateUserInteractor

    constructor (userRepository: UserRepository, createUser: CreateUserInteractor, updateUser: UpdateUserInteractor)
      ensures this.userRepository == userRepository && this.createUser == createUser && this.updateUser == updateUser
    {
      this.userRepository := userRepository;
      this.createUser := createUser;
      this.updateUser := updateUser;
    }

    /** All three collaborators work on the same user table. */
    predicate Wired() {
      createUser.userRepository == userRepository && updateUser.userRepository == userRepository
    }

    method ValidateOrCreateUser(profile: CreateUserProps) returns (r: Result<User, Exception>)
      requires Wired()
      modifies userRepository.db
      ensures var w := ValidateOrCreateSpec(old(userRepository.db.users), userRepository.validate, profile);
              Yields(r, w.result) && userRepository.db.users == w.users
              && userRepository.db.log == old(userRepository.db.log) + w.statements
      ensures userRepository.db.audioCommands == old(userRepository.db.audioCommands)
      ensures userRepository.db.audioData == old(userRepository.db.audioData)
    {
      var found := userRepository.FindOneById(profile.id);
      if found.Failure? {
        return Failure(InternalServerErrorException(ValidateUserErrorMessage));
      }
      var outcome: Result<User, Exception>;
      if found.value.Some? {
        outcome := MaybeUpdateUser(found.value.value, profile);
      } else {
        outcome := createUser.Execute(profile);
      }
      if outcome.Failure? {
        return Failure(InternalServerErrorException(ValidateUserErrorMessage));
      }
      r := outcome;
    }

    /** `_maybeUpdateUser`: the same user object when nothing differs, else UpdateUser's result. */
    method MaybeUpdateUser(user: User, profile: CreateUserProps) returns (r: Result<User, Exception>)
      requires Wired()
      modifies userRepository.db
      ensures var d := DiffProfile(old(user.State()), profile);
              d.changed == {} ==> r == Success(user) && userRepository.db.Contents() == old(userRepository.db.Contents())
                                  && userRepository.db.log == old(userRepository.db.log)
      ensures var d := DiffProfile(old(user.State()), profile);
              var w := UpdateUserSpec(old(userRepository.db.users), userRepository.validate, UpdateUserCommand(user.id, d.patch));
              d.changed != {} ==> Yields(r, w.result) && userRepository.db.users == w.users
                                  && userRepository.db.log == old(userRepository.db.log) + w.statements
      ensures userRepository.db.audioCommands == old(userRepository.db.audioCommands)
      ensures userRepository.db.audioData == old(userRepository.db.audioData)
    {
      var diff := DiffProfile(user.State(), profile);
      if |diff.changed| == 0 {
        return Success(user);
      }
      r := updateUser.Execute(UpdateUserCommand(user.id, diff.patch));
    }
  }
}
