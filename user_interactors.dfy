/**
 * The CreateUser and UpdateUser use cases. Each looks for a conflicting username before it
 * writes. `CreateUserSpec` and `UpdateUserSpec` state an execution as values: what it returns,
 * the `users` table afterwards, and the statements issued in order.
 */
module UserInteractors {
  import opened Wrappers
  import opened Errors
  import opened UserEntity
  import opened PostgresUserMapper
  import opened Database
  import opened Repositories

  datatype UserWrite = UserWrite(result: Result<UserState, Exception>, users: seq<PostgresUser>, statements: seq<Statement>)

  /** The input of UpdateUser: whose record, and the patch. */
  datatype UpdateUserCommand = UpdateUserCommand(id: string, userData: UpdateUserProps)

  function CreateConflictMessage(username: string): string {
    "Failed to create user. A user with the username '" + username + "' already exists."
  }

  function UpdateConflictMessage(username: string): string {
    "Failed to update user. A user with the username '" + username + "' already exists."
  }

  function UpdateNotFoundMessage(id: string): string {
    "Failed to update user. User with ID '" + id + "' not found."
  }

  /** CreateUser: refuse a taken username, otherwise store the user built from `props`. */
  function CreateUserSpec(users: seq<PostgresUser>, validate: PostgresUser -> seq<string>, props: CreateUserProps): (w: UserWrite)
    ensures |w.statements| >= 1 && w.statements[0] == SelectUserByUsername(props.username)
    ensures w.result.Failure? ==> w.users == users && w.statements == [SelectUserByUsername(props.username)]
    ensures w.result.Success? ==> w.result.value == Constructed(props)
    ensures w.result.Success? ==> w.users == users + [ToRecord(Constructed(props))]
    ensures w.result.Success? ==> UserWithUsername(users, props.username).None?
    ensures UserWithUsername(users, props.username).Some? && |validate(UserWithUsername(users, props.username).value)| == 0
            ==> w.result == Failure(Error(CreateConflictMessage(props.username)))
    ensures UserWithUsername(users, props.username).None?
            ==> w.result == Success(Constructed(props)) && w.users == users + [ToRecord(Constructed(props))]
    ensures w.result.Success?
            ==> w.statements == [SelectUserByUsername(props.username), InsertUser(ToRecord(Constructed(props)))]
  {
    var lookup := [SelectUserByUsername(props.username)];
    match LoadUser(UserWithUsername(users, props.username), validate)
    case Failure(e) => UserWrite(Failure(e), users, lookup)
    case Success(Some(_)) => UserWrite(Failure(Error(CreateConflictMessage(props.username))), users, lookup)
    case Success(None) =>
      var row := ToRecord(Constructed(props));
      UserWrite(Success(Constructed(props)), users + [row], lookup + [InsertUser(row)])
  }

  /** A taken username always stops CreateUser before it writes. */
  lemma CreateUserRefusesTakenUsername(users: seq<PostgresUser>, validate: PostgresUser -> seq<string>, props: CreateUserProps, i: int)
    requires 0 <= i < |users| && users[i].username == props.username
    ensures CreateUserSpec(users, validate, props).result.Failure?
    ensures CreateUserSpec(users, validate, props).users == users
  {
    FirstFinds(users, (u: PostgresUser) => u.username == props.username, users[i]);
  }

  /** CreateUser never introduces a second row with the same username. */
  lemma CreateUserKeepsUsernamesUnique(users: seq<PostgresUser>, validate: PostgresUser -> seq<string>, props: CreateUserProps)
    requires UniqueUsernames(users)
    ensures UniqueUsernames(CreateUserSpec(users, validate, props).users)
  {
    var w := CreateUserSpec(users, validate, props);
    if w.result.Success? {
      UserWithUsernameNone(users, props.username);
      var row := ToRecord(Constructed(props));
      assert w.users == users + [row];
      forall i, j | 0 <= i < j < |w.users| ensures w.users[i].username != w.users[j].username {
        if j == |users| {
          assert w.users[i] == users[i];
        }
      }
    }
  }

  /** The table after running CreateUser once per element of `requests`, in order. */
  function CreateUsers(users: seq<PostgresUser>, validate: PostgresUser -> seq<string>, requests: seq<CreateUserProps>): (t: seq<PostgresUser>)
    ensures |users| <= |t| <= |users| + |requests|
    ensures t[..|users|] == users
    decreases |requests|
  {
    if |requests| == 0 then users
    else CreateUsers(CreateUserSpec(users, validate, requests[0]).users, validate, requests[1..])
  }

  /** However many users are created one after another, no username appears twice. */
  lemma {:induction false} SequentialCreatesKeepUsernamesUnique(users: seq<PostgresUser>, validate: PostgresUser -> seq<string>, requests: seq<CreateUserProps>)
    requires UniqueUsernames(users)
    ensures UniqueUsernames(CreateUsers(users, validate, requests))
    decreases |requests|
  {
    if |requests| > 0 {
      CreateUserKeepsUsernamesUnique(users, validate, requests[0]);
      SequentialCreatesKeepUsernamesUnique(CreateUserSpec(users, validate, requests[0]).users, validate, requests[1..]);
    }
  }

  /**
   * UpdateUser: load the user by id, refuse if a user with its CURRENT username exists,
   * otherwise apply the patch and insert the patched user.
   */
  function UpdateUserSpec(users: seq<PostgresUser>, validate: PostgresUser -> seq<string>, command: UpdateUserCommand): (w: UserWrite)
    ensures |w.statements| >= 1 && w.statements[0] == SelectUserById(command.id)
    ensures w.result.Failure? ==> w.users == users
    ensures LoadUser(UserWithId(users, command.id), validate) == Success(None)
            ==> w.result == Failure(Error(UpdateNotFoundMessage(command.id))) && w.statements == [SelectUserById(command.id)]
    ensures var found := LoadUser(UserWithId(users, command.id), validate);
            found.Success? && found.value.Some?
            ==> |w.statements| >= 2 && w.statements[1] == SelectUserByUsername(found.value.value.username)
    ensures var found := LoadUser(UserWithId(users, command.id), validate);
            w.result.Success?
            ==> found.Success? && found.value.Some? && w.result.value == Updated(found.value.value, command.userData)
                && w.users == users + [ToRecord(w.result.value)]
  {
    var lookup := [SelectUserById(command.id)];
    match LoadUser(UserWithId(users, command.id), validate)
    case Failure(e) => UserWrite(Failure(e), users, lookup)
    case Success(None) => UserWrite(Failure(Error(UpdateNotFoundMessage(command.id))), users, lookup)
    case Success(Some(found)) =>
      var check := lookup + [SelectUserByUsername(found.username)];
      match LoadUser(UserWithUsername(users, found.username), validate)
      case Failure(e) => UserWrite(Failure(e), users, check)
      case Success(Some(_)) => UserWrite(Failure(Error(UpdateConflictMessage(found.username))), users, check)
      case Success(None) =>
        var patched := Updated(found, command.userData);
        UserWrite(Success(patched), users + [ToRecord(patched)], check + [InsertUser(ToRecord(patched))])
  }

  /**
   * UpdateUser never writes: the user it loads is always found again by its own username,
   * so the conflict check always fires (or the lookup fails first).
   */
  lemma UpdateUserAlwaysFails(users: seq<PostgresUser>, validate: PostgresUser -> seq<string>, command: UpdateUserCommand)
    ensures UpdateUserSpec(users, validate, command).result.Failure?
    ensures UpdateUserSpec(users, validate, command).users == users
  {
    var found := LoadUser(UserWithId(users, command.id), validate);
    if found.Success? && found.value.Some? {
      var row := UserWithId(users, command.id).value;
      assert found.value.value.username == row.username;
      OwnUsernameAlwaysFound(users, command.id);
    }
  }

  /** `r` is the object form of the value-level result `spec`. */
  ghost predicate Yields(r: Result<User, Exception>, spec: Result<UserState, Exception>)
    reads if r.Success? then {r.value} else {}
  {
    match r
    case Failure(e) => spec == Failure(e)
    case Success(u) => spec == Success(u.State())
  }

  class CreateUserInteractor {
    const userRepository: UserRepository

    constructor (userRepository: UserRepository)
      ensures this.userRepository == userRepository
    {
      this.userRepository := userRepository;
    }

    method Execute(props: CreateUserProps) returns (r: Result<User, Exception>)
      modifies userRepository.db
      ensures var w := CreateUserSpec(old(userRepository.db.users), userRepository.validate, props);
              Yields(r, w.result) && userRepository.db.users == w.users
              && userRepository.db.log == old(userRepository.db.log) + w.statements
      ensures userRepository.db.audioCommands == old(userRepository.db.audioCommands)
      ensures userRepository.db.audioData == old(userRepository.db.audioData)
      ensures r.Success? ==> fresh(r.value)
    {
      var conflict := EnsureNoUserConflict(props.username);
      if conflict.Some? {
        return Failure(conflict.value);
      }
      var entity := User.FromData(props);
      var created := userRepository.Create(entity);
      r := Success(created);
    }

    /** The exception `_ensureNoUserConflict` throws, if any. */
    method EnsureNoUserConflict(username: string) returns (thrown: Option<Exception>)
      modifies userRepository.db
      ensures userRepository.db.Contents() == old(userRepository.db.Contents())
      ensures userRepository.db.log == old(userRepository.db.log) + [SelectUserByUsername(username)]
      ensures var found := LoadUser(UserWithUsername(old(userRepository.db.users), username), userRepository.validate);
              (found.Failure? ==> thrown == Some(found.error))
              && (found == Success(None) ==> thrown.None?)
              && (found.Success? && found.value.Some? ==> thrown == Some(Error(CreateConflictMessage(username))))
    {
      var response := userRepository.FindOneByUsername(username);
      if response.Failure? {
        return Some(response.error);
      }
      if response.value.Some? {
        return Some(Error(CreateConflictMessage(username)));
      }
      thrown := None;
    }
  }

  class UpdateUserInteractor {
    const userRepository: UserRepository

    constructor (userRepository: UserRepository)
      ensures this.userRepository == userRepository
    {
      this.userRepository := userRepository;
    }

    method Execute(command: UpdateUserCommand) returns (r: Result<User, Exception>)
      modifies userRepository.db
      ensures var w := UpdateUserSpec(old(userRepository.db.users), userRepository.validate, command);
              Yields(r, w.result) && userRepository.db.users == w.users
              && userRepository.db.log == old(userRepository.db.log) + w.statements
      ensures userRepository.db.audioCommands == old(userRepository.db.audioCommands)
      ensures userRepository.db.audioData == old(userRepository.db.audioData)
    {
      var found := GetUserById(command.id);
      if found.Failure? {
        return Failure(found.error);
      }
      var user := found.value;
      var conflict := EnsureNoUserConflict(user);
      if conflict.Some? {
        return Failure(conflict.value);
      }
      user.Update(command.userData);
      var created := userRepository.Create(user);
      r := Success(created);
    }

    /** `_ensureNoUserConflict(user)`: the exception it throws, if any. */
    method EnsureNoUserConflict(user: User) returns (thrown: Option<Exception>)
      modifies userRepository.db
      ensures userRepository.db.Contents() == old(userRepository.db.Contents())
      ensures userRepository.db.log == old(userRepository.db.log) + [SelectUserByUsername(user.username)]
      ensures var found := LoadUser(UserWithUsername(old(userRepository.db.users), user.username), userRepository.validate);
              (found.Failure? ==> thrown == Some(found.error))
              && (found == Success(None) ==> thrown.None?)
              && (found.Success? && found.value.Some? ==> thrown == Some(Error(UpdateConflictMessage(user.username))))
    {
      var response := userRepository.FindOneByUsername(user.username);
      if response.Failure? {
        return Some(response.error);
      }
      if response.value.Some? {
        return Some(Error(UpdateConflictMessage(user.username)));
      }
      thrown := None;
    }

    /** `_getUserById`: the stored user, or the exception thrown when there is none. */
    method GetUserById(id: string) returns (r: Result<User, Exception>)
      modifies userRepository.db
      ensures userRepository.db.Contents() == old(userRepository.db.Contents())
      ensures userRepository.db.log == old(userRepository.db.log) + [SelectUserById(id)]
      ensures var found := LoadUser(UserWithId(old(userRepository.db.users), id), userRepository.validate);
              (found.Failure? ==> r == Failure(found.error))
              && (found == Success(None) ==> r == Failure(Error(UpdateNotFoundMessage(id))))
              && (found.Success? && found.value.Some? ==> r.Success? && fresh(r.value) && r.value.State() == found.value.value)
    {
      var response := userRepository.FindOneById(id);
      if response.Failure? {
        return Failure(response.error);
      }
      if response.value.None? {
        return Failure(Error(UpdateNotFoundMessage(id)));
      }
      r := Success(response.value.value);
    }
  }
}
