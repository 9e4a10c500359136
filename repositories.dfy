/**
 * The repository ports over the in-memory store. The audio port is the one the interactors and the
 * playback adapter call: `findOneById`, `findOneByName`, `create` and `findDataById`.
 */
module Repositories {
  import opened Wrappers
  import opened Errors
  import opened UserEntity
  import opened AudioEntity
  import opened PostgresUserMapper
  import AudioMapper = PostgresAudioCommandMapper
  import opened Database

  /** What a user lookup yields for the first matching row: nothing, the user, or the mapper's error. */
  function LoadUser(row: Option<PostgresUser>, validate: PostgresUser -> seq<string>): (r: Result<Option<UserState>, Exception>)
    ensures row.None? ==> r == Success(None)
    ensures row.Some? && |validate(row.value)| == 0 ==> r.Success? && r.value.Some? && ToRecord(r.value.value) == row.value
    ensures row.Some? && |validate(row.value)| > 0 ==> r.Failure?
  {
    match row
    case None => Success(None)
    case Some(doc) =>
      match ToEntity(doc, validate(doc))
      case Success(u) => Success(Some(u))
      case Failure(e) => Failure(e)
  }

  /** What an audio lookup yields for the first matching row. */
  function LoadAudio(row: Option<AudioMapper.PostgresAudioCommand>, validate: AudioMapper.PostgresAudioCommand -> seq<string>): (r: Result<Option<AudioData>, Exception>)
    ensures row.None? ==> r == Success(None)
    ensures row.Some? && |validate(row.value)| == 0 ==> r == Success(Some(AudioMapper.ToAudioAttributes(row.value)))
    ensures row.Some? && |validate(row.value)| > 0 ==> r.Failure?
  {
    match row
    case None => Success(None)
    case Some(doc) =>
      match AudioMapper.ToEntity(doc, validate(doc))
      case Success(a) => Success(Some(a))
      case Failure(e) => Failure(e)
  }

  /** `r` is the object form of the value-level outcome `spec`. */
  ghost predicate UserOutcome(r: Result<Option<User>, Exception>, spec: Result<Option<UserState>, Exception>)
    reads if r.Success? && r.value.Some? then {r.value.value} else {}
  {
    match r
    case Failure(e) => spec == Failure(e)
    case Success(None) => spec == Success(None)
    case Success(Some(u)) => spec == Success(Some(u.State()))
  }

  ghost predicate AudioOutcome(r: Result<Option<Audio>, Exception>, spec: Result<Option<AudioData>, Exception>)
    reads if r.Success? && r.value.Some? then {r.value.value} else {}
  {
    match r
    case Failure(e) => spec == Failure(e)
    case Success(None) => spec == Success(None)
    case Success(Some(a)) => spec == Success(Some(a.Data()))
  }

  class UserRepository {
    const db: Database
    /** The validator's findings for a row read back from the table. */
    const validate: PostgresUser -> seq<string>

    constructor (db: Database, validate: PostgresUser -> seq<string>)
      ensures this.db == db && this.validate == validate
    {
      this.db := db;
      this.validate := validate;
    }

    /** Turns the first matching row, if any, into a fresh User. */
    method Materialize(row: Option<PostgresUser>) returns (r: Result<Option<User>, Exception>)
      ensures UserOutcome(r, LoadUser(row, validate))
      ensures r.Success? && r.value.Some? ==> fresh(r.value.value)
    {
      if row.None? {
        return Success(None);
      }
      var entity := ToEntity(row.value, validate(row.value));
      if entity.Failure? {
        return Failure(entity.error);
      }
      var user := User.FromData(ToUserAttributes(row.value));
      return Success(Some(user));
    }

    method FindOneById(id: string) returns (r: Result<Option<User>, Exception>)
      modifies db
      ensures db.Contents() == old(db.Contents())
      ensures db.log == old(db.log) + [SelectUserById(id)]
      ensures UserOutcome(r, LoadUser(UserWithId(old(db.users), id), validate))
      ensures r.Success? && r.value.Some? ==> fresh(r.value.value)
    {
      db.log := db.log + [SelectUserById(id)];
      r := Materialize(UserWithId(db.users, id));
    }

    method FindOneByUsername(username: string) returns (r: Result<Option<User>, Exception>)
      modifies db
      ensures db.Contents() == old(db.Contents())
      ensures db.log == old(db.log) + [SelectUserByUsername(username)]
      ensures UserOutcome(r, LoadUser(UserWithUsername(old(db.users), username), validate))
      ensures r.Success? && r.value.Some? ==> fresh(r.value.value)
    {
      db.log := db.log + [SelectUserByUsername(username)];
      r := Materialize(UserWithUsername(db.users, username));
    }

    /** Inserts the user's row and returns the same user object. */
    method Create(user: User) returns (r: User)
      modifies db
      ensures r == user
      ensures db.users == old(db.users) + [ToRecord(user.State())]
      ensures db.audioCommands == old(db.audioCommands) && db.audioData == old(db.audioData)
      ensures db.log == old(db.log) + [InsertUser(ToRecord(user.State()))]
    {
      var row := ToRecord(user.State());
      db.users := db.users + [row];
      db.log := db.log + [InsertUser(row)];
      r := user;
    }
  }

  /** How the two inserts of `create` go: both succeed, or the driver fails one of them. */
  datatype InsertFault = NoFault | CommandInsertFails(message: string) | DataInsertFails(message: string)

  class AudioRepository {
    const db: Database
    const validate: AudioMapper.PostgresAudioCommand -> seq<string>

    constructor (db: Database, validate: AudioMapper.PostgresAudioCommand -> seq<string>)
      ensures this.db == db && this.validate == validate
    {
      this.db := db;
      this.validate := validate;
    }

    method Materialize(row: Option<AudioMapper.PostgresAudioCommand>) returns (r: Result<Option<Audio>, Exception>)
      ensures AudioOutcome(r, LoadAudio(row, validate))
      ensures r.Success? && r.value.Some? ==> fresh(r.value.value)
    {
      if row.None? {
        return Success(None);
      }
      var entity := AudioMapper.ToEntity(row.value, validate(row.value));
      if entity.Failure? {
        return Failure(entity.error);
      }
      var audio := Audio.FromData(entity.value);
      return Success(Some(audio));
    }

    method FindOneById(id: string) returns (r: Result<Option<Audio>, Exception>)
      modifies db
      ensures db.Contents() == old(db.Contents())
      ensures db.log == old(db.log) + [SelectAudioById(id)]
      ensures AudioOutcome(r, LoadAudio(AudioWithId(old(db.audioCommands), id), validate))
      ensures r.Success? && r.value.Some? ==> fresh(r.value.value)
    {
      db.log := db.log + [SelectAudioById(id)];
      r := Materialize(AudioWithId(db.audioCommands, id));
    }

    method FindOneByName(name: string, tx: Transaction) returns (r: Result<Option<Audio>, Exception>)
      modifies db
      ensures db.Contents() == old(db.Contents())
      ensures db.log == old(db.log) + [SelectAudioByName(name, tx.id)]
      ensures AudioOutcome(r, LoadAudio(AudioWithName(old(db.audioCommands), name), validate))
      ensures r.Success? && r.value.Some? ==> fresh(r.value.value)
    {
      db.log := db.log + [SelectAudioByName(name, tx.id)];
      r := Materialize(AudioWithName(db.audioCommands, name));
    }

    /**
     * Inserts the command's metadata row, then its sound, both in `tx`, and returns the same object.
     * A failing insert leaves the rows written before it in place: undoing them is the transaction's job.
     */
    method Create(audio: Audio, file: seq<byte>, tx: Transaction, fault: InsertFault) returns (r: Result<Audio, Exception>)
      modifies db
      ensures db.users == old(db.users)
      ensures fault.NoFault? ==> r == Success(audio)
      ensures !fault.NoFault? ==> r == Failure(Error(fault.message))
      ensures db.audioCommands == old(db.audioCommands) + (if fault.CommandInsertFails? then [] else [AudioMapper.ToRecord(audio.Data())])
      ensures db.audioData == old(db.audioData) + (if fault.NoFault? then [AudioFileData(audio.id, file)] else [])
      ensures db.log == old(db.log) + [InsertAudioCommand(AudioMapper.ToRecord(audio.Data()), tx.id)]
                                    + (if fault.CommandInsertFails? then [] else [InsertAudioData(AudioFileData(audio.id, file), tx.id)])
    {
      var row := AudioMapper.ToRecord(audio.Data());
      db.log := db.log + [InsertAudioCommand(row, tx.id)];
      if fault.CommandInsertFails? {
        return Failure(Error(fault.message));
      }
      db.audioCommands := db.audioCommands + [row];
      var file := AudioFileData(audio.id, file);
      db.log := db.log + [InsertAudioData(file, tx.id)];
      if fault.DataInsertFails? {
        return Failure(Error(fault.message));
      }
      db.audioData := db.audioData + [file];
      r := Success(audio);
    }

    /** The stored sound of the audio command `id`, if any. */
    method FindDataById(id: string) returns (r: Option<AudioFileData>)
      modifies db
      ensures db.Contents() == old(db.Contents())
      ensures db.log == old(db.log) + [SelectAudioDataById(id)]
      ensures r == AudioDataWithId(old(db.audioData), id)
    {
      db.log := db.log + [SelectAudioDataById(id)];
      r := AudioDataWithId(db.audioData, id);
    }
  }
}
