/**
 * The relational store as the repositories see it: three tables kept as row sequences in
 * insertion order, a log of the statements issued against them, and transactions whose
 * rollback restores the tables as they were when the transaction began.
 */
module Database {
  import opened Wrappers
  import opened AudioEntity
  import opened PostgresUserMapper
  import opened PostgresAudioCommandMapper

  datatype Statement =
    | SelectUserById(id: string)
    | SelectUserByUsername(username: string)
    | InsertUser(user: PostgresUser)
    | SelectAudioById(id: string)
    | SelectAudioByName(name: string, txId: string)
    | InsertAudioCommand(command: PostgresAudioCommand, txId: string)
    | InsertAudioData(file: AudioFileData, txId: string)
    | SelectAudioDataById(id: string)
    | BeginTransaction(txId: string)
    | CommitTransaction(txId: string)
    | RollbackTransaction(txId: string)

  /** The `users`, `audio_commands` and `audio_data` tables. */
  datatype Tables = Tables(
    users: seq<PostgresUser>,
    audioCommands: seq<PostgresAudioCommand>,
    audioData: seq<AudioFileData>)

  /** `executeTakeFirst`: the first row, in table order, that satisfies the `where` clause. */
  function First<T>(rows: seq<T>, matches: T -> bool): (r: Option<T>)
    ensures r.Some? ==> r.value in rows && matches(r.value)
  {
    if |rows| == 0 then None
    else if matches(rows[0]) then Some(rows[0])
    else First(rows[1..], matches)
  }

  /** No row matches exactly when `First` finds nothing. */
  lemma {:induction false} FirstNone<T>(rows: seq<T>, matches: T -> bool)
    ensures First(rows, matches).None? <==> forall i :: 0 <= i < |rows| ==> !matches(rows[i])
  {
    if |rows| > 0 {
      FirstNone(rows[1..], matches);
      if !matches(rows[0]) {
        forall i | 0 < i < |rows| ensures rows[i] == rows[1..][i - 1] {}
      }
    }
  }

  /** A query finds something whenever some row matches it. */
  lemma FirstFinds<T>(rows: seq<T>, matches: T -> bool, row: T)
    requires row in rows && matches(row)
    ensures First(rows, matches).Some?
  {
    FirstNone(rows, matches);
    var i :| 0 <= i < |rows| && rows[i] == row;
  }

  /** Appending a row does not change the answer of a query some earlier row already answers. */
  lemma FirstAppend<T>(rows: seq<T>, row: T, matches: T -> bool)
    requires First(rows, matches).Some?
    ensures First(rows + [row], matches) == First(rows, matches)
    decreases |rows|
  {
    if !matches(rows[0]) {
      assert (rows + [row])[1..] == rows[1..] + [row];
      FirstAppend(rows[1..], row, matches);
    }
  }

  function UserWithId(users: seq<PostgresUser>, id: string): (r: Option<PostgresUser>)
    ensures r.Some? ==> r.value in users && r.value.id == id
  {
    First(users, (u: PostgresUser) => u.id == id)
  }

  function UserWithUsername(users: seq<PostgresUser>, username: string): (r: Option<PostgresUser>)
    ensures r.Some? ==> r.value in users && r.value.username == username
  {
    First(users, (u: PostgresUser) => u.username == username)
  }

  function AudioWithId(commands: seq<PostgresAudioCommand>, id: string): (r: Option<PostgresAudioCommand>)
    ensures r.Some? ==> r.value in commands && r.value.id == id
  {
    First(commands, (a: PostgresAudioCommand) => a.id == id)
  }

  function AudioWithName(commands: seq<PostgresAudioCommand>, name: string): (r: Option<PostgresAudioCommand>)
    ensures r.Some? ==> r.value in commands && r.value.name == name
  {
    First(commands, (a: PostgresAudioCommand) => a.name == name)
  }

  function AudioDataWithId(files: seq<AudioFileData>, id: string): (r: Option<AudioFileData>)
    ensures r.Some? ==> r.value in files && r.value.id == id
  {
    First(files, (f: AudioFileData) => f.id == id)
  }

  /** The username lookup finds nothing exactly when no row has that username. */
  lemma UserWithUsernameNone(users: seq<PostgresUser>, username: string)
    ensures UserWithUsername(users, username).None? <==> forall i :: 0 <= i < |users| ==> users[i].username != username
  {
    FirstNone(users, (u: PostgresUser) => u.username == username);
  }

  /** The name lookup finds nothing exactly when no row has that name. */
  lemma AudioWithNameNone(commands: seq<PostgresAudioCommand>, name: string)
    ensures AudioWithName(commands, name).None? <==> forall i :: 0 <= i < |commands| ==> commands[i].name != name
  {
    FirstNone(commands, (a: PostgresAudioCommand) => a.name == name);
  }

  /** The row found by id is always found again by its own username. */
  lemma OwnUsernameAlwaysFound(users: seq<PostgresUser>, id: string)
    requires UserWithId(users, id).Some?
    ensures UserWithUsername(users, UserWithId(users, id).value.username).Some?
  {
    var row := UserWithId(users, id).value;
    FirstFinds(users, (u: PostgresUser) => u.username == row.username, row);
  }

  /** No two rows of the `users` table share a username. */
  ghost predicate UniqueUsernames(users: seq<PostgresUser>) {
    forall i, j :: 0 <= i < j < |users| ==> users[i].username != users[j].username
  }

  /** No two rows of the `audio_commands` table share a name. */
  ghost predicate UniqueAudioNames(commands: seq<PostgresAudioCommand>) {
    forall i, j :: 0 <= i < j < |commands| ==> commands[i].name != commands[j].name
  }

  class Database {
    var users: seq<PostgresUser>
    var audioCommands: seq<PostgresAudioCommand>
    var audioData: seq<AudioFileData>
    var log: seq<Statement>

    function Contents(): Tables
      reads this
    {
      Tables(users, audioCommands, audioData)
    }

    constructor (initial: Tables)
      ensures Contents() == initial && log == []
    {
      users := initial.users;
      audioCommands := initial.audioCommands;
      audioData := initial.audioData;
      log := [];
    }
  }

  /** The domain transaction handle: only its id is visible. */
  datatype Transaction = Transaction(id: string)

  /**
   * `asTransaction` runs a callback between `Begin` and either `Commit` (the callback returned)
   * or `Rollback` (it threw); callers spell out that sequence around their callback's body.
   */
  class TransactionManager {
    const db: Database

    constructor (db: Database)
      ensures this.db == db
    {
      this.db := db;
    }

    /** Opens a transaction with the generated id `txId` and remembers the tables as they are. */
    method Begin(txId: string) returns (tx: Transaction, snapshot: Tables)
      modifies db
      ensures tx.id == txId
      ensures snapshot == old(db.Contents()) && db.Contents() == snapshot
      ensures db.log == old(db.log) + [BeginTransaction(txId)]
    {
      tx := Transaction(txId);
      snapshot := db.Contents();
      db.log := db.log + [BeginTransaction(txId)];
    }

    /** Keeps every write made since `Begin`. */
    method Commit(tx: Transaction)
      modifies db
      ensures db.Contents() == old(db.Contents())
      ensures db.log == old(db.log) + [CommitTransaction(tx.id)]
    {
      db.log := db.log + [CommitTransaction(tx.id)];
    }

    /** Discards every write made since `Begin`, which returned `snapshot`. */
    method Rollback(tx: Transaction, snapshot: Tables)
      modifies db
      ensures db.Contents() == snapshot
      ensures db.log == old(db.log) + [RollbackTransaction(tx.id)]
    {
      db.users := snapshot.users;
      db.audioCommands := snapshot.audioCommands;
      db.audioData := snapshot.audioData;
      db.log := db.log + [RollbackTransaction(tx.id)];
    }
  }
}
