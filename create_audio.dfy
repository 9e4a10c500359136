/**
 * The CreateAudio use case: inside one transaction, refuse a taken name, then store the
 * metadata and the sound. Any failure rolls both tables back to where they were.
 */
module CreateAudio {
  import opened Wrappers
  import opened Errors
  import opened AudioEntity
  import opened PostgresAudioCommandMapper
  import opened Database
  import opened Repositories

  datatype CreateAudioCommand = CreateAudioCommand(audioProps: CreateAudioProps, audioFile: seq<byte>)

  /** The creator recorded on every uploaded audio command, whatever the command says. */
  const CreatedBy := "127289675021811712"

  function NameConflictMessage(name: string): string {
    "An audio command already exists with the name: " + name
  }

  datatype AudioWrite = AudioWrite(result: Result<AudioData, Exception>, tables: Tables, statements: seq<Statement>)

  /** The metadata the command is stored under: its name and format, the file's size, the fixed creator. */
  function StoredAudio(command: CreateAudioCommand, newId: string, now: Timestamp): (d: AudioData)
    ensures d.name == command.audioProps.name && d.format == command.audioProps.format
    ensures d.size == |command.audioFile| && d.createdBy == CreatedBy
    ensures d.id == newId && d.createdAt == now && d.updatedAt == now
  {
    NewAudioData(CreateAudioProps(command.audioProps.name, command.audioProps.format, |command.audioFile|, CreatedBy), newId, now)
  }

  /** The transaction callback: the name check, then the two inserts, all in `tx`; no commit or rollback. */
  function CreateInTransaction(t: Tables, validate: PostgresAudioCommand -> seq<string>, command: CreateAudioCommand,
                               tx: Transaction, newId: string, now: Timestamp, fault: InsertFault): (w: AudioWrite)
    ensures |w.statements| >= 1 && w.statements[0] == SelectAudioByName(command.audioProps.name, tx.id)
    ensures w.tables.users == t.users
    ensures w.result.Success? ==> w.result.value == StoredAudio(command, newId, now)
  {
    var name := command.audioProps.name;
    var check := [SelectAudioByName(name, tx.id)];
    match LoadAudio(AudioWithName(t.audioCommands, name), validate)
    case Failure(e) => AudioWrite(Failure(e), t, check)
    case Success(Some(_)) => AudioWrite(Failure(ConflictException(NameConflictMessage(name))), t, check)
    case Success(None) =>
      var data := StoredAudio(command, newId, now);
      var row := ToRecord(data);
      var file := AudioFileData(newId, command.audioFile);
      match fault
      case CommandInsertFails(message) =>
        AudioWrite(Failure(Error(message)), t, check + [InsertAudioCommand(row, tx.id)])
      case DataInsertFails(message) =>
        AudioWrite(Failure(Error(message)), t.(audioCommands := t.audioCommands + [row]),
                   check + [InsertAudioCommand(row, tx.id), InsertAudioData(file, tx.id)])
      case NoFault =>
        AudioWrite(Success(data), t.(audioCommands := t.audioCommands + [row], audioData := t.audioData + [file]),
                   check + [InsertAudioCommand(row, tx.id), InsertAudioData(file, tx.id)])
  }

  /** `s` is issued inside the transaction `txId`. */
  predicate InTransaction(s: Statement, txId: string) {
    match s
    case BeginTransaction(id) => id == txId
    case SelectAudioByName(_, id) => id == txId
    case InsertAudioCommand(_, id) => id == txId
    case InsertAudioData(_, id) => id == txId
    case CommitTransaction(id) => id == txId
    case RollbackTransaction(id) => id == txId
    case _ => false
  }

  /** The whole `execute`: the callback between begin and commit, or begin and rollback. */
  function CreateAudioSpec(t: Tables, validate: PostgresAudioCommand -> seq<string>, command: CreateAudioCommand,
                           txId: string, newId: string, now: Timestamp, fault: InsertFault): (w: AudioWrite)
    ensures |w.statements| >= 3
    ensures w.statements[0] == BeginTransaction(txId)
    ensures w.statements[1] == SelectAudioByName(command.audioProps.name, txId)
    ensures forall i :: 0 <= i < |w.statements| ==> InTransaction(w.statements[i], txId)
    ensures w.result.Failure? ==> w.tables == t && w.statements[|w.statements| - 1] == RollbackTransaction(txId)
    ensures w.result.Success? ==> w.statements[|w.statements| - 1] == CommitTransaction(txId)
    ensures w.result.Success? ==> w.result.value == StoredAudio(command, newId, now)
    ensures w.result.Success? ==> w.tables == Tables(t.users, t.audioCommands + [ToRecord(w.result.value)],
                                                     t.audioData + [AudioFileData(newId, command.audioFile)])
    ensures w.result.Success? <==> AudioWithName(t.audioCommands, command.audioProps.name).None? && fault.NoFault?
  {
    var inner := CreateInTransaction(t, validate, command, Transaction(txId), newId, now, fault);
    if inner.result.Failure? then
      AudioWrite(inner.result, t, [BeginTransaction(txId)] + inner.statements + [RollbackTransaction(txId)])
    else
      AudioWrite(inner.result, inner.tables, [BeginTransaction(txId)] + inner.statements + [CommitTransaction(txId)])
  }

  /** A taken name is refused with a ConflictException, before any insert, and nothing is stored. */
  lemma CreateAudioRefusesTakenName(t: Tables, validate: PostgresAudioCommand -> seq<string>, command: CreateAudioCommand,
                                    txId: string, newId: string, now: Timestamp, fault: InsertFault, i: int)
    requires 0 <= i < |t.audioCommands| && t.audioCommands[i].name == command.audioProps.name
    requires forall j :: 0 <= j < |t.audioCommands| ==> |validate(t.audioCommands[j])| == 0
    ensures var w := CreateAudioSpec(t, validate, command, txId, newId, now, fault);
            w.result == Failure(ConflictException(NameConflictMessage(command.audioProps.name)))
            && w.tables == t
            && forall j :: 0 <= j < |w.statements| ==> !w.statements[j].InsertAudioCommand? && !w.statements[j].InsertAudioData?
  {
    FirstFinds(t.audioCommands, (a: PostgresAudioCommand) => a.name == command.audioProps.name, t.audioCommands[i]);
  }

  /** CreateAudio never introduces a second audio command with the same name. */
  lemma CreateAudioKeepsNamesUnique(t: Tables, validate: PostgresAudioCommand -> seq<string>, command: CreateAudioCommand,
                                    txId: string, newId: string, now: Timestamp, fault: InsertFault)
    requires UniqueAudioNames(t.audioCommands)
    ensures UniqueAudioNames(CreateAudioSpec(t, validate, command, txId, newId, now, fault).tables.audioCommands)
  {
    var w := CreateAudioSpec(t, validate, command, txId, newId, now, fault);
    if w.result.Success? {
      AudioWithNameNone(t.audioCommands, command.audioProps.name);
      var rows := w.tables.audioCommands;
      forall i, j | 0 <= i < j < |rows| ensures rows[i].name != rows[j].name {
        if j == |t.audioCommands| {
          assert rows[i] == t.audioCommands[i];
        }
      }
    }
  }

  /** `r` is the object form of the value-level result `spec`. */
  ghost predicate Yields(r: Result<Audio, Exception>, spec: Result<AudioData, Exception>)
    reads if r.Success? then {r.value} else {}
  {
    match r
    case Failure(e) => spec == Failure(e)
    case Success(a) => spec == Success(a.Data())
  }

  class CreateAudioInteractor {
    const audioRepository: AudioRepository
    const transactionManager: TransactionManager

    constructor (audioRepository: AudioRepository, transactionManager: TransactionManager)
      ensures this.audioRepository == audioRepository && this.transactionManager == transactionManager
    {
      this.audioRepository := audioRepository;
      this.transactionManager := transactionManager;
    }

    /**
     * `txId` is the transaction's generated id, `newId` the new command's generated id, `now` the
     * clock, and `fault` how the driver answers the two inserts.
     */
    method Execute(command: CreateAudioCommand, txId: string, newId: string, now: Timestamp, fault: InsertFault)
      returns (r: Result<Audio, Exception>)
      requires transactionManager.db == audioRepository.db
      modifies audioRepository.db
      ensures var w := CreateAudioSpec(old(audioRepository.db.Contents()), audioRepository.validate, command, txId, newId, now, fault);
              Yields(r, w.result) && audioRepository.db.Contents() == w.tables
              && audioRepository.db.log == old(audioRepository.db.log) + w.statements
      ensures r.Success? ==> fresh(r.value)
    {
      var tx, snapshot := transactionManager.Begin(txId);
      var result := InTransaction(command, tx, newId, now, fault);
      if result.Failure? {
        transactionManager.Rollback(tx, snapshot);
      } else {
        transactionManager.Commit(tx);
      }
      r := result;
    }

    /** The callback `execute` hands to `asTransaction`. */
    method InTransaction(command: CreateAudioCommand, tx: Transaction, newId: string, now: Timestamp, fault: InsertFault)
      returns (r: Result<Audio, Exception>)
      modifies audioRepository.db
      ensures var w := CreateInTransaction(old(audioRepository.db.Contents()), audioRepository.validate, command, tx, newId, now, fault);
              Yields(r, w.result) && audioRepository.db.Contents() == w.tables
              && audioRepository.db.log == old(audioRepository.db.log) + w.statements
      ensures r.Success? ==> fresh(r.value)
    {
      var conflict := EnsureNameIsUnique(command.audioProps.name, tx);
      if conflict.Some? {
        return Failure(conflict.value);
      }
      var audioFileSize := |command.audioFile|;
      var createdBy := CreatedBy;
      var createAudioProps := CreateAudioProps(command.audioProps.name, command.audioProps.format, audioFileSize, createdBy);
      var audioEntity := Audio.Create(createAudioProps, newId, now);
      r := audioRepository.Create(audioEntity, command.audioFile, tx, fault);
    }

    /** `_ensureNameIsUnique`: the exception it throws, if any. */
    method EnsureNameIsUnique(audioName: string, tx: Transaction) returns (thrown: Option<Exception>)
      modifies audioRepository.db
      ensures audioRepository.db.Contents() == old(audioRepository.db.Contents())
      ensures audioRepository.db.log == old(audioRepository.db.log) + [SelectAudioByName(audioName, tx.id)]
      ensures var found := LoadAudio(AudioWithName(old(audioRepository.db.audioCommands), audioName), audioRepository.validate);
              (found.Failure? ==> thrown == Some(found.error))
              && (found == Success(None) ==> thrown.None?)
              && (found.Success? && found.value.Some? ==> thrown == Some(ConflictException(NameConflictMessage(audioName))))
    {
      var existing := audioRepository.FindOneByName(audioName, tx);
      if existing.Failure? {
        return Some(existing.error);
      }
      if existing.value.Some? {
        return Some(ConflictException(NameConflictMessage(audioName)));
      }
      thrown := None;
    }
  }
}
