/**
 * AudioService: fetch an audio command, upload one, or ask for one to be played. Every failure
 * it lets out is an internal server error, including "not found".
 */
module AudioService {
  import opened Wrappers
  import opened Errors
  import opened AudioEntity
  import opened PostgresAudioCommandMapper
  import opened Database
  import opened Repositories
  import opened CreateAudio
  import opened Events

  function AudioNotFoundMessage(id: string): string {
    "Failed to find the audio command with ID: " + id
  }

  function FetchFailedMessage(id: string): string {
    "An unknown error occurred while fetching audio command with ID: " + id
  }

  function CreateFailedMessage(name: string): string {
    "An unknown error occurred while creating audio command: " + name
  }

  /** The body of `_getAudio`'s `try`: the found audio, or the exception it throws. */
  function TryGetAudio(found: Result<Option<AudioData>, Exception>, id: string): (r: Result<AudioData, Exception>)
    ensures found == Success(None) ==> r == Failure(NotFoundException(AudioNotFoundMessage(id)))
    ensures found.Failure? ==> r == Failure(found.error)
    ensures r.Success? <==> found.Success? && found.value.Some?
    ensures r.Success? ==> r.value == found.value.value
  {
    match found
    case Failure(e) => Failure(e)
    case Success(None) => Failure(NotFoundException(AudioNotFoundMessage(id)))
    case Success(Some(audio)) => Success(audio)
  }

  /** `_getAudio`: what the `try` produced, with anything thrown replaced by an internal error. */
  function GetAudioOutcome(found: Result<Option<AudioData>, Exception>, id: string): (r: Result<AudioData, Exception>)
    ensures r.Success? <==> found.Success? && found.value.Some?
    ensures r.Success? ==> r.value == found.value.value
    ensures r.Failure? ==> r.error == InternalServerErrorException(FetchFailedMessage(id))
  {
    match TryGetAudio(found, id)
    case Success(audio) => Success(audio)
    case Failure(_) => Failure(InternalServerErrorException(FetchFailedMessage(id)))
  }

  /** A missing audio command is reported as an internal error, never as "not found". */
  lemma MissingAudioIsInternalError(id: string)
    ensures TryGetAudio(Success(None), id).error.NotFoundException?
    ensures GetAudioOutcome(Success(None), id) == Failure(InternalServerErrorException(FetchFailedMessage(id)))
  {
  }

  /** `createAudio`: the interactor's result, with any failure replaced by an internal error. */
  function CreateAudioOutcome(created: Result<AudioData, Exception>, name: string): (r: Result<AudioData, Exception>)
    ensures r.Success? <==> created.Success?
    ensures r.Success? ==> r == created
    ensures r.Failure? ==> r.error == InternalServerErrorException(CreateFailedMessage(name))
  {
    if created.Failure? then Failure(InternalServerErrorException(CreateFailedMessage(name))) else created
  }

  /** Even a name conflict reaches the caller as an internal error. */
  lemma NameConflictIsInternalError(t: Tables, validate: PostgresAudioCommand -> seq<string>, command: CreateAudioCommand,
                                    txId: string, newId: string, now: Timestamp, fault: InsertFault, i: int)
    requires 0 <= i < |t.audioCommands| && t.audioCommands[i].name == command.audioProps.name
    ensures CreateAudioOutcome(CreateAudioSpec(t, validate, command, txId, newId, now, fault).result, command.audioProps.name)
            == Failure(InternalServerErrorException(CreateFailedMessage(command.audioProps.name)))
  {
    FirstFinds(t.audioCommands, (a: PostgresAudioCommand) => a.name == command.audioProps.name, t.audioCommands[i]);
  }

  class AudioService {
    /** The repository behind the get-audio interactor, which only forwards to `findOneById`. */
    const audioRepository: AudioRepository
    const createAudio: CreateAudioInteractor
    const eventBus: EventBus

    constructor (audioRepository: AudioRepository, createAudio: CreateAudioInteractor, eventBus: EventBus)
      ensures this.audioRepository == audioRepository && this.createAudio == createAudio && this.eventBus == eventBus
    {
      this.audioRepository := audioRepository;
      this.createAudio := createAudio;
      this.eventBus := eventBus;
    }

    /** The service's repository is the create interactor's, and its transactions run on the same database. */
    predicate Wired() {
      createAudio.audioRepository == audioRepository && createAudio.transactionManager.db == audioRepository.db
    }

    method GetAudio(id: string) returns (r: Result<Audio, Exception>)
      modifies audioRepository.db
      ensures audioRepository.db.Contents() == old(audioRepository.db.Contents())
      ensures audioRepository.db.log == old(audioRepository.db.log) + [SelectAudioById(id)]
      ensures Yields(r, GetAudioOutcome(LoadAudio(AudioWithId(old(audioRepository.db.audioCommands), id), audioRepository.validate), id))
    {
      r := FetchAudio(id);
    }

    /** `_getAudio`. */
    method FetchAudio(id: string) returns (r: Result<Audio, Exception>)
      modifies audioRepository.db
      ensures audioRepository.db.Contents() == old(audioRepository.db.Contents())
      ensures audioRepository.db.log == old(audioRepository.db.log) + [SelectAudioById(id)]
      ensures Yields(r, GetAudioOutcome(LoadAudio(AudioWithId(old(audioRepository.db.audioCommands), id), audioRepository.validate), id))
    {
      var attempt: Result<Audio, Exception>;
      var found := audioRepository.FindOneById(id);
      if found.Failure? {
        attempt := Failure(found.error);
      } else if found.value.None? {
        attempt := Failure(NotFoundException(AudioNotFoundMessage(id)));
      } else {
        attempt := Success(found.value.value);
      }
      if attempt.Failure? {
        return Failure(InternalServerErrorException(FetchFailedMessage(id)));
      }
      r := attempt;
    }

    method CreateAudio(command: CreateAudioCommand, txId: string, newId: string, now: Timestamp, fault: InsertFault)
      returns (r: Result<Audio, Exception>)
      requires Wired()
      modifies createAudio.audioRepository.db
      ensures var w := CreateAudioSpec(old(createAudio.audioRepository.db.Contents()), createAudio.audioRepository.validate,
                                       command, txId, newId, now, fault);
              Yields(r, CreateAudioOutcome(w.result, command.audioProps.name))
              && createAudio.audioRepository.db.Contents() == w.tables
              && createAudio.audioRepository.db.log == old(createAudio.audioRepository.db.log) + w.statements
    {
      var created := createAudio.Execute(command, txId, newId, now, fault);
      if created.Failure? {
        return Failure(InternalServerErrorException(CreateFailedMessage(command.audioProps.name)));
      }
      r := created;
    }

    /** Publishes one play request when the audio command can be fetched, nothing otherwise. */
    method PlayAudio(id: string, channelId: string, userId: string, volume: int, now: Timestamp)
      returns (r: Result<(), Exception>)
      modifies audioRepository.db, eventBus
      ensures audioRepository.db.Contents() == old(audioRepository.db.Contents())
      ensures var fetched := GetAudioOutcome(LoadAudio(AudioWithId(old(audioRepository.db.audioCommands), id), audioRepository.validate), id);
              fetched.Failure? ==> r == Failure(fetched.error) && eventBus.published == old(eventBus.published)
      ensures var fetched := GetAudioOutcome(LoadAudio(AudioWithId(old(audioRepository.db.audioCommands), id), audioRepository.validate), id);
              var request := AudioPlayRequestedPayload(id, Some(volume), channelId, userId, now);
              fetched.Success? ==> r == Success(()) && eventBus.published == old(eventBus.published) + [PlayRequested(request)]
    {
      var fetched := FetchAudio(id);
      if fetched.Failure? {
        return Failure(fetched.error);
      }
      var payload := AudioPlayRequestedPayload(id, Some(volume), channelId, userId, now);
      eventBus.Publish(PlayRequested(payload));
      r := Success(());
    }
  }
}
