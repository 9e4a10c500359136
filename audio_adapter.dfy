/**
 * The Discord playback adapter: on each play request it loads the sound, stops whatever it was
 * playing, joins the voice channel, plays, and reports the end of playback. The voice SDK is
 * represented by connection and player objects and a trace of the calls made on them.
 */
module DiscordAudioAdapter {
  import opened Wrappers
  import opened AudioEntity
  import opened Database
  import opened Repositories
  import opened Events

  /** `userVolume` when the payload carries none. */
  const DefaultVolume := 100

  /** A call into the voice SDK, or an error logged by the adapter. */
  datatype Action =
    | StopPlayer
    | DestroyConnection(channelId: string)
    | JoinVoiceChannel(channelId: string)
    | CreatePlayer
    | SetVolume(percent: int)
    | Subscribe(channelId: string)
    | Play(size: nat)
    | LogError(message: string)

  /** How the player's playback ends: it goes idle, or emits an error. */
  datatype PlaybackOutcome = FinishedIdle | PlayerError(message: string)

  class VoiceConnection {
    const channelId: string
    var destroyed: bool

    constructor (channelId: string)
      ensures this.channelId == channelId && !destroyed
    {
      this.channelId := channelId;
      destroyed := false;
    }
  }

  class AudioPlayer {
    var playing: bool

    constructor ()
      ensures !playing
    {
      playing := false;
    }
  }

  function AudioDataMissingMessage(audioId: string): string {
    "Audio data not found for ID: " + audioId
  }

  function NotVoiceChannelMessage(channelId: string): string {
    "Channel " + channelId + " is not a regular voice channel"
  }

  function PlaybackErrorMessage(message: string): string {
    "Error playing audio: " + message
  }

  /** What `_stopCurrentPlayback` does to a session holding a player or not, and a live connection or not. */
  function StopActions(hadPlayer: bool, liveConnection: Option<string>): (actions: seq<Action>)
    ensures |actions| <= 2
    ensures StopPlayer in actions <==> hadPlayer
    ensures liveConnection.Some? <==> DestroyConnection(liveConnection.GetOr("")) in actions
  {
    (if hadPlayer then [StopPlayer] else [])
    + (if liveConnection.Some? then [DestroyConnection(liveConnection.value)] else [])
  }

  /** The SDK calls `_playAudioInChannel` makes, in order. */
  function PlayActions(channelId: string, volume: int, size: nat): seq<Action> {
    [JoinVoiceChannel(channelId), CreatePlayer, SetVolume(volume), Subscribe(channelId), Play(size)]
  }

  /** The PLAY_FINISHED payload for a request: its fields copied, duration 0, the current time. */
  function FinishedPayload(request: AudioPlayRequestedPayload, now: Timestamp): (p: AudioPlayFinishedPayload)
    ensures p.audioId == request.audioId && p.volume == request.volume
    ensures p.channelId == request.channelId && p.userId == request.userId
    ensures p.duration == 0 && p.timestamp == now
  {
    AudioPlayFinishedPayload(request.audioId, request.volume, request.channelId, request.userId, 0, now)
  }

  class DiscordAudioAdapter {
    const audioRepository: AudioRepository
    const eventBus: EventBus
    var currentPlayer: AudioPlayer?
    var currentConnection: VoiceConnection?
    /** The SDK calls and logged errors, oldest first. */
    var trace: seq<Action>

    constructor (audioRepository: AudioRepository, eventBus: EventBus)
      ensures this.audioRepository == audioRepository && this.eventBus == eventBus
      ensures currentPlayer == null && currentConnection == null && trace == []
    {
      this.audioRepository := audioRepository;
      this.eventBus := eventBus;
      currentPlayer := null;
      currentConnection := null;
      trace := [];
    }

    /** `_fetchAudioData`: the stored sound, or nothing and a logged error. */
    method FetchAudioData(audioId: string) returns (data: Option<seq<byte>>)
      modifies this, audioRepository.db
      ensures audioRepository.db.Contents() == old(audioRepository.db.Contents())
      ensures currentPlayer == old(currentPlayer) && currentConnection == old(currentConnection)
      ensures var stored := AudioDataWithId(old(audioRepository.db.audioData), audioId);
              (stored.None? ==> data.None? && trace == old(trace) + [LogError(AudioDataMissingMessage(audioId))])
              && (stored.Some? ==> data == Some(stored.value.data) && trace == old(trace))
    {
      var audioData := audioRepository.FindDataById(audioId);
      if audioData.None? {
        trace := trace + [LogError(AudioDataMissingMessage(audioId))];
        return None;
      }
      data := Some(audioData.value.data);
    }

    /** `_getVoiceChannel`: whether `channelId` is a regular voice channel among `voiceChannels`. */
    method GetVoiceChannel(channelId: string, voiceChannels: set<string>) returns (isVoice: bool)
      modifies this
      ensures isVoice <==> channelId in voiceChannels
      ensures currentPlayer == old(currentPlayer) && currentConnection == old(currentConnection)
      ensures trace == old(trace) + (if isVoice then [] else [LogError(NotVoiceChannelMessage(channelId))])
    {
      if channelId !in voiceChannels {
        trace := trace + [LogError(NotVoiceChannelMessage(channelId))];
        return false;
      }
      isVoice := true;
    }

    /** `_stopCurrentPlayback`: stop the player, destroy a connection not yet destroyed, forget both. */
    method StopCurrentPlayback()
      modifies this, currentPlayer, currentConnection
      ensures currentPlayer == null && currentConnection == null
      ensures old(currentPlayer) != null ==> !old(currentPlayer).playing
      ensures old(currentConnection) != null ==> old(currentConnection).destroyed
      ensures trace == old(trace) + StopActions(old(currentPlayer) != null,
                                                if old(currentConnection) != null && !old(currentConnection.destroyed)
                                                then Some(old(currentConnection.channelId)) else None)
    {
      if currentPlayer != null {
        currentPlayer.playing := false;
        trace := trace + [StopPlayer];
      }
      if currentConnection != null && !currentConnection.destroyed {
        currentConnection.destroyed := true;
        trace := trace + [DestroyConnection(currentConnection.channelId)];
      }
      currentPlayer := null;
      currentConnection := null;
    }

    /** `_playAudioInChannel` up to `play`: join, create the player, set the volume, subscribe, play. */
    method PlayAudioInChannel(channelId: string, audio: seq<byte>, volume: int)
      returns (connection: VoiceConnection, player: AudioPlayer)
      modifies this
      ensures fresh(connection) && fresh(player)
      ensures currentConnection == connection && currentPlayer == player
      ensures connection.channelId == channelId && !connection.destroyed && player.playing
      ensures trace == old(trace) + PlayActions(channelId, volume, |audio|)
    {
      connection := new VoiceConnection(channelId);
      trace := trace + [JoinVoiceChannel(channelId)];
      currentConnection := connection;
      player := new AudioPlayer();
      trace := trace + [CreatePlayer];
      currentPlayer := player;
      trace := trace + [SetVolume(volume)];
      trace := trace + [Subscribe(channelId)];
      player.playing := true;
      trace := trace + [Play(|audio|)];
    }

    /**
     * Awaiting `_createPlaybackCompletionPromise`: whichever way playback ends, the connection is
     * destroyed; an error rejects with the player's message. The session fields are left as they are.
     */
    method AwaitPlaybackCompletion(connection: VoiceConnection, player: AudioPlayer, outcome: PlaybackOutcome)
      returns (r: Result<(), string>)
      modifies this, connection, player
      ensures connection.destroyed && !player.playing
      ensures currentPlayer == old(currentPlayer) && currentConnection == old(currentConnection)
      ensures trace == old(trace) + [DestroyConnection(connection.channelId)]
      ensures outcome.FinishedIdle? ==> r == Success(())
      ensures outcome.PlayerError? ==> r == Failure(outcome.message)
    {
      player.playing := false;
      connection.destroyed := true;
      trace := trace + [DestroyConnection(connection.channelId)];
      match outcome
      case FinishedIdle => r := Success(());
      case PlayerError(message) => r := Failure(message);
    }

    /** `_publishPlaybackCompletedEvent`. */
    method PublishPlaybackCompletedEvent(originalPayload: AudioPlayRequestedPayload, now: Timestamp)
      modifies eventBus
      ensures eventBus.published == old(eventBus.published) + [PlayFinished(FinishedPayload(originalPayload, now))]
    {
      var finishedPayload := AudioPlayFinishedPayload(originalPayload.audioId, originalPayload.volume,
                                                      originalPayload.channelId, originalPayload.userId, 0, now);
      eventBus.Publish(PlayFinished(finishedPayload));
    }

    /**
     * `_handleAudioPlayRequest`, through to the end of playback. `voiceChannels` are the channel ids
     * the client knows as regular voice channels, `outcome` how playback ends, `now` the clock.
     */
    method HandleAudioPlayRequest(payload: AudioPlayRequestedPayload, voiceChannels: set<string>,
                                  outcome: PlaybackOutcome, now: Timestamp)
      modifies this, audioRepository.db, eventBus, currentPlayer, currentConnection
      ensures audioRepository.db.Contents() == old(audioRepository.db.Contents())
      ensures var stored := AudioDataWithId(old(audioRepository.db.audioData), payload.audioId);
              stored.None? ==> trace == old(trace) + [LogError(AudioDataMissingMessage(payload.audioId))]
                               && currentPlayer == old(currentPlayer) && currentConnection == old(currentConnection)
                               && eventBus.published == old(eventBus.published)
      ensures var stored := AudioDataWithId(old(audioRepository.db.audioData), payload.audioId);
              stored.Some? && payload.channelId !in voiceChannels
              ==> trace == old(trace) + [LogError(NotVoiceChannelMessage(payload.channelId))]
                  && currentPlayer == old(currentPlayer) && currentConnection == old(currentConnection)
                  && eventBus.published == old(eventBus.published)
      ensures var stored := AudioDataWithId(old(audioRepository.db.audioData), payload.audioId);
              stored.Some? && payload.channelId in voiceChannels
              ==> fresh(currentConnection) && fresh(currentPlayer)
                  && currentConnection.channelId == payload.channelId && currentConnection.destroyed
                  && (old(currentConnection) != null ==> old(currentConnection).destroyed)
      ensures var stored := AudioDataWithId(old(audioRepository.db.audioData), payload.audioId);
              var stop := StopActions(old(currentPlayer) != null,
                                      if old(currentConnection) != null && !old(currentConnection.destroyed)
                                      then Some(old(currentConnection.channelId)) else None);
              var play := PlayActions(payload.channelId, payload.volume.GetOr(DefaultVolume),
                                      if stored.Some? then |stored.value.data| else 0);
              stored.Some? && payload.channelId in voiceChannels
              ==> trace == old(trace) + stop + play + [DestroyConnection(payload.channelId)]
                           + (if outcome.PlayerError? then [LogError(PlaybackErrorMessage(outcome.message))] else [])
      ensures var stored := AudioDataWithId(old(audioRepository.db.audioData), payload.audioId);
              stored.Some? && payload.channelId in voiceChannels
              ==> eventBus.published == old(eventBus.published)
                                        + (if outcome.FinishedIdle? then [PlayFinished(FinishedPayload(payload, now))] else [])
    {
      ghost var stop := StopActions(currentPlayer != null,
                                    if currentConnection != null && !currentConnection.destroyed
                                    then Some(currentConnection.channelId) else None);
      ghost var trace0 := trace;
      var userVolume := payload.volume.GetOr(DefaultVolume);
      var audioData := FetchAudioData(payload.audioId);
      if audioData.None? {
        return;
      }
      var isVoice := GetVoiceChannel(payload.channelId, voiceChannels);
      if !isVoice {
        return;
      }
      StopCurrentPlayback();
      assert trace == trace0 + stop;
      var connection, player := PlayAudioInChannel(payload.channelId, audioData.value, userVolume);
      var completion := AwaitPlaybackCompletion(connection, player, outcome);
      assert trace == trace0 + stop + PlayActions(payload.channelId, userVolume, |audioData.value|)
                      + [DestroyConnection(payload.channelId)];
      if completion.Failure? {
        trace := trace + [LogError(PlaybackErrorMessage(completion.error))];
        return;
      }
      PublishPlaybackCompletedEvent(payload, now);
    }
  }
}
