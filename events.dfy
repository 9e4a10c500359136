/** The audio domain events and the event bus, kept as the log of everything published. */
module Events {
  import opened Wrappers
  import opened AudioEntity

  /** `volume` is typed as required, but the playback adapter reads it with `??`; a missing one is modelled. */
  datatype AudioPlayRequestedPayload = AudioPlayRequestedPayload(
    audioId: string,
    volume: Option<int>,
    channelId: string,
    userId: string,
    timestamp: Timestamp)

  datatype AudioPlayFinishedPayload = AudioPlayFinishedPayload(
    audioId: string,
    volume: Option<int>,
    channelId: string,
    userId: string,
    duration: int,
    timestamp: Timestamp)

  /** An event type with its payload: PLAY_REQUESTED or PLAY_FINISHED. */
  datatype AudioEvent =
    | PlayRequested(requested: AudioPlayRequestedPayload)
    | PlayFinished(finished: AudioPlayFinishedPayload)

  class EventBus {
    var published: seq<AudioEvent>

    constructor ()
      ensures published == []
    {
      published := [];
    }

    method Publish(event: AudioEvent)
      modifies this
      ensures published == old(published) + [event]
    {
      published := published + [event];
    }
  }
}
