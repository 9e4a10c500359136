/** The Audio aggregate: the metadata of one uploaded sound, renamable, with creation and update times. */
module AudioEntity {
  import opened Wrappers

  datatype AudioFileFormat = Mp3 | Wav

  /** The string value of each format. */
  function FormatName(f: AudioFileFormat): (s: string)
    ensures f == Mp3 ==> s == "mp3"
    ensures f == Wav ==> s == "wav"
  {
    match f
    case Mp3 => "mp3"
    case Wav => "wav"
  }

  /** A point in time, in milliseconds; the clock is a parameter of every operation that reads it. */
  type Timestamp = nat

  datatype CreateAudioProps = CreateAudioProps(name: string, format: AudioFileFormat, size: int, createdBy: string)

  /** `name` is typed as required but read with `??`, so a missing name is modelled. */
  datatype UpdateAudioProps = UpdateAudioProps(name: Option<string>)

  newtype byte = x: int | 0 <= x < 256

  /** The stored sound of one audio command: the `audio_data` row with the same id. */
  datatype AudioFileData = AudioFileData(id: string, data: seq<byte>)

  /** The value view of an Audio object. */
  datatype AudioData = AudioData(
    id: string,
    name: string,
    format: AudioFileFormat,
    size: int,
    createdBy: string,
    createdAt: Timestamp,
    updatedAt: Timestamp)

  /** The metadata of a newly created audio command with identifier `id`, created at `now`. */
  function NewAudioData(props: CreateAudioProps, id: string, now: Timestamp): (d: AudioData)
    ensures d.id == id
    ensures d.name == props.name && d.format == props.format
    ensures d.size == props.size && d.createdBy == props.createdBy
    ensures d.createdAt == now && d.updatedAt == d.createdAt
  {
    AudioData(id, props.name, props.format, props.size, props.createdBy, now, now)
  }

  /** The metadata after `update(props)` at time `now`. */
  function Renamed(d: AudioData, props: UpdateAudioProps, now: Timestamp): (e: AudioData)
    ensures e.name == props.name.GetOr(d.name)
    ensures e.updatedAt == now
    ensures e.id == d.id && e.format == d.format && e.size == d.size
    ensures e.createdBy == d.createdBy && e.createdAt == d.createdAt
  {
    d.(name := props.name.GetOr(d.name), updatedAt := now)
  }

  class Audio {
    const id: string
    const format: AudioFileFormat
    const size: int
    const createdBy: string
    const createdAt: Timestamp
    var name: string
    var updatedAt: Timestamp

    function Data(): AudioData
      reads this
    {
      AudioData(id, name, format, size, createdBy, createdAt, updatedAt)
    }

    constructor (data: AudioData)
      ensures Data() == data
    {
      id := data.id;
      name := data.name;
      format := data.format;
      size := data.size;
      createdBy := data.createdBy;
      createdAt := data.createdAt;
      updatedAt := data.updatedAt;
    }

    /** A new audio command; `newId` is the generated UUID and `now` the current time. */
    static method Create(props: CreateAudioProps, newId: string, now: Timestamp) returns (audio: Audio)
      ensures fresh(audio)
      ensures audio.Data() == NewAudioData(props, newId, now)
    {
      var timestamp := now;
      audio := new Audio(AudioData(newId, props.name, props.format, props.size, props.createdBy,
                                   timestamp, timestamp));
    }

    /** An audio command rebuilt from stored data. */
    static method FromData(data: AudioData) returns (audio: Audio)
      ensures fresh(audio)
      ensures audio.Data() == data
    {
      audio := new Audio(data);
    }

    method Update(props: UpdateAudioProps, now: Timestamp)
      modifies this
      ensures Data() == Renamed(old(Data()), props, now)
    {
      name := props.name.GetOr(name);
      updatedAt := now;
    }
  }
}
