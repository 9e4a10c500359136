/** Conversion between the Audio aggregate and its `audio_commands` table row. */
module PostgresAudioCommandMapper {
  import opened Wrappers
  import opened Errors
  import opened Validation
  import opened AudioEntity

  /** An `audio_commands` row. */
  datatype PostgresAudioCommand = PostgresAudioCommand(
    id: string,
    name: string,
    format: AudioFileFormat,
    size: int,
    createdBy: string,
    createdAt: Timestamp,
    updatedAt: Timestamp)

  /** `toRecord`: the seven fields of the audio command, one column each. */
  function ToRecord(audio: AudioData): (r: PostgresAudioCommand)
    ensures r.id == audio.id && r.name == audio.name && r.format == audio.format && r.size == audio.size
    ensures r.createdBy == audio.createdBy && r.createdAt == audio.createdAt && r.updatedAt == audio.updatedAt
  {
    PostgresAudioCommand(audio.id, audio.name, audio.format, audio.size, audio.createdBy,
                         audio.createdAt, audio.updatedAt)
  }

  /** `_toAudioAttributes`: the row's seven columns as audio data. */
  function ToAudioAttributes(row: PostgresAudioCommand): (d: AudioData)
    ensures ToRecord(d) == row
  {
    AudioData(row.id, row.name, row.format, row.size, row.createdBy, row.createdAt, row.updatedAt)
  }

  /** `toEntity`: a validated row rebuilt into audio data; `errors` are what the validator reports. */
  function ToEntity(document: PostgresAudioCommand, errors: seq<string>): (r: Result<AudioData, Exception>)
    ensures r.Success? <==> |errors| == 0
    ensures r.Success? ==> ToRecord(r.value) == document
    ensures r.Failure? ==> r.error == ValidatedRecord(document, errors).error
  {
    match ValidatedRecord(document, errors)
    case Failure(e) => Failure(e)
    case Success(row) => Success(ToAudioAttributes(row))
  }

  /** Storing an audio command and reading its row back gives the same data. */
  lemma StoredAudioReadsBack(audio: AudioData)
    ensures ToAudioAttributes(ToRecord(audio)) == audio
    ensures ToEntity(ToRecord(audio), []) == Success(audio)
  {
  }
}
