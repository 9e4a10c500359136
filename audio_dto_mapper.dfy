/** The HTTP response body for one audio command. */
module AudioControllerMapper {
  import opened AudioEntity

  /** `createdAt` and `updatedAt` are serialised by the HTTP layer; here they stay timestamps. */
  datatype AudioResponseDto = AudioResponseDto(
    id: string,
    name: string,
    format: AudioFileFormat,
    size: int,
    createdBy: string,
    createdAt: Timestamp,
    updatedAt: Timestamp)

  /** `toDto`: every field of the audio command, unchanged. */
  function ToDto(audio: AudioData): (dto: AudioResponseDto)
    ensures dto.id == audio.id && dto.name == audio.name && dto.format == audio.format
    ensures dto.size == audio.size && dto.createdBy == audio.createdBy
    ensures dto.createdAt == audio.createdAt && dto.updatedAt == audio.updatedAt
  {
    AudioResponseDto(audio.id, audio.name, audio.format, audio.size, audio.createdBy,
                     audio.createdAt, audio.updatedAt)
  }

  /** Different audio commands give different responses. */
  lemma ToDtoInjective(a: AudioData, b: AudioData)
    requires ToDto(a) == ToDto(b)
    ensures a == b
  {
  }
}
