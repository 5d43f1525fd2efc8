/** The value objects passed to and from a synthesis provider
    (internal/domain/provider.go). */
module Synthesis {
  import opened Wrappers
  import opened Text
  import opened Voice

  datatype SynthesisRequest = SynthesisRequest(
    text: string,
    voiceId: string,
    outputFormat: string,
    settings: Option<VoiceSettings>)

  /** `audio` is the full content of the returned stream. */
  datatype SynthesisResult = SynthesisResult(audio: Bytes, contentType: string, sizeBytes: int)
}
