/** The ElevenLabs synthesis adapter (internal/provider/elevenlabs/provider.go).
    The HTTP client is an input: a function from the voice ID and the built
    request to either a response stream or an error. */
module ElevenLabs {
  import opened Wrappers
  import opened Text
  import opened Voice
  import opened Synthesis

  const ProviderName := "elevenlabs"
  const MaxConcurrentJobs := 4

  /** The voice-settings block of an ElevenLabs request: every field is set. */
  datatype VoiceSettingsReq = VoiceSettingsReq(
    stability: real,
    similarityBoost: real,
    style: real,
    useSpeakerBoost: bool)

  /** The request body the adapter builds; the client fills in the model ID. */
  datatype TtsRequest = TtsRequest(
    text: string,
    outputFormat: string,
    voiceSettings: Option<VoiceSettingsReq>)

  /** What the client's call yields: the outcome of draining the response
      body, and the announced content type. */
  datatype ClientStream = ClientStream(body: Result<Bytes, string>, contentType: string)

  type SpeechClient = (string, TtsRequest) -> Result<ClientStream, string>

  /** Adapter state; `activeJobs` counts calls in flight. */
  datatype Provider = Provider(activeJobs: int, isDefault: bool)

  function NewProvider(isDefault: bool): (p: Provider)
    ensures ActiveJobs(p) == 0 && p.isDefault == isDefault
  {
    Provider(0, isDefault)
  }

  function Name(p: Provider): string { ProviderName }

  function MaxConcurrent(p: Provider): int { MaxConcurrentJobs }

  function ActiveJobs(p: Provider): int { p.activeJobs }

  /** ElevenLabs' name for an output format: PCM for wav, 32 kbit/s MP3 otherwise. */
  function OutputFormatFor(format: string): (f: string)
    ensures format == "wav" <==> f == "pcm_22050"
    ensures format != "wav" <==> f == "mp3_22050_32"
  {
    if format == "wav" then "pcm_22050" else "mp3_22050_32"
  }

  /** `getFloatValue` and `getBoolValue`: the value a settings pointer holds,
      or the adapter's default for a nil pointer. */
  function ValueOr<T>(ptr: Option<T>, defaultVal: T): (r: T)
    ensures ptr.Some? ==> r == ptr.value
    ensures ptr.None? ==> r == defaultVal
  {
    match ptr
    case Some(v) => v
    case None => defaultVal
  }

  /** Absent settings send no block; present settings are completed with the
      adapter's own defaults (0.5, 0.75, 0.0, true), which differ from
      `DefaultVoiceSettings`. Speed has no place in the block. */
  function SettingsBlock(settings: Option<VoiceSettings>): (b: Option<VoiceSettingsReq>)
    ensures b.Some? <==> settings.Some?
    ensures settings.Some? ==>
      && b.value.stability == settings.value.stability.GetOr(0.5)
      && b.value.similarityBoost == settings.value.similarityBoost.GetOr(0.75)
      && b.value.style == settings.value.style.GetOr(0.0)
      && b.value.useSpeakerBoost == settings.value.useSpeakerBoost.GetOr(true)
  {
    match settings
    case None => None
    case Some(v) =>
      Some(VoiceSettingsReq(
        ValueOr(v.stability, 0.5),
        ValueOr(v.similarityBoost, 0.75),
        ValueOr(v.style, 0.0),
        ValueOr(v.useSpeakerBoost, true)))
  }

  function BuildRequest(req: SynthesisRequest): (t: TtsRequest)
    ensures t.text == req.text
    ensures t.outputFormat == OutputFormatFor(req.outputFormat)
    ensures t.voiceSettings == SettingsBlock(req.settings)
  {
    TtsRequest(req.text, OutputFormatFor(req.outputFormat), SettingsBlock(req.settings))
  }

  /** The speed setting never reaches ElevenLabs. */
  lemma SpeedIsDropped(req: SynthesisRequest, speed: Option<real>)
    requires req.settings.Some?
    ensures BuildRequest(req.(settings := Some(req.settings.value.(speed := speed)))) == BuildRequest(req)
  {
  }

  /** The outcome of `Synthesize`: the adapter afterwards, and the result. */
  datatype Synthesized = Synthesized(provider: Provider, result: Result<SynthesisResult, string>)

  /** Calls the client with the request's voice and the built body, drains the
      response, and reports its size; client and read errors come back as
      they are. The in-flight counter is raised for the call and restored. */
  function Synthesize(p: Provider, req: SynthesisRequest, client: SpeechClient): (r: Synthesized)
    ensures ActiveJobs(r.provider) == ActiveJobs(p) && r.provider == p
    ensures var reply := client(req.voiceId, BuildRequest(req));
      && (reply.Failure? ==> r.result == Failure(reply.error))
      && (reply.Success? && reply.value.body.Failure? ==> r.result == Failure(reply.value.body.error))
      && (reply.Success? && reply.value.body.Success? ==>
            && r.result.Success?
            && r.result.value.audio == reply.value.body.value
            && r.result.value.contentType == reply.value.contentType
            && r.result.value.sizeBytes == |r.result.value.audio|)
  {
    var during := p.(activeJobs := p.activeJobs + 1);
    var result :=
      match client(req.voiceId, BuildRequest(req))
      case Failure(err) => Failure(err)
      case Success(stream) =>
        match stream.body
        case Failure(err) => Failure(err)
        case Success(audio) => Success(SynthesisResult(audio, stream.contentType, |audio|));
    Synthesized(during.(activeJobs := during.activeJobs - 1), result)
  }

  /** One voice as the ElevenLabs voices endpoint describes it. */
  datatype VoiceResponse = VoiceResponse(
    voiceId: string,
    name: string,
    category: string,
    labels: map<string, string>,
    previewUrl: string)

  function Label(labels: map<string, string>, key: string): string {
    if key in labels then labels[key] else ""
  }

  function ToVoice(v: VoiceResponse): (r: Voice)
    ensures r.voiceId == v.voiceId && r.name == v.name && r.previewUrl == v.previewUrl
    ensures r.provider == ProviderName
    ensures "language" in v.labels ==> r.language == v.labels["language"]
    ensures "language" !in v.labels ==> r.language == ""
    ensures "gender" in v.labels ==> r.gender == v.labels["gender"]
    ensures "gender" !in v.labels ==> r.gender == ""
  {
    Voice(v.voiceId, v.name, ProviderName, Label(v.labels, "language"), Label(v.labels, "gender"), v.previewUrl)
  }

  /** `ListVoices`: one catalogue entry per listed voice, in the same order;
      a client error is passed through. */
  function ListVoices(reply: Result<seq<VoiceResponse>, string>): (r: Result<seq<Voice>, string>)
    ensures reply.Failure? ==> r == Failure(reply.error)
    ensures reply.Success? ==> r.Success? && |r.value| == |reply.value|
    ensures reply.Success? ==> forall i :: 0 <= i < |reply.value| ==> r.value[i] == ToVoice(reply.value[i])
  {
    match reply
    case Failure(err) => Failure(err)
    case Success(vs) => Success(seq(|vs|, i requires 0 <= i < |vs| => ToVoice(vs[i])))
  }

  /** Constants reported for health and provider listings. */
  lemma ProviderConstants(p: Provider)
    ensures Name(p) == "elevenlabs" && MaxConcurrent(p) == 4
    ensures ActiveJobs(NewProvider(p.isDefault)) == 0
  {
  }
}
