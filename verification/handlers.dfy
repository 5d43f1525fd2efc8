/** The HTTP handlers of the job API and the synchronous endpoint
    (internal/api/handlers/jobs.go and tts.go). A request body is given
    already decoded, `None` standing for a body that is not valid JSON; the
    job ID, the clock, the provider's answers and the channel `select` are
    inputs. Timestamps are kept as instants; their text form is not modelled. */
module Handlers {
  import opened Wrappers
  import opened Text
  import opened Voice
  import opened ApiErrors
  import opened Jobs
  import opened Synthesis
  import opened JobQueue
  import opened AudioStore

  const StatusOK := 200

  /** What a handler writes: a status and either a JSON/audio body or the
      error envelope (`middleware.WriteError`). */
  datatype Reply<+T> = Reply(status: int, body: Result<T, ErrorResponse>)

  function WriteError<T>(e: APIError): (r: Reply<T>)
    ensures r.status == e.statusCode && r.body == Failure(NewErrorResponse(e))
  {
    Reply(e.statusCode, Failure(NewErrorResponse(e)))
  }

  // ----- validation shared by both submission endpoints -----

  /** The error for a body that does not decode. */
  function InvalidJson(): APIError {
    WithMessage(Standard(Validation), "Invalid JSON body")
  }

  /** The error for an empty `text`. */
  function TextRequired(): APIError {
    WithDetails(Standard(Validation), map["field" := Str("text"), "message" := Str("Text is required")])
  }

  /** An empty voice ID selects the configured default. */
  function ResolveVoice(voiceId: string, defaultVoiceId: string): (v: string)
    ensures voiceId != "" ==> v == voiceId
    ensures voiceId == "" ==> v == defaultVoiceId
  {
    if voiceId == "" then defaultVoiceId else voiceId
  }

  /** An empty format means mp3; only mp3 and wav are accepted. */
  function ResolveFormat(format: string): (r: Result<string, APIError>)
    ensures r.Success? <==> format == "" || format == Mp3 || format == Wav
    ensures r.Success? ==> r.value == (if format == "" then Mp3 else format)
    ensures r.Failure? ==> r.error == Standard(InvalidFormat)
  {
    var f := if format == "" then Mp3 else format;
    if f != Mp3 && f != Wav then Failure(Standard(InvalidFormat)) else Success(f)
  }

  // ----- POST /api/v1/jobs -----

  datatype JobCreateRequest = JobCreateRequest(
    text: string,
    voiceId: string,
    provider: string,
    outputFormat: string,
    voiceSettings: Option<VoiceSettings>)

  /** A request that passed validation, with every default filled in. */
  datatype Submission = Submission(
    text: string,
    voiceId: string,
    providerName: string,
    outputFormat: string,
    settings: Option<VoiceSettings>)

  /** The checks of `SubmitJob`, in the order it makes them: decoding, then
      the text, then the output format; the provider name is not checked. */
  function ValidateSubmission(body: Option<JobCreateRequest>, defaultVoiceId: string,
                              defaultProvider: string): (r: Result<Submission, APIError>)
    ensures body.None? ==> r == Failure(InvalidJson())
    ensures body.Some? && body.value.text == "" ==> r == Failure(TextRequired())
    ensures body.Some? && body.value.text != "" && ResolveFormat(body.value.outputFormat).Failure?
            ==> r == Failure(Standard(InvalidFormat))
    ensures r.Success? <==> body.Some? && body.value.text != "" && ResolveFormat(body.value.outputFormat).Success?
    ensures r.Success? ==>
      && r.value.text == body.value.text
      && r.value.voiceId == ResolveVoice(body.value.voiceId, defaultVoiceId)
      && r.value.outputFormat == ResolveFormat(body.value.outputFormat).value
      && r.value.providerName == (if body.value.provider == "" then defaultProvider else body.value.provider)
      && r.value.settings == body.value.voiceSettings
  {
    match body
    case None => Failure(InvalidJson())
    case Some(req) =>
      if req.text == "" then Failure(TextRequired())
      else
        var voiceId := ResolveVoice(req.voiceId, defaultVoiceId);
        match ResolveFormat(req.outputFormat)
        case Failure(e) => Failure(e)
        case Success(format) =>
          var providerName := if req.provider == "" then defaultProvider else req.provider;
          Success(Submission(req.text, voiceId, providerName, format, req.voiceSettings))
  }

  datatype JobCreateResponse = JobCreateResponse(jobId: string, status: string, createdAt: Time)

  /** The handler's configuration and the values it draws when it runs. */
  datatype SubmitContext = SubmitContext(
    defaultVoiceId: string,
    providerName: string,
    jobId: string,
    now: Time,
    wake: Wakeup)

  datatype SubmitOutcome = SubmitOutcome(queue: Queue, reply: Reply<JobCreateResponse>)

  /** Whether the enqueue `select` of a submission could return: it is only
      reached by a valid body, and then needs the queue closed, the context
      done or room in the buffer. */
  predicate CanAdmit(q: Queue, body: Option<JobCreateRequest>, ctx: SubmitContext) {
    ValidateSubmission(body, ctx.defaultVoiceId, ctx.providerName).Success? ==>
      q.closed || ctx.wake.ContextDone? || |q.pending| < q.bufferSize
  }

  /** `SubmitJob`. An invalid request leaves the queue alone. A valid one
      creates a fresh job and enqueues it: success answers 201 with the ID and
      status `queued`; a refused enqueue answers with the internal error,
      even though a cancelled (not closed) queue has already registered the
      job. */
  function SubmitJob(q: Queue, body: Option<JobCreateRequest>, ctx: SubmitContext): (r: SubmitOutcome)
    requires CanAdmit(q, body, ctx)
    ensures var v := ValidateSubmission(body, ctx.defaultVoiceId, ctx.providerName);
      v.Failure? ==> r == SubmitOutcome(q, WriteError(v.error))
    ensures var v := ValidateSubmission(body, ctx.defaultVoiceId, ctx.providerName);
      v.Success? ==>
        var job := NewJob(ctx.jobId, v.value.text, v.value.voiceId, v.value.providerName,
                          v.value.outputFormat, v.value.settings, ctx.now);
        var a := Enqueue(q, job, ctx.wake);
        && r.queue == a.queue
        && (a.err.Some? ==> r.reply == WriteError(Standard(InternalServer)))
        && (a.err.None? ==> r.reply == Reply(StatusCreated, Success(JobCreateResponse(ctx.jobId, "queued", ctx.now))))
  {
    match ValidateSubmission(body, ctx.defaultVoiceId, ctx.providerName)
    case Failure(e) => SubmitOutcome(q, WriteError(e))
    case Success(sub) =>
      var job := NewJob(ctx.jobId, sub.text, sub.voiceId, sub.providerName, sub.outputFormat, sub.settings, ctx.now);
      var a := Enqueue(q, job, ctx.wake);
      if a.err.Some? then SubmitOutcome(a.queue, WriteError(Standard(InternalServer)))
      else SubmitOutcome(a.queue, Reply(StatusCreated, Success(JobCreateResponse(job.id, job.status.Name(), job.createdAt))))
  }

  // ----- GET /api/v1/jobs/{jobID} -----

  /** The status body: optional instants appear only when set, the error
      message only when non-empty. */
  datatype JobStatusResponse = JobStatusResponse(
    jobId: string,
    status: string,
    providerName: string,
    createdAt: Time,
    startedAt: Option<Time>,
    completedAt: Option<Time>,
    progressPercentage: int,
    estimatedCompletionAt: Option<Time>,
    errorMessage: Option<string>)

  function StatusView(job: Job): (v: JobStatusResponse)
    ensures v.jobId == job.id && StatusOfName(v.status) == Some(job.status)
    ensures v.providerName == job.providerName && v.createdAt == job.createdAt
    ensures v.startedAt == job.startedAt && v.completedAt == job.completedAt
    ensures v.progressPercentage == job.progress && v.estimatedCompletionAt == job.estimatedCompletionAt
    ensures v.errorMessage.Some? <==> job.errorMessage != ""
    ensures v.errorMessage.Some? ==> v.errorMessage.value == job.errorMessage
  {
    StatusNameRoundTrip(job.status);
    JobStatusResponse(job.id, job.status.Name(), job.providerName, job.createdAt,
      job.startedAt, job.completedAt, job.progress, job.estimatedCompletionAt,
      if job.errorMessage != "" then Some(job.errorMessage) else None)
  }

  /** `GetJobStatus`: 404 for an unknown ID, otherwise 200 with the record's view. */
  function GetJobStatus(q: Queue, jobId: string): (r: Reply<JobStatusResponse>)
    ensures jobId !in q.jobs ==> r == WriteError(Standard(JobNotFound))
    ensures jobId in q.jobs ==> r == Reply(StatusOK, Success(StatusView(q.jobs[jobId])))
  {
    match GetJob(q, jobId)
    case Failure(e) => WriteError(e)
    case Success(job) => Reply(StatusOK, Success(StatusView(job)))
  }

  // ----- GET /api/v1/jobs/{jobID}/result -----

  /** The audio answer: its content type, the download file name and the
      opened file. */
  datatype AudioReply = AudioReply(contentType: string, filename: string, entry: Entry)

  /** `GetJobResult`: the checks in order are an unknown ID (404), a job not
      completed (425, naming its status), an expired result (410), and a file
      that cannot be opened, which is also reported as expired. Otherwise the
      stored file is streamed under the job's own ID and format. */
  function GetJobResult(q: Queue, s: FileStore, jobId: string, now: Time): (r: Reply<AudioReply>)
    ensures jobId !in q.jobs ==> r == WriteError(Standard(JobNotFound))
    ensures jobId in q.jobs && q.jobs[jobId].status != Completed ==>
      r == WriteError(WithDetails(Standard(JobNotComplete),
                                  map["current_status" := Str(q.jobs[jobId].status.Name())]))
    ensures jobId in q.jobs && q.jobs[jobId].status == Completed && IsExpired(q.jobs[jobId], now) ==>
      r == WriteError(Standard(ResultExpired))
    ensures r.body.Success? <==>
      jobId in q.jobs && q.jobs[jobId].status == Completed && !IsExpired(q.jobs[jobId], now)
      && Retrieve(s, jobId).Success?
    ensures (r.body.Failure? && jobId in q.jobs && q.jobs[jobId].status == Completed
             && !IsExpired(q.jobs[jobId], now)) ==> r == WriteError(Standard(ResultExpired))
    ensures r.body.Success? ==>
      && r.status == StatusOK
      && r.body.value.contentType == Retrieve(s, jobId).value.contentType
      && r.body.value.entry == Retrieve(s, jobId).value.entry
      && r.body.value.filename == jobId + "." + q.jobs[jobId].outputFormat
  {
    match GetJob(q, jobId)
    case Failure(e) => WriteError(e)
    case Success(job) =>
      if job.status != Completed then
        WriteError(WithDetails(Standard(JobNotComplete), map["current_status" := Str(job.status.Name())]))
      else if IsExpired(job, now) then WriteError(Standard(ResultExpired))
      else
        match Retrieve(s, jobId)
        case Failure(_) => WriteError(Standard(ResultExpired))
        case Success(found) =>
          Reply(StatusOK, Success(AudioReply(found.contentType, jobId + "." + job.outputFormat, found.entry)))
  }

  /** Before the worker finishes a job, asking for its result answers 425;
      a job that failed also answers 425, never 410. */
  lemma ResultGating(q: Queue, s: FileStore, jobId: string, now: Time)
    requires jobId in q.jobs && !q.jobs[jobId].status.IsTerminal()
    ensures GetJobResult(q, s, jobId, now).status == StatusTooEarly
    ensures var j := q.jobs[jobId].(status := Failed);
      GetJobResult(q.(jobs := q.jobs[jobId := j]), s, jobId, now).status == StatusTooEarly
  {
  }

  /** A successful submission is immediately visible as a fresh queued job,
      and its result is not yet available. */
  lemma SubmitThenStatus(q: Queue, body: Option<JobCreateRequest>, ctx: SubmitContext, s: FileStore, now: Time)
    requires CanAdmit(q, body, ctx)
    requires SubmitJob(q, body, ctx).reply.status == StatusCreated
    ensures var q' := SubmitJob(q, body, ctx).queue;
      && GetJobStatus(q', ctx.jobId) == Reply(StatusOK, Success(JobStatusResponse(
           ctx.jobId, "queued", ValidateSubmission(body, ctx.defaultVoiceId, ctx.providerName).value.providerName,
           ctx.now, None, None, 0, None, None)))
      && GetJobResult(q', s, ctx.jobId, now).status == StatusTooEarly
      && q'.pending == q.pending + [q'.jobs[ctx.jobId]]
  {
  }

  /** A submission whose context is cancelled while the buffer is full answers
      500, yet the job stays registered as queued and is never buffered, so no
      worker will take it. */
  lemma OrphanOnCancel(q: Queue, body: Option<JobCreateRequest>, ctx: SubmitContext, reason: CtxError)
    requires !q.closed && ctx.wake == ContextDone(reason)
    requires ValidateSubmission(body, ctx.defaultVoiceId, ctx.providerName).Success?
    ensures var r := SubmitJob(q, body, ctx);
      && r.reply.status == StatusInternalServerError
      && GetJobStatus(r.queue, ctx.jobId).body.Success?
      && GetJobStatus(r.queue, ctx.jobId).body.value.status == "queued"
      && r.queue.pending == q.pending
  {
  }

  /** A closed queue refuses every valid submission with 500 and registers
      nothing. */
  lemma ClosedRefusesSubmission(q: Queue, body: Option<JobCreateRequest>, ctx: SubmitContext)
    requires q.closed
    ensures var r := SubmitJob(q, body, ctx);
      r.queue == q && r.reply.status != StatusCreated
  {
  }

  // ----- POST /api/v1/tts -----

  datatype TTSRequest = TTSRequest(
    text: string,
    voiceId: string,
    outputFormat: string,
    voiceSettings: Option<VoiceSettings>)

  /** The audio answer of the synchronous endpoint. */
  datatype AudioOut = AudioOut(contentType: string, audio: Bytes)

  /** The configuration of the synchronous handler. */
  datatype TtsConfig = TtsConfig(maxTextLen: int, defaultVoiceId: string)

  /** The handler's reply, and the requests it sent to the provider. */
  datatype TtsOutcome = TtsOutcome(reply: Reply<AudioOut>, sent: seq<SynthesisRequest>)

  function TooLong(maxTextLen: int, actual: int): APIError {
    WithDetails(Standard(TextTooLong), map["max_length" := Int(maxTextLen), "actual_length" := Int(actual)])
  }

  /** The checks of `SynthesizeTTS` before the provider is asked: decoding,
      the text, its UTF-8 length against the limit, the output format, and
      the provider's availability. */
  function ValidateTts(body: Option<TTSRequest>, cfg: TtsConfig, available: bool): (r: Result<SynthesisRequest, APIError>)
    ensures body.None? ==> r == Failure(InvalidJson())
    ensures body.Some? && body.value.text == "" ==> r == Failure(TextRequired())
    ensures body.Some? && body.value.text != "" && Utf8Len(body.value.text) > cfg.maxTextLen ==>
      r == Failure(TooLong(cfg.maxTextLen, Utf8Len(body.value.text)))
    ensures r.Success? <==>
      && body.Some? && body.value.text != "" && Utf8Len(body.value.text) <= cfg.maxTextLen
      && ResolveFormat(body.value.outputFormat).Success? && available
    ensures (body.Some? && body.value.text != "" && Utf8Len(body.value.text) <= cfg.maxTextLen
             && ResolveFormat(body.value.outputFormat).Success? && !available)
            ==> r == Failure(Standard(ProviderUnavailable))
    ensures r.Success? ==>
      r.value == SynthesisRequest(body.value.text, ResolveVoice(body.value.voiceId, cfg.defaultVoiceId),
                                  ResolveFormat(body.value.outputFormat).value, body.value.voiceSettings)
  {
    match body
    case None => Failure(InvalidJson())
    case Some(req) =>
      if req.text == "" then Failure(TextRequired())
      else if Utf8Len(req.text) > cfg.maxTextLen then Failure(TooLong(cfg.maxTextLen, Utf8Len(req.text)))
      else
        var voiceId := ResolveVoice(req.voiceId, cfg.defaultVoiceId);
        match ResolveFormat(req.outputFormat)
        case Failure(e) => Failure(e)
        case Success(format) =>
          if !available then Failure(Standard(ProviderUnavailable))
          else Success(SynthesisRequest(req.text, voiceId, format, req.voiceSettings))
  }

  /** `SynthesizeTTS`. The provider is asked exactly once when every check
      passes and never otherwise; its error becomes a 503 carrying the
      provider's message, its audio a 200 with the provider's content type. */
  function SynthesizeTTS(body: Option<TTSRequest>, cfg: TtsConfig, available: bool,
                         synthesize: SynthesisRequest -> Result<SynthesisResult, string>): (r: TtsOutcome)
    ensures var v := ValidateTts(body, cfg, available);
      v.Failure? ==> r == TtsOutcome(WriteError(v.error), [])
    ensures var v := ValidateTts(body, cfg, available);
      v.Success? ==>
        && r.sent == [v.value]
        && (synthesize(v.value).Failure? ==>
              r.reply == WriteError(WithMessage(Standard(ProviderUnavailable), synthesize(v.value).error)))
        && (synthesize(v.value).Success? ==>
              r.reply == Reply(StatusOK, Success(AudioOut(synthesize(v.value).value.contentType,
                                                          synthesize(v.value).value.audio))))
  {
    match ValidateTts(body, cfg, available)
    case Failure(e) => TtsOutcome(WriteError(e), [])
    case Success(req) =>
      match synthesize(req)
      case Failure(msg) => TtsOutcome(WriteError(WithMessage(Standard(ProviderUnavailable), msg)), [req])
      case Success(result) => TtsOutcome(Reply(StatusOK, Success(AudioOut(result.contentType, result.audio))), [req])
  }

  /** The length limit counts UTF-8 bytes: an ASCII text of exactly the limit
      passes the length check, one byte more does not, and a text of
      multi-byte characters is refused with fewer characters than the limit. */
  lemma LengthLimitCountsBytes(text: string, cfg: TtsConfig)
    requires text != "" && IsAscii(text)
    ensures var body := Some(TTSRequest(text, "", "", None));
      (ValidateTts(body, cfg, true).Success? <==> |text| <= cfg.maxTextLen)
    ensures var wide := Some(TTSRequest(['é'], "", "", None));
      cfg.maxTextLen == 1 ==> ValidateTts(wide, cfg, true) == Failure(TooLong(1, 2))
  {
    AsciiByteLength(text);
  }

  /** Both submission endpoints apply the same text and format rules. */
  lemma EndpointsAgree(text: string, voiceId: string, format: string, settings: Option<VoiceSettings>,
                       defaultVoiceId: string, providerName: string)
    requires Utf8Len(text) <= 5000
    ensures var job := ValidateSubmission(Some(JobCreateRequest(text, voiceId, "", format, settings)),
                                          defaultVoiceId, providerName);
      var tts := ValidateTts(Some(TTSRequest(text, voiceId, format, settings)), TtsConfig(5000, defaultVoiceId), true);
      && (job.Success? <==> tts.Success?)
      && (job.Failure? ==> job.error == tts.error)
      && (job.Success? ==> tts.value == SynthesisRequest(job.value.text, job.value.voiceId,
                                                         job.value.outputFormat, job.value.settings))
  {
  }
}
