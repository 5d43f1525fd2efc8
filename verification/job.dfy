/** The job record and its setters (internal/domain/job.go). The setters are
    unconditional, as in the source: ordering of transitions is a property of
    the worker pipeline, not of the record. */
module Jobs {
  import opened Wrappers
  import opened Voice

  /** Wall-clock instants and durations, in milliseconds. */
  type Time = int

  const MillisPerHour := 3_600_000

  datatype JobStatus = Queued | Processing | Completed | Failed {

    /** The status as it appears on the wire. */
    function Name(): string {
      match this
      case Queued => "queued"
      case Processing => "processing"
      case Completed => "completed"
      case Failed => "failed"
    }

    predicate IsTerminal() {
      this == Completed || this == Failed
    }
  }

  function StatusOfName(s: string): Option<JobStatus> {
    if s == "queued" then Some(Queued)
    else if s == "processing" then Some(Processing)
    else if s == "completed" then Some(Completed)
    else if s == "failed" then Some(Failed)
    else None
  }

  /** Status names are distinct, so the wire form identifies the status. */
  lemma StatusNameRoundTrip(st: JobStatus)
    ensures StatusOfName(st.Name()) == Some(st)
  {
  }

  datatype Job = Job(
    id: string,
    status: JobStatus,
    text: string,
    voiceId: string,
    providerName: string,
    outputFormat: string,
    voiceSettings: Option<VoiceSettings>,
    createdAt: Time,
    startedAt: Option<Time>,
    completedAt: Option<Time>,
    progress: int,
    estimatedCompletionAt: Option<Time>,
    errorMessage: string,
    resultPath: string,
    expiresAt: Option<Time>)

  /** The submitted request and identity, which no setter touches. */
  predicate SameRequest(a: Job, b: Job) {
    && a.id == b.id && a.text == b.text && a.voiceId == b.voiceId
    && a.providerName == b.providerName && a.outputFormat == b.outputFormat
    && a.voiceSettings == b.voiceSettings && a.createdAt == b.createdAt
  }

  /** A job as created: queued, progress 0, no timestamps beyond creation,
      no error, no result. */
  predicate Fresh(j: Job) {
    && j.status == Queued && j.progress == 0
    && j.startedAt.None? && j.completedAt.None? && j.expiresAt.None?
    && j.estimatedCompletionAt.None?
    && j.errorMessage == "" && j.resultPath == ""
  }

  /** `NewJob`: the identifier and the clock are inputs here. */
  function NewJob(id: string, text: string, voiceId: string, providerName: string,
                  outputFormat: string, settings: Option<VoiceSettings>, now: Time): (j: Job)
    ensures Fresh(j)
    ensures j.id == id && j.text == text && j.voiceId == voiceId && j.providerName == providerName
    ensures j.outputFormat == outputFormat && j.voiceSettings == settings && j.createdAt == now
  {
    Job(id, Queued, text, voiceId, providerName, outputFormat, settings, now,
        None, None, 0, None, "", "", None)
  }

  function SetProcessing(j: Job, now: Time): (r: Job)
    ensures r.status == Processing && r.startedAt == Some(now)
    ensures SameRequest(j, r)
    ensures r.completedAt == j.completedAt && r.progress == j.progress
    ensures r.estimatedCompletionAt == j.estimatedCompletionAt
    ensures r.errorMessage == j.errorMessage && r.resultPath == j.resultPath && r.expiresAt == j.expiresAt
  {
    j.(status := Processing, startedAt := Some(now))
  }

  /** The instant a result completed at `now` stops being retrievable. */
  function ExpiryOf(now: Time, retentionHours: int): Time {
    now + retentionHours * MillisPerHour
  }

  function SetCompleted(j: Job, resultPath: string, retentionHours: int, now: Time): (r: Job)
    ensures r.status == Completed && r.completedAt == Some(now) && r.progress == 100
    ensures r.resultPath == resultPath
    ensures r.expiresAt.Some? && r.expiresAt.value - now == retentionHours * 3600 * 1000
    ensures SameRequest(j, r)
    ensures r.startedAt == j.startedAt && r.estimatedCompletionAt == j.estimatedCompletionAt
    ensures r.errorMessage == j.errorMessage
  {
    j.(status := Completed, completedAt := Some(now), resultPath := resultPath,
       expiresAt := Some(ExpiryOf(now, retentionHours)), progress := 100)
  }

  function SetFailed(j: Job, errMsg: string, now: Time): (r: Job)
    ensures r.status == Failed && r.completedAt == Some(now) && r.errorMessage == errMsg
    ensures SameRequest(j, r)
    ensures r.startedAt == j.startedAt && r.progress == j.progress
    ensures r.estimatedCompletionAt == j.estimatedCompletionAt
    ensures r.resultPath == j.resultPath && r.expiresAt == j.expiresAt
  {
    j.(status := Failed, completedAt := Some(now), errorMessage := errMsg)
  }

  function UpdateProgress(j: Job, percentage: int, estimatedCompletion: Option<Time>): (r: Job)
    ensures r.progress == percentage && r.estimatedCompletionAt == estimatedCompletion
    ensures SameRequest(j, r)
    ensures r.status == j.status && r.startedAt == j.startedAt && r.completedAt == j.completedAt
    ensures r.errorMessage == j.errorMessage && r.resultPath == j.resultPath && r.expiresAt == j.expiresAt
  {
    j.(progress := percentage, estimatedCompletionAt := estimatedCompletion)
  }

  /** `IsExpired`, with the clock as an input: only a set expiry can pass,
      and only strictly after the instant. */
  function IsExpired(j: Job, now: Time): (b: bool)
    ensures j.expiresAt.None? ==> !b
    ensures j.expiresAt.Some? ==> (b <==> now > j.expiresAt.value)
  {
    j.expiresAt.Some? && now > j.expiresAt.value
  }

  function IsComplete(j: Job): (b: bool)
    ensures b <==> j.status.IsTerminal()
  {
    j.status == Completed || j.status == Failed
  }

  /** A result completed at `t` is retrievable up to and including
      `t + retention`, and expired at every later instant. */
  lemma ExpiryWindow(j: Job, path: string, retentionHours: int, t: Time, now: Time)
    ensures IsExpired(SetCompleted(j, path, retentionHours, t), now)
        <==> now > t + retentionHours * MillisPerHour
  {
  }

  /** A job that never completed successfully has no expiry, so it never expires. */
  lemma NeverExpiresWithoutCompletion(j: Job, msg: string, t: Time, now: Time)
    requires j.expiresAt.None?
    ensures !IsExpired(SetFailed(j, msg, t), now)
    ensures !IsExpired(j, now)
  {
  }

  /** Both terminal setters produce a complete job, whatever the prior state. */
  lemma TerminalSettersComplete(j: Job, path: string, hours: int, msg: string, t: Time)
    ensures IsComplete(SetCompleted(j, path, hours, t))
    ensures IsComplete(SetFailed(j, msg, t))
    ensures !IsComplete(SetProcessing(j, t))
  {
  }
}
