/** Properties that span the queue, the worker, the storage, the provider and
    the handlers: what a client observes across a job's whole life. */
module EndToEnd {
  import opened Wrappers
  import opened Jobs
  import opened ApiErrors
  import opened JobQueue
  import opened AudioStore
  import opened Worker
  import opened Handlers
  import ElevenLabs

  /** The conditions under which one job's processing completes. */
  predicate Succeeds(s: FileStore, job: Job, env: JobEnv) {
    && env.synthesis.Success? && env.readError.None?
    && Store(s, job.id, env.synthesis.value.audio, job.outputFormat, env.clock.written, env.writeError).Success?
  }

  /** A completed job's result is served, within its retention window, as
      exactly the bytes the provider produced, with the format's content type
      and the job's own file name, provided no older mp3 file shadows a wav
      result. */
  lemma ProcessedResultIsServed(q: Queue, s: FileStore, job: Job, env: JobEnv, retentionHours: int, now: Time)
    requires job.id in q.jobs && Succeeds(s, job, env)
    requires job.outputFormat == Mp3 || (job.outputFormat == Wav && FileName(job.id, Mp3) !in s.entries)
    requires now <= env.clock.finished + retentionHours * MillisPerHour
    ensures var r := ProcessJob(q, s, job, env, retentionHours);
      var reply := GetJobResult(r.queue, r.store, job.id, now);
      && reply.status == StatusOK && reply.body.Success?
      && reply.body.value.entry == File(env.synthesis.value.audio, env.clock.written)
      && reply.body.value.contentType == ContentType(job.outputFormat)
      && reply.body.value.filename == job.id + "." + job.outputFormat
  {
    var r := ProcessJob(q, s, job, env, retentionHours);
    CompletionIff(q, s, job, env, retentionHours);
    StoreThenRetrieve(s, job.id, env.synthesis.value.audio, job.outputFormat, env.clock.written);
    assert r.store.entries == s.entries[FileName(job.id, job.outputFormat) := File(env.synthesis.value.audio, env.clock.written)];
  }

  /** Once a completed job has expired, the handler answers 410, and a sweep
      with the same retention removes its file (unless the operating system
      refuses), since the file was written before the job finished. */
  lemma ExpiredResultIsSwept(q: Queue, s: FileStore, job: Job, env: JobEnv, retentionHours: int,
                             now: Time, failing: set<string>)
    requires job.id in q.jobs && Succeeds(s, job, env)
    requires env.clock.written <= env.clock.finished
    requires now > env.clock.finished + retentionHours * MillisPerHour
    requires FileName(job.id, job.outputFormat) !in failing
    ensures var r := ProcessJob(q, s, job, env, retentionHours);
      && GetJobResult(r.queue, r.store, job.id, now) == WriteError(Standard(ResultExpired))
      && FileName(job.id, job.outputFormat) in r.store.entries
      && Sweeps(r.store.entries, FileName(job.id, job.outputFormat), Cutoff(now, retentionHours), failing)
  {
    CompletionIff(q, s, job, env, retentionHours);
  }

  /** A sweep cannot remove a result file before the retention window counted
      from its write has passed. */
  lemma SweepSparesFreshResult(q: Queue, s: FileStore, job: Job, env: JobEnv, retentionHours: int,
                               now: Time, failing: set<string>)
    requires job.id in q.jobs && Succeeds(s, job, env)
    requires now <= env.clock.written + retentionHours * MillisPerHour
    ensures var r := ProcessJob(q, s, job, env, retentionHours);
      && FileName(job.id, job.outputFormat) in r.store.entries
      && !Sweeps(r.store.entries, FileName(job.id, job.outputFormat), Cutoff(now, retentionHours), failing)
  {
    CompletionIff(q, s, job, env, retentionHours);
  }

  /** With the ElevenLabs adapter as provider, PCM audio is requested exactly
      when the stored file will be announced as wav, and a completed job
      stores exactly the drained response body. */
  lemma ElevenLabsFeedsWorker(q: Queue, s: FileStore, job: Job, clock: Clock, writeError: Option<string>,
                              p: ElevenLabs.Provider, client: ElevenLabs.SpeechClient, retentionHours: int)
    requires job.id in q.jobs
    requires var reply := client(job.voiceId, ElevenLabs.BuildRequest(RequestOf(job)));
      reply.Success? && reply.value.body.Success?
    ensures var reply := client(job.voiceId, ElevenLabs.BuildRequest(RequestOf(job)));
      var env := JobEnv(clock, ElevenLabs.Synthesize(p, RequestOf(job), client).result, None, writeError);
      var r := ProcessJob(q, s, job, env, retentionHours);
      && (ElevenLabs.BuildRequest(RequestOf(job)).outputFormat == "pcm_22050"
          <==> ContentType(job.outputFormat) == "audio/wav")
      && (r.queue.jobs[job.id].status == Completed ==>
            r.store.entries[FileName(job.id, job.outputFormat)] == File(reply.value.body.value, clock.written))
  {
    var env := JobEnv(clock, ElevenLabs.Synthesize(p, RequestOf(job), client).result, None, writeError);
    CompletionIff(q, s, job, env, retentionHours);
  }
}
