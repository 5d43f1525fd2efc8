/** The job worker (internal/queue/memory/worker.go): one job's processing
    as a function of its environment, and one worker's run loop as a method.
    The clock readings, the provider's answer, the stream read and the
    storage write are inputs collected in a `JobEnv`. */
module Worker {
  import opened Wrappers
  import opened Text
  import opened Jobs
  import opened Synthesis
  import opened JobQueue
  import opened AudioStore

  /** Base synthesis time and per-byte time of the completion estimate, in ms. */
  const BaseMillis := 2000
  const PerByteMillis := 5

  /** `estimateDuration`: two seconds plus five milliseconds per byte of text. */
  function EstimateDuration(textLength: int): (d: int)
    ensures textLength >= 0 ==> d >= BaseMillis
  {
    BaseMillis + textLength * PerByteMillis
  }

  /** Longer texts never get an earlier estimate; every thousand bytes add
      five seconds. */
  lemma EstimateMonotone(a: int, b: int)
    ensures a <= b ==> EstimateDuration(a) <= EstimateDuration(b)
    ensures EstimateDuration(a + 1000) == EstimateDuration(a) + 5000
    ensures EstimateDuration(0) == 2000
  {
  }

  /** The clock readings one job's processing takes, in order: marking it
      processing, computing the estimate, writing the file, finishing. */
  datatype Clock = Clock(started: Time, estimated: Time, written: Time, finished: Time)

  /** Everything outside the worker that one job meets. */
  datatype JobEnv = JobEnv(
    clock: Clock,
    synthesis: Result<SynthesisResult, string>,
    readError: Option<string>,
    writeError: Option<string>)

  /** Calls the worker makes into the provider and the storage. */
  datatype ExternalCall =
    | CallSynthesize(request: SynthesisRequest)
    | CallStore(jobId: string, audio: Bytes, format: string)

  /** The synthesis request built from a job. */
  function RequestOf(j: Job): (req: SynthesisRequest)
    ensures req.text == j.text && req.voiceId == j.voiceId
    ensures req.outputFormat == j.outputFormat && req.settings == j.voiceSettings
  {
    SynthesisRequest(j.text, j.voiceId, j.outputFormat, j.voiceSettings)
  }

  /** One job's processing once its first update succeeded: the records it
      persists, in order, the storage afterwards and the external calls. */
  datatype Steps = Steps(trace: seq<Job>, store: FileStore, calls: seq<ExternalCall>)

  /** A persisted trace of one job: it starts processing at the first clock
      reading, stays processing until its last record, which is terminal and
      completed at the last reading, and never alters the submitted request. */
  predicate Lifecycle(job: Job, clock: Clock, t: seq<Job>) {
    && t != []
    && t[0].status == Processing && t[0].startedAt == Some(clock.started)
    && (forall i :: 0 <= i < |t| - 1 ==> t[i].status == Processing)
    && Last(t).status.IsTerminal() && Last(t).completedAt == Some(clock.finished)
    && (forall i :: 0 <= i < |t| ==> SameRequest(job, t[i]))
  }

  /** The records persisted while the job is running: processing, then the
      10% and 30% checkpoints, and the 70% and 90% ones when `reached`. */
  function Running(job: Job, env: JobEnv, reached: nat): (t: seq<Job>)
    requires reached <= 2
    ensures |t| == 3 + reached && t[0].startedAt == Some(env.clock.started)
    ensures forall i :: 0 <= i < |t| ==> t[i].status == Processing && SameRequest(job, t[i])
    ensures t[0].progress == job.progress && t[1].progress == 10 && t[2].progress == 30
    ensures reached >= 1 ==> t[3].progress == 70
    ensures reached == 2 ==> t[4].progress == 90
    ensures var est := Some(env.clock.estimated + EstimateDuration(Utf8Len(job.text)));
      && t[1].estimatedCompletionAt == est && t[2].estimatedCompletionAt == est
      && (reached >= 1 ==> t[3].estimatedCompletionAt == est)
      && (reached == 2 ==> t[4].estimatedCompletionAt.None?)
  {
    var processing := SetProcessing(job, env.clock.started);
    var estimate := Some(env.clock.estimated + EstimateDuration(Utf8Len(job.text)));
    var at10 := UpdateProgress(processing, 10, estimate);
    var at30 := UpdateProgress(at10, 30, estimate);
    var at70 := UpdateProgress(at30, 70, estimate);
    var at90 := UpdateProgress(at70, 90, None);
    [processing, at10, at30, at70, at90][..3 + reached]
  }

  /** Closing a running trace with a terminal record completed at the last
      clock reading gives a lifecycle. */
  lemma {:induction false} Closes(job: Job, clock: Clock, running: seq<Job>, final: Job)
    requires running != [] && running[0].startedAt == Some(clock.started)
    requires forall i :: 0 <= i < |running| ==> running[i].status == Processing && SameRequest(job, running[i])
    requires final.status.IsTerminal() && final.completedAt == Some(clock.finished) && SameRequest(job, final)
    ensures Lifecycle(job, clock, running + [final])
  {
    var t := running + [final];
    assert forall i :: 0 <= i < |running| ==> t[i] == running[i];
    assert Last(t) == final;
  }

  function Checkpoints(job: Job, s: FileStore, env: JobEnv, retentionHours: int): (r: Steps)
    ensures 4 <= |r.trace| <= 6
    ensures r.trace == Running(job, env, |r.trace| - 4) + [Last(r.trace)]
    ensures Last(r.trace).status.IsTerminal() && Last(r.trace).completedAt == Some(env.clock.finished)
    ensures SameRequest(job, Last(r.trace))
    ensures r.calls != [] && r.calls[0] == CallSynthesize(RequestOf(job))
  {
    var asked := [CallSynthesize(RequestOf(job))];
    match env.synthesis
    case Failure(err) =>
      var running := Running(job, env, 0);
      var final := SetFailed(Last(running), err, env.clock.finished);
      Steps(running + [final], s, asked)
    case Success(result) =>
      if env.readError.Some? then
        var running := Running(job, env, 1);
        var final := SetFailed(Last(running), env.readError.value, env.clock.finished);
          Steps(running + [final], s, asked)
      else
        var running := Running(job, env, 2);
        var calls := asked + [CallStore(job.id, result.audio, job.outputFormat)];
        match Store(s, job.id, result.audio, job.outputFormat, env.clock.written, env.writeError)
        case Failure(err) =>
          var final := SetFailed(Last(running), err, env.clock.finished);
              Steps(running + [final], s, calls)
        case Success(stored) =>
          var final := SetCompleted(Last(running), stored.path, retentionHours, env.clock.finished);
              Steps(running + [final], stored.store, calls)
  }

  function Last(trace: seq<Job>): Job
    requires trace != []
  {
    trace[|trace| - 1]
  }

  /** The outcome of `processJob`. */
  datatype Processed = Processed(queue: Queue, store: FileStore, trace: seq<Job>, calls: seq<ExternalCall>)

  /** `processJob`. A job whose record has been deleted fails its first
      update and is dropped untouched. Otherwise every checkpoint is written
      back (later write-back failures cannot happen once the first one
      succeeded), so the registry ends holding the last record of the trace:
      the job's status moves queued, processing, then one terminal state. */
  function ProcessJob(q: Queue, s: FileStore, job: Job, env: JobEnv, retentionHours: int): (r: Processed)
    ensures job.id !in q.jobs ==> r == Processed(q, s, [], [])
    ensures job.id in q.jobs ==>
      && Lifecycle(job, env.clock, r.trace)
      && r.queue.jobs == q.jobs[job.id := Last(r.trace)]
      && r.queue.pending == q.pending && r.queue.closed == q.closed && r.queue.bufferSize == q.bufferSize
      && r.calls != [] && r.calls[0] == CallSynthesize(RequestOf(job))
    ensures Valid(q) ==> Valid(r.queue)
  {
    if job.id !in q.jobs then Processed(q, s, [], [])
    else
      var steps := Checkpoints(job, s, env, retentionHours);
      Closes(job, env.clock, Running(job, env, |steps.trace| - 4), Last(steps.trace));
      Processed(q.(jobs := q.jobs[job.id := Last(steps.trace)]), steps.store, steps.trace, steps.calls)
  }

  /** The completion estimate `est` is shown at 10% and 30%, still at 70%
      when reached, and cleared at 90%. */
  predicate EstimateShown(est: Option<Time>, t: seq<Job>) {
    && 4 <= |t|
    && t[1].estimatedCompletionAt == est && t[2].estimatedCompletionAt == est
    && (|t| >= 5 ==> t[3].estimatedCompletionAt == est)
    && (|t| == 6 ==> t[4].estimatedCompletionAt.None?)
  }

  lemma CheckpointEstimates(job: Job, s: FileStore, env: JobEnv, retentionHours: int)
    ensures EstimateShown(Some(env.clock.estimated + EstimateDuration(Utf8Len(job.text))),
                          Checkpoints(job, s, env, retentionHours).trace)
  {
    var t := Checkpoints(job, s, env, retentionHours).trace;
    var running := Running(job, env, |t| - 4);
    assert forall i :: 0 <= i < |running| ==> t[i] == running[i];
  }

  /** The completion estimate is attached from the first checkpoint, measured
      from the UTF-8 length of the text, and cleared once the audio is in
      hand. */
  lemma EstimateAttached(q: Queue, s: FileStore, job: Job, env: JobEnv, retentionHours: int)
    requires job.id in q.jobs
    ensures EstimateShown(Some(env.clock.estimated + 2000 + 5 * Utf8Len(job.text)),
                          ProcessJob(q, s, job, env, retentionHours).trace)
  {
    CheckpointEstimates(job, s, env, retentionHours);
  }

  /** Progress never decreases along a trace. */
  predicate Ascending(t: seq<Job>) {
    forall i, j :: 0 <= i <= j < |t| ==> t[i].progress <= t[j].progress
  }

  /** The progress checkpoints by position: the starting value, 10, 30, then
      70 and 90 when reached, and the final record at or above the last
      checkpoint. */
  predicate Ladder(start: int, t: seq<Job>) {
    && 4 <= |t| <= 6
    && t[0].progress == start && t[1].progress == 10 && t[2].progress == 30
    && t[3].progress == (if |t| == 4 then 30 else 70)
    && (|t| >= 5 ==> t[4].progress == (if |t| == 5 then 70 else 90))
    && (|t| == 6 ==> t[5].progress >= 90)
  }

  lemma ProgressLadder(job: Job, s: FileStore, env: JobEnv, retentionHours: int)
    ensures Ladder(job.progress, Checkpoints(job, s, env, retentionHours).trace)
  {
    var t := Checkpoints(job, s, env, retentionHours).trace;
    var running := Running(job, env, |t| - 4);
    assert forall i :: 0 <= i < |running| ==> t[i] == running[i];
    assert Last(t).progress == (if |t| == 4 then 30 else if |t| == 5 then 70 else if Last(t).status == Completed then 100 else 90);
  }

  lemma LadderAscends(start: int, t: seq<Job>)
    requires start <= 10 && Ladder(start, t)
    ensures Ascending(t)
  {
  }

  /** Progress never goes backwards along the persisted records, provided the
      job did not start above the first checkpoint. */
  lemma ProgressMonotone(q: Queue, s: FileStore, job: Job, env: JobEnv, retentionHours: int)
    requires job.id in q.jobs && job.progress <= 10
    ensures Ascending(ProcessJob(q, s, job, env, retentionHours).trace)
  {
    ProgressLadder(job, s, env, retentionHours);
    LadderAscends(job.progress, Checkpoints(job, s, env, retentionHours).trace);
  }

  /** A provider error fails the job at 30% with the provider's message; the
      storage is never called. */
  lemma SynthesisFailure(q: Queue, s: FileStore, job: Job, env: JobEnv, retentionHours: int)
    requires job.id in q.jobs && env.synthesis.Failure?
    ensures var r := ProcessJob(q, s, job, env, retentionHours);
      && r.queue.jobs[job.id].status == Failed
      && r.queue.jobs[job.id].progress == 30
      && r.queue.jobs[job.id].errorMessage == env.synthesis.error
      && r.queue.jobs[job.id].resultPath == job.resultPath
      && r.store == s && r.calls == [CallSynthesize(RequestOf(job))]
  {
  }

  /** A failed read of the audio stream fails the job at 70%; the storage is
      never called. */
  lemma ReadFailure(q: Queue, s: FileStore, job: Job, env: JobEnv, retentionHours: int)
    requires job.id in q.jobs && env.synthesis.Success? && env.readError.Some?
    ensures var r := ProcessJob(q, s, job, env, retentionHours);
      && r.queue.jobs[job.id].status == Failed
      && r.queue.jobs[job.id].progress == 70
      && r.queue.jobs[job.id].errorMessage == env.readError.value
      && r.queue.jobs[job.id].resultPath == job.resultPath
      && r.store == s && r.calls == [CallSynthesize(RequestOf(job))]
  {
  }

  /** A failed write fails the job at 90% with the storage's message and
      leaves both the storage and the job's result path as they were. */
  lemma StoreFailure(q: Queue, s: FileStore, job: Job, env: JobEnv, retentionHours: int)
    requires job.id in q.jobs && env.synthesis.Success? && env.readError.None?
    requires Store(s, job.id, env.synthesis.value.audio, job.outputFormat, env.clock.written, env.writeError).Failure?
    ensures var r := ProcessJob(q, s, job, env, retentionHours);
      && r.queue.jobs[job.id].status == Failed
      && r.queue.jobs[job.id].progress == 90
      && r.queue.jobs[job.id].errorMessage ==
           Store(s, job.id, env.synthesis.value.audio, job.outputFormat, env.clock.written, env.writeError).error
      && r.queue.jobs[job.id].resultPath == job.resultPath
      && r.store == s
      && r.calls == [CallSynthesize(RequestOf(job)), CallStore(job.id, env.synthesis.value.audio, job.outputFormat)]
  {
  }

  /** A job completes exactly when synthesis, the read and the write all
      succeed; it then holds the written path and expires `retentionHours`
      after it finished, and the file holds the synthesised bytes. */
  lemma CompletionIff(q: Queue, s: FileStore, job: Job, env: JobEnv, retentionHours: int)
    requires job.id in q.jobs
    ensures var r := ProcessJob(q, s, job, env, retentionHours);
      r.queue.jobs[job.id].status == Completed <==>
        && env.synthesis.Success? && env.readError.None?
        && Store(s, job.id, env.synthesis.value.audio, job.outputFormat, env.clock.written, env.writeError).Success?
    ensures var r := ProcessJob(q, s, job, env, retentionHours);
      r.queue.jobs[job.id].status == Completed ==>
        && r.queue.jobs[job.id].progress == 100
        && r.queue.jobs[job.id].resultPath == Join(s.basePath, FileName(job.id, job.outputFormat))
        && r.queue.jobs[job.id].expiresAt == Some(env.clock.finished + retentionHours * MillisPerHour)
        && r.store.entries == s.entries[FileName(job.id, job.outputFormat) := File(env.synthesis.value.audio, env.clock.written)]
        && r.calls == [CallSynthesize(RequestOf(job)), CallStore(job.id, env.synthesis.value.audio, job.outputFormat)]
  {
  }

  /** The IDs of a sequence of jobs. */
  ghost function IdsOf(jobs: seq<Job>): set<string> {
    if jobs == [] then {} else IdsOf(jobs[..|jobs| - 1]) + {jobs[|jobs| - 1].id}
  }

  /** The loop state of `Run` after claiming the first `n` buffered jobs. */
  ghost predicate RunSoFar(q: Queue, n: nat, q': Queue) {
    && n <= |q.pending|
    && q'.pending == q.pending[n..]
    && q'.jobs.Keys == q.jobs.Keys
    && q'.closed == q.closed && q'.bufferSize == q.bufferSize
    && (forall id :: id in q'.jobs && id in IdsOf(q.pending[..n]) ==> q'.jobs[id].status.IsTerminal())
    && (forall id :: id in q.jobs && id !in IdsOf(q.pending[..n]) ==> q'.jobs[id] == q.jobs[id])
  }

  lemma RunStep(q: Queue, n: nat, q': Queue, s: FileStore, env: JobEnv, retentionHours: int)
    requires RunSoFar(q, n, q') && n < |q.pending|
    ensures var d := Dequeue(q', ChannelReady);
      && d.claim == Claimed(q.pending[n])
      && RunSoFar(q, n + 1, ProcessJob(d.queue, s, q.pending[n], env, retentionHours).queue)
  {
    var d := Dequeue(q', ChannelReady);
    var q2 := ProcessJob(d.queue, s, q.pending[n], env, retentionHours).queue;
    assert q.pending[..n + 1][..n] == q.pending[..n];
    assert IdsOf(q.pending[..n + 1]) == IdsOf(q.pending[..n]) + {q.pending[n].id};
    assert q.pending[n + 1..] == q.pending[n..][1..];
  }

  /** One worker's `run` loop, alone on the queue. `cancelAfter` is the number
      of jobs after which the worker's context is cancelled, if it ever is;
      `envs(k)` is the environment the k-th claimed job meets. The worker
      claims buffered jobs oldest first and processes each one until its
      context is cancelled or the closed buffer is drained. An open queue
      with no cancellation in sight would block forever, which the
      precondition excludes. */
  method Run(q: Queue, s: FileStore, envs: nat -> JobEnv, cancelAfter: Option<nat>, retentionHours: int)
    returns (q': Queue, s': FileStore, handled: nat)
    requires !q.closed ==> cancelAfter.Some? && cancelAfter.value <= |q.pending|
    ensures handled <= |q.pending| && q'.pending == q.pending[handled..]
    ensures cancelAfter.Some? && cancelAfter.value <= |q.pending| ==> handled == cancelAfter.value
    ensures (cancelAfter.None? || cancelAfter.value > |q.pending|) ==> handled == |q.pending| && q'.pending == []
    ensures q'.jobs.Keys == q.jobs.Keys && q'.closed == q.closed && q'.bufferSize == q.bufferSize
    ensures forall id :: id in q'.jobs && id in IdsOf(q.pending[..handled]) ==> q'.jobs[id].status.IsTerminal()
    ensures forall id :: id in q.jobs && id !in IdsOf(q.pending[..handled]) ==> q'.jobs[id] == q.jobs[id]
  {
    q', s', handled := q, s, 0;
    while true
      invariant RunSoFar(q, handled, q')
      invariant cancelAfter.Some? ==> handled <= cancelAfter.value
      decreases |q'.pending|
    {
      if cancelAfter == Some(handled) {
        return;
      }
      var d := Dequeue(q', ChannelReady);
      match d.claim {
        case Claimed(job) =>
          RunStep(q, handled, q', s', envs(handled), retentionHours);
          var p := ProcessJob(d.queue, s', job, envs(handled), retentionHours);
          q', s', handled := p.queue, p.store, handled + 1;
        case _ =>
          return;
      }
    }
  }
}
