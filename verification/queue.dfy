/** The in-memory registry and bounded FIFO dispatch buffer
    (internal/queue/memory/queue.go), as a value. Go's `select` between a
    channel operation and the caller's context is modelled by a `Wakeup`
    input naming the case that fired; a case that is not ready cannot fire,
    so a call that would block is excluded by the precondition. */
module JobQueue {
  import opened Wrappers
  import opened Jobs
  import opened ApiErrors

  /** What `ctx.Err()` reports once the caller's context is done. */
  datatype CtxError = Canceled | DeadlineExceeded

  /** The `select` case that fired: the channel operation, or the caller's
      context being done. */
  datatype Wakeup = ChannelReady | ContextDone(reason: CtxError)

  datatype Queue = Queue(jobs: map<string, Job>, pending: seq<Job>, bufferSize: nat, closed: bool)

  /** Every reachable queue: records are filed under their own ID and the
      buffer never holds more than its capacity. */
  ghost predicate Valid(q: Queue) {
    && |q.pending| <= q.bufferSize
    && forall id :: id in q.jobs ==> q.jobs[id].id == id
  }

  function NewQueue(bufferSize: nat): (q: Queue)
    ensures Valid(q) && !q.closed && q.bufferSize == bufferSize
    ensures q.jobs == map[] && q.pending == []
  {
    Queue(map[], [], bufferSize, false)
  }

  /** The result of `Enqueue`: the new state and the error returned, if any. */
  datatype Admission = Admission(queue: Queue, err: Option<CtxError>)

  /** A closed queue refuses with `Canceled` and changes nothing. Otherwise the
      job is registered first, then either handed to the buffer or, when the
      caller's context fires instead, left registered but not buffered. */
  function Enqueue(q: Queue, job: Job, wake: Wakeup): (r: Admission)
    requires q.closed || wake.ContextDone? || |q.pending| < q.bufferSize
    ensures q.closed ==> r == Admission(q, Some(Canceled))
    ensures !q.closed ==> r.queue.jobs == q.jobs[job.id := job]
    ensures !q.closed && wake == ChannelReady ==> r.queue.pending == q.pending + [job] && r.err == None
    ensures !q.closed && wake.ContextDone? ==> r.queue.pending == q.pending && r.err == Some(wake.reason)
    ensures r.queue.closed == q.closed && r.queue.bufferSize == q.bufferSize
    ensures Valid(q) ==> Valid(r.queue)
  {
    if q.closed then Admission(q, Some(Canceled))
    else
      var registered := q.(jobs := q.jobs[job.id := job]);
      match wake
      case ChannelReady => Admission(registered.(pending := q.pending + [job]), None)
      case ContextDone(reason) => Admission(registered, Some(reason))
  }

  /** What `Dequeue` hands back: a job, `(nil, nil)` once closed and drained,
      or the context's error. */
  datatype Claim = Claimed(job: Job) | Drained | Interrupted(reason: CtxError)

  datatype Dispatch = Dispatch(queue: Queue, claim: Claim)

  /** Receiving blocks on an open, empty buffer; a closed buffer still yields
      its remaining jobs, oldest first, before reporting `Drained`. */
  function Dequeue(q: Queue, wake: Wakeup): (r: Dispatch)
    requires wake.ContextDone? || |q.pending| > 0 || q.closed
    ensures wake == ChannelReady && |q.pending| > 0 ==>
      r.claim == Claimed(q.pending[0]) && r.queue.pending == q.pending[1..]
    ensures wake == ChannelReady && |q.pending| == 0 ==> r == Dispatch(q, Drained)
    ensures wake.ContextDone? ==> r == Dispatch(q, Interrupted(wake.reason))
    ensures r.queue.jobs == q.jobs && r.queue.closed == q.closed && r.queue.bufferSize == q.bufferSize
    ensures Valid(q) ==> Valid(r.queue)
  {
    match wake
    case ContextDone(reason) => Dispatch(q, Interrupted(reason))
    case ChannelReady =>
      if |q.pending| > 0 then Dispatch(q.(pending := q.pending[1..]), Claimed(q.pending[0]))
      else Dispatch(q, Drained)
  }

  function GetJob(q: Queue, jobId: string): (r: Result<Job, APIError>)
    ensures r.Success? <==> jobId in q.jobs
    ensures r.Success? ==> r.value == q.jobs[jobId]
    ensures r.Failure? ==> r.error == Standard(JobNotFound)
  {
    if jobId in q.jobs then Success(q.jobs[jobId]) else Failure(Standard(JobNotFound))
  }

  /** Replaces the whole record of a registered job; never inserts. */
  function UpdateJob(q: Queue, job: Job): (r: Result<Queue, APIError>)
    ensures r.Success? <==> job.id in q.jobs
    ensures r.Failure? ==> r.error == Standard(JobNotFound)
    ensures r.Success? ==> r.value.jobs == q.jobs[job.id := job] && r.value.jobs.Keys == q.jobs.Keys
    ensures r.Success? ==> r.value.pending == q.pending && r.value.closed == q.closed
                           && r.value.bufferSize == q.bufferSize
    ensures r.Success? && Valid(q) ==> Valid(r.value)
  {
    if job.id in q.jobs then Success(q.(jobs := q.jobs[job.id := job]))
    else Failure(Standard(JobNotFound))
  }

  /** The IDs of registered jobs in status `s`. */
  ghost function IdsWith(jobs: map<string, Job>, s: JobStatus): set<string> {
    set id | id in jobs && jobs[id].status == s
  }

  /** Visiting one more element grows a filtered count by one exactly when
      the element passes the filter. */
  lemma CountStep<T>(a: set<T>, visited: set<T>, x: T)
    requires x !in visited
    ensures |a * (visited + {x})| == |a * visited| + (if x in a then 1 else 0)
  {
    if x in a {
      assert a * (visited + {x}) == a * visited + {x};
    } else {
      assert a * (visited + {x}) == a * visited;
    }
  }

  /** `result` lists, once each and through `ids`, the jobs in status `s`
      filed under the visited IDs. */
  ghost predicate Listed(jobs: map<string, Job>, s: JobStatus, visited: set<string>,
                         result: seq<Job>, ids: seq<string>)
  {
    && |ids| == |result| == |IdsWith(jobs, s) * visited|
    && (forall i :: 0 <= i < |ids| ==> ids[i] in visited && ids[i] in jobs && result[i] == jobs[ids[i]])
    && (forall i :: 0 <= i < |result| ==> result[i].status == s)
    && (forall i, j :: 0 <= i < j < |ids| ==> ids[i] != ids[j])
    && (forall id :: id in visited && id in jobs && jobs[id].status == s ==> id in ids)
  }

  lemma ListStep(jobs: map<string, Job>, s: JobStatus, visited: set<string>,
                 result: seq<Job>, ids: seq<string>, id: string)
    requires id in jobs && id !in visited && Listed(jobs, s, visited, result, ids)
    ensures jobs[id].status == s ==> Listed(jobs, s, visited + {id}, result + [jobs[id]], ids + [id])
    ensures jobs[id].status != s ==> Listed(jobs, s, visited + {id}, result, ids)
  {
    CountStep(IdsWith(jobs, s), visited, id);
  }

  /** `ListJobs(s)`: exactly the registered jobs in status `s`, each once, in
      no particular order (Go ranges over the map). */
  method ListJobs(q: Queue, s: JobStatus) returns (result: seq<Job>, ghost ids: seq<string>)
    ensures |ids| == |result| == |IdsWith(q.jobs, s)|
    ensures forall i :: 0 <= i < |result| ==> ids[i] in q.jobs && result[i] == q.jobs[ids[i]]
    ensures forall i :: 0 <= i < |result| ==> result[i].status == s
    ensures forall i, j :: 0 <= i < j < |ids| ==> ids[i] != ids[j]
    ensures forall id :: id in q.jobs && q.jobs[id].status == s ==> id in ids
  {
    result, ids := [], [];
    ghost var visited: set<string> := {};
    var remaining := q.jobs.Keys;
    while remaining != {}
      invariant remaining <= q.jobs.Keys && visited <= q.jobs.Keys
      invariant forall id :: id in q.jobs ==> (id in visited <==> id !in remaining)
      invariant Listed(q.jobs, s, visited, result, ids)
      decreases remaining
    {
      var id :| id in remaining;
      ListStep(q.jobs, s, visited, result, ids, id);
      if q.jobs[id].status == s {
        result, ids := result + [q.jobs[id]], ids + [id];
      }
      visited := visited + {id};
      remaining := remaining - {id};
    }
    assert visited == q.jobs.Keys;
    assert IdsWith(q.jobs, s) * visited == IdsWith(q.jobs, s);
  }

  /** Removes the record, whether or not it exists; the buffer is untouched. */
  function DeleteJob(q: Queue, jobId: string): (r: Queue)
    ensures jobId !in r.jobs && r.jobs.Keys == q.jobs.Keys - {jobId}
    ensures forall id :: id in r.jobs ==> r.jobs[id] == q.jobs[id]
    ensures r.pending == q.pending && r.closed == q.closed && r.bufferSize == q.bufferSize
    ensures Valid(q) ==> Valid(r)
  {
    q.(jobs := q.jobs - {jobId})
  }

  function Close(q: Queue): (r: Queue)
    ensures r.closed
    ensures r.jobs == q.jobs && r.pending == q.pending && r.bufferSize == q.bufferSize
    ensures Valid(q) ==> Valid(r)
  {
    q.(closed := true)
  }

  /** Per-status tallies of the registry. */
  datatype QueueStats = QueueStats(totalJobs: nat, queuedJobs: nat, processingJobs: nat,
                                   completedJobs: nat, failedJobs: nat)

  /** Counts one more job in status `s`. */
  function Tally(st: QueueStats, s: JobStatus): QueueStats {
    var st' := st.(totalJobs := st.totalJobs + 1);
    match s
    case Queued => st'.(queuedJobs := st.queuedJobs + 1)
    case Processing => st'.(processingJobs := st.processingJobs + 1)
    case Completed => st'.(completedJobs := st.completedJobs + 1)
    case Failed => st'.(failedJobs := st.failedJobs + 1)
  }

  /** `st` tallies exactly the jobs filed under the IDs in `visited`. */
  ghost predicate Tallied(jobs: map<string, Job>, visited: set<string>, st: QueueStats) {
    && st.totalJobs == |visited|
    && st.queuedJobs == |IdsWith(jobs, Queued) * visited|
    && st.processingJobs == |IdsWith(jobs, Processing) * visited|
    && st.completedJobs == |IdsWith(jobs, Completed) * visited|
    && st.failedJobs == |IdsWith(jobs, Failed) * visited|
  }

  predicate Balanced(st: QueueStats) {
    st.queuedJobs + st.processingJobs + st.completedJobs + st.failedJobs == st.totalJobs
  }

  /** Every counted job lands in exactly one status bucket. */
  lemma TallyBalanced(st: QueueStats, s: JobStatus)
    requires Balanced(st)
    ensures Balanced(Tally(st, s))
  {
  }

  /** Visiting one more job adds one to its own status bucket only. */
  lemma BucketStep(jobs: map<string, Job>, visited: set<string>, id: string, s: JobStatus)
    requires id in jobs && id !in visited
    ensures |IdsWith(jobs, s) * (visited + {id})|
            == |IdsWith(jobs, s) * visited| + (if jobs[id].status == s then 1 else 0)
  {
    CountStep(IdsWith(jobs, s), visited, id);
  }

  /** Tallying a job adds one to the total and to its own status's count. */
  lemma TallyCounts(st: QueueStats, s: JobStatus)
    ensures var t := Tally(st, s);
      && t.totalJobs == st.totalJobs + 1
      && t.queuedJobs == st.queuedJobs + (if s == Queued then 1 else 0)
      && t.processingJobs == st.processingJobs + (if s == Processing then 1 else 0)
      && t.completedJobs == st.completedJobs + (if s == Completed then 1 else 0)
      && t.failedJobs == st.failedJobs + (if s == Failed then 1 else 0)
  {
  }

  lemma TallyStep(jobs: map<string, Job>, visited: set<string>, id: string, st: QueueStats)
    requires id in jobs && id !in visited && Tallied(jobs, visited, st)
    ensures Tallied(jobs, visited + {id}, Tally(st, jobs[id].status))
  {
    TallyCounts(st, jobs[id].status);
    BucketStep(jobs, visited, id, Queued);
    BucketStep(jobs, visited, id, Processing);
    BucketStep(jobs, visited, id, Completed);
    BucketStep(jobs, visited, id, Failed);
  }

  lemma TalliedAll(jobs: map<string, Job>, st: QueueStats)
    requires Tallied(jobs, jobs.Keys, st)
    ensures st.queuedJobs == |IdsWith(jobs, Queued)|
    ensures st.processingJobs == |IdsWith(jobs, Processing)|
    ensures st.completedJobs == |IdsWith(jobs, Completed)|
    ensures st.failedJobs == |IdsWith(jobs, Failed)|
  {
    assert IdsWith(jobs, Queued) * jobs.Keys == IdsWith(jobs, Queued);
    assert IdsWith(jobs, Processing) * jobs.Keys == IdsWith(jobs, Processing);
    assert IdsWith(jobs, Completed) * jobs.Keys == IdsWith(jobs, Completed);
    assert IdsWith(jobs, Failed) * jobs.Keys == IdsWith(jobs, Failed);
  }

  method Stats(q: Queue) returns (st: QueueStats)
    ensures st.totalJobs == |q.jobs|
    ensures st.queuedJobs + st.processingJobs + st.completedJobs + st.failedJobs == st.totalJobs
    ensures st.queuedJobs == |IdsWith(q.jobs, Queued)|
    ensures st.processingJobs == |IdsWith(q.jobs, Processing)|
    ensures st.completedJobs == |IdsWith(q.jobs, Completed)|
    ensures st.failedJobs == |IdsWith(q.jobs, Failed)|
  {
    st := TallyAll(q.jobs);
    TalliedAll(q.jobs, st);
  }

  /** One pass over the registry, counting each job under its status. */
  method TallyAll(jobs: map<string, Job>) returns (st: QueueStats)
    ensures Tallied(jobs, jobs.Keys, st) && Balanced(st)
  {
    st := QueueStats(0, 0, 0, 0, 0);
    ghost var visited: set<string> := {};
    var remaining := jobs.Keys;
    while remaining != {}
      invariant remaining <= jobs.Keys && visited <= jobs.Keys
      invariant forall id :: id in jobs ==> (id in visited <==> id !in remaining)
      invariant Tallied(jobs, visited, st)
      invariant Balanced(st)
      decreases remaining
    {
      var id :| id in remaining;
      TallyStep(jobs, visited, id, st);
      TallyBalanced(st, jobs[id].status);
      st := Tally(st, jobs[id].status);
      visited := visited + {id};
      remaining := remaining - {id};
    }
    assert visited == jobs.Keys;
  }

  /** After `Close`, every `Enqueue` fails with `Canceled` and changes nothing,
      and closing again is a no-op. */
  lemma ClosedRejectsEnqueue(q: Queue, job: Job, wake: Wakeup)
    ensures Close(Close(q)) == Close(q)
    ensures Enqueue(Close(q), job, wake) == Admission(Close(q), Some(Canceled))
  {
  }

  /** A job admitted through the buffer is immediately visible by ID. */
  lemma EnqueueThenGet(q: Queue, job: Job)
    requires !q.closed && |q.pending| < q.bufferSize
    ensures GetJob(Enqueue(q, job, ChannelReady).queue, job.id) == Success(job)
  {
  }

  /** A full buffer and a cancelled caller: the error is returned, yet the job
      stays registered as it was submitted and is never dispatched. */
  lemma CancelledWhileFull(q: Queue, job: Job, reason: CtxError)
    requires !q.closed && |q.pending| == q.bufferSize
    ensures var r := Enqueue(q, job, ContextDone(reason));
      && r.err == Some(reason) && GetJob(r.queue, job.id) == Success(job)
      && r.queue.pending == q.pending
  {
  }

  /** FIFO: a newcomer never overtakes a job already waiting. */
  lemma NoOvertaking(q: Queue, job: Job)
    requires !q.closed && |q.pending| < q.bufferSize
    ensures var q' := Enqueue(q, job, ChannelReady).queue;
      Dequeue(q', ChannelReady).claim == Claimed(if |q.pending| > 0 then q.pending[0] else job)
  {
  }

  /** After deletion the job is not found, and deleting again changes nothing. */
  lemma DeleteThenGet(q: Queue, jobId: string)
    ensures GetJob(DeleteJob(q, jobId), jobId) == Failure(Standard(JobNotFound))
    ensures DeleteJob(DeleteJob(q, jobId), jobId) == DeleteJob(q, jobId)
  {
  }

  /** Draining a closed queue returns the buffered jobs in submission order,
      then `Drained`. */
  method DrainClosed(q: Queue) returns (claimed: seq<Job>, q': Queue)
    requires q.closed
    ensures claimed == q.pending
    ensures q'.pending == [] && q'.jobs == q.jobs && q'.closed
    ensures Dequeue(q', ChannelReady).claim == Drained
  {
    claimed, q' := [], q;
    while true
      invariant q'.closed && q'.jobs == q.jobs
      invariant claimed + q'.pending == q.pending
      decreases |q'.pending|
    {
      var d := Dequeue(q', ChannelReady);
      match d.claim {
        case Claimed(job) =>
          claimed, q' := claimed + [job], d.queue;
        case _ =>
          return;
      }
    }
  }
}
