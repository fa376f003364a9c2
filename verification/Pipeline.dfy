/** The download-job pipeline as a transition system.

    State: the `download_jobs` and `outbox` tables, the Redis list and sorted sets, the worker's
    tasks and the downloaded files. Grain: a database transaction that touches no Redis key is one
    step, and so is a Redis command; a transaction that brackets a Redis push is split at the push
    (relay, `schedule_retry`, drain), so that other steps may land between a push and its commit. The
    read of a `retry` call, which takes no lock, is a step before its write.

    `Apply` is total: a step whose guard fails, or whose compare-and-set update matches no row,
    leaves the corresponding part of the state alone, as the code does. */
module Pipeline {
  import opened Prelude
  import RetryPolicy

  type JobId = nat
  type RowId = nat
  type TaskId = nat
  type FileId = nat
  type DrainId = nat
  type CallId = nat
  /** Milliseconds. */
  type Time = int

  datatype Status = Pending | Processing | Completed | Failed | Deferred

  datatype Job = Job(
    status: Status,
    retryCount: int,
    maxRetries: int,
    nextRetryAt: Option<Time>,
    updatedAt: Time,
    filePath: Option<FileId>)

  /** The `next_retry_at` field of a `retry_scheduled` payload as the relay reads it. */
  datatype Payload = NextRetryAt(at: Time) | NoNextRetryAt | Unparsable

  datatype Event = EnqueueDownload | ZombieRecovery | RetryScheduled(payload: Payload)

  datatype RowStatus = RowPending | RowProcessed | RowFailed

  datatype Row = Row(job: JobId, event: Event, status: RowStatus, processedAt: Option<Time>)

  /** A worker task: it holds a popped id, or runs a claimed job with the snapshot of its row taken
      at the claim, or is between the two halves of a retry, a failure or a deferral, or has committed
      what it had to and can still be cancelled before it returns. */
  datatype Task =
    | Popped(job: JobId)
    | Running(job: JobId, retryCount: int, maxRetries: int, file: Option<FileId>)
    | Scheduling(job: JobId, row: RowId, at: Time, pushed: bool)
    | Burying(job: JobId)
    | Recording(job: JobId, service: string)
    | Ending(job: JobId, handlers: nat)

  /** How many `except CancelledError` handlers a cancellation of the task runs at most, each with a
      requeue of its own: that of `execute` and behind it that of `process_next_job`, or only the second. */
  function Handlers(task: Task): nat {
    match task
    case Popped(_) => 0
    case Running(_, _, _, _) => 2
    case Ending(_, n) => n
    case _ => 1
  }

  /** The sorted set `circuit_deferred_queue`, and the entries whose job a drain has seen to in the
      database and is about to remove from the set. */
  datatype DeferredSet = DeferredSet(members: set<(string, JobId)>, leaving: map<DrainId, (string, JobId)>)

  /** What an open `retry` call has read of its job, which then was failed or deferred: whether the retry
      count and the planned time are others than those it will set. Only such columns are written. */
  datatype Seen = Seen(job: JobId, counted: bool, planned: bool)

  /** What the API's calls look at: dead-letter rows by original job, and the open calls. */
  datatype Desk = Desk(failedJobs: multiset<JobId>, retrying: map<CallId, Seen>)

  datatype State = State(
    jobs: map<JobId, Job>,
    outbox: map<RowId, Row>,
    relayed: set<RowId>,                      // delivered by a relay pass that has not committed yet
    downloadQueue: seq<JobId>,                // LPUSH at the front, RPOP at the back
    retryQueue: map<JobId, Time>,
    deferred: DeferredSet,
    draining: set<JobId>,                     // rows locked by a drain pass that has not committed yet
    tasks: map<TaskId, Task>,
    disk: set<FileId>,
    desk: Desk,
    now: Time)

  const Init := State(map[], map[], {}, [], map[], DeferredSet({}, map[]), {}, map[], {}, Desk(multiset{}, map[]), 0)

  const SWEEP_TIMEOUT: Time := 900_000
  const ROW_RETENTION: Time := 86_400_000
  const MAX_RETRY_BATCH := 10

  /** What the caller of a Redis command pair sees and what Redis did: applied and acknowledged; not
      applied; applied but reported as failed; only the LREM half of LREM + LPUSH applied; applied and
      acknowledged, with another push of the same job between the two commands. */
  datatype Reply = Delivered | Refused | Unreported | RemovedOnly | Overtaken

  predicate Acknowledged(reply: Reply) {
    reply.Delivered? || reply.Overtaken?
  }

  /** The second command of the pair, or the only one, has been applied. */
  predicate Reached(reply: Reply) {
    Acknowledged(reply) || reply.Unreported?
  }

  datatype ApiStep =
    | Create(job: JobId, row: RowId, maxRetries: nat)
    | AskRetry(call: CallId, job: JobId)
    | UserRetry(call: CallId, row: RowId)
    | Replay(job: JobId, row: RowId)
    | ReplayAnew(job: JobId, newJob: JobId, row: RowId, maxRetries: nat)

  datatype RelayStep =
    | RelayPush(row: RowId, reply: Reply)
    | RelayAck(rows: set<RowId>, commits: bool)
    | RelayReject(row: RowId)
    | CleanUp

  datatype QueueStep =
    | ReleaseDue(due: seq<JobId>)
    | Pop(task: TaskId)
    | PushBack(task: TaskId, reply: Reply)
    | Drop(task: TaskId)
    | Claim(task: TaskId)

  datatype RunStep =
    | Beat(task: TaskId)
    | Die(task: TaskId)
    | Download(task: TaskId, file: FileId)
    | Complete(task: TaskId)
    | Fail(task: TaskId, category: RetryPolicy.Category)
    | Bury(task: TaskId)
    | Defer(task: TaskId, service: string)
    | Record(task: TaskId, delivered: bool)

  /** Ways back to `pending` that write a row, and the second half of `schedule_retry`. */
  datatype RequeueStep =
    | Retry(task: TaskId, category: RetryPolicy.Category, row: RowId, at: Time)
    | SchedulePush(task: TaskId, reply: Reply)
    | ScheduleAck(task: TaskId, commits: bool)
    | Requeue(task: TaskId, row: RowId)
    | Cancel(task: TaskId, row: RowId)
    | Sweep(rows: map<RowId, JobId>)

  datatype DrainStep =
    | DrainStale(drain: DrainId, service: string, job: JobId)
    | DrainPush(service: string, job: JobId, reply: Reply)
    | DrainCommit(drain: DrainId, service: string, job: JobId, commits: bool)
    | DrainForget(drain: DrainId, reply: Reply)
    | Reconcile(service: string, job: JobId)

  datatype Label =
    | Tick(elapsed: nat)
    | Api(api: ApiStep)
    | Relay(relay: RelayStep)
    | Queue(queue: QueueStep)
    | Work(work: RunStep)
    | Back(back: RequeueStep)
    | Drain(drain: DrainStep)

  predicate HasStatus(s: State, j: JobId, st: Status) {
    j in s.jobs && s.jobs[j].status == st
  }

  predicate PendingRow(s: State, r: RowId, j: JobId) {
    r in s.outbox && s.outbox[r].job == j && s.outbox[r].status.RowPending?
  }

  /** The partial unique index `uq_outbox_pending_job_id` rejects an insert exactly here. */
  predicate HasPendingRow(s: State, j: JobId) {
    exists r | r in s.outbox :: PendingRow(s, r, j)
  }

  predicate Usable(e: Event) {
    e.RetryScheduled? ==> e.payload.NextRetryAt?
  }

  /** Identifiers are random UUIDs: a new one is in use nowhere. */
  predicate FreshRow(s: State, r: RowId) {
    && r !in s.outbox
    && r !in s.relayed
    && forall t | t in s.tasks :: s.tasks[t].Scheduling? ==> s.tasks[t].row != r
  }

  predicate FreshFile(s: State, f: FileId) {
    && f !in s.disk
    && (forall j | j in s.jobs :: s.jobs[j].filePath != Some(f))
    && (forall t | t in s.tasks :: s.tasks[t].Running? ==> s.tasks[t].file != Some(f))
  }

  function WithStatus(s: State, j: JobId, st: Status): State
    requires j in s.jobs
  {
    s.(jobs := s.jobs[j := s.jobs[j].(status := st, updatedAt := s.now)])
  }

  function AddRow(s: State, r: RowId, j: JobId, e: Event): State {
    s.(outbox := s.outbox[r := Row(j, e, RowPending, None)])
  }

  function EndTask(s: State, t: TaskId): State {
    s.(tasks := s.tasks - {t})
  }

  /** The task has only messages and metrics left, with so many handlers still around it. */
  function Winding(s: State, t: TaskId, handlers: nat): State
    requires t in s.tasks
  {
    s.(tasks := s.tasks[t := Ending(s.tasks[t].job, handlers)])
  }

  /** `push_to_download_queue`: LREM every copy, then LPUSH one. A copy pushed in between stays. */
  function PushDownload(q: seq<JobId>, j: JobId, reply: Reply): seq<JobId> {
    match reply
    case Delivered | Unreported => [j] + Without(q, j)
    case Overtaken => [j] + q
    case RemovedOnly => Without(q, j)
    case Refused => q
  }

  /** `push_to_retry_queue`: nothing when ZSCORE finds the job there; an entry that comes between
      ZSCORE and ZADD is overwritten. */
  function PushRetry(m: map<JobId, Time>, j: JobId, at: Time, reply: Reply): map<JobId, Time> {
    if reply.Overtaken? || (j !in m && Reached(reply)) then m[j := at] else m
  }

  /** The push tells its caller that it has added the entry. */
  predicate AddsRetry(m: map<JobId, Time>, j: JobId, reply: Reply) {
    reply.Overtaken? || (reply.Delivered? && j !in m)
  }

  /** `_reset_job_for_replay` followed by `write_job_to_outbox`, in one transaction. The update asks for no
      status. */
  function ResetAndEnqueue(s: State, seen: Seen, r: RowId): State
    requires seen.job in s.jobs
  {
    var j := seen.job;
    var job := s.jobs[j];
    var s1 := s.(jobs := s.jobs[j := job.(
      status := Pending, retryCount := if seen.counted then 0 else job.retryCount,
      nextRetryAt := if seen.planned then None else job.nextRetryAt, updatedAt := s.now)]);
    if HasPendingRow(s, j) then s1 else AddRow(s1, r, j, EnqueueDownload)
  }

  function WithDead(s: State, j: JobId): State {
    s.(desk := s.desk.(failedJobs := s.desk.failedJobs + multiset{j}))
  }

  function WithoutDead(s: State, j: JobId): State {
    s.(desk := s.desk.(failedJobs := s.desk.failedJobs - multiset{j}))
  }

  function WithCall(s: State, call: CallId, seen: Seen): State {
    s.(desk := s.desk.(retrying := s.desk.retrying[call := seen]))
  }

  function WithoutCall(s: State, call: CallId): State {
    s.(desk := s.desk.(retrying := s.desk.retrying - {call}))
  }

  predicate CanReset(s: State, j: JobId, r: RowId) {
    j in s.jobs && j !in s.draining && FreshRow(s, r)
  }

  predicate CanAsk(s: State, call: CallId, j: JobId) {
    call !in s.desk.retrying && (HasStatus(s, j, Failed) || HasStatus(s, j, Deferred))
  }

  predicate CanUserRetry(s: State, call: CallId, r: RowId) {
    call in s.desk.retrying && CanReset(s, s.desk.retrying[call].job, r)
  }

  /** The call writes to job `j`. */
  predicate RetriesNow(s: State, call: CallId, r: RowId, j: JobId) {
    CanUserRetry(s, call, r) && s.desk.retrying[call].job == j
  }

  predicate CanReplay(s: State, j: JobId, r: RowId) {
    CanReset(s, j, r) && j in s.desk.failedJobs
  }

  predicate CanRelay(s: State, r: RowId) {
    r in s.outbox && s.outbox[r].status.RowPending? && r !in s.relayed && Usable(s.outbox[r].event)
  }

  function RelayPushed(s: State, r: RowId, reply: Reply): State
    requires CanRelay(s, r)
  {
    var j := s.outbox[r].job;
    var s1 :=
      match s.outbox[r].event
      case RetryScheduled(p) => s.(retryQueue := PushRetry(s.retryQueue, j, p.at, reply))
      case _ => s.(downloadQueue := PushDownload(s.downloadQueue, j, reply));
    if Acknowledged(reply) then s1.(relayed := s1.relayed + {r}) else s1
  }

  function Closed(s: State, rows: set<RowId>, st: RowStatus): map<RowId, Row> {
    map r | r in s.outbox ::
      if r in rows then s.outbox[r].(status := st, processedAt := Some(s.now)) else s.outbox[r]
  }

  function Reversed<T(!new)>(xs: seq<T>): (r: seq<T>)
    ensures |r| == |xs|
    ensures forall x :: x in r <==> x in xs
  {
    if xs == [] then [] else Reversed(xs[1..]) + [xs[0]]
  }

  /** The batch the release script picks: due entries, each once, at most ten. */
  predicate IsDueBatch(s: State, due: seq<JobId>) {
    && |due| <= MAX_RETRY_BATCH
    && (forall i | 0 <= i < |due| :: due[i] in s.retryQueue && 0 <= s.retryQueue[due[i]] <= s.now)
    && (forall i, k | 0 <= i < k < |due| :: due[i] != due[k])
  }

  predicate Stuck(s: State, j: JobId) {
    HasStatus(s, j, Processing) && s.jobs[j].updatedAt < s.now - SWEEP_TIMEOUT
  }

  /** One fresh row for each stuck job and for no other. */
  predicate IsSweep(s: State, rows: map<RowId, JobId>) {
    && (forall r | r in rows :: FreshRow(s, r) && Stuck(s, rows[r]))
    && (forall j | j in s.jobs :: Stuck(s, j) ==> j in rows.Values)
    && (forall r1, r2 | r1 in rows && r2 in rows :: rows[r1] == rows[r2] ==> r1 == r2)
  }

  /** The sweeper's single commit goes through only if the index accepts every new row. */
  predicate SweepCommits(s: State, rows: map<RowId, JobId>) {
    forall r | r in rows :: !HasPendingRow(s, rows[r])
  }

  function Swept(s: State, rows: map<RowId, JobId>): State {
    s.(jobs := map j | j in s.jobs ::
                 if j in rows.Values then s.jobs[j].(status := Pending, updatedAt := s.now) else s.jobs[j],
       outbox := s.outbox + RecoveryRows(rows))
  }

  function RecoveryRows(rows: map<RowId, JobId>): map<RowId, Row> {
    map r | r in rows :: Row(rows[r], ZombieRecovery, RowPending, None)
  }

  predicate RunsTask(s: State, t: TaskId) {
    t in s.tasks && s.tasks[t].Running?
  }

  /** The run, or what is left of it, may be inside `execute`, which sends heartbeats till its end. */
  predicate Beats(s: State, t: TaskId) {
    t in s.tasks && (s.tasks[t].Running? || s.tasks[t].Ending?)
  }

  // Steps of the API and of the cleaners.

  function Created(s: State, j: JobId, r: RowId, maxRetries: nat): State {
    if j in s.jobs || HasPendingRow(s, j) || !FreshRow(s, r) then s
    else AddRow(s.(jobs := s.jobs[j := Job(Pending, 0, maxRetries, None, s.now, None)]), r, j, EnqueueDownload)
  }

  /** A `retry` call reads its job, without a lock. */
  function Asked(s: State, call: CallId, j: JobId): State {
    if CanAsk(s, call, j)
    then WithCall(s, call, Seen(j, s.jobs[j].retryCount != 0, s.jobs[j].nextRetryAt.Some?)) else s
  }

  /** It writes, whatever the job's status is by then. */
  function UserRetried(s: State, call: CallId, r: RowId): State {
    if CanUserRetry(s, call, r)
    then ResetAndEnqueue(WithoutCall(s, call), s.desk.retrying[call], r) else s
  }

  function Replayed(s: State, j: JobId, r: RowId): State {
    if CanReplay(s, j, r) then ResetAndEnqueue(WithoutDead(s, j), Seen(j, true, true), r) else s
  }

  predicate CanReplayAnew(s: State, j: JobId, k: JobId, r: RowId) {
    j in s.desk.failedJobs && j !in s.jobs && k !in s.jobs && !HasPendingRow(s, k) && FreshRow(s, r)
  }

  /** A dead-letter row whose job is gone is replayed as a new job. */
  function ReplayedAnew(s: State, j: JobId, k: JobId, r: RowId, maxRetries: nat): State {
    if CanReplayAnew(s, j, k, r)
    then Created(WithoutDead(s, j), k, r, maxRetries) else s
  }

  function CleanedUp(s: State): State {
    s.(outbox := map r | r in s.outbox && !Expired(s, r) :: s.outbox[r])
  }

  // Steps of the outbox relay.

  function RelayAcked(s: State, rows: set<RowId>, commits: bool): State {
    var done := rows * s.relayed;
    var s1 := if commits then s.(outbox := Closed(s, done, RowProcessed)) else s;
    s1.(relayed := s.relayed - done)
  }

  function RelayRejected(s: State, r: RowId): State {
    if r in s.outbox && s.outbox[r].status.RowPending? && !Usable(s.outbox[r].event)
    then s.(outbox := Closed(s, {r}, RowFailed)) else s
  }

  // Steps of the main loop and of the claim.

  function Released(s: State, due: seq<JobId>): State {
    if IsDueBatch(s, due)
    then s.(retryQueue := s.retryQueue - (set j | j in due), downloadQueue := Reversed(due) + s.downloadQueue)
    else s
  }

  function PoppedOne(s: State, t: TaskId): State {
    if t in s.tasks || s.downloadQueue == [] then s
    else
      var n := |s.downloadQueue| - 1;
      s.(downloadQueue := s.downloadQueue[..n], tasks := s.tasks[t := Popped(s.downloadQueue[n])])
  }

  function PushedBack(s: State, t: TaskId, reply: Reply): State {
    if t !in s.tasks || !s.tasks[t].Popped? then s
    else
      var q := if Reached(reply) then [s.tasks[t].job] + s.downloadQueue else s.downloadQueue;
      EndTask(s.(downloadQueue := q), t)
  }

  function Dropped(s: State, t: TaskId): State {
    if t in s.tasks && s.tasks[t].Popped? then EndTask(s, t) else s
  }

  function Claimed(s: State, t: TaskId): State {
    if t !in s.tasks || !s.tasks[t].Popped? then s
    else
      var j := s.tasks[t].job;
      if HasStatus(s, j, Pending) then
        var s1 := WithStatus(s, j, Processing);
        s1.(tasks := s1.tasks[t := Running(j, s.jobs[j].retryCount, s.jobs[j].maxRetries, None)])
      else
        EndTask(s, t)
  }

  // Steps of a run.

  function Beaten(s: State, t: TaskId): State {
    if !Beats(s, t) then s
    else
      var j := s.tasks[t].job;
      if j in s.jobs then WithStatus(s, j, s.jobs[j].status) else s
  }

  /** The task does nothing more: it returns, or its process is gone. */
  function Died(s: State, t: TaskId): State {
    if t in s.tasks && !s.tasks[t].Popped? then EndTask(s, t) else s
  }

  function Downloaded(s: State, t: TaskId, f: FileId): State {
    if RunsTask(s, t) && s.tasks[t].file.None? && FreshFile(s, f)
    then s.(tasks := s.tasks[t := s.tasks[t].(file := Some(f))], disk := s.disk + {f}) else s
  }

  function CompletedRun(s: State, t: TaskId): State {
    if !RunsTask(s, t) || s.tasks[t].file.None? then s
    else
      var task := s.tasks[t];
      if HasStatus(s, task.job, Processing) then
        var job := s.jobs[task.job].(status := Completed, updatedAt := s.now, filePath := task.file);
        Winding(s.(jobs := s.jobs[task.job := job]), t, 2)
      else
        EndTask(s.(disk := s.disk - {task.file.value}), t)
  }

  function Retried(s: State, t: TaskId, c: RetryPolicy.Category, r: RowId, at: Time): State {
    if !RunsTask(s, t) || !FreshRow(s, r) || RetryPolicy.IsFinal(c, s.tasks[t].retryCount, s.tasks[t].maxRetries) then s
    else
      var task := s.tasks[t];
      var j := task.job;
      if !HasStatus(s, j, Processing) || HasPendingRow(s, j) then EndTask(s, t)
      else
        var job := s.jobs[j].(status := Pending, retryCount := task.retryCount + 1,
                              nextRetryAt := Some(at), updatedAt := s.now);
        var s1 := AddRow(s.(jobs := s.jobs[j := job]), r, j, RetryScheduled(NextRetryAt(at)));
        s1.(tasks := s1.tasks[t := Scheduling(j, r, at, false)])
  }

  function SchedulePushed(s: State, t: TaskId, reply: Reply): State {
    if t !in s.tasks || !s.tasks[t].Scheduling? || s.tasks[t].pushed then s
    else
      var task := s.tasks[t];
      var s1 := s.(retryQueue := PushRetry(s.retryQueue, task.job, task.at, reply));
      if AddsRetry(s.retryQueue, task.job, reply)
      then s1.(tasks := s.tasks[t := task.(pushed := true)]) else Winding(s1, t, 1)
  }

  function ScheduleAcked(s: State, t: TaskId, commits: bool): State {
    if t !in s.tasks || !s.tasks[t].Scheduling? || !s.tasks[t].pushed then s
    else Winding(if commits then s.(outbox := Closed(s, {s.tasks[t].row}, RowProcessed)) else s, t, 1)
  }

  function FailedRun(s: State, t: TaskId, c: RetryPolicy.Category): State {
    if !RunsTask(s, t) || !RetryPolicy.IsFinal(c, s.tasks[t].retryCount, s.tasks[t].maxRetries) then s
    else if HasStatus(s, s.tasks[t].job, Processing) then
      var s1 := WithStatus(s, s.tasks[t].job, Failed);
      s1.(tasks := s.tasks[t := Burying(s.tasks[t].job)])
    else EndTask(s, t)
  }

  function Buried(s: State, t: TaskId): State {
    if t in s.tasks && s.tasks[t].Burying?
    then Winding(WithDead(s, s.tasks[t].job), t, 1) else s
  }

  function DeferredRun(s: State, t: TaskId, service: string): State {
    if !RunsTask(s, t) then s
    else if HasStatus(s, s.tasks[t].job, Processing) then
      var s1 := WithStatus(s, s.tasks[t].job, Deferred);
      s1.(tasks := s.tasks[t := Recording(s.tasks[t].job, service)])
    else EndTask(s, t)
  }

  function Recorded(s: State, t: TaskId, delivered: bool): State {
    if t !in s.tasks || !s.tasks[t].Recording? then s
    else
      var task := s.tasks[t];
      Winding(if delivered then s.(deferred := WithMember(s.deferred, task.service, task.job)) else s, t, 1)
  }

  /** The transaction of `requeue_job` when the index accepts its row: the row is inserted whatever the
      status is, and the guard of the update is the status alone, not who has claimed the job. */
  function Readmitted(s: State, j: JobId, r: RowId): State {
    var s1 := AddRow(s, r, j, RetryScheduled(NextRetryAt(s.now)));
    if HasStatus(s, j, Processing) then WithStatus(s1, j, Pending) else s1
  }

  function GivenUp(s: State, t: TaskId): State
    requires RunsTask(s, t)
  {
    var file := s.tasks[t].file;
    Winding(if file.Some? then s.(disk := s.disk - {file.value}) else s, t, 2)
  }

  /** A run gives its job back of its own accord and removes its file. A rejected insert aborts the whole
      transaction and the run, and the file is then left behind. */
  function Requeued(s: State, t: TaskId, r: RowId): State {
    if !RunsTask(s, t) || !FreshRow(s, r) then s
    else if HasPendingRow(s, s.tasks[t].job) then EndTask(s, t)
    else GivenUp(Readmitted(s, s.tasks[t].job, r), t)
  }

  predicate CanCancel(s: State, t: TaskId, r: RowId) {
    t in s.tasks && Handlers(s.tasks[t]) > 0 && FreshRow(s, r)
  }

  /** The next handler of a cancelled task: it requeues, leaves the file, and raises again. A rejected
      insert raises something else, which no further handler catches. */
  function Cancelled(s: State, t: TaskId, r: RowId): State {
    if !CanCancel(s, t, r) then s
    else if HasPendingRow(s, s.tasks[t].job) then EndTask(s, t)
    else Winding(Readmitted(s, s.tasks[t].job, r), t, Handlers(s.tasks[t]) - 1)
  }

  // Steps of a drain pass over the deferred jobs.

  function DrainPushed(s: State, service: string, j: JobId, reply: Reply): State {
    if !HasStatus(s, j, Deferred) || j in s.draining then s
    else
      var s1 := s.(downloadQueue := PushDownload(s.downloadQueue, j, reply));
      if Acknowledged(reply) then s1.(draining := s.draining + {j}) else s1
  }

  function Leaving(m: DeferredSet, d: DrainId, service: string, j: JobId): DeferredSet {
    if d in m.leaving then m else m.(leaving := m.leaving[d := (service, j)])
  }

  function WithMember(m: DeferredSet, service: string, j: JobId): DeferredSet {
    m.(members := m.members + {(service, j)})
  }

  function Removed(m: DeferredSet, d: DrainId, reply: Reply): DeferredSet {
    if d !in m.leaving then m
    else DeferredSet(if reply.Refused? then m.members else m.members - {m.leaving[d]}, m.leaving - {d})
  }

  /** The UPDATE of drain `d` matches no row; its entry is to be removed. */
  function FoundStale(s: State, d: DrainId, service: string, j: JobId): State {
    if HasStatus(s, j, Deferred) then s else s.(deferred := Leaving(s.deferred, d, service, j))
  }

  /** The commit of a drained job; its entry is to be removed. A drain that never gets to its previous
      removal just leaves that entry behind. */
  function DrainCommitted(s: State, d: DrainId, service: string, j: JobId, commits: bool): State {
    if j !in s.draining then s
    else
      var s1 := s.(draining := s.draining - {j});
      if commits && HasStatus(s, j, Deferred)
      then WithStatus(s1, j, Pending).(deferred := Leaving(s.deferred, d, service, j)) else s1
  }

  /** The ZREM that ends the drain of one entry. */
  function Forgotten(s: State, d: DrainId, reply: Reply): State {
    s.(deferred := Removed(s.deferred, d, reply))
  }

  function ApplyApi(s: State, a: ApiStep): State {
    match a
    case Create(j, r, m) => Created(s, j, r, m)
    case AskRetry(call, j) => Asked(s, call, j)
    case UserRetry(call, r) => UserRetried(s, call, r)
    case Replay(j, r) => Replayed(s, j, r)
    case ReplayAnew(j, k, r, m) => ReplayedAnew(s, j, k, r, m)
  }

  function ApplyRelay(s: State, a: RelayStep): State {
    match a
    case RelayPush(r, reply) => if CanRelay(s, r) then RelayPushed(s, r, reply) else s
    case RelayAck(rows, commits) => RelayAcked(s, rows, commits)
    case RelayReject(r) => RelayRejected(s, r)
    case CleanUp => CleanedUp(s)
  }

  function ApplyQueue(s: State, a: QueueStep): State {
    match a
    case ReleaseDue(due) => Released(s, due)
    case Pop(t) => PoppedOne(s, t)
    case PushBack(t, reply) => PushedBack(s, t, reply)
    case Drop(t) => Dropped(s, t)
    case Claim(t) => Claimed(s, t)
  }

  function ApplyRun(s: State, a: RunStep): State {
    match a
    case Beat(t) => Beaten(s, t)
    case Die(t) => Died(s, t)
    case Download(t, f) => Downloaded(s, t, f)
    case Complete(t) => CompletedRun(s, t)
    case Fail(t, c) => FailedRun(s, t, c)
    case Bury(t) => Buried(s, t)
    case Defer(t, service) => DeferredRun(s, t, service)
    case Record(t, delivered) => Recorded(s, t, delivered)
  }

  function ApplyRequeue(s: State, a: RequeueStep): State {
    match a
    case Retry(t, c, r, at) => Retried(s, t, c, r, at)
    case SchedulePush(t, reply) => SchedulePushed(s, t, reply)
    case ScheduleAck(t, commits) => ScheduleAcked(s, t, commits)
    case Requeue(t, r) => Requeued(s, t, r)
    case Cancel(t, r) => Cancelled(s, t, r)
    case Sweep(rows) => if IsSweep(s, rows) && SweepCommits(s, rows) then Swept(s, rows) else s
  }

  function ApplyDrain(s: State, a: DrainStep): State {
    match a
    case DrainStale(d, service, j) => FoundStale(s, d, service, j)
    case DrainPush(service, j, reply) => DrainPushed(s, service, j, reply)
    case DrainCommit(d, service, j, commits) => DrainCommitted(s, d, service, j, commits)
    case DrainForget(d, reply) => Forgotten(s, d, reply)
    case Reconcile(service, j) =>
      if HasStatus(s, j, Deferred) then s.(deferred := WithMember(s.deferred, service, j)) else s
  }

  function Apply(s: State, l: Label): State {
    match l
    case Tick(d) => s.(now := s.now + d)
    case Api(a) => ApplyApi(s, a)
    case Relay(a) => ApplyRelay(s, a)
    case Queue(a) => ApplyQueue(s, a)
    case Work(a) => ApplyRun(s, a)
    case Back(a) => ApplyRequeue(s, a)
    case Drain(a) => ApplyDrain(s, a)
  }

  predicate Expired(s: State, r: RowId) {
    && r in s.outbox
    && !s.outbox[r].status.RowPending?
    && s.outbox[r].processedAt.Some?
    && s.outbox[r].processedAt.value < s.now - ROW_RETENTION
  }

  /** The state after a finite run. */
  function Run(s: State, run: seq<Label>): State
    decreases |run|
  {
    if run == [] then s else Run(Apply(s, run[0]), run[1..])
  }

  lemma RunOne(s: State, a: Label)
    ensures Run(s, [a]) == Apply(s, a)
  {
    assert [a][1..] == [];
  }

  lemma RunTwo(s: State, a: Label, b: Label)
    ensures Run(s, [a, b]) == Apply(Apply(s, a), b)
  {
    assert [a, b][1..] == [b];
    RunOne(Apply(s, a), b);
  }

  lemma RunCons(s: State, l: Label, rest: seq<Label>)
    ensures Run(s, [l] + rest) == Run(Apply(s, l), rest)
  {
    assert ([l] + rest)[1..] == rest;
  }

  lemma {:induction false} RunAppend(s: State, a: seq<Label>, b: seq<Label>)
    ensures Run(s, a + b) == Run(Run(s, a), b)
    decreases |a|
  {
    if a == [] {
      assert a + b == b;
    } else {
      assert (a + b)[1..] == a[1..] + b;
      RunAppend(Apply(s, a[0]), a[1..], b);
    }
  }

  lemma RunThen(s: State, a: seq<Label>, s1: State, b: seq<Label>, s2: State)
    requires Run(s, a) == s1 && Run(s1, b) == s2
    ensures Run(s, a + b) == s2
  {
    RunAppend(s, a, b);
  }

  lemma RunSnoc(s: State, run: seq<Label>, l: Label)
    ensures Run(s, run + [l]) == Apply(Run(s, run), l)
  {
    RunAppend(s, run, [l]);
    RunOne(Run(s, run), l);
  }

  lemma RunLast(s: State, run: seq<Label>)
    requires run != []
    ensures Run(s, run) == Apply(Run(s, run[..|run| - 1]), run[|run| - 1])
  {
    var front, l := run[..|run| - 1], run[|run| - 1];
    RunSnoc(s, front, l);
    assert front + [l] == run;
  }
}
