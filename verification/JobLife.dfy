/** The columns of a job's row, and a worker's task: what each step writes, read off what the step has
    committed. */
module JobLife {
  import opened Prelude
  import opened Pipeline
  import opened Outcomes
  import opened Attempts
  import opened Heartbeats
  import DeferredQueue
  import RetryPolicy

  /** The status a committed step leaves. */
  function StatusAfter(s: State, l: Label, j: JobId): Status
    requires j in s.jobs
  {
    match OutcomeOf(s, l, j)
    case Some(Claiming) => Processing
    case Some(Completion) => Completed
    case Some(Failure) => Failed
    case Some(Deferral) => Deferred
    case Some(_) => Pending
    case None => if Restart(s, l, j).Some? || Resumed(s, l, j) then Pending else s.jobs[j].status
  }

  /** A drain commits the resumption of a deferred job. */
  predicate Resumed(s: State, l: Label, j: JobId) {
    match l
    case Drain(DrainCommit(_, _, k, commits)) => k == j && j in s.draining && commits && HasStatus(s, j, Deferred)
    case _ => false
  }

  /** The counter is set from a run's snapshot, set back, or left alone. */
  function CountAfter(s: State, l: Label, j: JobId): int
    requires j in s.jobs
  {
    if l.Back? && l.back.Retry? && OutcomeOf(s, l, j) == Some(Reattempt) then s.tasks[l.back.task].retryCount + 1
    else if Restart(s, l, j).Some? then Restart(s, l, j).value
    else s.jobs[j].retryCount
  }

  function FileAfter(s: State, l: Label, j: JobId): Option<FileId>
    requires j in s.jobs
  {
    if l.Work? && l.work.Complete? && OutcomeOf(s, l, j) == Some(Completion) then s.tasks[l.work.task].file
    else s.jobs[j].filePath
  }

  ghost predicate JobLaw(s: State, l: Label, s': State, j: JobId) {
    if j in s.jobs then
      && j in s'.jobs
      && s'.jobs[j].status == StatusAfter(s, l, j) && s'.jobs[j].retryCount == CountAfter(s, l, j)
      && s'.jobs[j].filePath == FileAfter(s, l, j) && s'.jobs[j].maxRetries == s.jobs[j].maxRetries
    else
      j in s'.jobs ==> exists m: nat, r :: NewJob(s, l, s', j, m, r)
  }

  /** A job comes into being pending, with no attempt behind it and a row that announces it. */
  ghost predicate NewJob(s: State, l: Label, s': State, j: JobId, m: nat, r: RowId) {
    && (l == Api(Create(j, r, m)) || exists i :: l == Api(ReplayAnew(i, j, r, m)))
    && j in s'.jobs && s'.jobs[j] == Job(Pending, 0, m, None, s.now, None)
    && r in s'.outbox && s'.outbox[r] == Row(j, EnqueueDownload, RowPending, None)
  }

  lemma CreateJob(s: State, k: JobId, r: RowId, m: nat, j: JobId)
    ensures var s' := Created(s, k, r, m);
      if j in s.jobs then j in s'.jobs && s'.jobs[j] == s.jobs[j]
      else j in s'.jobs ==>
        (j == k && s'.jobs[j] == Job(Pending, 0, m, None, s.now, None)
         && r in s'.outbox && s'.outbox[r] == Row(j, EnqueueDownload, RowPending, None))
  {
  }

  lemma ResetJob(s: State, seen: Seen, r: RowId, j: JobId)
    requires seen.job in s.jobs
    ensures var s' := ResetAndEnqueue(s, seen, r);
      && s'.jobs.Keys == s.jobs.Keys
      && (j in s.jobs ==>
            if j == seen.job then s'.jobs[j].status == Pending && s'.jobs[j].filePath == s.jobs[j].filePath
              && s'.jobs[j].maxRetries == s.jobs[j].maxRetries
              && s'.jobs[j].retryCount == (if seen.counted then 0 else s.jobs[j].retryCount)
            else s'.jobs[j] == s.jobs[j])
  {
  }

  lemma ApiJob(s: State, a: ApiStep, j: JobId)
    ensures JobLaw(s, Api(a), ApplyApi(s, a), j)
  {
    match a
    case Create(k, r, m) =>
      CreateJob(s, k, r, m, j);
      assert j == k && j !in s.jobs && j in ApplyApi(s, a).jobs ==> NewJob(s, Api(a), ApplyApi(s, a), j, m, r);
    case ReplayAnew(i, k, r, m) => ReplayedAnewJob(s, i, k, r, m, j);
    case AskRetry(_, _) =>
    case UserRetry(call, r) => if CanUserRetry(s, call, r) { ResetJob(WithoutCall(s, call), s.desk.retrying[call], r, j); }
    case Replay(k, r) => if CanReplay(s, k, r) { ResetJob(WithoutDead(s, k), Seen(k, true, true), r, j); }
  }

  lemma ReplayedAnewJob(s: State, i: JobId, k: JobId, r: RowId, m: nat, j: JobId)
    ensures JobLaw(s, Api(ReplayAnew(i, k, r, m)), ReplayedAnew(s, i, k, r, m), j)
  {
    var l := Api(ReplayAnew(i, k, r, m));
    var s' := ReplayedAnew(s, i, k, r, m);
    CreateJob(WithoutDead(s, i), k, r, m, j);
    assert j !in s.jobs && j in s'.jobs ==> NewJob(s, l, s', j, m, r);
  }

  lemma CompleteJob(s: State, t: TaskId, j: JobId)
    ensures JobLaw(s, Work(Complete(t)), CompletedRun(s, t), j)
  {
  }

  lemma FailJob(s: State, t: TaskId, c: RetryPolicy.Category, j: JobId)
    ensures JobLaw(s, Work(Fail(t, c)), FailedRun(s, t, c), j)
  {
  }

  lemma DeferJob(s: State, t: TaskId, service: string, j: JobId)
    ensures JobLaw(s, Work(Defer(t, service)), DeferredRun(s, t, service), j)
  {
  }

  lemma OtherRunJob(s: State, a: RunStep, j: JobId)
    requires !a.Complete? && !a.Fail? && !a.Defer?
    ensures JobLaw(s, Work(a), ApplyRun(s, a), j)
  {
    RunKeepsKeys(s, a);
  }

  lemma RunJob(s: State, a: RunStep, j: JobId)
    ensures JobLaw(s, Work(a), ApplyRun(s, a), j)
  {
    match a
    case Complete(t) => CompleteJob(s, t, j);
    case Fail(t, c) => FailJob(s, t, c, j);
    case Defer(t, service) => DeferJob(s, t, service, j);
    case _ => OtherRunJob(s, a, j);
  }

  lemma RunKeepsKeys(s: State, a: RunStep)
    ensures ApplyRun(s, a).jobs.Keys == s.jobs.Keys
  {
  }

  lemma RetryJob(s: State, t: TaskId, c: RetryPolicy.Category, r: RowId, at: Time, j: JobId)
    ensures JobLaw(s, Back(Retry(t, c, r, at)), Retried(s, t, c, r, at), j)
  {
  }

  lemma RequeueJob(s: State, t: TaskId, r: RowId, j: JobId)
    ensures JobLaw(s, Back(Requeue(t, r)), Requeued(s, t, r), j)
  {
  }

  lemma CancelJob(s: State, t: TaskId, r: RowId, j: JobId)
    ensures JobLaw(s, Back(Cancel(t, r)), Cancelled(s, t, r), j)
  {
  }

  lemma SweepJob(s: State, rows: map<RowId, JobId>, j: JobId)
    ensures JobLaw(s, Back(Sweep(rows)), ApplyRequeue(s, Sweep(rows)), j)
  {
    if IsSweep(s, rows) && SweepCommits(s, rows) {
      SweptJob(s, rows, j);
    }
  }

  lemma SweptJob(s: State, rows: map<RowId, JobId>, j: JobId)
    requires IsSweep(s, rows) && SweepCommits(s, rows)
    ensures JobLaw(s, Back(Sweep(rows)), Swept(s, rows), j)
  {
  }

  lemma PushKeepsJobs(s: State, a: RequeueStep)
    requires a.SchedulePush? || a.ScheduleAck?
    ensures ApplyRequeue(s, a).jobs == s.jobs
  {
  }

  lemma BackJob(s: State, a: RequeueStep, j: JobId)
    ensures JobLaw(s, Back(a), ApplyRequeue(s, a), j)
  {
    match a
    case Retry(t, c, r, at) => RetryJob(s, t, c, r, at, j);
    case Requeue(t, r) => RequeueJob(s, t, r, j);
    case Cancel(t, r) => CancelJob(s, t, r, j);
    case Sweep(rows) => SweepJob(s, rows, j);
    case _ => PushKeepsJobs(s, a);
  }

  lemma QueueJob(s: State, a: QueueStep, j: JobId)
    ensures JobLaw(s, Queue(a), ApplyQueue(s, a), j)
  {
  }

  lemma DrainJob(s: State, a: DrainStep, j: JobId)
    ensures JobLaw(s, Drain(a), ApplyDrain(s, a), j)
  {
  }

  /** Every step, and every job: the status is the one its committed outcome asks for, the counter is a
      snapshot's plus one or set back, a completion names its own run's file, and the limit never changes. */
  lemma StepJob(s: State, l: Label, j: JobId)
    ensures JobLaw(s, l, Apply(s, l), j)
  {
    match l
    case Tick(_) =>
    case Api(a) => ApiJob(s, a, j);
    case Relay(a) => RelayAside(s, a);
    case Queue(a) => QueueJob(s, a, j);
    case Work(a) => RunJob(s, a, j);
    case Back(a) => BackJob(s, a, j);
    case Drain(a) => DrainJob(s, a, j);
  }

  /** A reset leaves its job announced: by the row that was pending already, or by a new one. */
  lemma ResetAnnounces(s: State, seen: Seen, r: RowId)
    requires seen.job in s.jobs && FreshRow(s, r)
    ensures var s' := ResetAndEnqueue(s, seen, r);
      if HasPendingRow(s, seen.job) then s'.outbox == s.outbox
      else s'.outbox == s.outbox[r := Row(seen.job, EnqueueDownload, RowPending, None)]
  {
  }

  /** A retry call is opened for failed and deferred jobs alone, and notes what it read. */
  lemma AskOpens(s: State, call: CallId, j: JobId)
    requires call !in s.desk.retrying
    ensures var s' := Apply(s, Api(AskRetry(call, j)));
      && s' == s.(desk := s'.desk) && s'.desk.failedJobs == s.desk.failedJobs
      && (call in s'.desk.retrying <==> j in s.jobs && (s.jobs[j].status == Failed || s.jobs[j].status == Deferred))
      && (call in s'.desk.retrying ==>
            (s'.desk.retrying[call].job == j
             && s'.desk.retrying[call].counted == (s.jobs[j].retryCount != 0)
             && s'.desk.retrying[call].planned == (s.jobs[j].nextRetryAt != None)))
  {
  }

  // The lock of a drain.

  lemma LocksGrow(s: State, l: Label, j: JobId)
    requires j in Apply(s, l).draining
    ensures if j in s.draining then !Resumed(s, l, j) else HasStatus(Apply(s, l), j, Deferred)
  {
    match l
    case Api(a) => ApiGoesOn(s, a); ApiKeepsLocks(s, a);
    case Relay(a) => RelayAside(s, a);
    case Queue(a) => QueueKeepsLocks(s, a);
    case Work(a) => RunKeepsLocks(s, a);
    case Back(a) => BackKeepsLocks(s, a);
    case Drain(a) => DrainLocks(s, a, j);
    case Tick(_) =>
  }

  lemma DrainLocks(s: State, a: DrainStep, j: JobId)
    requires j in ApplyDrain(s, a).draining
    ensures if j in s.draining then !Resumed(s, Drain(a), j) else HasStatus(ApplyDrain(s, a), j, Deferred)
  {
  }

  lemma QueueKeepsLocks(s: State, a: QueueStep)
    ensures ApplyQueue(s, a).draining == s.draining
  {
  }

  lemma ApiKeepsLocks(s: State, a: ApiStep)
    ensures ApplyApi(s, a).draining == s.draining
  {
  }

  lemma RunKeepsLocks(s: State, a: RunStep)
    ensures ApplyRun(s, a).draining == s.draining
  {
  }

  lemma BackKeepsLocks(s: State, a: RequeueStep)
    ensures ApplyRequeue(s, a).draining == s.draining
  {
  }

  lemma LockedStays(s: State, l: Label, j: JobId)
    requires j in s.draining && HasStatus(s, j, Deferred) && !Resumed(s, l, j)
    ensures HasStatus(Apply(s, l), j, Deferred)
  {
    StepJob(s, l, j);
    LockedIsNoOutcome(s, l, j);
  }

  lemma LockedIsNoOutcome(s: State, l: Label, j: JobId)
    requires j in s.draining && HasStatus(s, j, Deferred)
    ensures OutcomeOf(s, l, j) == None && Restart(s, l, j) == None
  {
  }

  lemma CommitResumes(s: State, j: JobId)
    requires j in s.draining && HasStatus(s, j, Deferred)
    ensures forall d, service :: HasStatus(Apply(s, Drain(DrainCommit(d, service, j, true))), j, Pending)
  {
  }

  /** Over all runs a job whose row a drain holds is deferred and stays so, whoever asks for it meanwhile;
      the drain's commit finds it deferred and resumes it. */
  lemma {:induction false} LockedJobIsDeferred(run: seq<Label>, j: JobId)
    requires j in Run(Init, run).draining
    ensures HasStatus(Run(Init, run), j, Deferred)
    ensures forall d, service :: HasStatus(Apply(Run(Init, run), Drain(DrainCommit(d, service, j, true))), j, Pending)
  {
    if run != [] {
      var n := |run| - 1;
      var s := Run(Init, run[..n]);
      RunLast(Init, run);
      LocksGrow(s, run[n], j);
      if j in s.draining {
        LockedJobIsDeferred(run[..n], j);
        LockedStays(s, run[n], j);
      }
    }
    CommitResumes(Run(Init, run), j);
  }

  // Tasks.

  function Actor(l: Label): Option<TaskId> {
    match l
    case Queue(Pop(t)) => Some(t)
    case Queue(PushBack(t, _)) => Some(t)
    case Queue(Drop(t)) => Some(t)
    case Queue(Claim(t)) => Some(t)
    case Work(a) => Some(a.task)
    case Back(Sweep(_)) => None
    case Back(a) => Some(a.task)
    case _ => None
  }

  /** Only a task's own steps change it. */
  lemma OthersKeepTheirTasks(s: State, l: Label, t: TaskId)
    requires Actor(l) != Some(t)
    ensures t in Apply(s, l).tasks <==> t in s.tasks
    ensures t in s.tasks ==> Apply(s, l).tasks[t] == s.tasks[t]
  {
    match l
    case Tick(_) =>
    case Api(a) => ApiGoesOn(s, a);
    case Relay(a) =>
    case Queue(a) => QueueKeepsTasks(s, a, t);
    case Work(a) => RunKeepsTasks(s, a, t);
    case Back(a) => BackKeepsTasks(s, a, t);
    case Drain(a) =>
  }

  lemma QueueKeepsTasks(s: State, a: QueueStep, t: TaskId)
    requires Actor(Queue(a)) != Some(t)
    ensures t in ApplyQueue(s, a).tasks <==> t in s.tasks
    ensures t in s.tasks ==> ApplyQueue(s, a).tasks[t] == s.tasks[t]
  {
  }

  lemma RunKeepsTasks(s: State, a: RunStep, t: TaskId)
    requires a.task != t
    ensures t in ApplyRun(s, a).tasks <==> t in s.tasks
    ensures t in s.tasks ==> ApplyRun(s, a).tasks[t] == s.tasks[t]
  {
  }

  lemma RequeueKeepsTasks(s: State, u: TaskId, r: RowId, t: TaskId)
    requires u != t
    ensures t in Requeued(s, u, r).tasks <==> t in s.tasks
    ensures t in s.tasks ==> Requeued(s, u, r).tasks[t] == s.tasks[t]
  {
  }

  lemma CancelKeepsTasks(s: State, u: TaskId, r: RowId, t: TaskId)
    requires u != t
    ensures t in Cancelled(s, u, r).tasks <==> t in s.tasks
    ensures t in s.tasks ==> Cancelled(s, u, r).tasks[t] == s.tasks[t]
  {
  }

  lemma BackKeepsTasks(s: State, a: RequeueStep, t: TaskId)
    requires Actor(Back(a)) != Some(t)
    ensures t in ApplyRequeue(s, a).tasks <==> t in s.tasks
    ensures t in s.tasks ==> ApplyRequeue(s, a).tasks[t] == s.tasks[t]
  {
    match a
    case Requeue(u, r) => RequeueKeepsTasks(s, u, r, t);
    case Cancel(u, r) => CancelKeepsTasks(s, u, r, t);
    case _ =>
  }

  ghost predicate Is(s: State, t: TaskId, task: Task) {
    t in s.tasks && s.tasks[t] == task
  }

  /** A claim takes the row as it stands; of an id whose job is not pending nothing is left. */
  lemma ClaimTakesSnapshot(s: State, t: TaskId)
    requires t in s.tasks && s.tasks[t].Popped?
    ensures var s' := Apply(s, Queue(Claim(t))); var j := s.tasks[t].job;
      if HasStatus(s, j, Pending) then Is(s', t, Running(j, s.jobs[j].retryCount, s.jobs[j].maxRetries, None))
      else t !in s'.tasks && s'.jobs == s.jobs
  {
  }

  /** A run downloads one file, a new one, and knows it as its own. */
  lemma DownloadTakesFile(s: State, t: TaskId, f: FileId)
    requires RunsTask(s, t) && s.tasks[t].file == None && FreshFile(s, f)
    ensures var s' := Apply(s, Work(Download(t, f)));
      s'.jobs == s.jobs && f in s'.disk && Is(s', t, s.tasks[t].(file := Some(f)))
  {
  }

  /** After its outcome a run has messages left to send. Cancelled then, it requeues twice if it is still
      inside the download procedure, and once otherwise; each requeue uses one handler up. */
  lemma WhatIsLeft(s: State, t: TaskId)
    requires t in s.tasks
    ensures var task := s.tasks[t]; var j := task.job;
      && (task.Running? && task.file.Some? && HasStatus(s, j, Processing) ==> Is(Apply(s, Work(Complete(t))), t, Ending(j, 2)))
      && (task.Burying? ==> Is(Apply(s, Work(Bury(t))), t, Ending(j, 1)))
      && (task.Recording? ==> forall delivered :: Is(Apply(s, Work(Record(t, delivered))), t, Ending(j, 1)))
      && (task.Scheduling? && task.pushed ==> forall commits :: Is(Apply(s, Back(ScheduleAck(t, commits))), t, Ending(j, 1)))
  {
  }

  /** A cancellation requeues in every phase but that of an id not yet claimed, until no handler is left. */
  lemma WhenHandlersRun(s: State, t: TaskId, r: RowId)
    requires FreshRow(s, r)
    ensures CanCancel(s, t, r) <==> t in s.tasks && !s.tasks[t].Popped? && s.tasks[t] != Ending(s.tasks[t].job, 0)
  {
  }

  /** The end `l` of run `t` comes too late, or its row is rejected: the run is over and no job has changed. */
  ghost predicate Loses(s: State, l: Label, t: TaskId) {
    t !in Apply(s, l).tasks && Apply(s, l).jobs == s.jobs && Apply(s, l).outbox == s.outbox
  }

  /** A run whose job is no longer processing ends with nothing written, whatever it comes to. */
  lemma LateOutcomeIsLost(s: State, t: TaskId)
    requires RunsTask(s, t) && !HasStatus(s, s.tasks[t].job, Processing)
    ensures s.tasks[t].file.Some? ==> Loses(s, Work(Complete(t)), t)
    ensures forall service :: Loses(s, Work(Defer(t, service)), t)
    ensures forall c :: RetryPolicy.IsFinal(c, s.tasks[t].retryCount, s.tasks[t].maxRetries) ==> Loses(s, Work(Fail(t, c)), t)
    ensures forall c, r, at | FreshRow(s, r) :: !RetryPolicy.IsFinal(c, s.tasks[t].retryCount, s.tasks[t].maxRetries) ==>
              Loses(s, Back(Retry(t, c, r, at)), t)
  {
  }

  /** A rejected row takes the whole transaction and the run with it, and its file stays. */
  lemma RejectedRowEndsRun(s: State, t: TaskId, r: RowId)
    requires t in s.tasks && FreshRow(s, r) && HasPendingRow(s, s.tasks[t].job)
    ensures RunsTask(s, t) ==> Loses(s, Back(Requeue(t, r)), t) && Apply(s, Back(Requeue(t, r))).disk == s.disk
    ensures CanCancel(s, t, r) ==> Loses(s, Back(Cancel(t, r)), t)
    ensures RunsTask(s, t) ==> forall c, at :: !RetryPolicy.IsFinal(c, s.tasks[t].retryCount, s.tasks[t].maxRetries) ==>
              Loses(s, Back(Retry(t, c, r, at)), t)
  {
  }

  /** A failure that counts has its dead-letter row ahead; a task that dies leaves everything else as it was. */
  lemma FailureIsToBeBuried(s: State, t: TaskId, c: RetryPolicy.Category)
    requires RunsTask(s, t) && HasStatus(s, s.tasks[t].job, Processing)
    requires RetryPolicy.IsFinal(c, s.tasks[t].retryCount, s.tasks[t].maxRetries)
    ensures Is(Apply(s, Work(Fail(t, c))), t, Burying(s.tasks[t].job))
  {
  }

  lemma DeathLeavesTheRest(s: State, t: TaskId)
    requires t in s.tasks && !s.tasks[t].Popped?
    ensures Apply(s, Work(Die(t))) == s.(tasks := s.tasks - {t})
  {
  }

  /** A retry's own push that has put the entry in is acknowledged with the next commit; any other leaves
      the row to the relay. */
  lemma OwnPushDecides(s: State, t: TaskId, reply: Reply)
    requires t in s.tasks && s.tasks[t].Scheduling? && !s.tasks[t].pushed
    ensures var task := s.tasks[t]; var s' := Apply(s, Back(SchedulePush(t, reply)));
      && (if reply == Overtaken || (reply == Delivered && task.job !in s.retryQueue)
          then Is(s', t, Scheduling(task.job, task.row, task.at, true))
          else Is(s', t, Ending(task.job, 1)))
      && s'.outbox == s.outbox && s'.jobs == s.jobs
  {
  }

  lemma CancellationUsesHandler(s: State, t: TaskId, r: RowId)
    requires CanCancel(s, t, r) && !HasPendingRow(s, s.tasks[t].job)
    ensures var s' := Apply(s, Back(Cancel(t, r))); var task := s.tasks[t];
      && Is(s', t, Ending(task.job, if task.Running? then 1 else if task.Ending? then task.handlers - 1 else 0))
      && r in s'.outbox && s'.outbox[r] == Row(task.job, RetryScheduled(NextRetryAt(s.now)), RowPending, None)
  {
  }

  /** A deferral that gets through is in the set under the service it was deferred for. */
  lemma DeferralIsRecorded(s: State, t: TaskId, service: string)
    requires RunsTask(s, t) && HasStatus(s, s.tasks[t].job, Processing)
    ensures var j := s.tasks[t].job;
      var s1 := Apply(s, Work(Defer(t, service)));
      && HasStatus(s1, j, Deferred) && Is(s1, t, Recording(j, service)) && s1.deferred == s.deferred
      && Apply(s1, Work(Record(t, true))).deferred == DeferredSet(s.deferred.members + {(service, j)}, s.deferred.leaving)
      && Apply(s1, Work(Record(t, false))).deferred == s.deferred
  {
  }
}
