/** The times of retries: what is written down when a retry is planned, what the retry queue then holds
    whoever delivers it, and that nothing is released before its time. */
module RetryTimes {
  import opened Prelude
  import opened Pipeline
  import opened Outcomes
  import RetryPolicy

  /** A persisted retry writes its time into the job's row and into the payload of its outbox row. */
  lemma RetryIsWrittenDown(s: State, t: TaskId, c: RetryPolicy.Category, r: RowId, at: Time)
    requires RunsTask(s, t) && BackOutcome(s, Retry(t, c, r, at), s.tasks[t].job) == Some(Reattempt)
    ensures var s' := Apply(s, Back(Retry(t, c, r, at))); var j := s.tasks[t].job;
      && j in s'.jobs && s'.jobs[j].nextRetryAt == Some(at) && s'.jobs[j].retryCount == s.tasks[t].retryCount + 1
      && s'.jobs[j].status == Pending && s'.jobs[j].filePath == s.jobs[j].filePath
      && r in s'.outbox && s'.outbox[r].job == j && s'.outbox[r].status == RowPending
      && s'.outbox[r].event == RetryScheduled(NextRetryAt(at))
      && t in s'.tasks && s'.tasks[t] == Scheduling(j, r, at, false)
  {
  }

  /** The step plans another attempt of a job: at the retry's time, or for a job given back at once. */
  function Plan(s: State, l: Label): set<(JobId, Time)> {
    match l
    case Back(Retry(t, _, _, at)) =>
      if RunsTask(s, t) && BackOutcome(s, l.back, s.tasks[t].job) == Some(Reattempt) then {(s.tasks[t].job, at)} else {}
    case Back(Requeue(t, r)) =>
      if RunsTask(s, t) && FreshRow(s, r) && !HasPendingRow(s, s.tasks[t].job) then {(s.tasks[t].job, s.now)} else {}
    case Back(Cancel(t, r)) =>
      if CanCancel(s, t, r) && !HasPendingRow(s, s.tasks[t].job) then {(s.tasks[t].job, s.now)} else {}
    case _ => {}
  }

  function Plans(run: seq<Label>): set<(JobId, Time)> {
    if run == [] then {}
    else
      var n := |run| - 1;
      Plans(run[..n]) + Plan(Run(Init, run[..n]), run[n])
  }

  /** Every time in the system, in a row, with a task or in the retry queue, has been planned. */
  ghost predicate Known(s: State, plans: set<(JobId, Time)>) {
    && (forall r | r in s.outbox && s.outbox[r].event.RetryScheduled? && s.outbox[r].event.payload.NextRetryAt? ::
          (s.outbox[r].job, s.outbox[r].event.payload.at) in plans)
    && (forall t | t in s.tasks && s.tasks[t].Scheduling? :: (s.tasks[t].job, s.tasks[t].at) in plans)
    && (forall j | j in s.retryQueue :: (j, s.retryQueue[j]) in plans)
  }

  lemma ApiKnown(s: State, a: ApiStep, plans: set<(JobId, Time)>)
    requires Known(s, plans)
    ensures Known(ApplyApi(s, a), plans)
  {
  }

  lemma RelayKnown(s: State, a: RelayStep, plans: set<(JobId, Time)>)
    requires Known(s, plans)
    ensures Known(ApplyRelay(s, a), plans)
  {
  }

  lemma QueueKnown(s: State, a: QueueStep, plans: set<(JobId, Time)>)
    requires Known(s, plans)
    ensures Known(ApplyQueue(s, a), plans)
  {
  }

  lemma RunKnown(s: State, a: RunStep, plans: set<(JobId, Time)>)
    requires Known(s, plans)
    ensures Known(ApplyRun(s, a), plans)
  {
  }

  lemma RetryKnown(s: State, t: TaskId, c: RetryPolicy.Category, r: RowId, at: Time, plans: set<(JobId, Time)>)
    requires Known(s, plans)
    ensures Known(Retried(s, t, c, r, at), plans + Plan(s, Back(Retry(t, c, r, at))))
  {
  }

  lemma RequeueKnown(s: State, t: TaskId, r: RowId, plans: set<(JobId, Time)>)
    requires Known(s, plans)
    ensures Known(Requeued(s, t, r), plans + Plan(s, Back(Requeue(t, r))))
  {
  }

  lemma CancelKnown(s: State, t: TaskId, r: RowId, plans: set<(JobId, Time)>)
    requires Known(s, plans)
    ensures Known(Cancelled(s, t, r), plans + Plan(s, Back(Cancel(t, r))))
  {
  }

  lemma ScheduleKnown(s: State, a: RequeueStep, plans: set<(JobId, Time)>)
    requires Known(s, plans) && (a.SchedulePush? || a.ScheduleAck? || a.Sweep?)
    ensures Known(ApplyRequeue(s, a), plans)
  {
  }

  lemma BackKnown(s: State, a: RequeueStep, plans: set<(JobId, Time)>)
    requires Known(s, plans)
    ensures Known(ApplyRequeue(s, a), plans + Plan(s, Back(a)))
  {
    match a
    case Retry(t, c, r, at) => RetryKnown(s, t, c, r, at, plans);
    case Requeue(t, r) => RequeueKnown(s, t, r, plans);
    case Cancel(t, r) => CancelKnown(s, t, r, plans);
    case _ => ScheduleKnown(s, a, plans);
  }

  lemma DrainKnown(s: State, a: DrainStep, plans: set<(JobId, Time)>)
    requires Known(s, plans)
    ensures Known(ApplyDrain(s, a), plans)
  {
  }

  lemma StepKnown(s: State, l: Label, plans: set<(JobId, Time)>)
    requires Known(s, plans)
    ensures Known(Apply(s, l), plans + Plan(s, l))
  {
    match l
    case Tick(_) =>
    case Api(a) => ApiKnown(s, a, plans);
    case Relay(a) => RelayKnown(s, a, plans);
    case Queue(a) => QueueKnown(s, a, plans);
    case Work(a) => RunKnown(s, a, plans);
    case Back(a) => BackKnown(s, a, plans);
    case Drain(a) => DrainKnown(s, a, plans);
  }

  /** Over all runs every entry of the retry queue has a time that some step planned for its job: that of
      a committed retry, or the moment at which the job was given back. It does not matter whether the
      retry's own push, a relay pass or a push that overtook another has delivered it. */
  lemma {:induction false} RetryTimesArePlanned(run: seq<Label>)
    ensures Known(Run(Init, run), Plans(run))
  {
    if run != [] {
      var n := |run| - 1;
      RunLast(Init, run);
      RetryTimesArePlanned(run[..n]);
      StepKnown(Run(Init, run[..n]), run[n], Plans(run[..n]));
    }
  }

  /** An entry may be released exactly from its time on. */
  lemma DueExactly(s: State, j: JobId)
    ensures IsDueBatch(s, [j]) <==> j in s.retryQueue && 0 <= s.retryQueue[j] <= s.now
    ensures IsDueBatch(s, [j]) ==> j !in Released(s, [j]).retryQueue && j in Released(s, [j]).downloadQueue
  {
    assert [j][0] == j;
  }

  /** So no job is released before a time planned for it. */
  lemma NotReleasedEarly(run: seq<Label>, due: seq<JobId>, j: JobId)
    requires IsDueBatch(Run(Init, run), due) && j in due
    ensures |due| <= 10 && exists at: Time :: (j, at) in Plans(run) && 0 <= at <= Run(Init, run).now
  {
    RetryTimesArePlanned(run);
    var s := Run(Init, run);
    assert (j, s.retryQueue[j]) in Plans(run);
  }

  /** The push of a retry time for `j`: the retry's own, or a relay pass's. */
  function Pushes(s: State, l: Label, j: JobId): Option<(Time, Reply)> {
    match l
    case Back(SchedulePush(t, reply)) =>
      if t in s.tasks && s.tasks[t].Scheduling? && !s.tasks[t].pushed && s.tasks[t].job == j
      then Some((s.tasks[t].at, reply)) else None
    case Relay(RelayPush(r, reply)) =>
      if CanRelay(s, r) && s.outbox[r].job == j && s.outbox[r].event.RetryScheduled?
      then Some((s.outbox[r].event.payload.at, reply)) else None
    case _ => None
  }

  predicate Releases(s: State, l: Label, j: JobId) {
    l.Queue? && l.queue.ReleaseDue? && IsDueBatch(s, l.queue.due) && j in l.queue.due
  }

  ghost predicate EntryLaw(s: State, l: Label, j: JobId, s': State) {
    var m := s.retryQueue; var m' := s'.retryQueue; var push := Pushes(s, l, j);
    if push.Some? && (push.value.1.Overtaken? || (j !in m && (push.value.1.Delivered? || push.value.1.Unreported?)))
    then j in m' && m'[j] == push.value.0
    else if Releases(s, l, j) then j !in m' && j in s'.downloadQueue
    else if j in m then j in m' && m'[j] == m[j]
    else j !in m'
  }

  /** The life of an entry: it comes with the time that is pushed, stays as it is unless another push of
      the job overtakes one, and goes to the list when it is released. */
  lemma EntryChanges(s: State, l: Label, j: JobId)
    ensures EntryLaw(s, l, j, Apply(s, l))
  {
    match l
    case Api(a) => ApiKeepsEntries(s, a);
    case Work(a) => RunKeepsEntries(s, a);
    case Drain(a) => DrainKeepsEntries(s, a);
    case Relay(a) => RelayEntry(s, a, j);
    case Queue(a) => QueueEntry(s, a, j);
    case Back(a) => BackEntry(s, a, j);
    case Tick(_) =>
  }

  lemma ApiKeepsEntries(s: State, a: ApiStep)
    ensures ApplyApi(s, a).retryQueue == s.retryQueue
  {
  }

  lemma RunKeepsEntries(s: State, a: RunStep)
    ensures ApplyRun(s, a).retryQueue == s.retryQueue
  {
  }

  lemma DrainKeepsEntries(s: State, a: DrainStep)
    ensures ApplyDrain(s, a).retryQueue == s.retryQueue
  {
  }

  lemma RelayEntry(s: State, a: RelayStep, j: JobId)
    ensures EntryLaw(s, Relay(a), j, ApplyRelay(s, a))
  {
  }

  lemma QueueEntry(s: State, a: QueueStep, j: JobId)
    ensures EntryLaw(s, Queue(a), j, ApplyQueue(s, a))
  {
  }

  lemma BackEntry(s: State, a: RequeueStep, j: JobId)
    ensures EntryLaw(s, Back(a), j, ApplyRequeue(s, a))
  {
  }

  // The column of the job table.

  /** The time of a job's latest committed retry, unless a reset has cleared it since. */
  function Planned(run: seq<Label>, j: JobId): Option<Time> {
    if run == [] then None
    else
      var n := |run| - 1;
      var s := Run(Init, run[..n]);
      match run[n]
      case Back(Retry(_, _, _, at)) =>
        if BackOutcome(s, run[n].back, j) == Some(Reattempt) then Some(at) else Planned(run[..n], j)
      case Api(UserRetry(call, r)) =>
        if RetriesNow(s, call, r, j) && s.desk.retrying[call].planned then None else Planned(run[..n], j)
      case Api(Replay(k, r)) => if k == j && CanReplay(s, j, r) then None else Planned(run[..n], j)
      case _ => Planned(run[..n], j)
  }

  function ColumnOf(s: State, j: JobId): Option<Time> {
    if j in s.jobs then s.jobs[j].nextRetryAt else None
  }


  lemma QueueColumn(s: State, a: QueueStep, j: JobId)
    ensures ColumnOf(ApplyQueue(s, a), j) == ColumnOf(s, j)
  {
  }

  lemma RunColumn(s: State, a: RunStep, j: JobId)
    ensures ColumnOf(ApplyRun(s, a), j) == ColumnOf(s, j)
  {
  }

  lemma DrainColumn(s: State, a: DrainStep, j: JobId)
    ensures ColumnOf(ApplyDrain(s, a), j) == ColumnOf(s, j)
  {
  }

  lemma BackColumn(s: State, a: RequeueStep, j: JobId)
    ensures ColumnOf(ApplyRequeue(s, a), j) ==
            if a.Retry? && BackOutcome(s, a, j) == Some(Reattempt) then Some(a.at) else ColumnOf(s, j)
  {
  }

  lemma ApiColumn(s: State, a: ApiStep, j: JobId)
    ensures ColumnOf(ApplyApi(s, a), j) ==
      match a
      case UserRetry(call, r) => if RetriesNow(s, call, r, j) && s.desk.retrying[call].planned then None else ColumnOf(s, j)
      case Replay(k, r) => if k == j && CanReplay(s, j, r) then None else ColumnOf(s, j)
      case _ => ColumnOf(s, j)
  {
  }

  /** The job's own record of its next attempt, over all runs. */
  lemma {:induction false} NextRetryIsPlanned(run: seq<Label>, j: JobId)
    ensures ColumnOf(Run(Init, run), j) == Planned(run, j)
  {
    if run != [] {
      var n := |run| - 1;
      var s := Run(Init, run[..n]);
      RunLast(Init, run);
      NextRetryIsPlanned(run[..n], j);
      match run[n]
      case Tick(_) =>
      case Api(a) => ApiColumn(s, a, j);
      case Relay(a) => RelayAside(s, a);
      case Queue(a) => QueueColumn(s, a, j);
      case Work(a) => RunColumn(s, a, j);
      case Back(a) => BackColumn(s, a, j);
      case Drain(a) => DrainColumn(s, a, j);
    }
  }
}
