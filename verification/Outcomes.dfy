/** What one claim leads to: a single outcome, a file that stays on disk, and a bounded counter. */
module Outcomes {
  import opened Prelude
  import opened Pipeline
  import RetryPolicy

  datatype Outcome = Claiming | Completion | Reattempt | Failure | Deferral | Requeueing | Sweeping | Resetting

  predicate Runs(s: State, t: TaskId, j: JobId) {
    RunsTask(s, t) && s.tasks[t].job == j
  }

  function If(b: bool, o: Outcome): Option<Outcome> {
    if b then Some(o) else None
  }

  function RunOutcome(s: State, a: RunStep, j: JobId): Option<Outcome> {
    match a
    case Complete(t) => If(Runs(s, t, j) && s.tasks[t].file.Some? && HasStatus(s, j, Processing), Completion)
    case Fail(t, c) =>
      If(Runs(s, t, j) && RetryPolicy.IsFinal(c, s.tasks[t].retryCount, s.tasks[t].maxRetries)
         && HasStatus(s, j, Processing), Failure)
    case Defer(t, _) => If(Runs(s, t, j) && HasStatus(s, j, Processing), Deferral)
    case _ => None
  }

  function BackOutcome(s: State, a: RequeueStep, j: JobId): Option<Outcome> {
    match a
    case Retry(t, c, r, _) =>
      If(Runs(s, t, j) && FreshRow(s, r) && !RetryPolicy.IsFinal(c, s.tasks[t].retryCount, s.tasks[t].maxRetries)
         && HasStatus(s, j, Processing) && !HasPendingRow(s, j), Reattempt)
    case Requeue(t, r) =>
      If(Runs(s, t, j) && FreshRow(s, r) && HasStatus(s, j, Processing) && !HasPendingRow(s, j), Requeueing)
    case Cancel(t, r) =>
      If(CanCancel(s, t, r) && s.tasks[t].job == j && HasStatus(s, j, Processing) && !HasPendingRow(s, j), Requeueing)
    case Sweep(rows) => If(IsSweep(s, rows) && SweepCommits(s, rows) && j in rows.Values, Sweeping)
    case _ => None
  }

  /** The claim, or the exit from `processing`, that step `l` commits for job `j`; None for a step
      whose compare-and-set finds another status, whose insert is rejected, or that is about
      something else. */
  function OutcomeOf(s: State, l: Label, j: JobId): Option<Outcome> {
    match l
    case Queue(Claim(t)) => If(t in s.tasks && s.tasks[t] == Popped(j) && HasStatus(s, j, Pending), Claiming)
    case Work(a) => RunOutcome(s, a, j)
    case Back(a) => BackOutcome(s, a, j)
    case Api(UserRetry(call, r)) => If(RetriesNow(s, call, r, j) && HasStatus(s, j, Processing), Resetting)
    case Api(Replay(k, r)) => If(k == j && CanReplay(s, j, r) && HasStatus(s, j, Processing), Resetting)
    case _ => None
  }

  /** The claims and exits of job `j` in the order a run commits them. */
  function Story(s: State, run: seq<Label>, j: JobId): seq<Outcome>
    decreases |run|
  {
    if run == [] then []
    else
      var rest := Story(Apply(s, run[0]), run[1..], j);
      match OutcomeOf(s, run[0], j)
      case Some(o) => [o] + rest
      case None => rest
  }

  /** Claims and exits take turns; `open` says whether a claim is outstanding at the start. */
  predicate Alternates(story: seq<Outcome>, open: bool) {
    story == [] || ((story[0].Claiming? <==> !open) && Alternates(story[1..], !open))
  }

  // Steps that leave the job table, the disk and every run alone, except that a run may end.

  ghost predicate Aside(s: State, s': State) {
    && s'.jobs == s.jobs && s'.disk == s.disk && s'.now == s.now
    && forall t | RunsTask(s', t) :: RunsTask(s, t) && s'.tasks[t] == s.tasks[t]
  }

  lemma RelayAside(s: State, a: RelayStep)
    ensures Aside(s, ApplyRelay(s, a))
  {
  }

  lemma QueueAside(s: State, a: QueueStep)
    requires !a.Claim?
    ensures Aside(s, ApplyQueue(s, a))
  {
  }

  lemma DrainAside(s: State, a: DrainStep)
    requires !a.DrainCommit?
    ensures Aside(s, ApplyDrain(s, a))
  {
  }

  lemma RunAside(s: State, a: RunStep)
    requires a.Die? || a.Bury? || a.Record?
    ensures Aside(s, ApplyRun(s, a))
  {
  }

  lemma BackAside(s: State, a: RequeueStep)
    requires a.SchedulePush? || a.ScheduleAck?
    ensures Aside(s, ApplyRequeue(s, a))
  {
  }

  /** What an outcome says about the status before and after the step. */
  predicate Explains(o: Option<Outcome>, before: bool, after: bool) {
    match o
    case None => before == after
    case Some(Claiming) => !before && after
    case Some(_) => before && !after
  }

  lemma RunExplained(s: State, a: RunStep, j: JobId)
    ensures Explains(RunOutcome(s, a, j), HasStatus(s, j, Processing), HasStatus(ApplyRun(s, a), j, Processing))
  {
  }

  lemma BackExplained(s: State, a: RequeueStep, j: JobId)
    ensures Explains(BackOutcome(s, a, j), HasStatus(s, j, Processing), HasStatus(ApplyRequeue(s, a), j, Processing))
  {
  }

  lemma ApiExplained(s: State, a: ApiStep, j: JobId)
    ensures Explains(OutcomeOf(s, Api(a), j), HasStatus(s, j, Processing), HasStatus(ApplyApi(s, a), j, Processing))
  {
  }

  lemma StepOutcome(s: State, l: Label, j: JobId)
    ensures Explains(OutcomeOf(s, l, j), HasStatus(s, j, Processing), HasStatus(Apply(s, l), j, Processing))
  {
    match l
    case Tick(_) =>
    case Api(a) => ApiExplained(s, a, j);
    case Relay(a) => RelayAside(s, a);
    case Queue(Claim(t)) =>
    case Queue(a) => QueueAside(s, a);
    case Work(a) => RunExplained(s, a, j);
    case Back(a) => BackExplained(s, a, j);
    case Drain(DrainCommit(_, _, _, _)) =>
    case Drain(a) => DrainAside(s, a);
  }

  /** Whether a claim is outstanding after a story that takes turns. */
  predicate Outstanding(story: seq<Outcome>, open: bool) {
    if story == [] then open else Outstanding(story[1..], !open)
  }

  function Claims(story: seq<Outcome>): nat {
    if story == [] then 0 else (if story[0].Claiming? then 1 else 0) + Claims(story[1..])
  }

  lemma {:induction false} ClaimsMinusExits(story: seq<Outcome>, open: bool)
    requires Alternates(story, open)
    ensures (if open then 1 else 0) + Claims(story) - (|story| - Claims(story)) == if Outstanding(story, open) then 1 else 0
  {
    if story != [] {
      ClaimsMinusExits(story[1..], !open);
    }
  }

  lemma Prepend(o: Option<Outcome>, rest: seq<Outcome>, before: bool, after: bool)
    requires Explains(o, before, after) && Alternates(rest, after)
    ensures match o
            case None => Alternates(rest, before) && Outstanding(rest, before) == Outstanding(rest, after)
            case Some(x) => Alternates([x] + rest, before) && Outstanding([x] + rest, before) == Outstanding(rest, after)
  {
    if o.Some? {
      assert ([o.value] + rest)[1..] == rest;
    }
  }

  /** Per claim at most one completion, retry, failure, deferral, requeue, sweep or reset commits,
      however many stale runs of the job are still going, and a claim is outstanding exactly while
      the status is `processing`. */
  lemma {:induction false} OneOutcomePerClaim(s: State, run: seq<Label>, j: JobId)
    ensures Alternates(Story(s, run, j), HasStatus(s, j, Processing))
    ensures Outstanding(Story(s, run, j), HasStatus(s, j, Processing)) <==> HasStatus(Run(s, run), j, Processing)
    decreases |run|
  {
    if run != [] {
      var s1 := Apply(s, run[0]);
      StepOutcome(s, run[0], j);
      OneOutcomePerClaim(s1, run[1..], j);
      Prepend(OutcomeOf(s, run[0], j), Story(s1, run[1..], j), HasStatus(s, j, Processing), HasStatus(s1, j, Processing));
    }
  }

  /** From the empty system, the claims of a job exceed its exits by one while it is `processing`
      and equal them otherwise. */
  lemma ClaimsBalance(run: seq<Label>, j: JobId)
    ensures var story := Story(Init, run, j);
      Claims(story) - (|story| - Claims(story)) == if HasStatus(Run(Init, run), j, Processing) then 1 else 0
  {
    OneOutcomePerClaim(Init, run, j);
    ClaimsMinusExits(Story(Init, run, j), false);
  }

  /** A completed row names a file on disk, and a file a run has downloaded is its own: no row and
      no other run names it. */
  ghost predicate FilesOwned(s: State) {
    && (forall j | j in s.jobs :: s.jobs[j].status.Completed? ==>
         s.jobs[j].filePath.Some? && s.jobs[j].filePath.value in s.disk)
    && (forall t, j | RunsTask(s, t) && s.tasks[t].file.Some? && j in s.jobs :: s.jobs[j].filePath != s.tasks[t].file)
    && (forall t | RunsTask(s, t) && s.tasks[t].file.Some? :: s.tasks[t].file.value in s.disk)
    && (forall t, u | RunsTask(s, t) && RunsTask(s, u) && s.tasks[t].file.Some? && s.tasks[t].file == s.tasks[u].file :: t == u)
  }

  lemma ClaimKeepsFiles(s: State, t: TaskId)
    requires FilesOwned(s)
    ensures FilesOwned(Claimed(s, t))
  {
  }

  lemma BeatKeepsFiles(s: State, t: TaskId)
    requires FilesOwned(s)
    ensures FilesOwned(Beaten(s, t))
  {
  }

  lemma DownloadKeepsFiles(s: State, t: TaskId, f: FileId)
    requires FilesOwned(s)
    ensures FilesOwned(Downloaded(s, t, f))
  {
  }

  lemma CompleteKeepsFiles(s: State, t: TaskId)
    requires FilesOwned(s)
    ensures FilesOwned(CompletedRun(s, t))
  {
  }

  lemma FailKeepsFiles(s: State, t: TaskId, c: RetryPolicy.Category)
    requires FilesOwned(s)
    ensures FilesOwned(FailedRun(s, t, c))
  {
  }

  lemma DeferKeepsFiles(s: State, t: TaskId, service: string)
    requires FilesOwned(s)
    ensures FilesOwned(DeferredRun(s, t, service))
  {
  }

  lemma DrainCommitKeepsFiles(s: State, d: DrainId, service: string, j: JobId, commits: bool)
    requires FilesOwned(s)
    ensures FilesOwned(DrainCommitted(s, d, service, j, commits))
  {
  }

  lemma UserRetryKeepsFiles(s: State, call: CallId, r: RowId)
    requires FilesOwned(s)
    ensures FilesOwned(UserRetried(s, call, r))
  {
  }

  lemma CreateKeepsFiles(s: State, j: JobId, r: RowId, m: nat)
    requires FilesOwned(s)
    ensures FilesOwned(Created(s, j, r, m))
  {
  }

  lemma ReplayKeepsFiles(s: State, j: JobId, r: RowId)
    requires FilesOwned(s)
    ensures FilesOwned(Replayed(s, j, r))
  {
  }

  lemma RetryKeepsFiles(s: State, t: TaskId, c: RetryPolicy.Category, r: RowId, at: Time)
    requires FilesOwned(s)
    ensures FilesOwned(Retried(s, t, c, r, at))
  {
  }

  lemma ReadmitKeepsFiles(s: State, j: JobId, r: RowId)
    requires FilesOwned(s)
    ensures FilesOwned(Readmitted(s, j, r))
  {
  }

  lemma GiveUpKeepsFiles(s: State, t: TaskId)
    requires FilesOwned(s) && RunsTask(s, t)
    ensures FilesOwned(GivenUp(s, t))
  {
  }

  lemma RequeueKeepsFiles(s: State, t: TaskId, r: RowId)
    requires FilesOwned(s)
    ensures FilesOwned(Requeued(s, t, r))
  {
    if RunsTask(s, t) {
      ReadmitKeepsFiles(s, s.tasks[t].job, r);
      GiveUpKeepsFiles(Readmitted(s, s.tasks[t].job, r), t);
    }
  }

  lemma CancelKeepsFiles(s: State, t: TaskId, r: RowId)
    requires FilesOwned(s)
    ensures FilesOwned(Cancelled(s, t, r))
  {
    if CanCancel(s, t, r) {
      ReadmitKeepsFiles(s, s.tasks[t].job, r);
    }
  }

  lemma SweepKeepsFiles(s: State, rows: map<RowId, JobId>)
    requires FilesOwned(s) && IsSweep(s, rows)
    ensures FilesOwned(Swept(s, rows))
  {
  }

  lemma RunKeepsFiles(s: State, a: RunStep)
    requires FilesOwned(s)
    ensures FilesOwned(ApplyRun(s, a))
  {
    match a
    case Beat(t) => BeatKeepsFiles(s, t);
    case Download(t, f) => DownloadKeepsFiles(s, t, f);
    case Complete(t) => CompleteKeepsFiles(s, t);
    case Fail(t, c) => FailKeepsFiles(s, t, c);
    case Defer(t, service) => DeferKeepsFiles(s, t, service);
    case _ => RunAside(s, a);
  }

  lemma BackKeepsFiles(s: State, a: RequeueStep)
    requires FilesOwned(s)
    ensures FilesOwned(ApplyRequeue(s, a))
  {
    match a
    case Retry(t, c, r, at) => RetryKeepsFiles(s, t, c, r, at);
    case Requeue(t, r) => RequeueKeepsFiles(s, t, r);
    case Cancel(t, r) => CancelKeepsFiles(s, t, r);
    case Sweep(rows) => if ApplyRequeue(s, a) != s { SweepKeepsFiles(s, rows); }
    case _ => BackAside(s, a);
  }

  lemma ApiKeepsFiles(s: State, a: ApiStep)
    requires FilesOwned(s)
    ensures FilesOwned(ApplyApi(s, a))
  {
    match a
    case AskRetry(_, _) =>
    case UserRetry(call, r) => UserRetryKeepsFiles(s, call, r);
    case Create(j, r, m) => CreateKeepsFiles(s, j, r, m);
    case Replay(j, r) => ReplayKeepsFiles(s, j, r);
    case ReplayAnew(j, k, r, m) => CreateKeepsFiles(WithoutDead(s, j), k, r, m);
  }

  lemma DrainKeepsFiles(s: State, a: DrainStep)
    requires FilesOwned(s)
    ensures FilesOwned(ApplyDrain(s, a))
  {
    match a
    case DrainCommit(d, service, j, commits) => DrainCommitKeepsFiles(s, d, service, j, commits);
    case _ => DrainAside(s, a);
  }

  lemma StepKeepsFiles(s: State, l: Label)
    requires FilesOwned(s)
    ensures FilesOwned(Apply(s, l))
  {
    match l
    case Tick(_) =>
    case Api(a) => ApiKeepsFiles(s, a);
    case Relay(a) => RelayAside(s, a);
    case Queue(Claim(t)) => ClaimKeepsFiles(s, t);
    case Queue(a) => QueueAside(s, a);
    case Work(a) => RunKeepsFiles(s, a);
    case Back(a) => BackKeepsFiles(s, a);
    case Drain(a) => DrainKeepsFiles(s, a);
  }

  /** In every reachable state the file a completed job names is on disk: the losing runs of a job
      delete only files of their own. */
  lemma {:induction false} CompletedFileStays(s: State, run: seq<Label>)
    requires FilesOwned(s)
    ensures FilesOwned(Run(s, run))
    decreases |run|
  {
    if run != [] {
      StepKeepsFiles(s, run[0]);
      CompletedFileStays(Apply(s, run[0]), run[1..]);
    }
  }

  ghost predicate WithinBudget(s: State) {
    && (forall j | j in s.jobs :: 0 <= s.jobs[j].retryCount <= s.jobs[j].maxRetries)
    && (forall t | RunsTask(s, t) :: s.tasks[t].job in s.jobs
          && 0 <= s.tasks[t].retryCount && s.tasks[t].maxRetries == s.jobs[s.tasks[t].job].maxRetries)
  }

  lemma ClaimKeepsBudget(s: State, t: TaskId)
    requires WithinBudget(s)
    ensures WithinBudget(Claimed(s, t))
  {
  }

  lemma BeatKeepsBudget(s: State, t: TaskId)
    requires WithinBudget(s)
    ensures WithinBudget(Beaten(s, t))
  {
  }

  lemma DownloadKeepsBudget(s: State, t: TaskId, f: FileId)
    requires WithinBudget(s)
    ensures WithinBudget(Downloaded(s, t, f))
  {
  }

  lemma CompleteKeepsBudget(s: State, t: TaskId)
    requires WithinBudget(s)
    ensures WithinBudget(CompletedRun(s, t))
  {
  }

  lemma FailKeepsBudget(s: State, t: TaskId, c: RetryPolicy.Category)
    requires WithinBudget(s)
    ensures WithinBudget(FailedRun(s, t, c))
  {
  }

  lemma DeferKeepsBudget(s: State, t: TaskId, service: string)
    requires WithinBudget(s)
    ensures WithinBudget(DeferredRun(s, t, service))
  {
  }

  lemma DrainCommitKeepsBudget(s: State, d: DrainId, service: string, j: JobId, commits: bool)
    requires WithinBudget(s)
    ensures WithinBudget(DrainCommitted(s, d, service, j, commits))
  {
  }

  lemma UserRetryKeepsBudget(s: State, call: CallId, r: RowId)
    requires WithinBudget(s)
    ensures WithinBudget(UserRetried(s, call, r))
  {
  }

  lemma CreateKeepsBudget(s: State, j: JobId, r: RowId, m: nat)
    requires WithinBudget(s)
    ensures WithinBudget(Created(s, j, r, m))
  {
  }

  lemma ReplayKeepsBudget(s: State, j: JobId, r: RowId)
    requires WithinBudget(s)
    ensures WithinBudget(Replayed(s, j, r))
  {
  }

  lemma RetryKeepsBudget(s: State, t: TaskId, c: RetryPolicy.Category, r: RowId, at: Time)
    requires WithinBudget(s)
    ensures WithinBudget(Retried(s, t, c, r, at))
  {
  }

  lemma ReadmitKeepsBudget(s: State, j: JobId, r: RowId)
    requires WithinBudget(s)
    ensures WithinBudget(Readmitted(s, j, r))
  {
  }

  lemma GiveUpKeepsBudget(s: State, t: TaskId)
    requires WithinBudget(s) && RunsTask(s, t)
    ensures WithinBudget(GivenUp(s, t))
  {
  }

  lemma RequeueKeepsBudget(s: State, t: TaskId, r: RowId)
    requires WithinBudget(s)
    ensures WithinBudget(Requeued(s, t, r))
  {
    if RunsTask(s, t) {
      ReadmitKeepsBudget(s, s.tasks[t].job, r);
      GiveUpKeepsBudget(Readmitted(s, s.tasks[t].job, r), t);
    }
  }

  lemma CancelKeepsBudget(s: State, t: TaskId, r: RowId)
    requires WithinBudget(s)
    ensures WithinBudget(Cancelled(s, t, r))
  {
    if CanCancel(s, t, r) {
      ReadmitKeepsBudget(s, s.tasks[t].job, r);
    }
  }

  lemma SweepKeepsBudget(s: State, rows: map<RowId, JobId>)
    requires WithinBudget(s) && IsSweep(s, rows)
    ensures WithinBudget(Swept(s, rows))
  {
  }

  lemma RunKeepsBudget(s: State, a: RunStep)
    requires WithinBudget(s)
    ensures WithinBudget(ApplyRun(s, a))
  {
    match a
    case Beat(t) => BeatKeepsBudget(s, t);
    case Download(t, f) => DownloadKeepsBudget(s, t, f);
    case Complete(t) => CompleteKeepsBudget(s, t);
    case Fail(t, c) => FailKeepsBudget(s, t, c);
    case Defer(t, service) => DeferKeepsBudget(s, t, service);
    case _ => RunAside(s, a);
  }

  lemma BackKeepsBudget(s: State, a: RequeueStep)
    requires WithinBudget(s)
    ensures WithinBudget(ApplyRequeue(s, a))
  {
    match a
    case Retry(t, c, r, at) => RetryKeepsBudget(s, t, c, r, at);
    case Requeue(t, r) => RequeueKeepsBudget(s, t, r);
    case Cancel(t, r) => CancelKeepsBudget(s, t, r);
    case Sweep(rows) => if ApplyRequeue(s, a) != s { SweepKeepsBudget(s, rows); }
    case _ => BackAside(s, a);
  }

  lemma ApiKeepsBudget(s: State, a: ApiStep)
    requires WithinBudget(s)
    ensures WithinBudget(ApplyApi(s, a))
  {
    match a
    case AskRetry(_, _) =>
    case UserRetry(call, r) => UserRetryKeepsBudget(s, call, r);
    case Create(j, r, m) => CreateKeepsBudget(s, j, r, m);
    case Replay(j, r) => ReplayKeepsBudget(s, j, r);
    case ReplayAnew(j, k, r, m) => CreateKeepsBudget(WithoutDead(s, j), k, r, m);
  }

  lemma DrainKeepsBudget(s: State, a: DrainStep)
    requires WithinBudget(s)
    ensures WithinBudget(ApplyDrain(s, a))
  {
    match a
    case DrainCommit(d, service, j, commits) => DrainCommitKeepsBudget(s, d, service, j, commits);
    case _ => DrainAside(s, a);
  }

  lemma StepKeepsBudget(s: State, l: Label)
    requires WithinBudget(s)
    ensures WithinBudget(Apply(s, l))
  {
    match l
    case Tick(_) =>
    case Api(a) => ApiKeepsBudget(s, a);
    case Relay(a) => RelayAside(s, a);
    case Queue(Claim(t)) => ClaimKeepsBudget(s, t);
    case Queue(a) => QueueAside(s, a);
    case Work(a) => RunKeepsBudget(s, a);
    case Back(a) => BackKeepsBudget(s, a);
    case Drain(a) => DrainKeepsBudget(s, a);
  }

  /** The retry counter stays within the job's limit in every reachable state, even when a run that
      was swept long ago commits its retry from a stale snapshot. */
  lemma {:induction false} RetryCountBounded(s: State, run: seq<Label>)
    requires WithinBudget(s)
    ensures WithinBudget(Run(s, run))
    decreases |run|
  {
    if run != [] {
      StepKeepsBudget(s, run[0]);
      RetryCountBounded(Apply(s, run[0]), run[1..]);
    }
  }
}
