/** How often a job may fail. */
module Attempts {
  import opened Prelude
  import opened Pipeline
  import opened Outcomes
  import RetryPolicy

  /** The job goes back without its run having come to a completion, an error or a deferral. */
  predicate TakesBack(o: Option<Outcome>) {
    o == Some(Requeueing) || o == Some(Sweeping) || o == Some(Resetting)
  }

  /** It is run `t` itself that gives its job back. */
  predicate ByRun(l: Label, t: TaskId) {
    l.Back? && ((l.back.Requeue? && l.back.task == t) || (l.back.Cancel? && l.back.task == t))
  }

  /** No live run loses its job to anyone else: not to a sweep, a replay, a user retry that read the row
      before the claim, or the late requeue of a cancelled run that had the job earlier. */
  ghost predicate Calm(s: State, l: Label) {
    forall t, j | Runs(s, t, j) && TakesBack(OutcomeOf(s, l, j)) :: ByRun(l, t)
  }

  ghost predicate CalmRun(s: State, run: seq<Label>)
    decreases |run|
  {
    run == [] || (Calm(s, run[0]) && CalmRun(Apply(s, run[0]), run[1..]))
  }

  /** Each job in `processing` has at most one run, and its snapshot is current. */
  ghost predicate SoleRunner(s: State) {
    && (forall t | RunsTask(s, t) :: HasStatus(s, s.tasks[t].job, Processing)
          && s.tasks[t].retryCount == s.jobs[s.tasks[t].job].retryCount
          && s.tasks[t].maxRetries == s.jobs[s.tasks[t].job].maxRetries)
    && (forall t, u | RunsTask(s, t) && RunsTask(s, u) && s.tasks[t].job == s.tasks[u].job :: t == u)
  }

  lemma ClaimKeepsSoleRunner(s: State, t: TaskId)
    requires SoleRunner(s)
    ensures SoleRunner(Claimed(s, t))
  {
  }

  lemma BeatKeepsSoleRunner(s: State, t: TaskId)
    requires SoleRunner(s)
    ensures SoleRunner(Beaten(s, t))
  {
  }

  lemma DownloadKeepsSoleRunner(s: State, t: TaskId, f: FileId)
    requires SoleRunner(s)
    ensures SoleRunner(Downloaded(s, t, f))
  {
  }

  lemma CompleteKeepsSoleRunner(s: State, t: TaskId)
    requires SoleRunner(s)
    ensures SoleRunner(CompletedRun(s, t))
  {
  }

  lemma FailKeepsSoleRunner(s: State, t: TaskId, c: RetryPolicy.Category)
    requires SoleRunner(s)
    ensures SoleRunner(FailedRun(s, t, c))
  {
  }

  lemma DeferKeepsSoleRunner(s: State, t: TaskId, service: string)
    requires SoleRunner(s)
    ensures SoleRunner(DeferredRun(s, t, service))
  {
  }

  lemma DrainCommitKeepsSoleRunner(s: State, d: DrainId, service: string, j: JobId, commits: bool)
    requires SoleRunner(s)
    ensures SoleRunner(DrainCommitted(s, d, service, j, commits))
  {
  }

  lemma CreateKeepsSoleRunner(s: State, j: JobId, r: RowId, m: nat)
    requires SoleRunner(s)
    ensures SoleRunner(Created(s, j, r, m))
  {
  }

  lemma RetryKeepsSoleRunner(s: State, t: TaskId, c: RetryPolicy.Category, r: RowId, at: Time)
    requires SoleRunner(s)
    ensures SoleRunner(Retried(s, t, c, r, at))
  {
  }

  lemma RequeueKeepsSoleRunner(s: State, t: TaskId, r: RowId)
    requires SoleRunner(s)
    ensures SoleRunner(Requeued(s, t, r))
  {
  }

  lemma CancelKeepsSoleRunner(s: State, t: TaskId, r: RowId)
    requires SoleRunner(s) && Calm(s, Back(Cancel(t, r)))
    ensures SoleRunner(Cancelled(s, t, r))
  {
    if CanCancel(s, t, r) && HasStatus(s, s.tasks[t].job, Processing) && !HasPendingRow(s, s.tasks[t].job) {
      var j := s.tasks[t].job;
      assert OutcomeOf(s, Back(Cancel(t, r)), j) == Some(Requeueing);
      forall u | RunsTask(Cancelled(s, t, r), u) ensures s.tasks[u].job != j {
        assert Runs(s, u, j) ==> u == t;
      }
    }
  }

  lemma CalmSweepSpares(s: State, rows: map<RowId, JobId>, t: TaskId)
    requires Calm(s, Back(Sweep(rows))) && IsSweep(s, rows) && SweepCommits(s, rows) && RunsTask(s, t)
    ensures s.tasks[t].job !in rows.Values
  {
    var j := s.tasks[t].job;
    assert Runs(s, t, j) && !ByRun(Back(Sweep(rows)), t);
    assert j in rows.Values ==> OutcomeOf(s, Back(Sweep(rows)), j) == Some(Sweeping);
  }

  lemma SparedKeepsSoleRunner(s: State, s': State)
    requires SoleRunner(s) && s'.tasks == s.tasks
    requires forall t | RunsTask(s, t) :: s.tasks[t].job in s'.jobs && s'.jobs[s.tasks[t].job] == s.jobs[s.tasks[t].job]
    ensures SoleRunner(s')
  {
    assert forall t :: RunsTask(s', t) <==> RunsTask(s, t);
  }

  lemma SweepKeepsSoleRunner(s: State, rows: map<RowId, JobId>)
    requires SoleRunner(s) && Calm(s, Back(Sweep(rows))) && IsSweep(s, rows) && SweepCommits(s, rows)
    ensures SoleRunner(Swept(s, rows))
  {
    var s' := Swept(s, rows);
    forall t | RunsTask(s, t) ensures s.tasks[t].job in s'.jobs && s'.jobs[s.tasks[t].job] == s.jobs[s.tasks[t].job] {
      CalmSweepSpares(s, rows, t);
    }
    SparedKeepsSoleRunner(s, s');
  }

  lemma ResetKeepsSoleRunner(s: State, seen: Seen, r: RowId)
    requires SoleRunner(s) && seen.job in s.jobs && forall t :: !Runs(s, t, seen.job)
    ensures SoleRunner(ResetAndEnqueue(s, seen, r))
  {
    forall t | RunsTask(s, t) ensures s.tasks[t].job != seen.job {
      assert !Runs(s, t, seen.job);
    }
    SparedKeepsSoleRunner(s, ResetAndEnqueue(s, seen, r));
  }

  /** A calm reset finds no live run of its job. */
  lemma CalmResetSpares(s: State, a: ApiStep, j: JobId, t: TaskId)
    requires SoleRunner(s) && Calm(s, Api(a))
    requires HasStatus(s, j, Processing) ==> OutcomeOf(s, Api(a), j) == Some(Resetting)
    ensures !Runs(s, t, j)
  {
    assert Runs(s, t, j) ==> HasStatus(s, j, Processing) && !ByRun(Api(a), t);
  }

  lemma UserRetryKeepsSoleRunner(s: State, call: CallId, r: RowId)
    requires SoleRunner(s) && Calm(s, Api(UserRetry(call, r)))
    ensures SoleRunner(UserRetried(s, call, r))
  {
    if CanUserRetry(s, call, r) {
      var seen := s.desk.retrying[call];
      var s0 := WithoutCall(s, call);
      forall t ensures !Runs(s0, t, seen.job) {
        CalmResetSpares(s, UserRetry(call, r), seen.job, t);
        assert Runs(s0, t, seen.job) <==> Runs(s, t, seen.job);
      }
      SparedKeepsSoleRunner(s, s0);
      ResetKeepsSoleRunner(s0, seen, r);
    }
  }

  lemma ReplayKeepsSoleRunner(s: State, j: JobId, r: RowId)
    requires SoleRunner(s) && Calm(s, Api(Replay(j, r)))
    ensures SoleRunner(Replayed(s, j, r))
  {
    if CanReplay(s, j, r) {
      var s0 := WithoutDead(s, j);
      forall t ensures !Runs(s0, t, j) {
        CalmResetSpares(s, Replay(j, r), j, t);
        assert Runs(s0, t, j) <==> Runs(s, t, j);
      }
      SparedKeepsSoleRunner(s, s0);
      ResetKeepsSoleRunner(s0, Seen(j, true, true), r);
    }
  }

  lemma ApiKeepsSoleRunner(s: State, a: ApiStep)
    requires SoleRunner(s) && Calm(s, Api(a))
    ensures SoleRunner(ApplyApi(s, a))
  {
    match a
    case Create(j, r, m) => CreateKeepsSoleRunner(s, j, r, m);
    case AskRetry(call, j) => SparedKeepsSoleRunner(s, Asked(s, call, j));
    case UserRetry(call, r) => UserRetryKeepsSoleRunner(s, call, r);
    case Replay(j, r) => ReplayKeepsSoleRunner(s, j, r);
    case ReplayAnew(j, k, r, m) => CreateKeepsSoleRunner(WithoutDead(s, j), k, r, m);
  }

  lemma RunKeepsSoleRunner(s: State, a: RunStep)
    requires SoleRunner(s)
    ensures SoleRunner(ApplyRun(s, a))
  {
    match a
    case Beat(t) => BeatKeepsSoleRunner(s, t);
    case Download(t, f) => DownloadKeepsSoleRunner(s, t, f);
    case Complete(t) => CompleteKeepsSoleRunner(s, t);
    case Fail(t, c) => FailKeepsSoleRunner(s, t, c);
    case Defer(t, service) => DeferKeepsSoleRunner(s, t, service);
    case _ => RunAside(s, a);
  }

  lemma BackKeepsSoleRunner(s: State, a: RequeueStep)
    requires SoleRunner(s) && Calm(s, Back(a))
    ensures SoleRunner(ApplyRequeue(s, a))
  {
    match a
    case Retry(t, c, r, at) => RetryKeepsSoleRunner(s, t, c, r, at);
    case Requeue(t, r) => RequeueKeepsSoleRunner(s, t, r);
    case Cancel(t, r) => CancelKeepsSoleRunner(s, t, r);
    case Sweep(rows) => if IsSweep(s, rows) && SweepCommits(s, rows) { SweepKeepsSoleRunner(s, rows); }
    case _ => BackAside(s, a);
  }

  lemma StepKeepsSoleRunner(s: State, l: Label)
    requires SoleRunner(s) && Calm(s, l)
    ensures SoleRunner(Apply(s, l))
  {
    match l
    case Tick(_) =>
    case Api(a) => ApiKeepsSoleRunner(s, a);
    case Relay(a) => RelayAside(s, a);
    case Queue(Claim(t)) => ClaimKeepsSoleRunner(s, t);
    case Queue(a) => QueueAside(s, a);
    case Work(a) => RunKeepsSoleRunner(s, a);
    case Back(a) => BackKeepsSoleRunner(s, a);
    case Drain(DrainCommit(d, service, j, commits)) => DrainCommitKeepsSoleRunner(s, d, service, j, commits);
    case Drain(a) => DrainAside(s, a);
  }

  /** The errors the job's row speaks of: its retries, and the final failure. */
  function Tally(s: State, j: JobId): int {
    if j !in s.jobs then 0 else s.jobs[j].retryCount + (if s.jobs[j].status.Failed? then 1 else 0)
  }

  function IsError(o: Option<Outcome>): nat {
    if o == Some(Reattempt) || o == Some(Failure) then 1 else 0
  }

  /** A reset by a replay or the user, with which the counting starts anew: from zero, or from where the
      counter stands if the user's call read a zero there and so leaves the counter alone. */
  function Restart(s: State, l: Label, j: JobId): Option<int> {
    match l
    case Api(UserRetry(call, r)) =>
      if RetriesNow(s, call, r, j) then Some(if s.desk.retrying[call].counted then 0 else s.jobs[j].retryCount) else None
    case Api(Replay(k, r)) => if k == j && CanReplay(s, j, r) then Some(0) else None
    case _ => None
  }

  function Counted(s: State, l: Label, j: JobId, n: int): int {
    var restart := Restart(s, l, j);
    if restart.Some? then restart.value else n + IsError(OutcomeOf(s, l, j))
  }

  /** The retries and failures of `j` that a run commits behind its last reset, on top of `n` before it. */
  function ErrorCount(s: State, run: seq<Label>, j: JobId, n: int): int
    decreases |run|
  {
    if run == [] then n else ErrorCount(Apply(s, run[0]), run[1..], j, Counted(s, run[0], j, n))
  }

  /** A retry commits from a snapshot that the counter has left behind. */
  predicate StaleRetry(s: State, l: Label, j: JobId) {
    && l.Back? && l.back.Retry?
    && BackOutcome(s, l.back, j) == Some(Reattempt)
    && s.tasks[l.back.task].retryCount != s.jobs[j].retryCount
  }

  lemma RunCounts(s: State, a: RunStep, j: JobId)
    ensures Tally(ApplyRun(s, a), j) == Tally(s, j) + IsError(RunOutcome(s, a, j))
  {
  }

  lemma RetryCounts(s: State, t: TaskId, c: RetryPolicy.Category, r: RowId, at: Time, j: JobId)
    ensures var a := Back(Retry(t, c, r, at));
      Tally(Retried(s, t, c, r, at), j) == Tally(s, j) + IsError(OutcomeOf(s, a, j)) <==> !StaleRetry(s, a, j)
  {
  }

  lemma ReturnCounts(s: State, a: RequeueStep, j: JobId)
    requires !a.Retry?
    ensures Tally(ApplyRequeue(s, a), j) == Tally(s, j)
  {
  }

  lemma BackCounts(s: State, a: RequeueStep, j: JobId)
    ensures Tally(ApplyRequeue(s, a), j) == Tally(s, j) + IsError(BackOutcome(s, a, j)) <==> !StaleRetry(s, Back(a), j)
  {
    match a
    case Retry(t, c, r, at) => RetryCounts(s, t, c, r, at, j);
    case _ => ReturnCounts(s, a, j);
  }

  lemma ApiCounts(s: State, a: ApiStep, j: JobId)
    ensures Tally(ApplyApi(s, a), j) == if Restart(s, Api(a), j).Some? then Restart(s, Api(a), j).value else Tally(s, j)
  {
  }

  lemma QueueCounts(s: State, a: QueueStep, j: JobId)
    ensures Tally(ApplyQueue(s, a), j) == Tally(s, j)
  {
  }

  lemma DrainCounts(s: State, a: DrainStep, j: JobId)
    ensures Tally(ApplyDrain(s, a), j) == Tally(s, j)
  {
  }

  lemma StepCounts(s: State, l: Label, j: JobId)
    ensures Tally(Apply(s, l), j) == Counted(s, l, j, Tally(s, j)) <==> !StaleRetry(s, l, j)
  {
    match l
    case Relay(a) => RelayAside(s, a);
    case Work(a) => RunCounts(s, a, j);
    case Back(a) => BackCounts(s, a, j);
    case Api(a) => ApiCounts(s, a, j);
    case Queue(a) => QueueCounts(s, a, j);
    case Drain(a) => DrainCounts(s, a, j);
    case Tick(_) =>
  }

  /** After every step the row says how many errors have been committed since the last reset. */
  ghost predicate AlwaysExact(s: State, run: seq<Label>, j: JobId, n: int)
    decreases |run|
  {
    Tally(s, j) == n && (run == [] || AlwaysExact(Apply(s, run[0]), run[1..], j, Counted(s, run[0], j, n)))
  }

  ghost predicate NoStaleRetry(s: State, run: seq<Label>, j: JobId)
    decreases |run|
  {
    run == [] || (!StaleRetry(s, run[0], j) && NoStaleRetry(Apply(s, run[0]), run[1..], j))
  }

  /** Over all runs, sweeps, resets and cancellations included: the count is right throughout exactly
      when no retry is committed from a snapshot out of date. */
  lemma {:induction false} CountsExactly(s: State, run: seq<Label>, j: JobId)
    ensures AlwaysExact(s, run, j, Tally(s, j)) <==> NoStaleRetry(s, run, j)
    decreases |run|
  {
    if run != [] {
      var s1 := Apply(s, run[0]);
      StepCounts(s, run[0], j);
      if StaleRetry(s, run[0], j) {
        NotExact(s1, run[1..], j, Counted(s, run[0], j, Tally(s, j)));
      } else {
        CountsExactly(s1, run[1..], j);
      }
    }
  }

  lemma NotExact(s: State, run: seq<Label>, j: JobId, n: int)
    requires Tally(s, j) != n
    ensures !AlwaysExact(s, run, j, n)
  {
  }

  lemma {:induction false} ExactAtEnd(s: State, run: seq<Label>, j: JobId, n: int)
    requires AlwaysExact(s, run, j, n)
    ensures Tally(Run(s, run), j) == ErrorCount(s, run, j, n)
    decreases |run|
  {
    if run != [] {
      ExactAtEnd(Apply(s, run[0]), run[1..], j, Counted(s, run[0], j, n));
    }
  }

  /** A run whose job nobody else takes has a current snapshot. */
  lemma {:induction false} CalmIsNeverStale(s: State, run: seq<Label>, j: JobId)
    requires SoleRunner(s) && CalmRun(s, run)
    ensures NoStaleRetry(s, run, j)
    decreases |run|
  {
    if run != [] {
      assert !StaleRetry(s, run[0], j);
      StepKeepsSoleRunner(s, run[0]);
      CalmIsNeverStale(Apply(s, run[0]), run[1..], j);
    }
  }

  /** While no live run loses its job to anyone else, a job commits at most `max_retries` retries and
      one final failure between two resets, whatever categories its errors fall into; the counter and
      the status say exactly how many. */
  lemma ErrorBudget(run: seq<Label>, j: JobId)
    requires CalmRun(Init, run)
    ensures Tally(Run(Init, run), j) == ErrorCount(Init, run, j, 0)
    ensures j in Run(Init, run).jobs ==>
      ErrorCount(Init, run, j, 0) <= Run(Init, run).jobs[j].maxRetries + (if HasStatus(Run(Init, run), j, Failed) then 1 else 0)
  {
    CalmIsNeverStale(Init, run, j);
    CountsExactly(Init, run, j);
    ExactAtEnd(Init, run, j, 0);
    RetryCountBounded(Init, run);
  }
}
