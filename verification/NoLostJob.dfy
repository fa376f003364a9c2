/** Whole runs: exactly which runs lose a job, that none does at the coarser grain, and what a loss means. */
module NoLostJob {
  import opened Prelude
  import opened Pipeline
  import opened Coverage
  import RetryPolicy

  ghost predicate HazardFree(s: State, run: seq<Label>)
    decreases |run|
  {
    run == [] || (!Hazard(s, run[0]) && HazardFree(Apply(s, run[0]), run[1..]))
  }

  /** Every state a run passes through, the first and the last included, covers its pending jobs. */
  ghost predicate AlwaysCovered(s: State, run: seq<Label>)
    decreases |run|
  {
    Covered(s) && (run == [] || AlwaysCovered(Apply(s, run[0]), run[1..]))
  }

  lemma {:induction false} RunKeepsTidy(s: State, run: seq<Label>)
    requires Tidy(s)
    ensures Tidy(Run(s, run))
    decreases |run|
  {
    if run != [] {
      StepKeepsTidy(s, run[0]);
      RunKeepsTidy(Apply(s, run[0]), run[1..]);
    }
  }

  /** Every pending job is announced in every state of a run exactly when the run has no hazard. */
  lemma {:induction false} NoLostJob(s: State, run: seq<Label>)
    requires Tidy(s) && Covered(s)
    ensures AlwaysCovered(s, run) <==> HazardFree(s, run)
    decreases |run|
  {
    if run != [] {
      StepKeepsTidy(s, run[0]);
      StepCoverage(s, run[0]);
      if !Hazard(s, run[0]) {
        NoLostJob(Apply(s, run[0]), run[1..]);
      }
    }
  }

  /** The coarser grain: a push and the commit that follows it are one action. */
  datatype Action =
    | Plain(step: Label)
    | RelayOne(row: RowId, reply: Reply, commits: bool)
    | ScheduleOne(task: TaskId, reply: Reply, commits: bool)
    | DrainOne(drain: DrainId, service: string, job: JobId, reply: Reply, commits: bool)

  function Labels(a: Action): seq<Label> {
    match a
    case Plain(l) => [l]
    case RelayOne(r, reply, c) => [Relay(RelayPush(r, reply)), Relay(RelayAck({r}, c))]
    case ScheduleOne(t, reply, c) => [Back(SchedulePush(t, reply)), Back(ScheduleAck(t, c))]
    case DrainOne(d, service, j, reply, c) => [Drain(DrainPush(service, j, reply)), Drain(DrainCommit(d, service, j, c))]
  }

  /** No half of a split action on its own, and no popped id thrown away. */
  predicate Whole(a: Action) {
    match a
    case Plain(Relay(RelayPush(_, _))) => false
    case Plain(Relay(RelayAck(_, _))) => false
    case Plain(Back(SchedulePush(_, _))) => false
    case Plain(Back(ScheduleAck(_, _))) => false
    case Plain(Drain(DrainPush(_, _, _))) => false
    case Plain(Drain(DrainCommit(_, _, _, _))) => false
    case Plain(Queue(Drop(_))) => false
    case Plain(Queue(PushBack(_, reply))) => Reached(reply)
    case _ => true
  }

  function RunActions(s: State, actions: seq<Action>): State
    decreases |actions|
  {
    if actions == [] then s else RunActions(Run(s, Labels(actions[0])), actions[1..])
  }

  ghost predicate NoneOpen(s: State) {
    s.relayed == {} && s.draining == {} && forall t | t in s.tasks :: s.tasks[t].Scheduling? ==> !s.tasks[t].pushed
  }

  lemma NoPushNoneOpen(s: State, s': State)
    requires NoneOpen(s) && s'.relayed == s.relayed && s'.draining == s.draining
    requires forall t | t in s'.tasks && s'.tasks[t].Scheduling? ::
               !s'.tasks[t].pushed || (t in s.tasks && s.tasks[t] == s'.tasks[t])
    ensures NoneOpen(s')
  {
  }

  lemma RetryKeepsNoneOpen(s: State, t: TaskId, c: RetryPolicy.Category, r: RowId, at: Time)
    requires NoneOpen(s)
    ensures NoneOpen(Retried(s, t, c, r, at))
  {
    NoPushNoneOpen(s, Retried(s, t, c, r, at));
  }

  lemma RequeueKeepsNoneOpen(s: State, t: TaskId, r: RowId)
    requires NoneOpen(s)
    ensures NoneOpen(Requeued(s, t, r))
  {
    NoPushNoneOpen(s, Requeued(s, t, r));
  }

  lemma CancelKeepsNoneOpen(s: State, t: TaskId, r: RowId)
    requires NoneOpen(s)
    ensures NoneOpen(Cancelled(s, t, r))
  {
    NoPushNoneOpen(s, Cancelled(s, t, r));
  }

  lemma BackKeepsNoneOpen(s: State, a: RequeueStep)
    requires NoneOpen(s) && !a.SchedulePush? && !a.ScheduleAck?
    ensures NoneOpen(ApplyRequeue(s, a))
  {
    match a
    case Retry(t, c, r, at) => RetryKeepsNoneOpen(s, t, c, r, at);
    case Requeue(t, r) => RequeueKeepsNoneOpen(s, t, r);
    case Cancel(t, r) => CancelKeepsNoneOpen(s, t, r);
    case Sweep(rows) => NoPushNoneOpen(s, ApplyRequeue(s, a));
  }

  lemma RunKeepsNoneOpen(s: State, a: RunStep)
    requires NoneOpen(s)
    ensures NoneOpen(ApplyRun(s, a))
  {
    RunLeavesRows(s, a);
    var s' := ApplyRun(s, a);
    NoPushNoneOpen(s, s');
  }

  lemma QueueKeepsNoneOpen(s: State, a: QueueStep)
    requires NoneOpen(s)
    ensures NoneOpen(ApplyQueue(s, a))
  {
    NoPushNoneOpen(s, ApplyQueue(s, a));
  }

  lemma DrainKeepsNoneOpen(s: State, a: DrainStep)
    requires NoneOpen(s) && !a.DrainPush?
    ensures NoneOpen(ApplyDrain(s, a))
  {
    NoPushNoneOpen(s, ApplyDrain(s, a));
  }

  lemma ApiKeepsNoneOpen(s: State, a: ApiStep)
    requires NoneOpen(s)
    ensures NoneOpen(ApplyApi(s, a))
  {
    NoPushNoneOpen(s, ApplyApi(s, a));
  }

  lemma RelayKeepsNoneOpen(s: State, a: RelayStep)
    requires NoneOpen(s) && !a.RelayPush? && !a.RelayAck?
    ensures NoneOpen(ApplyRelay(s, a))
  {
    NoPushNoneOpen(s, ApplyRelay(s, a));
  }

  lemma PlainKeepsNoneOpen(s: State, l: Label)
    requires NoneOpen(s) && Whole(Plain(l))
    ensures NoneOpen(Apply(s, l))
  {
    match l
    case Tick(_) =>
    case Api(a) => ApiKeepsNoneOpen(s, a);
    case Relay(a) => RelayKeepsNoneOpen(s, a);
    case Queue(a) => QueueKeepsNoneOpen(s, a);
    case Work(a) => RunKeepsNoneOpen(s, a);
    case Back(a) => BackKeepsNoneOpen(s, a);
    case Drain(a) => DrainKeepsNoneOpen(s, a);
  }

  lemma PendingRowWakes(s: State, j: JobId)
    requires NoneOpen(s) && AllUsable(s) && HasPendingRow(s, j)
    ensures Wake(s, j)
  {
    var r :| r in s.outbox && PendingRow(s, r, j);
    assert RowWakes(s, r, j);
  }

  lemma PlainKeepsCoverage(s: State, l: Label)
    requires Tidy(s) && Covered(s) && NoneOpen(s) && Whole(Plain(l))
    ensures Tidy(Apply(s, l)) && Covered(Apply(s, l)) && NoneOpen(Apply(s, l))
  {
    StepKeepsTidy(s, l);
    forall j | HasPendingRow(s, j) ensures Wake(s, j) {
      PendingRowWakes(s, j);
    }
    StepCoverage(s, l);
    PlainKeepsNoneOpen(s, l);
  }

  lemma BothSteps(s: State, a: Label, b: Label)
    requires Tidy(s) && Covered(s)
    requires !Hazard(s, a) && !Hazard(Apply(s, a), b)
    ensures Tidy(Apply(Apply(s, a), b)) && Covered(Apply(Apply(s, a), b))
  {
    StepKeepsTidy(s, a);
    StepCoverage(s, a);
    StepKeepsTidy(Apply(s, a), b);
    StepCoverage(Apply(s, a), b);
  }

  lemma RelayOneCloses(s: State, r: RowId, reply: Reply, commits: bool)
    requires NoneOpen(s)
    ensures NoneOpen(Apply(Apply(s, Relay(RelayPush(r, reply))), Relay(RelayAck({r}, commits))))
  {
    var s1 := ApplyRelay(s, RelayPush(r, reply));
    assert s1.relayed <= {r} && s1.tasks == s.tasks && s1.draining == s.draining;
    assert s1.relayed - {r} * s1.relayed == {};
  }

  lemma RelayOneKeepsCoverage(s: State, r: RowId, reply: Reply, commits: bool)
    requires Tidy(s) && Covered(s) && NoneOpen(s)
    ensures var s' := Apply(Apply(s, Relay(RelayPush(r, reply))), Relay(RelayAck({r}, commits)));
      Tidy(s') && Covered(s') && NoneOpen(s')
  {
    BothSteps(s, Relay(RelayPush(r, reply)), Relay(RelayAck({r}, commits)));
    RelayOneCloses(s, r, reply, commits);
  }

  lemma ScheduleOneKeepsCoverage(s: State, t: TaskId, reply: Reply, commits: bool)
    requires Tidy(s) && Covered(s) && NoneOpen(s)
    ensures var s' := Apply(Apply(s, Back(SchedulePush(t, reply))), Back(ScheduleAck(t, commits)));
      Tidy(s') && Covered(s') && NoneOpen(s')
  {
    BothSteps(s, Back(SchedulePush(t, reply)), Back(ScheduleAck(t, commits)));
  }

  lemma DrainOneKeepsCoverage(s: State, d: DrainId, service: string, j: JobId, reply: Reply, commits: bool)
    requires Tidy(s) && Covered(s) && NoneOpen(s)
    ensures var s' := Apply(Apply(s, Drain(DrainPush(service, j, reply))), Drain(DrainCommit(d, service, j, commits)));
      Tidy(s') && Covered(s') && NoneOpen(s')
  {
    BothSteps(s, Drain(DrainPush(service, j, reply)), Drain(DrainCommit(d, service, j, commits)));
  }

  lemma ActionKeepsCoverage(s: State, a: Action)
    requires Tidy(s) && Covered(s) && NoneOpen(s) && Whole(a)
    ensures Tidy(Run(s, Labels(a))) && Covered(Run(s, Labels(a))) && NoneOpen(Run(s, Labels(a)))
  {
    match a
    case Plain(l) =>
      RunOne(s, l);
      PlainKeepsCoverage(s, l);
    case RelayOne(r, reply, c) =>
      RunTwo(s, Relay(RelayPush(r, reply)), Relay(RelayAck({r}, c)));
      RelayOneKeepsCoverage(s, r, reply, c);
    case ScheduleOne(t, reply, c) =>
      RunTwo(s, Back(SchedulePush(t, reply)), Back(ScheduleAck(t, c)));
      ScheduleOneKeepsCoverage(s, t, reply, c);
    case DrainOne(d, service, j, reply, c) =>
      RunTwo(s, Drain(DrainPush(service, j, reply)), Drain(DrainCommit(d, service, j, c)));
      DrainOneKeepsCoverage(s, d, service, j, reply, c);
  }

  lemma {:induction false} AtomicRun(s: State, actions: seq<Action>)
    requires Tidy(s) && Covered(s) && NoneOpen(s)
    requires forall i | 0 <= i < |actions| :: Whole(actions[i])
    ensures Tidy(RunActions(s, actions)) && Covered(RunActions(s, actions))
    decreases |actions|
  {
    if actions != [] {
      ActionKeepsCoverage(s, actions[0]);
      AtomicRun(Run(s, Labels(actions[0])), actions[1..]);
    }
  }

  /** At the coarser grain no run that keeps its popped ids ever loses a job, whatever pushes and
      commits fail; the state after every prefix of the run is covered. */
  lemma AtomicRunsLoseNothing(actions: seq<Action>, n: nat)
    requires n <= |actions|
    requires forall i | 0 <= i < |actions| :: Whole(actions[i])
    ensures Covered(RunActions(Init, actions[..n]))
  {
    AtomicRun(Init, actions[..n]);
  }

  /** A pending job that nothing in the system will bring to a worker: there are at most tasks left that
      have committed its outcome and are about to return, and calls that have read it. */
  ghost predicate Lost(s: State, j: JobId) {
    && HasStatus(s, j, Pending)
    && j !in s.downloadQueue && j !in s.retryQueue && j !in s.draining
    && !HasPendingRow(s, j)
    && forall t | t in s.tasks && s.tasks[t].job == j :: s.tasks[t].Burying? || s.tasks[t].Recording? || s.tasks[t].Ending?
  }

  /** A replay of its dead-letter row, the cancellation of such a task, or the write of such a call. */
  predicate Rescues(s: State, l: Label, j: JobId) {
    match l
    case Api(Replay(k, r)) => k == j && CanReplay(s, j, r)
    case Api(UserRetry(call, r)) => RetriesNow(s, call, r, j)
    case Back(Cancel(t, r)) => CanCancel(s, t, r) && s.tasks[t].job == j
    case _ => false
  }

  /** Nothing else brings a lost job back: no relay pass, sweep, drain, new user retry or other job's step
      touches it. */
  lemma LostStaysLost(s: State, l: Label, j: JobId)
    requires Lost(s, j)
    ensures Lost(Apply(s, l), j) <==> !Rescues(s, l, j)
  {
    match l
    case Tick(_) =>
    case Api(a) => ApiLeavesLost(s, a, j);
    case Relay(a) => RelayLeavesLost(s, a, j);
    case Queue(a) => QueueLeavesLost(s, a, j);
    case Work(a) => RunLeavesLost(s, a, j);
    case Back(a) => BackLeavesLost(s, a, j);
    case Drain(a) => DrainLeavesLost(s, a, j);
  }

  lemma DrainLeavesLost(s: State, a: DrainStep, j: JobId)
    requires Lost(s, j)
    ensures Lost(ApplyDrain(s, a), j)
  {
    if a.DrainCommit? {
      CommitLeavesLost(s, a.drain, a.service, a.job, a.commits, j);
    } else {
      StillLost(s, ApplyDrain(s, a), j);
    }
  }

  lemma CommitLeavesLost(s: State, d: DrainId, service: string, k: JobId, commits: bool, j: JobId)
    requires Lost(s, j)
    ensures Lost(DrainCommitted(s, d, service, k, commits), j)
  {
    StillLost(s, DrainCommitted(s, d, service, k, commits), j);
  }

  lemma QueueLeavesLost(s: State, a: QueueStep, j: JobId)
    requires Lost(s, j)
    ensures Lost(ApplyQueue(s, a), j)
  {
    StillLost(s, ApplyQueue(s, a), j);
  }

  lemma RunLeavesLost(s: State, a: RunStep, j: JobId)
    requires Lost(s, j)
    ensures Lost(ApplyRun(s, a), j)
  {
    match a
    case Beat(t) => BeatLeavesLost(s, t, j);
    case Complete(t) => CompleteLeavesLost(s, t, j);
    case Fail(t, c) => FailLeavesLost(s, t, c, j);
    case Defer(t, service) => DeferLeavesLost(s, t, service, j);
    case _ => EndingLeavesLost(s, a, j);
  }

  /** What a run does to its own job and task leaves a lost job lost: it has no run. */
  lemma OutcomeLeavesLost(s: State, s': State, t: TaskId, j: JobId)
    requires Lost(s, j)
    requires s' != s ==> t in s.tasks && s.tasks[t].job != j
    requires HasStatus(s', j, Pending)
    requires s'.downloadQueue == s.downloadQueue && s'.retryQueue == s.retryQueue && s'.draining == s.draining
    requires s'.outbox == s.outbox
    requires forall u | u in s'.tasks && u != t :: u in s.tasks && s'.tasks[u] == s.tasks[u]
    requires t in s'.tasks ==> t in s.tasks && s'.tasks[t].job == s.tasks[t].job
    ensures Lost(s', j)
  {
  }

  lemma BeatLeavesLost(s: State, t: TaskId, j: JobId)
    requires Lost(s, j)
    ensures Lost(Beaten(s, t), j)
  {
    StillLost(s, Beaten(s, t), j);
  }

  lemma CompleteLeavesLost(s: State, t: TaskId, j: JobId)
    requires Lost(s, j)
    ensures Lost(CompletedRun(s, t), j)
  {
    OutcomeLeavesLost(s, CompletedRun(s, t), t, j);
  }

  lemma FailLeavesLost(s: State, t: TaskId, c: RetryPolicy.Category, j: JobId)
    requires Lost(s, j)
    ensures Lost(FailedRun(s, t, c), j)
  {
    OutcomeLeavesLost(s, FailedRun(s, t, c), t, j);
  }

  lemma DeferLeavesLost(s: State, t: TaskId, service: string, j: JobId)
    requires Lost(s, j)
    ensures Lost(DeferredRun(s, t, service), j)
  {
    OutcomeLeavesLost(s, DeferredRun(s, t, service), t, j);
  }

  lemma EndingLeavesLost(s: State, a: RunStep, j: JobId)
    requires Lost(s, j) && (a.Die? || a.Bury? || a.Record? || a.Download?)
    ensures Lost(ApplyRun(s, a), j)
  {
  }

  lemma RetryLeavesLost(s: State, t: TaskId, c: RetryPolicy.Category, r: RowId, at: Time, j: JobId)
    requires Lost(s, j)
    ensures Lost(Retried(s, t, c, r, at), j)
  {
    StillLost(s, Retried(s, t, c, r, at), j);
  }

  lemma RequeueLeavesLost(s: State, t: TaskId, r: RowId, j: JobId)
    requires Lost(s, j)
    ensures Lost(Requeued(s, t, r), j)
  {
    StillLost(s, Requeued(s, t, r), j);
  }

  lemma CancelRescues(s: State, t: TaskId, r: RowId, j: JobId)
    requires Lost(s, j)
    ensures Lost(Cancelled(s, t, r), j) <==> !(CanCancel(s, t, r) && s.tasks[t].job == j)
  {
    var s' := Cancelled(s, t, r);
    if CanCancel(s, t, r) && s.tasks[t].job == j {
      assert PendingRow(s', r, j);
    } else {
      StillLost(s, s', j);
    }
  }

  lemma StillLost(s: State, s': State, j: JobId)
    requires Lost(s, j)
    requires HasStatus(s', j, Pending)
    requires j !in s'.downloadQueue && j !in s'.retryQueue && j !in s'.draining
    requires forall r :: PendingRow(s', r, j) ==> PendingRow(s, r, j)
    requires forall t | t in s'.tasks && s'.tasks[t].job == j ::
               s'.tasks[t].Ending? || (t in s.tasks && s.tasks[t] == s'.tasks[t])
    ensures Lost(s', j)
  {
  }

  lemma ApiLeavesLost(s: State, a: ApiStep, j: JobId)
    requires Lost(s, j)
    ensures Lost(ApplyApi(s, a), j) <==> !Rescues(s, Api(a), j)
  {
    match a
    case Create(k, r, m) => CreateLeavesLost(s, k, r, m, j);
    case AskRetry(call, k) => StillLost(s, Asked(s, call, k), j);
    case UserRetry(call, r) =>
      if CanUserRetry(s, call, r) {
        ResetRescues(WithoutCall(s, call), s.desk.retrying[call], r, j);
      }
    case Replay(k, r) =>
      if CanReplay(s, k, r) {
        ResetRescues(WithoutDead(s, k), Seen(k, true, true), r, j);
      }
    case ReplayAnew(i, k, r, m) => CreateLeavesLost(WithoutDead(s, i), k, r, m, j);
  }

  lemma CreateLeavesLost(s: State, k: JobId, r: RowId, m: nat, j: JobId)
    requires Lost(s, j)
    ensures Lost(Created(s, k, r, m), j)
  {
    StillLost(s, Created(s, k, r, m), j);
  }

  lemma ResetRescues(s: State, seen: Seen, r: RowId, j: JobId)
    requires Lost(s, j) && CanReset(s, seen.job, r)
    ensures Lost(ResetAndEnqueue(s, seen, r), j) <==> seen.job != j
  {
    var s' := ResetAndEnqueue(s, seen, r);
    if seen.job == j {
      assert PendingRow(s', r, j);
    } else {
      StillLost(s, s', j);
    }
  }

  lemma RelayLeavesLost(s: State, a: RelayStep, j: JobId)
    requires Lost(s, j)
    ensures Lost(ApplyRelay(s, a), j)
  {
    if a.RelayPush? && CanRelay(s, a.row) {
      assert PendingRow(s, a.row, s.outbox[a.row].job);
    }
    StillLost(s, ApplyRelay(s, a), j);
  }

  lemma BackLeavesLost(s: State, a: RequeueStep, j: JobId)
    requires Lost(s, j)
    ensures Lost(ApplyRequeue(s, a), j) <==> !Rescues(s, Back(a), j)
  {
    match a
    case Retry(t, c, r, at) => RetryLeavesLost(s, t, c, r, at, j);
    case SchedulePush(t, reply) => StillLost(s, SchedulePushed(s, t, reply), j);
    case ScheduleAck(t, commits) => StillLost(s, ScheduleAcked(s, t, commits), j);
    case Requeue(t, r) => RequeueLeavesLost(s, t, r, j);
    case Cancel(t, r) => CancelRescues(s, t, r, j);
    case Sweep(rows) => if ApplyRequeue(s, a) != s { StillLost(s, Swept(s, rows), j); }
  }

  /** Job 0, created, relayed, popped and claimed by task 0 at time 0. */
  const FirstClaim: seq<Label> := [Api(Create(0, 0, 3)), Relay(RelayPush(0, Delivered)), Relay(RelayAck({0}, true)), Queue(Pop(0)), Queue(Claim(0))]

  const Row0 := Row(0, EnqueueDownload, RowProcessed, Some(0))

  const ClaimedOnce := Init.(
    jobs := map[0 := Job(Processing, 0, 3, None, 0, None)],
    outbox := map[0 := Row0],
    tasks := map[0 := Running(0, 0, 3, None)])

  lemma FirstClaimRuns()
    ensures Run(Init, FirstClaim) == ClaimedOnce
  {
    var s1 := Init.(jobs := map[0 := Job(Pending, 0, 3, None, 0, None)],
                    outbox := map[0 := Row(0, EnqueueDownload, RowPending, None)]);
    assert Apply(Init, Api(Create(0, 0, 3))) == s1;
    var s2 := s1.(downloadQueue := [0], relayed := {0});
    assert Apply(s1, Relay(RelayPush(0, Delivered))) == s2;
    var s3 := s1.(downloadQueue := [0], outbox := map[0 := Row0]);
    assert Apply(s2, Relay(RelayAck({0}, true))) == s3;
    var s4 := s3.(downloadQueue := [], tasks := map[0 := Popped(0)]);
    assert Apply(s3, Queue(Pop(0))) == s4;
    assert Apply(s4, Queue(Claim(0))) == ClaimedOnce;
    RunCons(Init, Api(Create(0, 0, 3)), [Relay(RelayPush(0, Delivered)), Relay(RelayAck({0}, true)), Queue(Pop(0)), Queue(Claim(0))]);
    RunCons(s1, Relay(RelayPush(0, Delivered)), [Relay(RelayAck({0}, true)), Queue(Pop(0)), Queue(Claim(0))]);
    RunCons(s2, Relay(RelayAck({0}, true)), [Queue(Pop(0)), Queue(Claim(0))]);
    RunTwo(s3, Queue(Pop(0)), Queue(Claim(0)));
  }

  /** The retry of job 0 is pushed, released, claimed by task 1 and fails for good while task 0 has
      not yet marked its row. */
  const RetryOvertaken: seq<Label> := [
    Back(Retry(0, RetryPolicy.Transient, 1, 0)), Back(SchedulePush(0, Delivered)), Queue(ReleaseDue([0])), Queue(Pop(1)), Queue(Claim(1)),
    Work(Fail(1, RetryPolicy.Blocked))]

  const FailedWithOpenRow := ClaimedOnce.(
    jobs := map[0 := Job(Failed, 1, 3, Some(0), 0, None)],
    outbox := map[0 := Row0, 1 := Row(0, RetryScheduled(NextRetryAt(0)), RowPending, None)],
    tasks := map[0 := Scheduling(0, 1, 0, true), 1 := Burying(0)])

  const Rescheduled := FailedWithOpenRow.(
    jobs := map[0 := Job(Pending, 1, 3, Some(0), 0, None)],
    tasks := map[0 := Scheduling(0, 1, 0, true)],
    downloadQueue := [0])

  const Persisted := Rescheduled.(tasks := map[0 := Scheduling(0, 1, 0, false)], downloadQueue := [])

  lemma PersistedRuns()
    ensures Apply(ClaimedOnce, Back(Retry(0, RetryPolicy.Transient, 1, 0))) == Persisted
  {
  }

  lemma PushedAndReleased()
    ensures Apply(Apply(Persisted, Back(SchedulePush(0, Delivered))), Queue(ReleaseDue([0]))) == Rescheduled
  {
    assert Apply(Persisted, Back(SchedulePush(0, Delivered))) == Rescheduled.(retryQueue := map[0 := 0], downloadQueue := []);
  }

  lemma RescheduledRuns()
    ensures Run(ClaimedOnce, RetryOvertaken[..3]) == Rescheduled
  {
    PersistedRuns();
    PushedAndReleased();
    assert RetryOvertaken[..3] == [RetryOvertaken[0]] + [RetryOvertaken[1], RetryOvertaken[2]];
    RunCons(ClaimedOnce, RetryOvertaken[0], [RetryOvertaken[1], RetryOvertaken[2]]);
    RunTwo(Persisted, RetryOvertaken[1], RetryOvertaken[2]);
  }

  const Reclaimed := FailedWithOpenRow.(
    jobs := map[0 := Job(Processing, 1, 3, Some(0), 0, None)],
    tasks := map[0 := Scheduling(0, 1, 0, true), 1 := Running(0, 1, 3, None)])

  lemma ReclaimedRuns()
    ensures Apply(Apply(Rescheduled, RetryOvertaken[3]), RetryOvertaken[4]) == Reclaimed
  {
    assert Apply(Rescheduled, RetryOvertaken[3])
        == Rescheduled.(downloadQueue := [], tasks := map[0 := Scheduling(0, 1, 0, true), 1 := Popped(0)]);
  }

  lemma SecondClaimFails()
    ensures Run(Rescheduled, RetryOvertaken[3..]) == FailedWithOpenRow
  {
    ReclaimedRuns();
    assert Apply(Reclaimed, RetryOvertaken[5]) == FailedWithOpenRow;
    RunCons(Rescheduled, RetryOvertaken[3], RetryOvertaken[4..]);
    RunTwo(Apply(Rescheduled, RetryOvertaken[3]), RetryOvertaken[4], RetryOvertaken[5]);
  }

  const Suppressed: seq<Label> := [Api(AskRetry(0, 0)), Api(UserRetry(0, 2)), Back(ScheduleAck(0, true))]

  const Reset0 := FailedWithOpenRow.(jobs := map[0 := Job(Pending, 0, 3, None, 0, None)])

  lemma RetrySuppressed()
    ensures Apply(Apply(FailedWithOpenRow, Suppressed[0]), Suppressed[1]) == Reset0
  {
    var s := WithCall(FailedWithOpenRow, 0, Seen(0, true, true));
    assert Apply(FailedWithOpenRow, Suppressed[0]) == s;
    assert PendingRow(s, 1, 0);
    assert s.desk.retrying - {0} == map[];
  }

  const LeftBehind := Reset0.(
    outbox := map[0 := Row0, 1 := Row(0, RetryScheduled(NextRetryAt(0)), RowProcessed, Some(0))],
    tasks := map[0 := Ending(0, 1), 1 := Burying(0)])

  lemma RowClosed()
    ensures Apply(Reset0, Suppressed[2]) == LeftBehind
  {
    assert Closed(Reset0, {1}, RowProcessed) == LeftBehind.outbox;
  }

  lemma SuppressedThenClosed()
    ensures Run(FailedWithOpenRow, Suppressed) == LeftBehind
  {
    RetrySuppressed();
    RowClosed();
    RunCons(FailedWithOpenRow, Suppressed[0], [Suppressed[1], Suppressed[2]]);
    RunTwo(Apply(FailedWithOpenRow, Suppressed[0]), Suppressed[1], Suppressed[2]);
  }

  const Returns: seq<Label> := [Work(Die(0)), Work(Die(1))]

  lemma AllReturn(s: State)
    requires s.tasks.Keys == {0, 1} && !s.tasks[0].Popped? && !s.tasks[1].Popped?
    ensures Run(s, Returns) == s.(tasks := map[])
  {
    RunTwo(s, Work(Die(0)), Work(Die(1)));
    assert s.tasks - {0} - {1} == map[];
  }

  const Deserted := LeftBehind.(tasks := map[])

  lemma DesertedIsLost()
    ensures Lost(Deserted, 0)
  {
  }

  lemma OvertakenRuns()
    ensures Run(ClaimedOnce, RetryOvertaken) == FailedWithOpenRow
  {
    assert RetryOvertaken == RetryOvertaken[..3] + RetryOvertaken[3..];
    RescheduledRuns();
    SecondClaimFails();
    RunThen(ClaimedOnce, RetryOvertaken[..3], Rescheduled, RetryOvertaken[3..], FailedWithOpenRow);
  }

  /** A user retry that sees the still open row writes none of its own, and the row is then closed. In the
      end nobody is left who could be cancelled. */
  lemma SuppressedRetryLosesJob()
    ensures var s := Run(Init, FirstClaim + RetryOvertaken + Suppressed + Returns);
      Lost(s, 0) && s.tasks == map[]
  {
    FirstClaimRuns();
    OvertakenRuns();
    RunThen(Init, FirstClaim, ClaimedOnce, RetryOvertaken, FailedWithOpenRow);
    SuppressedThenClosed();
    RunThen(Init, FirstClaim + RetryOvertaken, FailedWithOpenRow, Suppressed, LeftBehind);
    AllReturn(LeftBehind);
    RunThen(Init, FirstClaim + RetryOvertaken + Suppressed, LeftBehind, Returns, Deserted);
    DesertedIsLost();
  }

  /** The deferral of job 0 is drained; another worker pops the pushed id, and turns it away, before
      the drain commits. */
  const EarlyPop: seq<Label> := [
    Work(Defer(0, "youtube_api")), Work(Record(0, true)), Drain(DrainPush("youtube_api", 0, Delivered)),
    Queue(Pop(1)), Queue(Claim(1)), Drain(DrainCommit(0, "youtube_api", 0, true))]

  const Drained := ClaimedOnce.(
    jobs := map[0 := Job(Deferred, 0, 3, None, 0, None)], tasks := map[0 := Ending(0, 1)],
    deferred := DeferredSet({("youtube_api", 0)}, map[]), downloadQueue := [0], draining := {0})

  lemma DrainedRuns()
    ensures Run(ClaimedOnce, EarlyPop[..3]) == Drained
  {
    var s1 := ClaimedOnce.(jobs := map[0 := Job(Deferred, 0, 3, None, 0, None)], tasks := map[0 := Recording(0, "youtube_api")]);
    assert Apply(ClaimedOnce, EarlyPop[0]) == s1;
    var s2 := s1.(deferred := DeferredSet({("youtube_api", 0)}, map[]), tasks := map[0 := Ending(0, 1)]);
    assert Apply(s1, EarlyPop[1]) == s2;
    assert Apply(s2, EarlyPop[2]) == Drained;
    assert EarlyPop[..3] == [EarlyPop[0]] + [EarlyPop[1], EarlyPop[2]];
    RunCons(ClaimedOnce, EarlyPop[0], [EarlyPop[1], EarlyPop[2]]);
    RunTwo(s1, EarlyPop[1], EarlyPop[2]);
  }

  const TurnedDown := Drained.(
    jobs := map[0 := Job(Pending, 0, 3, None, 0, None)], downloadQueue := [], draining := {},
    deferred := DeferredSet({("youtube_api", 0)}, map[0 := ("youtube_api", 0)]))

  lemma TurnedAway()
    ensures Run(Drained, EarlyPop[3..]) == TurnedDown
  {
    var s4 := Drained.(downloadQueue := [], tasks := map[0 := Ending(0, 1), 1 := Popped(0)]);
    assert Apply(Drained, EarlyPop[3]) == s4;
    var s5 := s4.(tasks := map[0 := Ending(0, 1)]);
    assert Apply(s4, EarlyPop[4]) == s5;
    RunCons(Drained, EarlyPop[3], EarlyPop[4..]);
    RunTwo(s4, EarlyPop[4], EarlyPop[5]);
    assert {0} - {0} == s5.draining - {0};
  }

  const Abandoned := TurnedDown.(tasks := map[])

  lemma AbandonedIsLost()
    ensures Run(TurnedDown, [Work(Die(0))]) == Abandoned && Lost(Abandoned, 0)
  {
    RunOne(TurnedDown, Work(Die(0)));
    assert TurnedDown.tasks - {0} == map[];
  }

  lemma EarlyPopLosesJob()
    ensures var s := Run(Init, FirstClaim + EarlyPop + [Work(Die(0))]);
      Lost(s, 0) && s.tasks == map[]
  {
    assert EarlyPop == EarlyPop[..3] + EarlyPop[3..];
    DrainedRuns();
    TurnedAway();
    RunThen(ClaimedOnce, EarlyPop[..3], Drained, EarlyPop[3..], TurnedDown);
    FirstClaimRuns();
    RunThen(Init, FirstClaim, ClaimedOnce, EarlyPop, TurnedDown);
    AbandonedIsLost();
    RunThen(Init, FirstClaim + EarlyPop, TurnedDown, [Work(Die(0))], Abandoned);
  }
}
