/** No lost job: when every pending job still has something that will bring it back to a worker. */
module Coverage {
  import opened Prelude
  import opened Pipeline
  import RetryPolicy

  /** A delivery of row `r` has happened and the transaction that marks the row is still open: a
      second commit may close the row although the job has moved on since the push. */
  ghost predicate UnderAck(s: State, r: RowId) {
    r in s.relayed || exists t :: AcksRow(s, t, r)
  }

  ghost predicate AcksRow(s: State, t: TaskId, r: RowId) {
    t in s.tasks && s.tasks[t].Scheduling? && s.tasks[t].pushed && s.tasks[t].row == r
  }

  ghost predicate RowWakes(s: State, r: RowId, j: JobId) {
    PendingRow(s, r, j) && Usable(s.outbox[r].event) && !UnderAck(s, r)
  }

  ghost predicate Stored(s: State, j: JobId) {
    j in s.downloadQueue || j in s.retryQueue || exists r :: RowWakes(s, r, j)
  }

  ghost predicate Holds(s: State, t: TaskId, j: JobId) {
    t in s.tasks && s.tasks[t] == Popped(j)
  }

  /** A wake-up of `j`: a pending row nobody is about to close, an entry of either queue, or an id a
      live task has popped and not yet tried to claim. */
  ghost predicate Wake(s: State, j: JobId) {
    Stored(s, j) || exists t :: Holds(s, t, j)
  }

  ghost predicate WakeBesides(s: State, j: JobId, t: TaskId) {
    Stored(s, j) || exists u :: u != t && Holds(s, u, j)
  }

  ghost predicate Covered(s: State) {
    forall j :: HasStatus(s, j, Pending) ==> Wake(s, j)
  }

  ghost predicate OneRow(s: State) {
    forall r1, r2, j :: PendingRow(s, r1, j) && PendingRow(s, r2, j) ==> r1 == r2
  }

  ghost predicate AllUsable(s: State) {
    forall r | r in s.outbox :: s.outbox[r].status.RowPending? ==> Usable(s.outbox[r].event)
  }

  ghost predicate ScheduledRows(s: State) {
    forall t | t in s.tasks :: s.tasks[t].Scheduling? && s.tasks[t].row in s.outbox ==>
      s.outbox[s.tasks[t].row].event.RetryScheduled? && s.outbox[s.tasks[t].row].job == s.tasks[t].job
  }

  /** What every step keeps, whatever happens to coverage. */
  ghost predicate Tidy(s: State) {
    OneRow(s) && AllUsable(s) && ScheduledRows(s)
  }

  /** Steps that leave the outbox and the scheduling tasks alone, or only close rows. */
  lemma NoNewRow(s: State, s': State)
    requires Tidy(s)
    requires s'.outbox.Keys <= s.outbox.Keys
    requires forall r | r in s'.outbox ::
               s'.outbox[r].job == s.outbox[r].job && s'.outbox[r].event == s.outbox[r].event
               && (s'.outbox[r].status.RowPending? ==> s.outbox[r].status.RowPending?)
    requires forall t | t in s'.tasks :: s'.tasks[t].Scheduling? ==>
               t in s.tasks && s.tasks[t].Scheduling? && s.tasks[t].row == s'.tasks[t].row && s.tasks[t].job == s'.tasks[t].job
    ensures Tidy(s')
  {
    assert forall r, j :: PendingRow(s', r, j) ==> PendingRow(s, r, j);
  }

  lemma NewRow(s: State, s': State, r: RowId, j: JobId, e: Event)
    requires Tidy(s) && FreshRow(s, r) && !HasPendingRow(s, j) && Usable(e)
    requires s'.outbox == s.outbox[r := Row(j, e, RowPending, None)]
    requires forall t | t in s'.tasks :: s'.tasks[t].Scheduling? ==>
               || (s'.tasks[t].row == r && s'.tasks[t].job == j && e.RetryScheduled?)
               || (t in s.tasks && s.tasks[t].Scheduling? && s.tasks[t].row == s'.tasks[t].row && s.tasks[t].job == s'.tasks[t].job)
    ensures Tidy(s')
  {
    forall r1, k | PendingRow(s', r1, k) ensures if r1 == r then k == j else PendingRow(s, r1, k) {
    }
  }

  lemma SweepKeepsTidy(s: State, rows: map<RowId, JobId>)
    requires Tidy(s) && IsSweep(s, rows) && SweepCommits(s, rows)
    ensures Tidy(Swept(s, rows))
  {
    var s' := Swept(s, rows);
    forall r, j | PendingRow(s', r, j) ensures if r in rows then rows[r] == j else PendingRow(s, r, j) {
    }
  }

  lemma CreateKeepsTidy(s: State, j: JobId, r: RowId, maxRetries: nat)
    requires Tidy(s)
    ensures Tidy(Created(s, j, r, maxRetries))
  {
    if Created(s, j, r, maxRetries) != s {
      NewRow(s, Created(s, j, r, maxRetries), r, j, EnqueueDownload);
    }
  }

  lemma ResetKeepsTidy(s: State, seen: Seen, r: RowId)
    requires Tidy(s) && CanReset(s, seen.job, r)
    ensures Tidy(ResetAndEnqueue(s, seen, r))
  {
    var s' := ResetAndEnqueue(s, seen, r);
    if HasPendingRow(s, seen.job) {
      NoNewRow(s, s');
    } else {
      NewRow(s, s', r, seen.job, EnqueueDownload);
    }
  }

  lemma UserRetryKeepsTidy(s: State, call: CallId, r: RowId)
    requires Tidy(s)
    ensures Tidy(UserRetried(s, call, r))
  {
    if CanUserRetry(s, call, r) {
      var s0 := WithoutCall(s, call);
      NoNewRow(s, s0);
      ResetKeepsTidy(s0, s.desk.retrying[call], r);
    }
  }

  lemma ApiKeepsTidy(s: State, a: ApiStep)
    requires Tidy(s)
    ensures Tidy(ApplyApi(s, a))
  {
    match a
    case Create(j, r, m) => CreateKeepsTidy(s, j, r, m);
    case ReplayAnew(j, k, r, m) =>
      var s0 := WithoutDead(s, j);
      NoNewRow(s, s0);
      CreateKeepsTidy(s0, k, r, m);
    case AskRetry(call, j) => NoNewRow(s, Asked(s, call, j));
    case UserRetry(call, r) => UserRetryKeepsTidy(s, call, r);
    case Replay(j, r) =>
      if CanReplay(s, j, r) {
        var s0 := WithoutDead(s, j);
        NoNewRow(s, s0);
        ResetKeepsTidy(s0, Seen(j, true, true), r);
      }
  }

  lemma RelayKeepsTidy(s: State, a: RelayStep)
    requires Tidy(s)
    ensures Tidy(ApplyRelay(s, a))
  {
    NoNewRow(s, ApplyRelay(s, a));
  }

  lemma QueueKeepsTidy(s: State, a: QueueStep)
    requires Tidy(s)
    ensures Tidy(ApplyQueue(s, a))
  {
    NoNewRow(s, ApplyQueue(s, a));
  }

  /** No step of a run writes a row or schedules a push. */
  lemma RunLeavesRows(s: State, a: RunStep)
    ensures ApplyRun(s, a).outbox == s.outbox
    ensures forall t | t in ApplyRun(s, a).tasks :: ApplyRun(s, a).tasks[t].Scheduling? ==>
              t in s.tasks && s.tasks[t] == ApplyRun(s, a).tasks[t]
  {
  }

  lemma RunKeepsTidy(s: State, a: RunStep)
    requires Tidy(s)
    ensures Tidy(ApplyRun(s, a))
  {
    RunLeavesRows(s, a);
    var s' := ApplyRun(s, a);
    NoNewRow(s, s');
  }

  lemma DrainKeepsTidy(s: State, a: DrainStep)
    requires Tidy(s)
    ensures Tidy(ApplyDrain(s, a))
  {
    NoNewRow(s, ApplyDrain(s, a));
  }

  lemma RetryKeepsTidy(s: State, t: TaskId, c: RetryPolicy.Category, r: RowId, at: Time)
    requires Tidy(s)
    ensures Tidy(Retried(s, t, c, r, at))
  {
    var s' := Retried(s, t, c, r, at);
    if s'.outbox == s.outbox {
      NoNewRow(s, s');
    } else {
      NewRow(s, s', r, s.tasks[t].job, RetryScheduled(NextRetryAt(at)));
    }
  }

  lemma RequeueKeepsTidy(s: State, t: TaskId, r: RowId)
    requires Tidy(s)
    ensures Tidy(Requeued(s, t, r))
  {
    var s' := Requeued(s, t, r);
    if s'.outbox == s.outbox {
      NoNewRow(s, s');
    } else {
      NewRow(s, s', r, s.tasks[t].job, RetryScheduled(NextRetryAt(s.now)));
    }
  }

  lemma CancelKeepsTidy(s: State, t: TaskId, r: RowId)
    requires Tidy(s)
    ensures Tidy(Cancelled(s, t, r))
  {
    var s' := Cancelled(s, t, r);
    if s'.outbox == s.outbox {
      NoNewRow(s, s');
    } else {
      NewRow(s, s', r, s.tasks[t].job, RetryScheduled(NextRetryAt(s.now)));
    }
  }

  lemma BackKeepsTidy(s: State, a: RequeueStep)
    requires Tidy(s)
    ensures Tidy(ApplyRequeue(s, a))
  {
    match a
    case Retry(t, c, r, at) => RetryKeepsTidy(s, t, c, r, at);
    case SchedulePush(t, reply) => NoNewRow(s, SchedulePushed(s, t, reply));
    case ScheduleAck(t, commits) => NoNewRow(s, ScheduleAcked(s, t, commits));
    case Requeue(t, r) => RequeueKeepsTidy(s, t, r);
    case Cancel(t, r) => CancelKeepsTidy(s, t, r);
    case Sweep(rows) => if ApplyRequeue(s, a) != s { SweepKeepsTidy(s, rows); }
  }

  lemma StepKeepsTidy(s: State, l: Label)
    requires Tidy(s)
    ensures Tidy(Apply(s, l))
  {
    match l
    case Tick(_) => NoNewRow(s, Apply(s, l));
    case Api(a) => ApiKeepsTidy(s, a);
    case Relay(a) => RelayKeepsTidy(s, a);
    case Queue(a) => QueueKeepsTidy(s, a);
    case Work(a) => RunKeepsTidy(s, a);
    case Back(a) => BackKeepsTidy(s, a);
    case Drain(a) => DrainKeepsTidy(s, a);
  }

  /** The exact steps after which a pending job is left without any wake-up: a popped id is thrown
      away that nothing else announces; a user retry or replay writes no row because it sees a
      pending row whose delivery is already under way; a drain commits after the id it pushed has
      been popped and turned away. */
  ghost predicate Hazard(s: State, l: Label) {
    match l
    case Api(a) => ResetHazard(s, a)
    case Queue(Drop(t)) => DropsLast(s, t)
    case Queue(PushBack(t, reply)) => !Reached(reply) && DropsLast(s, t)
    case Drain(DrainCommit(_, _, j, commits)) =>
      j in s.draining && commits && HasStatus(s, j, Deferred) && !Wake(s, j)
    case _ => false
  }

  ghost predicate ResetHazard(s: State, a: ApiStep) {
    match a
    case Create(_, _, _) => false
    case ReplayAnew(_, _, _, _) => false
    case AskRetry(_, _) => false
    case UserRetry(call, r) =>
      CanUserRetry(s, call, r) && HasPendingRow(s, s.desk.retrying[call].job) && !Wake(s, s.desk.retrying[call].job)
    case Replay(j, r) => CanReplay(s, j, r) && HasPendingRow(s, j) && !Wake(s, j)
  }

  ghost predicate DropsLast(s: State, t: TaskId) {
    t in s.tasks && s.tasks[t].Popped? && HasStatus(s, s.tasks[t].job, Pending) && !WakeBesides(s, s.tasks[t].job, t)
  }

  /** Steps that take away no announcement and start no acknowledgement keep every wake-up. */
  lemma NothingTaken(s: State, s': State)
    requires forall j :: j in s.downloadQueue ==> j in s'.downloadQueue
    requires forall j :: j in s.retryQueue ==> j in s'.retryQueue || j in s'.downloadQueue
    requires forall r, j :: PendingRow(s, r, j) ==> PendingRow(s', r, j) && s'.outbox[r].event == s.outbox[r].event
    requires s'.relayed <= s.relayed
    requires forall t, r :: AcksRow(s', t, r) ==> AcksRow(s, t, r)
    requires forall t, j :: Holds(s, t, j) ==> Holds(s', t, j)
    ensures forall j :: Wake(s, j) ==> Wake(s', j)
  {
    forall r | UnderAck(s', r) ensures UnderAck(s, r) {
    }
    forall r, j | RowWakes(s, r, j) ensures RowWakes(s', r, j) {
    }
  }

  ghost predicate KeepsWakes(s: State, s': State) {
    forall j :: Wake(s, j) ==> Wake(s', j)
  }

  /** A run's own steps move its task from one claimed phase to another, or end it. */
  lemma RunKeepsHolders(s: State, a: RunStep)
    ensures forall t, j :: Holds(s, t, j) ==> Holds(ApplyRun(s, a), t, j)
    ensures forall t, r :: AcksRow(ApplyRun(s, a), t, r) ==> AcksRow(s, t, r)
  {
  }

  lemma RunKeepsStores(s: State, a: RunStep)
    ensures var s' := ApplyRun(s, a);
      && s'.downloadQueue == s.downloadQueue && s'.retryQueue == s.retryQueue
      && s'.outbox == s.outbox && s'.relayed == s.relayed
  {
  }

  lemma RunKeepsWakes(s: State, a: RunStep)
    ensures KeepsWakes(s, ApplyRun(s, a))
  {
    RunKeepsHolders(s, a);
    RunKeepsStores(s, a);
    SafelyAdvanced(s, ApplyRun(s, a));
  }

  lemma SafelyAdvanced(s: State, s': State)
    requires s'.downloadQueue == s.downloadQueue && s'.retryQueue == s.retryQueue
    requires s'.outbox == s.outbox && s'.relayed == s.relayed
    requires forall t, j :: Holds(s, t, j) ==> Holds(s', t, j)
    requires forall t, r :: AcksRow(s', t, r) ==> AcksRow(s, t, r)
    ensures KeepsWakes(s, s')
  {
    NothingTaken(s, s');
  }

  lemma CreateKeepsWakes(s: State, j: JobId, r: RowId, maxRetries: nat)
    ensures KeepsWakes(s, Created(s, j, r, maxRetries))
  {
    NothingTaken(s, Created(s, j, r, maxRetries));
  }

  lemma RetryKeepsWakes(s: State, t: TaskId, c: RetryPolicy.Category, r: RowId, at: Time)
    ensures KeepsWakes(s, Retried(s, t, c, r, at))
  {
    NothingTaken(s, Retried(s, t, c, r, at));
  }

  lemma RequeueKeepsWakes(s: State, t: TaskId, r: RowId)
    ensures KeepsWakes(s, Requeued(s, t, r))
  {
    NothingTaken(s, Requeued(s, t, r));
  }

  lemma CancelKeepsWakes(s: State, t: TaskId, r: RowId)
    ensures KeepsWakes(s, Cancelled(s, t, r))
  {
    NothingTaken(s, Cancelled(s, t, r));
  }

  lemma SweepKeepsWakes(s: State, rows: map<RowId, JobId>)
    requires IsSweep(s, rows)
    ensures KeepsWakes(s, Swept(s, rows))
  {
    NothingTaken(s, Swept(s, rows));
  }

  /** A pushed row starts being acknowledged, and its job is then in the queue it was pushed to. */
  lemma RelayPushKeepsWakes(s: State, r: RowId, reply: Reply)
    requires Tidy(s) && CanRelay(s, r)
    ensures KeepsWakes(s, RelayPushed(s, r, reply))
  {
    var s' := RelayPushed(s, r, reply);
    assert forall t, v :: AcksRow(s', t, v) ==> AcksRow(s, t, v);
    forall u, j | RowWakes(s, u, j) ensures Wake(s', j) {
      if u != r || !Acknowledged(reply) {
        assert RowWakes(s', u, j);
      }
    }
    forall t, j | Holds(s, t, j) ensures Holds(s', t, j) {
    }
    forall j | j in s.downloadQueue ensures Wake(s', j) {
      if j !in s'.downloadQueue {
        assert j == s.outbox[r].job && !s.outbox[r].event.RetryScheduled?;
        assert RowWakes(s', r, j);
      }
    }
  }

  lemma RelayAckKeepsWakes(s: State, rows: set<RowId>, commits: bool)
    ensures KeepsWakes(s, RelayAcked(s, rows, commits))
  {
    var s' := RelayAcked(s, rows, commits);
    assert forall t, v :: AcksRow(s', t, v) ==> AcksRow(s, t, v);
    forall r, j | RowWakes(s, r, j) ensures RowWakes(s', r, j) {
      assert r !in s.relayed;
    }
    forall t, j | Holds(s, t, j) ensures Holds(s', t, j) {
    }
  }

  lemma RelayKeepsWakes(s: State, a: RelayStep)
    requires Tidy(s)
    ensures KeepsWakes(s, ApplyRelay(s, a))
  {
    match a
    case RelayPush(r, reply) => if CanRelay(s, r) { RelayPushKeepsWakes(s, r, reply); }
    case RelayAck(rows, commits) => RelayAckKeepsWakes(s, rows, commits);
    case RelayReject(r) => NothingTaken(s, RelayRejected(s, r));
    case CleanUp => NothingTaken(s, CleanedUp(s));
  }

  lemma ScheduleAckKeepsWakes(s: State, t: TaskId, commits: bool)
    ensures KeepsWakes(s, ScheduleAcked(s, t, commits))
  {
    var s' := ScheduleAcked(s, t, commits);
    assert forall u, v :: AcksRow(s', u, v) ==> AcksRow(s, u, v);
    assert s' != s ==> AcksRow(s, t, s.tasks[t].row);
    forall r, j | RowWakes(s, r, j) ensures RowWakes(s', r, j) {
    }
    forall u, j | Holds(s, u, j) ensures Holds(s', u, j) {
    }
  }

  lemma SchedulePushKeepsWakes(s: State, t: TaskId, reply: Reply)
    requires Tidy(s)
    ensures KeepsWakes(s, SchedulePushed(s, t, reply))
  {
    var s' := SchedulePushed(s, t, reply);
    if s' != s {
      var task := s.tasks[t];
      forall u, v | AcksRow(s', u, v) ensures AcksRow(s, u, v) || (u == t && v == task.row && task.job in s'.retryQueue) {
      }
      forall r, j | RowWakes(s, r, j) ensures Wake(s', j) {
        if r != task.row || task.job !in s'.retryQueue {
          assert RowWakes(s', r, j);
        }
      }
      forall u, j | Holds(s, u, j) ensures Holds(s', u, j) {
      }
    }
  }

  lemma PopKeepsWakes(s: State, t: TaskId)
    ensures KeepsWakes(s, PoppedOne(s, t))
  {
    var s' := PoppedOne(s, t);
    if s' != s {
      var n := |s.downloadQueue| - 1;
      assert s.downloadQueue == s'.downloadQueue + [s.downloadQueue[n]];
      assert Holds(s', t, s.downloadQueue[n]);
      assert forall u, v :: AcksRow(s', u, v) ==> AcksRow(s, u, v);
      forall r, j | RowWakes(s, r, j) ensures RowWakes(s', r, j) {
      }
      forall u, j | Holds(s, u, j) ensures Holds(s', u, j) {
      }
    }
  }

  lemma PushBackKeepsWakes(s: State, t: TaskId)
    ensures KeepsWakes(s, PushedBack(s, t, Delivered))
  {
    var s' := PushedBack(s, t, Delivered);
    if s' != s {
      assert s.tasks[t].job in s'.downloadQueue;
      assert forall u, v :: AcksRow(s', u, v) ==> AcksRow(s, u, v);
      forall r, j | RowWakes(s, r, j) ensures RowWakes(s', r, j) {
      }
      forall u, j | Holds(s, u, j) ensures Wake(s', j) {
        if u != t { assert Holds(s', u, j); }
      }
    }
  }

  /** Letting go of a popped id keeps exactly the wake-ups that do not rest on it. */
  lemma LetGo(s: State, s': State, t: TaskId)
    requires t in s.tasks && s.tasks[t].Popped?
    requires s' == EndTask(s, t)
    ensures forall j :: Wake(s', j) <==> WakeBesides(s, j, t)
    ensures forall j :: j != s.tasks[t].job ==> (Wake(s', j) <==> Wake(s, j))
  {
    assert forall u, v :: AcksRow(s', u, v) <==> AcksRow(s, u, v);
    forall r, j ensures RowWakes(s, r, j) <==> RowWakes(s', r, j) {
    }
    forall u, j ensures Holds(s', u, j) <==> u != t && Holds(s, u, j) {
    }
    forall j ensures Stored(s, j) <==> Stored(s', j) {
      if Stored(s, j) && j !in s.downloadQueue && j !in s.retryQueue {
        var r :| RowWakes(s, r, j);
        assert RowWakes(s', r, j);
      }
      if Stored(s', j) && j !in s.downloadQueue && j !in s.retryQueue {
        var r :| RowWakes(s', r, j);
        assert RowWakes(s, r, j);
      }
    }
  }

  lemma DropCoverage(s: State, t: TaskId)
    requires Covered(s)
    ensures Covered(Dropped(s, t)) <==> !DropsLast(s, t)
  {
    var s' := Dropped(s, t);
    if t in s.tasks && s.tasks[t].Popped? {
      LetGo(s, s', t);
      if DropsLast(s, t) {
        assert HasStatus(s', s.tasks[t].job, Pending);
      } else {
        forall j | HasStatus(s', j, Pending) ensures Wake(s', j) {
          assert HasStatus(s, j, Pending);
        }
      }
    }
  }

  /** Every wake-up of a job other than `j` survives when only `j`'s own entries are touched. */
  lemma OthersCarried(s: State, s': State, j: JobId)
    requires Covered(s)
    requires s'.outbox == s.outbox && s'.relayed == s.relayed && s'.retryQueue == s.retryQueue
    requires forall k :: k != j && k in s.downloadQueue ==> k in s'.downloadQueue
    requires forall u, v :: AcksRow(s', u, v) ==> AcksRow(s, u, v)
    requires forall u, k :: k != j && Holds(s, u, k) ==> Holds(s', u, k)
    requires forall k :: HasStatus(s', k, Pending) ==> k != j && HasStatus(s, k, Pending)
    ensures Covered(s')
  {
    forall k | HasStatus(s', k, Pending) ensures Wake(s', k) {
      if exists r :: RowWakes(s, r, k) {
        var r :| RowWakes(s, r, k);
        assert RowWakes(s', r, k);
      } else if exists u :: Holds(s, u, k) {
        var u :| Holds(s, u, k);
        assert Holds(s', u, k);
      }
    }
  }

  lemma ClaimCoverage(s: State, t: TaskId)
    requires Covered(s)
    ensures Covered(Claimed(s, t))
  {
    if Claimed(s, t) != s {
      OthersCarried(s, Claimed(s, t), s.tasks[t].job);
    }
  }

  lemma DrainPushCoverage(s: State, service: string, j: JobId, reply: Reply)
    requires Covered(s)
    ensures Covered(DrainPushed(s, service, j, reply))
  {
    if DrainPushed(s, service, j, reply) != s {
      OthersCarried(s, DrainPushed(s, service, j, reply), j);
    }
  }

  lemma SameWakes(s: State, s': State)
    requires s'.downloadQueue == s.downloadQueue && s'.retryQueue == s.retryQueue && s'.outbox == s.outbox
    requires s'.relayed == s.relayed && s'.tasks == s.tasks
    ensures forall j :: Wake(s, j) <==> Wake(s', j)
  {
    assert forall u, v :: AcksRow(s', u, v) <==> AcksRow(s, u, v);
    assert forall r, j :: RowWakes(s, r, j) <==> RowWakes(s', r, j);
    assert forall u, j :: Holds(s, u, j) <==> Holds(s', u, j);
  }

  lemma DrainCommitCoverage(s: State, d: DrainId, service: string, j: JobId, commits: bool)
    requires Covered(s)
    ensures Covered(DrainCommitted(s, d, service, j, commits)) <==>
            !(j in s.draining && commits && HasStatus(s, j, Deferred) && !Wake(s, j))
  {
    var s' := DrainCommitted(s, d, service, j, commits);
    SameWakes(s, s');
    if j in s.draining && commits && HasStatus(s, j, Deferred) {
      assert HasStatus(s', j, Pending);
      forall k | k != j && HasStatus(s', k, Pending) ensures Wake(s', k) {
        assert HasStatus(s, k, Pending);
      }
    } else {
      assert forall k :: HasStatus(s', k, Pending) ==> HasStatus(s, k, Pending);
    }
  }

  lemma DrainCoverage(s: State, a: DrainStep)
    requires Covered(s)
    ensures Covered(ApplyDrain(s, a)) <==> !Hazard(s, Drain(a))
  {
    match a
    case DrainPush(service, j, reply) => DrainPushCoverage(s, service, j, reply);
    case DrainCommit(d, service, j, commits) => DrainCommitCoverage(s, d, service, j, commits);
    case _ => SameWakes(s, ApplyDrain(s, a));
      assert forall k :: HasStatus(ApplyDrain(s, a), k, Pending) ==> HasStatus(s, k, Pending);
  }

  /** A fresh row is nobody's acknowledgement. */
  lemma FreshRowWakes(s: State, s': State, r: RowId, j: JobId)
    requires FreshRow(s, r) && PendingRow(s', r, j) && Usable(s'.outbox[r].event)
    requires s'.relayed == s.relayed
    requires forall t | t in s'.tasks :: AcksRow(s', t, r) ==> t in s.tasks && s'.tasks[t] == s.tasks[t]
    ensures Wake(s', j)
  {
    assert RowWakes(s', r, j);
  }

  /** Wake-ups are kept and whoever becomes pending is announced. */
  lemma Announced(s: State, s': State)
    requires Covered(s) && KeepsWakes(s, s')
    requires forall j :: HasStatus(s', j, Pending) && !HasStatus(s, j, Pending) ==> Wake(s', j)
    ensures Covered(s')
  {
  }

  lemma CreateCoverage(s: State, j: JobId, r: RowId, maxRetries: nat)
    requires Covered(s)
    ensures Covered(Created(s, j, r, maxRetries))
  {
    var s' := Created(s, j, r, maxRetries);
    CreateKeepsWakes(s, j, r, maxRetries);
    if s' != s {
      FreshRowWakes(s, s', r, j);
    }
    Announced(s, s');
  }

  lemma ResetCoverage(s: State, seen: Seen, r: RowId)
    requires Covered(s) && CanReset(s, seen.job, r)
    ensures Covered(ResetAndEnqueue(s, seen, r)) <==> !(HasPendingRow(s, seen.job) && !Wake(s, seen.job))
  {
    var j := seen.job;
    var s' := ResetAndEnqueue(s, seen, r);
    assert HasStatus(s', j, Pending);
    NothingTaken(s, s');
    if HasPendingRow(s, j) {
      SameWakes(s, s');
    } else {
      FreshRowWakes(s, s', r, j);
    }
    if Wake(s', j) {
      Announced(s, s');
    }
  }

  lemma UserRetryCoverage(s: State, call: CallId, r: RowId)
    requires Covered(s)
    ensures Covered(UserRetried(s, call, r)) <==> !ResetHazard(s, UserRetry(call, r))
  {
    if CanUserRetry(s, call, r) {
      var s0 := WithoutCall(s, call);
      SameWakes(s, s0);
      Announced(s, s0);
      ResetCoverage(s0, s.desk.retrying[call], r);
    }
  }

  lemma ApiCoverage(s: State, a: ApiStep)
    requires Covered(s)
    ensures Covered(ApplyApi(s, a)) <==> !ResetHazard(s, a)
  {
    match a
    case Create(j, r, m) => CreateCoverage(s, j, r, m);
    case ReplayAnew(j, k, r, m) =>
      var s0 := WithoutDead(s, j);
      SameWakes(s, s0);
      Announced(s, s0);
      CreateCoverage(s0, k, r, m);
    case AskRetry(call, j) => SameWakes(s, Asked(s, call, j)); Announced(s, Asked(s, call, j));
    case UserRetry(call, r) => UserRetryCoverage(s, call, r);
    case Replay(j, r) =>
      if CanReplay(s, j, r) {
        var s0 := WithoutDead(s, j);
        SameWakes(s, s0);
        Announced(s, s0);
        ResetCoverage(s0, Seen(j, true, true), r);
      }
  }

  lemma QueueCoverage(s: State, a: QueueStep)
    requires Covered(s)
    ensures Covered(ApplyQueue(s, a)) <==> !Hazard(s, Queue(a))
  {
    match a
    case ReleaseDue(due) => NothingTaken(s, Released(s, due)); Announced(s, Released(s, due));
    case Pop(t) => PopKeepsWakes(s, t); Announced(s, PoppedOne(s, t));
    case PushBack(t, reply) =>
      if Reached(reply) {
        PushBackKeepsWakes(s, t);
        Announced(s, PushedBack(s, t, Delivered));
      } else {
        DropCoverage(s, t);
        assert PushedBack(s, t, reply) == Dropped(s, t);
      }
    case Drop(t) => DropCoverage(s, t);
    case Claim(t) => ClaimCoverage(s, t);
  }

  lemma RetryCoverage(s: State, t: TaskId, c: RetryPolicy.Category, r: RowId, at: Time)
    requires Covered(s)
    ensures Covered(Retried(s, t, c, r, at))
  {
    var s' := Retried(s, t, c, r, at);
    RetryKeepsWakes(s, t, c, r, at);
    if s'.outbox != s.outbox {
      FreshRowWakes(s, s', r, s.tasks[t].job);
    }
    Announced(s, s');
  }

  lemma RequeueAnnounces(s: State, t: TaskId, r: RowId)
    requires Requeued(s, t, r).outbox != s.outbox
    ensures Wake(Requeued(s, t, r), s.tasks[t].job)
  {
    FreshRowWakes(s, Requeued(s, t, r), r, s.tasks[t].job);
  }

  lemma RequeueCoverage(s: State, t: TaskId, r: RowId)
    requires Covered(s)
    ensures Covered(Requeued(s, t, r))
  {
    var s' := Requeued(s, t, r);
    RequeueKeepsWakes(s, t, r);
    if s'.outbox != s.outbox {
      RequeueAnnounces(s, t, r);
    }
    Announced(s, s');
  }

  lemma CancelCoverage(s: State, t: TaskId, r: RowId)
    requires Covered(s)
    ensures Covered(Cancelled(s, t, r))
  {
    var s' := Cancelled(s, t, r);
    CancelKeepsWakes(s, t, r);
    if s'.outbox != s.outbox {
      FreshRowWakes(s, s', r, s.tasks[t].job);
    }
    Announced(s, s');
  }

  lemma SweepCoverage(s: State, rows: map<RowId, JobId>)
    requires Covered(s) && IsSweep(s, rows)
    ensures Covered(Swept(s, rows))
  {
    var s' := Swept(s, rows);
    SweepKeepsWakes(s, rows);
    forall j | HasStatus(s', j, Pending) && !HasStatus(s, j, Pending) ensures Wake(s', j) {
      var r :| r in rows && rows[r] == j;
      FreshRowWakes(s, s', r, j);
    }
    Announced(s, s');
  }

  lemma BackCoverage(s: State, a: RequeueStep)
    requires Tidy(s) && Covered(s)
    ensures Covered(ApplyRequeue(s, a))
  {
    match a
    case Retry(t, c, r, at) => RetryCoverage(s, t, c, r, at);
    case SchedulePush(t, reply) => SchedulePushKeepsWakes(s, t, reply); Announced(s, SchedulePushed(s, t, reply));
    case ScheduleAck(t, commits) => ScheduleAckKeepsWakes(s, t, commits); Announced(s, ScheduleAcked(s, t, commits));
    case Requeue(t, r) => RequeueCoverage(s, t, r);
    case Cancel(t, r) => CancelCoverage(s, t, r);
    case Sweep(rows) => if ApplyRequeue(s, a) != s { SweepCoverage(s, rows); }
  }

  lemma RunCoverage(s: State, a: RunStep)
    requires Covered(s)
    ensures Covered(ApplyRun(s, a))
  {
    RunKeepsWakes(s, a);
    Announced(s, ApplyRun(s, a));
  }

  /** From a good state a step keeps every pending job announced exactly when it is no hazard. */
  lemma StepCoverage(s: State, l: Label)
    requires Tidy(s) && Covered(s)
    ensures Covered(Apply(s, l)) <==> !Hazard(s, l)
  {
    match l
    case Tick(_) => SameWakes(s, Apply(s, l)); Announced(s, Apply(s, l));
    case Api(a) => ApiCoverage(s, a);
    case Relay(a) => RelayKeepsWakes(s, a); Announced(s, ApplyRelay(s, a));
    case Queue(a) => QueueCoverage(s, a);
    case Work(a) => RunCoverage(s, a);
    case Back(a) => BackCoverage(s, a);
    case Drain(a) => DrainCoverage(s, a);
  }
}
