/** The sweeper's clock. Time is read off a run's own ticks: how long a live run has been silent, and how
    long a job's row has not been written. */
module Heartbeats {
  import opened Prelude
  import opened Pipeline
  import opened Outcomes
  import opened Attempts
  import opened NoLostJob
  import RetryPolicy

  // What a step does to the row of a job.

  /** The row stays as it was, or has just been stamped. */
  predicate Stamped(s: State, s': State, j: JobId) {
    && (j in s.jobs ==> j in s'.jobs && (s'.jobs[j] == s.jobs[j] || s'.jobs[j].updatedAt == s'.now))
    && (j in s'.jobs && j !in s.jobs ==> s'.jobs[j].updatedAt == s'.now)
  }

  /** A heartbeat stamps the row of its own job, and changes nothing else anywhere. */
  lemma BeatStamps(s: State, t: TaskId)
    requires t in s.tasks && (s.tasks[t].Running? || s.tasks[t].Ending?)
    ensures var s' := Apply(s, Work(Beat(t))); var j := s.tasks[t].job;
      && s' == s.(jobs := s'.jobs) && s'.jobs.Keys == s.jobs.Keys
      && (j in s.jobs ==> s'.jobs[j].updatedAt == s.now)
      && forall k | k in s.jobs ::
           && (k != j ==> s'.jobs[k] == s.jobs[k])
           && s'.jobs[k].status == s.jobs[k].status && s'.jobs[k].retryCount == s.jobs[k].retryCount
           && s'.jobs[k].maxRetries == s.jobs[k].maxRetries && s'.jobs[k].nextRetryAt == s.jobs[k].nextRetryAt
           && s'.jobs[k].filePath == s.jobs[k].filePath
  {
  }

  lemma RunStamps(s: State, a: RunStep, j: JobId)
    ensures Stamped(s, ApplyRun(s, a), j)
  {
  }

  lemma BackStamps(s: State, a: RequeueStep, j: JobId)
    ensures Stamped(s, ApplyRequeue(s, a), j)
  {
  }

  lemma ApiStamps(s: State, a: ApiStep, j: JobId)
    ensures Stamped(s, ApplyApi(s, a), j)
  {
  }

  lemma QueueStamps(s: State, a: QueueStep, j: JobId)
    ensures Stamped(s, ApplyQueue(s, a), j)
  {
  }

  lemma DrainStamps(s: State, a: DrainStep, j: JobId)
    ensures Stamped(s, ApplyDrain(s, a), j)
  {
  }

  lemma StepStamps(s: State, l: Label, j: JobId)
    ensures Stamped(s, Apply(s, l), j)
    ensures Apply(s, l).now == s.now + if l.Tick? then l.elapsed else 0
  {
    match l
    case Tick(_) =>
    case Api(a) => ApiStamps(s, a, j);
    case Relay(a) => RelayAside(s, a);
    case Queue(a) => QueueStamps(s, a, j);
    case Work(a) => RunStamps(s, a, j);
    case Back(a) => BackStamps(s, a, j);
    case Drain(a) => DrainStamps(s, a, j);
  }

  // How long a row has not been written.

  function Elapsed(l: Label): nat {
    if l.Tick? then l.elapsed else 0
  }

  /** The step writes the row of `j`: with other contents, or a heartbeat. */
  predicate Writes(s: State, l: Label, j: JobId) {
    || j !in s.jobs || j !in Apply(s, l).jobs || s.jobs[j] != Apply(s, l).jobs[j]
    || (l.Work? && l.work.Beat? && Beats(s, l.work.task) && s.tasks[l.work.task].job == j)
  }

  /** The ticks of a run since the row of `j` was last written. */
  function Unwritten(run: seq<Label>, j: JobId): nat {
    if run == [] then 0
    else
      var n := |run| - 1;
      if Writes(Run(Init, run[..n]), run[n], j) then 0 else Unwritten(run[..n], j) + Elapsed(run[n])
  }

  lemma {:induction false} UnwrittenIsAge(run: seq<Label>, j: JobId)
    requires j in Run(Init, run).jobs
    ensures Run(Init, run).now - Run(Init, run).jobs[j].updatedAt == Unwritten(run, j)
  {
    if run != [] {
      var n := |run| - 1;
      var s := Run(Init, run[..n]);
      RunLast(Init, run);
      StepStamps(s, run[n], j);
      if j in s.jobs {
        UnwrittenIsAge(run[..n], j);
        if run[n].Work? && run[n].work.Beat? && Beats(s, run[n].work.task) {
          BeatStamps(s, run[n].work.task);
        }
      }
    }
  }

  /** Over all runs: the sweeper takes a job exactly if it is processing and its row has not been written
      for more than fifteen minutes. */
  lemma SweptExactly(run: seq<Label>, j: JobId)
    ensures Stuck(Run(Init, run), j) <==> HasStatus(Run(Init, run), j, Processing) && Unwritten(run, j) > 900_000
  {
    if j in Run(Init, run).jobs {
      UnwrittenIsAge(run, j);
    }
  }

  /** A committed sweep leaves no such job, gives each a pending row of its own, and touches no other. */
  lemma SweepRecovers(s: State, rows: map<RowId, JobId>, j: JobId)
    requires IsSweep(s, rows) && j in s.jobs && forall r | r in rows :: !HasPendingRow(s, rows[r])
    ensures var s' := Apply(s, Back(Sweep(rows)));
      && j in s'.jobs
      && (if Stuck(s, j)
          then s'.jobs[j] == s.jobs[j].(status := Pending, updatedAt := s.now)
               && exists r | r in s'.outbox && r !in s.outbox :: s'.outbox[r] == Row(j, ZombieRecovery, RowPending, None)
          else s'.jobs[j] == s.jobs[j])
      && forall r | r in s.outbox :: r in s'.outbox && s'.outbox[r] == s.outbox[r]
  {
    if Stuck(s, j) {
      var r :| r in rows && rows[r] == j;
      assert FreshRow(s, r);
      assert Apply(s, Back(Sweep(rows))).outbox[r] == Row(j, ZombieRecovery, RowPending, None);
    }
  }

  /** One stuck job whose row is still pending holds up the whole sweep. */
  lemma RejectedSweepChangesNothing(s: State, rows: map<RowId, JobId>, j: JobId)
    requires IsSweep(s, rows) && Stuck(s, j) && HasPendingRow(s, j)
    ensures Apply(s, Back(Sweep(rows))) == s
  {
    var r :| r in rows && rows[r] == j;
  }

  // How long a live run has been silent.

  predicate Starts(s: State, l: Label, t: TaskId) {
    l == Queue(Claim(t)) && !RunsTask(s, t)
  }

  /** The ticks since run `t` claimed its job or sent its last heartbeat. */
  function Silence(run: seq<Label>, t: TaskId): nat {
    if run == [] then 0
    else
      var n := |run| - 1;
      if run[n] == Work(Beat(t)) || Starts(Run(Init, run[..n]), run[n], t) then 0
      else Silence(run[..n], t) + Elapsed(run[n])
  }

  lemma RunGoesOn(s: State, a: RunStep, t: TaskId)
    requires RunsTask(ApplyRun(s, a), t)
    ensures RunsTask(s, t) && s.tasks[t].job == ApplyRun(s, a).tasks[t].job
  {
  }

  lemma BackGoesOn(s: State, a: RequeueStep, t: TaskId)
    requires RunsTask(ApplyRequeue(s, a), t)
    ensures RunsTask(s, t) && s.tasks[t].job == ApplyRequeue(s, a).tasks[t].job
  {
  }

  lemma ClaimStamps(s: State, t: TaskId, u: TaskId)
    requires RunsTask(Claimed(s, u), t)
    ensures if RunsTask(s, t) then s.tasks[t].job == Claimed(s, u).tasks[t].job
            else t == u && Claimed(s, u).tasks[t].job in Claimed(s, u).jobs
                 && Claimed(s, u).jobs[Claimed(s, u).tasks[t].job].updatedAt == s.now
  {
  }

  lemma ApiGoesOn(s: State, a: ApiStep)
    ensures ApplyApi(s, a).tasks == s.tasks
  {
  }

  /** A run that is live behind a step was so before it, or the step is its claim. */
  lemma GoesOn(s: State, l: Label, t: TaskId)
    requires RunsTask(Apply(s, l), t)
    ensures var s' := Apply(s, l); var j := s'.tasks[t].job;
      if RunsTask(s, t) then s.tasks[t].job == j else Starts(s, l, t) && j in s'.jobs && s'.jobs[j].updatedAt == s'.now
  {
    match l
    case Tick(_) =>
    case Api(a) => ApiGoesOn(s, a);
    case Relay(a) => RelayAside(s, a);
    case Queue(Claim(u)) => ClaimStamps(s, t, u);
    case Queue(a) => QueueAside(s, a);
    case Work(a) => RunGoesOn(s, a, t);
    case Back(a) => BackGoesOn(s, a, t);
    case Drain(DrainCommit(_, _, _, _)) =>
    case Drain(a) => DrainAside(s, a);
  }

  lemma {:induction false} SilenceBoundsAge(run: seq<Label>, t: TaskId)
    requires RunsTask(Run(Init, run), t)
    ensures var s := Run(Init, run); var j := s.tasks[t].job;
      j in s.jobs && s.now - s.jobs[j].updatedAt <= Silence(run, t)
  {
    if run != [] {
      var n := |run| - 1;
      var s := Run(Init, run[..n]);
      RunLast(Init, run);
      GoesOn(s, run[n], t);
      if RunsTask(s, t) {
        SilenceBoundsAge(run[..n], t);
        StepStamps(s, run[n], s.tasks[t].job);
        if run[n] == Work(Beat(t)) {
          BeatStamps(s, t);
        }
      }
    }
  }

  /** A live run that has claimed its job or sent a heartbeat within the last fifteen minutes of ticks is
      not swept, however long it has been running and whatever else has happened. */
  lemma LiveRunIsNeverSwept(run: seq<Label>, j: JobId, t: TaskId)
    requires Runs(Run(Init, run), t, j) && Silence(run, t) <= 900_000
    ensures !Stuck(Run(Init, run), j)
  {
    SilenceBoundsAge(run, t);
  }

  /** Between two heartbeats of a live run, as after its claim, at most half a minute goes by. */
  ghost predicate Beating(run: seq<Label>, t: TaskId) {
    forall n: nat | n <= |run| && RunsTask(Run(Init, run[..n]), t) :: Silence(run[..n], t) <= 30_000
  }

  /** So with the worker's period of thirty seconds a run is never swept at any point of its life. */
  lemma BeatingRunIsNeverSwept(run: seq<Label>, t: TaskId, n: nat, j: JobId)
    requires Beating(run, t) && n <= |run|
    ensures Runs(Run(Init, run[..n]), t, j) ==> !Stuck(Run(Init, run[..n]), j)
  {
    if Runs(Run(Init, run[..n]), t, j) {
      LiveRunIsNeverSwept(run[..n], j, t);
    }
  }

  /** Sweeps behind runs that beat in time take no job away from a live run. */
  lemma TimelySweepIsCalm(run: seq<Label>, rows: map<RowId, JobId>)
    requires forall t | RunsTask(Run(Init, run), t) :: Silence(run, t) <= 900_000
    ensures Calm(Run(Init, run), Back(Sweep(rows)))
  {
    var s := Run(Init, run);
    forall t, j | Runs(s, t, j) ensures !TakesBack(OutcomeOf(s, Back(Sweep(rows)), j)) {
      LiveRunIsNeverSwept(run, j, t);
      assert TakesBack(OutcomeOf(s, Back(Sweep(rows)), j)) ==> Stuck(s, j);
    }
  }

  // Such a run of any length.

  const HalfMinute: seq<Label> := [Tick(30_000), Work(Beat(0))]

  function Long(n: nat): seq<Label> {
    if n == 0 then FirstClaim else Long(n - 1) + HalfMinute
  }

  function Aged(n: nat): State {
    ClaimedOnce.(jobs := map[0 := Job(Processing, 0, 3, None, 30_000 * n, None)], now := 30_000 * n)
  }

  lemma OneBeat(n: nat)
    ensures Run(Aged(n), HalfMinute) == Aged(n + 1)
  {
    RunTwo(Aged(n), Tick(30_000), Work(Beat(0)));
  }

  lemma {:induction false} LongRuns(n: nat)
    ensures Run(Init, Long(n)) == Aged(n)
  {
    if n == 0 {
      FirstClaimRuns();
    } else {
      LongRuns(n - 1);
      OneBeat(n - 1);
      RunThen(Init, Long(n - 1), Aged(n - 1), HalfMinute, Aged(n));
    }
  }

  lemma {:induction false} NoTicksNoSilence(run: seq<Label>, t: TaskId)
    requires forall l | l in run :: Elapsed(l) == 0
    ensures Silence(run, t) == 0
  {
    if run != [] {
      NoTicksNoSilence(run[..|run| - 1], t);
    }
  }

  /** A step that keeps the silence short keeps the run beating. */
  lemma BeatsOn(run: seq<Label>, l: Label, t: TaskId)
    requires Beating(run, t) && (l == Work(Beat(t)) || (l.Tick? && Silence(run, t) + l.elapsed <= 30_000))
    ensures Beating(run + [l], t)
    ensures Silence(run + [l], t) == if l.Tick? then Silence(run, t) + l.elapsed else 0
  {
    assert (run + [l])[..|run|] == run;
    assert (run + [l])[..|run| + 1] == run + [l];
    assert forall m: nat | m <= |run| :: (run + [l])[..m] == run[..m];
  }

  lemma {:induction false} LongBeats(n: nat)
    ensures Beating(Long(n), 0) && Silence(Long(n), 0) == 0
  {
    if n == 0 {
      assert forall m: nat | m <= |FirstClaim| :: forall l | l in FirstClaim[..m] :: l in FirstClaim;
      forall m: nat | m <= |FirstClaim| ensures Silence(FirstClaim[..m], 0) == 0 {
        NoTicksNoSilence(FirstClaim[..m], 0);
      }
      assert FirstClaim[..|FirstClaim|] == FirstClaim;
    } else {
      LongBeats(n - 1);
      var waited := Long(n - 1) + [Tick(30_000)];
      BeatsOn(Long(n - 1), Tick(30_000), 0);
      BeatsOn(waited, Work(Beat(0)), 0);
      assert Long(n) == waited + [Work(Beat(0))];
    }
  }

  /** A run that downloads for `n` half minutes beats in time, is still live at the end, and its job is
      its own and safe from the sweep. */
  lemma LongRunIsSafe(n: nat)
    ensures var s := Run(Init, Long(n));
      && Beating(Long(n), 0) && s.now == 30_000 * n
      && Runs(s, 0, 0) && HasStatus(s, 0, Processing) && !Stuck(s, 0)
  {
    LongRuns(n);
    LongBeats(n);
    LiveRunIsNeverSwept(Long(n), 0, 0);
  }
}
