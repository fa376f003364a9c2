/** A cancelled run that requeues twice. Its second handler does not ask whose claim it ends: it takes the
    job away from the run that has it by now, and two runs then commit a retry from the same snapshot. */
module LateRequeue {
  import opened Prelude
  import opened Pipeline
  import opened Outcomes
  import opened Attempts
  import RetryPolicy

  lemma {:induction false} CountAppend(s: State, a: seq<Label>, b: seq<Label>, j: JobId, n: int)
    ensures ErrorCount(s, a + b, j, n) == ErrorCount(Run(s, a), b, j, ErrorCount(s, a, j, n))
    decreases |a|
  {
    if a == [] {
      assert a + b == b;
    } else {
      assert (a + b)[1..] == a[1..] + b;
      CountAppend(Apply(s, a[0]), a[1..], b, j, Counted(s, a[0], j, n));
    }
  }

  lemma CountCons(s: State, l: Label, rest: seq<Label>, j: JobId, n: int)
    ensures ErrorCount(s, [l] + rest, j, n) == ErrorCount(Apply(s, l), rest, j, Counted(s, l, j, n))
  {
    assert ([l] + rest)[1..] == rest;
  }

  // Job 0, which may be retried once. All of it happens at time 0.

  function Db(st: Status, count: nat, planned: Option<Time>): map<JobId, Job> {
    map[0 := Job(st, count, 1, planned, 0, None)]
  }

  const Open := Row(0, RetryScheduled(NextRetryAt(0)), RowPending, None)
  const Shut := Row(0, RetryScheduled(NextRetryAt(0)), RowProcessed, Some(0))

  /** Nothing is queued, and row `r` is the one pending row of job 0. */
  ghost predicate Waiting(s: State, r: RowId) {
    && s.now == 0 && s.downloadQueue == [] && s.retryQueue == map[] && s.relayed == {} && s.draining == {}
    && HasStatus(s, 0, Pending)
    && r in s.outbox && s.outbox[r] == Open
  }

  /** Row `r` is relayed, its entry released, and the id popped and claimed by task `t`. */
  function Again(r: RowId, t: TaskId): seq<Label> {
    [Relay(RelayPush(r, Delivered)), Relay(RelayAck({r}, true)), Queue(ReleaseDue([0])), Queue(Pop(t)), Queue(Claim(t))]
  }

  function Claimed0(s: State, r: RowId, t: TaskId): State
    requires Waiting(s, r)
  {
    s.(outbox := s.outbox[r := Shut],
       jobs := s.jobs[0 := s.jobs[0].(status := Processing, updatedAt := 0)],
       tasks := s.tasks[t := Running(0, s.jobs[0].retryCount, s.jobs[0].maxRetries, None)])
  }

  lemma Relayed(s: State, r: RowId)
    requires Waiting(s, r)
    ensures Apply(Apply(s, Relay(RelayPush(r, Delivered))), Relay(RelayAck({r}, true)))
            == s.(outbox := s.outbox[r := Shut], retryQueue := map[0 := 0])
  {
    var s1 := s.(retryQueue := map[0 := 0], relayed := {r});
    assert Apply(s, Relay(RelayPush(r, Delivered))) == s1;
    assert Closed(s1, {r}, RowProcessed) == s.outbox[r := Shut];
    assert {r} * s1.relayed == {r} && s1.relayed - {r} == {};
  }

  lemma Released0(s: State)
    requires s.now == 0 && s.downloadQueue == [] && s.retryQueue == map[0 := 0]
    ensures Apply(s, Queue(ReleaseDue([0]))) == s.(downloadQueue := [0], retryQueue := map[])
  {
    OneDue(s);
    One();
    assert s.retryQueue - {0} == map[];
  }

  lemma OneDue(s: State)
    requires s.now == 0 && s.retryQueue == map[0 := 0]
    ensures IsDueBatch(s, [0])
  {
  }

  lemma One()
    ensures Reversed<JobId>([0]) == [0] && (set j: JobId | j in [0]) == {0}
  {
    assert [0][1..] == [];
    assert Reversed<JobId>([0]) == Reversed<JobId>([]) + [0];
  }

  lemma PoppedAndClaimed(s: State, t: TaskId)
    requires s.now == 0 && s.downloadQueue == [0] && HasStatus(s, 0, Pending) && t !in s.tasks
    ensures Apply(Apply(s, Queue(Pop(t))), Queue(Claim(t)))
            == s.(downloadQueue := [],
                  jobs := s.jobs[0 := s.jobs[0].(status := Processing, updatedAt := 0)],
                  tasks := s.tasks[t := Running(0, s.jobs[0].retryCount, s.jobs[0].maxRetries, None)])
  {
    assert Apply(s, Queue(Pop(t))) == s.(downloadQueue := [], tasks := s.tasks[t := Popped(0)]);
    assert s.tasks[t := Popped(0)][t := Running(0, s.jobs[0].retryCount, s.jobs[0].maxRetries, None)]
        == s.tasks[t := Running(0, s.jobs[0].retryCount, s.jobs[0].maxRetries, None)];
  }

  lemma AgainRuns(s: State, r: RowId, t: TaskId)
    requires Waiting(s, r) && t !in s.tasks
    ensures Run(s, Again(r, t)) == Claimed0(s, r, t)
  {
    var ls := Again(r, t);
    var s1 := Apply(s, ls[0]);
    var s2 := s.(outbox := s.outbox[r := Shut], retryQueue := map[0 := 0]);
    Relayed(s, r);
    Released0(s2);
    var s3 := s2.(downloadQueue := [0], retryQueue := map[]);
    PoppedAndClaimed(s3, t);
    assert ls == [ls[0]] + ([ls[1]] + ([ls[2]] + [ls[3], ls[4]]));
    RunCons(s, ls[0], [ls[1]] + ([ls[2]] + [ls[3], ls[4]]));
    RunCons(s1, ls[1], [ls[2]] + [ls[3], ls[4]]);
    RunCons(s2, ls[2], [ls[3], ls[4]]);
    RunTwo(s3, ls[3], ls[4]);
  }

  /** Getting a job back to a worker commits no error. */
  lemma {:induction false} NoErrors(s: State, run: seq<Label>, n: int)
    requires forall l | l in run :: l.Relay? || l.Queue?
    ensures ErrorCount(s, run, 0, n) == n
    decreases |run|
  {
    if run != [] {
      assert IsError(OutcomeOf(s, run[0], 0)) == 0;
      NoErrors(Apply(s, run[0]), run[1..], n);
    }
  }

  /** One step `l` and the way back to a worker. */
  lemma Leg(s: State, l: Label, r: RowId, t: TaskId, n: int)
    requires Waiting(Apply(s, l), r) && t !in Apply(s, l).tasks
    ensures Run(s, [l] + Again(r, t)) == Claimed0(Apply(s, l), r, t)
    ensures ErrorCount(s, [l] + Again(r, t), 0, n) == Counted(s, l, 0, n)
  {
    RunCons(s, l, Again(r, t));
    AgainRuns(Apply(s, l), r, t);
    CountCons(s, l, Again(r, t), 0, n);
    NoErrors(Apply(s, l), Again(r, t), Counted(s, l, 0, n));
  }

  const Transient := RetryPolicy.Transient

  /** Run 0 is cancelled and requeues; run 1 claims the job. */
  const Leg1: seq<Label> := [Back(Cancel(0, 1))] + Again(1, 1)
  /** Run 0 requeues once more, which ends run 1's claim; run 2 claims the job. */
  const Leg2: seq<Label> := [Back(Cancel(0, 2))] + Again(2, 2)
  /** Run 1 fails and plans a retry; run 3 claims the job. */
  const Leg3: seq<Label> := [Back(Retry(1, Transient, 3, 0))] + Again(3, 3)
  /** So does run 2, from the same snapshot. */
  const Leg4: seq<Label> := [Back(Retry(2, Transient, 4, 0))] + Again(4, 4)

  const Created0: Label := Api(Create(0, 0, 1))
  const Claim0: seq<Label> :=
    [Relay(RelayPush(0, Delivered)), Relay(RelayAck({0}, true)), Queue(Pop(0)), Queue(Claim(0))]

  const Row0 := Row(0, EnqueueDownload, RowProcessed, Some(0))

  const At0 := Init.(
    jobs := Db(Processing, 0, None),
    outbox := map[0 := Row0],
    tasks := map[0 := Running(0, 0, 1, None)])
  const Mid1 := At0.(
    jobs := Db(Pending, 0, None),
    outbox := At0.outbox[1 := Open],
    tasks := At0.tasks[0 := Ending(0, 1)])
  const At1 := At0.(
    jobs := Db(Processing, 0, None),
    outbox := At0.outbox[1 := Shut],
    tasks := Mid1.tasks[1 := Running(0, 0, 1, None)])

  const Mid2 := At1.(
    jobs := Db(Pending, 0, None),
    outbox := At1.outbox[2 := Open],
    tasks := At1.tasks[0 := Ending(0, 0)])
  const At2 := At1.(
    jobs := Db(Processing, 0, None),
    outbox := At1.outbox[2 := Shut],
    tasks := Mid2.tasks[2 := Running(0, 0, 1, None)])

  const Mid3 := At2.(
    jobs := Db(Pending, 1, Some(0)),
    outbox := At2.outbox[3 := Open],
    tasks := At2.tasks[1 := Scheduling(0, 3, 0, false)])
  const At3 := At2.(
    jobs := Db(Processing, 1, Some(0)),
    outbox := At2.outbox[3 := Shut],
    tasks := Mid3.tasks[3 := Running(0, 1, 1, None)])

  const Mid4 := At3.(
    jobs := Db(Pending, 1, Some(0)),
    outbox := At3.outbox[4 := Open],
    tasks := At3.tasks[2 := Scheduling(0, 4, 0, false)])
  const At4 := At3.(
    jobs := Db(Processing, 1, Some(0)),
    outbox := At3.outbox[4 := Shut],
    tasks := Mid4.tasks[4 := Running(0, 1, 1, None)])

  lemma StartRuns()
    ensures Run(Init, [Created0] + Claim0) == At0 && ErrorCount(Init, [Created0] + Claim0, 0, 0) == 0
  {
    var s1 := Init.(jobs := Db(Pending, 0, None), outbox := map[0 := Row(0, EnqueueDownload, RowPending, None)]);
    assert Apply(Init, Created0) == s1;
    RunCons(Init, Created0, Claim0);
    CountCons(Init, Created0, Claim0, 0, 0);
    NoErrors(s1, Claim0, 0);
    var s2 := s1.(downloadQueue := [0], relayed := {0});
    assert Apply(s1, Claim0[0]) == s2;
    var s3 := s1.(downloadQueue := [0], outbox := map[0 := Row0]);
    assert Apply(s2, Claim0[1]) == s3;
    PoppedAndClaimed(s3, 0);
    RunCons(s1, Claim0[0], [Claim0[1]] + [Claim0[2], Claim0[3]]);
    RunCons(s2, Claim0[1], [Claim0[2], Claim0[3]]);
    RunTwo(s3, Claim0[2], Claim0[3]);
    assert Claim0 == [Claim0[0]] + ([Claim0[1]] + [Claim0[2], Claim0[3]]);
  }

  lemma Mid1Reached()
    ensures Apply(At0, Leg1[0]) == Mid1
  {
  }

  lemma Mid1Counts()
    ensures Counted(At0, Leg1[0], 0, 0) == 0
  {
  }

  lemma Mid1Waits()
    ensures Waiting(Mid1, 1) && 1 !in Mid1.tasks && Claimed0(Mid1, 1, 1) == At1
  {
  }

  lemma Leg1Runs()
    ensures Run(At0, Leg1) == At1 && ErrorCount(At0, Leg1, 0, 0) == 0
  {
    Mid1Reached();
    Mid1Counts();
    Mid1Waits();
    Leg(At0, Leg1[0], 1, 1, 0);
  }

  lemma Mid2Reached()
    ensures Apply(At1, Leg2[0]) == Mid2
  {
  }

  lemma Mid2Counts()
    ensures Counted(At1, Leg2[0], 0, 0) == 0
  {
  }

  lemma Mid2Waits()
    ensures Waiting(Mid2, 2) && 2 !in Mid2.tasks && Claimed0(Mid2, 2, 2) == At2
  {
  }

  lemma Leg2Runs()
    ensures Run(At1, Leg2) == At2 && ErrorCount(At1, Leg2, 0, 0) == 0
  {
    Mid2Reached();
    Mid2Counts();
    Mid2Waits();
    Leg(At1, Leg2[0], 2, 2, 0);
  }

  lemma Settled2()
    ensures !HasPendingRow(At2, 0) && FreshRow(At2, 3)
    ensures RunsTask(At2, 1) && At2.tasks[1] == Running(0, 0, 1, None)
  {
  }

  lemma Mid3Reached()
    ensures Apply(At2, Leg3[0]) == Mid3
  {
    Settled2();
  }

  lemma Mid3Counts()
    ensures Counted(At2, Leg3[0], 0, 0) == 1
  {
  }

  lemma Mid3Waits()
    ensures Waiting(Mid3, 3) && 3 !in Mid3.tasks && Claimed0(Mid3, 3, 3) == At3
  {
  }

  lemma Leg3Runs()
    ensures Run(At2, Leg3) == At3 && ErrorCount(At2, Leg3, 0, 0) == 1
  {
    Mid3Reached();
    Mid3Counts();
    Mid3Waits();
    Leg(At2, Leg3[0], 3, 3, 0);
  }

  lemma Settled3()
    ensures !HasPendingRow(At3, 0) && FreshRow(At3, 4)
    ensures RunsTask(At3, 2) && At3.tasks[2] == Running(0, 0, 1, None)
  {
  }

  lemma Mid4Reached()
    ensures Apply(At3, Leg4[0]) == Mid4
  {
    Settled3();
  }

  lemma Mid4Counts()
    ensures Counted(At3, Leg4[0], 0, 1) == 2
  {
  }

  lemma Mid4Waits()
    ensures Waiting(Mid4, 4) && 4 !in Mid4.tasks && Claimed0(Mid4, 4, 4) == At4
  {
  }

  lemma Leg4Runs()
    ensures Run(At3, Leg4) == At4 && ErrorCount(At3, Leg4, 0, 1) == 2
  {
    Mid4Reached();
    Mid4Counts();
    Mid4Waits();
    Leg(At3, Leg4[0], 4, 4, 1);
  }

  lemma LastFails()
    ensures Tally(Apply(At4, Work(Fail(4, Transient))), 0) == 2
    ensures 0 in Apply(At4, Work(Fail(4, Transient))).jobs && Apply(At4, Work(Fail(4, Transient))).jobs[0].maxRetries == 1
    ensures Counted(At4, Work(Fail(4, Transient)), 0, 2) == 3
  {
  }

  /** A run that counts `n1` errors, followed by `b`. */
  lemma Then(a: seq<Label>, s1: State, n1: int, b: seq<Label>, s2: State, n2: int)
    requires Run(Init, a) == s1 && ErrorCount(Init, a, 0, 0) == n1
    requires Run(s1, b) == s2 && ErrorCount(s1, b, 0, n1) == n2
    ensures Run(Init, a + b) == s2 && ErrorCount(Init, a + b, 0, 0) == n2
  {
    RunAppend(Init, a, b);
    CountAppend(Init, a, b, 0, 0);
  }

  const Start: seq<Label> := [Created0] + Claim0

  const Fatal: Label := Work(Fail(4, Transient))

  lemma LegsRun()
    ensures Run(Init, Start + Leg1 + Leg2 + Leg3 + Leg4) == At4
    ensures ErrorCount(Init, Start + Leg1 + Leg2 + Leg3 + Leg4, 0, 0) == 2
  {
    StartRuns();
    Leg1Runs();
    Then(Start, At0, 0, Leg1, At1, 0);
    Leg2Runs();
    Then(Start + Leg1, At1, 0, Leg2, At2, 0);
    Leg3Runs();
    Then(Start + Leg1 + Leg2, At2, 0, Leg3, At3, 1);
    Leg4Runs();
    Then(Start + Leg1 + Leg2 + Leg3, At3, 1, Leg4, At4, 2);
  }

  lemma FatalRuns()
    ensures Run(At4, [Fatal]) == Apply(At4, Fatal) && ErrorCount(At4, [Fatal], 0, 2) == Counted(At4, Fatal, 0, 2)
  {
    RunOne(At4, Fatal);
    CountCons(At4, Fatal, [], 0, 2);
    assert [Fatal] + [] == [Fatal];
  }

  /** Without a sweep, a user's retry or a replay, a job that may be retried once commits three errors,
      and its row speaks of two. */
  lemma CancelledRunBreaksBudget()
    ensures var run := Start + Leg1 + Leg2 + Leg3 + Leg4 + [Fatal];
      && ErrorCount(Init, run, 0, 0) == 3
      && Tally(Run(Init, run), 0) == 2
      && 0 in Run(Init, run).jobs && Run(Init, run).jobs[0].maxRetries + 1 == 2
  {
    LegsRun();
    FatalRuns();
    LastFails();
    Then(Start + Leg1 + Leg2 + Leg3 + Leg4, At4, 2, [Fatal], Apply(At4, Fatal), 3);
  }
}
