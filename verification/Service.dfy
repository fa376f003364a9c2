/** The API's side of the pipeline: creating a download, retrying one, replaying dead-letter rows. Each
    call is one transaction over the jobs, the outbox and the dead-letter rows, but that of `retry` first
    reads its job without a lock. A write to a job's row waits while a drain holds that row. */
module Service {
  import opened Prelude
  import opened Pipeline
  import Worker

  /** The column default of `max_retries`. */
  const DEFAULT_MAX_RETRIES: nat := 3

  datatype Retry = NotFound | InvalidStatus(status: Status) | Waits | Done

  function AnswerTo(s: State, j: JobId): Retry {
    if j !in s.jobs then NotFound
    else if s.jobs[j].status !in {Failed, Deferred} then InvalidStatus(s.jobs[j].status)
    else Done
  }

  /** A dead-letter row by its original job, with the identifiers its replay may use. */
  datatype Dead = Dead(job: JobId, newJob: JobId, row: RowId)

  /** The original is reset if it still exists, and a new job is created otherwise. */
  function ReplayOne(s: State, d: Dead): State {
    if d.job in s.jobs then Replayed(s, d.job, d.row) else ReplayedAnew(s, d.job, d.newJob, d.row, DEFAULT_MAX_RETRIES)
  }

  function ReplayEach(s: State, dead: seq<Dead>): State {
    if dead == [] then s else ReplayOne(ReplayEach(s, dead[..|dead| - 1]), dead[|dead| - 1])
  }

  lemma NextReplay(s: State, dead: seq<Dead>, i: nat)
    requires i < |dead|
    ensures ReplayEach(s, dead[..i + 1]) == ReplayOne(ReplayEach(s, dead[..i]), dead[i])
  {
    assert dead[..i + 1][..i] == dead[..i];
  }

  function Originals(dead: seq<Dead>): multiset<JobId> {
    if dead == [] then multiset{} else multiset{dead[0].job} + Originals(dead[1..])
  }

  /** The identifiers are new, to the database and to the rest of the batch. */
  ghost predicate NewIds(s: State, d: Dead) {
    FreshRow(s, d.row) && d.newJob !in s.jobs && d.newJob !in s.desk.failedJobs && !HasPendingRow(s, d.newJob)
  }

  ghost predicate Batch(s: State, dead: seq<Dead>) {
    && Originals(dead) <= s.desk.failedJobs
    && (forall i | 0 <= i < |dead| :: NewIds(s, dead[i]))
    && (forall i, k | 0 <= i < k < |dead| :: dead[i].row != dead[k].row && dead[i].newJob != dead[k].newJob)
  }

  predicate Held(s: State, j: JobId) {
    j in s.jobs && j in s.draining
  }

  /** Only the original, or the new job, and at most one new row. */
  ghost predicate Changes(s: State, s': State, d: Dead) {
    && s'.desk.failedJobs == s.desk.failedJobs - multiset{d.job}
    && s'.jobs.Keys == s.jobs.Keys + (if d.job in s.jobs then {} else {d.newJob})
    && (s'.outbox == s.outbox || (s'.outbox.Keys == s.outbox.Keys + {d.row}
          && forall r | r in s.outbox :: s'.outbox[r] == s.outbox[r]))
    && s'.relayed == s.relayed && s'.tasks == s.tasks && s'.draining == s.draining
  }

  lemma ResetChanges(s: State, d: Dead)
    requires d.job in s.desk.failedJobs && NewIds(s, d) && d.job in s.jobs && d.job !in s.draining
    ensures Changes(s, Replayed(s, d.job, d.row), d)
  {
  }

  lemma AnewChanges(s: State, d: Dead)
    requires d.job in s.desk.failedJobs && NewIds(s, d) && d.job !in s.jobs
    ensures Changes(s, ReplayedAnew(s, d.job, d.newJob, d.row, DEFAULT_MAX_RETRIES), d)
  {
  }

  lemma ReplayChanges(s: State, d: Dead)
    requires d.job in s.desk.failedJobs && NewIds(s, d) && !Held(s, d.job)
    ensures Changes(s, ReplayOne(s, d), d)
  {
    if d.job in s.jobs {
      ResetChanges(s, d);
    } else {
      AnewChanges(s, d);
    }
  }

  /** A replay adds a row for nobody but its own job. */
  lemma ReplayRows(s: State, d: Dead, k: JobId)
    requires d.job in s.desk.failedJobs && NewIds(s, d) && !Held(s, d.job)
    requires !HasPendingRow(s, k) && k != d.job && k != d.newJob
    ensures !HasPendingRow(ReplayOne(s, d), k)
  {
    var s' := ReplayOne(s, d);
    ReplayChanges(s, d);
    forall r | r in s'.outbox ensures !PendingRow(s', r, k) {
      if r in s.outbox {
        assert !PendingRow(s, r, k);
      } else {
        NewRowIsOwn(s, d);
      }
    }
  }

  lemma NewRowIsOwn(s: State, d: Dead)
    requires d.job in s.desk.failedJobs && NewIds(s, d) && !Held(s, d.job) && d.row in ReplayOne(s, d).outbox
    ensures ReplayOne(s, d).outbox[d.row].job in {d.job, d.newJob}
  {
  }

  lemma BatchNext(s: State, dead: seq<Dead>)
    requires dead != [] && Batch(s, dead) && !Held(s, dead[0].job)
    ensures dead[0].job in s.desk.failedJobs && NewIds(s, dead[0])
    ensures Batch(ReplayOne(s, dead[0]), dead[1..])
  {
    var d := dead[0];
    assert d.job in Originals(dead) && NewIds(s, d);
    ReplayChanges(s, d);
    var s' := ReplayOne(s, d);
    forall i | 0 <= i < |dead[1..]| ensures NewIds(s', dead[1..][i]) {
      var e := dead[i + 1];
      assert NewIds(s, e) && e.newJob != d.job;
      ReplayRows(s, d, e.newJob);
    }
  }

  class DownloadService {
    var jobs: map<JobId, Job>
    var outbox: map<RowId, Row>
    var failedJobs: multiset<JobId>
    var now: Time
    /** The rows that calls of `retry` have loaded and not yet written. */
    var retrying: map<CallId, Seen>
    /** Redis, the workers and the row locks, which no call here changes. */
    var others: State

    function View(): State
      reads this
    {
      others.(jobs := jobs, outbox := outbox, desk := Desk(failedJobs, retrying), now := now)
    }

    /** Looks for a pending row first and inserts one only if there is none. */
    method WriteJobToOutbox(j: JobId, r: RowId)
      modifies this`outbox
      ensures View() == if HasPendingRow(old(View()), j) then old(View()) else AddRow(old(View()), r, j, EnqueueDownload)
    {
      var found := exists u | u in outbox :: outbox[u].job == j && outbox[u].status.RowPending?;
      assert found ==> exists u | u in outbox :: PendingRow(View(), u, j);
      assert !found ==> forall u | u in outbox :: !PendingRow(View(), u, j);
      if !found {
        outbox := outbox[r := Row(j, EnqueueDownload, RowPending, None)];
      }
    }

    method Create(j: JobId, r: RowId, maxRetries: nat)
      requires j !in jobs && !HasPendingRow(View(), j) && FreshRow(View(), r)
      modifies this`jobs, this`outbox
      ensures View() == Created(old(View()), j, r, maxRetries)
    {
      jobs := jobs[j := Job(Pending, 0, maxRetries, None, now, None)];
      WriteJobToOutbox(j, r);
    }

    method ResetAndWrite(seen: Seen, r: RowId)
      requires seen.job in jobs
      modifies this`jobs, this`outbox
      ensures View() == ResetAndEnqueue(old(View()), seen, r)
    {
      var job := jobs[seen.job].(status := Pending, updatedAt := now);
      if seen.counted {
        job := job.(retryCount := 0);
      }
      if seen.planned {
        job := job.(nextRetryAt := None);
      }
      jobs := jobs[seen.job := job];
      WriteJobToOutbox(seen.job, r);
    }

    /** The first half of `retry`: the row is read without a lock, and its status decides. */
    method AskRetry(call: CallId, j: JobId) returns (answer: Retry)
      requires call !in retrying
      modifies this`retrying
      ensures View() == Asked(old(View()), call, j)
      ensures answer == AnswerTo(old(View()), j)
    {
      if j !in jobs {
        return NotFound;
      }
      if jobs[j].status != Failed && jobs[j].status != Deferred {
        return InvalidStatus(jobs[j].status);
      }
      retrying := retrying[call := Seen(j, jobs[j].retryCount != 0, jobs[j].nextRetryAt.Some?)];
      answer := Done;
    }

    /** The second half: the write asks for no status, but waits while a drain holds the row. */
    method WriteRetry(call: CallId, r: RowId) returns (answer: Retry)
      requires call in retrying && retrying[call].job in jobs && FreshRow(View(), r)
      modifies this`jobs, this`outbox, this`retrying
      ensures View() == UserRetried(old(View()), call, r)
      ensures answer == if old(retrying)[call].job in others.draining then Waits else Done
    {
      var seen := retrying[call];
      if seen.job in others.draining {
        return Waits;
      }
      retrying := retrying - {call};
      ResetAndWrite(seen, r);
      answer := Done;
    }

    /** The whole call with nobody in between: exactly a failed or deferred job is reset. */
    method RetryJob(call: CallId, j: JobId, r: RowId) returns (answer: Retry)
      requires call !in retrying && FreshRow(View(), r)
      modifies this`jobs, this`outbox, this`retrying
      ensures View() == UserRetried(Asked(old(View()), call, j), call, r)
      ensures answer == if AnswerTo(old(View()), j).Done? && j in others.draining then Waits else AnswerTo(old(View()), j)
    {
      answer := AskRetry(call, j);
      if answer.Done? {
        answer := WriteRetry(call, r);
      }
    }

    /** Resets the original, or creates a new job if the original is gone; `done` unless it has to wait. */
    method ReplayFailed(d: Dead) returns (done: bool)
      requires d.job in failedJobs && NewIds(View(), d)
      modifies this`jobs, this`outbox, this`failedJobs
      ensures View() == ReplayOne(old(View()), d)
      ensures done == !Held(old(View()), d.job)
    {
      done := !(d.job in jobs && d.job in others.draining);
      if !done {
        return;
      }
      failedJobs := failedJobs - multiset{d.job};
      if d.job in jobs {
        ResetAndWrite(Seen(d.job, true, true), d.row);
      } else {
        Create(d.newJob, d.row, DEFAULT_MAX_RETRIES);
      }
    }

    /** The whole batch in one transaction, once none of its rows is held by a drain. */
    method ReplayAllFailed(dead: seq<Dead>) returns (replayed: nat)
      requires Batch(View(), dead)
      modifies this`jobs, this`outbox, this`failedJobs
      ensures if exists i | 0 <= i < |dead| :: Held(old(View()), dead[i].job)
              then View() == old(View()) && replayed == 0
              else View() == ReplayEach(old(View()), dead) && replayed == |dead|
    {
      replayed := 0;
      if exists i | 0 <= i < |dead| :: Held(View(), dead[i].job) {
        return;
      }
      ghost var s0 := View();
      for i := 0 to |dead|
        invariant View() == ReplayEach(s0, dead[..i]) && replayed == i
        invariant Batch(View(), dead[i..])
        invariant forall k | i <= k < |dead| :: !Held(View(), dead[k].job)
      {
        NextReplay(s0, dead, i);
        NextInBatch(View(), dead, i);
        var done := ReplayFailed(dead[i]);
        replayed := replayed + 1;
      }
      assert dead[..|dead|] == dead;
    }
  }

  lemma NextInBatch(s: State, dead: seq<Dead>, i: nat)
    requires i < |dead| && Batch(s, dead[i..]) && forall k | i <= k < |dead| :: !Held(s, dead[k].job)
    ensures dead[i].job in s.desk.failedJobs && NewIds(s, dead[i])
    ensures Batch(ReplayOne(s, dead[i]), dead[i + 1..])
    ensures forall k | i + 1 <= k < |dead| :: !Held(ReplayOne(s, dead[i]), dead[k].job)
  {
    var rest := dead[i..];
    assert rest[0] == dead[i] && rest[1..] == dead[i + 1..];
    BatchNext(s, rest);
    BatchStaysFree(s, rest);
    assert forall k | i + 1 <= k < |dead| :: dead[k] == rest[k - i];
  }

  lemma BatchStaysFree(s: State, dead: seq<Dead>)
    requires dead != [] && Batch(s, dead) && forall i | 0 <= i < |dead| :: !Held(s, dead[i].job)
    ensures forall i | 0 < i < |dead| :: !Held(ReplayOne(s, dead[0]), dead[i].job)
  {
    BatchNext(s, dead);
    ReplayChanges(s, dead[0]);
    assert NewIds(s, dead[0]);
    forall i | 0 < i < |dead| ensures !Held(ReplayOne(s, dead[0]), dead[i].job) {
      OriginalIn(dead, i);
    }
  }

  lemma {:induction false} OriginalIn(dead: seq<Dead>, i: nat)
    requires i < |dead|
    ensures dead[i].job in Originals(dead)
  {
    if i > 0 {
      OriginalIn(dead[1..], i - 1);
    }
  }

  /** A replayed batch is a run of single replays, so what holds of all runs holds of it. */
  lemma {:induction false} ReplayEachIsRun(s: State, dead: seq<Dead>)
    ensures Worker.Reaches(s, ReplayEach(s, dead))
  {
    if dead == [] {
      Worker.ReachesSelf(s);
    } else {
      var n := |dead| - 1;
      var d := dead[n];
      var s1 := ReplayEach(s, dead[..n]);
      ReplayEachIsRun(s, dead[..n]);
      if d.job in s1.jobs {
        Worker.ReachesStep(s, s1, Api(Replay(d.job, d.row)));
      } else {
        Worker.ReachesStep(s, s1, Api(ReplayAnew(d.job, d.newJob, d.row, DEFAULT_MAX_RETRIES)));
      }
    }
  }

  // What the calls answer and leave behind.

  /** Each answer of `retry` against the row it read: exactly for the answer `Done` the call is open. */
  lemma AnswersExactly(s: State, call: CallId, j: JobId)
    requires call !in s.desk.retrying
    ensures AnswerTo(s, j) == NotFound <==> j !in s.jobs
    ensures forall st :: AnswerTo(s, j) == InvalidStatus(st) <==> HasStatus(s, j, st) && st != Failed && st != Deferred
    ensures AnswerTo(s, j) == Done <==> call in Apply(s, Api(AskRetry(call, j))).desk.retrying
  {
  }

  /** Pending, with no attempt behind it and no planned time, and announced to the relay. */
  ghost predicate Revived(s: State, k: JobId) {
    && HasStatus(s, k, Pending) && s.jobs[k].retryCount == 0 && s.jobs[k].nextRetryAt == None
    && HasPendingRow(s, k)
  }

  function Target(s: State, d: Dead): JobId {
    if d.job in s.jobs then d.job else d.newJob
  }

  lemma ResetRevives(s: State, seen: Seen, r: RowId)
    requires seen.job in s.jobs && FreshRow(s, r) && seen.counted && seen.planned
    ensures Revived(ResetAndEnqueue(s, seen, r), seen.job)
  {
    var s' := ResetAndEnqueue(s, seen, r);
    if HasPendingRow(s, seen.job) {
      var u :| u in s.outbox && PendingRow(s, u, seen.job);
      assert PendingRow(s', u, seen.job);
    } else {
      assert PendingRow(s', r, seen.job);
    }
  }

  /** One dead-letter row goes, and the job it stands for is revived: the original with its limit, or
      a new one with three retries. No other job changes. */
  lemma ReplayRevives(s: State, d: Dead)
    requires d.job in s.desk.failedJobs && NewIds(s, d) && !Held(s, d.job)
    ensures var s' := ReplayOne(s, d); var k := Target(s, d);
      && s'.desk.failedJobs == s.desk.failedJobs - multiset{d.job}
      && Revived(s', k) && s'.jobs[k].updatedAt == s.now
      && s'.jobs[k].maxRetries == (if d.job in s.jobs then s.jobs[d.job].maxRetries else 3)
      && forall i | i in s.jobs && i != k :: i in s'.jobs && s'.jobs[i] == s.jobs[i]
  {
    if d.job in s.jobs {
      ResetRevives(WithoutDead(s, d.job), Seen(d.job, true, true), d.row);
    } else {
      NewRevives(s, d);
    }
  }

  lemma NewRevives(s: State, d: Dead)
    requires d.job in s.desk.failedJobs && NewIds(s, d) && d.job !in s.jobs
    ensures var s' := ReplayOne(s, d);
      && s'.desk == WithoutDead(s, d.job).desk
      && Revived(s', d.newJob)
      && s'.jobs == s.jobs[d.newJob := Job(Pending, 0, 3, None, s.now, None)]
  {
    assert CanReplayAnew(s, d.job, d.newJob, d.row);
    assert !HasPendingRow(WithoutDead(s, d.job), d.newJob);
    assert FreshRow(WithoutDead(s, d.job), d.row);
    assert PendingRow(ReplayOne(s, d), d.row, d.newJob);
  }

  lemma RevivedStays(s: State, d: Dead, k: JobId)
    requires d.job in s.desk.failedJobs && NewIds(s, d) && !Held(s, d.job) && Revived(s, k)
    ensures Revived(ReplayOne(s, d), k)
  {
    ReplayRevives(s, d);
    ReplayChanges(s, d);
    var u :| u in s.outbox && PendingRow(s, u, k);
    assert PendingRow(ReplayOne(s, d), u, k);
  }

  ghost predicate Replaying(s: State, dead: seq<Dead>, i: nat, s1: State)
    requires i <= |dead|
  {
    && Batch(s1, dead[i..])
    && (forall k | i <= k < |dead| :: !Held(s1, dead[k].job) && (dead[k].job in s1.jobs <==> dead[k].job in s.jobs))
    && (forall k | 0 <= k < i :: Revived(s1, Target(s, dead[k])))
  }

  lemma OriginalIsOld(s: State, dead: seq<Dead>, k: nat)
    requires Batch(s, dead) && k < |dead|
    ensures dead[k].job != dead[0].newJob
  {
    OriginalIn(dead, k);
    assert NewIds(s, dead[0]);
  }

  lemma ReplayingNext(s: State, dead: seq<Dead>, i: nat, s1: State)
    requires i < |dead| && Replaying(s, dead, i, s1)
    ensures Replaying(s, dead, i + 1, ReplayOne(s1, dead[i]))
  {
    var d := dead[i];
    NextInBatch(s1, dead, i);
    ReplayRevives(s1, d);
    ReplayChanges(s1, d);
    var s2 := ReplayOne(s1, d);
    forall k | i + 1 <= k < |dead| ensures dead[k].job in s2.jobs <==> dead[k].job in s.jobs {
      OriginalIsOld(s1, dead[i..], k - i);
    }
    forall k | 0 <= k < i ensures Revived(s2, Target(s, dead[k])) {
      RevivedStays(s1, d, Target(s, dead[k]));
    }
  }

  lemma {:induction false} ReplayedSoFar(s: State, dead: seq<Dead>, i: nat)
    requires Batch(s, dead) && (forall k | 0 <= k < |dead| :: !Held(s, dead[k].job)) && i <= |dead|
    ensures Replaying(s, dead, i, ReplayEach(s, dead[..i]))
  {
    if i == 0 {
      assert dead[0..] == dead;
    } else {
      ReplayedSoFar(s, dead, i - 1);
      NextReplay(s, dead, i - 1);
      ReplayingNext(s, dead, i - 1, ReplayEach(s, dead[..i - 1]));
    }
  }

  /** A batch revives the job of every dead-letter row it takes, whatever the batch holds twice. */
  lemma BatchRevives(s: State, dead: seq<Dead>, i: nat)
    requires Batch(s, dead) && (forall k | 0 <= k < |dead| :: !Held(s, dead[k].job)) && i < |dead|
    ensures Revived(ReplayEach(s, dead), Target(s, dead[i]))
  {
    ReplayedSoFar(s, dead, |dead|);
    assert dead[..|dead|] == dead;
  }
}
