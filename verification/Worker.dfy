/** The worker's own procedures over the two stores it changes in place. What the stores answer
    (which commits and pushes succeed, in which order a query returns its rows, which identifiers
    are new) is passed in. Each procedure is proved equal to a pass of the pipeline's steps, and each
    pass is shown to be a run, so that what holds of all runs holds of the procedures. */
module Worker {
  import opened Prelude
  import opened Pipeline
  import RetryPolicy

  /** Deliver the entries one after the other. */
  function PushAll(s: State, entries: seq<RowId>, replies: seq<Reply>): State
    requires |entries| == |replies|
  {
    if entries == [] then s
    else
      var n := |entries| - 1;
      ApplyRelay(PushAll(s, entries[..n], replies[..n]), RelayPush(entries[n], replies[n]))
  }

  /** The entries the relay can never deliver. */
  function Undeliverable(s: State, entries: seq<RowId>): set<RowId> {
    set r | r in entries && r in s.outbox && !Usable(s.outbox[r].event)
  }

  /** A relay pass: push every entry, then close the delivered and the undeliverable ones in one commit. */
  function RelayPass(s: State, entries: seq<RowId>, replies: seq<Reply>, commits: bool): State
    requires |entries| == |replies|
  {
    var s1 := ApplyRelay(PushAll(s, entries, replies), RelayAck(Elements(entries), commits));
    if commits then s1.(outbox := Closed(s1, Undeliverable(s, entries), RowFailed)) else s1
  }

  /** The name of this worker's own drain. */
  const OWN: DrainId := 0

  datatype Deferral = Deferral(service: string, job: JobId, accepts: bool, reply: Reply, commits: bool, forget: Reply)

  /** One deferred entry with nobody in between: left alone while its breaker is open, removed when stale,
      drained and removed otherwise. */
  function DrainEntry(s: State, e: Deferral): State {
    if !e.accepts then s
    else
      var s1 := ApplyDrain(ApplyDrain(s, DrainStale(OWN, e.service, e.job)), DrainForget(OWN, e.forget));
      var s2 := ApplyDrain(ApplyDrain(s1, DrainPush(e.service, e.job, e.reply)), DrainCommit(OWN, e.service, e.job, e.commits));
      ApplyDrain(s2, DrainForget(OWN, e.forget))
  }

  function DrainPass(s: State, entries: seq<Deferral>): State {
    if entries == [] then s
    else DrainEntry(DrainPass(s, entries[..|entries| - 1]), entries[|entries| - 1])
  }

  /** The entry's job is back in the download queue and the entry is known to be out of the set. */
  predicate Drains(s: State, e: Deferral) {
    e.accepts && HasStatus(s, e.job, Deferred) && Acknowledged(e.reply) && e.commits && Acknowledged(e.forget)
  }

  /** How many entries of a pass are counted as drained. */
  function DrainCount(s: State, entries: seq<Deferral>): nat {
    if entries == [] then 0
    else
      var rest := entries[..|entries| - 1];
      DrainCount(s, rest) + if Drains(DrainPass(s, rest), entries[|entries| - 1]) then 1 else 0
  }

  lemma NextDeferral(s: State, entries: seq<Deferral>, i: nat)
    requires i < |entries|
    ensures DrainPass(s, entries[..i + 1]) == DrainEntry(DrainPass(s, entries[..i]), entries[i])
    ensures DrainCount(s, entries[..i + 1]) ==
            DrainCount(s, entries[..i]) + if Drains(DrainPass(s, entries[..i]), entries[i]) then 1 else 0
  {
    assert entries[..i + 1][..i] == entries[..i];
  }

  function Gone(s: State, e: Deferral): DeferredSet {
    DeferredSet(if e.forget.Refused? then s.deferred.members else s.deferred.members - {(e.service, e.job)}, map[])
  }

  lemma RemovedAtOnce(s: State, e: Deferral)
    requires s.deferred.leaving == map[]
    ensures Removed(Leaving(s.deferred, OWN, e.service, e.job), OWN, e.forget) == Gone(s, e)
    ensures Removed(Gone(s, e), OWN, e.forget) == Gone(s, e)
  {
    assert map[OWN := (e.service, e.job)] - {OWN} == map[];
  }

  lemma StaleEntry(s: State, e: Deferral)
    requires s.draining == {} && s.deferred.leaving == map[] && e.accepts && !HasStatus(s, e.job, Deferred)
    ensures DrainEntry(s, e) == s.(deferred := Gone(s, e))
  {
    RemovedAtOnce(s, e);
  }

  lemma LiveEntry(s: State, e: Deferral)
    requires s.draining == {} && s.deferred.leaving == map[] && e.accepts && HasStatus(s, e.job, Deferred)
    ensures var pushed := s.(downloadQueue := PushDownload(s.downloadQueue, e.job, e.reply));
      DrainEntry(s, e) ==
        if Acknowledged(e.reply) && e.commits then WithStatus(pushed, e.job, Pending).(deferred := Gone(s, e)) else pushed
  {
    RemovedAtOnce(s, e);
    assert {e.job} - {e.job} == {};
  }

  /** What an uninterrupted drain of one entry comes to. */
  lemma DrainEntryResult(s: State, e: Deferral)
    requires s.draining == {} && s.deferred.leaving == map[] && e.accepts
    ensures DrainEntry(s, e) ==
      if !HasStatus(s, e.job, Deferred) then s.(deferred := Gone(s, e))
      else
        var pushed := s.(downloadQueue := PushDownload(s.downloadQueue, e.job, e.reply));
        if Acknowledged(e.reply) && e.commits then WithStatus(pushed, e.job, Pending).(deferred := Gone(s, e)) else pushed
  {
    if HasStatus(s, e.job, Deferred) {
      LiveEntry(s, e);
    } else {
      StaleEntry(s, e);
    }
  }

  ghost predicate SweepOrder(s: State, ids: seq<RowId>, order: seq<JobId>) {
    && |ids| == |order|
    && (forall i | 0 <= i < |ids| :: FreshRow(s, ids[i]))
    && (forall i, k | 0 <= i < k < |ids| :: ids[i] != ids[k] && order[i] != order[k])
    && (forall j :: Stuck(s, j) <==> j in order)
  }

  lemma SweptChanges(s: State, rows: map<RowId, JobId>, order: seq<JobId>)
    requires forall j :: j in rows.Values <==> j in order
    ensures Swept(s, rows) == s.(jobs := SweptJobs(s, order), outbox := s.outbox + RecoveryRows(rows))
  {
    assert Swept(s, rows).jobs == SweptJobs(s, order);
  }

  lemma SweepVerdict(s: State, ids: seq<RowId>, order: seq<JobId>)
    requires SweepOrder(s, ids, order)
    ensures SweepCommits(s, Pairs(ids, order)) <==> !exists j | j in order :: HasPendingRow(s, j)
  {
    PairsSweep(s, ids, order);
  }

  lemma SweepResult(s: State, ids: seq<RowId>, order: seq<JobId>)
    requires SweepOrder(s, ids, order)
    ensures ApplyRequeue(s, Sweep(Pairs(ids, order))) ==
      if SweepCommits(s, Pairs(ids, order))
      then s.(jobs := SweptJobs(s, order), outbox := s.outbox + RecoveryRows(Pairs(ids, order)))
      else s
  {
    PairsSweep(s, ids, order);
    SweptChanges(s, Pairs(ids, order), order);
  }

  /** The bulk UPDATE of the sweep. */
  function SweptJobs(s: State, order: seq<JobId>): map<JobId, Job> {
    map j | j in s.jobs :: if j in order then s.jobs[j].(status := Pending, updatedAt := s.now) else s.jobs[j]
  }

  /** The sweep's new rows: the i-th identifier for the i-th job. */
  function Pairs(ids: seq<RowId>, order: seq<JobId>): map<RowId, JobId>
    requires |ids| == |order|
  {
    if ids == [] then map[] else Pairs(ids[..|ids| - 1], order[..|ids| - 1])[ids[|ids| - 1] := order[|ids| - 1]]
  }

  lemma {:induction false} PairsFacts(ids: seq<RowId>, order: seq<JobId>)
    requires |ids| == |order|
    requires forall i, k | 0 <= i < k < |ids| :: ids[i] != ids[k]
    ensures forall r :: r in Pairs(ids, order) <==> r in ids
    ensures forall i | 0 <= i < |ids| :: ids[i] in Pairs(ids, order) && Pairs(ids, order)[ids[i]] == order[i]
  {
    if ids != [] {
      var n := |ids| - 1;
      PairsFacts(ids[..n], order[..n]);
      assert ids == ids[..n] + [ids[n]];
    }
  }

  lemma PairsSweep(s: State, ids: seq<RowId>, order: seq<JobId>)
    requires |ids| == |order|
    requires forall i | 0 <= i < |ids| :: FreshRow(s, ids[i])
    requires forall i, k | 0 <= i < k < |ids| :: ids[i] != ids[k] && order[i] != order[k]
    requires forall j :: Stuck(s, j) <==> j in order
    ensures IsSweep(s, Pairs(ids, order))
    ensures forall j :: j in Pairs(ids, order).Values <==> j in order
    ensures SweepCommits(s, Pairs(ids, order)) <==> forall j | j in order :: !HasPendingRow(s, j)
  {
    var rows := Pairs(ids, order);
    PairsFacts(ids, order);
    forall j | j in order ensures exists r :: r in rows && rows[r] == j {
      var i :| 0 <= i < |order| && order[i] == j;
      assert rows[ids[i]] == j;
    }
    forall r | r in rows ensures rows[r] in order && FreshRow(s, r) {
      var i :| 0 <= i < |ids| && ids[i] == r;
      assert rows[ids[i]] == order[i];
    }
  }

  function PopAll(s: State, slots: seq<TaskId>): State {
    if slots == [] then s else PoppedOne(PopAll(s, slots[..|slots| - 1]), slots[|slots| - 1])
  }

  lemma NextPop(s: State, slots: seq<TaskId>, i: nat)
    requires i < |slots|
    ensures PopAll(s, slots[..i + 1]) == PoppedOne(PopAll(s, slots[..i]), slots[i])
  {
    assert slots[..i + 1][..i] == slots[..i];
  }

  ghost predicate Distinct(slots: seq<TaskId>) {
    forall i, k | 0 <= i < k < |slots| :: slots[i] != slots[k]
  }

  ghost predicate FreeFrom(slots: seq<TaskId>, k: nat, used: set<TaskId>) {
    forall i | k <= i < |slots| :: slots[i] !in used
  }

  lemma StillFree(slots: seq<TaskId>, k: nat, used: set<TaskId>)
    requires k < |slots| && Distinct(slots) && FreeFrom(slots, k, used)
    ensures FreeFrom(slots, k + 1, used + {slots[k]})
  {
  }

  lemma {:induction false} ReversedSnoc(xs: seq<JobId>, x: JobId)
    ensures Reversed(xs + [x]) == [x] + Reversed(xs)
  {
    if xs == [] {
      assert xs + [x] == [x] && [x][1..] == [];
    } else {
      assert (xs + [x])[1..] == xs[1..] + [x];
      ReversedSnoc(xs[1..], x);
    }
  }

  predicate CanPush(s: State, r: RowId) {
    r in s.outbox && s.outbox[r].status.RowPending? && r !in s.relayed
  }

  ghost predicate CanPushFrom(s: State, entries: seq<RowId>, i: nat) {
    forall k | i <= k < |entries| :: CanPush(s, entries[k])
  }

  lemma StillPushable(s: State, entries: seq<RowId>, i: nat, reply: Reply)
    requires i < |entries| && CanPushFrom(s, entries, i) && forall j, k | 0 <= j < k < |entries| :: entries[j] != entries[k]
    ensures CanPushFrom(ApplyRelay(s, RelayPush(entries[i], reply)), entries, i + 1)
  {
  }

  lemma NextPush(s: State, entries: seq<RowId>, replies: seq<Reply>, i: nat)
    requires i < |entries| == |replies| && entries[i] in s.outbox
    ensures PushAll(s, entries[..i + 1], replies[..i + 1]) ==
            ApplyRelay(PushAll(s, entries[..i], replies[..i]), RelayPush(entries[i], replies[i]))
    ensures Undeliverable(s, entries[..i + 1]) ==
            Undeliverable(s, entries[..i]) + (if Usable(s.outbox[entries[i]].event) then {} else {entries[i]})
  {
    assert entries[..i + 1][..i] == entries[..i] && replies[..i + 1][..i] == replies[..i];
    assert entries[..i + 1] == entries[..i] + [entries[i]];
  }

  class Worker {
    var jobs: map<JobId, Job>
    var outbox: map<RowId, Row>
    var failedJobs: multiset<JobId>
    var downloadQueue: seq<JobId>
    var retryQueue: map<JobId, Time>
    var deferredSet: set<(string, JobId)>
    var tasks: map<TaskId, Task>
    var disk: set<FileId>
    var now: Time
    ghost var relayed: set<RowId>
    ghost var draining: set<JobId>
    ghost var leaving: map<DrainId, (string, JobId)>
    ghost const retrying: map<CallId, Seen>

    ghost function View(): State
      reads this
    {
      State(jobs, outbox, relayed, downloadQueue, retryQueue, DeferredSet(deferredSet, leaving), draining, tasks, disk, Desk(failedJobs, retrying), now)
    }

    method PushToDownloadQueue(j: JobId, reply: Reply) returns (ok: bool)
      modifies this`downloadQueue
      ensures downloadQueue == PushDownload(old(downloadQueue), j, reply)
      ensures ok == Acknowledged(reply)
    {
      if reply != Refused && reply != Overtaken {
        downloadQueue := Without(downloadQueue, j);
      }
      if Reached(reply) {
        downloadQueue := [j] + downloadQueue;
      }
      ok := Acknowledged(reply);
    }

    method PushToRetryQueue(j: JobId, at: Time, reply: Reply) returns (ok: bool)
      modifies this`retryQueue
      ensures retryQueue == PushRetry(old(retryQueue), j, at, reply)
      ensures ok == AddsRetry(old(retryQueue), j, reply)
    {
      ok := false;
      // Overtaken: an entry that is there now was not there when ZSCORE looked.
      if j !in retryQueue || reply.Overtaken? {
        if Reached(reply) {
          retryQueue := retryQueue[j := at];
        }
        ok := Acknowledged(reply);
      }
    }

    method DeliverEntry(r: RowId, reply: Reply) returns (enqueued: bool)
      requires CanPush(View(), r) && Usable(outbox[r].event)
      modifies this`downloadQueue, this`retryQueue, this`relayed
      ensures View() == ApplyRelay(old(View()), RelayPush(r, reply))
      ensures relayed == old(relayed) + (if enqueued then {r} else {})
    {
      var row := outbox[r];
      if row.event.RetryScheduled? {
        enqueued := PushToRetryQueue(row.job, row.event.payload.at, reply);
        if !enqueued {
          // A duplicate counts as delivered if the entry can be seen.
          enqueued := reply.Delivered? && row.job in retryQueue;
        }
      } else {
        enqueued := PushToDownloadQueue(row.job, reply);
      }
      if enqueued {
        relayed := relayed + {r};
      }
    }

    method PushEntry(r: RowId, reply: Reply) returns (enqueued: bool, unusable: bool)
      requires CanPush(View(), r)
      modifies this`downloadQueue, this`retryQueue, this`relayed
      ensures View() == ApplyRelay(old(View()), RelayPush(r, reply))
      ensures relayed == old(relayed) + (if enqueued then {r} else {})
      ensures unusable == !Usable(outbox[r].event) && !(unusable && enqueued)
    {
      enqueued, unusable := false, !Usable(outbox[r].event);
      if !unusable {
        enqueued := DeliverEntry(r, reply);
      }
    }

    /** One turn of the loop over the entries of a pass. */
    method PushNext(ghost s0: State, entries: seq<RowId>, replies: seq<Reply>, i: nat) returns (enqueued: bool, unusable: bool)
      requires i < |entries| == |replies| && View() == PushAll(s0, entries[..i], replies[..i])
      requires CanPushFrom(View(), entries, i) && entries[i] in s0.outbox && s0.outbox == outbox
      requires forall i, k | 0 <= i < k < |entries| :: entries[i] != entries[k]
      modifies this`downloadQueue, this`retryQueue, this`relayed
      ensures View() == PushAll(s0, entries[..i + 1], replies[..i + 1]) && CanPushFrom(View(), entries, i + 1)
      ensures relayed == old(relayed) + (if enqueued then {entries[i]} else {})
      ensures !(unusable && enqueued)
      ensures Undeliverable(s0, entries[..i + 1]) == Undeliverable(s0, entries[..i]) + (if unusable then {entries[i]} else {})
    {
      NextPush(s0, entries, replies, i);
      StillPushable(View(), entries, i, replies[i]);
      enqueued, unusable := PushEntry(entries[i], replies[i]);
    }

    method PushEntries(entries: seq<RowId>, replies: seq<Reply>) returns (processed: set<RowId>, failed: set<RowId>)
      requires |entries| == |replies|
      requires forall k | 0 <= k < |entries| :: CanPush(View(), entries[k])
      requires forall i, k | 0 <= i < k < |entries| :: entries[i] != entries[k]
      modifies this`downloadQueue, this`retryQueue, this`relayed
      ensures View() == PushAll(old(View()), entries, replies)
      ensures relayed == old(relayed) + processed && processed <= Elements(entries)
      ensures failed == Undeliverable(old(View()), entries)
    {
      processed, failed := {}, {};
      ghost var s0 := View();
      for i := 0 to |entries|
        invariant View() == PushAll(s0, entries[..i], replies[..i])
        invariant relayed == s0.relayed + processed && processed <= Elements(entries)
        invariant CanPushFrom(View(), entries, i)
        invariant failed == Undeliverable(s0, entries[..i])
      {
        var enqueued, unusable := PushNext(s0, entries, replies, i);
        if unusable {
          failed := failed + {entries[i]};
        } else if enqueued {
          processed := processed + {entries[i]};
        }
      }
      assert entries[..|entries|] == entries && replies[..|replies|] == replies;
    }

    /** UPDATE outbox SET status, processed_at WHERE id IN rows. */
    method MarkRows(rows: set<RowId>, st: RowStatus)
      modifies this`outbox
      ensures outbox == Closed(old(View()), rows, st)
    {
      outbox := map r | r in outbox ::
        if r in rows then outbox[r].(status := st, processedAt := Some(now)) else outbox[r];
    }

    method SyncOutboxToQueue(entries: seq<RowId>, replies: seq<Reply>, commits: bool) returns (synced: nat)
      requires |entries| == |replies| && relayed == {}
      requires forall k | 0 <= k < |entries| :: CanPush(View(), entries[k])
      requires forall i, k | 0 <= i < k < |entries| :: entries[i] != entries[k]
      modifies this
      ensures View() == RelayPass(old(View()), entries, replies, commits)
      ensures relayed == {}
      ensures synced == |PushAll(old(View()), entries, replies).relayed|
    {
      var processed, failed := PushEntries(entries, replies);
      synced := |processed|;
      assert processed == Elements(entries) * relayed;
      if commits {
        MarkRows(processed, RowProcessed);
        relayed := {};
        assert View() == ApplyRelay(PushAll(old(View()), entries, replies), RelayAck(Elements(entries), commits));
        MarkRows(failed, RowFailed);
      } else {
        relayed := {};
      }
    }

    method DrainCircuitDeferred(entries: seq<Deferral>) returns (drained: nat)
      requires draining == {} && leaving == map[]
      modifies this`jobs, this`downloadQueue, this`deferredSet
      ensures View() == DrainPass(old(View()), entries)
      ensures drained == DrainCount(old(View()), entries)
    {
      drained := 0;
      ghost var s0 := View();
      for i := 0 to |entries|
        invariant View() == DrainPass(s0, entries[..i])
        invariant drained == DrainCount(s0, entries[..i])
      {
        NextDeferral(s0, entries, i);
        if entries[i].accepts {
          var put := DrainOne(entries[i]);
          drained := drained + put;
        }
      }
      assert entries[..|entries|] == entries;
    }

    method DrainOne(e: Deferral) returns (put: nat)
      requires draining == {} && leaving == map[] && e.accepts
      modifies this`jobs, this`downloadQueue, this`deferredSet
      ensures View() == DrainEntry(old(View()), e)
      ensures put == if Drains(old(View()), e) then 1 else 0
    {
      DrainEntryResult(View(), e);
      put := 0;
      if !(e.job in jobs && jobs[e.job].status == Deferred) {
        var removed := RemoveMember((e.service, e.job), e.forget);
        return;
      }
      var enqueued := PushToDownloadQueue(e.job, e.reply);
      if enqueued && e.commits {
        jobs := jobs[e.job := jobs[e.job].(status := Pending, updatedAt := now)];
        var removed := RemoveMember((e.service, e.job), e.forget);
        if removed {
          put := 1;
        }
      }
    }

    /** ZREM; a failure after the commit leaves the job drained but not counted. */
    method RemoveMember(entry: (string, JobId), reply: Reply) returns (removed: bool)
      modifies this`deferredSet
      ensures deferredSet == if reply.Refused? then old(deferredSet) else old(deferredSet) - {entry}
      ensures removed == Acknowledged(reply)
    {
      if !reply.Refused? {
        deferredSet := deferredSet - {entry};
      }
      removed := Acknowledged(reply);
    }

    method RecoveryRowsFor(ids: seq<RowId>, order: seq<JobId>) returns (added: map<RowId, Row>)
      requires |ids| == |order|
      ensures added == RecoveryRows(Pairs(ids, order))
    {
      added := map[];
      for i := 0 to |order|
        invariant added == RecoveryRows(Pairs(ids[..i], order[..i]))
      {
        added := added[ids[i] := Row(order[i], ZombieRecovery, RowPending, None)];
        assert ids[..i + 1][..i] == ids[..i] && order[..i + 1][..i] == order[..i];
      }
      assert ids[..|ids|] == ids && order[..|ids|] == order;
    }

    /** Whether the unique index would reject a new pending row for some job in `order`. */
    method IndexRejects(order: seq<JobId>) returns (rejected: bool)
      ensures rejected <==> exists j | j in order :: HasPendingRow(View(), j)
    {
      rejected := false;
      for i := 0 to |order|
        invariant !rejected <==> forall k | 0 <= k < i :: !HasPendingRow(View(), order[k])
      {
        if exists r | r in outbox :: outbox[r].job == order[i] && outbox[r].status.RowPending? {
          assert exists r | r in outbox :: PendingRow(View(), r, order[i]);
          rejected := true;
        } else {
          assert forall r | r in outbox :: !PendingRow(View(), r, order[i]);
        }
      }
    }

    /** Requeue every stuck job with its own outbox row, in one commit or not at all. */
    method RequeueStuckJobs(order: seq<JobId>, ids: seq<RowId>) returns (requeued: nat)
      requires SweepOrder(View(), ids, order)
      modifies this`jobs, this`outbox
      ensures View() == ApplyRequeue(old(View()), Sweep(Pairs(ids, order)))
      ensures requeued == if SweepCommits(old(View()), Pairs(ids, order)) then |order| else 0
    {
      SweepVerdict(View(), ids, order);
      SweepResult(View(), ids, order);
      var swept := map j | j in jobs :: if j in order then jobs[j].(status := Pending, updatedAt := now) else jobs[j];
      var added := RecoveryRowsFor(ids, order);
      var rejected := IndexRejects(order);
      if rejected {
        return 0;
      }
      jobs, outbox := swept, outbox + added;
      requeued := |order|;
    }

    /** The release script: take the due entries out of the retry queue and LPUSH them one by one. */
    method ReleaseDue(due: seq<JobId>)
      requires IsDueBatch(View(), due)
      modifies this`retryQueue, this`downloadQueue
      ensures View() == Released(old(View()), due)
    {
      retryQueue := retryQueue - (set j | j in due);
      ghost var before := downloadQueue;
      for i := 0 to |due|
        invariant downloadQueue == Reversed(due[..i]) + before
        invariant retryQueue == old(retryQueue) - (set j | j in due)
      {
        ReversedSnoc(due[..i], due[i]);
        assert due[..i + 1] == due[..i] + [due[i]];
        downloadQueue := [due[i]] + downloadQueue;
      }
      assert due[..|due|] == due;
    }

    /** DELETE the closed rows older than a day. */
    method CleanUpOutbox()
      modifies this`outbox
      ensures View() == CleanedUp(old(View()))
    {
      outbox := map r | r in outbox
                       && !(!outbox[r].status.RowPending? && outbox[r].processedAt.Some?
                            && outbox[r].processedAt.value < now - ROW_RETENTION) :: outbox[r];
    }

    /** Start a job unless the pool is full; at capacity the id would be thrown away. */
    method SpawnIfCapacity(j: JobId, t: TaskId, concurrency: nat)
      modifies this`tasks
      ensures tasks == if |old(tasks)| >= concurrency then old(tasks) else old(tasks)[t := Popped(j)]
    {
      if |tasks| >= concurrency {
        return;
      }
      tasks := tasks[t := Popped(j)];
    }

    /** RPOP one id and start it in slot `t`. */
    method PopAndSpawn(t: TaskId, concurrency: nat)
      requires t !in tasks && downloadQueue != [] && |tasks| < concurrency
      modifies this`tasks, this`downloadQueue
      ensures View() == PoppedOne(old(View()), t)
      ensures tasks.Keys == old(tasks).Keys + {t} && |tasks| == |old(tasks)| + 1
    {
      var j := downloadQueue[|downloadQueue| - 1];
      downloadQueue := downloadQueue[..|downloadQueue| - 1];
      SpawnIfCapacity(j, t, concurrency);
    }

    /** One turn of the loop that fills the pool, which has popped into the first `popped` slots so far. */
    method PopNext(ghost s0: State, slots: seq<TaskId>, popped: nat, concurrency: nat)
      requires popped < |slots| && Distinct(slots) && FreeFrom(slots, popped, tasks.Keys)
      requires View() == PopAll(s0, slots[..popped]) && downloadQueue != [] && |tasks| < concurrency
      modifies this`tasks, this`downloadQueue
      ensures View() == PopAll(s0, slots[..popped + 1])
      ensures FreeFrom(slots, popped + 1, tasks.Keys) && |tasks| == |old(tasks)| + 1
    {
      NextPop(s0, slots, popped);
      StillFree(slots, popped, tasks.Keys);
      PopAndSpawn(slots[popped], concurrency);
    }

    /** An id popped at the moment of shutdown goes back to the list. */
    method PopAndPushBack(ghost t: TaskId)
      requires t !in tasks
      modifies this`downloadQueue
      ensures View() == PushedBack(PoppedOne(old(View()), t), t, Delivered)
    {
      if downloadQueue != [] {
        var last := downloadQueue[|downloadQueue| - 1];
        downloadQueue := [last] + downloadQueue[..|downloadQueue| - 1];
      }
      assert tasks == tasks[t := Popped(0)] - {t};
    }

    /** Pop ids into free slots until the pool is full, the list is empty, or shutdown is seen on the
        `shutdownAt`-th turn; an id popped at that moment is pushed back. No popped id is dropped. */
    method DrainQueueIntoPool(concurrency: nat, slots: seq<TaskId>, shutdownAt: nat) returns (popped: nat)
      requires |slots| >= concurrency && Distinct(slots) && FreeFrom(slots, 0, tasks.Keys)
      modifies this`tasks, this`downloadQueue
      ensures popped <= |slots| && popped <= shutdownAt
      ensures var s := PopAll(old(View()), slots[..popped]);
        if popped == shutdownAt && |s.tasks| < concurrency
        then popped < |slots| && View() == PushedBack(PoppedOne(s, slots[popped]), slots[popped], Delivered)
        else View() == s && (|tasks| >= concurrency || downloadQueue == [])
      ensures |old(tasks)| <= concurrency ==> |tasks| <= concurrency
    {
      popped := 0;
      ghost var s0 := View();
      while |tasks| < concurrency
        invariant popped <= |slots| && popped <= shutdownAt
        invariant View() == PopAll(s0, slots[..popped])
        invariant |tasks| == |s0.tasks| + popped && (popped == 0 || |tasks| <= concurrency)
        invariant FreeFrom(slots, popped, tasks.Keys)
        decreases |slots| - popped
      {
        if popped == shutdownAt {
          PopAndPushBack(slots[popped]);
          return;
        }
        if downloadQueue == [] {
          return;
        }
        PopNext(s0, slots, popped, concurrency);
        popped := popped + 1;
      }
    }

    /** UPDATE ... SET status = 'processing' WHERE id AND status = 'pending' RETURNING the row. */
    method ClaimNext(t: TaskId) returns (claimed: bool)
      requires t in tasks && tasks[t].Popped?
      modifies this`jobs, this`tasks
      ensures View() == Claimed(old(View()), t)
      ensures claimed == HasStatus(old(View()), old(tasks)[t].job, Pending)
    {
      var j := tasks[t].job;
      claimed := j in jobs && jobs[j].status == Pending;
      if claimed {
        var job := jobs[j].(status := Processing, updatedAt := now);
        jobs := jobs[j := job];
        tasks := tasks[t := Running(j, job.retryCount, job.maxRetries, None)];
      } else {
        tasks := tasks - {t};
      }
    }

    /** The end of a run whose download succeeded: it completes the job if the job is still its own,
        and deletes its own file otherwise. */
    method FinishDownload(t: TaskId) returns (completed: bool)
      requires RunsTask(View(), t) && tasks[t].file.Some?
      modifies this`jobs, this`tasks, this`disk
      ensures View() == CompletedRun(old(View()), t)
      ensures completed == HasStatus(old(View()), old(tasks)[t].job, Processing)
    {
      var task := tasks[t];
      completed := task.job in jobs && jobs[task.job].status == Processing;
      if completed {
        jobs := jobs[task.job := jobs[task.job].(status := Completed, filePath := task.file, updatedAt := now)];
        tasks := tasks[t := Ending(task.job, 2)];
      } else {
        disk := disk - {task.file.value};
        tasks := tasks - {t};
      }
    }

    /** A heartbeat stamps the row whatever the row's status is by now and whoever has claimed it. */
    method Heartbeat(t: TaskId)
      requires Beats(View(), t)
      modifies this`jobs
      ensures View() == Beaten(old(View()), t)
      ensures jobs.Keys == old(jobs).Keys
      ensures forall j | j in jobs ::
                if j == tasks[t].job then jobs[j].updatedAt == now && jobs[j].(updatedAt := 0) == old(jobs)[j].(updatedAt := 0)
                else jobs[j] == old(jobs)[j]
    {
      var j := tasks[t].job;
      if j in jobs {
        jobs := jobs[j := jobs[j].(updatedAt := now)];
      }
    }

    /** The guarded failure; its dead-letter row comes in a second commit. */
    method MarkFailed(t: TaskId, c: RetryPolicy.Category) returns (failed: bool)
      requires RunsTask(View(), t) && RetryPolicy.IsFinal(c, tasks[t].retryCount, tasks[t].maxRetries)
      modifies this`jobs, this`tasks
      ensures View() == FailedRun(old(View()), t, c)
      ensures failed == HasStatus(old(View()), old(tasks)[t].job, Processing)
    {
      var j := tasks[t].job;
      failed := j in jobs && jobs[j].status == Processing;
      if failed {
        jobs := jobs[j := jobs[j].(status := Failed, updatedAt := now)];
        tasks := tasks[t := Burying(j)];
      } else {
        tasks := tasks - {t};
      }
    }

    method MoveToDlq(t: TaskId)
      requires t in tasks && tasks[t].Burying?
      modifies this`tasks, this`failedJobs
      ensures View() == Buried(old(View()), t)
    {
      failedJobs := failedJobs + multiset{tasks[t].job};
      tasks := tasks[t := Ending(tasks[t].job, 1)];
    }

    /** The guarded deferral, then the entry of the deferred set, which may not get through. */
    method HandleCircuitOpen(t: TaskId, service: string, delivered: bool)
      requires RunsTask(View(), t)
      modifies this`jobs, this`tasks, this`deferredSet
      ensures View() == Recorded(DeferredRun(old(View()), t, service), t, delivered)
    {
      var j := tasks[t].job;
      if j in jobs && jobs[j].status == Processing {
        jobs := jobs[j := jobs[j].(status := Deferred, updatedAt := now)];
        if delivered {
          deferredSet := deferredSet + {(service, j)};
        }
        tasks := tasks[t := Ending(j, 1)];
      } else {
        tasks := tasks - {t};
      }
    }

    method RowExists(j: JobId) returns (found: bool)
      ensures found == HasPendingRow(View(), j)
    {
      found := exists r | r in outbox :: outbox[r].job == j && outbox[r].status.RowPending?;
      assert found ==> exists r | r in outbox :: PendingRow(View(), r, j);
      assert !found ==> forall r | r in outbox :: !PendingRow(View(), r, j);
    }

    /** First transaction of `schedule_retry`: the guarded update and the new row commit together. */
    method PersistRetry(t: TaskId, c: RetryPolicy.Category, r: RowId, at: Time) returns (persisted: bool)
      requires RunsTask(View(), t) && FreshRow(View(), r)
      requires !RetryPolicy.IsFinal(c, tasks[t].retryCount, tasks[t].maxRetries)
      modifies this`jobs, this`outbox, this`tasks
      ensures View() == Retried(old(View()), t, c, r, at)
      ensures persisted == (HasStatus(old(View()), old(tasks)[t].job, Processing) && !HasPendingRow(old(View()), old(tasks)[t].job))
      ensures tasks == if persisted then old(tasks)[t := Scheduling(old(tasks)[t].job, r, at, false)] else old(tasks) - {t}
      ensures retryQueue == old(retryQueue)
    {
      var task := tasks[t];
      var j := task.job;
      var duplicate := RowExists(j);
      persisted := j in jobs && jobs[j].status == Processing && !duplicate;
      if persisted {
        jobs := jobs[j := jobs[j].(status := Pending, retryCount := task.retryCount + 1,
                                   nextRetryAt := Some(at), updatedAt := now)];
        outbox := outbox[r := Row(j, RetryScheduled(NextRetryAt(at)), RowPending, None)];
        tasks := tasks[t := Scheduling(j, r, at, false)];
      } else {
        tasks := tasks - {t};
      }
    }

    /** The push of a persisted retry, and the commit behind it if the push has added the entry. */
    method DeliverRetry(t: TaskId, reply: Reply, commits: bool) returns (enqueued: bool)
      requires t in tasks && tasks[t].Scheduling? && !tasks[t].pushed
      modifies this
      ensures View() == ScheduleAcked(SchedulePushed(old(View()), t, reply), t, commits)
      ensures tasks == old(tasks)[t := Ending(old(tasks)[t].job, 1)]
      ensures enqueued == AddsRetry(old(retryQueue), old(tasks)[t].job, reply)
    {
      ghost var s1 := View();
      var task := tasks[t];
      enqueued := PushToRetryQueue(task.job, task.at, reply);
      if enqueued {
        assert SchedulePushed(s1, t, reply) == View().(tasks := tasks[t := task.(pushed := true)]);
        if commits {
          MarkRows({task.row}, RowProcessed);
        }
      }
      tasks := tasks[t := Ending(task.job, 1)];
    }

    method ScheduleRetry(t: TaskId, c: RetryPolicy.Category, r: RowId, at: Time, reply: Reply, commits: bool)
      returns (enqueued: bool)
      requires RunsTask(View(), t) && FreshRow(View(), r)
      requires !RetryPolicy.IsFinal(c, tasks[t].retryCount, tasks[t].maxRetries)
      modifies this
      ensures View() == ScheduleAcked(SchedulePushed(Retried(old(View()), t, c, r, at), t, reply), t, commits)
      ensures t in tasks ==> tasks[t].Ending?
      ensures enqueued ==
        (HasStatus(old(View()), old(tasks)[t].job, Processing) && !HasPendingRow(old(View()), old(tasks)[t].job)
         && AddsRetry(old(retryQueue), old(tasks)[t].job, reply))
    {
      enqueued := false;
      var persisted := PersistRetry(t, c, r, at);
      if persisted {
        enqueued := DeliverRetry(t, reply, commits);
      }
    }

    /** `requeue_job`: the row is inserted whatever the status is, and a rejected insert, which is what
        the caller sees as an exception, undoes everything. */
    method RequeueJob(j: JobId, r: RowId) returns (inserted: bool, requeued: bool)
      modifies this`jobs, this`outbox
      ensures inserted == !HasPendingRow(old(View()), j)
      ensures View() == if inserted then Readmitted(old(View()), j, r) else old(View())
      ensures requeued == (inserted && HasStatus(old(View()), j, Processing))
    {
      requeued := false;
      var duplicate := RowExists(j);
      inserted := !duplicate;
      if inserted {
        outbox := outbox[r := Row(j, RetryScheduled(NextRetryAt(now)), RowPending, None)];
        requeued := j in jobs && jobs[j].status == Processing;
        if requeued {
          jobs := jobs[j := jobs[j].(status := Pending, updatedAt := now)];
        }
      }
    }

    /** A run that gives its job back of its own accord: at shutdown, or under a throttle risk. */
    method GiveBack(t: TaskId, r: RowId)
      requires RunsTask(View(), t) && FreshRow(View(), r)
      modifies this`jobs, this`outbox, this`tasks, this`disk
      ensures View() == Requeued(old(View()), t, r)
    {
      var task := tasks[t];
      var inserted, requeued := RequeueJob(task.job, r);
      if inserted {
        if task.file.Some? {
          disk := disk - {task.file.value};
        }
        tasks := tasks[t := Ending(task.job, 2)];
      } else {
        tasks := tasks - {t};
      }
    }

    /** One handler of a cancelled task. */
    method HandleCancellation(t: TaskId, r: RowId)
      requires CanCancel(View(), t, r)
      modifies this`jobs, this`outbox, this`tasks
      ensures View() == Cancelled(old(View()), t, r)
    {
      var task := tasks[t];
      var inserted, requeued := RequeueJob(task.job, r);
      if inserted {
        tasks := tasks[t := Ending(task.job, Handlers(task) - 1)];
      } else {
        tasks := tasks - {t};
      }
    }

    /** A cancelled task with nobody in between: its handlers one inside the other, until one of them
        fails. The second finds the row of the first, so that the job is requeued once. */
    method CancelTask(t: TaskId, r: RowId, again: RowId)
      requires CanCancel(View(), t, r) && FreshRow(View(), again) && r != again && Handlers(tasks[t]) <= 2
      modifies this`jobs, this`outbox, this`tasks
      ensures View() == EndTask(Cancelled(old(View()), t, r), t)
    {
      ghost var s0 := View();
      HandleCancellation(t, r);
      if t in tasks && Handlers(tasks[t]) > 0 {
        assert PendingRow(View(), r, tasks[t].job);
        assert CanCancel(View(), t, again);
        HandleCancellation(t, again);
      }
      tasks := tasks - {t};
      assert (Cancelled(s0, t, r).tasks - {t}) - {t} == Cancelled(s0, t, r).tasks - {t};
    }
  }

  // The passes are runs of the pipeline.

  ghost predicate Reaches(s: State, s': State) {
    exists run :: Run(s, run) == s'
  }

  lemma ReachesStep(s: State, s1: State, l: Label)
    requires Reaches(s, s1)
    ensures Reaches(s, Apply(s1, l))
  {
    var run :| Run(s, run) == s1;
    RunSnoc(s, run, l);
  }

  lemma ReachesSelf(s: State)
    ensures Reaches(s, s)
  {
    assert Run(s, []) == s;
  }

  lemma {:induction false} PushAllReaches(s: State, entries: seq<RowId>, replies: seq<Reply>)
    requires |entries| == |replies|
    ensures Reaches(s, PushAll(s, entries, replies))
  {
    if entries == [] {
      ReachesSelf(s);
    } else {
      var n := |entries| - 1;
      PushAllReaches(s, entries[..n], replies[..n]);
      ReachesStep(s, PushAll(s, entries[..n], replies[..n]), Relay(RelayPush(entries[n], replies[n])));
    }
  }

  /** Rejecting undeliverable rows one at a time closes the set of them. */
  lemma RejectsReach(s: State, s1: State, rows: set<RowId>)
    requires Reaches(s, s1)
    requires forall r | r in rows :: r in s1.outbox && s1.outbox[r].status.RowPending? && !Usable(s1.outbox[r].event)
    ensures Reaches(s, s1.(outbox := Closed(s1, rows, RowFailed)))
    decreases |rows|
  {
    if rows == {} {
      assert Closed(s1, rows, RowFailed) == s1.outbox;
    } else {
      var r :| r in rows;
      var s2 := ApplyRelay(s1, RelayReject(r));
      ReachesStep(s, s1, Relay(RelayReject(r)));
      RejectsReach(s, s2, rows - {r});
      assert Closed(s2, rows - {r}, RowFailed) == Closed(s1, rows, RowFailed);
    }
  }

  lemma {:induction false} PushAllOutbox(s: State, entries: seq<RowId>, replies: seq<Reply>)
    requires |entries| == |replies|
    ensures PushAll(s, entries, replies).outbox == s.outbox
    ensures forall r | r in PushAll(s, entries, replies).relayed :: r in s.relayed || (r in s.outbox && Usable(s.outbox[r].event))
  {
    if entries != [] {
      PushAllOutbox(s, entries[..|entries| - 1], replies[..|entries| - 1]);
    }
  }

  /** A relay pass reaches its result by pipeline steps alone. */
  lemma RelayPassIsRun(s: State, entries: seq<RowId>, replies: seq<Reply>, commits: bool)
    requires |entries| == |replies| && s.relayed == {}
    requires forall k | 0 <= k < |entries| :: CanPush(s, entries[k])
    ensures Reaches(s, RelayPass(s, entries, replies, commits))
  {
    PushAllReaches(s, entries, replies);
    PushAllOutbox(s, entries, replies);
    var s0 := PushAll(s, entries, replies);
    ReachesStep(s, s0, Relay(RelayAck(Elements(entries), commits)));
    if commits {
      var s1 := ApplyRelay(s0, RelayAck(Elements(entries), commits));
      RejectsReach(s, s1, Undeliverable(s, entries));
    }
  }

  /** So does a drain pass. */
  lemma {:induction false} DrainPassIsRun(s: State, entries: seq<Deferral>)
    ensures Reaches(s, DrainPass(s, entries))
  {
    if entries == [] {
      ReachesSelf(s);
    } else {
      var e := entries[|entries| - 1];
      var s0 := DrainPass(s, entries[..|entries| - 1]);
      DrainPassIsRun(s, entries[..|entries| - 1]);
      DrainEntryReaches(s, s0, e);
    }
  }

  lemma DrainEntryReaches(s: State, s0: State, e: Deferral)
    requires Reaches(s, s0)
    ensures Reaches(s, DrainEntry(s0, e))
  {
    if e.accepts {
      var s1 := ApplyDrain(s0, DrainStale(OWN, e.service, e.job));
      var s2 := ApplyDrain(s1, DrainForget(OWN, e.forget));
      var s3 := ApplyDrain(s2, DrainPush(e.service, e.job, e.reply));
      var s4 := ApplyDrain(s3, DrainCommit(OWN, e.service, e.job, e.commits));
      ReachesStep(s, s0, Drain(DrainStale(OWN, e.service, e.job)));
      ReachesStep(s, s1, Drain(DrainForget(OWN, e.forget)));
      ReachesStep(s, s2, Drain(DrainPush(e.service, e.job, e.reply)));
      ReachesStep(s, s3, Drain(DrainCommit(OWN, e.service, e.job, e.commits)));
      ReachesStep(s, s4, Drain(DrainForget(OWN, e.forget)));
    }
  }

  lemma PopHandsOut(s: State, t: TaskId)
    requires t !in s.tasks && s.downloadQueue != []
    ensures var s' := PoppedOne(s, t); var n := |s.downloadQueue| - 1;
      s'.downloadQueue == s.downloadQueue[..n] && s'.tasks == s.tasks[t := Popped(s.downloadQueue[n])]
  {
  }

  /** The tasks once `queue` has been handed out from its back to `slots`. */
  function HandOut(tasks: map<TaskId, Task>, queue: seq<JobId>, slots: seq<TaskId>): map<TaskId, Task>
    requires |slots| <= |queue|
  {
    if slots == [] then tasks
    else
      var m := |slots| - 1;
      HandOut(tasks, queue, slots[..m])[slots[m] := Popped(queue[|queue| - 1 - m])]
  }

  lemma {:induction false} HandOutKeys(tasks: map<TaskId, Task>, queue: seq<JobId>, slots: seq<TaskId>)
    requires |slots| <= |queue|
    ensures HandOut(tasks, queue, slots).Keys == tasks.Keys + Elements(slots)
  {
    if slots != [] {
      var m := |slots| - 1;
      HandOutKeys(tasks, queue, slots[..m]);
      assert slots == slots[..m] + [slots[m]];
    }
  }

  lemma {:induction false} HandOutAt(tasks: map<TaskId, Task>, queue: seq<JobId>, slots: seq<TaskId>, i: nat)
    requires i < |slots| <= |queue| && Distinct(slots)
    ensures slots[i] in HandOut(tasks, queue, slots)
    ensures HandOut(tasks, queue, slots)[slots[i]] == Popped(queue[|queue| - 1 - i])
    decreases |slots|
  {
    var m := |slots| - 1;
    if i < m {
      HandOutAt(tasks, queue, slots[..m], i);
    }
  }

  lemma {:induction false} HandOutKeeps(tasks: map<TaskId, Task>, queue: seq<JobId>, slots: seq<TaskId>, t: TaskId)
    requires |slots| <= |queue| && t in tasks && t !in slots
    ensures t in HandOut(tasks, queue, slots) && HandOut(tasks, queue, slots)[t] == tasks[t]
  {
    if slots != [] {
      HandOutKeeps(tasks, queue, slots[..|slots| - 1], t);
    }
  }

  lemma {:induction false} PopAllIsHandOut(s: State, slots: seq<TaskId>)
    requires |slots| <= |s.downloadQueue| && Distinct(slots) && Elements(slots) !! s.tasks.Keys
    ensures PopAll(s, slots).downloadQueue == s.downloadQueue[..|s.downloadQueue| - |slots|]
    ensures PopAll(s, slots).tasks == HandOut(s.tasks, s.downloadQueue, slots)
  {
    if slots != [] {
      var m := |slots| - 1;
      var t := slots[m];
      assert t in slots && t in Elements(slots) && Elements(slots[..m]) <= Elements(slots) && t !in slots[..m];
      PopAllIsHandOut(s, slots[..m]);
      HandOutKeys(s.tasks, s.downloadQueue, slots[..m]);
      PopHandsOut(PopAll(s, slots[..m]), t);
    }
  }

  /** Popping hands every id from the back of the list to a task, in order, and leaves every other task. */
  lemma PopAllHandsOut(s: State, slots: seq<TaskId>, i: nat, t: TaskId)
    requires i < |slots| <= |s.downloadQueue| && Distinct(slots) && Elements(slots) !! s.tasks.Keys && t in s.tasks
    ensures var s' := PopAll(s, slots); var n := |s.downloadQueue|;
      && s'.downloadQueue == s.downloadQueue[..n - |slots|]
      && s'.tasks.Keys == s.tasks.Keys + Elements(slots)
      && s'.tasks[t] == s.tasks[t]
      && slots[i] in s'.tasks && s'.tasks[slots[i]] == Popped(s.downloadQueue[n - 1 - i])
  {
    PopAllIsHandOut(s, slots);
    HandOutKeys(s.tasks, s.downloadQueue, slots);
    HandOutAt(s.tasks, s.downloadQueue, slots, i);
    assert t !in slots by { assert t in slots ==> t in Elements(slots); }
    HandOutKeeps(s.tasks, s.downloadQueue, slots, t);
  }
}
