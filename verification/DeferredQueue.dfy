/** When an entry leaves the deferred set while its job is still deferred. A drain first asks or changes
    the database and removes the entry from the set in a later command; whatever falls in between can
    defer the job once more, and the removal then takes the new deferral's entry. */
module DeferredQueue {
  import opened Prelude
  import opened Pipeline
  import opened NoLostJob
  import Worker

  type Entry = (string, JobId)

  /** Step `l` commits a deferral of `j`. */
  predicate Defers(s: State, l: Label, j: JobId) {
    l.Work? && l.work.Defer? && RunsTask(s, l.work.task) && s.tasks[l.work.task].job == j && HasStatus(s, j, Processing)
  }

  /** Step `l` takes `j` out of `deferred`. */
  predicate Resumes(s: State, l: Label, j: JobId) {
    match l
    case Api(UserRetry(call, r)) => RetriesNow(s, call, r, j)
    case Api(Replay(k, r)) => k == j && CanReplay(s, j, r)
    case Drain(DrainCommit(_, _, k, commits)) => k == j && j in s.draining && commits
    case _ => false
  }

  predicate DeferredAfter(s: State, l: Label, j: JobId) {
    Defers(s, l, j) || (HasStatus(s, j, Deferred) && !Resumes(s, l, j))
  }

  lemma CreateChange(s: State, k: JobId, r: RowId, m: nat, j: JobId)
    ensures HasStatus(Created(s, k, r, m), j, Deferred) <==> HasStatus(s, j, Deferred)
  {
  }

  lemma ResetChange(s: State, seen: Seen, r: RowId, j: JobId)
    requires seen.job in s.jobs
    ensures HasStatus(ResetAndEnqueue(s, seen, r), j, Deferred) <==> HasStatus(s, j, Deferred) && j != seen.job
  {
  }

  lemma ApiChange(s: State, a: ApiStep, j: JobId)
    ensures HasStatus(ApplyApi(s, a), j, Deferred) <==> DeferredAfter(s, Api(a), j)
  {
    match a
    case Create(k, r, m) => CreateChange(s, k, r, m, j);
    case AskRetry(_, _) =>
    case UserRetry(call, r) => if CanUserRetry(s, call, r) { ResetChange(WithoutCall(s, call), s.desk.retrying[call], r, j); }
    case Replay(k, r) => if CanReplay(s, k, r) { ResetChange(WithoutDead(s, k), Seen(k, true, true), r, j); }
    case ReplayAnew(i, k, r, m) => CreateChange(WithoutDead(s, i), k, r, m, j);
  }

  lemma RunChange(s: State, a: RunStep, j: JobId)
    ensures HasStatus(ApplyRun(s, a), j, Deferred) <==> DeferredAfter(s, Work(a), j)
  {
  }

  lemma QueueChange(s: State, a: QueueStep, j: JobId)
    ensures HasStatus(ApplyQueue(s, a), j, Deferred) <==> HasStatus(s, j, Deferred)
  {
  }

  lemma BackChange(s: State, a: RequeueStep, j: JobId)
    ensures HasStatus(ApplyRequeue(s, a), j, Deferred) <==> HasStatus(s, j, Deferred)
  {
  }

  lemma DrainChange(s: State, a: DrainStep, j: JobId)
    ensures HasStatus(ApplyDrain(s, a), j, Deferred) <==> DeferredAfter(s, Drain(a), j)
  {
  }

  lemma StatusChange(s: State, l: Label, j: JobId)
    ensures HasStatus(Apply(s, l), j, Deferred) <==> DeferredAfter(s, l, j)
  {
    match l
    case Tick(_) =>
    case Api(a) => ApiChange(s, a, j);
    case Relay(a) => RelayKeepsJobs(s, a);
    case Queue(a) => QueueChange(s, a, j);
    case Work(a) => RunChange(s, a, j);
    case Back(a) => BackChange(s, a, j);
    case Drain(a) => DrainChange(s, a, j);
  }

  lemma RelayKeepsJobs(s: State, a: RelayStep)
    ensures ApplyRelay(s, a).jobs == s.jobs
  {
  }

  /** Some step of the run defers `j`, and none behind it takes `j` out of `deferred` again. */
  ghost predicate DeferredWithin(s: State, run: seq<Label>, j: JobId) {
    run != [] &&
    var n := |run| - 1;
    Defers(Run(s, run[..n]), run[n], j) || (DeferredWithin(s, run[..n], j) && !Resumes(Run(s, run[..n]), run[n], j))
  }

  lemma {:induction false} DeferredWithinIsStatus(s: State, run: seq<Label>, j: JobId)
    requires !HasStatus(s, j, Deferred)
    ensures HasStatus(Run(s, run), j, Deferred) <==> DeferredWithin(s, run, j)
  {
    if run != [] {
      var n := |run| - 1;
      RunLast(s, run);
      DeferredWithinIsStatus(s, run[..n], j);
      StatusChange(Run(s, run[..n]), run[n], j);
    }
  }

  // Drains in the middle of an entry.

  /** Drain `d` has seen to the entry's job in the database: its update matched no row, or its commit
      went through. */
  predicate Opens(s: State, l: Label, d: DrainId, entry: Entry) {
    && d !in s.deferred.leaving
    && match l
       case Drain(DrainStale(e, service, j)) => e == d && entry == (service, j) && !HasStatus(s, j, Deferred)
       case Drain(DrainCommit(e, service, j, commits)) =>
         e == d && entry == (service, j) && j in s.draining && commits && HasStatus(s, j, Deferred)
       case _ => false
  }

  /** Drain `d` comes to its ZREM. */
  predicate Closes(l: Label, d: DrainId) {
    l.Drain? && l.drain.DrainForget? && l.drain.drain == d
  }

  lemma OtherStepsKeepLeaving(s: State, l: Label)
    requires !l.Drain?
    ensures Apply(s, l).deferred.leaving == s.deferred.leaving
    ensures s.deferred.members <= Apply(s, l).deferred.members
  {
    match l
    case Tick(_) =>
    case Api(a) => ApiKeepsDeferred(s, a);
    case Relay(a) =>
    case Queue(a) => QueueKeepsDeferred(s, a);
    case Work(a) => RunKeepsLeaving(s, a);
    case Back(a) => BackKeepsDeferred(s, a);
  }

  lemma ApiKeepsDeferred(s: State, a: ApiStep)
    ensures ApplyApi(s, a).deferred == s.deferred
  {
  }

  lemma QueueKeepsDeferred(s: State, a: QueueStep)
    ensures ApplyQueue(s, a).deferred == s.deferred
  {
  }

  lemma RunKeepsLeaving(s: State, a: RunStep)
    ensures ApplyRun(s, a).deferred.leaving == s.deferred.leaving
    ensures s.deferred.members <= ApplyRun(s, a).deferred.members
  {
  }

  lemma BackKeepsDeferred(s: State, a: RequeueStep)
    ensures ApplyRequeue(s, a).deferred == s.deferred
  {
  }

  ghost predicate IsLeaving(s: State, d: DrainId, entry: Entry) {
    d in s.deferred.leaving && s.deferred.leaving[d] == entry
  }

  /** The entry drain `d` is about to remove appears with its opening and stays till its removal. */
  lemma LeavingStep(s: State, l: Label, d: DrainId, entry: Entry)
    ensures IsLeaving(Apply(s, l), d, entry) <==> Opens(s, l, d, entry) || (IsLeaving(s, d, entry) && !Closes(l, d))
  {
    match l
    case Drain(a) => DrainLeavingStep(s, a, d, entry);
    case _ => OtherStepsKeepLeaving(s, l);
  }

  lemma DrainLeavingStep(s: State, a: DrainStep, d: DrainId, entry: Entry)
    ensures IsLeaving(ApplyDrain(s, a), d, entry) <==>
            Opens(s, Drain(a), d, entry) || (IsLeaving(s, d, entry) && !Closes(Drain(a), d))
  {
  }

  lemma OnlyRemovalsRemove(s: State, l: Label, entry: Entry)
    requires entry in s.deferred.members
    ensures entry !in Apply(s, l).deferred.members <==>
      l.Drain? && l.drain.DrainForget? && !l.drain.reply.Refused?
      && l.drain.drain in s.deferred.leaving && s.deferred.leaving[l.drain.drain] == entry
  {
    if !l.Drain? {
      OtherStepsKeepLeaving(s, l);
    }
  }

  /** The step is the successful record of a deferral, or the reconciliation of a deferred job. */
  predicate Records(s: State, l: Label, entry: Entry) {
    match l
    case Work(Record(t, delivered)) => delivered && t in s.tasks && s.tasks[t] == Recording(entry.1, entry.0)
    case Drain(Reconcile(service, j)) => entry == (service, j) && HasStatus(s, j, Deferred)
    case _ => false
  }

  lemma OnlyRecordsAdd(s: State, l: Label, entry: Entry)
    requires entry !in s.deferred.members
    ensures entry in Apply(s, l).deferred.members <==> Records(s, l, entry)
  {
    match l
    case Api(a) => ApiKeepsDeferred(s, a);
    case Queue(a) => QueueKeepsDeferred(s, a);
    case Back(a) => BackKeepsDeferred(s, a);
    case Work(a) => RunRecords(s, a, entry);
    case Drain(a) => DrainRecords(s, a, entry);
    case _ =>
  }

  lemma RunRecords(s: State, a: RunStep, entry: Entry)
    requires entry !in s.deferred.members
    ensures entry in ApplyRun(s, a).deferred.members <==> Records(s, Work(a), entry)
  {
  }

  lemma DrainRecords(s: State, a: DrainStep, entry: Entry)
    requires entry !in s.deferred.members
    ensures entry in ApplyDrain(s, a).deferred.members <==> Records(s, Drain(a), entry)
  {
  }

  /** Drain `d` has opened `entry` with the `i`-th step of a run and not come to its ZREM since. */
  ghost predicate OpenSince(run: seq<Label>, i: nat, d: DrainId, entry: Entry) {
    && i < |run|
    && Opens(Run(Init, run[..i]), run[i], d, entry)
    && forall k | i < k < |run| :: !Closes(run[k], d)
  }

  /** A run has an open drain of the entry if its last step opens one, or if it had one and the last
      step does not close it. */
  lemma OpenSinceLast(run: seq<Label>, d: DrainId, entry: Entry)
    requires run != []
    ensures var n := |run| - 1;
      (exists i: nat :: OpenSince(run, i, d, entry)) <==>
      Opens(Run(Init, run[..n]), run[n], d, entry)
      || (!Closes(run[n], d) && exists i: nat :: OpenSince(run[..n], i, d, entry))
  {
    var n := |run| - 1;
    if Opens(Run(Init, run[..n]), run[n], d, entry) {
      assert OpenSince(run, n, d, entry);
    }
    forall i: nat | i < n ensures OpenSince(run, i, d, entry) <==> OpenSince(run[..n], i, d, entry) && !Closes(run[n], d) {
      assert run[..n][..i] == run[..i];
    }
  }

  lemma {:induction false} OpenIsLeaving(run: seq<Label>, d: DrainId, entry: Entry)
    ensures IsLeaving(Run(Init, run), d, entry) <==> exists i: nat :: OpenSince(run, i, d, entry)
  {
    if run != [] {
      var n := |run| - 1;
      RunLast(Init, run);
      OpenIsLeaving(run[..n], d, entry);
      OpenSinceLast(run, d, entry);
      LeavingStep(Run(Init, run[..n]), run[n], d, entry);
    }
  }

  lemma OpeningLeavesDeferred(s: State, l: Label, d: DrainId, entry: Entry)
    requires Opens(s, l, d, entry)
    ensures !HasStatus(Apply(s, l), entry.1, Deferred)
  {
  }

  /** Since the opening, the job is deferred again exactly if the run says so. */
  lemma DeferredSinceOpening(run: seq<Label>, i: nat, d: DrainId, entry: Entry)
    requires OpenSince(run, i, d, entry)
    ensures HasStatus(Run(Init, run), entry.1, Deferred) <==>
            DeferredWithin(Run(Init, run[..i + 1]), run[i + 1..], entry.1)
  {
    var s := Run(Init, run[..i + 1]);
    RunLast(Init, run[..i + 1]);
    assert run[..i + 1][..i] == run[..i];
    OpeningLeavesDeferred(Run(Init, run[..i]), run[i], d, entry);
    assert run == run[..i + 1] + run[i + 1..];
    RunAppend(Init, run[..i + 1], run[i + 1..]);
    DeferredWithinIsStatus(s, run[i + 1..], entry.1);
  }

  /** The step is a ZREM that is applied, of a drain that opened the entry with step `i`, and the job has
      been deferred again between the two. */
  ghost predicate TakesNewDeferral(run: seq<Label>, l: Label, i: nat, entry: Entry) {
    && l.Drain? && l.drain.DrainForget? && !l.drain.reply.Refused?
    && OpenSince(run, i, l.drain.drain, entry)
    && DeferredWithin(Run(Init, run[..i + 1]), run[i + 1..], entry.1)
  }

  /** Over all runs: an entry leaves the set while its job is deferred exactly when the job was deferred
      again between a drain's update or commit and that drain's removal of the entry. */
  lemma EntryLeavesDeferredJob(run: seq<Label>, l: Label, entry: Entry)
    requires entry in Run(Init, run).deferred.members
    ensures var s' := Apply(Run(Init, run), l);
      (entry !in s'.deferred.members && HasStatus(s', entry.1, Deferred)) <==> exists i: nat :: TakesNewDeferral(run, l, i, entry)
  {
    var s := Run(Init, run);
    OnlyRemovalsRemove(s, l, entry);
    if l.Drain? && l.drain.DrainForget? && !l.drain.reply.Refused? {
      var d := l.drain.drain;
      OpenIsLeaving(run, d, entry);
      forall i: nat | OpenSince(run, i, d, entry)
        ensures HasStatus(s, entry.1, Deferred) <==> TakesNewDeferral(run, l, i, entry)
      {
        DeferredSinceOpening(run, i, d, entry);
      }
    }
  }

  // A run in which it happens.

  const ENTRY: Entry := ("youtube_api", 0)

  const SetAside := ClaimedOnce.(
    jobs := map[0 := Job(Deferred, 0, 3, None, 0, None)], tasks := map[0 := Ending(0, 1)],
    deferred := DeferredSet({ENTRY}, map[]))

  const DeferFirst: seq<Label> := [Work(Defer(0, "youtube_api")), Work(Record(0, true))]

  lemma DeferFirstRuns()
    ensures Run(ClaimedOnce, DeferFirst) == SetAside
  {
    RunTwo(ClaimedOnce, Work(Defer(0, "youtube_api")), Work(Record(0, true)));
    assert Apply(ClaimedOnce, Work(Defer(0, "youtube_api")))
        == ClaimedOnce.(jobs := SetAside.jobs, tasks := map[0 := Recording(0, "youtube_api")]);
  }

  const RetryByUser: seq<Label> :=
    [Api(AskRetry(0, 0)), Api(UserRetry(0, 1)), Relay(RelayPush(1, Delivered)), Relay(RelayAck({1}, true))]

  const Requested := SetAside.(
    jobs := map[0 := Job(Pending, 0, 3, None, 0, None)],
    outbox := map[0 := Row0, 1 := Row(0, EnqueueDownload, RowPending, None)])

  const Delivered1 := Requested.(
    outbox := map[0 := Row0, 1 := Row(0, EnqueueDownload, RowProcessed, Some(0))], downloadQueue := [0])

  lemma UserRetryWrites()
    ensures Apply(Apply(SetAside, RetryByUser[0]), RetryByUser[1]) == Requested
  {
    assert !HasPendingRow(SetAside, 0);
    assert Apply(SetAside, RetryByUser[0]) == WithCall(SetAside, 0, Seen(0, false, false));
    assert map[0 := Seen(0, false, false)] - {0} == map[];
  }

  lemma RetryByUserRuns()
    ensures Run(SetAside, RetryByUser) == Delivered1
  {
    UserRetryWrites();
    var s1 := Apply(SetAside, RetryByUser[0]);
    assert RetryByUser == [RetryByUser[0]] + ([RetryByUser[1]] + [RetryByUser[2], RetryByUser[3]]);
    RunCons(SetAside, RetryByUser[0], [RetryByUser[1]] + [RetryByUser[2], RetryByUser[3]]);
    RunCons(s1, RetryByUser[1], [RetryByUser[2], RetryByUser[3]]);
    RequestDelivered();
    RunTwo(Requested, RetryByUser[2], RetryByUser[3]);
  }

  lemma RequestDelivered()
    ensures Apply(Apply(Requested, RetryByUser[2]), RetryByUser[3]) == Delivered1
  {
    assert Apply(Requested, RetryByUser[2]) == Requested.(downloadQueue := [0], relayed := {1});
  }

  const ClaimAgain: seq<Label> := [Queue(Pop(1)), Queue(Claim(1))]

  const RunningAgain := Delivered1.(
    jobs := map[0 := Job(Processing, 0, 3, None, 0, None)], downloadQueue := [],
    tasks := map[0 := Ending(0, 1), 1 := Running(0, 0, 3, None)])

  lemma ClaimAgainRuns()
    ensures Run(Delivered1, ClaimAgain) == RunningAgain
  {
    RunTwo(Delivered1, Queue(Pop(1)), Queue(Claim(1)));
    assert Apply(Delivered1, Queue(Pop(1))) == Delivered1.(downloadQueue := [], tasks := map[0 := Ending(0, 1), 1 := Popped(0)]);
  }

  const DeferAgain: seq<Label> := [Drain(DrainStale(7, "youtube_api", 0)), Work(Defer(1, "youtube_api")), Work(Record(1, true))]

  const SetAsideAgain := RunningAgain.(
    jobs := map[0 := Job(Deferred, 0, 3, None, 0, None)], tasks := map[0 := Ending(0, 1), 1 := Ending(0, 1)],
    deferred := DeferredSet({ENTRY}, map[7 := ENTRY]))

  const FoundResumed := RunningAgain.(deferred := DeferredSet({ENTRY}, map[7 := ENTRY]))

  lemma FindsResumed()
    ensures Apply(RunningAgain, DeferAgain[0]) == FoundResumed
  {
  }

  lemma DefersAgain()
    ensures Apply(FoundResumed, DeferAgain[1])
         == FoundResumed.(jobs := SetAsideAgain.jobs, tasks := map[0 := Ending(0, 1), 1 := Recording(0, "youtube_api")])
  {
  }

  lemma DeferAgainRuns()
    ensures Run(RunningAgain, DeferAgain) == SetAsideAgain
  {
    RunCons(RunningAgain, DeferAgain[0], [DeferAgain[1], DeferAgain[2]]);
    FindsResumed();
    RunTwo(FoundResumed, DeferAgain[1], DeferAgain[2]);
    DefersAgain();
  }

  lemma RemovalTakesEntry()
    ensures var s := Apply(SetAsideAgain, Drain(DrainForget(7, Delivered)));
      HasStatus(s, 0, Deferred) && s.deferred.members == {}
  {
  }

  /** One worker is enough: a deferred job is retried by its user and claimed, a drain finds it not
      deferred, its run defers it again, and the drain's removal takes the new entry. */
  lemma DeferredJobLosesEntry()
    ensures var run := FirstClaim + DeferFirst + RetryByUser + ClaimAgain + DeferAgain;
      var s := Apply(Run(Init, run), Drain(DrainForget(7, Delivered)));
      ENTRY in Run(Init, run).deferred.members && HasStatus(s, 0, Deferred) && s.deferred.members == {}
  {
    FirstClaimRuns();
    DeferFirstRuns();
    RetryByUserRuns();
    ClaimAgainRuns();
    DeferAgainRuns();
    RunAppend(Init, FirstClaim, DeferFirst);
    RunAppend(Init, FirstClaim + DeferFirst, RetryByUser);
    RunAppend(Init, FirstClaim + DeferFirst + RetryByUser, ClaimAgain);
    RunAppend(Init, FirstClaim + DeferFirst + RetryByUser + ClaimAgain, DeferAgain);
    RemovalTakesEntry();
  }

  // The uninterrupted pass.

  ghost predicate Between(s: State) {
    s.draining == {} && s.deferred.leaving == map[]
  }

  ghost predicate ResumedOrKept(s: State, s': State, entry: Entry) {
    && (HasStatus(s', entry.1, Deferred) ==> HasStatus(s, entry.1, Deferred))
    && (entry in s.deferred.members && entry !in s'.deferred.members ==> !HasStatus(s', entry.1, Deferred))
  }

  lemma EntryAlone(s: State, e: Worker.Deferral, entry: Entry)
    requires Between(s)
    ensures Between(Worker.DrainEntry(s, e)) && ResumedOrKept(s, Worker.DrainEntry(s, e), entry)
  {
    if e.accepts {
      Worker.DrainEntryResult(s, e);
    }
  }

  /** A drain pass with nobody in between removes an entry only for a job that is no longer deferred, and
      defers none. */
  lemma {:induction false} PassAloneRemovesResumed(s: State, entries: seq<Worker.Deferral>, entry: Entry)
    requires Between(s)
    ensures Between(Worker.DrainPass(s, entries)) && ResumedOrKept(s, Worker.DrainPass(s, entries), entry)
  {
    if entries != [] {
      var n := |entries| - 1;
      PassAloneRemovesResumed(s, entries[..n], entry);
      EntryAlone(Worker.DrainPass(s, entries[..n]), entries[n], entry);
    }
  }

  /** The pass gets to an entry and puts its job back. */
  predicate PutsBack(s: State, e: Worker.Deferral) {
    e.accepts && HasStatus(s, e.job, Deferred) && (e.reply.Delivered? || e.reply.Overtaken?) && e.commits
  }

  ghost predicate DistinctJobs(entries: seq<Worker.Deferral>) {
    forall i, k | 0 <= i < k < |entries| :: entries[i].job != entries[k].job
  }

  lemma EntryResult(s: State, e: Worker.Deferral, j: JobId)
    requires Between(s)
    ensures var s' := Worker.DrainEntry(s, e);
      && Between(s') && s'.jobs.Keys == s.jobs.Keys
      && (j in s.jobs ==>
            if e.job == j && PutsBack(s, e) then s'.jobs[j].status == Pending && j in s'.downloadQueue
            else s'.jobs[j] == s.jobs[j])
  {
    if e.accepts {
      Worker.DrainEntryResult(s, e);
    }
  }

  lemma {:induction false} PassKeepsOthers(s: State, entries: seq<Worker.Deferral>, j: JobId)
    requires Between(s) && forall i | 0 <= i < |entries| :: entries[i].job != j
    ensures var s' := Worker.DrainPass(s, entries);
      Between(s') && s'.jobs.Keys == s.jobs.Keys && (j in s.jobs ==> s'.jobs[j] == s.jobs[j])
  {
    if entries != [] {
      PassKeepsOthers(s, entries[..|entries| - 1], j);
      EntryResult(Worker.DrainPass(s, entries[..|entries| - 1]), entries[|entries| - 1], j);
    }
  }

  predicate HeardOf(s: State, e: Worker.Deferral) {
    PutsBack(s, e) && (e.forget.Delivered? || e.forget.Overtaken?)
  }

  /** The entries of a pass whose job it puts back and whose removal it hears of. */
  ghost function Drained(s: State, entries: seq<Worker.Deferral>): set<nat> {
    set i: nat | i < |entries| && HeardOf(s, entries[i])
  }

  lemma DrainedSnoc(s: State, entries: seq<Worker.Deferral>)
    requires entries != []
    ensures var n := |entries| - 1;
      |Drained(s, entries)| == |Drained(s, entries[..n])| + if HeardOf(s, entries[n]) then 1 else 0
  {
    var n := |entries| - 1;
    assert Drained(s, entries) == Drained(s, entries[..n]) + (if HeardOf(s, entries[n]) then {n} else {});
  }

  lemma StillHeardOf(s: State, s0: State, e: Worker.Deferral)
    requires s0.jobs.Keys == s.jobs.Keys && (e.job in s.jobs ==> s0.jobs[e.job] == s.jobs[e.job])
    ensures Worker.Drains(s0, e) <==> HeardOf(s, e)
  {
  }

  /** The number a pass answers with, read off the state before it alone. */
  lemma {:induction false} DrainCountIsExact(s: State, entries: seq<Worker.Deferral>)
    requires Between(s) && DistinctJobs(entries)
    ensures Worker.DrainCount(s, entries) == |Drained(s, entries)|
  {
    if entries == [] {
      assert Drained(s, entries) == {};
    } else {
      var n := |entries| - 1;
      DrainCountIsExact(s, entries[..n]);
      PassKeepsOthers(s, entries[..n], entries[n].job);
      StillHeardOf(s, Worker.DrainPass(s, entries[..n]), entries[n]);
      DrainedSnoc(s, entries);
    }
  }
}
