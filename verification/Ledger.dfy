/** What must balance: dead-letter rows against committed failures, and files on disk against downloads. */
module Ledger {
  import opened Prelude
  import opened Pipeline
  import opened Outcomes
  import opened Heartbeats
  import RetryPolicy

  // Dead-letter rows.

  predicate Fails(s: State, l: Label, j: JobId) {
    l.Work? && RunOutcome(s, l.work, j) == Some(Failure)
  }

  predicate Buries(s: State, l: Label, j: JobId) {
    l.Work? && l.work.Bury? && l.work.task in s.tasks && s.tasks[l.work.task] == Burying(j)
  }

  predicate TakesDead(s: State, l: Label, j: JobId) {
    match l
    case Api(Replay(k, r)) => k == j && CanReplay(s, j, r)
    case Api(ReplayAnew(i, k, r, m)) => i == j && CanReplayAnew(s, j, k, r)
    case _ => false
  }

  /** A run that has failed its job dies, or is cancelled, before it has written the dead-letter row. */
  predicate Forgets(s: State, l: Label, j: JobId) {
    match l
    case Work(Die(t)) => t in s.tasks && s.tasks[t] == Burying(j)
    case Back(Cancel(t, r)) => CanCancel(s, t, r) && s.tasks[t] == Burying(j)
    case _ => false
  }

  datatype Book = Book(failed: nat, buried: nat, taken: nat, forgotten: nat)

  function Entered(b: Book, s: State, l: Label, j: JobId): Book {
    Book(b.failed + (if Fails(s, l, j) then 1 else 0), b.buried + (if Buries(s, l, j) then 1 else 0),
         b.taken + (if TakesDead(s, l, j) then 1 else 0), b.forgotten + (if Forgets(s, l, j) then 1 else 0))
  }

  /** What a run has done about the dead-letter rows of `j`. */
  function BookOf(run: seq<Label>, j: JobId): Book {
    if run == [] then Book(0, 0, 0, 0)
    else Entered(BookOf(run[..|run| - 1], j), Run(Init, run[..|run| - 1]), run[|run| - 1], j)
  }

  /** The runs of `j` between their failure and its dead-letter row. */
  function Buriers(s: State, j: JobId): set<TaskId> {
    set t | t in s.tasks && s.tasks[t] == Burying(j)
  }

  ghost predicate DeadLaw(s: State, l: Label, s': State, j: JobId) {
    && s'.desk.failedJobs[j] ==
         s.desk.failedJobs[j] + (if Buries(s, l, j) then 1 else 0) - (if TakesDead(s, l, j) then 1 else 0)
    && |Buriers(s', j)| ==
         |Buriers(s, j)| + (if Fails(s, l, j) then 1 else 0) - (if Buries(s, l, j) || Forgets(s, l, j) then 1 else 0)
  }

  lemma SameBuriers(s: State, s': State, j: JobId)
    requires forall t :: (t in s'.tasks && s'.tasks[t] == Burying(j)) <==> (t in s.tasks && s.tasks[t] == Burying(j))
    ensures Buriers(s', j) == Buriers(s, j)
  {
  }

  lemma OneBurierMore(s: State, s': State, j: JobId, t: TaskId)
    requires s'.tasks == s.tasks[t := Burying(j)] && !(t in s.tasks && s.tasks[t] == Burying(j))
    ensures |Buriers(s', j)| == |Buriers(s, j)| + 1
  {
    assert Buriers(s', j) == Buriers(s, j) + {t};
  }

  lemma OneBurierLess(s: State, s': State, j: JobId, t: TaskId)
    requires t in s.tasks && s.tasks[t] == Burying(j)
    requires t in s'.tasks ==> s'.tasks[t] != Burying(j)
    requires forall u | u != t :: (u in s'.tasks <==> u in s.tasks) && (u in s.tasks ==> s'.tasks[u] == s.tasks[u])
    ensures |Buriers(s', j)| == |Buriers(s, j)| - 1
  {
    assert Buriers(s', j) == Buriers(s, j) - {t};
  }

  lemma ApiDead(s: State, a: ApiStep, j: JobId)
    ensures DeadLaw(s, Api(a), ApplyApi(s, a), j)
  {
    ApiGoesOn(s, a);
    SameBuriers(s, ApplyApi(s, a), j);
    ApiDesk(s, a, j);
  }

  lemma ApiDesk(s: State, a: ApiStep, j: JobId)
    ensures ApplyApi(s, a).desk.failedJobs[j] == s.desk.failedJobs[j] - if TakesDead(s, Api(a), j) then 1 else 0
  {
    match a
    case Replay(k, r) => ReplayDesk(s, k, r);
    case ReplayAnew(i, k, r, m) => ReplayAnewDesk(s, i, k, r, m);
    case _ => OtherDesk(s, a);
  }

  lemma ReplayDesk(s: State, k: JobId, r: RowId)
    ensures Replayed(s, k, r).desk.failedJobs == s.desk.failedJobs - if CanReplay(s, k, r) then multiset{k} else multiset{}
  {
  }

  lemma ReplayAnewDesk(s: State, i: JobId, k: JobId, r: RowId, m: nat)
    ensures ReplayedAnew(s, i, k, r, m).desk.failedJobs
            == s.desk.failedJobs - if CanReplayAnew(s, i, k, r) then multiset{i} else multiset{}
  {
  }

  lemma OtherDesk(s: State, a: ApiStep)
    requires !a.Replay? && !a.ReplayAnew?
    ensures ApplyApi(s, a).desk.failedJobs == s.desk.failedJobs
  {
  }

  lemma QuietDead(s: State, s': State, l: Label, j: JobId)
    requires s'.desk == s.desk && !Fails(s, l, j) && !Buries(s, l, j) && !TakesDead(s, l, j) && !Forgets(s, l, j)
    requires forall t :: (t in s'.tasks && s'.tasks[t] == Burying(j)) <==> (t in s.tasks && s.tasks[t] == Burying(j))
    ensures DeadLaw(s, l, s', j)
  {
    SameBuriers(s, s', j);
  }

  lemma RunDead(s: State, a: RunStep, j: JobId)
    ensures DeadLaw(s, Work(a), ApplyRun(s, a), j)
  {
    var s' := ApplyRun(s, a);
    RunDesk(s, a, j);
    if Fails(s, Work(a), j) {
      OneBurierMore(s, s', j, a.task);
    } else if Buries(s, Work(a), j) || Forgets(s, Work(a), j) {
      OneBurierLess(s, s', j, a.task);
    } else {
      RunKeepsBuriers(s, a, j);
      SameBuriers(s, s', j);
    }
  }

  lemma RunDesk(s: State, a: RunStep, j: JobId)
    ensures ApplyRun(s, a).desk.failedJobs[j] == s.desk.failedJobs[j] + if Buries(s, Work(a), j) then 1 else 0
  {
  }

  lemma RunKeepsBuriers(s: State, a: RunStep, j: JobId)
    requires !Fails(s, Work(a), j) && !Buries(s, Work(a), j) && !Forgets(s, Work(a), j)
    ensures var s' := ApplyRun(s, a);
      forall t :: (t in s'.tasks && s'.tasks[t] == Burying(j)) <==> (t in s.tasks && s.tasks[t] == Burying(j))
  {
  }

  lemma BackDead(s: State, a: RequeueStep, j: JobId)
    ensures DeadLaw(s, Back(a), ApplyRequeue(s, a), j)
  {
    if Forgets(s, Back(a), j) {
      OneBurierLess(s, ApplyRequeue(s, a), j, a.task);
    } else {
      BackKeepsBuriers(s, a, j);
      QuietDead(s, ApplyRequeue(s, a), Back(a), j);
    }
  }

  ghost predicate SameBurials(s: State, s': State, j: JobId) {
    s'.desk == s.desk
    && forall t :: (t in s'.tasks && s'.tasks[t] == Burying(j)) <==> (t in s.tasks && s.tasks[t] == Burying(j))
  }

  lemma RetryBuries(s: State, t: TaskId, c: RetryPolicy.Category, r: RowId, at: Time, j: JobId)
    ensures SameBurials(s, Retried(s, t, c, r, at), j)
  {
  }

  lemma RequeueBuries(s: State, t: TaskId, r: RowId, j: JobId)
    ensures SameBurials(s, Requeued(s, t, r), j)
  {
  }

  lemma CancelBuries(s: State, t: TaskId, r: RowId, j: JobId)
    requires !Forgets(s, Back(Cancel(t, r)), j)
    ensures SameBurials(s, Cancelled(s, t, r), j)
  {
  }

  lemma BackKeepsBuriers(s: State, a: RequeueStep, j: JobId)
    requires !Forgets(s, Back(a), j)
    ensures SameBurials(s, ApplyRequeue(s, a), j)
  {
    match a
    case Retry(t, c, r, at) => RetryBuries(s, t, c, r, at, j);
    case Requeue(t, r) => RequeueBuries(s, t, r, j);
    case Cancel(t, r) => CancelBuries(s, t, r, j);
    case _ =>
  }

  lemma QueueDead(s: State, a: QueueStep, j: JobId)
    ensures DeadLaw(s, Queue(a), ApplyQueue(s, a), j)
  {
    QuietDead(s, ApplyQueue(s, a), Queue(a), j);
  }

  lemma RelayDead(s: State, a: RelayStep, j: JobId)
    ensures DeadLaw(s, Relay(a), ApplyRelay(s, a), j)
  {
    QuietDead(s, ApplyRelay(s, a), Relay(a), j);
  }

  lemma DrainDead(s: State, a: DrainStep, j: JobId)
    ensures DeadLaw(s, Drain(a), ApplyDrain(s, a), j)
  {
    QuietDead(s, ApplyDrain(s, a), Drain(a), j);
  }

  lemma StepDead(s: State, l: Label, j: JobId)
    ensures DeadLaw(s, l, Apply(s, l), j)
  {
    match l
    case Tick(_) => QuietDead(s, Apply(s, l), l, j);
    case Api(a) => ApiDead(s, a, j);
    case Relay(a) => RelayDead(s, a, j);
    case Queue(a) => QueueDead(s, a, j);
    case Work(a) => RunDead(s, a, j);
    case Back(a) => BackDead(s, a, j);
    case Drain(a) => DrainDead(s, a, j);
  }

  /** Over all runs the books balance: each committed failure of a run has led to exactly one dead-letter
      row of its job, or its run is still about to write it, or ended first; and the rows that are there
      are those written and not yet replayed. */
  lemma {:induction false} DeadLettersBalance(run: seq<Label>, j: JobId)
    ensures var s := Run(Init, run); var b := BookOf(run, j);
      b.failed == b.buried + b.forgotten + |Buriers(s, j)| && s.desk.failedJobs[j] + b.taken == b.buried
  {
    if run == [] {
      assert Buriers(Init, j) == {};
    } else {
      var n := |run| - 1;
      RunLast(Init, run);
      DeadLettersBalance(run[..n], j);
      StepDead(Run(Init, run[..n]), run[n], j);
    }
  }

  // Files.

  predicate Fetches(s: State, l: Label, f: FileId) {
    l.Work? && l.work.Download? && l.work.file == f
    && RunsTask(s, l.work.task) && s.tasks[l.work.task].file.None? && FreshFile(s, f)
  }

  predicate Owns(s: State, t: TaskId, f: FileId) {
    RunsTask(s, t) && s.tasks[t].file == Some(f)
  }

  /** The run with file `f` finds its job no longer processing, or gives its job back. */
  predicate Deletes(s: State, l: Label, f: FileId) {
    match l
    case Work(Complete(t)) => Owns(s, t, f) && !HasStatus(s, s.tasks[t].job, Processing)
    case Back(Requeue(t, r)) => Owns(s, t, f) && FreshRow(s, r) && !HasPendingRow(s, s.tasks[t].job)
    case _ => false
  }

  /** The file has been downloaded in the run and not been deleted since. */
  predicate OnDisk(run: seq<Label>, f: FileId) {
    run != [] &&
    var n := |run| - 1;
    Fetches(Run(Init, run[..n]), run[n], f) || (OnDisk(run[..n], f) && !Deletes(Run(Init, run[..n]), run[n], f))
  }

  lemma RunDisk(s: State, a: RunStep, f: FileId)
    ensures f in ApplyRun(s, a).disk <==> Fetches(s, Work(a), f) || (f in s.disk && !Deletes(s, Work(a), f))
  {
  }

  lemma RequeueDisk(s: State, t: TaskId, r: RowId, f: FileId)
    ensures f in Requeued(s, t, r).disk <==> f in s.disk && !Deletes(s, Back(Requeue(t, r)), f)
  {
  }

  lemma OtherBackDisk(s: State, a: RequeueStep)
    requires !a.Requeue?
    ensures ApplyRequeue(s, a).disk == s.disk
  {
  }

  lemma BackDisk(s: State, a: RequeueStep, f: FileId)
    ensures f in ApplyRequeue(s, a).disk <==> f in s.disk && !Deletes(s, Back(a), f)
  {
    match a
    case Requeue(t, r) => RequeueDisk(s, t, r, f);
    case _ => OtherBackDisk(s, a);
  }

  lemma ApiDisk(s: State, a: ApiStep)
    ensures ApplyApi(s, a).disk == s.disk
  {
  }

  lemma QueueDisk(s: State, a: QueueStep)
    ensures ApplyQueue(s, a).disk == s.disk
  {
  }

  lemma DrainDisk(s: State, a: DrainStep)
    ensures ApplyDrain(s, a).disk == s.disk
  {
  }

  lemma StepDisk(s: State, l: Label, f: FileId)
    ensures f in Apply(s, l).disk <==> Fetches(s, l, f) || (f in s.disk && !Deletes(s, l, f))
  {
    match l
    case Tick(_) =>
    case Api(a) => ApiDisk(s, a);
    case Relay(a) => RelayAside(s, a);
    case Queue(a) => QueueDisk(s, a);
    case Work(a) => RunDisk(s, a, f);
    case Back(a) => BackDisk(s, a, f);
    case Drain(a) => DrainDisk(s, a);
  }

  /** Over all runs a file is on disk exactly if a run has downloaded it and has not had to delete it: a
      run that loses its completion or gives its job back leaves nothing of its own, and no run ever
      deletes another's file. */
  lemma {:induction false} DiskIsHistory(run: seq<Label>, f: FileId)
    ensures f in Run(Init, run).disk <==> OnDisk(run, f)
  {
    if run != [] {
      var n := |run| - 1;
      RunLast(Init, run);
      DiskIsHistory(run[..n], f);
      StepDisk(Run(Init, run[..n]), run[n], f);
    }
  }

  /** A lost completion deletes the run's own file and nothing else, and a won one nothing at all. */
  lemma CompletionAndFile(s: State, t: TaskId)
    requires RunsTask(s, t) && s.tasks[t].file.Some?
    ensures var s' := Apply(s, Work(Complete(t))); var f := s.tasks[t].file.value;
      if HasStatus(s, s.tasks[t].job, Processing) then s'.disk == s.disk else s'.disk == s.disk - {f}
  {
    var s' := Apply(s, Work(Complete(t)));
    forall g ensures g in s'.disk <==> g in s.disk && !Deletes(s, Work(Complete(t)), g) {
      StepDisk(s, Work(Complete(t)), g);
    }
  }
}
