/** The download list is a queue: ids leave it in the order in which they came, and nobody overtakes. */
module ListOrder {
  import opened Prelude
  import opened Pipeline
  import opened Coverage
  import Worker

  /** How many entries are popped before the one of `j` that is nearest to the end of the list. */
  function Ahead(q: seq<JobId>, j: JobId): nat
    requires j in q
  {
    var n := |q| - 1;
    if q[n] == j then 0
    else
      assert q == q[..n] + [q[n]];
      1 + Ahead(q[..n], j)
  }

  lemma {:induction false} AheadBehind(front: seq<JobId>, q: seq<JobId>, j: JobId)
    requires j in q
    ensures Ahead(front + q, j) == Ahead(q, j)
    decreases |q|
  {
    var n := |q| - 1;
    assert (front + q)[..|front + q| - 1] == front + q[..n];
    if q[n] != j {
      assert q == q[..n] + [q[n]];
      AheadBehind(front, q[..n], j);
    }
  }

  lemma {:induction false} WithoutSnoc(q: seq<JobId>, x: JobId, k: JobId)
    ensures Without(q + [x], k) == Without(q, k) + if x == k then [] else [x]
  {
    if q == [] {
      assert [x][1..] == [];
    } else {
      assert (q + [x])[1..] == q[1..] + [x];
      WithoutSnoc(q[1..], x, k);
    }
  }

  lemma {:induction false} AheadWithout(q: seq<JobId>, k: JobId, j: JobId)
    requires j in q && k != j
    ensures Ahead(Without(q, k), j) <= Ahead(q, j)
  {
    var n := |q| - 1;
    assert q == q[..n] + [q[n]];
    WithoutSnoc(q[..n], q[n], k);
    if q[n] != j {
      AheadWithout(q[..n], k, j);
      if q[n] == k {
        assert Without(q, k) == Without(q[..n], k);
      } else {
        AheadSnoc(Without(q[..n], k), q[n], j);
      }
    } else {
      AheadSnoc(Without(q[..n], k), j, j);
    }
  }

  lemma AheadSnoc(q: seq<JobId>, x: JobId, j: JobId)
    requires j == x || j in q
    ensures Ahead(q + [x], j) == if x == j then 0 else 1 + Ahead(q, j)
  {
    var all := q + [x];
    assert all[|all| - 1] == x && all[..|all| - 1] == q;
    assert x in all;
  }

  /** The step pushes `j` itself, and so takes its older copies out. */
  predicate Repushes(s: State, l: Label, j: JobId) {
    match l
    case Relay(RelayPush(r, _)) => CanRelay(s, r) && s.outbox[r].job == j
    case Drain(DrainPush(_, k, _)) => k == j
    case _ => false
  }

  predicate PopsInto(s: State, l: Label, t: TaskId) {
    l == Queue(Pop(t)) && t !in s.tasks
  }

  /** `j` stays in the list, with no more entries in front of it than before. */
  ghost predicate KeepsPlace(s: State, s': State, j: JobId) {
    j in s.downloadQueue && j in s'.downloadQueue && Ahead(s'.downloadQueue, j) <= Ahead(s.downloadQueue, j)
  }

  lemma PushKeepsPlace(q: seq<JobId>, k: JobId, reply: Reply, j: JobId)
    requires j in q && k != j
    ensures j in PushDownload(q, k, reply) && Ahead(PushDownload(q, k, reply), j) <= Ahead(q, j)
  {
    AheadWithout(q, k, j);
    AheadBehind([k], Without(q, k), j);
    AheadBehind([k], q, j);
  }

  lemma RelayKeepsPlace(s: State, a: RelayStep, j: JobId)
    requires j in s.downloadQueue && !Repushes(s, Relay(a), j)
    ensures KeepsPlace(s, ApplyRelay(s, a), j)
  {
    if a.RelayPush? && CanRelay(s, a.row) {
      PushKeepsPlace(s.downloadQueue, s.outbox[a.row].job, a.reply, j);
    }
  }

  lemma DrainKeepsPlace(s: State, a: DrainStep, j: JobId)
    requires j in s.downloadQueue && !Repushes(s, Drain(a), j)
    ensures KeepsPlace(s, ApplyDrain(s, a), j)
  {
    if a.DrainPush? {
      PushKeepsPlace(s.downloadQueue, a.job, a.reply, j);
    }
  }

  lemma QueueKeepsPlace(s: State, a: QueueStep, j: JobId)
    requires j in s.downloadQueue && !a.Pop?
    ensures KeepsPlace(s, ApplyQueue(s, a), j)
  {
    match a
    case ReleaseDue(due) => AheadBehind(Reversed(due), s.downloadQueue, j);
    case PushBack(t, _) => if t in s.tasks { AheadBehind([s.tasks[t].job], s.downloadQueue, j); }
    case _ =>
  }

  lemma OtherKeepsList(s: State, l: Label)
    requires l.Tick? || l.Api? || l.Work? || l.Back?
    ensures Apply(s, l).downloadQueue == s.downloadQueue
  {
    match l
    case Tick(_) =>
    case Api(a) => ApiKeepsList(s, a);
    case Work(a) =>
    case Back(a) =>
  }

  lemma ApiKeepsList(s: State, a: ApiStep)
    ensures ApplyApi(s, a).downloadQueue == s.downloadQueue
  {
  }

  /** A pop takes the last entry; every other step leaves `j` at least as near to its turn as it was,
      whoever else is pushed, released or put back. */
  lemma NobodyOvertakes(s: State, l: Label, j: JobId)
    requires j in s.downloadQueue && !Repushes(s, l, j)
    ensures var s' := Apply(s, l);
      if l.Queue? && l.queue.Pop? && PopsInto(s, l, l.queue.task)
      then if Ahead(s.downloadQueue, j) == 0 then Holds(s', l.queue.task, j)
           else j in s'.downloadQueue && Ahead(s'.downloadQueue, j) == Ahead(s.downloadQueue, j) - 1
      else KeepsPlace(s, s', j)
  {
    match l
    case Relay(a) => RelayKeepsPlace(s, a, j);
    case Drain(a) => DrainKeepsPlace(s, a, j);
    case Queue(Pop(t)) =>
      var n := |s.downloadQueue| - 1;
      assert s.downloadQueue == s.downloadQueue[..n] + [s.downloadQueue[n]];
    case Queue(a) => QueueKeepsPlace(s, a, j);
    case _ => OtherKeepsList(s, l);
  }

  /** How many pops of a run take an id. */
  ghost function Pops(s: State, run: seq<Label>): nat
    decreases |run|
  {
    if run == [] then 0
    else
      (if run[0].Queue? && run[0].queue.Pop? && PopsInto(s, run[0], run[0].queue.task) then 1 else 0)
      + Pops(Apply(s, run[0]), run[1..])
  }

  ghost predicate LeftAlone(s: State, run: seq<Label>, j: JobId)
    decreases |run|
  {
    run == [] || (!Repushes(s, run[0], j) && LeftAlone(Apply(s, run[0]), run[1..], j))
  }

  ghost predicate PoppedBy(s: State, run: seq<Label>, j: JobId, i: nat) {
    && i < |run| && run[i].Queue? && run[i].queue.Pop?
    && Holds(Run(s, run[..i + 1]), run[i].queue.task, j)
  }

  /** First in, first out: an id that nobody pushes anew is popped as soon as more pops have taken an id
      than there were entries in front of it. */
  lemma {:induction false} PoppedInTurn(s: State, run: seq<Label>, j: JobId)
    requires j in s.downloadQueue && LeftAlone(s, run, j)
    requires Pops(s, run) > Ahead(s.downloadQueue, j)
    ensures exists i: nat :: PoppedBy(s, run, j, i)
    decreases |run|
  {
    var s1 := Apply(s, run[0]);
    NobodyOvertakes(s, run[0], j);
    if run[0].Queue? && run[0].queue.Pop? && PopsInto(s, run[0], run[0].queue.task) && Ahead(s.downloadQueue, j) == 0 {
      assert run[..1] == [run[0]];
      RunOne(s, run[0]);
      assert PoppedBy(s, run, j, 0);
    } else {
      PoppedInTurn(s1, run[1..], j);
      var i: nat :| PoppedBy(s1, run[1..], j, i);
      assert run[..i + 2] == [run[0]] + run[1..][..i + 1];
      RunCons(s, run[0], run[1..][..i + 1]);
      assert PoppedBy(s, run, j, i + 1);
    }
  }

  /** A pushed id goes to the far end, and only its own older copies go. */
  lemma NewcomerIsLast(q: seq<JobId>, j: JobId, reply: Reply)
    requires Reached(reply)
    ensures var q' := PushDownload(q, j, reply);
      |q'| >= 1 && q'[0] == j && (reply.Overtaken? || j !in q'[1..]) && forall k | k != j :: k in q' <==> k in q
  {
  }

  function Copies(q: seq<JobId>, k: JobId): nat {
    if q == [] then 0 else Copies(q[1..], k) + if q[0] == k then 1 else 0
  }

  /** The copies of `j` behind a push: one, or one more if another push came in between; none if only the
      removal was applied; and whatever was there if nothing was. Of all other ids as many as before. */
  lemma CopiesAfterPush(q: seq<JobId>, j: JobId, reply: Reply, k: JobId)
    ensures Copies(PushDownload(q, j, reply), k) ==
      if k != j || reply == Refused then Copies(q, k)
      else if reply == RemovedOnly then 0
      else if reply == Overtaken then Copies(q, k) + 1
      else 1
  {
    CopiesWithout(q, j, k);
    assert ([j] + q)[1..] == q && ([j] + Without(q, j))[1..] == Without(q, j);
  }

  lemma {:induction false} CopiesWithout(q: seq<JobId>, j: JobId, k: JobId)
    ensures Copies(Without(q, j), k) == if k == j then 0 else Copies(q, k)
  {
    if q != [] {
      CopiesWithout(q[1..], j, k);
      assert q[0] != j ==> Without(q, j)[1..] == Without(q[1..], j);
    }
  }

  lemma {:induction false} ReversedAt(xs: seq<JobId>, i: nat)
    requires i < |xs|
    ensures Reversed(xs)[|xs| - 1 - i] == xs[i]
  {
    if i > 0 {
      ReversedAt(xs[1..], i - 1);
    }
  }

  /** Of a released batch the one due first is popped first, behind everyone who was in the list before. */
  lemma ReleasedInOrder(s: State, due: seq<JobId>, i: nat)
    requires IsDueBatch(s, due) && i < |due|
    ensures var q' := Released(s, due).downloadQueue;
      |q'| == |due| + |s.downloadQueue| && q'[|due| - 1 - i] == due[i] && q'[|due|..] == s.downloadQueue
      && due[i] !in Released(s, due).retryQueue
  {
    ReversedAt(due, i);
  }

  // A relay pass hands over the rows in their order.

  function JobsOf(s: State, entries: seq<RowId>): seq<JobId>
    requires forall r | r in entries :: r in s.outbox
  {
    seq(|entries|, i requires 0 <= i < |entries| => assert entries[i] in entries; s.outbox[entries[i]].job)
  }

  lemma {:induction false} WithoutAbsent(q: seq<JobId>, k: JobId)
    requires k !in q
    ensures Without(q, k) == q
  {
    if q != [] {
      WithoutAbsent(q[1..], k);
    }
  }

  lemma {:induction false} WithoutAppend(a: seq<JobId>, b: seq<JobId>, k: JobId)
    ensures Without(a + b, k) == Without(a, k) + Without(b, k)
  {
    if a == [] {
      assert a + b == b;
    } else {
      assert (a + b)[1..] == a[1..] + b;
      WithoutAppend(a[1..], b, k);
    }
  }

  ghost predicate Enqueues(s: State, entries: seq<RowId>) {
    && (forall i | 0 <= i < |entries| :: Worker.CanPush(s, entries[i]) && !s.outbox[entries[i]].event.RetryScheduled?)
    && (forall i, k | 0 <= i < k < |entries| :: entries[i] != entries[k] && s.outbox[entries[i]].job != s.outbox[entries[k]].job)
  }

  lemma ListInFront(jobs: seq<JobId>, rest: seq<JobId>, j: JobId)
    requires j !in jobs
    ensures PushDownload(Reversed(jobs) + rest, j, Delivered) == Reversed(jobs + [j]) + Without(rest, j)
  {
    Worker.ReversedSnoc(jobs, j);
    WithoutAppend(Reversed(jobs), rest, j);
    WithoutAbsent(Reversed(jobs), j);
  }

  lemma PushInFront(s: State, r: RowId, jobs: seq<JobId>, rest: seq<JobId>)
    requires CanRelay(s, r) && !s.outbox[r].event.RetryScheduled? && s.outbox[r].job !in jobs
    requires s.downloadQueue == Reversed(jobs) + rest
    ensures var s' := ApplyRelay(s, RelayPush(r, Delivered)); var j := s.outbox[r].job;
      s'.downloadQueue == Reversed(jobs + [j]) + Without(rest, j) && s'.outbox == s.outbox && s'.relayed == s.relayed + {r}
  {
    ListInFront(jobs, rest, s.outbox[r].job);
  }

  lemma NotYetRelayed(s: State, entries: seq<RowId>, s0: State)
    requires entries != [] && Enqueues(s, entries)
    requires s0.outbox == s.outbox && s0.relayed == s.relayed + Elements(entries[..|entries| - 1])
    ensures CanRelay(s0, entries[|entries| - 1])
    ensures JobsOf(s, entries) == JobsOf(s, entries[..|entries| - 1]) + [s.outbox[entries[|entries| - 1]].job]
    ensures s.outbox[entries[|entries| - 1]].job !in JobsOf(s, entries[..|entries| - 1])
  {
    assert entries[|entries| - 1] !in entries[..|entries| - 1];
  }

  ghost predicate Handed(s: State, entries: seq<RowId>, s': State)
    requires forall r | r in entries :: r in s.outbox
  {
    && Reversed(JobsOf(s, entries)) <= s'.downloadQueue
    && s'.outbox == s.outbox && s'.relayed == s.relayed + Elements(entries)
  }

  lemma HandsNext(s: State, entries: seq<RowId>, s0: State)
    requires entries != [] && Enqueues(s, entries) && Handed(s, entries[..|entries| - 1], s0)
    ensures Handed(s, entries, ApplyRelay(s0, RelayPush(entries[|entries| - 1], Delivered)))
  {
    var n := |entries| - 1;
    var jobs := JobsOf(s, entries[..n]);
    NotYetRelayed(s, entries, s0);
    PushInFront(s0, entries[n], jobs, s0.downloadQueue[|Reversed(jobs)|..]);
    assert Elements(entries) == Elements(entries[..n]) + {entries[n]};
  }

  /** Rows that are pushed in a pass leave the list in the order in which the pass took them. */
  lemma {:induction false} RelayedInOrder(s: State, entries: seq<RowId>, replies: seq<Reply>)
    requires |entries| == |replies| && Enqueues(s, entries)
    requires forall i | 0 <= i < |replies| :: replies[i] == Delivered
    ensures Handed(s, entries, Worker.PushAll(s, entries, replies))
  {
    if entries != [] {
      var n := |entries| - 1;
      RelayedInOrder(s, entries[..n], replies[..n]);
      HandsNext(s, entries, Worker.PushAll(s, entries[..n], replies[..n]));
    } else {
      assert Elements(entries) == {};
    }
  }
}
