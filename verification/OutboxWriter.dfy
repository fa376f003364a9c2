/** Concurrent writers of outbox rows, at the grain of single statements.

    Every writer runs one transaction that moves its job to `pending` and makes sure the job has a
    pending outbox row. `write_job_to_outbox` looks first and inserts inside a savepoint; the retry,
    requeue and sweep writers insert outright. The partial unique index lets an insert through only
    when no pending row of the job exists, and makes it wait for another writer's uncommitted one. */
module OutboxWriter {
  import opened Prelude

  type JobId = nat
  type RowId = nat
  type WriterId = nat

  /** `author` is the writer that inserted the row; others see it once it is committed. */
  datatype Row = Row(job: JobId, pending: bool, author: WriterId, committed: bool)

  datatype Phase =
    | Started
    | Absent                  // looked, saw no pending row
    | Relies(row: RowId)      // saw this committed pending row, will insert none
    | Inserted(row: RowId)
    | Collided                // the index rejected the insert, the savepoint is rolled back
    | Committed
    | Aborted

  datatype Writer = Writer(job: JobId, looksFirst: bool, phase: Phase)

  datatype State = State(rows: map<RowId, Row>, writers: map<WriterId, Writer>, moved: multiset<JobId>)

  datatype Step =
    | Start(writer: WriterId, job: JobId, looksFirst: bool)
    | Select(writer: WriterId)
    | Insert(writer: WriterId, row: RowId)
    | Confirm(writer: WriterId)
    | Commit(writer: WriterId)
    | Abort(writer: WriterId)
    | Close(row: RowId)       // the relay marks a delivered row

  predicate Visible(s: State, r: RowId, j: JobId) {
    r in s.rows && s.rows[r].job == j && s.rows[r].pending && s.rows[r].committed
  }

  predicate SomeVisible(s: State, j: JobId) {
    exists r | r in s.rows :: Visible(s, r, j)
  }

  predicate SomeUncommitted(s: State, j: JobId) {
    exists r | r in s.rows :: s.rows[r].job == j && s.rows[r].pending && !s.rows[r].committed
  }

  predicate In(s: State, w: WriterId, p: Phase) {
    w in s.writers && s.writers[w].phase == p
  }

  function Go(s: State, w: WriterId, p: Phase): State
    requires w in s.writers
  {
    s.(writers := s.writers[w := s.writers[w].(phase := p)])
  }

  ghost function Selected(s: State, w: WriterId, otherwise: Phase): State
    requires w in s.writers
  {
    var j := s.writers[w].job;
    if SomeVisible(s, j) then
      var r :| r in s.rows && Visible(s, r, j);
      Go(s, w, Relies(r))
    else Go(s, w, otherwise)
  }

  predicate MayInsert(s: State, w: WriterId) {
    In(s, w, Absent) || (In(s, w, Started) && !s.writers[w].looksFirst)
  }

  function Inserting(s: State, w: WriterId, r: RowId): State
    requires w in s.writers
  {
    var writer := s.writers[w];
    if r in s.rows || SomeUncommitted(s, writer.job) then s
    else if SomeVisible(s, writer.job) then Go(s, w, if writer.looksFirst then Collided else Aborted)
    else Go(s.(rows := s.rows[r := Row(writer.job, true, w, false)]), w, Inserted(r))
  }

  predicate CanCommit(s: State, w: WriterId) {
    w in s.writers && (s.writers[w].phase.Relies? || s.writers[w].phase.Inserted?)
  }

  /** The job moves to `pending` and the writer's own row, if it has one, becomes visible. */
  function Committing(s: State, w: WriterId): State
    requires CanCommit(s, w)
  {
    var r := s.writers[w].phase.row;
    var rows := if s.writers[w].phase.Inserted? && r in s.rows then s.rows[r := s.rows[r].(committed := true)] else s.rows;
    Go(s.(rows := rows, moved := s.moved + multiset{s.writers[w].job}), w, Committed)
  }

  function Aborting(s: State, w: WriterId): State
    requires w in s.writers
  {
    Go(s.(rows := map r | r in s.rows && (s.rows[r].author != w || s.rows[r].committed) :: s.rows[r]), w, Aborted)
  }

  function Closing(s: State, r: RowId): State {
    if r in s.rows && s.rows[r].committed then s.(rows := s.rows[r := s.rows[r].(pending := false)]) else s
  }

  ghost function Apply(s: State, step: Step): State {
    match step
    case Start(w, j, looks) =>
      if w in s.writers then s else s.(writers := s.writers[w := Writer(j, looks, Started)])
    case Select(w) => if In(s, w, Started) && s.writers[w].looksFirst then Selected(s, w, Absent) else s
    case Insert(w, r) => if MayInsert(s, w) then Inserting(s, w, r) else s
    case Confirm(w) => if In(s, w, Collided) then Selected(s, w, Aborted) else s
    case Commit(w) => if CanCommit(s, w) then Committing(s, w) else s
    case Abort(w) => if w in s.writers && !s.writers[w].phase.Committed? then Aborting(s, w) else s
    case Close(r) => Closing(s, r)
  }

  ghost function Run(s: State, steps: seq<Step>): State
    decreases |steps|
  {
    if steps == [] then s else Run(Apply(s, steps[0]), steps[1..])
  }

  const Init := State(map[], map[], multiset{})

  ghost predicate OnePending(s: State) {
    forall r, u | r in s.rows && u in s.rows && s.rows[r].pending && s.rows[u].pending && s.rows[r].job == s.rows[u].job :: r == u
  }

  /** Rows and the writers that inserted them, or rely on them, match. */
  ghost predicate Owned(s: State) {
    && (forall r | r in s.rows ::
         s.rows[r].author in s.writers && s.writers[s.rows[r].author].job == s.rows[r].job
         && (if s.rows[r].committed then s.writers[s.rows[r].author].phase == Committed
             else s.rows[r].pending && s.writers[s.rows[r].author].phase == Inserted(r)))
    && (forall w | w in s.writers && s.writers[w].phase.Inserted? ::
         s.writers[w].phase.row in s.rows && s.rows[s.writers[w].phase.row].author == w && !s.rows[s.writers[w].phase.row].committed)
    && (forall w | w in s.writers && s.writers[w].phase.Relies? ::
         s.writers[w].phase.row in s.rows && s.rows[s.writers[w].phase.row].job == s.writers[w].job
         && s.rows[s.writers[w].phase.row].committed)
  }

  ghost predicate Invariant(s: State) {
    OnePending(s) && Owned(s)
  }

  lemma GoKeepsInvariant(s: State, w: WriterId, p: Phase)
    requires Invariant(s) && w in s.writers && !s.writers[w].phase.Inserted? && !s.writers[w].phase.Committed?
    requires !p.Inserted? && !p.Relies?
    ensures Invariant(Go(s, w, p))
  {
  }

  lemma SelectKeepsInvariant(s: State, w: WriterId, otherwise: Phase)
    requires Invariant(s) && w in s.writers && !s.writers[w].phase.Inserted? && !s.writers[w].phase.Committed?
    requires !otherwise.Inserted? && !otherwise.Relies?
    ensures Invariant(Selected(s, w, otherwise))
  {
    if !SomeVisible(s, s.writers[w].job) {
      GoKeepsInvariant(s, w, otherwise);
    }
  }

  lemma InsertKeepsInvariant(s: State, w: WriterId, r: RowId)
    requires Invariant(s) && MayInsert(s, w)
    ensures Invariant(Inserting(s, w, r))
  {
    var j := s.writers[w].job;
    if r !in s.rows && !SomeUncommitted(s, j) && !SomeVisible(s, j) {
      forall u | u in s.rows && s.rows[u].pending ensures s.rows[u].job != j {
        assert Visible(s, u, j) || !s.rows[u].committed || s.rows[u].job != j;
      }
    }
  }

  lemma CommitKeepsInvariant(s: State, w: WriterId)
    requires Invariant(s) && CanCommit(s, w)
    ensures Invariant(Committing(s, w))
  {
  }

  lemma AbortKeepsInvariant(s: State, w: WriterId)
    requires Invariant(s) && w in s.writers && !s.writers[w].phase.Committed?
    ensures Invariant(Aborting(s, w))
  {
  }

  lemma CloseKeepsInvariant(s: State, r: RowId)
    requires Invariant(s)
    ensures Invariant(Closing(s, r))
  {
  }

  lemma StepKeepsInvariant(s: State, step: Step)
    requires Invariant(s)
    ensures Invariant(Apply(s, step))
  {
    match step
    case Start(_, _, _) =>
    case Select(w) => if In(s, w, Started) { SelectKeepsInvariant(s, w, Absent); }
    case Insert(w, r) => if MayInsert(s, w) { InsertKeepsInvariant(s, w, r); }
    case Confirm(w) => if In(s, w, Collided) { SelectKeepsInvariant(s, w, Aborted); }
    case Commit(w) => if CanCommit(s, w) { CommitKeepsInvariant(s, w); }
    case Abort(w) => if w in s.writers && !s.writers[w].phase.Committed? { AbortKeepsInvariant(s, w); }
    case Close(r) => CloseKeepsInvariant(s, r);
  }

  lemma RunLast(s: State, steps: seq<Step>)
    requires steps != []
    ensures Run(s, steps) == Apply(Run(s, steps[..|steps| - 1]), steps[|steps| - 1])
    decreases |steps|
  {
    if |steps| > 1 {
      assert steps[1..][..|steps| - 2] == steps[..|steps| - 1][1..];
      RunLast(Apply(s, steps[0]), steps[1..]);
    }
  }

  lemma {:induction false} RunKeepsInvariant(steps: seq<Step>)
    ensures Invariant(Run(Init, steps))
  {
    if steps != [] {
      RunLast(Init, steps);
      RunKeepsInvariant(steps[..|steps| - 1]);
      StepKeepsInvariant(Run(Init, steps[..|steps| - 1]), steps[|steps| - 1]);
    }
  }

  /** At most one pending row per job, committed or not, whatever the interleaving. */
  lemma OneRowPerJob(steps: seq<Step>, r: RowId, u: RowId)
    requires var rows := Run(Init, steps).rows;
      r in rows && u in rows && rows[r].pending && rows[u].pending && rows[r].job == rows[u].job
    ensures r == u
  {
    RunKeepsInvariant(steps);
  }

  /** A look writes nothing. It sees a pending row that others can see if there is one, and then decides
      against a row of its own; without one it goes on to insert, or gives up if it was a confirmation. */
  lemma LookDecides(s: State, w: WriterId, step: Step)
    requires (step == Select(w) && In(s, w, Started) && s.writers[w].looksFirst) || (step == Confirm(w) && In(s, w, Collided))
    ensures var s' := Apply(s, step); var j := s.writers[w].job;
      && s'.rows == s.rows && s'.moved == s.moved && w in s'.writers
      && (SomeVisible(s, j) ==> s'.writers[w].phase.Relies? && Visible(s, s'.writers[w].phase.row, j))
      && (!SomeVisible(s, j) ==> s'.writers[w].phase == if step.Select? then Absent else Aborted)
  {
  }

  /** An insert waits while another writer's row is undecided, is rejected while a pending row is there,
      and goes through otherwise, unseen by others until the commit. */
  lemma InsertDecides(s: State, w: WriterId, r: RowId)
    requires MayInsert(s, w) && r !in s.rows
    ensures var s' := Apply(s, Insert(w, r)); var j := s.writers[w].job;
      && s'.moved == s.moved
      && (SomeUncommitted(s, j) ==> s' == s)
      && (!SomeUncommitted(s, j) && SomeVisible(s, j) ==> s'.rows == s.rows && !CanCommit(s', w))
      && (!SomeUncommitted(s, j) && !SomeVisible(s, j) ==>
            s'.rows == s.rows[r := Row(j, true, w, false)] && In(s', w, Inserted(r)) && CanCommit(s', w) && !SomeVisible(s', j))
  {
    var s' := Apply(s, Insert(w, r));
    var j := s.writers[w].job;
    forall u | Visible(s', u, j) ensures Visible(s, u, j) {
    }
  }

  // Status and rows move together.

  function Committers(s: State, j: JobId): set<WriterId> {
    set w | w in s.writers && s.writers[w].phase.Committed? && s.writers[w].job == j
  }

  lemma StepCommitters(s: State, step: Step, j: JobId)
    ensures Committers(Apply(s, step), j) ==
      Committers(s, j) + if step.Commit? && CanCommit(s, step.writer) && s.writers[step.writer].job == j then {step.writer} else {}
    ensures Apply(s, step).moved[j] ==
      s.moved[j] + if step.Commit? && CanCommit(s, step.writer) && s.writers[step.writer].job == j then 1 else 0
  {
  }

  /** In every run a job has been moved once for each of its writers that committed, and for no other. */
  lemma {:induction false} MovedByCommitters(steps: seq<Step>, j: JobId)
    ensures Run(Init, steps).moved[j] == |Committers(Run(Init, steps), j)|
  {
    if steps != [] {
      RunLast(Init, steps);
      MovedByCommitters(steps[..|steps| - 1], j);
      StepCommitters(Run(Init, steps[..|steps| - 1]), steps[|steps| - 1], j);
    }
  }

  /** In every run a row that others can see was inserted by a writer that committed, and an aborted
      writer has left no row at all: status and row are both there or both not. */
  lemma AllOrNothing(steps: seq<Step>, r: RowId)
    requires r in Run(Init, steps).rows
    ensures var s := Run(Init, steps); var row := s.rows[r];
      && row.author in s.writers && !In(s, row.author, Aborted)
      && (row.committed <==> row.author in Committers(s, row.job))
  {
    RunKeepsInvariant(steps);
  }

  /** A rejected insert decides at once: it changes no row and no status, aborts a writer that inserts
      outright, and leaves one that looks first with a transaction it can go on with. */
  lemma CollisionDecides(steps: seq<Step>, w: WriterId, r: RowId)
    requires var s := Run(Init, steps); MayInsert(s, w) && SomeVisible(s, s.writers[w].job) && r !in s.rows
    ensures var s := Run(Init, steps); var s' := Apply(s, Insert(w, r));
      s'.rows == s.rows && s'.moved == s.moved && In(s', w, if s.writers[w].looksFirst then Collided else Aborted)
  {
    RunKeepsInvariant(steps);
    var s := Run(Init, steps);
    var u :| u in s.rows && Visible(s, u, s.writers[w].job);
    assert !SomeUncommitted(s, s.writers[w].job);
  }

  /** Such a writer, whatever others have done since, either can commit and a commit now leaves a row, or
      is aborted with its job where it was. */
  lemma CollisionEnds(steps: seq<Step>, w: WriterId)
    requires In(Run(Init, steps), w, Collided)
    ensures var s := Run(Init, steps); var s' := Apply(s, Confirm(w)); var j := s.writers[w].job;
      && s'.moved == s.moved && s'.rows == s.rows
      && if SomeVisible(s, j) then CanCommit(s', w) && SomeVisible(Committing(s', w), j)
         else In(s', w, Aborted) && w !in Committers(s', j) && forall r | r in s'.rows :: s'.rows[r].author != w
  {
    RunKeepsInvariant(steps);
    var s := Run(Init, steps);
    var j := s.writers[w].job;
    if SomeVisible(s, j) {
      var s' := Apply(s, Confirm(w));
      var u :| u in s.rows && Visible(s, u, j);
      assert Visible(Committing(s', w), u, j);
    }
  }

  // The row a writer relies on.

  /** With step `i` of the run writer `w` sees row `r` and decides to insert none of its own. */
  ghost predicate LookedAt(steps: seq<Step>, i: nat, w: WriterId, r: RowId) {
    && i < |steps| && (steps[i] == Select(w) || steps[i] == Confirm(w))
    && (In(Run(Init, steps[..i]), w, Started) || In(Run(Init, steps[..i]), w, Collided))
    && In(Run(Init, steps[..i + 1]), w, Relies(r))
  }

  /** The relay has not closed row `r` since step `i`. */
  ghost predicate Untouched(steps: seq<Step>, i: nat, r: RowId) {
    forall k | i < k < |steps| :: steps[k] != Close(r)
  }

  ghost predicate PastLooking(s: State, w: WriterId) {
    w in s.writers && (s.writers[w].phase.Relies? || s.writers[w].phase.Committed? || s.writers[w].phase.Aborted?)
  }

  lemma StepKeepsSeen(s: State, step: Step, w: WriterId, r: RowId)
    requires Invariant(s) && PastLooking(s, w) && r in s.rows && s.rows[r].committed
    ensures var s' := Apply(s, step);
      && PastLooking(s', w) && r in s'.rows && s'.rows[r].committed && s'.rows[r].job == s.rows[r].job
      && (s'.rows[r].pending <==> s.rows[r].pending && step != Close(r))
  {
  }

  lemma LookSees(s: State, step: Step, w: WriterId, r: RowId)
    requires (step == Select(w) || step == Confirm(w)) && (In(s, w, Started) || In(s, w, Collided))
    requires In(Apply(s, step), w, Relies(r))
    ensures Visible(Apply(s, step), r, s.writers[w].job) && PastLooking(Apply(s, step), w)
  {
  }

  ghost predicate Seen(s: State, w: WriterId, r: RowId, pending: bool) {
    PastLooking(s, w) && r in s.rows && s.rows[r].committed && s.rows[r].pending == pending
  }

  /** A row that was looked at stays, and stays pending exactly until the relay closes it. */
  lemma {:induction false} SeenRowStays(steps: seq<Step>, i: nat, w: WriterId, r: RowId)
    requires LookedAt(steps, i, w, r)
    ensures Seen(Run(Init, steps), w, r, Untouched(steps, i, r))
    decreases |steps|
  {
    var n := |steps| - 1;
    var before := steps[..n];
    RunLast(Init, steps);
    if i == n {
      assert steps[..n + 1] == steps;
      LookSees(Run(Init, before), steps[n], w, r);
    } else {
      LookedAtBefore(steps, i, w, r);
      SeenRowStays(before, i, w, r);
      RunKeepsInvariant(before);
      StepKeepsSeen(Run(Init, before), steps[n], w, r);
    }
  }

  lemma LookedAtBefore(steps: seq<Step>, i: nat, w: WriterId, r: RowId)
    requires LookedAt(steps, i, w, r) && i < |steps| - 1
    ensures var n := |steps| - 1;
      LookedAt(steps[..n], i, w, r) && (Untouched(steps, i, r) <==> Untouched(steps[..n], i, r) && steps[n] != Close(r))
  {
    var before := steps[..|steps| - 1];
    assert before[..i] == steps[..i] && before[..i + 1] == steps[..i + 1];
  }

  lemma ReliesByLooking(s: State, step: Step, w: WriterId, r: RowId)
    requires In(Apply(s, step), w, Relies(r)) && !In(s, w, Relies(r))
    ensures (step == Select(w) || step == Confirm(w)) && (In(s, w, Started) || In(s, w, Collided))
  {
  }

  lemma {:induction false} ReliesSinceLook(steps: seq<Step>, w: WriterId, r: RowId)
    requires In(Run(Init, steps), w, Relies(r))
    ensures exists i: nat :: LookedAt(steps, i, w, r)
  {
    var n := |steps| - 1;
    if steps != [] {
      var before := steps[..n];
      RunLast(Init, steps);
      assert steps[..n + 1] == steps;
      if In(Run(Init, before), w, Relies(r)) {
        ReliesSinceLook(before, w, r);
        var i: nat :| LookedAt(before, i, w, r);
        assert before[..i] == steps[..i] && before[..i + 1] == steps[..i + 1];
        assert LookedAt(steps, i, w, r);
      } else {
        ReliesByLooking(Run(Init, before), steps[n], w, r);
        assert LookedAt(steps, n, w, r);
      }
    }
  }

  ghost predicate AnotherRow(s: State, j: JobId, r: RowId) {
    exists u :: u != r && Visible(s, u, j)
  }

  /** In every run a commit leaves its job with a visible pending row exactly when the writer inserted
      one, or the relay has not closed the row it looked at, or another one has come. */
  lemma CommitLeavesRow(steps: seq<Step>, w: WriterId)
    requires CanCommit(Run(Init, steps), w)
    ensures var s := Run(Init, steps); var j := s.writers[w].job; var phase := s.writers[w].phase;
      SomeVisible(Committing(s, w), j) <==>
      || phase.Inserted?
      || (exists i: nat :: LookedAt(steps, i, w, phase.row) && Untouched(steps, i, phase.row))
      || AnotherRow(s, j, phase.row)
  {
    RunKeepsInvariant(steps);
    var s := Run(Init, steps);
    var s' := Committing(s, w);
    var j := s.writers[w].job;
    var r := s.writers[w].phase.row;
    if s.writers[w].phase.Inserted? {
      assert Visible(s', r, j);
    } else {
      assert s'.rows == s.rows;
      ReliesSinceLook(steps, w, r);
      forall i: nat | LookedAt(steps, i, w, r) ensures Visible(s, r, j) <==> Untouched(steps, i, r) {
        SeenRowStays(steps, i, w, r);
      }
      assert forall u :: Visible(s', u, j) <==> Visible(s, u, j);
    }
  }

  /** `write_job_to_outbox` as code: what writer `w` does with the tables it meets at its select, at its
      insert and at its confirmation, with any steps of other writers in between. */
  method WriteJobToOutbox(w: WriterId, r: RowId, atSelect: State, atInsert: State, atConfirm: State)
    returns (created: Option<RowId>, raised: bool)
    requires In(atSelect, w, Started) && atSelect.writers[w].looksFirst
    requires w in atInsert.writers && atInsert.writers[w] == Apply(atSelect, Select(w)).writers[w]
    requires r !in atInsert.rows && !SomeUncommitted(atInsert, atSelect.writers[w].job)
    requires w in atConfirm.writers && atConfirm.writers[w] == Apply(atInsert, Insert(w, r)).writers[w]
    ensures var phase := Apply(atConfirm, Confirm(w)).writers[w].phase;
      && (created.Some? <==> phase.Inserted?) && (created.Some? ==> phase == Inserted(created.value))
      && (raised <==> phase == Aborted)
      && (created.None? && !raised <==> phase.Relies?)
  {
    var j := atSelect.writers[w].job;
    if SomeVisible(atSelect, j) {
      return None, false;
    }
    var rejected := SomeVisible(atInsert, j);
    if !rejected {
      return Some(r), false;
    }
    // The savepoint is rolled back; the enclosing transaction goes on.
    created := None;
    raised := !SomeVisible(atConfirm, j);
  }
}
