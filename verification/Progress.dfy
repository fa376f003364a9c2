/** Progress of the main loop: with Redis and the database up, a round never adds to the work that is
    left, a productive one lowers it, and a covered pending job whose time has come is claimed after
    finitely many productive rounds. */
module Progress {
  import opened Prelude
  import opened Pipeline
  import opened Coverage

  const RELAY_BATCH := 100

  /** One turn of the worker's main loop: due retries are released, ids are popped into free slots,
      tasks claim the ids they hold, pending rows are relayed, and time passes. A full pool is a turn
      without slots, and a turn before the next relay pass is one without rows. */
  datatype Round = Round(due: seq<JobId>, slots: seq<TaskId>, claims: seq<TaskId>, rows: seq<RowId>, elapsed: nat)

  function PendingRows(s: State): set<RowId> {
    set r | r in s.outbox && s.outbox[r].status.RowPending?
  }

  function Holders(s: State): set<TaskId> {
    set t | t in s.tasks && s.tasks[t].Popped?
  }

  /** Work still to be done before every announcement has reached a job row. */
  function Remaining(s: State): nat {
    4 * |PendingRows(s)| + 3 * |s.retryQueue| + 2 * |s.downloadQueue| + |Holders(s)|
  }

  function PopInto(s: State, slots: seq<TaskId>): State
    decreases |slots|
  {
    if slots == [] then s else PopInto(PoppedOne(s, slots[0]), slots[1..])
  }

  function ClaimAll(s: State, claims: seq<TaskId>): State
    decreases |claims|
  {
    if claims == [] then s else ClaimAll(Claimed(s, claims[0]), claims[1..])
  }

  function RelayRow(s: State, r: RowId): State {
    ApplyRelay(ApplyRelay(s, RelayPush(r, Delivered)), RelayAck({r}, true))
  }

  function RelayRows(s: State, rows: seq<RowId>): State
    decreases |rows|
  {
    if rows == [] then s else RelayRows(RelayRow(s, rows[0]), rows[1..])
  }

  function DoRound(s: State, r: Round): State {
    Apply(RelayRows(ClaimAll(PopInto(Released(s, r.due), r.slots), r.claims), r.rows), Tick(r.elapsed))
  }

  predicate Due(s: State, j: JobId) {
    j in s.retryQueue && 0 <= s.retryQueue[j] <= s.now
  }

  /** Within the batch limits, but otherwise as much or as little as it may be. */
  ghost predicate IsRound(s: State, r: Round) {
    && IsDueBatch(s, r.due)
    && (forall i | 0 <= i < |r.slots| :: r.slots[i] !in s.tasks)
    && (forall i, k | 0 <= i < k < |r.slots| :: r.slots[i] != r.slots[k])
    && |r.rows| <= RELAY_BATCH
    && (forall i | 0 <= i < |r.rows| :: r.rows[i] in PendingRows(s))
    && (forall i, k | 0 <= i < k < |r.rows| :: r.rows[i] != r.rows[k])
  }

  /** The round gets something done. */
  ghost predicate Productive(s: State, r: Round) {
    || r.due != [] || r.rows != []
    || (r.slots != [] && Released(s, r.due).downloadQueue != [])
    || exists t :: t in r.claims && t in Holders(s)
  }

  /** A turn with a free slot and a relay pass: each batch is full or takes all there is, and every held
      id is claimed. */
  ghost predicate FullTurn(s: State, r: Round) {
    && (|r.due| == MAX_RETRY_BATCH || forall j :: Due(s, j) ==> j in r.due)
    && r.slots != []
    && (forall t | t in Holders(s) :: t in r.claims)
    && (|r.rows| == RELAY_BATCH || forall u :: u in PendingRows(s) ==> u in r.rows)
  }

  /** `j` is in the list, due in the retry queue, about to get to one of them from a pending row, or held
      by a task that has not tried to claim it yet. */
  ghost predicate Ready(s: State, j: JobId) {
    || j in s.downloadQueue
    || Due(s, j)
    || (exists r :: RowReady(s, r, j))
    || (exists t :: Holds(s, t, j))
  }

  ghost predicate RowReady(s: State, r: RowId, j: JobId) {
    && PendingRow(s, r, j)
    && (s.outbox[r].event.RetryScheduled? ==>
         && s.outbox[r].event.payload.NextRetryAt? && 0 <= s.outbox[r].event.payload.at <= s.now
         && j !in s.retryQueue)
  }

  /** `j` is either claimed already or still on its way. */
  ghost predicate OnItsWay(s: State, j: JobId) {
    HasStatus(s, j, Processing) || (HasStatus(s, j, Pending) && Ready(s, j))
  }

  ghost predicate Idle(s: State) {
    Tidy(s) && s.relayed == {}
  }

  /** Something announces `j` without a time: a copy in the list, a holder, a row to be pushed there. */
  ghost predicate AtOnce(s: State, j: JobId) {
    || j in s.downloadQueue
    || (exists t :: Holds(s, t, j))
    || (exists r :: PendingRow(s, r, j) && !s.outbox[r].event.RetryScheduled?)
  }

  /** Unless it is announced without a time: the time of its retry entry has come or, without an entry,
      that of its row. */
  ghost predicate TimeHasCome(s: State, j: JobId) {
    || AtOnce(s, j)
    || (if j in s.retryQueue then Due(s, j)
        else forall r | PendingRow(s, r, j) && s.outbox[r].event.payload.NextRetryAt? ::
               0 <= s.outbox[r].event.payload.at <= s.now)
  }

  /** A covered pending job is on its way, wherever its wake-up is, exactly when its time has come. */
  lemma CoveredIsOnItsWay(s: State, j: JobId)
    requires Tidy(s) && Covered(s) && HasStatus(s, j, Pending)
    ensures OnItsWay(s, j) <==> TimeHasCome(s, j)
  {
    if exists r :: RowWakes(s, r, j) {
      var r :| RowWakes(s, r, j);
      assert PendingRow(s, r, j);
      assert TimeHasCome(s, j) && !AtOnce(s, j) && j !in s.retryQueue ==> RowReady(s, r, j);
    }
    if exists r :: RowReady(s, r, j) {
      var r :| RowReady(s, r, j);
      assert forall u :: PendingRow(s, u, j) ==> u == r;
    }
    if exists r :: PendingRow(s, r, j) && !s.outbox[r].event.RetryScheduled? {
      var r :| PendingRow(s, r, j) && !s.outbox[r].event.RetryScheduled?;
      assert RowReady(s, r, j);
    }
  }

  // Relaying.

  lemma RelayRowCloses(s: State, r: RowId)
    requires Idle(s) && r in PendingRows(s)
    ensures RelayRow(s, r).outbox == Closed(s, {r}, RowProcessed)
  {
  }

  lemma ClosedRows(s: State, s': State, r: RowId)
    requires r in PendingRows(s) && s'.outbox == Closed(s, {r}, RowProcessed)
    ensures PendingRows(s') == PendingRows(s) - {r}
  {
  }

  lemma RelayedRows(s: State, r: RowId)
    requires Idle(s) && r in PendingRows(s)
    ensures PendingRows(RelayRow(s, r)) == PendingRows(s) - {r}
    ensures |PendingRows(RelayRow(s, r))| == |PendingRows(s)| - 1
  {
    RelayRowCloses(s, r);
    ClosedRows(s, RelayRow(s, r), r);
  }

  lemma PushRetrySize(m: map<JobId, Time>, j: JobId, at: Time, reply: Reply)
    ensures |PushRetry(m, j, at, reply)| <= |m| + 1
  {
    assert m[j := at].Keys == m.Keys + {j};
    assert |m[j := at]| == |m[j := at].Keys| && |m| == |m.Keys|;
  }

  lemma RelayRowQueues(s: State, r: RowId)
    requires Idle(s) && r in PendingRows(s)
    ensures var s' := RelayRow(s, r); var row := s.outbox[r];
      && s'.jobs == s.jobs && s'.now == s.now && s'.tasks == s.tasks
      && if row.event.RetryScheduled?
         then s'.downloadQueue == s.downloadQueue && s'.retryQueue == PushRetry(s.retryQueue, row.job, row.event.payload.at, Delivered)
         else s'.retryQueue == s.retryQueue && s'.downloadQueue == [row.job] + Without(s.downloadQueue, row.job)
  {
  }

  lemma RelayRowWork(s: State, r: RowId)
    requires Idle(s) && r in PendingRows(s)
    ensures Remaining(RelayRow(s, r)) < Remaining(s) && PendingRows(RelayRow(s, r)) == PendingRows(s) - {r}
  {
    RelayedRows(s, r);
    RelayRowQueues(s, r);
    if s.outbox[r].event.RetryScheduled? {
      PushRetrySize(s.retryQueue, s.outbox[r].job, s.outbox[r].event.payload.at, Delivered);
    }
    assert Holders(RelayRow(s, r)) == Holders(s);
  }

  lemma RelayRowIdle(s: State, r: RowId)
    requires Idle(s) && r in PendingRows(s)
    ensures Idle(RelayRow(s, r))
  {
    RelayKeepsTidy(s, RelayPush(r, Delivered));
    RelayKeepsTidy(ApplyRelay(s, RelayPush(r, Delivered)), RelayAck({r}, true));
  }

  lemma RelayRowWay(s: State, r: RowId, j: JobId)
    requires Idle(s) && r in PendingRows(s) && OnItsWay(s, j)
    ensures OnItsWay(RelayRow(s, r), j)
  {
    var s' := RelayRow(s, r);
    RelayRowQueues(s, r);
    RelayRowCloses(s, r);
    assert PendingRow(s, r, s.outbox[r].job);
    if exists u :: RowReady(s, u, j) {
      var u :| RowReady(s, u, j);
      assert u != r ==> s.outbox[r].job != j;
      assert u != r ==> RowReady(s', u, j);
    }
    if exists t :: Holds(s, t, j) {
      var t :| Holds(s, t, j);
      assert Holds(s', t, j);
    }
  }

  lemma {:induction false} RelayRowsStep(s: State, rows: seq<RowId>, j: JobId)
    requires Idle(s) && OnItsWay(s, j)
    requires forall i | 0 <= i < |rows| :: rows[i] in PendingRows(s)
    requires forall i, k | 0 <= i < k < |rows| :: rows[i] != rows[k]
    ensures var s' := RelayRows(s, rows);
      Idle(s') && OnItsWay(s', j) && Remaining(s') + |rows| <= Remaining(s)
    decreases |rows|
  {
    if rows != [] {
      RelayRowIdle(s, rows[0]);
      RelayRowWork(s, rows[0]);
      RelayRowWay(s, rows[0], j);
      RelayRowsStep(RelayRow(s, rows[0]), rows[1..], j);
    }
  }

  // Releasing, popping and claiming.

  /** While the outbox stands still, `j` stays ready if its queue entry and its holders do. */
  lemma ReadyCarried(s: State, s': State, j: JobId)
    requires Ready(s, j) && s'.outbox == s.outbox && s'.now >= s.now
    requires j in s.downloadQueue ==> j in s'.downloadQueue || exists t :: Holds(s', t, j)
    requires j in s'.retryQueue ==> j in s.retryQueue && s'.retryQueue[j] == s.retryQueue[j]
    requires j in s.retryQueue ==> j in s'.retryQueue || j in s'.downloadQueue
    requires forall t :: Holds(s, t, j) ==> Holds(s', t, j)
    ensures Ready(s', j)
  {
    if exists u :: RowReady(s, u, j) {
      var u :| RowReady(s, u, j);
      assert RowReady(s', u, j);
    } else if exists t :: Holds(s, t, j) {
      var t :| Holds(s, t, j);
      assert Holds(s', t, j);
    }
  }

  lemma ReleaseWork(s: State, due: seq<JobId>)
    requires IsDueBatch(s, due)
    ensures Remaining(Released(s, due)) + |due| == Remaining(s)
  {
    var s' := Released(s, due);
    var gone := Elements(due);
    DistinctCount(due);
    assert s'.downloadQueue == Reversed(due) + s.downloadQueue;
    assert s'.retryQueue.Keys == s.retryQueue.Keys - gone && gone <= s.retryQueue.Keys;
    assert |s'.retryQueue.Keys| == |s.retryQueue.Keys| - |gone|;
    assert PendingRows(s') == PendingRows(s) && Holders(s') == Holders(s);
  }

  lemma ReleaseStep(s: State, due: seq<JobId>, j: JobId)
    requires Idle(s) && OnItsWay(s, j)
    ensures Idle(Released(s, due)) && OnItsWay(Released(s, due), j)
  {
    var s' := Released(s, due);
    NoNewRow(s, s');
    if HasStatus(s, j, Pending) {
      assert forall t :: Holds(s, t, j) ==> Holds(s', t, j);
      ReadyCarried(s, s', j);
    }
  }

  lemma {:induction false} DistinctCount(xs: seq<JobId>)
    requires forall i, k | 0 <= i < k < |xs| :: xs[i] != xs[k]
    ensures |Elements(xs)| == |xs|
  {
    if xs != [] {
      DistinctCount(xs[1..]);
      assert Elements(xs) == {xs[0]} + Elements(xs[1..]);
      assert xs[0] !in Elements(xs[1..]);
    }
  }

  lemma QueueWork(s: State, s': State)
    requires s'.outbox == s.outbox && s'.retryQueue == s.retryQueue
    ensures Remaining(s') - 2 * |s'.downloadQueue| - |Holders(s')| == Remaining(s) - 2 * |s.downloadQueue| - |Holders(s)|
  {
    assert PendingRows(s') == PendingRows(s);
  }

  lemma PopHolds(s: State, t: TaskId)
    requires t !in s.tasks && s.downloadQueue != []
    ensures Holders(PoppedOne(s, t)) == Holders(s) + {t}
    ensures |PoppedOne(s, t).downloadQueue| == |s.downloadQueue| - 1
    ensures PoppedOne(s, t).outbox == s.outbox && PoppedOne(s, t).retryQueue == s.retryQueue
  {
  }

  lemma PopWork(s: State, t: TaskId)
    requires t !in s.tasks
    ensures Remaining(PoppedOne(s, t)) == Remaining(s) - (if s.downloadQueue == [] then 0 else 1)
    ensures PoppedOne(s, t).outbox == s.outbox && PoppedOne(s, t).tasks.Keys <= s.tasks.Keys + {t}
    ensures Holders(s) <= Holders(PoppedOne(s, t))
  {
    if s.downloadQueue != [] {
      PopHolds(s, t);
      QueueWork(s, PoppedOne(s, t));
    }
  }

  lemma PopWay(s: State, t: TaskId, j: JobId)
    requires Idle(s) && OnItsWay(s, j) && t !in s.tasks
    ensures Idle(PoppedOne(s, t)) && OnItsWay(PoppedOne(s, t), j)
  {
    var s' := PoppedOne(s, t);
    QueueKeepsTidy(s, Pop(t));
    if HasStatus(s, j, Pending) && s.downloadQueue != [] {
      var n := |s.downloadQueue| - 1;
      assert s.downloadQueue == s.downloadQueue[..n] + [s.downloadQueue[n]];
      assert Holds(s', t, s.downloadQueue[n]);
      assert forall u :: Holds(s, u, j) ==> Holds(s', u, j);
      ReadyCarried(s, s', j);
    }
  }

  lemma {:induction false} PopStep(s: State, slots: seq<TaskId>, j: JobId)
    requires Idle(s) && OnItsWay(s, j)
    requires forall i | 0 <= i < |slots| :: slots[i] !in s.tasks
    requires forall i, k | 0 <= i < k < |slots| :: slots[i] != slots[k]
    ensures var s' := PopInto(s, slots);
      && Idle(s') && OnItsWay(s', j) && s'.outbox == s.outbox && Holders(s) <= Holders(s')
      && Remaining(s') + (if slots == [] || s.downloadQueue == [] then 0 else 1) <= Remaining(s)
    decreases |slots|
  {
    if slots != [] {
      PopWork(s, slots[0]);
      PopWay(s, slots[0], j);
      PopStep(PoppedOne(s, slots[0]), slots[1..], j);
    }
  }

  lemma ClaimReleases(s: State, t: TaskId)
    ensures var s' := Claimed(s, t);
      && Holders(s') == Holders(s) - {t} && s'.downloadQueue == s.downloadQueue
      && s'.outbox == s.outbox && s'.retryQueue == s.retryQueue
  {
  }

  lemma ClaimWork(s: State, t: TaskId)
    ensures var s' := Claimed(s, t);
      && Remaining(s') == Remaining(s) - (if t in Holders(s) then 1 else 0)
      && s'.outbox == s.outbox && Holders(s') == Holders(s) - {t}
  {
    ClaimReleases(s, t);
    QueueWork(s, Claimed(s, t));
  }

  lemma ClaimWay(s: State, t: TaskId, j: JobId)
    requires Idle(s) && OnItsWay(s, j)
    ensures Idle(Claimed(s, t)) && OnItsWay(Claimed(s, t), j)
  {
    var s' := Claimed(s, t);
    QueueKeepsTidy(s, Claim(t));
    if HasStatus(s, j, Pending) && HasStatus(s', j, Pending) {
      assert forall u :: Holds(s, u, j) ==> Holds(s', u, j);
      ReadyCarried(s, s', j);
    }
  }

  lemma {:induction false} ClaimStep(s: State, claims: seq<TaskId>, j: JobId)
    requires Idle(s) && OnItsWay(s, j)
    ensures var s' := ClaimAll(s, claims);
      && Idle(s') && OnItsWay(s', j) && s'.outbox == s.outbox
      && Remaining(s') + (if exists t :: t in claims && t in Holders(s) then 1 else 0) <= Remaining(s)
    decreases |claims|
  {
    if claims != [] {
      ClaimWork(s, claims[0]);
      ClaimWay(s, claims[0], j);
      ClaimStep(Claimed(s, claims[0]), claims[1..], j);
      forall t | t in claims && t in Holders(s) ensures t == claims[0] || (t in claims[1..] && t in Holders(Claimed(s, claims[0]))) {
      }
    }
  }

  // Rounds.

  lemma TimePasses(s: State, d: nat, j: JobId)
    requires Idle(s) && OnItsWay(s, j)
    ensures var s' := Apply(s, Tick(d)); Idle(s') && OnItsWay(s', j) && Remaining(s') == Remaining(s)
  {
    var s' := Apply(s, Tick(d));
    NoNewRow(s, s');
    assert PendingRows(s') == PendingRows(s) && Holders(s') == Holders(s);
    if HasStatus(s, j, Pending) {
      assert forall t :: Holds(s, t, j) ==> Holds(s', t, j);
      ReadyCarried(s, s', j);
    }
  }

  lemma SameHolders(s: State, due: seq<JobId>)
    ensures Holders(Released(s, due)) == Holders(s)
  {
  }

  lemma RoundWay(s: State, r: Round, j: JobId)
    requires Idle(s) && OnItsWay(s, j) && IsRound(s, r)
    ensures var s3 := RelayRows(ClaimAll(PopInto(Released(s, r.due), r.slots), r.claims), r.rows);
      && Idle(s3) && OnItsWay(s3, j)
      && Remaining(s3) + (if Productive(s, r) then 1 else 0) <= Remaining(s)
  {
    var s1 := Released(s, r.due);
    var s2 := PopInto(s1, r.slots);
    ReleaseStep(s, r.due, j);
    ReleaseWork(s, r.due);
    SameHolders(s, r.due);
    PopStep(s1, r.slots, j);
    ClaimStep(s2, r.claims, j);
    assert PendingRows(ClaimAll(s2, r.claims)) == PendingRows(s);
    RelayRowsStep(ClaimAll(s2, r.claims), r.rows, j);
  }

  /** A round keeps `j` on its way, never adds to the remaining work, and lowers it if it is productive. */
  lemma RoundStep(s: State, r: Round, j: JobId)
    requires Idle(s) && OnItsWay(s, j) && IsRound(s, r)
    ensures var s' := DoRound(s, r);
      Idle(s') && OnItsWay(s', j) && Remaining(s') + (if Productive(s, r) then 1 else 0) <= Remaining(s)
  {
    RoundWay(s, r, j);
    TimePasses(RelayRows(ClaimAll(PopInto(Released(s, r.due), r.slots), r.claims), r.rows), r.elapsed, j);
  }

  /** While `j` is on its way a full turn finds something to do. */
  lemma FullTurnIsProductive(s: State, r: Round, j: JobId)
    requires Ready(s, j) && IsRound(s, r) && FullTurn(s, r)
    ensures Productive(s, r)
  {
    assert Released(s, r.due).downloadQueue == Reversed(r.due) + s.downloadQueue;
    if exists t :: Holds(s, t, j) {
      var t :| Holds(s, t, j);
      assert t in Holders(s);
    } else if exists u :: RowReady(s, u, j) {
      var u :| RowReady(s, u, j);
      assert u in PendingRows(s);
    }
  }

  ghost predicate AreRounds(s: State, rounds: seq<Round>)
    decreases |rounds|
  {
    rounds == [] || (IsRound(s, rounds[0]) && AreRounds(DoRound(s, rounds[0]), rounds[1..]))
  }

  function DoRounds(s: State, rounds: seq<Round>): State
    decreases |rounds|
  {
    if rounds == [] then s else DoRounds(DoRound(s, rounds[0]), rounds[1..])
  }

  /** How many of the rounds get something done or are full turns. */
  ghost function Working(s: State, rounds: seq<Round>): nat
    decreases |rounds|
  {
    if rounds == [] then 0
    else (if Productive(s, rounds[0]) || FullTurn(s, rounds[0]) then 1 else 0) + Working(DoRound(s, rounds[0]), rounds[1..])
  }

  /** However deep the backlog, whatever the batch limits cut off and however many turns find the pool
      full or the relay resting: once there have been as many working rounds as there was work left, a
      pending job on its way has been claimed. */
  lemma {:induction false} ReadyJobIsClaimed(s: State, rounds: seq<Round>, j: JobId)
    requires Idle(s) && OnItsWay(s, j)
    requires AreRounds(s, rounds) && Working(s, rounds) >= Remaining(s)
    ensures HasStatus(DoRounds(s, rounds), j, Processing)
    decreases |rounds|
  {
    if HasStatus(s, j, Processing) {
      StaysClaimed(s, rounds, j);
    } else {
      SomethingRemains(s, j);
      RoundStep(s, rounds[0], j);
      if FullTurn(s, rounds[0]) {
        FullTurnIsProductive(s, rounds[0], j);
      }
      ReadyJobIsClaimed(DoRound(s, rounds[0]), rounds[1..], j);
    }
  }

  /** So every covered pending job whose time has come is claimed. */
  lemma DueJobIsClaimed(s: State, rounds: seq<Round>, j: JobId)
    requires Idle(s) && Covered(s) && HasStatus(s, j, Pending) && TimeHasCome(s, j)
    requires AreRounds(s, rounds) && Working(s, rounds) >= Remaining(s)
    ensures HasStatus(DoRounds(s, rounds), j, Processing)
  {
    CoveredIsOnItsWay(s, j);
    ReadyJobIsClaimed(s, rounds, j);
  }

  lemma SomethingRemains(s: State, j: JobId)
    requires Ready(s, j)
    ensures Remaining(s) > 0
  {
    if exists u :: RowReady(s, u, j) {
      var u :| RowReady(s, u, j);
      assert u in PendingRows(s);
    } else if exists t :: Holds(s, t, j) {
      var t :| Holds(s, t, j);
      assert t in Holders(s);
    }
  }

  lemma {:induction false} StaysClaimed(s: State, rounds: seq<Round>, j: JobId)
    requires Idle(s) && HasStatus(s, j, Processing) && AreRounds(s, rounds)
    ensures HasStatus(DoRounds(s, rounds), j, Processing)
    decreases |rounds|
  {
    if rounds != [] {
      RoundStep(s, rounds[0], j);
      RoundKeepsClaimed(s, rounds[0], j);
      StaysClaimed(DoRound(s, rounds[0]), rounds[1..], j);
    }
  }

  lemma RoundKeepsClaimed(s: State, r: Round, j: JobId)
    requires HasStatus(s, j, Processing)
    ensures HasStatus(DoRound(s, r), j, Processing)
  {
    PopsKeepJobs(Released(s, r.due), r.slots);
    ClaimsKeepClaimed(PopInto(Released(s, r.due), r.slots), r.claims, j);
    RelaysKeepJobs(ClaimAll(PopInto(Released(s, r.due), r.slots), r.claims), r.rows);
  }

  lemma {:induction false} PopsKeepJobs(s: State, slots: seq<TaskId>)
    ensures PopInto(s, slots).jobs == s.jobs
    decreases |slots|
  {
    if slots != [] {
      PopsKeepJobs(PoppedOne(s, slots[0]), slots[1..]);
    }
  }

  lemma {:induction false} ClaimsKeepClaimed(s: State, claims: seq<TaskId>, j: JobId)
    requires HasStatus(s, j, Processing)
    ensures HasStatus(ClaimAll(s, claims), j, Processing)
    decreases |claims|
  {
    if claims != [] {
      ClaimsKeepClaimed(Claimed(s, claims[0]), claims[1..], j);
    }
  }

  lemma {:induction false} RelaysKeepJobs(s: State, rows: seq<RowId>)
    ensures RelayRows(s, rows).jobs == s.jobs
    decreases |rows|
  {
    if rows != [] {
      RelaysKeepJobs(RelayRow(s, rows[0]), rows[1..]);
    }
  }
}
