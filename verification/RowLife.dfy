/** The life of an outbox row: who writes it, what may close it, and when it is deleted. */
module RowLife {
  import opened Prelude
  import opened Pipeline
  import opened Coverage
  import opened Heartbeats
  import RetryPolicy
  import Worker

  /** A commit marks row `r` as processed: one that a relay pass has delivered, or a retry's own push. */
  predicate Marks(s: State, l: Label, r: RowId) {
    match l
    case Relay(RelayAck(rows, commits)) => commits && r in rows && r in s.relayed
    case Back(ScheduleAck(t, commits)) =>
      commits && t in s.tasks && s.tasks[t].Scheduling? && s.tasks[t].pushed && s.tasks[t].row == r
    case _ => false
  }

  predicate Rejects(s: State, l: Label, r: RowId) {
    l == Relay(RelayReject(r)) && r in s.outbox && s.outbox[r].status.RowPending? && !Usable(s.outbox[r].event)
  }

  /** A clean-up deletes what was closed more than a day ago. */
  predicate Purges(s: State, l: Label, r: RowId) {
    && l == Relay(CleanUp) && r in s.outbox && !s.outbox[r].status.RowPending?
    && s.outbox[r].processedAt.Some? && s.now - s.outbox[r].processedAt.value > 86_400_000
  }

  /** What a step does to a row that is there, and what a new row looks like. */
  ghost predicate RowLaw(s: State, l: Label, s': State, r: RowId) {
    if r in s.outbox then
      if Purges(s, l, r) then r !in s'.outbox
      else
        && r in s'.outbox && s'.outbox[r].job == s.outbox[r].job && s'.outbox[r].event == s.outbox[r].event
        && (if Marks(s, l, r) then s'.outbox[r].status == RowProcessed && s'.outbox[r].processedAt == Some(s.now)
            else if Rejects(s, l, r) then s'.outbox[r].status == RowFailed && s'.outbox[r].processedAt == Some(s.now)
            else s'.outbox[r] == s.outbox[r])
    else r in s'.outbox ==> s'.outbox[r].status == RowPending && s'.outbox[r].processedAt == None
  }

  lemma ApiRow(s: State, a: ApiStep, r: RowId)
    ensures RowLaw(s, Api(a), ApplyApi(s, a), r)
  {
  }

  lemma RelayRow(s: State, a: RelayStep, r: RowId)
    ensures RowLaw(s, Relay(a), ApplyRelay(s, a), r)
  {
  }

  lemma RequeueRow(s: State, a: RequeueStep, r: RowId)
    requires a.Requeue? || a.Cancel? || a.Sweep?
    ensures RowLaw(s, Back(a), ApplyRequeue(s, a), r)
  {
  }

  lemma ScheduleRow(s: State, a: RequeueStep, r: RowId)
    requires a.Retry? || a.SchedulePush? || a.ScheduleAck?
    ensures RowLaw(s, Back(a), ApplyRequeue(s, a), r)
  {
  }

  lemma BackRow(s: State, a: RequeueStep, r: RowId)
    ensures RowLaw(s, Back(a), ApplyRequeue(s, a), r)
  {
    if a.Requeue? || a.Cancel? || a.Sweep? {
      RequeueRow(s, a, r);
    } else {
      ScheduleRow(s, a, r);
    }
  }

  lemma QueueRows(s: State, a: QueueStep)
    ensures ApplyQueue(s, a).outbox == s.outbox
  {
  }

  lemma DrainRows(s: State, a: DrainStep)
    ensures ApplyDrain(s, a).outbox == s.outbox
  {
  }

  lemma StepRow(s: State, l: Label, r: RowId)
    ensures RowLaw(s, l, Apply(s, l), r)
  {
    match l
    case Tick(_) =>
    case Api(a) => ApiRow(s, a, r);
    case Relay(a) => RelayRow(s, a, r);
    case Queue(a) => QueueRows(s, a);
    case Work(a) => RunLeavesRows(s, a);
    case Back(a) => BackRow(s, a, r);
    case Drain(a) => DrainRows(s, a);
  }

  // No row is marked that was not delivered.

  /** The step is a push for row `r` that is acknowledged and has left an entry. */
  function Delivery(s: State, l: Label): set<RowId> {
    match l
    case Relay(RelayPush(r, reply)) => if CanRelay(s, r) && (reply.Delivered? || reply.Overtaken?) then {r} else {}
    case Back(SchedulePush(t, reply)) =>
      if t in s.tasks && s.tasks[t].Scheduling? && !s.tasks[t].pushed
         && (reply.Overtaken? || (reply.Delivered? && s.tasks[t].job !in s.retryQueue))
      then {s.tasks[t].row} else {}
    case _ => {}
  }

  function Deliveries(run: seq<Label>): set<RowId> {
    if run == [] then {}
    else Deliveries(run[..|run| - 1]) + Delivery(Run(Init, run[..|run| - 1]), run[|run| - 1])
  }

  ghost predicate OnlyDelivered(s: State, delivered: set<RowId>) {
    && s.relayed <= delivered
    && (forall t | t in s.tasks && s.tasks[t].Scheduling? && s.tasks[t].pushed :: s.tasks[t].row in delivered)
    && (forall r | r in s.outbox && s.outbox[r].status == RowProcessed :: r in delivered)
  }

  lemma OnlyDeliveriesCount(s: State, l: Label)
    ensures Apply(s, l).relayed <= s.relayed + Delivery(s, l)
    ensures forall t, r :: AcksRow(Apply(s, l), t, r) ==> AcksRow(s, t, r) || r in Delivery(s, l)
  {
    match l
    case Tick(_) =>
    case Api(a) => ApiKeepsAcks(s, a);
    case Relay(a) => RelayKeepsTasks(s, a);
    case Queue(a) => QueueKeepsAcks(s, a);
    case Work(a) => RunKeepsAcks(s, a);
    case Back(a) => BackAcks(s, a);
    case Drain(a) => DrainKeepsAcks(s, a);
  }

  lemma ApiKeepsAcks(s: State, a: ApiStep)
    ensures ApplyApi(s, a).relayed == s.relayed && ApplyApi(s, a).tasks == s.tasks
  {
  }

  lemma RelayKeepsTasks(s: State, a: RelayStep)
    ensures ApplyRelay(s, a).tasks == s.tasks && ApplyRelay(s, a).relayed <= s.relayed + Delivery(s, Relay(a))
  {
  }

  lemma QueueKeepsAcks(s: State, a: QueueStep)
    ensures ApplyQueue(s, a).relayed == s.relayed
    ensures forall t, r :: AcksRow(ApplyQueue(s, a), t, r) ==> AcksRow(s, t, r)
  {
  }

  lemma RunKeepsAcks(s: State, a: RunStep)
    ensures ApplyRun(s, a).relayed == s.relayed
    ensures forall t, r :: AcksRow(ApplyRun(s, a), t, r) ==> AcksRow(s, t, r)
  {
  }

  lemma DrainKeepsAcks(s: State, a: DrainStep)
    ensures ApplyDrain(s, a).relayed == s.relayed && ApplyDrain(s, a).tasks == s.tasks
  {
  }

  lemma ScheduleAcks(s: State, a: RequeueStep)
    requires a.Retry? || a.SchedulePush? || a.ScheduleAck?
    ensures ApplyRequeue(s, a).relayed == s.relayed
    ensures forall t, r :: AcksRow(ApplyRequeue(s, a), t, r) ==> AcksRow(s, t, r) || r in Delivery(s, Back(a))
  {
  }

  lemma RequeueAcks(s: State, a: RequeueStep)
    requires a.Requeue? || a.Cancel? || a.Sweep?
    ensures ApplyRequeue(s, a).relayed == s.relayed
    ensures forall t, r :: AcksRow(ApplyRequeue(s, a), t, r) ==> AcksRow(s, t, r)
  {
  }

  lemma BackAcks(s: State, a: RequeueStep)
    ensures ApplyRequeue(s, a).relayed == s.relayed
    ensures forall t, r :: AcksRow(ApplyRequeue(s, a), t, r) ==> AcksRow(s, t, r) || r in Delivery(s, Back(a))
  {
    if a.Requeue? || a.Cancel? || a.Sweep? {
      RequeueAcks(s, a);
    } else {
      ScheduleAcks(s, a);
    }
  }

  lemma DeliveredStep(s: State, l: Label, delivered: set<RowId>)
    requires OnlyDelivered(s, delivered)
    ensures OnlyDelivered(Apply(s, l), delivered + Delivery(s, l))
  {
    var s' := Apply(s, l);
    OnlyDeliveriesCount(s, l);
    forall t | t in s'.tasks && s'.tasks[t].Scheduling? && s'.tasks[t].pushed ensures s'.tasks[t].row in delivered + Delivery(s, l) {
      assert AcksRow(s', t, s'.tasks[t].row);
    }
    forall r | r in s'.outbox && s'.outbox[r].status == RowProcessed ensures r in delivered {
      StepRow(s, l, r);
    }
  }

  /** Over all runs a row is marked as processed only after a push of it was acknowledged. */
  lemma {:induction false} ProcessedWasDelivered(run: seq<Label>)
    ensures OnlyDelivered(Run(Init, run), Deliveries(run))
  {
    if run != [] {
      var n := |run| - 1;
      RunLast(Init, run);
      ProcessedWasDelivered(run[..n]);
      DeliveredStep(Run(Init, run[..n]), run[n], Deliveries(run[..n]));
    }
  }

  // How long a closed row is kept.

  /** The ticks since row `r` was closed. */
  function SinceClosed(run: seq<Label>, r: RowId): nat {
    if run == [] then 0
    else
      var n := |run| - 1;
      var s := Run(Init, run[..n]);
      if Marks(s, run[n], r) || Rejects(s, run[n], r) then 0 else SinceClosed(run[..n], r) + Elapsed(run[n])
  }

  lemma {:induction false} ClosedAge(run: seq<Label>, r: RowId)
    requires r in Run(Init, run).outbox && !Run(Init, run).outbox[r].status.RowPending?
    ensures var s := Run(Init, run); var at := s.outbox[r].processedAt;
      at.Some? && s.now - at.value == SinceClosed(run, r)
  {
    if run != [] {
      var n := |run| - 1;
      var s := Run(Init, run[..n]);
      RunLast(Init, run);
      StepRow(s, run[n], r);
      StepStamps(s, run[n], 0);
      if !Marks(s, run[n], r) && !Rejects(s, run[n], r) {
        ClosedAge(run[..n], r);
      }
    }
  }

  /** Over all runs a clean-up deletes a row exactly if it was closed more than a day of ticks ago; a
      pending row is never deleted, however old. */
  lemma DeletedExactly(run: seq<Label>, r: RowId)
    requires r in Run(Init, run).outbox
    ensures var s := Run(Init, run);
      r !in Apply(s, Relay(CleanUp)).outbox <==> !s.outbox[r].status.RowPending? && SinceClosed(run, r) > 86_400_000
  {
    var s := Run(Init, run);
    StepRow(s, Relay(CleanUp), r);
    if !s.outbox[r].status.RowPending? {
      ClosedAge(run, r);
    }
  }

  // The result of a whole relay pass.

  ghost predicate AckedAt(s: State, entries: seq<RowId>, replies: seq<Reply>, r: RowId, i: nat)
    requires |entries| == |replies|
  {
    i < |entries| && entries[i] == r && r in s.outbox && Usable(s.outbox[r].event) && (replies[i].Delivered? || replies[i].Overtaken?)
  }

  ghost predicate PassReady(s: State, entries: seq<RowId>) {
    && (forall i | 0 <= i < |entries| :: Worker.CanPush(s, entries[i]))
    && (forall i, k | 0 <= i < k < |entries| :: entries[i] != entries[k])
  }

  lemma {:induction false} PushedRelayed(s: State, entries: seq<RowId>, replies: seq<Reply>, r: RowId)
    requires |entries| == |replies| && PassReady(s, entries)
    ensures var s' := Worker.PushAll(s, entries, replies);
      && s'.outbox == s.outbox && s'.now == s.now
      && (r in s'.relayed <==> r in s.relayed || exists i: nat :: AckedAt(s, entries, replies, r, i))
  {
    if entries != [] {
      var n := |entries| - 1;
      PushedRelayed(s, entries[..n], replies[..n], r);
      PushedRelayed(s, entries[..n], replies[..n], entries[n]);
      var s0 := Worker.PushAll(s, entries[..n], replies[..n]);
      assert forall i: nat :: AckedAt(s, entries[..n], replies[..n], r, i) <==> i < n && AckedAt(s, entries, replies, r, i);
      assert CanRelay(s0, entries[n]) <==> Usable(s.outbox[entries[n]].event);
      PushMarks(s0, entries[n], replies[n]);
      assert AckedAt(s, entries, replies, r, n) <==> r == entries[n] && Usable(s.outbox[r].event) && Acknowledged(replies[n]);
    }
  }

  lemma PushMarks(s: State, r: RowId, reply: Reply)
    ensures var s' := ApplyRelay(s, RelayPush(r, reply));
      && s'.outbox == s.outbox && s'.now == s.now
      && s'.relayed == s.relayed + if CanRelay(s, r) && Acknowledged(reply) then {r} else {}
  {
  }

  /** After a pass that commits, its rows are processed if their push was acknowledged, failed if they can
      never be delivered, and as they were otherwise; after one that does not commit nothing is closed. */
  lemma PassCloses(s: State, entries: seq<RowId>, replies: seq<Reply>, commits: bool, r: RowId)
    requires |entries| == |replies| && PassReady(s, entries) && s.relayed == {} && r in s.outbox
    ensures var s' := Worker.RelayPass(s, entries, replies, commits);
      && r in s'.outbox && s'.relayed == {}
      && s'.outbox[r].status ==
           if commits && r in entries && !Usable(s.outbox[r].event) then RowFailed
           else if commits && exists i: nat :: AckedAt(s, entries, replies, r, i) then RowProcessed
           else s.outbox[r].status
  {
    PushedRelayed(s, entries, replies, r);
    var s0 := Worker.PushAll(s, entries, replies);
    forall u | u in s0.relayed ensures u in Elements(entries) {
      PushedRelayed(s, entries, replies, u);
    }
  }
}
