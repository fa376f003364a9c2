/** What the pool is for: every slot is started, a caller gets a driver when there is one, every driver at
    work has shaken hands, and a shutdown comes to its end. */
module PoolLife {
  import opened Prelude
  import opened DriverPool

  // Starting.

  /** The first call hands a start of every slot to the event loop; no later one does, and none after
      shutdown. */
  lemma EverySlotIsQueued(s: State)
    requires Unlocked(s)
    ensures var s' := Apply(s, EnsureStarted);
      if s.started || s.shuttingDown then s' == s
      else s'.started && s' == s.(started := true, queued := s'.queued) && forall i: nat :: i in s'.queued <==> i < |s.slots|
  {
  }

  /** A start that is let run ends with a usable slot, and one that a caller waits for is his to claim. */
  lemma StartMakesUsable(s: State, i: nat, p: Pid)
    requires StartsAt(s, i) && s.starts[i].Spawning? && s.queued == {} && FreshPid(s, p)
    requires !s.shuttingDown && !s.slots[i].busy
    ensures var s' := Apply(Apply(s, Spawned(i, p)), Handshake(i, true)); var asker := s.starts[i].asker;
      && i < |s'.slots| && s'.slots[i] == Slot(Some(p), true, false, false) && p in s'.live && Usable(s', i)
      && i !in s'.starts
      && (asker.Some? ==> asker.value in s'.claims && s'.claims[asker.value] == i)
  {
  }

  /** A queued start reserves its slot, so that nobody else starts it. */
  lemma QueuedStartReserves(s: State, i: nat)
    requires i in s.queued && i < |s.slots| && !s.shuttingDown && !s.slots[i].starting
    ensures var s' := Apply(s, RunQueued(i));
      i !in s'.queued && s'.slots[i] == s.slots[i].(starting := true) && i in s'.starts && s'.starts[i] == Spawning(None)
  {
  }

  /** A driver that does not shake hands, or does so during shutdown, is killed and its slot is free. */
  lemma BadHandshakeIsKilled(s: State, i: nat, ok: bool)
    requires StartsAt(s, i) && s.starts[i].Handshaking? && (!ok || s.shuttingDown)
    ensures var s' := Apply(Apply(s, Handshake(i, ok)), Discarded(i));
      s.starts[i].pid !in s'.live && i !in s'.starts && i < |s'.slots|
      && s'.slots[i] == s.slots[i].(proc := None, starting := false) && s'.claims == s.claims
  {
  }

  // Checking out.

  predicate Ready(s: State, i: nat) {
    i < |s.slots| && !s.slots[i].busy && !s.slots[i].starting && Alive(s, s.slots[i].proc) && s.slots[i].ready
  }

  predicate Idle(s: State, i: nat) {
    i < |s.slots| && !s.slots[i].busy && !s.slots[i].starting
  }

  ghost predicate FirstReady(s: State, i: nat) {
    Ready(s, i) && forall m: nat | m < i :: !Ready(s, m)
  }

  ghost predicate FirstIdle(s: State, i: nat) {
    Idle(s, i) && (forall m: nat | m < i :: !Idle(s, m)) && forall m: nat :: !Ready(s, m)
  }

  ghost predicate Asks(s: State, j: JobId) {
    Unlocked(s) && !Known(s, j) && s.started && !s.shuttingDown
  }

  /** A caller gets the first ready driver at once. */
  lemma ReadyDriverIsGiven(s: State, j: JobId, i: nat)
    requires Asks(s, j) && FirstReady(s, i)
    ensures var s' := Apply(s, Checkout(j));
      && j in s'.jobs && s'.jobs[j] == Job(i, s.slots[i].proc.value, Working)
      && s'.slots == s.slots[i := s.slots[i].(busy := true)] && s'.live == s.live && s'.starts == s.starts
  {
    var k := FirstUsable(s, 0);
    assert Usable(s, i);
    assert k < |s.slots| ==> Ready(s, k);
    assert k == i;
  }

  /** If there is none, the first slot that is neither busy nor being started is started for him. */
  lemma IdleSlotIsStarted(s: State, j: JobId, i: nat)
    requires Asks(s, j) && FirstIdle(s, i)
    ensures var s' := Apply(s, Checkout(j));
      && i in s'.starts && s'.starts[i] == Spawning(Some(j)) && s'.jobs == s.jobs
      && s'.slots == s.slots[i := s.slots[i].(starting := true)]
  {
    var k, f := FirstUsable(s, 0), FirstFree(s, 0);
    assert !Ready(s, k);
    assert f < |s.slots| ==> Idle(s, f);
    assert Free(s, i);
    assert f == i && k == |s.slots|;
  }

  /** Only if there is no such slot either does he go away empty. */
  lemma NoSlotNoDriver(s: State, j: JobId)
    requires Asks(s, j) && forall m: nat :: !Idle(s, m)
    ensures Apply(s, Checkout(j)) == s
  {
    var k, f := FirstUsable(s, 0), FirstFree(s, 0);
    assert !Idle(s, k) && !Idle(s, f);
  }

  /** After his start he gets the slot exactly if it is still there for him. */
  lemma ClaimServes(s: State, j: JobId)
    requires Unlocked(s) && j in s.claims && s.claims[j] < |s.slots| && j !in s.jobs
    ensures var s' := Apply(s, Claim(j)); var i := s.claims[j]; var slot := s.slots[i];
      && j !in s'.claims
      && (j in s'.jobs <==> slot.ready && slot.proc.Some? && !slot.busy && !slot.starting)
      && (j in s'.jobs ==> s'.jobs[j] == Job(i, slot.proc.value, Working) && s'.slots[i] == slot.(busy := true))
      && (j !in s'.jobs ==> s'.slots == s.slots)
  {
  }

  /** A live and ready driver goes back to work; of a dead one the slot is empty and can be started. */
  lemma ReleaseReturns(s: State, j: JobId)
    requires Unlocked(s) && Has(s, j) && s.jobs[j].phase != Killing && !s.slots[s.jobs[j].slot].starting
    ensures var s' := Apply(s, Release(j)); var i := s.jobs[j].slot; var slot := s.slots[i];
      && j !in s'.jobs && Free(s', i)
      && (slot.ready && slot.proc.Some? && slot.proc.value in s.live ==> Usable(s', i) && s'.slots[i].proc == slot.proc)
      && (!slot.ready || slot.proc.None? || slot.proc.value !in s.live ==> s'.slots[i] == EmptySlot)
      && s'.live == s.live
  {
  }

  /** A job that gives up has its driver killed, and no other. */
  lemma GivingUpKills(s: State, j: JobId)
    requires Has(s, j) && s.jobs[j].phase == Working
    ensures var s1 := Apply(s, KillBusy(j)); var s2 := Apply(s1, KillDone(j));
      && s1.live == s.live && s1.slots[s.jobs[j].slot].proc == None && !s1.slots[s.jobs[j].slot].ready
      && s2.live == s.live - {s.jobs[j].pid} && Has(s2, j) && s2.jobs[j].phase == Killed
  {
  }

  /** A driver that dies under its job leaves the job its slot, until the release empties it for a new start. */
  lemma CrashedDriverIsDropped(s: State, j: JobId)
    requires Unlocked(s) && Has(s, j) && s.jobs[j].phase == Working && !s.slots[s.jobs[j].slot].starting
    requires s.slots[s.jobs[j].slot].proc == Some(s.jobs[j].pid)
    ensures var s1 := Apply(s, Exit(s.jobs[j].pid)); var s2 := Apply(s1, Release(j)); var i := s.jobs[j].slot;
      && s1.slots == s.slots && s1.jobs == s.jobs
      && s.jobs[j].pid !in s2.live && s2.slots[i] == EmptySlot && Free(s2, i) && j !in s2.jobs
  {
  }

  // Everyone at work has shaken hands.

  function Greets(s: State, step: Step): set<Pid> {
    match step
    case Handshake(i, ok) =>
      if ok && StartsAt(s, i) && s.starts[i].Handshaking? && !s.shuttingDown then {s.starts[i].pid} else {}
    case _ => {}
  }

  /** The drivers whose good handshake has been read. */
  function Greeted(size: nat, steps: seq<Step>): set<Pid> {
    if steps == [] then {}
    else Greeted(size, steps[..|steps| - 1]) + Greets(Run(NewPool(size), steps[..|steps| - 1]), steps[|steps| - 1])
  }

  ghost predicate OnlyGreeted(s: State, greeted: set<Pid>) {
    && (forall i | 0 <= i < |s.slots| :: s.slots[i].ready && s.slots[i].proc.Some? ==> s.slots[i].proc.value in greeted)
    && (forall j | j in s.jobs :: s.jobs[j].pid in greeted)
  }

  lemma StartGreets(s: State, step: Step, greeted: set<Pid>)
    requires SlotsOk(s) && OnlyGreeted(s, greeted)
    ensures OnlyGreeted(ApplyStart(s, step), greeted + Greets(s, step))
  {
    if step.Handshake? && StartsAt(s, step.slot) {
      assert SlotOk(s, step.slot);
    }
  }

  lemma JobGreets(s: State, step: Step, greeted: set<Pid>)
    requires OnlyGreeted(s, greeted)
    ensures OnlyGreeted(ApplyJob(s, step), greeted)
  {
  }

  lemma ShutdownGreets(s: State, step: Step, greeted: set<Pid>)
    requires OnlyGreeted(s, greeted)
    ensures OnlyGreeted(ApplyShutdown(s, step), greeted)
  {
  }

  lemma StepGreets(s: State, step: Step, greeted: set<Pid>)
    requires SlotsOk(s) && OnlyGreeted(s, greeted)
    ensures OnlyGreeted(Apply(s, step), greeted + Greets(s, step))
  {
    match step
    case EnsureStarted | RunQueued(_) | Spawned(_, _) | SpawnFailed(_) | Handshake(_, _) | Discarded(_) => StartGreets(s, step, greeted);
    case Exit(p) =>
    case ShutdownBegin | ShutdownLook | ShutdownKill | ShutdownEnd => ShutdownGreets(s, step, greeted);
    case _ => JobGreets(s, step, greeted);
  }

  lemma RunLast(s: State, steps: seq<Step>)
    requires steps != []
    ensures Run(s, steps) == Apply(Run(s, steps[..|steps| - 1]), steps[|steps| - 1])
    decreases |steps|
  {
    if |steps| > 1 {
      assert steps[1..][..|steps| - 2] == steps[..|steps| - 1][1..];
      RunLast(Apply(s, steps[0]), steps[1..]);
    }
  }

  /** In every reachable state the driver of every job, and that of every ready slot, has sent a good
      handshake. */
  lemma {:induction false} WorkersHaveGreeted(size: nat, steps: seq<Step>)
    ensures OnlyGreeted(Run(NewPool(size), steps), Greeted(size, steps))
  {
    if steps != [] {
      var n := |steps| - 1;
      RunLast(NewPool(size), steps);
      WorkersHaveGreeted(size, steps[..n]);
      NewPoolInvariant(size);
      RunKeepsInvariant(NewPool(size), steps[..n]);
      StepGreets(Run(NewPool(size), steps[..n]), steps[n], Greeted(size, steps[..n]));
    }
  }

  // Shutting down.

  /** The steps with which `shutdown` deals with the slot it is at. */
  function SweepOf(s: State): seq<Step> {
    if Sweeping(s) && s.sweep.value.victim.None? && Alive(s, s.slots[s.sweep.value.at].proc) then [ShutdownLook, ShutdownKill]
    else [ShutdownLook]
  }

  ghost predicate Swept(s: State, s': State)
    requires Sweeping(s)
  {
    var k := s.sweep.value.at;
    && s'.sweep == Some(Sweep(k + 1, None)) && s'.shuttingDown == s.shuttingDown
    && s'.slots == s.slots[k := Dead(s.slots[k])]
    && s'.live == s.live - (if s.slots[k].proc.Some? then {s.slots[k].proc.value} else {})
    && s'.starts == s.starts && s'.jobs == s.jobs
  }

  lemma EmptySlotPassed(s: State)
    requires Sweeping(s) && s.sweep.value.victim.None? && !Alive(s, s.slots[s.sweep.value.at].proc)
    ensures Swept(s, Apply(s, ShutdownLook))
  {
  }

  lemma DriverKilled(s: State)
    requires Sweeping(s) && s.sweep.value.victim.None? && Alive(s, s.slots[s.sweep.value.at].proc)
    ensures Swept(s, Apply(Apply(s, ShutdownLook), ShutdownKill))
  {
  }

  lemma RunOne(s: State, a: Step)
    ensures Run(s, [a]) == Apply(s, a)
  {
    assert [a][1..] == [];
  }

  lemma RunTwo(s: State, a: Step, b: Step)
    ensures Run(s, [a, b]) == Apply(Apply(s, a), b)
  {
    assert [a, b][1..] == [b];
    RunOne(Apply(s, a), b);
  }

  /** One slot of the sweep: its driver is dead, the slot is empty, and the next one is looked at. */
  lemma OneSlotSwept(s: State)
    requires Sweeping(s) && s.sweep.value.victim.None?
    ensures Swept(s, Run(s, SweepOf(s)))
  {
    if Alive(s, s.slots[s.sweep.value.at].proc) {
      DriverKilled(s);
      RunTwo(s, ShutdownLook, ShutdownKill);
    } else {
      EmptySlotPassed(s);
      RunOne(s, ShutdownLook);
    }
  }

  function SweepFrom(s: State, slots: nat): seq<Step>
    decreases slots
  {
    if slots == 0 || !Sweeping(s) then [ShutdownEnd] else SweepOf(s) + SweepFrom(Run(s, SweepOf(s)), slots - 1)
  }

  lemma {:induction false} RunAppend(s: State, a: seq<Step>, b: seq<Step>)
    ensures Run(s, a + b) == Run(Run(s, a), b)
    decreases |a|
  {
    if a == [] {
      assert a + b == b;
    } else {
      assert (a + b)[1..] == a[1..] + b;
      RunAppend(Apply(s, a[0]), a[1..], b);
    }
  }

  /** A shutdown that nobody disturbs comes to its end: with no start and no kill under way, the pool is
      then down for good. */
  lemma {:induction false} ShutdownEnds(s: State)
    requires s.sweep.Some? && s.sweep.value.victim.None? && s.sweep.value.at <= |s.slots| && s.shuttingDown
    requires s.starts == map[] && forall j | j in s.jobs :: s.jobs[j].phase != Killing
    ensures Down(Run(s, SweepFrom(s, |s.slots| - s.sweep.value.at)))
    ensures !Run(s, SweepFrom(s, |s.slots| - s.sweep.value.at)).started
    decreases |s.slots| - s.sweep.value.at
  {
    if Sweeping(s) {
      var s1 := Run(s, SweepOf(s));
      OneSlotSwept(s);
      ShutdownEnds(s1);
      RunAppend(s, SweepOf(s), SweepFrom(s1, |s1.slots| - s1.sweep.value.at));
    } else {
      RunOne(s, ShutdownEnd);
    }
  }
}
