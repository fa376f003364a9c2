/** The warm pool of driver processes, at the grain of the code between two awaits.

    The lock is held for one step, except by `shutdown`, which keeps it while it waits for the
    processes it kills. Callers bring the pool up (`ensure_started`) before they run a job. A driver
    may exit at any moment; a kill has taken effect when the code that awaits it goes on. Not in the
    model: a cancellation that lands inside a start or a kill. */
module DriverPool {
  import opened Prelude

  type Pid = nat
  type JobId = nat

  datatype Slot = Slot(proc: Option<Pid>, ready: bool, busy: bool, starting: bool)

  const EmptySlot := Slot(None, false, false, false)

  /** One start of a slot: the spawn, the wait for the handshake, the kill of a driver that failed it.
      The asker is the checkout that waits for the start, if any. */
  datatype Start =
    | Spawning(asker: Option<JobId>)
    | Handshaking(pid: Pid, asker: Option<JobId>)
    | Discarding(pid: Pid)

  datatype Phase = Working | Killing | Killed

  datatype Job = Job(slot: nat, pid: Pid, phase: Phase)

  /** How far `shutdown` has come, and the driver it is waiting for. */
  datatype Sweep = Sweep(at: nat, victim: Option<Pid>)

  datatype State = State(
    slots: seq<Slot>,
    started: bool,
    shuttingDown: bool,
    queued: set<nat>,             // starts handed to the event loop whose first segment has not run
    starts: map<nat, Start>,
    claims: map<JobId, nat>,      // checkouts whose start succeeded and that wait for the lock
    jobs: map<JobId, Job>,
    sweep: Option<Sweep>,
    live: set<Pid>)

  function NewPool(size: nat): State {
    State(seq(size, _ => EmptySlot), false, false, {}, map[], map[], map[], None, {})
  }

  predicate Alive(s: State, p: Option<Pid>) {
    p.Some? && p.value in s.live
  }

  predicate Free(s: State, i: nat)
    requires i < |s.slots|
  {
    !s.slots[i].busy && !s.slots[i].starting
  }

  predicate Usable(s: State, i: nat)
    requires i < |s.slots|
  {
    Free(s, i) && Alive(s, s.slots[i].proc) && s.slots[i].ready
  }

  /** The first usable slot from `i` on, or the pool size. */
  function FirstUsable(s: State, i: nat): (k: nat)
    requires i <= |s.slots|
    ensures i <= k <= |s.slots|
    ensures k < |s.slots| ==> Usable(s, k)
    ensures forall m | i <= m < k :: !Usable(s, m)
    decreases |s.slots| - i
  {
    if i == |s.slots| || Usable(s, i) then i else FirstUsable(s, i + 1)
  }

  function FirstFree(s: State, i: nat): (k: nat)
    requires i <= |s.slots|
    ensures i <= k <= |s.slots|
    ensures k < |s.slots| ==> Free(s, k)
    ensures forall m | i <= m < k :: !Free(s, m)
    decreases |s.slots| - i
  {
    if i == |s.slots| || Free(s, i) then i else FirstFree(s, i + 1)
  }

  datatype Step =
    | EnsureStarted
    | RunQueued(slot: nat)
    | Checkout(job: JobId)
    | Spawned(slot: nat, pid: Pid)
    | SpawnFailed(slot: nat)
    | Handshake(slot: nat, ok: bool)
    | Discarded(slot: nat)
    | Claim(job: JobId)
    | Exit(pid: Pid)
    | KillBusy(job: JobId)
    | KillDone(job: JobId)
    | Release(job: JobId)
    | LoseRelease(job: JobId)
    | ShutdownBegin
    | ShutdownLook
    | ShutdownKill
    | ShutdownEnd

  function Indices(n: nat): (r: set<nat>)
    ensures forall i: nat :: i in r <==> i < n
  {
    if n == 0 then {} else Indices(n - 1) + {n - 1}
  }

  /** A process nobody has heard of. */
  predicate FreshPid(s: State, p: Pid) {
    && p !in s.live
    && (forall i | 0 <= i < |s.slots| :: s.slots[i].proc != Some(p))
    && (forall i | i in s.starts :: !s.starts[i].Spawning? ==> s.starts[i].pid != p)
    && (forall j | j in s.jobs :: s.jobs[j].pid != p)
    && (s.sweep.Some? ==> s.sweep.value.victim != Some(p))
  }

  function WithSlot(s: State, i: nat, slot: Slot): State
    requires i < |s.slots|
  {
    s.(slots := s.slots[i := slot])
  }

  function WithoutPid(s: State, p: Pid): State {
    s.(live := s.live - {p})
  }

  function Dead(slot: Slot): Slot {
    slot.(proc := None, ready := false)
  }

  predicate Known(s: State, j: JobId) {
    j in s.jobs || j in s.claims || exists i | i in s.starts :: !s.starts[i].Discarding? && s.starts[i].asker == Some(j)
  }

  /** First segment of `_start_slot`: reserve the slot, before the spawn. */
  function Reserved(s: State, i: nat, asker: Option<JobId>): State
    requires i < |s.slots|
  {
    if s.slots[i].starting || s.shuttingDown then s
    else WithSlot(s, i, s.slots[i].(starting := true)).(starts := s.starts[i := Spawning(asker)])
  }

  function Given(s: State, i: nat, j: JobId): State
    requires i < |s.slots| && s.slots[i].proc.Some?
  {
    WithSlot(s, i, s.slots[i].(busy := true)).(jobs := s.jobs[j := Job(i, s.slots[i].proc.value, Working)])
  }

  function CheckedOut(s: State, j: JobId): State {
    var k := FirstUsable(s, 0);
    var f := FirstFree(s, 0);
    if s.shuttingDown then s
    else if k < |s.slots| then Given(s, k, j)
    else if f < |s.slots| then Reserved(s, f, Some(j))
    else s
  }

  function Spawn(s: State, i: nat, p: Pid): State
    requires i < |s.slots| && i in s.starts && s.starts[i].Spawning?
  {
    WithSlot(s, i, s.slots[i].(proc := Some(p), ready := false))
      .(live := s.live + {p}, starts := s.starts[i := Handshaking(p, s.starts[i].asker)])
  }

  function EndStart(s: State, i: nat, slot: Slot): State
    requires i < |s.slots|
  {
    WithSlot(s, i, slot.(starting := false)).(starts := s.starts - {i})
  }

  function ShookHands(s: State, i: nat, ok: bool): State
    requires i < |s.slots| && i in s.starts && s.starts[i].Handshaking?
  {
    if ok && !s.shuttingDown then
      var s1 := EndStart(s, i, s.slots[i].(ready := true));
      if s.starts[i].asker.Some? then s1.(claims := s.claims[s.starts[i].asker.value := i]) else s1
    else s.(starts := s.starts[i := Discarding(s.starts[i].pid)])
  }

  function Claimed(s: State, j: JobId): State
    requires j in s.claims && s.claims[j] < |s.slots|
  {
    var i := s.claims[j];
    var s1 := s.(claims := s.claims - {j});
    if s.slots[i].ready && s.slots[i].proc.Some? && Free(s, i) then Given(s1, i, j) else s1
  }

  function ReleasedSlot(s: State, i: nat): Slot
    requires i < |s.slots|
  {
    var slot := s.slots[i].(busy := false);
    if Alive(s, slot.proc) && slot.ready then slot else Dead(slot)
  }

  /** The lock is taken by `shutdown` alone across awaits. */
  predicate Unlocked(s: State) {
    s.sweep.None?
  }

  predicate Sweeping(s: State) {
    s.sweep.Some? && s.sweep.value.at < |s.slots|
  }

  function Passed(s: State): State
    requires Sweeping(s)
  {
    var k := s.sweep.value.at;
    WithSlot(s, k, Dead(s.slots[k])).(sweep := Some(Sweep(k + 1, None)))
  }

  function LookedAt(s: State): State
    requires Sweeping(s)
  {
    var k := s.sweep.value.at;
    if Alive(s, s.slots[k].proc) then s.(sweep := Some(Sweep(k, s.slots[k].proc))) else Passed(s)
  }

  predicate Has(s: State, j: JobId) {
    j in s.jobs && s.jobs[j].slot < |s.slots|
  }

  predicate StartsAt(s: State, i: nat) {
    i < |s.slots| && i in s.starts
  }

  function ApplyStart(s: State, step: Step): (r: State)
    ensures |r.slots| == |s.slots|
  {
    match step
    case EnsureStarted =>
      if s.started || s.shuttingDown || !Unlocked(s) then s
      else s.(started := true, queued := Indices(|s.slots|))
    case RunQueued(i) =>
      if i in s.queued && i < |s.slots| then Reserved(s.(queued := s.queued - {i}), i, None) else s
    case Spawned(i, p) =>
      // The event loop is first in, first out: the queued first segments run before any spawn is done.
      if StartsAt(s, i) && s.starts[i].Spawning? && s.queued == {} && FreshPid(s, p) then Spawn(s, i, p) else s
    case SpawnFailed(i) => if StartsAt(s, i) && s.starts[i].Spawning? then EndStart(s, i, s.slots[i]) else s
    case Handshake(i, ok) => if StartsAt(s, i) && s.starts[i].Handshaking? then ShookHands(s, i, ok) else s
    case Discarded(i) =>
      if StartsAt(s, i) && s.starts[i].Discarding?
      then EndStart(WithoutPid(s, s.starts[i].pid), i, s.slots[i].(proc := None)) else s
    case _ => s
  }

  function ApplyJob(s: State, step: Step): (r: State)
    ensures |r.slots| == |s.slots|
  {
    match step
    case Checkout(j) =>
      if Unlocked(s) && !Known(s, j) && (s.started || s.shuttingDown) then CheckedOut(s, j) else s
    case Claim(j) => if Unlocked(s) && j in s.claims && s.claims[j] < |s.slots| then Claimed(s, j) else s
    case KillBusy(j) =>
      if Has(s, j) && s.jobs[j].phase == Working
      then WithSlot(s, s.jobs[j].slot, Dead(s.slots[s.jobs[j].slot])).(jobs := s.jobs[j := s.jobs[j].(phase := Killing)])
      else s
    case KillDone(j) =>
      if Has(s, j) && s.jobs[j].phase == Killing
      then WithoutPid(s, s.jobs[j].pid).(jobs := s.jobs[j := s.jobs[j].(phase := Killed)]) else s
    case Release(j) =>
      if Unlocked(s) && Has(s, j) && s.jobs[j].phase != Killing
      then WithSlot(s, s.jobs[j].slot, ReleasedSlot(s, s.jobs[j].slot)).(jobs := s.jobs - {j}) else s
    case LoseRelease(j) =>
      // Cancelled while waiting for the lock: the slot stays busy.
      if Has(s, j) && s.jobs[j].phase != Killing then s.(jobs := s.jobs - {j}) else s
    case _ => s
  }

  function ApplyShutdown(s: State, step: Step): (r: State)
    ensures |r.slots| == |s.slots|
  {
    match step
    case ShutdownBegin => if Unlocked(s) then s.(shuttingDown := true, sweep := Some(Sweep(0, None))) else s
    case ShutdownLook => if Sweeping(s) && s.sweep.value.victim.None? then LookedAt(s) else s
    case ShutdownKill =>
      if Sweeping(s) && s.sweep.value.victim.Some? then Passed(WithoutPid(s, s.sweep.value.victim.value)) else s
    case ShutdownEnd =>
      if s.sweep.Some? && s.sweep.value.at >= |s.slots| then s.(started := false, sweep := None) else s
    case _ => s
  }

  function Apply(s: State, step: Step): (r: State)
    ensures |r.slots| == |s.slots|
  {
    match step
    case EnsureStarted | RunQueued(_) | Spawned(_, _) | SpawnFailed(_) | Handshake(_, _) | Discarded(_) => ApplyStart(s, step)
    case Exit(p) => WithoutPid(s, p)
    case ShutdownBegin | ShutdownLook | ShutdownKill | ShutdownEnd => ApplyShutdown(s, step)
    case _ => ApplyJob(s, step)
  }

  function Run(s: State, steps: seq<Step>): State
    decreases |steps|
  {
    if steps == [] then s else Run(Apply(s, steps[0]), steps[1..])
  }

  /** The pool object. Each method is the code between two awaits; who is waiting for what is ghost. */
  class Pool {
    var slots: seq<Slot>
    var started: bool
    var shuttingDown: bool
    var live: set<Pid>
    ghost var queued: set<nat>
    ghost var starts: map<nat, Start>
    ghost var claims: map<JobId, nat>
    ghost var jobs: map<JobId, Job>
    ghost var sweep: Option<Sweep>

    ghost function View(): State
      reads this
    {
      State(slots, started, shuttingDown, queued, starts, claims, jobs, sweep, live)
    }

    constructor (size: nat)
      ensures View() == NewPool(size)
    {
      slots := seq(size, _ => EmptySlot);
      started, shuttingDown, live := false, false, {};
      queued, starts, claims, jobs, sweep := {}, map[], map[], map[], None;
    }

    method EnsureStarted() returns (spawns: bool)
      requires Unlocked(View())
      modifies this`started, this`queued
      ensures View() == Apply(old(View()), Step.EnsureStarted)
      ensures spawns == (!old(started) && !shuttingDown)
    {
      if started || shuttingDown {
        return false;
      }
      started := true;
      queued := Indices(|slots|);
      spawns := true;
    }

    method StartSlot(i: nat, ghost asker: Option<JobId>) returns (reserved: bool)
      requires i < |slots|
      modifies this`slots, this`starts
      ensures View() == Reserved(old(View()), i, asker)
      ensures reserved == (!old(slots)[i].starting && !shuttingDown)
    {
      if slots[i].starting {
        return false;
      }
      if shuttingDown {
        return false;
      }
      slots := slots[i := slots[i].(starting := true)];
      starts := starts[i := Spawning(asker)];
      reserved := true;
    }

    method HandshakeRead(i: nat, ok: bool) returns (kill: bool)
      requires StartsAt(View(), i) && starts[i].Handshaking?
      modifies this`slots, this`starts, this`claims
      ensures View() == ShookHands(old(View()), i, ok)
      ensures kill == (!ok || shuttingDown)
    {
      kill := !ok || shuttingDown;
      if kill {
        starts := starts[i := Discarding(starts[i].pid)];
        return;
      }
      if starts[i].asker.Some? {
        claims := claims[starts[i].asker.value := i];
      }
      slots := slots[i := slots[i].(ready := true, starting := false)];
      starts := starts - {i};
    }

    /** A usable slot at once, a slot reserved for a start, or neither. */
    method Checkout(j: JobId) returns (given: Option<nat>, pending: Option<nat>)
      requires Unlocked(View()) && !Known(View(), j) && (started || shuttingDown)
      modifies this`slots, this`starts, this`jobs
      ensures View() == Apply(old(View()), Step.Checkout(j))
      ensures given.Some? ==> given.value < |slots| && Usable(old(View()), given.value)
      ensures pending.Some? ==> pending.value < |slots| && Free(old(View()), pending.value)
      ensures given.None? && pending.None? && !shuttingDown ==> forall i | 0 <= i < |slots| :: !Free(old(View()), i)
    {
      given, pending := None, None;
      if shuttingDown {
        return;
      }
      for i := 0 to |slots|
        invariant forall m | 0 <= m < i :: !Usable(View(), m)
        invariant View() == old(View())
      {
        if slots[i].busy || slots[i].starting {
          continue;
        }
        if slots[i].proc.Some? && slots[i].proc.value in live && slots[i].ready {
          assert Usable(View(), i) && FirstUsable(View(), 0) == i;
          jobs := jobs[j := Job(i, slots[i].proc.value, Working)];
          slots := slots[i := slots[i].(busy := true)];
          return Some(i), None;
        }
      }
      assert FirstUsable(View(), 0) == |slots|;
      for i := 0 to |slots|
        invariant forall m | 0 <= m < i :: !Free(View(), m)
        invariant View() == old(View()) && given.None? && pending.None?
      {
        if !slots[i].busy && !slots[i].starting {
          assert Free(View(), i) && FirstFree(View(), 0) == i;
          var reserved := StartSlot(i, Some(j));
          return None, Some(i);
        }
      }
    }

    /** Second half of a checkout whose start succeeded: the slot may be gone again. */
    method CheckoutStarted(j: JobId, i: nat) returns (given: bool)
      requires Unlocked(View()) && j in claims && claims[j] == i < |slots|
      modifies this`slots, this`claims, this`jobs
      ensures View() == Apply(old(View()), Claim(j))
      ensures given == (old(slots)[i].ready && old(slots)[i].proc.Some? && Free(old(View()), i))
    {
      claims := claims - {j};
      given := slots[i].ready && slots[i].proc.Some? && !slots[i].busy && !slots[i].starting;
      if given {
        jobs := jobs[j := Job(i, slots[i].proc.value, Working)];
        slots := slots[i := slots[i].(busy := true)];
      }
    }

    method Release(j: JobId, i: nat)
      requires Unlocked(View()) && Has(View(), j) && jobs[j].phase != Killing && jobs[j].slot == i
      modifies this`slots, this`jobs
      ensures View() == Apply(old(View()), Step.Release(j))
    {
      slots := slots[i := slots[i].(busy := false)];
      if slots[i].proc.None? || slots[i].proc.value !in live || !slots[i].ready {
        slots := slots[i := slots[i].(proc := None, ready := false)];
      }
      jobs := jobs - {j};
    }

    /** The slot is marked dead before the driver is. */
    method KillBusySlot(j: JobId, i: nat)
      requires Has(View(), j) && jobs[j].phase == Working && jobs[j].slot == i
      modifies this`slots, this`jobs
      ensures View() == Apply(old(View()), Step.KillBusy(j))
    {
      slots := slots[i := slots[i].(ready := false, proc := None)];
      jobs := jobs[j := jobs[j].(phase := Killing)];
    }
  }

  // What every interleaving keeps.

  function SweptUpTo(s: State): nat {
    if !s.shuttingDown then 0
    else match s.sweep
      case Some(sw) => sw.at
      case None => |s.slots|
  }

  /** A slot whose driver is alive is ready unless it is being started; one that shutdown has passed
      holds a live driver only while that driver is still being started. */
  ghost predicate SlotOk(s: State, i: nat)
    requires i < |s.slots|
  {
    var slot := s.slots[i];
    && (slot.starting <==> i in s.starts)
    && (slot.starting ==> !slot.busy)
    && (Alive(s, slot.proc) && !slot.starting ==> slot.ready && SweptUpTo(s) <= i)
    && (i in s.starts && s.starts[i].Spawning? ==> !Alive(s, slot.proc))
    && (i in s.starts && !s.starts[i].Spawning? ==>
          !slot.ready && (slot.proc == Some(s.starts[i].pid) || (slot.proc == None && s.starts[i].pid !in s.live)))
  }

  ghost predicate SlotsOk(s: State) {
    && (forall i | i in s.starts :: i < |s.slots|)
    && (forall i | 0 <= i < |s.slots| :: SlotOk(s, i))
  }

  ghost predicate JobsOk(s: State) {
    && (forall j | j in s.claims :: s.claims[j] < |s.slots|)
    && (forall j | j in s.jobs :: Has(s, j) && s.slots[s.jobs[j].slot].busy)
    && (forall j | j in s.jobs :: s.jobs[j].phase == Working ==>
          s.slots[s.jobs[j].slot].proc in {None, Some(s.jobs[j].pid)})
    && (forall j | j in s.jobs :: s.jobs[j].phase != Working ==> s.slots[s.jobs[j].slot].proc == None)
  }

  /** A slot serves at most one job. */
  ghost predicate Exclusive(s: State) {
    forall j, k | j in s.jobs && k in s.jobs :: s.jobs[j].slot == s.jobs[k].slot ==> j == k
  }

  ghost predicate InSlot(s: State, p: Pid, i: nat) {
    i < |s.slots| && s.slots[i].proc == Some(p)
  }

  ghost predicate KilledBy(s: State, p: Pid, j: JobId) {
    j in s.jobs && s.jobs[j].phase == Killing && s.jobs[j].pid == p
  }

  /** No live driver is lost: it is in a slot, or the job that used it is killing it. */
  ghost predicate Tracked(s: State) {
    forall p | p in s.live :: (exists i :: InSlot(s, p, i)) || (exists j :: KilledBy(s, p, j))
  }

  ghost predicate Early(s: State) {
    s.queued != {} || (!s.started && !s.shuttingDown)
  }

  /** Before the first drivers can be up, nothing is in use. */
  ghost predicate EarlyOk(s: State) {
    && (!s.started && !s.shuttingDown ==> s.starts == map[] && s.queued == {})
    && (Early(s) ==>
          && s.live == {} && s.jobs == map[] && s.claims == map[]
          && (forall i | 0 <= i < |s.slots| :: !s.slots[i].busy)
          && (forall i | i in s.starts :: s.starts[i].Spawning?))
  }

  ghost predicate SweepOk(s: State) {
    && (s.sweep.Some? ==> s.shuttingDown)
    && (s.sweep.Some? && s.sweep.value.victim.Some? ==>
          && Sweeping(s) && s.slots[s.sweep.value.at].proc in {None, s.sweep.value.victim}
          && !(s.sweep.value.at in s.starts && s.starts[s.sweep.value.at].Spawning?))
  }

  ghost predicate Inv(s: State) {
    SlotsOk(s) && JobsOk(s) && Exclusive(s) && Tracked(s) && EarlyOk(s) && SweepOk(s)
  }

  /** Whoever is tracked after a change to slot `i` alone. */
  lemma TrackedAfter(s: State, s': State, i: nat)
    requires Tracked(s) && |s'.slots| == |s.slots| && i < |s.slots|
    requires forall k | 0 <= k < |s.slots| && k != i :: s'.slots[k].proc == s.slots[k].proc
    requires forall j, p | KilledBy(s, p, j) && p in s'.live :: KilledBy(s', p, j)
    requires forall p | p in s'.live :: p in s.live || s'.slots[i].proc == Some(p)
    requires Alive(s', s.slots[i].proc) ==>
               s'.slots[i].proc == s.slots[i].proc || exists j :: KilledBy(s', s.slots[i].proc.value, j)
    ensures Tracked(s')
  {
    forall p | p in s'.live ensures (exists k :: InSlot(s', p, k)) || (exists j :: KilledBy(s', p, j)) {
      if s'.slots[i].proc == Some(p) {
        assert InSlot(s', p, i);
      } else if exists k :: InSlot(s, p, k) {
        var k :| InSlot(s, p, k);
        assert k != i ==> InSlot(s', p, k);
      } else {
        var j :| KilledBy(s, p, j);
        assert KilledBy(s', p, j);
      }
    }
  }

  lemma TrackedSame(s: State, s': State)
    requires Tracked(s) && s'.slots == s.slots && s'.live <= s.live
    requires forall j, p | KilledBy(s, p, j) && p in s'.live :: KilledBy(s', p, j)
    ensures Tracked(s')
  {
    forall p | p in s'.live ensures (exists k :: InSlot(s', p, k)) || (exists j :: KilledBy(s', p, j)) {
      if exists k :: InSlot(s, p, k) {
        var k :| InSlot(s, p, k);
        assert InSlot(s', p, k);
      } else {
        var j :| KilledBy(s, p, j);
        assert KilledBy(s', p, j);
      }
    }
  }

  /** The slots a step does not touch stay in order. */
  lemma SlotsAfter(s: State, s': State, i: nat)
    requires SlotsOk(s) && |s'.slots| == |s.slots| && i < |s.slots|
    requires forall k | 0 <= k < |s.slots| && k != i :: s'.slots[k] == s.slots[k]
    requires forall k | k != i :: k in s'.starts <==> k in s.starts
    requires forall k | k != i && k in s.starts :: s'.starts[k] == s.starts[k]
    requires forall q | q in s'.live && q !in s.live :: FreshPid(s, q)
    requires SweptUpTo(s') <= SweptUpTo(s) || (SweptUpTo(s') <= i + 1 && SweptUpTo(s) == i)
    requires SlotOk(s', i)
    ensures SlotsOk(s')
  {
    forall k | 0 <= k < |s'.slots| ensures SlotOk(s', k) {
      assert SlotOk(s, k);
    }
  }

  /** So do the jobs, when the slot that changes has none or only loses its driver. */
  lemma JobsKept(s: State, s': State, i: nat)
    requires JobsOk(s) && Exclusive(s) && |s'.slots| == |s.slots| && i < |s.slots|
    requires s'.jobs == s.jobs && forall j | j in s'.claims :: s'.claims[j] < |s.slots|
    requires forall k | 0 <= k < |s.slots| && k != i :: s'.slots[k].proc == s.slots[k].proc && s'.slots[k].busy == s.slots[k].busy
    requires s.slots[i].busy ==> s'.slots[i].busy && s'.slots[i].proc in {None, s.slots[i].proc}
    ensures JobsOk(s') && Exclusive(s')
  {
  }

  lemma ReserveKeeps(s: State, i: nat, asker: Option<JobId>)
    requires Inv(s) && i < |s.slots| && !s.slots[i].busy && (s.started || s.shuttingDown)
    requires !s.slots[i].starting ==> !Alive(s, s.slots[i].proc)
    ensures Inv(Reserved(s, i, asker))
  {
    var s' := Reserved(s, i, asker);
    assert SlotOk(s, i);
    SlotsAfter(s, s', i);
    JobsKept(s, s', i);
    TrackedAfter(s, s', i);
  }

  lemma GiveKeeps(s: State, i: nat, j: JobId)
    requires Inv(s) && i < |s.slots| && s.slots[i].proc.Some? && s.slots[i].ready && Free(s, i) && j !in s.jobs
    requires !Early(s)
    ensures Inv(Given(s, i, j))
  {
    var s' := Given(s, i, j);
    assert SlotOk(s, i);
    SlotsAfter(s, s', i);
    TrackedAfter(s, s', i);
  }

  lemma CheckoutKeeps(s: State, j: JobId)
    requires Inv(s) && Unlocked(s) && !Known(s, j) && (s.started || s.shuttingDown)
    ensures Inv(CheckedOut(s, j))
  {
    var k := FirstUsable(s, 0);
    var f := FirstFree(s, 0);
    if !s.shuttingDown {
      if k < |s.slots| {
        GiveKeeps(s, k, j);
      } else if f < |s.slots| {
        assert !Usable(s, f) && SlotOk(s, f);
        ReserveKeeps(s, f, Some(j));
      }
    }
  }

  lemma SpawnKeeps(s: State, i: nat, p: Pid)
    requires Inv(s) && StartsAt(s, i) && s.starts[i].Spawning? && s.queued == {} && FreshPid(s, p)
    ensures Inv(Spawn(s, i, p))
  {
    var s' := Spawn(s, i, p);
    assert SlotOk(s, i);
    SlotsAfter(s, s', i);
    JobsKept(s, s', i);
    TrackedAfter(s, s', i);
  }

  lemma EndStartKeeps(s: State, i: nat, slot: Slot)
    requires Inv(s) && StartsAt(s, i)
    requires slot.proc == None || slot.proc == s.slots[i].proc
    requires !slot.busy && (Alive(s, slot.proc) ==> slot.ready && SweptUpTo(s) <= i)
    requires slot.proc == None ==> !Alive(s, s.slots[i].proc)
    ensures Inv(EndStart(s, i, slot))
  {
    var s' := EndStart(s, i, slot);
    assert SlotOk(s, i);
    SlotsAfter(s, s', i);
    JobsKept(s, s', i);
    TrackedAfter(s, s', i);
  }

  lemma PidKeeps(s: State, p: Pid)
    requires Inv(s)
    ensures Inv(WithoutPid(s, p))
  {
    var s' := WithoutPid(s, p);
    TrackedSame(s, s');
    forall k | 0 <= k < |s'.slots| ensures SlotOk(s', k) {
      assert SlotOk(s, k);
    }
  }

  lemma HandshakeKeeps(s: State, i: nat, ok: bool)
    requires Inv(s) && StartsAt(s, i) && s.starts[i].Handshaking?
    ensures Inv(ShookHands(s, i, ok))
  {
    assert SlotOk(s, i);
    var s' := ShookHands(s, i, ok);
    if ok && !s.shuttingDown {
      var s1 := EndStart(s, i, s.slots[i].(ready := true));
      EndStartKeeps(s, i, s.slots[i].(ready := true));
      SlotsAfter(s1, s', i);
      TrackedSame(s1, s');
    } else {
      SlotsAfter(s, s', i);
      TrackedSame(s, s');
    }
  }

  lemma EnsureKeeps(s: State)
    requires Inv(s)
    ensures Inv(ApplyStart(s, EnsureStarted))
  {
    var s' := ApplyStart(s, EnsureStarted);
    TrackedSame(s, s');
    forall k | 0 <= k < |s'.slots| ensures SlotOk(s', k) {
      assert SlotOk(s, k);
    }
  }

  lemma QueuedKeeps(s: State, i: nat)
    requires Inv(s) && i in s.queued && i < |s.slots|
    ensures Inv(Reserved(s.(queued := s.queued - {i}), i, None))
  {
    var s1 := s.(queued := s.queued - {i});
    TrackedSame(s, s1);
    forall k | 0 <= k < |s1.slots| ensures SlotOk(s1, k) {
      assert SlotOk(s, k);
    }
    ReserveKeeps(s1, i, None);
  }

  lemma StartKeeps(s: State, step: Step)
    requires Inv(s)
    ensures Inv(ApplyStart(s, step))
  {
    match step
    case EnsureStarted => EnsureKeeps(s);
    case RunQueued(i) => if i in s.queued && i < |s.slots| { QueuedKeeps(s, i); }
    case Spawned(i, p) => if ApplyStart(s, step) != s { SpawnKeeps(s, i, p); }
    case SpawnFailed(i) =>
      if ApplyStart(s, step) != s {
        assert SlotOk(s, i);
        EndStartKeeps(s, i, s.slots[i]);
      }
    case Handshake(i, ok) => if StartsAt(s, i) && s.starts[i].Handshaking? { HandshakeKeeps(s, i, ok); }
    case Discarded(i) =>
      if ApplyStart(s, step) != s {
        assert SlotOk(s, i);
        PidKeeps(s, s.starts[i].pid);
        EndStartKeeps(WithoutPid(s, s.starts[i].pid), i, s.slots[i].(proc := None));
      }
    case _ =>
  }

  lemma ClaimKeeps(s: State, j: JobId)
    requires Inv(s) && j in s.claims && s.claims[j] < |s.slots|
    requires j !in s.jobs
    ensures Inv(Claimed(s, j))
  {
    var i := s.claims[j];
    var s1 := s.(claims := s.claims - {j});
    TrackedSame(s, s1);
    assert SlotOk(s, i);
    SlotsAfter(s, s1, i);
    if s.slots[i].ready && s.slots[i].proc.Some? && Free(s, i) {
      GiveKeeps(s1, i, j);
    }
  }

  lemma KillBusyJobs(s: State, j: JobId)
    requires JobsOk(s) && Exclusive(s) && Has(s, j) && s.jobs[j].phase == Working
    ensures JobsOk(ApplyJob(s, KillBusy(j))) && Exclusive(ApplyJob(s, KillBusy(j)))
  {
  }

  lemma KillBusyTracked(s: State, j: JobId)
    requires JobsOk(s) && Tracked(s) && Has(s, j) && s.jobs[j].phase == Working
    ensures Tracked(ApplyJob(s, KillBusy(j)))
  {
    var s' := ApplyJob(s, KillBusy(j));
    assert KilledBy(s', s.jobs[j].pid, j);
    TrackedAfter(s, s', s.jobs[j].slot);
  }

  lemma KillBusyKeeps(s: State, j: JobId)
    requires Inv(s) && Has(s, j) && s.jobs[j].phase == Working
    ensures Inv(ApplyJob(s, KillBusy(j)))
  {
    KillBusyJobs(s, j);
    KillBusyTracked(s, j);
    assert SlotOk(s, s.jobs[j].slot);
    SlotsAfter(s, ApplyJob(s, KillBusy(j)), s.jobs[j].slot);
  }

  lemma KillDoneKeeps(s: State, j: JobId)
    requires Inv(s) && Has(s, j) && s.jobs[j].phase == Killing
    ensures Inv(ApplyJob(s, KillDone(j)))
  {
    var s1 := WithoutPid(s, s.jobs[j].pid);
    var s' := ApplyJob(s, KillDone(j));
    PidKeeps(s, s.jobs[j].pid);
    SlotsAfter(s1, s', s.jobs[j].slot) by { assert SlotOk(s1, s.jobs[j].slot); }
    TrackedSame(s1, s');
  }

  lemma LoseKeeps(s: State, j: JobId)
    requires Inv(s) && Has(s, j) && s.jobs[j].phase != Killing
    ensures Inv(s.(jobs := s.jobs - {j}))
  {
    var s1 := s.(jobs := s.jobs - {j});
    TrackedSame(s, s1);
    forall k | 0 <= k < |s1.slots| ensures SlotOk(s1, k) {
      assert SlotOk(s, k);
    }
  }

  lemma FreeingKeeps(s: State, i: nat)
    requires Inv(s) && i < |s.slots| && s.slots[i].busy && forall j | j in s.jobs :: s.jobs[j].slot != i
    ensures Inv(WithSlot(s, i, ReleasedSlot(s, i)))
  {
    var s' := WithSlot(s, i, ReleasedSlot(s, i));
    assert SlotOk(s, i);
    SlotsAfter(s, s', i);
    TrackedAfter(s, s', i);
  }

  lemma ReleaseKeeps(s: State, j: JobId)
    requires Inv(s) && Has(s, j) && s.jobs[j].phase != Killing
    ensures Inv(ApplyJob(s, Release(j)))
  {
    if Unlocked(s) {
      var s1 := s.(jobs := s.jobs - {j});
      LoseKeeps(s, j);
      FreeingKeeps(s1, s.jobs[j].slot);
      assert ApplyJob(s, Release(j)) == WithSlot(s1, s.jobs[j].slot, ReleasedSlot(s1, s.jobs[j].slot));
    }
  }

  lemma PassKeeps(s: State)
    requires Inv(s) && Sweeping(s) && !Alive(s, s.slots[s.sweep.value.at].proc)
    ensures Inv(Passed(s))
  {
    var i := s.sweep.value.at;
    var s' := Passed(s);
    assert SlotOk(s, i);
    SlotsAfter(s, s', i);
    JobsKept(s, s', i);
    TrackedAfter(s, s', i);
  }

  lemma SameSlots(s: State, s': State)
    requires Inv(s) && s'.slots == s.slots && s'.starts == s.starts && s'.live == s.live && s'.jobs == s.jobs
    requires s'.claims == s.claims && s'.queued == s.queued
    requires SweptUpTo(s') <= SweptUpTo(s) && (Early(s') ==> Early(s)) && SweepOk(s')
    requires s'.started || s'.shuttingDown
    ensures Inv(s')
  {
    TrackedSame(s, s');
    forall k | 0 <= k < |s'.slots| ensures SlotOk(s', k) {
      assert SlotOk(s, k);
    }
  }

  lemma LookKeeps(s: State)
    requires Inv(s) && Sweeping(s) && s.sweep.value.victim.None?
    ensures Inv(LookedAt(s))
  {
    if Alive(s, s.slots[s.sweep.value.at].proc) {
      assert SlotOk(s, s.sweep.value.at);
      SameSlots(s, LookedAt(s));
    } else {
      PassKeeps(s);
    }
  }

  lemma ShutdownKeeps(s: State, step: Step)
    requires Inv(s)
    ensures Inv(ApplyShutdown(s, step))
  {
    match step
    case ShutdownBegin => if Unlocked(s) { SameSlots(s, ApplyShutdown(s, step)); }
    case ShutdownLook => if Sweeping(s) && s.sweep.value.victim.None? { LookKeeps(s); }
    case ShutdownKill =>
      if Sweeping(s) && s.sweep.value.victim.Some? {
        PidKeeps(s, s.sweep.value.victim.value);
        PassKeeps(WithoutPid(s, s.sweep.value.victim.value));
      }
    case ShutdownEnd =>
      if s.sweep.Some? && s.sweep.value.at >= |s.slots| { SameSlots(s, ApplyShutdown(s, step)); }
    case _ =>
  }

  // A job is in one place: asking for a start, waiting to claim a slot, or running.

  predicate Asks(s: State, i: nat, j: JobId) {
    i in s.starts && !s.starts[i].Discarding? && s.starts[i].asker == Some(j)
  }

  ghost predicate OnePlace(s: State) {
    && (forall j | j in s.claims :: j !in s.jobs)
    && (forall i, j :: Asks(s, i, j) ==> j !in s.jobs && j !in s.claims)
    && (forall i, k, j :: Asks(s, i, j) && Asks(s, k, j) ==> i == k)
  }

  lemma FewerPlaces(s: State, s': State)
    requires OnePlace(s) && s'.jobs.Keys <= s.jobs.Keys && s'.claims.Keys <= s.claims.Keys
    requires forall i, j :: Asks(s', i, j) ==> Asks(s, i, j)
    ensures OnePlace(s')
  {
  }

  lemma CheckoutOnePlace(s: State, j: JobId)
    requires OnePlace(s) && !Known(s, j) && (forall i | i in s.starts :: i < |s.slots| && s.slots[i].starting)
    ensures OnePlace(CheckedOut(s, j))
  {
    var s' := CheckedOut(s, j);
    assert forall i :: !Asks(s, i, j);
    assert forall i, k :: Asks(s', i, k) ==> Asks(s, i, k) || (k == j && i == FirstFree(s, 0));
  }

  lemma HandshakeOnePlace(s: State, i: nat, ok: bool)
    requires OnePlace(s) && StartsAt(s, i) && s.starts[i].Handshaking?
    ensures OnePlace(ShookHands(s, i, ok))
  {
    var s' := ShookHands(s, i, ok);
    if s'.claims != s.claims {
      assert Asks(s, i, s.starts[i].asker.value);
      assert forall k, j :: Asks(s', k, j) ==> Asks(s, k, j) && k != i;
    } else {
      FewerPlaces(s, s');
    }
  }

  lemma StartOnePlace(s: State, step: Step)
    requires OnePlace(s)
    ensures OnePlace(ApplyStart(s, step))
  {
    match step
    case Handshake(i, ok) => if StartsAt(s, i) && s.starts[i].Handshaking? { HandshakeOnePlace(s, i, ok); }
    case _ => FewerPlaces(s, ApplyStart(s, step));
  }

  lemma ClaimOnePlace(s: State, j: JobId)
    requires OnePlace(s) && j in s.claims && s.claims[j] < |s.slots|
    ensures OnePlace(Claimed(s, j))
  {
    assert forall i, k :: Asks(Claimed(s, j), i, k) <==> Asks(s, i, k);
  }

  lemma JobOnePlace(s: State, step: Step)
    requires OnePlace(s) && (forall i | i in s.starts :: i < |s.slots| && s.slots[i].starting)
    ensures OnePlace(ApplyJob(s, step))
  {
    match step
    case Checkout(j) => if ApplyJob(s, step) != s { CheckoutOnePlace(s, j); }
    case Claim(j) => if ApplyJob(s, step) != s { ClaimOnePlace(s, j); }
    case _ => FewerPlaces(s, ApplyJob(s, step));
  }

  lemma ShutdownOnePlace(s: State, step: Step)
    requires OnePlace(s)
    ensures OnePlace(ApplyShutdown(s, step))
  {
    FewerPlaces(s, ApplyShutdown(s, step));
  }

  ghost predicate Invariant(s: State) {
    Inv(s) && OnePlace(s)
  }

  lemma JobKeeps(s: State, step: Step)
    requires Invariant(s)
    ensures Inv(ApplyJob(s, step))
  {
    match step
    case Checkout(j) => if ApplyJob(s, step) != s { CheckoutKeeps(s, j); }
    case Claim(j) => if j in s.claims && s.claims[j] < |s.slots| { ClaimKeeps(s, j); }
    case KillBusy(j) => if Has(s, j) && s.jobs[j].phase == Working { KillBusyKeeps(s, j); }
    case KillDone(j) => if Has(s, j) && s.jobs[j].phase == Killing { KillDoneKeeps(s, j); }
    case Release(j) => if Has(s, j) && s.jobs[j].phase != Killing { ReleaseKeeps(s, j); }
    case LoseRelease(j) => if Has(s, j) && s.jobs[j].phase != Killing { LoseKeeps(s, j); }
    case _ =>
  }

  lemma StartsStarting(s: State)
    requires SlotsOk(s)
    ensures forall i | i in s.starts :: i < |s.slots| && s.slots[i].starting
  {
    forall i | i in s.starts ensures s.slots[i].starting {
      assert SlotOk(s, i);
    }
  }

  lemma StepKeepsInv(s: State, step: Step)
    requires Invariant(s)
    ensures Inv(Apply(s, step))
  {
    match step
    case EnsureStarted | RunQueued(_) | Spawned(_, _) | SpawnFailed(_) | Handshake(_, _) | Discarded(_) => StartKeeps(s, step);
    case Exit(p) => PidKeeps(s, p);
    case ShutdownBegin | ShutdownLook | ShutdownKill | ShutdownEnd => ShutdownKeeps(s, step);
    case _ => JobKeeps(s, step);
  }

  lemma ExitOnePlace(s: State, p: Pid)
    requires OnePlace(s)
    ensures OnePlace(WithoutPid(s, p))
  {
    FewerPlaces(s, WithoutPid(s, p));
  }

  lemma StepKeepsOnePlace(s: State, step: Step)
    requires OnePlace(s) && (forall i | i in s.starts :: i < |s.slots| && s.slots[i].starting)
    ensures OnePlace(Apply(s, step))
  {
    match step
    case EnsureStarted | RunQueued(_) | Spawned(_, _) | SpawnFailed(_) | Handshake(_, _) | Discarded(_) => StartOnePlace(s, step);
    case Exit(p) => ExitOnePlace(s, p);
    case ShutdownBegin | ShutdownLook | ShutdownKill | ShutdownEnd => ShutdownOnePlace(s, step);
    case _ => JobOnePlace(s, step);
  }

  lemma StepKeepsInvariant(s: State, step: Step)
    requires Invariant(s)
    ensures Invariant(Apply(s, step))
  {
    StepKeepsInv(s, step);
    StartsStarting(s);
    StepKeepsOnePlace(s, step);
  }

  lemma {:induction false} RunKeepsInvariant(s: State, steps: seq<Step>)
    requires Invariant(s)
    ensures Invariant(Run(s, steps))
    decreases |steps|
  {
    if steps != [] {
      StepKeepsInvariant(s, steps[0]);
      RunKeepsInvariant(Apply(s, steps[0]), steps[1..]);
    }
  }

  lemma NewPoolInvariant(size: nat)
    ensures Invariant(NewPool(size))
  {
  }

  // What that gives: exclusive slots, no driver lost, at most one per slot, none after shutdown.

  /** In every reachable state no two jobs share a slot, a busy slot is not being started, and a job
      that has not begun to kill its driver is in the slot that driver is in, or in one that lost it. */
  lemma SlotsAreExclusive(size: nat, steps: seq<Step>)
    ensures var s := Run(NewPool(size), steps);
      && (forall j, k | j in s.jobs && k in s.jobs && j != k :: s.jobs[j].slot != s.jobs[k].slot)
      && (forall j | j in s.jobs :: var i := s.jobs[j].slot;
            && i < |s.slots| && s.slots[i].busy && !s.slots[i].starting
            && (s.slots[i].proc.Some? ==> s.slots[i].proc.value == s.jobs[j].pid))
  {
    NewPoolInvariant(size);
    RunKeepsInvariant(NewPool(size), steps);
    var s := Run(NewPool(size), steps);
    forall j | j in s.jobs ensures !s.slots[s.jobs[j].slot].starting {
      assert SlotOk(s, s.jobs[j].slot);
    }
  }

  /** A spawn never lands on a live driver. */
  lemma NoDriverOverwritten(size: nat, steps: seq<Step>, i: nat, p: Pid)
    requires var s := Run(NewPool(size), steps); Apply(s, Spawned(i, p)) != s
    ensures var s := Run(NewPool(size), steps); i < |s.slots| && !Alive(s, s.slots[i].proc)
  {
    NewPoolInvariant(size);
    RunKeepsInvariant(NewPool(size), steps);
    assert SlotOk(Run(NewPool(size), steps), i);
  }

  lemma {:induction false} SizeKept(s: State, steps: seq<Step>)
    ensures |Run(s, steps).slots| == |s.slots|
    decreases |steps|
  {
    if steps != [] {
      SizeKept(Apply(s, steps[0]), steps[1..]);
    }
  }

  /** The one driver slot `i` accounts for: the one in it, or the one its job is killing. */
  ghost predicate AccountsFor(s: State, i: nat, p: Pid) {
    InSlot(s, p, i) || exists j :: KilledBy(s, p, j) && s.jobs[j].slot == i
  }

  lemma OneDriverPerSlot(s: State, i: nat, p: Pid, q: Pid)
    requires Inv(s) && AccountsFor(s, i, p) && AccountsFor(s, i, q)
    ensures p == q
  {
  }

  ghost function DriversOf(s: State, i: nat): set<Pid> {
    set p | p in s.live && AccountsFor(s, i, p)
  }

  lemma AtMostOne(s: State, i: nat)
    requires Inv(s)
    ensures |DriversOf(s, i)| <= 1
  {
    var ps := DriversOf(s, i);
    if ps != {} {
      var p :| p in ps;
      forall q | q in ps ensures q == p {
        OneDriverPerSlot(s, i, p, q);
      }
      assert ps == {p};
    }
  }

  ghost function Accounted(s: State, n: nat): set<Pid> {
    if n == 0 then {} else Accounted(s, n - 1) + DriversOf(s, n - 1)
  }

  lemma {:induction false} AccountedBound(s: State, n: nat)
    requires forall i: nat :: |DriversOf(s, i)| <= 1
    ensures |Accounted(s, n)| <= n
  {
    if n > 0 {
      AccountedBound(s, n - 1);
      UnionSize(Accounted(s, n - 1), DriversOf(s, n - 1));
    }
  }

  lemma UnionSize(a: set<Pid>, b: set<Pid>)
    ensures |a + b| <= |a| + |b|
  {
    assert a + b == a + (b - a);
    SubsetSize(b - a, b);
  }

  lemma {:induction false} InAccounted(s: State, n: nat, i: nat, p: Pid)
    requires i < n && p in s.live && AccountsFor(s, i, p)
    ensures p in Accounted(s, n)
  {
    if i < n - 1 {
      InAccounted(s, n - 1, i, p);
    }
  }

  /** Never more live drivers than slots. */
  lemma LiveDriversBounded(size: nat, steps: seq<Step>)
    ensures |Run(NewPool(size), steps).live| <= size
  {
    NewPoolInvariant(size);
    RunKeepsInvariant(NewPool(size), steps);
    SizeKept(NewPool(size), steps);
    var s := Run(NewPool(size), steps);
    forall i: nat ensures |DriversOf(s, i)| <= 1 {
      AtMostOne(s, i);
    }
    AccountedBound(s, size);
    forall p | p in s.live ensures p in Accounted(s, size) {
      if exists i :: InSlot(s, p, i) {
        var i :| InSlot(s, p, i);
        InAccounted(s, size, i, p);
      } else {
        var j :| KilledBy(s, p, j);
        InAccounted(s, size, s.jobs[j].slot, p);
      }
    }
    SubsetSize(s.live, Accounted(s, size));
  }

  /** Shutdown has returned, with no start and no kill still under way. */
  ghost predicate Down(s: State) {
    && s.shuttingDown && s.sweep.None? && s.starts == map[]
    && forall j | j in s.jobs :: s.jobs[j].phase != Killing
  }

  ghost predicate Deserted(s: State) {
    s.shuttingDown && s.starts == map[] && s.live == {}
  }

  lemma StepStaysDeserted(s: State, step: Step)
    requires Deserted(s)
    ensures Deserted(Apply(s, step))
  {
  }

  lemma {:induction false} StaysDeserted(s: State, steps: seq<Step>)
    requires Deserted(s)
    ensures Deserted(Run(s, steps))
    decreases |steps|
  {
    if steps != [] {
      StepStaysDeserted(s, steps[0]);
      StaysDeserted(Apply(s, steps[0]), steps[1..]);
    }
  }

  lemma DownIsDeserted(size: nat, steps: seq<Step>)
    requires Down(Run(NewPool(size), steps))
    ensures Deserted(Run(NewPool(size), steps))
  {
    NewPoolInvariant(size);
    RunKeepsInvariant(NewPool(size), steps);
    var s := Run(NewPool(size), steps);
    forall p ensures p !in s.live {
      if exists i :: InSlot(s, p, i) {
        var i :| InSlot(s, p, i);
        assert SlotOk(s, i);
      } else {
        assert forall j :: !KilledBy(s, p, j);
      }
    }
  }

  /** Once the pool is down no driver is alive, and none ever comes back, whatever is called after that. */
  lemma NoneAliveAfterShutdown(size: nat, steps: seq<Step>, more: seq<Step>)
    requires Down(Run(NewPool(size), steps))
    ensures Run(Run(NewPool(size), steps), more).live == {}
  {
    DownIsDeserted(size, steps);
    StaysDeserted(Run(NewPool(size), steps), more);
  }
}
