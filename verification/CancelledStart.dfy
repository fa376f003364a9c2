/** Why a cancellation inside the start of a pool slot loses a driver. */
module CancelledStart {
  import opened Prelude
  import opened DriverPool

  /** Why no cancellation may land inside a start: the `finally` clears the reservation but leaves the
      unready live driver in its slot, and the next checkout spawns over it. */
  lemma LosesDriver(s: State, p: Pid, j: JobId, q: Pid)
    requires Inv(s) && |s.slots| == 1 && Unlocked(s) && s.started && !s.shuttingDown && s.queued == {}
    requires StartsAt(s, 0) && s.starts[0].Handshaking? && s.slots[0].proc == Some(p) && p in s.live
    requires s.jobs == map[] && s.claims == map[] && FreshPid(s, q)
    ensures var cancelled := EndStart(s, 0, s.slots[0]);
      var s' := Apply(Apply(cancelled, Checkout(j)), Spawned(0, q));
      p in s'.live && !Tracked(s')
  {
    assert SlotOk(s, 0);
    var s1 := EndStart(s, 0, s.slots[0]);
    assert !Usable(s1, 0) && Free(s1, 0);
    assert FirstUsable(s1, 0) == 1 && FirstFree(s1, 0) == 0;
    var s2 := Apply(s1, Checkout(j));
    assert s2 == Reserved(s1, 0, Some(j));
    assert FreshPid(s2, q);
    var s' := Apply(s2, Spawned(0, q));
    assert s'.slots[0].proc == Some(q) && p != q;
    assert forall i :: !InSlot(s', p, i);
    assert forall k :: !KilledBy(s', p, k);
  }

  const Starting: seq<Step> := [EnsureStarted, RunQueued(0), Spawned(0, 7)]

  const Shaking := State(
    [Slot(Some(7), false, false, true)], true, false, {}, map[0 := Handshaking(7, None)], map[], map[], None, {7})

  lemma StartingRuns()
    ensures Run(NewPool(1), Starting) == Shaking
  {
    var s1 := NewPool(1).(started := true, queued := {0});
    var s2 := s1.(slots := [Slot(None, false, false, true)], queued := {}, starts := map[0 := Spawning(None)]);
    assert Indices(1) == {0} by { assert Indices(0) == {}; }
    assert Apply(NewPool(1), EnsureStarted) == s1;
    assert s1.queued - {0} == {};
    assert Apply(s1, RunQueued(0)) == s2;
    assert Apply(s2, Spawned(0, 7)) == Shaking;
    assert Starting[1..] == [RunQueued(0), Spawned(0, 7)] && Starting[1..][1..] == [Spawned(0, 7)];
    assert [Spawned(0, 7)][1..] == [];
    assert Run(s2, [Spawned(0, 7)]) == Shaking;
    assert Run(s1, [RunQueued(0), Spawned(0, 7)]) == Run(s2, [Spawned(0, 7)]);
  }

  /** It takes one slot, one start and one cancellation: driver 7 is alive and nobody's. */
  lemma OneCancellationLosesDriver(j: JobId)
    ensures var s := Run(NewPool(1), Starting);
      && StartsAt(s, 0)
      && var s' := Apply(Apply(EndStart(s, 0, s.slots[0]), Checkout(j)), Spawned(0, 8));
         7 in s'.live && !Tracked(s')
  {
    StartingRuns();
    NewPoolInvariant(1);
    RunKeepsInvariant(NewPool(1), Starting);
    LosesDriver(Shaking, 7, j, 8);
  }
}
