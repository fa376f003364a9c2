/** Calls in flight and the half-open slots they hold, under every interleaving of admissions,
    results and cancellations.

    A call may end in a later state of the breaker than the one it was admitted in, and a cancelled
    call gives its slot back in two steps: it looks at the state without the lock, then takes the lock
    to decrement. Half-open periods are numbered so that a call knows the one it was admitted in. */
module HalfOpenSlots {
  import opened Prelude
  import opened CircuitBreaker

  type CallId = nat

  /** Running, or about to report success; raised and waiting for the lock to report failure;
      cancelled and waiting for the lock to give a slot back. */
  datatype Phase = Flying | Raised | Leaving

  datatype Call = Call(period: Option<nat>, phase: Phase)

  datatype System = System(view: View, period: nat, calls: map<CallId, Call>)

  const Start := System(Fresh, 0, map[])

  datatype Step =
    | Admit(call: CallId, at: Time)
    | Poll(at: Time)
    | Finish(call: CallId)
    | Raise(call: CallId)
    | Report(call: CallId, at: Time)
    | Cancel(call: CallId)
    | Leave(call: CallId)

  predicate InPhase(s: System, x: CallId, p: Phase) {
    x in s.calls && s.calls[x].phase == p
  }

  function NewPeriod(s: System, v: View): nat {
    if s.view.state != HalfOpen && v.state == HalfOpen then s.period + 1 else s.period
  }

  function Admitted(c: Config, s: System, x: CallId, at: Time): System {
    var v := Asked(c, s.view, at);
    var period := NewPeriod(s, v);
    var calls :=
      if Admits(c, s.view, at) then s.calls[x := Call(if v.state == HalfOpen then Some(period) else None, Flying)]
      else s.calls;
    System(v, period, calls)
  }

  function Polled(c: Config, s: System, at: Time): System {
    var v := Looked(c, s.view, at);
    s.(view := v, period := NewPeriod(s, v))
  }

  function Over(s: System, x: CallId, v: View): System {
    s.(view := v, calls := s.calls - {x})
  }

  /** The cancellation handler releases a slot only if it sees HALF_OPEN, and only when it is the
      running call that is cancelled: a call already waiting for the lock just ends. */
  function Cancelled(s: System, x: CallId): System
    requires x in s.calls
  {
    if s.calls[x].phase == Flying && s.view.state == HalfOpen
    then s.(calls := s.calls[x := s.calls[x].(phase := Leaving)])
    else Over(s, x, s.view)
  }

  function Apply(c: Config, s: System, step: Step): System {
    match step
    case Admit(x, at) => if x in s.calls then s else Admitted(c, s, x, at)
    case Poll(at) => Polled(c, s, at)
    case Finish(x) => if InPhase(s, x, Flying) then Over(s, x, Succeeded(c, s.view)) else s
    case Raise(x) => if InPhase(s, x, Flying) then s.(calls := s.calls[x := s.calls[x].(phase := Raised)]) else s
    case Report(x, at) => if InPhase(s, x, Raised) then Over(s, x, Failed(c, s.view, at)) else s
    case Cancel(x) => if x in s.calls then Cancelled(s, x) else s
    case Leave(x) => if InPhase(s, x, Leaving) then Over(s, x, Released(s.view)) else s
  }

  function Play(c: Config, s: System, steps: seq<Step>): System
    decreases |steps|
  {
    if steps == [] then s else Play(c, Apply(c, s, steps[0]), steps[1..])
  }

  /** The calls in flight that were admitted in the current half-open period. */
  function Holders(s: System): set<CallId> {
    set x | x in s.calls && s.calls[x].period == Some(s.period)
  }

  ghost predicate Sound(c: Config, s: System) {
    && (forall x | x in s.calls && s.calls[x].period.Some? :: s.calls[x].period.value <= s.period)
    && (s.view.state != HalfOpen ==> s.view.slots == 0)
    && (s.view.slots > 0 ==> s.view.slots <= c.halfOpenMaxCalls)
  }

  lemma StepKeepsSound(c: Config, s: System, step: Step)
    requires Sound(c, s)
    ensures Sound(c, Apply(c, s, step))
  {
  }

  /** Slots taken never exceed the calls that can still give one back. */
  ghost predicate NoLeak(s: System) {
    s.view.state == HalfOpen ==> s.view.slots <= |Holders(s)|
  }

  /** Slots taken are exactly the trials in flight. */
  ghost predicate Exact(s: System) {
    s.view.state == HalfOpen ==> s.view.slots == |Holders(s)|
  }

  /** A holder is cancelled while it waits for the lock, and so ends without giving its slot back. */
  ghost predicate CutShort(s: System, step: Step) {
    step.Cancel? && step.call in Holders(s) && s.calls[step.call].phase != Flying && s.view.state == HalfOpen
  }

  ghost predicate Leaks(s: System, step: Step) {
    CutShort(s, step) && s.view.slots == |Holders(s)|
  }

  /** A call of an earlier period gives back a slot that a trial still holds. */
  ghost predicate Straggles(c: Config, s: System, step: Step) {
    && s.view.state == HalfOpen && s.view.slots > 0
    && ((step.Finish? && InPhase(s, step.call, Flying) && step.call !in Holders(s) && s.view.successes + 1 < c.successThreshold)
        || (step.Leave? && InPhase(s, step.call, Leaving) && step.call !in Holders(s)))
  }

  lemma HoldersAfter(s: System, s': System, x: CallId)
    requires s'.calls == s.calls - {x} && s'.period == s.period
    ensures Holders(s') == Holders(s) - {x}
    ensures |Holders(s')| == |Holders(s)| - if x in Holders(s) then 1 else 0
  {
    assert Holders(s') == Holders(s) - {x};
  }

  lemma HoldersKept(s: System, s': System)
    requires s'.period == s.period && s'.calls.Keys == s.calls.Keys
    requires forall x | x in s.calls :: s'.calls[x].period == s.calls[x].period
    ensures Holders(s') == Holders(s)
  {
  }

  /** Admission and polling keep the count of slots and trials in step with each other. */
  lemma AdmitHolders(c: Config, s: System, x: CallId, at: Time)
    requires Sound(c, s) && x !in s.calls
    ensures var s' := Admitted(c, s, x, at);
      s'.view.state == HalfOpen ==>
        (if s.view.state == HalfOpen then s'.view.slots - s.view.slots == |Holders(s')| - |Holders(s)|
         else s'.view.slots == |Holders(s')|)
  {
    var s' := Admitted(c, s, x, at);
    if s'.view.state == HalfOpen {
      if s.view.state == HalfOpen {
        assert Holders(s') == Holders(s) + if Admits(c, s.view, at) then {x} else {};
      } else {
        assert Holders(s') == if Admits(c, s.view, at) then {x} else {};
      }
    }
  }

  lemma PollHolders(c: Config, s: System, at: Time)
    requires Sound(c, s)
    ensures var s' := Polled(c, s, at);
      s'.view.state == HalfOpen ==>
        (if s.view.state == HalfOpen then s'.view.slots == s.view.slots && Holders(s') == Holders(s)
         else s'.view.slots == |Holders(s')|)
  {
    var s' := Polled(c, s, at);
    if s.view.state != HalfOpen && s'.view.state == HalfOpen {
      assert Holders(s') == {};
    }
  }

  lemma StepHolders(c: Config, s: System, step: Step)
    requires !step.Admit? && !step.Poll?
    ensures Apply(c, s, step).period == s.period
    ensures Holders(Apply(c, s, step)) == Holders(s) || Holders(Apply(c, s, step)) == Holders(s) - {step.call}
    ensures step.call in Holders(s) && step.call in Apply(c, s, step).calls ==> Holders(Apply(c, s, step)) == Holders(s)
    ensures step.call !in Apply(c, s, step).calls ==> |Holders(Apply(c, s, step))| == |Holders(s)| - if step.call in Holders(s) then 1 else 0
  {
    var s' := Apply(c, s, step);
    if step.call in s'.calls {
      HoldersKept(s, s');
    } else {
      assert s'.calls == s.calls - {step.call};
      HoldersAfter(s, s', step.call);
    }
  }

  /** A step makes the slots outnumber their holders exactly when it cuts a holder short while every
      slot has one. */
  lemma StepNoLeak(c: Config, s: System, step: Step)
    requires Sound(c, s) && NoLeak(s)
    ensures NoLeak(Apply(c, s, step)) <==> !Leaks(s, step)
  {
    match step
    case Admit(x, at) => if x !in s.calls { AdmitHolders(c, s, x, at); }
    case Poll(at) => PollHolders(c, s, at);
    case _ => StepHolders(c, s, step);
  }

  /** Slots and trials stay equal exactly until a straggler gives back a slot that is not its own or a
      holder is cut short. */
  lemma StepExact(c: Config, s: System, step: Step)
    requires Sound(c, s) && Exact(s)
    ensures Exact(Apply(c, s, step)) <==> !Straggles(c, s, step) && !CutShort(s, step)
  {
    match step
    case Admit(x, at) => if x !in s.calls { AdmitHolders(c, s, x, at); }
    case Poll(at) => PollHolders(c, s, at);
    case _ => StepHolders(c, s, step);
  }

  ghost predicate NeverLeaks(c: Config, s: System, steps: seq<Step>)
    decreases |steps|
  {
    steps == [] || (!Leaks(s, steps[0]) && NeverLeaks(c, Apply(c, s, steps[0]), steps[1..]))
  }

  ghost predicate AlwaysNoLeak(c: Config, s: System, steps: seq<Step>)
    decreases |steps|
  {
    NoLeak(s) && (steps == [] || AlwaysNoLeak(c, Apply(c, s, steps[0]), steps[1..]))
  }

  /** Whatever stragglers do, in every state of a run the slots taken are at most the trials in flight
      of the current period, exactly when no trial was cut short. */
  lemma {:induction false} SlotsNeverLeak(c: Config, s: System, steps: seq<Step>)
    requires Sound(c, s) && NoLeak(s)
    ensures AlwaysNoLeak(c, s, steps) <==> NeverLeaks(c, s, steps)
    decreases |steps|
  {
    if steps != [] {
      StepKeepsSound(c, s, steps[0]);
      StepNoLeak(c, s, steps[0]);
      if !Leaks(s, steps[0]) {
        SlotsNeverLeak(c, Apply(c, s, steps[0]), steps[1..]);
      }
    }
  }

  ghost predicate Undisturbed(c: Config, s: System, steps: seq<Step>)
    decreases |steps|
  {
    steps == [] ||
    (!Straggles(c, s, steps[0]) && !CutShort(s, steps[0]) && Undisturbed(c, Apply(c, s, steps[0]), steps[1..]))
  }

  /** Without stragglers and calls cut short, at most `halfOpenMaxCalls` trials run at once. */
  lemma {:induction false} TrialsBounded(c: Config, s: System, steps: seq<Step>)
    requires Sound(c, s) && Exact(s) && Undisturbed(c, s, steps)
    ensures var s' := Play(c, s, steps);
      && Sound(c, s') && Exact(s')
      && (s'.view.state == HalfOpen && Holders(s') != {} ==> |Holders(s')| <= c.halfOpenMaxCalls)
    decreases |steps|
  {
    if steps != [] {
      StepKeepsSound(c, s, steps[0]);
      StepExact(c, s, steps[0]);
      TrialsBounded(c, Apply(c, s, steps[0]), steps[1..]);
    }
  }

  /** Half-open with every slot taken and nobody left to give one back. */
  ghost predicate Jammed(c: Config, s: System) {
    s.view.state == HalfOpen && s.view.slots >= c.halfOpenMaxCalls && s.calls == map[]
  }

  /** A jammed breaker refuses every call for ever. */
  lemma {:induction false} JamIsForever(c: Config, s: System, steps: seq<Step>)
    requires Jammed(c, s)
    ensures Play(c, s, steps) == s
    ensures forall at :: !Admits(c, Play(c, s, steps).view, at)
    decreases |steps|
  {
    if steps != [] {
      assert Apply(c, s, steps[0]) == s;
      JamIsForever(c, s, steps[1..]);
    }
  }

  /** Without a leak no breaker that allows trials at all is ever jammed. */
  lemma {:induction false} NoLeakNoJam(c: Config, s: System, steps: seq<Step>)
    requires Sound(c, s) && NoLeak(s) && NeverLeaks(c, s, steps) && c.halfOpenMaxCalls >= 1
    ensures !Jammed(c, Play(c, s, steps))
    decreases |steps|
  {
    if steps == [] {
      if s.calls == map[] {
        assert Holders(s) == {};
      }
    } else {
      StepKeepsSound(c, s, steps[0]);
      StepNoLeak(c, s, steps[0]);
      NoLeakNoJam(c, Apply(c, s, steps[0]), steps[1..]);
    }
  }

  lemma PlayOne(c: Config, s: System, a: Step)
    ensures Play(c, s, [a]) == Apply(c, s, a)
  {
    assert [a][1..] == [];
  }

  lemma PlayTwo(c: Config, s: System, a: Step, b: Step)
    ensures Play(c, s, [a, b]) == Apply(c, Apply(c, s, a), b)
  {
    assert [a, b][1..] == [b];
    PlayOne(c, Apply(c, s, a), b);
  }

  lemma {:induction false} PlayAppend(c: Config, s: System, a: seq<Step>, b: seq<Step>)
    ensures Play(c, s, a + b) == Play(c, Play(c, s, a), b)
    decreases |a|
  {
    if a == [] {
      assert a + b == b;
    } else {
      assert (a + b)[1..] == a[1..] + b;
      PlayAppend(c, Apply(c, s, a[0]), a[1..], b);
    }
  }

  ghost predicate Reaches(c: Config, s: System, t: System) {
    exists steps :: Play(c, s, steps) == t
  }

  lemma ReachesOn(c: Config, s: System, t: System, steps: seq<Step>)
    requires Reaches(c, s, t)
    ensures Reaches(c, s, Play(c, t, steps))
  {
    var before :| Play(c, s, before) == t;
    PlayAppend(c, s, before, steps);
  }

  const One := Config(1, 1, 30.0, 1)

  /** Opened by one failure: the first call fails and reports it. */
  lemma Opened(c: Config, s: System)
    requires c.failureThreshold == 1 && s.view == Fresh && 0 !in s.calls
    ensures Play(c, s, [Admit(0, 0.0), Raise(0), Report(0, 0.0)]) == s.(view := View(Open, 1, 0, Some(0.0), 0))
  {
    var s1 := Apply(c, s, Admit(0, 0.0));
    var s2 := Apply(c, s1, Raise(0));
    assert Apply(c, s2, Report(0, 0.0)).calls == s.calls;
    assert [Admit(0, 0.0), Raise(0), Report(0, 0.0)] == [Admit(0, 0.0), Raise(0)] + [Report(0, 0.0)];
    PlayTwo(c, s, Admit(0, 0.0), Raise(0));
    PlayAppend(c, s, [Admit(0, 0.0), Raise(0)], [Report(0, 0.0)]);
    PlayOne(c, s2, Report(0, 0.0));
  }

  /** The slot law fails in one way: a trial that raised is cancelled while it waits for the lock. */
  lemma CancelledReportJams()
    ensures exists s :: Reaches(One, Start, s) && Jammed(One, s)
  {
    var s1 := Start.(view := View(Open, 1, 0, Some(0.0), 0));
    Opened(One, Start);
    assert Reaches(One, Start, s1);
    PlayTwo(One, s1, Admit(1, 30.0), Raise(1));
    var s2 := System(View(HalfOpen, 1, 0, None, 1), 1, map[1 := Call(Some(1), Raised)]);
    ReachesOn(One, Start, s1, [Admit(1, 30.0), Raise(1)]);
    assert Play(One, s1, [Admit(1, 30.0), Raise(1)]) == s2;
    PlayOne(One, s2, Cancel(1));
    ReachesOn(One, Start, s2, [Cancel(1)]);
    assert Jammed(One, Play(One, s2, [Cancel(1)]));
  }

  const Two := Config(1, 2, 30.0, 1)

  /** More trials in flight than the breaker allows. */
  ghost predicate Crowded(c: Config, s: System) {
    s.view.state == HalfOpen && |Holders(s)| > c.halfOpenMaxCalls
  }

  lemma StragglerFreesSlot(s1: System)
    requires s1 == System(View(Open, 1, 0, Some(0.0), 0), 0, map[9 := Call(None, Flying)])
    ensures Play(Two, s1, [Admit(1, 30.0), Finish(9)]) ==
            System(View(HalfOpen, 1, 1, None, 0), 1, map[1 := Call(Some(1), Flying)])
  {
    PlayTwo(Two, s1, Admit(1, 30.0), Finish(9));
    var s2 := Apply(Two, s1, Admit(1, 30.0));
    assert s2 == System(View(HalfOpen, 1, 0, None, 1), 1, map[9 := Call(None, Flying), 1 := Call(Some(1), Flying)]);
    assert s2.calls - {9} == map[1 := Call(Some(1), Flying)];
  }

  lemma SecondTrial(s2: System)
    requires s2 == System(View(HalfOpen, 1, 1, None, 0), 1, map[1 := Call(Some(1), Flying)])
    ensures Crowded(Two, Play(Two, s2, [Admit(2, 30.0)]))
  {
    var s3 := Apply(Two, s2, Admit(2, 30.0));
    PlayOne(Two, s2, Admit(2, 30.0));
    assert Holders(s3) == {1, 2};
  }

  /** The bound on trials needs its condition: a straggler's success lets a second trial in beside the
      only one allowed. */
  lemma StragglerLetsTwoIn()
    ensures exists s :: Reaches(Two, Start, s) && Crowded(Two, s)
  {
    var s0 := System(Fresh, 0, map[9 := Call(None, Flying)]);
    PlayOne(Two, Start, Admit(9, 0.0));
    assert Play(Two, Start, [Admit(9, 0.0)]) == s0;
    Opened(Two, s0);
    var s1 := s0.(view := View(Open, 1, 0, Some(0.0), 0));
    ReachesOn(Two, Start, s0, [Admit(0, 0.0), Raise(0), Report(0, 0.0)]);
    StragglerFreesSlot(s1);
    ReachesOn(Two, Start, s1, [Admit(1, 30.0), Finish(9)]);
    var s2 := System(View(HalfOpen, 1, 1, None, 0), 1, map[1 := Call(Some(1), Flying)]);
    SecondTrial(s2);
    ReachesOn(Two, Start, s2, [Admit(2, 30.0)]);
  }
}
