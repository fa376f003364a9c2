/** The circuit breaker in local mode: the class, the function each of its methods computes, and a
    reference law that reads the state off the history of results alone.

    Every method holds the breaker's lock for its whole body, so one call is one step. */
module CircuitBreaker {
  import opened Prelude

  /** Seconds of the monotonic clock. */
  type Time = real

  datatype Circuit = Closed | Open | HalfOpen

  datatype Config = Config(failureThreshold: int, successThreshold: int, resetTimeout: Time, halfOpenMaxCalls: int)

  datatype View = View(
    state: Circuit,
    failures: nat,
    successes: nat,
    lastFailure: Option<Time>,
    slots: nat)

  const Fresh := View(Closed, 0, 0, None, 0)

  // What the methods compute.

  predicate Cooled(c: Config, v: View, at: Time) {
    v.state == Open && v.lastFailure.Some? && at - v.lastFailure.value >= c.resetTimeout
  }

  function Looked(c: Config, v: View, at: Time): View {
    if Cooled(c, v, at) then v.(state := HalfOpen, lastFailure := None) else v
  }

  predicate Admits(c: Config, v: View, at: Time) {
    var w := Looked(c, v, at);
    w.state == Closed || (w.state == HalfOpen && w.slots < c.halfOpenMaxCalls)
  }

  function Asked(c: Config, v: View, at: Time): View {
    var w := Looked(c, v, at);
    if w.state == HalfOpen && Admits(c, v, at) then w.(slots := w.slots + 1) else w
  }

  function Released(v: View): View {
    if v.slots > 0 then v.(slots := v.slots - 1) else v
  }

  function Succeeded(c: Config, v: View): View {
    var w := Released(v);
    match w.state
    case Open => w
    case Closed => w.(failures := 0)
    case HalfOpen =>
      if w.successes + 1 >= c.successThreshold
      then w.(state := Closed, failures := 0, successes := 0, slots := 0)
      else w.(successes := w.successes + 1)
  }

  function Failed(c: Config, v: View, at: Time): View {
    var w := v.(failures := v.failures + 1, lastFailure := Some(at));
    match v.state
    case Open => w
    case Closed => if w.failures >= c.failureThreshold then w.(state := Open) else w
    case HalfOpen => w.(state := Open, successes := 0, slots := 0)
  }

  class Breaker {
    const config: Config
    var state: Circuit
    var failureCount: nat
    var successCount: nat
    var lastFailureTime: Option<Time>
    var halfOpenCalls: nat

    function Values(): View
      reads this
    {
      View(state, failureCount, successCount, lastFailureTime, halfOpenCalls)
    }

    constructor (c: Config)
      ensures config == c && Values() == Fresh
    {
      config := c;
      state, failureCount, successCount, lastFailureTime, halfOpenCalls := Closed, 0, 0, None, 0;
    }

    method CheckAndTransitionToHalfOpen(at: Time) returns (current: Circuit)
      modifies this
      ensures Values() == Looked(config, old(Values()), at)
      ensures current == state
    {
      if state == Open && lastFailureTime.Some? {
        var elapsed := at - lastFailureTime.value;
        if elapsed >= config.resetTimeout {
          state := HalfOpen;
          lastFailureTime := None;
        }
      }
      current := state;
    }

    method IsAccepting(at: Time) returns (accepting: bool)
      modifies this
      ensures Values() == Looked(config, old(Values()), at)
      ensures accepting == (state != Open)
    {
      var current := CheckAndTransitionToHalfOpen(at);
      accepting := current != Open;
    }

    method TryAcquireHalfOpenSlot() returns (acquired: bool)
      modifies this`halfOpenCalls
      ensures acquired == (old(halfOpenCalls) < config.halfOpenMaxCalls)
      ensures halfOpenCalls == old(halfOpenCalls) + if acquired then 1 else 0
    {
      acquired := halfOpenCalls < config.halfOpenMaxCalls;
      if acquired {
        halfOpenCalls := halfOpenCalls + 1;
      }
    }

    method CanExecute(at: Time) returns (admitted: bool)
      modifies this
      ensures Values() == Asked(config, old(Values()), at)
      ensures admitted == Admits(config, old(Values()), at)
    {
      var current := CheckAndTransitionToHalfOpen(at);
      if current == Closed {
        return true;
      }
      if current == Open {
        return false;
      }
      admitted := TryAcquireHalfOpenSlot();
    }

    method ReleaseHalfOpenSlot()
      modifies this`halfOpenCalls
      ensures Values() == Released(old(Values()))
    {
      if halfOpenCalls > 0 {
        halfOpenCalls := halfOpenCalls - 1;
      }
    }

    method RecordSuccess()
      modifies this
      ensures Values() == Succeeded(config, old(Values()))
    {
      ReleaseHalfOpenSlot();
      if state == HalfOpen {
        successCount := successCount + 1;
        if successCount >= config.successThreshold {
          state := Closed;
          failureCount := 0;
          successCount := 0;
          halfOpenCalls := 0;
        }
      } else if state == Closed {
        failureCount := 0;
      }
    }

    method RecordFailure(at: Time)
      modifies this
      ensures Values() == Failed(config, old(Values()), at)
    {
      failureCount := failureCount + 1;
      lastFailureTime := Some(at);
      if state == HalfOpen {
        state := Open;
        successCount := 0;
        halfOpenCalls := 0;
      } else if state == Closed {
        if failureCount >= config.failureThreshold {
          state := Open;
        }
      }
    }
  }

  // The history of a breaker: what it was told, when it was looked at, and how its state changed.

  datatype Event = Ask(at: Time) | Probe(at: Time) | Success | Failure(at: Time) | Release

  function Next(c: Config, v: View, e: Event): View {
    match e
    case Ask(at) => Asked(c, v, at)
    case Probe(at) => Looked(c, v, at)
    case Success => Succeeded(c, v)
    case Failure(at) => Failed(c, v, at)
    case Release => Released(v)
  }

  /** A look at the breaker, by a call that asks to be admitted or by one that only probes; a success, a
      failure, a slot given back without either; and a change of state. */
  datatype Entry = Look(at: Time, asks: bool) | Good | Bad(at: Time) | Back | Became(state: Circuit)

  function Note(e: Event): Entry {
    match e
    case Ask(at) => Look(at, true)
    case Probe(at) => Look(at, false)
    case Success => Good
    case Failure(at) => Bad(at)
    case Release => Back
  }

  /** What an event adds to the history: the event itself, then the change of state if there is one. */
  function Recorded(c: Config, v: View, e: Event): seq<Entry> {
    var v' := Next(c, v, e);
    [Note(e)] + if v'.state != v.state then [Became(v'.state)] else []
  }

  function Run(c: Config, v: View, events: seq<Event>): View {
    if events == [] then v else Next(c, Run(c, v, events[..|events| - 1]), events[|events| - 1])
  }

  function History(c: Config, events: seq<Event>): seq<Entry> {
    if events == [] then []
    else
      var before := events[..|events| - 1];
      History(c, before) + Recorded(c, Run(c, Fresh, before), events[|events| - 1])
  }

  // The reference law: the state as a reading of the history.

  function StateOf(log: seq<Entry>): Circuit {
    if log == [] then Closed
    else match log[|log| - 1]
      case Became(st) => st
      case _ => StateOf(log[..|log| - 1])
  }

  /** Failures since the last success or the last change of state. */
  function FailureRun(log: seq<Entry>): nat {
    if log == [] then 0
    else match log[|log| - 1]
      case Bad(_) => FailureRun(log[..|log| - 1]) + 1
      case Look(_, _) => FailureRun(log[..|log| - 1])
      case Back => FailureRun(log[..|log| - 1])
      case _ => 0
  }

  /** Successes since the last failure or the last change of state. */
  function SuccessRun(log: seq<Entry>): nat {
    if log == [] then 0
    else match log[|log| - 1]
      case Good => SuccessRun(log[..|log| - 1]) + 1
      case Look(_, _) => SuccessRun(log[..|log| - 1])
      case Back => SuccessRun(log[..|log| - 1])
      case _ => 0
  }

  function LatestFailure(log: seq<Entry>): Option<Time> {
    if log == [] then None
    else match log[|log| - 1]
      case Bad(at) => Some(at)
      case _ => LatestFailure(log[..|log| - 1])
  }

  /** What the failure counter counts: all failures since the breaker last closed, or since the last success
      while closed; a success in another state leaves it. */
  function FailuresCounted(log: seq<Entry>): nat {
    if log == [] then 0
    else
      var before := log[..|log| - 1];
      match log[|log| - 1]
      case Bad(_) => FailuresCounted(before) + 1
      case Became(st) => if st == Closed then 0 else FailuresCounted(before)
      case Good => if StateOf(before) == Closed then 0 else FailuresCounted(before)
      case _ => FailuresCounted(before)
  }

  /** The latest failure, forgotten with the next half-open period. */
  function FailureKept(log: seq<Entry>): Option<Time> {
    if log == [] then None
    else match log[|log| - 1]
      case Bad(at) => Some(at)
      case Became(st) => if st == HalfOpen then None else FailureKept(log[..|log| - 1])
      case _ => FailureKept(log[..|log| - 1])
  }

  function AtLeastOne(n: int): nat {
    if n < 1 then 1 else n
  }

  function OneLess(n: nat): nat {
    if n > 0 then n - 1 else 0
  }

  /** The slots taken in the current half-open period: each ask takes one while there is one, the ask that
      began the period included, and each success or slot given back returns one. */
  function SlotsTaken(c: Config, log: seq<Entry>): nat {
    if log == [] then 0
    else
      var before := log[..|log| - 1];
      match log[|log| - 1]
      case Became(st) =>
        if st == HalfOpen && before != [] && before[|before| - 1].Look? && before[|before| - 1].asks && c.halfOpenMaxCalls >= 1
        then 1 else 0
      case Look(_, asks) =>
        if asks && StateOf(before) == HalfOpen && SlotsTaken(c, before) < c.halfOpenMaxCalls
        then SlotsTaken(c, before) + 1 else SlotsTaken(c, before)
      case Good => OneLess(SlotsTaken(c, before))
      case Back => OneLess(SlotsTaken(c, before))
      case Bad(_) => SlotsTaken(c, before)
  }

  /** The change of state that has to follow a history at once, if any. */
  function Due(c: Config, log: seq<Entry>): Option<Circuit> {
    if log == [] then None
    else match (StateOf(log), log[|log| - 1])
      case (Closed, Bad(_)) => if FailureRun(log) >= AtLeastOne(c.failureThreshold) then Some(Open) else None
      case (HalfOpen, Bad(_)) => Some(Open)
      case (HalfOpen, Good) => if SuccessRun(log) >= AtLeastOne(c.successThreshold) then Some(Closed) else None
      case (Open, Look(at, _)) =>
        if LatestFailure(log).Some? && at - LatestFailure(log).value >= c.resetTimeout then Some(HalfOpen) else None
      case _ => None
  }

  /** The state changes where it is due, to what is due, and nowhere else. */
  ghost predicate Lawful(c: Config, log: seq<Entry>) {
    log == [] ||
    var before := log[..|log| - 1];
    var last := log[|log| - 1];
    && Lawful(c, before)
    && (last.Became? <==> Due(c, before).Some?)
    && (last.Became? ==> Due(c, before) == Some(last.state))
  }

  /** The breaker's fields read off its history. */
  ghost predicate Explains(c: Config, log: seq<Entry>, v: View) {
    && v.state == StateOf(log)
    && (v.state == Closed ==> v.failures == FailureRun(log) < AtLeastOne(c.failureThreshold))
    && (v.state == HalfOpen ==> v.successes == SuccessRun(log) < AtLeastOne(c.successThreshold))
    && (v.state == Open ==> v.lastFailure.Some? && v.lastFailure == LatestFailure(log))
    && (v.state != HalfOpen ==> v.successes == 0)
    && v.failures == FailuresCounted(log) && v.lastFailure == FailureKept(log)
    && v.slots == SlotsTaken(c, log) && (v.state != HalfOpen ==> v.slots == 0)
    && Lawful(c, log)
    && Due(c, log) == None
  }

  lemma Snoc(log: seq<Entry>, e: Entry)
    ensures (log + [e])[..|log + [e]| - 1] == log && (log + [e])[|log + [e]| - 1] == e
  {
  }

  /** A change of state that is due keeps the history lawful. */
  lemma ChangeIsLawful(c: Config, log: seq<Entry>, st: Circuit)
    requires Lawful(c, log) && Due(c, log) == Some(st)
    ensures Lawful(c, log + [Became(st)])
  {
    Snoc(log, Became(st));
  }

  /** A look, by a call that asks or by one that only probes, and the change it may bring. */
  lemma LookExplained(c: Config, log: seq<Entry>, v: View, at: Time, asks: bool)
    requires Explains(c, log, v)
    ensures var e := if asks then Ask(at) else Probe(at); Explains(c, log + Recorded(c, v, e), Next(c, v, e))
  {
    var e := if asks then Ask(at) else Probe(at);
    var log1 := log + [Look(at, asks)];
    Snoc(log, Look(at, asks));
    assert StateOf(log1) == StateOf(log) && LatestFailure(log1) == LatestFailure(log);
    if Cooled(c, v, at) {
      Snoc(log1, Became(HalfOpen));
      ChangeIsLawful(c, log1, HalfOpen);
      assert log + Recorded(c, v, e) == log1 + [Became(HalfOpen)];
    } else {
      assert log + Recorded(c, v, e) == log1;
    }
  }

  lemma SuccessExplained(c: Config, log: seq<Entry>, v: View)
    requires Explains(c, log, v)
    ensures Explains(c, log + Recorded(c, v, Success), Succeeded(c, v))
  {
    var log1 := log + [Good];
    Snoc(log, Good);
    if v.state == HalfOpen && Succeeded(c, v).state == Closed {
      Snoc(log1, Became(Closed));
      ChangeIsLawful(c, log1, Closed);
      assert log + Recorded(c, v, Success) == log1 + [Became(Closed)];
    } else {
      assert log + Recorded(c, v, Success) == log1;
    }
  }

  lemma FailureExplained(c: Config, log: seq<Entry>, v: View, at: Time)
    requires Explains(c, log, v)
    ensures Explains(c, log + Recorded(c, v, Failure(at)), Failed(c, v, at))
  {
    var log1 := log + [Bad(at)];
    Snoc(log, Bad(at));
    assert StateOf(log1) == StateOf(log) && FailureRun(log1) == FailureRun(log) + 1 && LatestFailure(log1) == Some(at);
    if Failed(c, v, at).state != v.state {
      Snoc(log1, Became(Open));
      ChangeIsLawful(c, log1, Open);
      assert log + Recorded(c, v, Failure(at)) == log1 + [Became(Open)];
    } else {
      assert log + Recorded(c, v, Failure(at)) == log1;
    }
  }

  lemma StepExplained(c: Config, log: seq<Entry>, v: View, e: Event)
    requires Explains(c, log, v)
    ensures Explains(c, log + Recorded(c, v, e), Next(c, v, e))
  {
    match e
    case Ask(at) => LookExplained(c, log, v, at, true);
    case Probe(at) => LookExplained(c, log, v, at, false);
    case Success => SuccessExplained(c, log, v);
    case Failure(at) => FailureExplained(c, log, v, at);
    case Release =>
      Snoc(log, Back);
      assert log + Recorded(c, v, Release) == log + [Back];
  }

  /** Whatever happens to a breaker, its fields are the reading of its history and every change of
      state in that history is the one the law asks for. */
  lemma {:induction false} RefinesHistory(c: Config, events: seq<Event>)
    ensures Explains(c, History(c, events), Run(c, Fresh, events))
  {
    if events != [] {
      var before := events[..|events| - 1];
      RefinesHistory(c, before);
      StepExplained(c, History(c, before), Run(c, Fresh, before), events[|events| - 1]);
    }
  }

  /** Being asked or probed while open: refused and still open strictly before the reset timeout has
      passed since the latest failure (stragglers' failures included), half-open from then on. */
  lemma OpenUntilCooled(c: Config, events: seq<Event>, at: Time)
    requires Run(c, Fresh, events).state == Open
    ensures var v := Run(c, Fresh, events); var latest := LatestFailure(History(c, events));
      && latest.Some?
      && (at - latest.value < c.resetTimeout ==> !Admits(c, v, at) && Asked(c, v, at) == v && Looked(c, v, at) == v)
      && (at - latest.value >= c.resetTimeout ==>
            && Looked(c, v, at).state == HalfOpen && Asked(c, v, at).state == HalfOpen
            && (Admits(c, v, at) <==> c.halfOpenMaxCalls >= 1))
  {
    RefinesHistory(c, events);
  }

  /** A breaker closes exactly when the run of successes since it became half-open is long enough, and
      opens exactly when the run of failures is, or at any failure while half-open. */
  lemma ChangesExactly(c: Config, events: seq<Event>, e: Event)
    ensures var v := Run(c, Fresh, events); var v' := Next(c, v, e); var log := History(c, events);
      && (v.state == Closed ==>
            (v'.state == Open <==> e.Failure? && FailureRun(log) + 1 == AtLeastOne(c.failureThreshold)))
      && (v.state == Closed ==> v'.state != HalfOpen)
      && (v.state == HalfOpen ==>
            (v'.state == Closed <==> e.Success? && SuccessRun(log) + 1 == AtLeastOne(c.successThreshold)))
      && (v.state == HalfOpen ==> (v'.state == Open <==> e.Failure?))
      && (v.state == Open ==> v'.state != Closed)
  {
    RefinesHistory(c, events);
  }

  /** Who is admitted, from the history alone: everyone while closed; while half-open, exactly as long as
      fewer slots are taken in this period than it allows; while open, exactly once the reset timeout has
      passed since the latest failure and if trials are allowed at all. */
  lemma AdmittedExactly(c: Config, events: seq<Event>, at: Time)
    ensures var log := History(c, events);
      Admits(c, Run(c, Fresh, events), at) <==>
        match StateOf(log)
        case Closed => true
        case HalfOpen => SlotsTaken(c, log) < c.halfOpenMaxCalls
        case Open => LatestFailure(log).Some? && at - LatestFailure(log).value >= c.resetTimeout && c.halfOpenMaxCalls >= 1
  {
    RefinesHistory(c, events);
  }
}
