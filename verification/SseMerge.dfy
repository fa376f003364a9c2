/** Merging the status and the progress stream through one bounded queue.

    Two producers put their events, then a sentinel each; the consumer gets until it has seen both
    sentinels. A status event waits for room; a progress event that has found the queue full may be
    dropped instead. Which task runs next is arbitrary. Not in the model: a client that disconnects in
    the middle. */
module SseMerge {
  import opened Prelude

  const CAPACITY := 128

  datatype Source = First | Second

  datatype Event = Status(body: string) | ProgressEvent(body: string)

  datatype Item = Item(source: Source, event: Event) | End(source: Source)

  datatype State = State(
    queue: seq<Item>,
    taken: map<Source, nat>,      // how many events of its stream a producer is done with
    finished: set<Source>,        // has put its sentinel
    ended: set<Source>,           // its sentinel has been read
    blocked: set<Source>,         // has found the queue full with a progress event in hand
    out: seq<Item>)

  datatype Step = Put(source: Source) | Wait(source: Source) | Drop(source: Source) | Get

  type Streams = map<Source, seq<Event>>

  const Init := State([], map[First := 0, Second := 0], {}, {}, {}, [])

  ghost predicate Fits(streams: Streams, s: State) {
    && (forall p: Source :: p in streams && p in s.taken && s.taken[p] <= |streams[p]|)
    && (forall p: Source :: p in s.finished ==> s.taken[p] == |streams[p]|)
  }

  ghost predicate HasNext(streams: Streams, s: State, p: Source)
    requires Fits(streams, s)
  {
    s.taken[p] < |streams[p]|
  }

  predicate Done(s: State) {
    First in s.ended && Second in s.ended
  }

  ghost function Apply(streams: Streams, s: State, step: Step): State
    requires Fits(streams, s)
  {
    match step
    case Put(p) =>
      if |s.queue| >= CAPACITY || p in s.finished then s
      else if HasNext(streams, s, p)
      then s.(queue := s.queue + [Item(p, streams[p][s.taken[p]])], taken := s.taken[p := s.taken[p] + 1], blocked := s.blocked - {p})
      else s.(queue := s.queue + [End(p)], finished := s.finished + {p})
    case Wait(p) =>
      if |s.queue| >= CAPACITY && HasNext(streams, s, p) && streams[p][s.taken[p]].ProgressEvent?
      then s.(blocked := s.blocked + {p}) else s
    case Drop(p) =>
      if p in s.blocked && HasNext(streams, s, p) && streams[p][s.taken[p]].ProgressEvent?
      then s.(taken := s.taken[p := s.taken[p] + 1], blocked := s.blocked - {p}) else s
    case Get =>
      if s.queue == [] || Done(s) then s
      else if s.queue[0].End? then s.(queue := s.queue[1..], ended := s.ended + {s.queue[0].source})
      else s.(queue := s.queue[1..], out := s.out + [s.queue[0]])
  }

  lemma StepFits(streams: Streams, s: State, step: Step)
    requires Fits(streams, s)
    ensures Fits(streams, Apply(streams, s, step))
  {
  }

  ghost function Run(streams: Streams, s: State, steps: seq<Step>): State
    requires Fits(streams, s)
    decreases |steps|
  {
    if steps == [] then s
    else
      StepFits(streams, s, steps[0]);
      Run(streams, Apply(streams, s, steps[0]), steps[1..])
  }

  /** The two ends of the queue as code: each method is one uninterrupted piece of a task. */
  class Merger {
    const streams: Streams
    var queue: seq<Item>
    var taken: map<Source, nat>
    var finished: set<Source>
    var ended: set<Source>
    var blocked: set<Source>
    var out: seq<Item>

    ghost function View(): State
      reads this
    {
      State(queue, taken, finished, ended, blocked, out)
    }

    constructor (streams: Streams)
      requires First in streams && Second in streams
      ensures View() == Init && this.streams == streams && Fits(streams, View())
    {
      this.streams := streams;
      queue, taken, finished, ended, blocked, out := [], map[First := 0, Second := 0], {}, {}, {}, [];
      new;
      InitInv(streams);
    }

    /** A producer's next put, once the queue has room. */
    method PutNext(p: Source)
      requires Fits(streams, View()) && |queue| < CAPACITY && p !in finished
      modifies this
      ensures View() == Apply(streams, old(View()), Put(p))
    {
      if taken[p] < |streams[p]| {
        queue := queue + [Item(p, streams[p][taken[p]])];
        taken := taken[p := taken[p] + 1];
        blocked := blocked - {p};
      } else {
        queue := queue + [End(p)];
        finished := finished + {p};
      }
    }

    /** A put of a progress event begins to wait for room. */
    method WaitForRoom(p: Source)
      requires Fits(streams, View()) && |queue| >= CAPACITY && taken[p] < |streams[p]| && streams[p][taken[p]].ProgressEvent?
      modifies this`blocked
      ensures View() == Apply(streams, old(View()), Wait(p))
    {
      blocked := blocked + {p};
    }

    /** It has waited for five seconds. */
    method SkipNext(p: Source)
      requires Fits(streams, View()) && p in blocked && taken[p] < |streams[p]| && streams[p][taken[p]].ProgressEvent?
      modifies this
      ensures View() == Apply(streams, old(View()), Drop(p))
    {
      taken := taken[p := taken[p] + 1];
      blocked := blocked - {p};
    }

    method GetNext() returns (yielded: Option<Event>)
      requires Fits(streams, View()) && queue != [] && !Done(View())
      modifies this
      ensures View() == Apply(streams, old(View()), Get)
      ensures out == old(out) + (if yielded.Some? then [Item(old(queue)[0].source, yielded.value)] else [])
    {
      var item := queue[0];
      queue := queue[1..];
      if item.End? {
        ended := ended + {item.source};
        yielded := None;
      } else {
        out := out + [item];
        yielded := Some(item.event);
      }
    }
  }

  // What comes out.

  /** The events of one source, in order. */
  function From(items: seq<Item>, p: Source): seq<Event> {
    if items == [] then []
    else
      var last := items[|items| - 1];
      From(items[..|items| - 1], p) + if last.Item? && last.source == p then [last.event] else []
  }

  function Statuses(events: seq<Event>): seq<Event> {
    if events == [] then []
    else
      var last := events[|events| - 1];
      Statuses(events[..|events| - 1]) + if last.Status? then [last] else []
  }

  /** `sent` is `events` with some progress events left out. */
  ghost predicate Thins(sent: seq<Event>, events: seq<Event>) {
    if events == [] then sent == []
    else
      var last := events[|events| - 1];
      var before := events[..|events| - 1];
      || (sent != [] && sent[|sent| - 1] == last && Thins(sent[..|sent| - 1], before))
      || (last.ProgressEvent? && Thins(sent, before))
  }

  ghost predicate Subsequence(a: seq<Event>, b: seq<Event>) {
    if b == [] then a == []
    else Subsequence(a, b[..|b| - 1]) || (a != [] && a[|a| - 1] == b[|b| - 1] && Subsequence(a[..|a| - 1], b[..|b| - 1]))
  }

  lemma {:induction false} ThinsMeans(sent: seq<Event>, events: seq<Event>)
    requires Thins(sent, events)
    ensures Statuses(sent) == Statuses(events)
    ensures Subsequence(sent, events)
  {
    if events != [] {
      var last := events[|events| - 1];
      var before := events[..|events| - 1];
      if sent != [] && sent[|sent| - 1] == last && Thins(sent[..|sent| - 1], before) {
        ThinsMeans(sent[..|sent| - 1], before);
      } else {
        ThinsMeans(sent, before);
      }
    }
  }

  lemma FromSnoc(items: seq<Item>, x: Item, p: Source)
    ensures From(items + [x], p) == From(items, p) + if x.Item? && x.source == p then [x.event] else []
  {
    assert (items + [x])[..|items|] == items;
  }

  lemma {:induction false} FromAppend(a: seq<Item>, b: seq<Item>, p: Source)
    ensures From(a + b, p) == From(a, p) + From(b, p)
  {
    if b == [] {
      assert a + b == a;
    } else {
      var n := |b| - 1;
      assert (a + b)[..|a + b| - 1] == a + b[..n];
      FromAppend(a, b[..n], p);
    }
  }

  ghost predicate Owned(items: seq<Item>, p: Source) {
    exists x | x in items :: x.source == p
  }

  /** What has been sent of a stream, delivered or still queued, thins what the producer is done with. */
  ghost predicate SentOk(streams: Streams, s: State, p: Source)
    requires Fits(streams, s)
  {
    Thins(From(s.out, p) + From(s.queue, p), streams[p][..s.taken[p]])
  }

  ghost predicate QueueOk(s: State) {
    && |s.queue| <= CAPACITY
    && s.ended <= s.finished
    && (forall p: Source :: p in s.ended ==> !Owned(s.queue, p))
    && (forall i, k | 0 <= i < k < |s.queue| :: s.queue[i].End? ==> s.queue[k].source != s.queue[i].source)
    && (forall x | x in s.queue :: x.End? ==> x.source in s.finished)
    && (forall p: Source :: p in s.finished ==> p in s.ended || End(p) in s.queue)
  }

  ghost predicate Inv(streams: Streams, s: State) {
    Fits(streams, s) && QueueOk(s) && forall p: Source :: SentOk(streams, s, p)
  }

  lemma ThinsSnoc(sent: seq<Event>, events: seq<Event>, e: Event)
    requires Thins(sent, events)
    ensures Thins(sent + [e], events + [e])
    ensures e.ProgressEvent? ==> Thins(sent, events + [e])
  {
    assert (sent + [e])[..|sent|] == sent && (events + [e])[..|events|] == events;
  }

  lemma TakeNext(events: seq<Event>, n: nat)
    requires n < |events|
    ensures events[..n + 1] == events[..n] + [events[n]]
  {
  }

  lemma PutKeepsQueue(streams: Streams, s: State, p: Source)
    requires Inv(streams, s)
    ensures QueueOk(Apply(streams, s, Put(p)))
  {
    var s' := Apply(streams, s, Put(p));
    if s' != s {
      var x := s'.queue[|s.queue|];
      assert s'.queue == s.queue + [x] && x.source == p && p !in s.finished;
      forall i | 0 <= i < |s.queue| ensures s.queue[i].End? ==> s.queue[i].source != p {
        assert s.queue[i] in s.queue;
      }
      forall q: Source | q in s'.finished ensures q in s'.ended || End(q) in s'.queue {
        assert q in s.finished ==> q in s.ended || End(q) in s.queue;
      }
    }
  }

  /** A producer's next event joins what has been sent of its stream. */
  lemma JoinsSent(out: seq<Item>, queue: seq<Item>, x: Item, p: Source, events: seq<Event>, n: nat)
    requires n < |events| && x == Item(p, events[n])
    requires Thins(From(out, p) + From(queue, p), events[..n])
    ensures Thins(From(out, p) + From(queue + [x], p), events[..n + 1])
  {
    FromSnoc(queue, x, p);
    TakeNext(events, n);
    ThinsSnoc(From(out, p) + From(queue, p), events[..n], x.event);
    assert From(out, p) + (From(queue, p) + [x.event]) == From(out, p) + From(queue, p) + [x.event];
  }

  lemma OthersSent(queue: seq<Item>, x: Item, q: Source)
    requires x.End? || x.source != q
    ensures From(queue + [x], q) == From(queue, q)
  {
    FromSnoc(queue, x, q);
    assert From(queue, q) + [] == From(queue, q);
  }

  lemma PutKeepsSent(streams: Streams, s: State, p: Source, q: Source)
    requires Inv(streams, s)
    ensures Fits(streams, Apply(streams, s, Put(p)))
    ensures SentOk(streams, Apply(streams, s, Put(p)), q)
  {
    StepFits(streams, s, Put(p));
    assert SentOk(streams, s, q);
    if |s.queue| < CAPACITY && p !in s.finished {
      if HasNext(streams, s, p) && p == q {
        JoinsSent(s.out, s.queue, Item(p, streams[p][s.taken[p]]), p, streams[p], s.taken[p]);
      } else {
        OthersSent(s.queue, if HasNext(streams, s, p) then Item(p, streams[p][s.taken[p]]) else End(p), q);
      }
    }
  }

  lemma WaitKeeps(streams: Streams, s: State, p: Source)
    requires Inv(streams, s)
    ensures Inv(streams, Apply(streams, s, Wait(p)))
  {
    var s' := Apply(streams, s, Wait(p));
    forall q: Source ensures SentOk(streams, s', q) {
      assert SentOk(streams, s, q);
    }
  }

  lemma DropKeeps(streams: Streams, s: State, p: Source)
    requires Inv(streams, s)
    ensures Inv(streams, Apply(streams, s, Drop(p)))
  {
    var s' := Apply(streams, s, Drop(p));
    forall q: Source ensures SentOk(streams, s', q) {
      assert SentOk(streams, s, q);
      if s' != s && q == p {
        TakeNext(streams[q], s.taken[q]);
        ThinsSnoc(From(s.out, q) + From(s.queue, q), streams[q][..s.taken[q]], streams[q][s.taken[q]]);
      }
    }
  }

  lemma GetKeepsQueue(streams: Streams, s: State)
    requires Inv(streams, s)
    ensures QueueOk(Apply(streams, s, Get))
  {
    var s' := Apply(streams, s, Get);
    if s' != s {
      var x := s.queue[0];
      assert s.queue == [x] + s'.queue;
      forall p: Source | p in s'.ended ensures !Owned(s'.queue, p) {
        if p in s.ended {
          assert !Owned(s.queue, p);
        } else {
          assert forall k | 0 <= k < |s'.queue| :: s'.queue[k] == s.queue[k + 1];
        }
      }
      forall p: Source | p in s'.finished ensures p in s'.ended || End(p) in s'.queue {
        assert p in s.ended || End(p) in s.queue;
      }
    }
  }

  /** What leaves the queue either is yielded or is a sentinel. */
  lemma MovesAcross(out: seq<Item>, x: Item, rest: seq<Item>, p: Source)
    ensures From(out, p) + From([x] + rest, p) == From(if x.End? then out else out + [x], p) + From(rest, p)
  {
    FromAppend([x], rest, p);
    assert [] + [x] == [x];
    FromSnoc([], x, p);
    FromSnoc(out, x, p);
    assert From(out, p) + (From([x], p) + From(rest, p)) == (From(out, p) + From([x], p)) + From(rest, p);
  }

  lemma GetKeepsSent(streams: Streams, s: State, q: Source)
    requires Inv(streams, s)
    ensures SentOk(streams, Apply(streams, s, Get), q)
  {
    assert SentOk(streams, s, q);
    if s.queue != [] {
      assert s.queue == [s.queue[0]] + s.queue[1..];
      MovesAcross(s.out, s.queue[0], s.queue[1..], q);
    }
  }

  lemma StepKeepsInv(streams: Streams, s: State, step: Step)
    requires Inv(streams, s)
    ensures Inv(streams, Apply(streams, s, step))
  {
    StepFits(streams, s, step);
    match step
    case Put(p) =>
      PutKeepsQueue(streams, s, p);
      forall q: Source ensures SentOk(streams, Apply(streams, s, step), q) { PutKeepsSent(streams, s, p, q); }
    case Wait(p) => WaitKeeps(streams, s, p);
    case Drop(p) => DropKeeps(streams, s, p);
    case Get =>
      GetKeepsQueue(streams, s);
      forall q: Source ensures SentOk(streams, Apply(streams, s, step), q) { GetKeepsSent(streams, s, q); }
  }

  lemma {:induction false} RunKeepsInv(streams: Streams, s: State, steps: seq<Step>)
    requires Inv(streams, s)
    ensures Inv(streams, Run(streams, s, steps))
    decreases |steps|
  {
    if steps != [] {
      StepKeepsInv(streams, s, steps[0]);
      RunKeepsInv(streams, Apply(streams, s, steps[0]), steps[1..]);
    }
  }

  lemma InitInv(streams: Streams)
    requires First in streams && Second in streams
    ensures Inv(streams, Init)
  {
    forall p: Source ensures p in streams && p in Init.taken && Init.taken[p] == 0 {
      match p case First => case Second =>
    }
  }

  lemma EmptyUnlessOwned(queue: seq<Item>)
    ensures queue == [] || Owned(queue, First) || Owned(queue, Second)
  {
    if queue != [] {
      assert queue[0] in queue;
      assert queue[0].source.First? || queue[0].source.Second?;
    }
  }

  /** When the second sentinel has been read: nothing is left in the queue, every status event of each
      stream has been yielded, in order, and what was yielded of a stream is a subsequence of it. */
  lemma MergeKeepsStatus(streams: Streams, steps: seq<Step>)
    requires First in streams && Second in streams && Fits(streams, Init)
    requires Done(Run(streams, Init, steps))
    ensures var s := Run(streams, Init, steps);
      && s.queue == []
      && forall p: Source :: p in streams && Statuses(From(s.out, p)) == Statuses(streams[p])
           && Subsequence(From(s.out, p), streams[p])
  {
    InitInv(streams);
    RunKeepsInv(streams, Init, steps);
    var s := Run(streams, Init, steps);
    EmptyUnlessOwned(s.queue);
    forall p: Source ensures p in streams && Statuses(From(s.out, p)) == Statuses(streams[p]) && Subsequence(From(s.out, p), streams[p]) {
      assert SentOk(streams, s, p);
      assert p in s.ended by { match p case First => case Second => }
      assert streams[p][..|streams[p]|] == streams[p];
      assert From(s.out, p) + From(s.queue, p) == From(s.out, p);
      ThinsMeans(From(s.out, p), streams[p]);
    }
  }

  ghost function Left(streams: Streams, s: State, p: Source): nat
    requires Fits(streams, s)
  {
    3 * (|streams[p]| - s.taken[p]) + (if p in s.finished then 0 else 2) - (if HasNext(streams, s, p) && p in s.blocked then 1 else 0)
  }

  ghost function Measure(streams: Streams, s: State): nat
    requires Fits(streams, s)
  {
    Left(streams, s, First) + Left(streams, s, Second) + |s.queue|
  }

  /** Nothing waits for ever: until both sentinels are read some task can run, and whatever runs
      brings the end nearer. */
  lemma NeverStuck(streams: Streams, s: State)
    requires Inv(streams, s) && !Done(s)
    ensures exists step :: Apply(streams, s, step) != s
  {
    if s.queue != [] {
      assert |Apply(streams, s, Get).queue| < |s.queue|;
    } else {
      var p := if First in s.ended then Second else First;
      assert p !in s.finished;
      assert |Apply(streams, s, Put(p)).queue| == 1;
    }
  }

  lemma StepShrinks(streams: Streams, s: State, step: Step)
    requires Inv(streams, s) && Apply(streams, s, step) != s
    ensures Fits(streams, Apply(streams, s, step))
    ensures Measure(streams, Apply(streams, s, step)) < Measure(streams, s)
  {
    StepFits(streams, s, step);
    if step.Put? || step.Wait? || step.Drop? {
      match step.source case First => case Second =>
    }
  }

  // Without pressure nothing is lost.

  /** The queue, which holds 128, has room in every state of the run. */
  ghost predicate NeverFull(streams: Streams, s: State, steps: seq<Step>)
    requires Fits(streams, s)
    decreases |steps|
  {
    |s.queue| < 128 &&
    (steps == [] || (StepFits(streams, s, steps[0]); NeverFull(streams, Apply(streams, s, steps[0]), steps[1..])))
  }

  /** Everything a producer is done with has been sent. */
  ghost predicate AllSent(streams: Streams, s: State)
    requires Fits(streams, s)
  {
    s.blocked == {} && forall p: Source :: From(s.out, p) + From(s.queue, p) == streams[p][..s.taken[p]]
  }

  lemma GetSends(streams: Streams, s: State, p: Source)
    requires Fits(streams, s)
    ensures var s' := Apply(streams, s, Get);
      From(s'.out, p) + From(s'.queue, p) == From(s.out, p) + From(s.queue, p) && s'.taken == s.taken
  {
    if s.queue != [] {
      assert s.queue == [s.queue[0]] + s.queue[1..];
      MovesAcross(s.out, s.queue[0], s.queue[1..], p);
    }
  }

  lemma StepKeepsAll(streams: Streams, s: State, step: Step)
    requires Inv(streams, s) && AllSent(streams, s) && |s.queue| < 128
    ensures Fits(streams, Apply(streams, s, step)) && AllSent(streams, Apply(streams, s, step))
  {
    StepFits(streams, s, step);
    var s' := Apply(streams, s, step);
    forall p: Source ensures From(s'.out, p) + From(s'.queue, p) == streams[p][..s'.taken[p]] {
      assert From(s.out, p) + From(s.queue, p) == streams[p][..s.taken[p]];
      match step
      case Put(q) => if q !in s.finished { PutSends(streams, s, q, p); }
      case Get => GetSends(streams, s, p);
      case _ =>
    }
  }

  lemma JoinsAll(out: seq<Item>, queue: seq<Item>, x: Item, p: Source, events: seq<Event>, n: nat)
    requires n < |events| && x == Item(p, events[n]) && From(out, p) + From(queue, p) == events[..n]
    ensures From(out, p) + From(queue + [x], p) == events[..n + 1]
  {
    FromSnoc(queue, x, p);
    TakeNext(events, n);
    assert From(out, p) + (From(queue, p) + [x.event]) == From(out, p) + From(queue, p) + [x.event];
  }

  lemma JoinsNone(out: seq<Item>, queue: seq<Item>, x: Item, p: Source)
    requires x.End? || x.source != p
    ensures From(out, p) + From(queue + [x], p) == From(out, p) + From(queue, p)
  {
    FromSnoc(queue, x, p);
    assert From(queue, p) + [] == From(queue, p);
  }

  lemma PutsItem(streams: Streams, s: State, q: Source)
    requires Fits(streams, s) && |s.queue| < 128 && q !in s.finished
    ensures var s' := Apply(streams, s, Put(q));
      && s'.out == s.out
      && s'.queue == s.queue + [if HasNext(streams, s, q) then Item(q, streams[q][s.taken[q]]) else End(q)]
      && s'.taken == if HasNext(streams, s, q) then s.taken[q := s.taken[q] + 1] else s.taken
  {
  }

  lemma PutSends(streams: Streams, s: State, q: Source, p: Source)
    requires Fits(streams, s) && |s.queue| < 128 && q !in s.finished
    requires From(s.out, p) + From(s.queue, p) == streams[p][..s.taken[p]]
    ensures Fits(streams, Apply(streams, s, Put(q)))
    ensures var s' := Apply(streams, s, Put(q)); From(s'.out, p) + From(s'.queue, p) == streams[p][..s'.taken[p]]
  {
    StepFits(streams, s, Put(q));
    PutsItem(streams, s, q);
    if HasNext(streams, s, q) && p == q {
      JoinsAll(s.out, s.queue, Item(q, streams[q][s.taken[q]]), p, streams[p], s.taken[p]);
    } else if HasNext(streams, s, q) {
      JoinsNone(s.out, s.queue, Item(q, streams[q][s.taken[q]]), p);
    } else {
      JoinsNone(s.out, s.queue, End(q), p);
    }
  }

  lemma {:induction false} AllSentThroughout(streams: Streams, s: State, steps: seq<Step>)
    requires Inv(streams, s) && AllSent(streams, s) && NeverFull(streams, s, steps)
    ensures Inv(streams, Run(streams, s, steps)) && AllSent(streams, Run(streams, s, steps))
    decreases |steps|
  {
    if steps != [] {
      StepKeepsAll(streams, s, steps[0]);
      StepKeepsInv(streams, s, steps[0]);
      AllSentThroughout(streams, Apply(streams, s, steps[0]), steps[1..]);
    }
  }

  /** A progress event is lost only under pressure: if the queue never gets full, both streams come out
      complete and in order. */
  lemma NothingLostWithoutPressure(streams: Streams, steps: seq<Step>)
    requires First in streams && Second in streams && Fits(streams, Init)
    requires NeverFull(streams, Init, steps) && Done(Run(streams, Init, steps))
    ensures forall p: Source :: p in streams && From(Run(streams, Init, steps).out, p) == streams[p]
  {
    InitInv(streams);
    AllSentThroughout(streams, Init, steps);
    MergeKeepsStatus(streams, steps);
    var s := Run(streams, Init, steps);
    forall p: Source ensures p in streams && From(s.out, p) == streams[p] {
      assert p in s.ended by { match p case First => case Second => }
      assert From(s.out, p) + From(s.queue, p) == streams[p][..s.taken[p]];
      assert streams[p][..|streams[p]|] == streams[p];
      assert From(s.out, p) + [] == From(s.out, p);
    }
  }

  /** What is yielded comes out in the order in which it was put, whichever stream it is from. */
  lemma QueueIsFifo(streams: Streams, s: State, step: Step)
    requires Fits(streams, s)
    ensures var s' := Apply(streams, s, step);
      || (s'.queue == s.queue && s'.out == s.out)
      || (step.Put? && s'.out == s.out && exists x :: s'.queue == s.queue + [x] && x.source == step.source)
      || (step.Get? && s.queue != [] && s'.queue == s.queue[1..] && s'.out == s.out + (if s.queue[0].Item? then [s.queue[0]] else []))
  {
    if step.Put? && Apply(streams, s, step) != s {
      var x := Apply(streams, s, step).queue[|s.queue|];
      assert Apply(streams, s, step).queue == s.queue + [x];
    }
    assert s.out + [] == s.out;
  }
}
