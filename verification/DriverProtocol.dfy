/** The line protocol between a pool slot and its driver: the driver answers one request after the
    other with tagged lines on one pipe; `run_job` reads until the terminal line of its own job.
    A caller that gives up leaves the rest of its job's lines in the pipe for the next one. */
module DriverProtocol {
  import opened Prelude

  type Id = string

  /** What yt-dlp hands to a progress hook. */
  datatype Tick = Tick(downloading: bool, downloaded: int, totalBytes: Option<int>, estimate: Option<int>)

  datatype Outcome = Result(value: string) | Error(message: string)

  /** What happens while a job runs: a hook call, or some other text on standard output. */
  datatype Event = Hook(tick: Tick) | Chatter

  datatype Work = Work(id: Id, events: seq<Event>, outcome: Outcome)

  datatype Line = Ready | Text | Progress(id: Id, tick: Tick) | Terminal(id: Id, outcome: Outcome)

  // The driver's side.

  function Total(d: Tick): int {
    if d.totalBytes.Some? && d.totalBytes.value != 0 then d.totalBytes.value
    else if d.estimate.Some? then d.estimate.value
    else 0
  }

  function Percent(d: Tick): real {
    if Total(d) > 0 then d.downloaded as real / Total(d) as real * 100.0 else 0.0
  }

  /** The percentage is that of the first total that is known and not zero: the exact one before the
      estimate. Without a positive total it is zero. */
  lemma PercentOfTotal(d: Tick)
    ensures d.totalBytes.Some? && d.totalBytes.value > 0 ==>
              Percent(d) * d.totalBytes.value as real == 100.0 * d.downloaded as real
    ensures (d.totalBytes == None || d.totalBytes == Some(0)) && d.estimate.Some? && d.estimate.value > 0 ==>
              Percent(d) * d.estimate.value as real == 100.0 * d.downloaded as real
    ensures d.totalBytes.Some? && d.totalBytes.value < 0 ==> Percent(d) == 0.0
    ensures (d.totalBytes == None || d.totalBytes == Some(0)) && (d.estimate == None || d.estimate.value <= 0) ==> Percent(d) == 0.0
  {
  }

  predicate Passes(last: real, d: Tick) {
    d.downloading && Percent(d) - last >= 0.5
  }

  /** The hook calls that are printed, given the percentage printed last. */
  function Kept(events: seq<Event>, last: real): seq<Tick> {
    if events == [] then []
    else if events[0].Hook? && Passes(last, events[0].tick)
    then [events[0].tick] + Kept(events[1..], Percent(events[0].tick))
    else Kept(events[1..], last)
  }

  function Printed(id: Id, events: seq<Event>, last: real): seq<Line> {
    if events == [] then []
    else match events[0]
      case Chatter => [Text] + Printed(id, events[1..], last)
      case Hook(d) =>
        if Passes(last, d) then [Progress(id, d)] + Printed(id, events[1..], Percent(d))
        else Printed(id, events[1..], last)
  }

  const START := -1.0

  function Emitted(w: Work): seq<Line> {
    Printed(w.id, w.events, START) + [Terminal(w.id, w.outcome)]
  }

  /** One printer per job; its last percentage is the closure's variable. */
  class ProgressPrinter {
    const id: Id
    var lastPct: real
    ghost var heard: seq<Event>
    ghost var printed: seq<Line>

    ghost predicate Valid()
      reads this
    {
      printed == Printed(id, heard, START) && lastPct == LastPercent(heard, START)
    }

    constructor (jobId: Id)
      ensures Valid() && id == jobId && heard == []
    {
      id := jobId;
      lastPct := START;
      heard, printed := [], [];
    }

    method Hook(d: Tick) returns (line: Option<Line>)
      requires Valid()
      modifies this
      ensures Valid() && heard == old(heard) + [Event.Hook(d)]
      ensures printed == old(printed) + (if line.Some? then [line.value] else [])
    {
      PrintedSnoc(id, heard, START, Event.Hook(d));
      heard := heard + [Event.Hook(d)];
      line := None;
      if !d.downloading {
        return;
      }
      var pct := Percent(d);
      if pct - lastPct < 0.5 {
        return;
      }
      lastPct := pct;
      line := Some(Progress(id, d));
      printed := printed + [Progress(id, d)];
    }
  }

  function LastPercent(events: seq<Event>, last: real): real {
    if events == [] then last
    else if events[0].Hook? && Passes(last, events[0].tick) then LastPercent(events[1..], Percent(events[0].tick))
    else LastPercent(events[1..], last)
  }

  lemma {:induction false} PrintedSnoc(id: Id, events: seq<Event>, last: real, e: Event)
    ensures var end := LastPercent(events, last);
      && Printed(id, events + [e], last) == Printed(id, events, last) +
           (match e case Chatter => [Text] case Hook(d) => if Passes(end, d) then [Progress(id, d)] else [])
      && LastPercent(events + [e], last) == if e.Hook? && Passes(end, e.tick) then Percent(e.tick) else end
  {
    if events == [] {
      assert [e][1..] == [];
    } else {
      var next := if events[0].Hook? && Passes(last, events[0].tick) then Percent(events[0].tick) else last;
      PrintedSnoc(id, events[1..], next, e);
      assert (events + [e])[1..] == events[1..] + [e];
    }
  }

  ghost predicate Climbs(ticks: seq<Tick>, last: real) {
    ticks == [] || (Percent(ticks[0]) >= last + 0.5 && Climbs(ticks[1..], Percent(ticks[0])))
  }

  lemma {:induction false} KeptClimbs(events: seq<Event>, last: real)
    ensures Climbs(Kept(events, last), last)
  {
    if events != [] {
      if events[0].Hook? && Passes(last, events[0].tick) {
        KeptClimbs(events[1..], Percent(events[0].tick));
      } else {
        KeptClimbs(events[1..], last);
      }
    }
  }

  ghost predicate InRange(events: seq<Event>) {
    forall e | e in events && e.Hook? :: 0.0 <= Percent(e.tick) <= 100.0
  }

  lemma {:induction false} KeptCount(events: seq<Event>, last: real)
    requires InRange(events) && 0.0 <= last <= 100.0
    ensures |Kept(events, last)| as real <= (100.0 - last) * 2.0
  {
    if events != [] {
      KeptCount(events[1..], if events[0].Hook? && Passes(last, events[0].tick) then Percent(events[0].tick) else last);
    }
  }

  /** The throttle: printed percentages climb by half a point at least, so a job whose percentages
      stay within 0 and 100 prints at most 201 progress lines. */
  lemma {:induction false} ThrottleBounds(events: seq<Event>)
    requires InRange(events)
    ensures Climbs(Kept(events, START), START) && |Kept(events, START)| <= 201
  {
    KeptClimbs(events, START);
    if events != [] {
      if events[0].Hook? && Passes(START, events[0].tick) {
        KeptCount(events[1..], Percent(events[0].tick));
      } else {
        ThrottleBounds(events[1..]);
      }
    }
  }

  /** The first call is printed if its percentage is not negative. */
  lemma FirstCallIsPrinted(events: seq<Event>)
    requires events != [] && events[0].Hook? && events[0].tick.downloading && Percent(events[0].tick) >= 0.0
    ensures Kept(events, START) != [] && Kept(events, START)[0] == events[0].tick
  {
  }

  /** Other output of the job is passed on, line by line. */
  lemma {:induction false} ChatterIsPassedOn(id: Id, events: seq<Event>, last: real)
    ensures multiset(Printed(id, events, last))[Text] == multiset(events)[Chatter]
    decreases |events|
  {
    if events != [] {
      var next := if events[0].Hook? && Passes(last, events[0].tick) then Percent(events[0].tick) else last;
      ChatterIsPassedOn(id, events[1..], next);
      assert events == [events[0]] + events[1..];
      var first: seq<Line> :=
        if events[0].Chatter? then [Text] else if Passes(last, events[0].tick) then [Progress(id, events[0].tick)] else [];
      assert Printed(id, events, last) == first + Printed(id, events[1..], next);
    }
  }

  /** Only calls made while downloading are printed. */
  lemma {:induction false} KeptAreDownloading(events: seq<Event>, last: real)
    ensures forall d | d in Kept(events, last) :: d.downloading && Hook(d) in events
  {
    if events != [] {
      KeptAreDownloading(events[1..], if events[0].Hook? && Passes(last, events[0].tick) then Percent(events[0].tick) else last);
    }
  }

  /** A hook call that prints nothing is less than half a point above the last one printed. */
  lemma SilentIsClose(events: seq<Event>, d: Tick)
    requires d.downloading && Kept(events + [Hook(d)], START) == Kept(events, START)
    ensures Percent(d) < LastPercent(events, START) + 0.5
  {
    KeptSnoc(events, START, d);
  }

  lemma {:induction false} KeptSnoc(events: seq<Event>, last: real, d: Tick)
    ensures Kept(events + [Hook(d)], last) ==
            Kept(events, last) + if Passes(LastPercent(events, last), d) then [d] else []
  {
    if events == [] {
      assert [Hook(d)][1..] == [];
    } else {
      assert (events + [Hook(d)])[1..] == events[1..] + [Hook(d)];
      KeptSnoc(events[1..], if events[0].Hook? && Passes(last, events[0].tick) then Percent(events[0].tick) else last, d);
    }
  }

  datatype Input = Blank | Garbage | Request(work: Work)

  function Answers(input: seq<Input>): seq<Line> {
    if input == [] then []
    else
      var n := |input| - 1;
      Answers(input[..n]) + if input[n].Request? then Emitted(input[n].work) else []
  }

  /** What is answered first stays first: the answers to more input come behind those to less. */
  lemma {:induction false} AnswersAppend(a: seq<Input>, b: seq<Input>)
    ensures Answers(a + b) == Answers(a) + Answers(b)
  {
    if b == [] {
      assert a + b == a;
    } else {
      var n := |b| - 1;
      assert (a + b)[..|a + b| - 1] == a + b[..n];
      AnswersAppend(a, b[..n]);
    }
  }

  /** A request is answered with its own lines, blank and malformed input with none. */
  lemma OneAnswer(x: Input)
    ensures Answers([x]) == if x.Request? then Emitted(x.work) else []
  {
    assert [x][..0] == [];
  }

  function Requests(input: seq<Input>): seq<Work> {
    if input == [] then []
    else if input[0].Request? then [input[0].work] + Requests(input[1..])
    else Requests(input[1..])
  }

  function AllEmitted(works: seq<Work>): seq<Line> {
    if works == [] then [] else Emitted(works[0]) + AllEmitted(works[1..])
  }

  lemma {:induction false} AnswersInOrder(input: seq<Input>)
    ensures Answers(input) == AllEmitted(Requests(input))
    decreases |input|
  {
    if input != [] {
      assert input == [input[0]] + input[1..];
      AnswersAppend([input[0]], input[1..]);
      OneAnswer(input[0]);
      AnswersInOrder(input[1..]);
      if input[0].Request? {
        assert ([input[0].work] + Requests(input[1..]))[1..] == Requests(input[1..]);
      }
    }
  }

  /** The driver's loop: the handshake, then one block of lines per request, in order. */
  method Serve(input: seq<Input>) returns (out: seq<Line>)
    ensures out == [Ready] + Answers(input)
    ensures out == [Ready] + AllEmitted(Requests(input))
  {
    out := [Ready];
    for i := 0 to |input|
      invariant out == [Ready] + Answers(input[..i])
    {
      assert input[..i + 1][..i] == input[..i];
      match input[i]
      case Blank =>
      case Garbage =>
      case Request(w) =>
        var lines := RunWork(w);
        out := out + lines;
    }
    assert input[..|input|] == input;
    AnswersInOrder(input);
  }

  method RunWork(w: Work) returns (lines: seq<Line>)
    ensures lines == Emitted(w)
  {
    var printer := new ProgressPrinter(w.id);
    lines := [];
    var last := START;
    for i := 0 to |w.events|
      invariant lines == Printed(w.id, w.events[..i], START) && last == LastPercent(w.events[..i], START)
    {
      assert w.events[..i + 1] == w.events[..i] + [w.events[i]];
      PrintedSnoc(w.id, w.events[..i], START, w.events[i]);
      match w.events[i]
      case Chatter => lines := lines + [Text];
      case Hook(d) =>
        if Passes(last, d) {
          last := Percent(d);
          lines := lines + [Progress(w.id, d)];
        }
    }
    assert w.events[..|w.events|] == w.events;
    lines := lines + [Terminal(w.id, w.outcome)];
  }

  // The pool's side.

  datatype Reply = Answered(outcome: Outcome) | GaveUp | Closed

  datatype Call = Call(relayed: seq<Tick>, reply: Reply, read: nat)

  function Shifted(c: Call, ticks: seq<Tick>): Call {
    Call(ticks + c.relayed, c.reply, c.read + 1)
  }

  /** Reading for one job: at most `patience` lines before the caller gives up. */
  function Reading(lines: seq<Line>, id: Id, patience: nat): Call {
    if patience == 0 then Call([], GaveUp, 0)
    else if lines == [] then Call([], Closed, 0)
    else match lines[0]
      case Terminal(owner, outcome) =>
        if owner == id then Call([], Answered(outcome), 1) else Shifted(Reading(lines[1..], id, patience - 1), [])
      case Progress(owner, tick) =>
        Shifted(Reading(lines[1..], id, patience - 1), if owner == id then [tick] else [])
      case _ => Shifted(Reading(lines[1..], id, patience - 1), [])
  }

  method RunJob(lines: seq<Line>, id: Id, patience: nat) returns (relayed: seq<Tick>, reply: Reply, read: nat)
    ensures Call(relayed, reply, read) == Reading(lines, id, patience)
  {
    relayed, read := [], 0;
    assert lines[0..] == lines;
    while read < patience && read < |lines|
      invariant read <= |lines| && read <= patience
      invariant Continues(lines, id, patience, relayed, read)
    {
      var line := lines[read];
      if line.Terminal? && line.id == id {
        Ends(lines, id, patience, relayed, read);
        return relayed, Answered(line.outcome), read + 1;
      }
      NextLine(lines, id, patience, relayed, read);
      read := read + 1;
      var own := if line.Progress? && line.id == id then [line.tick] else [];
      relayed := relayed + own;
    }
    Ends(lines, id, patience, relayed, read);
    reply := if read == patience then GaveUp else Closed;
  }

  ghost predicate Continues(lines: seq<Line>, id: Id, patience: nat, relayed: seq<Tick>, read: nat) {
    && read <= |lines| && read <= patience
    && var all := Reading(lines, id, patience);
       var rest := Reading(lines[read..], id, patience - read);
       all.relayed == relayed + rest.relayed && all.reply == rest.reply && all.read == read + rest.read
  }

  lemma Ends(lines: seq<Line>, id: Id, patience: nat, relayed: seq<Tick>, read: nat)
    requires Continues(lines, id, patience, relayed, read)
    ensures read == patience ==> Reading(lines, id, patience) == Call(relayed, GaveUp, read)
    ensures read == |lines| && read < patience ==> Reading(lines, id, patience) == Call(relayed, Closed, read)
    ensures read < patience && read < |lines| && lines[read].Terminal? && lines[read].id == id ==>
              Reading(lines, id, patience) == Call(relayed, Answered(lines[read].outcome), read + 1)
  {
  }

  /** One line that does not end the job: relayed if it is the job's own progress, skipped otherwise. */
  lemma NextLine(lines: seq<Line>, id: Id, patience: nat, relayed: seq<Tick>, read: nat)
    requires Continues(lines, id, patience, relayed, read)
    requires read < patience && read < |lines| && !(lines[read].Terminal? && lines[read].id == id)
    ensures Continues(lines, id, patience,
                      relayed + (if lines[read].Progress? && lines[read].id == id then [lines[read].tick] else []), read + 1)
  {
    assert lines[read..][1..] == lines[read + 1..];
    var next := Reading(lines[read + 1..], id, patience - (read + 1));
    var ticks := if lines[read].Progress? && lines[read].id == id then [lines[read].tick] else [];
    assert Reading(lines[read..], id, patience - read) == Shifted(next, ticks);
    assert relayed + (ticks + next.relayed) == (relayed + ticks) + next.relayed;
  }

  /** No line of `lines` carries the tag `id`. */
  ghost predicate Foreign(lines: seq<Line>, id: Id) {
    forall l | l in lines :: !((l.Progress? || l.Terminal?) && l.id == id)
  }

  lemma {:induction false} SkipsForeign(left: seq<Line>, lines: seq<Line>, id: Id, patience: nat)
    requires Foreign(left, id) && |left| <= patience
    ensures var rest := Reading(lines, id, patience - |left|);
      Reading(left + lines, id, patience) == Call(rest.relayed, rest.reply, |left| + rest.read)
  {
    if left == [] {
      assert left + lines == lines;
    } else {
      assert (left + lines)[1..] == left[1..] + lines;
      SkipsForeign(left[1..], lines, id, patience - 1);
    }
  }

  lemma {:induction false} GivesUpEarly(lines: seq<Line>, id: Id, patience: nat)
    requires Foreign(lines, id) && patience <= |lines|
    ensures Reading(lines, id, patience) == Call([], GaveUp, patience)
  {
    if patience > 0 {
      GivesUpEarly(lines[1..], id, patience - 1);
    }
  }

  lemma {:induction false} ReadsOwn(id: Id, events: seq<Event>, last: real, outcome: Outcome, patience: nat)
    ensures var lines := Printed(id, events, last) + [Terminal(id, outcome)];
      var call := Reading(lines, id, patience);
      if patience >= |lines| then call == Call(Kept(events, last), Answered(outcome), |lines|)
      else call.reply == GaveUp && call.read == patience && call.relayed <= Kept(events, last)
  {
    var lines := Printed(id, events, last) + [Terminal(id, outcome)];
    if events != [] && patience > 0 {
      var next := if events[0].Hook? && Passes(last, events[0].tick) then Percent(events[0].tick) else last;
      var rest := Printed(id, events[1..], next) + [Terminal(id, outcome)];
      if lines == rest {
        ReadsOwn(id, events[1..], next, outcome, patience);
      } else {
        assert lines[1..] == rest;
        ReadsOwn(id, events[1..], next, outcome, patience - 1);
      }
    }
  }

  /** One call, with the lines an abandoned predecessor left in the pipe in front of its own. */
  lemma CallIsCorrect(left: seq<Line>, w: Work, patience: nat)
    requires Foreign(left, w.id)
    ensures var lines := left + Emitted(w); var call := Reading(lines, w.id, patience);
      && (if patience >= |lines| then call == Call(Kept(w.events, START), Answered(w.outcome), |lines|)
          else call.reply == GaveUp && call.read == patience && call.relayed <= Kept(w.events, START))
  {
    if patience >= |left| {
      SkipsForeign(left, Emitted(w), w.id, patience);
      ReadsOwn(w.id, w.events, START, w.outcome, patience - |left|);
    } else {
      PrefixOnly(left, Emitted(w), w.id, patience);
      GivesUpEarly(left, w.id, patience);
    }
  }

  /** A caller that gives up within `left` has not seen what follows it. */
  lemma {:induction false} PrefixOnly(left: seq<Line>, lines: seq<Line>, id: Id, patience: nat)
    requires patience <= |left|
    ensures Reading(left + lines, id, patience) == Reading(left, id, patience)
  {
    if patience > 0 {
      assert (left + lines)[1..] == left[1..] + lines;
      PrefixOnly(left[1..], lines, id, patience - 1);
    }
  }

  /** One driver used by one call after the other. Each call sees what is left in the pipe and then the
      driver's lines for its own job; giving up leaves the unread rest. */
  function Session(left: seq<Line>, works: seq<Work>, patience: seq<nat>): seq<Call>
    requires |works| == |patience|
    decreases |works|
  {
    if works == [] then []
    else
      var lines := left + Emitted(works[0]);
      var call := Reading(lines, works[0].id, patience[0]);
      [call] + Session(if call.read <= |lines| then lines[call.read..] else [], works[1..], patience[1..])
  }

  ghost predicate DistinctIds(works: seq<Work>) {
    forall i, k | 0 <= i < k < |works| :: works[i].id != works[k].id
  }

  ghost predicate Correct(w: Work, call: Call) {
    match call.reply
    case Answered(outcome) => outcome == w.outcome && call.relayed == Kept(w.events, START)
    case GaveUp => call.relayed <= Kept(w.events, START)
    case Closed => false
  }

  lemma {:induction false} PrintedTags(id: Id, events: seq<Event>, last: real, other: Id)
    requires other != id
    ensures Foreign(Printed(id, events, last), other)
  {
    if events != [] {
      var next := if events[0].Hook? && Passes(last, events[0].tick) then Percent(events[0].tick) else last;
      PrintedTags(id, events[1..], next, other);
    }
  }

  lemma {:induction false} SessionCorrect(left: seq<Line>, works: seq<Work>, patience: seq<nat>)
    requires |works| == |patience| && DistinctIds(works)
    requires forall i | 0 <= i < |works| :: Foreign(left, works[i].id)
    ensures |Session(left, works, patience)| == |works|
    ensures forall i | 0 <= i < |works| :: Correct(works[i], Session(left, works, patience)[i])
    decreases |works|
  {
    if works != [] {
      var lines := left + Emitted(works[0]);
      var call := Reading(lines, works[0].id, patience[0]);
      CallIsCorrect(left, works[0], patience[0]);
      forall i | 0 <= i < |works[1..]| ensures Foreign(lines[call.read..], works[1..][i].id) {
        PrintedTags(works[0].id, works[0].events, START, works[i + 1].id);
        assert Foreign(lines, works[i + 1].id);
      }
      SessionCorrect(lines[call.read..], works[1..], patience[1..]);
    }
  }

  /** Every call on a driver that finishes returns the terminal line of its own job and has relayed all
      of that job's progress and nothing else; one that gives up has relayed a beginning of it. */
  lemma ResponsesCorrelate(works: seq<Work>, patience: seq<nat>)
    requires |works| == |patience| && DistinctIds(works)
    ensures |Session([], works, patience)| == |works|
    ensures forall i | 0 <= i < |works| :: Correct(works[i], Session([], works, patience)[i])
  {
    SessionCorrect([], works, patience);
  }

  // The pipe is what the driver has printed behind its handshake.

  /** Calls that read one pipe in turn, each from where the one before has stopped. */
  function ReadInTurn(pipe: seq<Line>, ids: seq<Id>, patience: seq<nat>): seq<Call>
    requires |ids| == |patience|
    decreases |ids|
  {
    if ids == [] then []
    else
      var call := Reading(pipe, ids[0], patience[0]);
      [call] + ReadInTurn(if call.read <= |pipe| then pipe[call.read..] else [], ids[1..], patience[1..])
  }

  function IdsOf(works: seq<Work>): seq<Id> {
    seq(|works|, i requires 0 <= i < |works| => works[i].id)
  }

  /** A call stops within what is there for it, whether or not more is printed behind that. */
  lemma {:induction false} ReadsNoFurther(lines: seq<Line>, more: seq<Line>, id: Id, patience: nat)
    requires Reading(lines, id, patience).reply != Closed
    ensures Reading(lines + more, id, patience) == Reading(lines, id, patience)
    ensures Reading(lines, id, patience).read <= |lines|
  {
    if patience > 0 && lines != [] {
      assert (lines + more)[1..] == lines[1..] + more;
      if !(lines[0].Terminal? && lines[0].id == id) {
        ReadsNoFurther(lines[1..], more, id, patience - 1);
      }
    }
  }

  /** The first call on a pipe that already holds everything: as if only its own lines were there. */
  lemma FirstCall(left: seq<Line>, works: seq<Work>, patience: nat)
    requires works != [] && DistinctIds(works) && forall i | 0 <= i < |works| :: Foreign(left, works[i].id)
    ensures var lines := left + Emitted(works[0]); var pipe := left + AllEmitted(works);
      var call := Reading(lines, works[0].id, patience);
      && Reading(pipe, works[0].id, patience) == call && call.read <= |lines| <= |pipe|
      && pipe[call.read..] == lines[call.read..] + AllEmitted(works[1..])
      && forall i | 0 <= i < |works[1..]| :: Foreign(lines[call.read..], works[1..][i].id)
  {
    var lines := left + Emitted(works[0]);
    var call := Reading(lines, works[0].id, patience);
    CallIsCorrect(left, works[0], patience);
    ReadsNoFurther(lines, AllEmitted(works[1..]), works[0].id, patience);
    Regrouped(left, Emitted(works[0]), AllEmitted(works[1..]), call.read);
    forall i | 0 <= i < |works[1..]| ensures Foreign(lines[call.read..], works[1..][i].id) {
      RestIsForeign(left, works[0], works[i + 1].id, call.read);
    }
  }

  lemma Regrouped(a: seq<Line>, b: seq<Line>, c: seq<Line>, k: nat)
    requires k <= |a + b|
    ensures a + (b + c) == (a + b) + c && ((a + b) + c)[k..] == (a + b)[k..] + c
  {
  }

  lemma RestIsForeign(left: seq<Line>, w: Work, other: Id, k: nat)
    requires Foreign(left, other) && other != w.id && k <= |left + Emitted(w)|
    ensures Foreign((left + Emitted(w))[k..], other)
  {
    PrintedTags(w.id, w.events, START, other);
    assert Foreign(left + Emitted(w), other);
  }

  lemma {:induction false} PipeIsSession(left: seq<Line>, works: seq<Work>, patience: seq<nat>)
    requires |works| == |patience| && DistinctIds(works)
    requires forall i | 0 <= i < |works| :: Foreign(left, works[i].id)
    ensures ReadInTurn(left + AllEmitted(works), IdsOf(works), patience) == Session(left, works, patience)
    decreases |works|
  {
    if works != [] {
      FirstCall(left, works, patience[0]);
      var lines := left + Emitted(works[0]);
      var call := Reading(lines, works[0].id, patience[0]);
      assert IdsOf(works)[0] == works[0].id && IdsOf(works)[1..] == IdsOf(works[1..]);
      PipeIsSession(lines[call.read..], works[1..], patience[1..]);
    }
  }

  /** Reading the driver's own output call by call: for requests with distinct ids, and whatever blank and
      malformed input lies between them, each call that finishes gets its own progress and terminal line. */
  lemma ServedInTurn(input: seq<Input>, out: seq<Line>, patience: seq<nat>)
    requires out == [Ready] + Answers(input)
    requires |patience| == |Requests(input)| && DistinctIds(Requests(input))
    ensures var works := Requests(input); var calls := ReadInTurn(out[1..], IdsOf(works), patience);
      |calls| == |works| && forall i | 0 <= i < |works| :: Correct(works[i], calls[i])
  {
    AnswersInOrder(input);
    assert out[1..] == [] + AllEmitted(Requests(input));
    PipeIsSession([], Requests(input), patience);
    ResponsesCorrelate(Requests(input), patience);
  }

  lemma {:induction false} OwnLeftoverMisleads(left: seq<Line>, w: Work, patience: nat)
    requires !Foreign(left, w.id) && patience >= |left| + |Emitted(w)|
    ensures var call := Reading(left + Emitted(w), w.id, patience);
      call.read <= |left| || |call.relayed| > |Kept(w.events, START)|
    decreases |left|
  {
    var rest := left[1..];
    assert (left + Emitted(w))[1..] == rest + Emitted(w);
    if !Foreign(rest, w.id) {
      OwnLeftoverMisleads(rest, w, patience - 1);
    } else {
      CallIsCorrect(rest, w, patience - 1);
    }
  }

  /** A patient call gets exactly its own answer and progress, and reads exactly up to its own terminal
      line, if and only if no line left in the pipe carries its id. */
  lemma PatientCallExactly(left: seq<Line>, w: Work, patience: nat)
    requires patience >= |left| + |Emitted(w)|
    ensures Reading(left + Emitted(w), w.id, patience)
              == Call(Kept(w.events, START), Answered(w.outcome), |left| + |Emitted(w)|)
            <==> Foreign(left, w.id)
  {
    if Foreign(left, w.id) {
      CallIsCorrect(left, w, patience);
    } else {
      OwnLeftoverMisleads(left, w, patience);
    }
  }

  /** With a reused id the second caller takes the answer the first one left behind. */
  lemma ReusedIdCrosses(id: Id, a: Outcome, b: Outcome)
    ensures var calls := Session([], [Work(id, [], a), Work(id, [], b)], [0, 1]);
      |calls| == 2 && calls[1].reply == Answered(a)
  {
    var works := [Work(id, [], a), Work(id, [], b)];
    var left := [Terminal(id, a)];
    assert [] + Emitted(works[0]) == left && left[0..] == left;
    assert Session([], works, [0, 1]) == [Call([], GaveUp, 0)] + Session(left, works[1..], [0, 1][1..]);
    var second := Session(left, works[1..], [0, 1][1..]);
    assert |second| == 1 && second[0] == Reading(left + Emitted(works[1]), id, 1);
  }
}
