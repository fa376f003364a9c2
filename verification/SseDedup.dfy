/** The status stream's memory of what it has sent: an ordered dictionary of at most 100 jobs with the
    key of the state sent last, against the unbounded map it stands for. */
module SseDedup {
  import opened Prelude

  type Id = string

  const MAX_SEEN := 100

  datatype Entry = Entry(id: Id, key: string)

  /** Where an update comes from: the first database snapshot, the events buffered meanwhile, or the
      live stream (Pub/Sub or polling). */
  datatype Op =
    | Snapshot(id: Id, stamp: string)
    | Replay(id: Id, stamp: string)
    | Live(id: Id, stamp: string)

  function Key(id: Id, stamp: string): string {
    id + ":" + stamp
  }

  function KeyOf(op: Op): string {
    Key(op.id, op.stamp)
  }

  // The ordered dictionary.

  function Find(es: seq<Entry>, id: Id): (r: Option<string>)
    ensures r.Some? ==> Entry(id, r.value) in es
    ensures r.None? ==> forall e | e in es :: e.id != id
  {
    if es == [] then None else if es[0].id == id then Some(es[0].key) else Find(es[1..], id)
  }

  function Remove(es: seq<Entry>, id: Id): (r: seq<Entry>)
    ensures forall e :: e in r <==> e in es && e.id != id
    ensures |r| <= |es|
  {
    if es == [] then []
    else if es[0].id == id then Remove(es[1..], id)
    else [es[0]] + Remove(es[1..], id)
  }

  /** Assignment to a key: in place when it is there, at the end otherwise. */
  function Put(es: seq<Entry>, id: Id, key: string): (r: seq<Entry>)
    ensures Entry(id, key) in r
    ensures forall e: Entry | e.id != id :: e in r <==> e in es
    ensures |r| <= |es| + 1
  {
    if es == [] then [Entry(id, key)]
    else if es[0].id == id then [Entry(id, key)] + es[1..]
    else [es[0]] + Put(es[1..], id, key)
  }

  function Trim(es: seq<Entry>): seq<Entry> {
    if |es| > MAX_SEEN then es[|es| - MAX_SEEN..] else es
  }

  predicate InValues(es: seq<Entry>, key: string) {
    exists e | e in es :: e.key == key
  }

  datatype Step<T> = Step(state: T, emits: bool)

  function Next(es: seq<Entry>, op: Op): Step<seq<Entry>> {
    match op
    case Snapshot(id, stamp) => Step(Put(es, id, KeyOf(op)), true)
    case Replay(id, stamp) =>
      if id == "" || InValues(es, KeyOf(op)) then Step(es, false) else Step(Trim(Put(es, id, KeyOf(op))), true)
    case Live(id, stamp) =>
      if id == "" || Find(es, id) == Some(KeyOf(op)) then Step(es, false)
      else Step(Trim(Remove(es, id) + [Entry(id, KeyOf(op))]), true)
  }

  /** The dictionary as an object that the stream's generators share. */
  class Seen {
    var entries: seq<Entry>

    constructor ()
      ensures entries == []
    {
      entries := [];
    }

    method TrimOldest()
      modifies this
      ensures entries == Trim(old(entries))
    {
      ghost var before := entries;
      while |entries| > MAX_SEEN
        invariant |entries| <= |before| && entries == before[|before| - |entries|..]
        invariant |entries| >= MAX_SEEN || entries == before
      {
        entries := entries[1..];
      }
    }

    method NoteSnapshot(id: Id, stamp: string)
      modifies this
      ensures entries == Next(old(entries), Snapshot(id, stamp)).state
    {
      entries := Put(entries, id, Key(id, stamp));
    }

    method OfferReplay(id: Id, stamp: string) returns (emit: bool)
      modifies this
      ensures Step(entries, emit) == Next(old(entries), Replay(id, stamp))
    {
      emit := id != "" && !InValues(entries, Key(id, stamp));
      if emit {
        entries := Put(entries, id, Key(id, stamp));
        TrimOldest();
      }
    }

    method OfferLive(id: Id, stamp: string) returns (emit: bool)
      modifies this
      ensures Step(entries, emit) == Next(old(entries), Live(id, stamp))
    {
      emit := id != "" && Find(entries, id) != Some(Key(id, stamp));
      if emit {
        entries := Remove(entries, id) + [Entry(id, Key(id, stamp))];
        TrimOldest();
      }
    }
  }

  // The unbounded reference.

  function NextRef(sent: map<Id, string>, op: Op): Step<map<Id, string>> {
    if op.Snapshot? then Step(sent[op.id := KeyOf(op)], true)
    else if op.id == "" || (op.id in sent && sent[op.id] == KeyOf(op)) then Step(sent, false)
    else Step(sent[op.id := KeyOf(op)], true)
  }

  function Emitted(es: seq<Entry>, ops: seq<Op>): (r: seq<bool>)
    ensures |r| == |ops|
    decreases |ops|
  {
    if ops == [] then [] else [Next(es, ops[0]).emits] + Emitted(Next(es, ops[0]).state, ops[1..])
  }

  function EmittedRef(sent: map<Id, string>, ops: seq<Op>): (r: seq<bool>)
    ensures |r| == |ops|
    decreases |ops|
  {
    if ops == [] then [] else [NextRef(sent, ops[0]).emits] + EmittedRef(NextRef(sent, ops[0]).state, ops[1..])
  }

  // The two agree.

  ghost predicate Unique(es: seq<Entry>) {
    forall i, k | 0 <= i < k < |es| :: es[i].id != es[k].id
  }

  /** No job id contains the separator: they are UUIDs. */
  predicate PlainId(id: Id) {
    ':' !in id
  }

  ghost predicate Keyed(e: Entry) {
    PlainId(e.id) && exists stamp :: e.key == Key(e.id, stamp)
  }

  /** The cache agrees with the full map on every job it holds. */
  ghost predicate Agrees(es: seq<Entry>, sent: map<Id, string>) {
    && Unique(es)
    && (forall e | e in es :: Keyed(e) && e.id in sent && sent[e.id] == e.key)
  }

  lemma KeyDecides(id: Id, stamp: string, id2: Id, stamp2: string)
    requires PlainId(id) && PlainId(id2) && Key(id, stamp) == Key(id2, stamp2)
    ensures id == id2 && stamp == stamp2
  {
    SplitAtFirst(id, ':', stamp, id2, stamp2);
  }

  /** Replay's test by values is the test by key. */
  lemma ValuesTestIsKeyTest(es: seq<Entry>, sent: map<Id, string>, id: Id, stamp: string)
    requires Agrees(es, sent) && PlainId(id)
    ensures InValues(es, Key(id, stamp)) <==> Find(es, id) == Some(Key(id, stamp))
  {
    if InValues(es, Key(id, stamp)) {
      var e :| e in es && e.key == Key(id, stamp);
      assert Keyed(e);
      var s :| e.key == Key(e.id, s);
      KeyDecides(id, stamp, e.id, s);
    }
  }

  /** Without that condition on ids it is not: one job's key can be another's. */
  lemma ColonConfusesReplay()
    ensures exists e: Entry, owner, id, stamp :: e.key == Key(e.id, owner) && InValues([e], Key(id, stamp)) && Find([e], id) == None
  {
    var e := Entry("a:b", "a:b:c");
    assert e.key == Key("a:b", "c") && e.key == Key("a", "b:c");
    assert e in [e];
    assert InValues([e], Key("a", "b:c")) && Find([e], "a") == None;
  }

  lemma {:induction false} PutUnique(es: seq<Entry>, id: Id, key: string)
    requires Unique(es)
    ensures Unique(Put(es, id, key))
    ensures |Put(es, id, key)| == |es| + if Find(es, id).None? then 1 else 0
    ensures forall e | e in Put(es, id, key) :: e.id == id ==> e.key == key
  {
    if es != [] {
      if es[0].id == id {
        forall e | e in es[1..] ensures e.id != id {
        }
      } else {
        PutUnique(es[1..], id, key);
        var rest := Put(es[1..], id, key);
        forall k | 0 <= k < |rest| ensures rest[k].id != es[0].id {
          assert rest[k].id == id || rest[k] in es[1..];
        }
      }
    }
  }

  lemma {:induction false} RemoveUnique(es: seq<Entry>, id: Id)
    requires Unique(es)
    ensures Unique(Remove(es, id))
    ensures |Remove(es, id)| == |es| - if Find(es, id).None? then 0 else 1
  {
    if es != [] {
      RemoveUnique(es[1..], id);
      if es[0].id == id {
        assert Find(es[1..], id).None?;
      } else {
        var rest := Remove(es[1..], id);
        forall k | 0 <= k < |rest| ensures rest[k].id != es[0].id {
          assert rest[k] in es[1..];
        }
      }
    }
  }

  /** The dictionary without the trim: where both versions would go. */
  function Stored(es: seq<Entry>, op: Op): seq<Entry> {
    if op.Live? then Remove(es, op.id) + [Entry(op.id, KeyOf(op))] else Put(es, op.id, KeyOf(op))
  }

  lemma StoredFacts(es: seq<Entry>, sent: map<Id, string>, op: Op)
    requires Agrees(es, sent) && PlainId(op.id)
    ensures Agrees(Stored(es, op), sent[op.id := KeyOf(op)])
    ensures |Stored(es, op)| == |es| + if Find(es, op.id).None? then 1 else 0
    ensures forall id :: Find(Stored(es, op), id).Some? <==> Find(es, id).Some? || id == op.id
  {
    PutUnique(es, op.id, KeyOf(op));
    RemoveUnique(es, op.id);
    var r := Stored(es, op);
    assert Entry(op.id, KeyOf(op)) in r;
    forall e | e in r ensures Keyed(e) && e.id in sent[op.id := KeyOf(op)] && sent[op.id := KeyOf(op)][e.id] == e.key {
      assert e.id != op.id ==> e in es;
      assert e.id == op.id ==> e.key == Key(op.id, op.stamp);
    }
    forall id ensures Find(r, id).Some? <==> Find(es, id).Some? || id == op.id {
      if Find(es, id).Some? && id != op.id {
        assert Entry(id, Find(es, id).value) in r;
      }
      if Find(r, id).Some? && id != op.id {
        assert Entry(id, Find(r, id).value) in es;
      }
    }
  }

  lemma TrimAgrees(es: seq<Entry>, sent: map<Id, string>)
    requires Agrees(es, sent)
    ensures Agrees(Trim(es), sent)
  {
  }

  lemma SameStep(es: seq<Entry>, sent: map<Id, string>, op: Op)
    requires Agrees(es, sent) && PlainId(op.id)
    ensures Next(es, op).state ==
      if !Next(es, op).emits then es else if op.Snapshot? then Stored(es, op) else Trim(Stored(es, op))
    ensures !op.Snapshot? ==> (Next(es, op).emits <==> op.id != "" && Find(es, op.id) != Some(KeyOf(op)))
  {
    if op.Replay? {
      ValuesTestIsKeyTest(es, sent, op.id, op.stamp);
    }
  }

  /** One update: the bounded cache sends it if the full map would, or if it has forgotten the job. */
  lemma StepAgrees(es: seq<Entry>, sent: map<Id, string>, op: Op)
    requires Agrees(es, sent) && PlainId(op.id)
    ensures Agrees(Next(es, op).state, NextRef(sent, op).state)
    ensures NextRef(sent, op).emits ==> Next(es, op).emits
    ensures Next(es, op).emits && !NextRef(sent, op).emits <==>
            !op.Snapshot? && op.id != "" && op.id in sent && sent[op.id] == KeyOf(op) && Find(es, op.id).None?
  {
    SameStep(es, sent, op);
    StoredFacts(es, sent, op);
    TrimAgrees(Stored(es, op), sent[op.id := KeyOf(op)]);
    if Find(es, op.id).Some? {
      assert Entry(op.id, Find(es, op.id).value) in es;
    }
    if NextRef(sent, op).state != sent[op.id := KeyOf(op)] {
      assert Next(es, op).emits ==> sent[op.id := KeyOf(op)] == sent;
    }
  }

  ghost predicate PlainIds(ops: seq<Op>) {
    forall op | op in ops :: PlainId(op.id)
  }

  /** The stream sends at least what unbounded deduplication would, update by update and so in order. */
  lemma {:induction false} SendsAtLeast(es: seq<Entry>, sent: map<Id, string>, ops: seq<Op>)
    requires Agrees(es, sent) && PlainIds(ops)
    ensures forall i | 0 <= i < |ops| :: EmittedRef(sent, ops)[i] ==> Emitted(es, ops)[i]
    decreases |ops|
  {
    if ops != [] {
      StepAgrees(es, sent, ops[0]);
      SendsAtLeast(Next(es, ops[0]).state, NextRef(sent, ops[0]).state, ops[1..]);
    }
  }

  /** The cache has forgotten no job. */
  ghost predicate Holds(es: seq<Entry>, sent: map<Id, string>) {
    Agrees(es, sent) && |es| == |sent| && forall id | id in sent :: Find(es, id).Some?
  }

  lemma MapGrows(sent: map<Id, string>, id: Id, key: string)
    ensures |sent[id := key]| == |sent| + if id in sent then 0 else 1
  {
    assert sent[id := key].Keys == sent.Keys + {id};
    assert |sent| == |sent.Keys| && |sent[id := key]| == |sent[id := key].Keys|;
  }

  lemma StepHolds(es: seq<Entry>, sent: map<Id, string>, op: Op)
    requires Holds(es, sent) && PlainId(op.id)
    requires |NextRef(sent, op).state| <= MAX_SEEN
    ensures Holds(Next(es, op).state, NextRef(sent, op).state)
    ensures Next(es, op).emits == NextRef(sent, op).emits
  {
    SameStep(es, sent, op);
    StoredFacts(es, sent, op);
    StepAgrees(es, sent, op);
    MapGrows(sent, op.id, KeyOf(op));
    if Find(es, op.id).Some? {
      assert Entry(op.id, Find(es, op.id).value) in es;
    }
  }

  ghost function Ids(ops: seq<Op>): set<Id> {
    set op | op in ops :: op.id
  }

  /** It sends exactly that when at most 100 distinct jobs occur. */
  lemma {:induction false} SendsExactly(es: seq<Entry>, sent: map<Id, string>, ops: seq<Op>)
    requires Holds(es, sent) && PlainIds(ops)
    requires |sent.Keys + Ids(ops)| <= MAX_SEEN
    ensures Emitted(es, ops) == EmittedRef(sent, ops)
    decreases |ops|
  {
    if ops != [] {
      var sent' := NextRef(sent, ops[0]).state;
      assert ops[0] in ops && ops[0].id in Ids(ops);
      assert Ids(ops[1..]) <= Ids(ops);
      assert sent'.Keys <= sent.Keys + Ids(ops);
      SubsetSize(sent'.Keys, sent.Keys + Ids(ops));
      SubsetSize(sent'.Keys + Ids(ops[1..]), sent.Keys + Ids(ops));
      assert |sent'| == |sent'.Keys|;
      StepHolds(es, sent, ops[0]);
      SendsExactly(Next(es, ops[0]).state, sent', ops[1..]);
    }
  }

  /** An assignment leaves every job at its place; a job that was not there comes last. */
  lemma {:induction false} PutPlaces(es: seq<Entry>, id: Id, key: string)
    requires Unique(es)
    ensures Find(es, id).None? ==> Put(es, id, key) == es + [Entry(id, key)]
    ensures Find(es, id).Some? ==>
      |Put(es, id, key)| == |es|
      && forall i | 0 <= i < |es| :: Put(es, id, key)[i] == if es[i].id == id then Entry(id, key) else es[i]
  {
    if es != [] {
      if es[0].id == id {
        assert forall i | 0 < i < |es| :: es[i].id != id;
      } else {
        PutPlaces(es[1..], id, key);
        assert es == [es[0]] + es[1..];
      }
    }
  }

  /** Of more than a hundred jobs the first ones go, the oldest. */
  lemma TrimKeepsLast(es: seq<Entry>)
    ensures |es| <= 100 ==> Trim(es) == es
    ensures |es| > 100 ==> |Trim(es)| == 100 && exists oldest :: es == oldest + Trim(es)
  {
    if |es| > 100 {
      assert es == es[..|es| - 100] + Trim(es);
    }
  }

  /** A replayed update that is sent takes its job's place or comes last, and a live one always comes
      last; one that is not sent changes nothing. */
  lemma WhereUpdatesGo(es: seq<Entry>, op: Op)
    requires Unique(es) && op.id != "" && !op.Snapshot?
    ensures var step := Next(es, op); var e := Entry(op.id, KeyOf(op));
      && (!step.emits ==> step.state == es)
      && (step.emits && op.Live? ==> step.state == Trim(Remove(es, op.id) + [e]))
      && (step.emits && op.Replay? && Find(es, op.id).None? ==> step.state == Trim(es + [e]))
      && (step.emits && op.Replay? && Find(es, op.id).Some? && |es| <= 100 ==>
            |step.state| == |es| && forall i | 0 <= i < |es| :: step.state[i] == if es[i].id == op.id then e else es[i])
  {
    PutPlaces(es, op.id, KeyOf(op));
    TrimKeepsLast(Put(es, op.id, KeyOf(op)));
  }

  // Which jobs the cache remembers.

  /** What a stream of live updates has sent, in order. */
  function Sent(es: seq<Entry>, ops: seq<Op>): seq<Entry>
    decreases |ops|
  {
    if ops == [] then []
    else
      var rest := Sent(Next(es, ops[0]).state, ops[1..]);
      if Next(es, ops[0]).emits then [Entry(ops[0].id, KeyOf(ops[0]))] + rest else rest
  }

  function After(es: seq<Entry>, ops: seq<Op>): seq<Entry>
    decreases |ops|
  {
    if ops == [] then es else After(Next(es, ops[0]).state, ops[1..])
  }

  /** Every job's latest entry, ordered by when it was sent; `earlier` was sent before. */
  function Recent(earlier: seq<Entry>, sent: seq<Entry>): seq<Entry>
    decreases |sent|
  {
    if sent == [] then earlier else Recent(Remove(earlier, sent[0].id) + [sent[0]], sent[1..])
  }

  lemma {:induction false} RemoveAppend(a: seq<Entry>, b: seq<Entry>, id: Id)
    ensures Remove(a + b, id) == Remove(a, id) + Remove(b, id)
  {
    if a == [] {
      assert a + b == b;
    } else {
      assert (a + b)[1..] == a[1..] + b;
      RemoveAppend(a[1..], b, id);
    }
  }

  lemma TrimSuffix(a: seq<Entry>, b: seq<Entry>)
    requires |b| >= MAX_SEEN
    ensures Trim(a + b) == Trim(b)
  {
    assert |a| + |b| > MAX_SEEN ==> (a + b)[|a| + |b| - MAX_SEEN..] == b[|b| - MAX_SEEN..];
  }

  /** Trimming before a job is moved to the end loses nothing against trimming afterwards. */
  lemma TrimCommutes(es: seq<Entry>, e: Entry)
    requires Unique(es)
    ensures Trim(Remove(Trim(es), e.id) + [e]) == Trim(Remove(es, e.id) + [e])
  {
    if |es| > MAX_SEEN {
      var n := |es| - MAX_SEEN;
      assert es == es[..n] + es[n..];
      SplitCommutes(es[..n], es[n..], e);
    }
  }

  lemma SplitCommutes(a: seq<Entry>, w: seq<Entry>, e: Entry)
    requires Unique(a + w) && |w| == MAX_SEEN
    ensures Trim(Remove(w, e.id) + [e]) == Trim(Remove(a + w, e.id) + [e])
  {
    RemoveAppend(a, w, e.id);
    var moved := Remove(w, e.id) + [e];
    assert Remove(a + w, e.id) + [e] == Remove(a, e.id) + moved;
    assert Unique(w) by { assert forall k | 0 <= k < |w| :: w[k] == (a + w)[|a| + k]; }
    RemoveUnique(w, e.id);
    TrimSuffix(Remove(a, e.id), moved);
  }

  lemma MovedUnique(es: seq<Entry>, e: Entry)
    requires Unique(es)
    ensures Unique(Remove(es, e.id) + [e])
  {
    RemoveUnique(es, e.id);
    var r := Remove(es, e.id);
    assert forall i | 0 <= i < |r| :: r[i] in r;
  }

  ghost predicate AllLive(ops: seq<Op>) {
    forall op | op in ops :: op.Live?
  }

  /** On the live stream the cache is at all times the 100 jobs sent most recently, oldest first, each
      with the key sent last. */
  lemma {:induction false} KeepsMostRecent(full: seq<Entry>, ops: seq<Op>)
    requires Unique(full) && AllLive(ops)
    ensures After(Trim(full), ops) == Trim(Recent(full, Sent(Trim(full), ops)))
    decreases |ops|
  {
    if ops != [] {
      var es := Trim(full);
      var e := Entry(ops[0].id, KeyOf(ops[0]));
      LiveStep(es, ops[0]);
      if Next(es, ops[0]).emits {
        TrimCommutes(full, e);
        MovedUnique(full, e);
        KeepsMostRecent(Remove(full, e.id) + [e], ops[1..]);
        RecentCons(full, e, Sent(Next(es, ops[0]).state, ops[1..]));
      } else {
        KeepsMostRecent(full, ops[1..]);
      }
    }
  }

  lemma LiveStep(es: seq<Entry>, op: Op)
    requires op.Live?
    ensures Next(es, op).state ==
            if Next(es, op).emits then Trim(Remove(es, op.id) + [Entry(op.id, KeyOf(op))]) else es
  {
  }

  lemma RecentCons(earlier: seq<Entry>, e: Entry, rest: seq<Entry>)
    ensures Recent(earlier, [e] + rest) == Recent(Remove(earlier, e.id) + [e], rest)
  {
    assert ([e] + rest)[1..] == rest;
  }
}
