/** A run of two outbox writers and the relay after which a status has moved and no row is there. */
module OutboxRace {
  import opened OutboxWriter

  const Overtaken: seq<Step> :=
    [Start(0, 5, false), Insert(0, 0), Commit(0), Start(1, 5, true), Select(1), Close(0)]

  const RowSeen := State(
    map[0 := Row(5, true, 0, true)], map[0 := Writer(5, false, Committed), 1 := Writer(5, true, Relies(0))], multiset{5})

  lemma FirstWriterCommits()
    ensures Run(Init, Overtaken[..3]) ==
      State(map[0 := Row(5, true, 0, true)], map[0 := Writer(5, false, Committed)], multiset{5})
  {
    var s1 := State(map[], map[0 := Writer(5, false, Started)], multiset{});
    var s2 := State(map[0 := Row(5, true, 0, false)], map[0 := Writer(5, false, Inserted(0))], multiset{});
    assert Run(Init, Overtaken[..1]) == s1 by { RunLast(Init, Overtaken[..1]); }
    assert Run(Init, Overtaken[..2]) == s2 by { RunLast(Init, Overtaken[..2]); assert Overtaken[..2][..1] == Overtaken[..1]; }
    RunLast(Init, Overtaken[..3]);
    assert Overtaken[..3][..2] == Overtaken[..2];
  }

  lemma SecondWriterRelies()
    ensures Run(Init, Overtaken[..5]) == RowSeen
  {
    FirstWriterCommits();
    RunLast(Init, Overtaken[..4]);
    assert Overtaken[..4][..3] == Overtaken[..3];
    RunLast(Init, Overtaken[..5]);
    assert Overtaken[..5][..4] == Overtaken[..4];
    assert Visible(Run(Init, Overtaken[..4]), 0, 5);
  }

  /** Status without a row: the relay closes the row between a writer's look and its commit. */
  lemma ClosedRowLeavesNone()
    ensures var s := Run(Init, Overtaken);
      CanCommit(s, 1) && Committing(s, 1).moved[5] == 2 && !SomeVisible(Committing(s, 1), 5)
  {
    SecondWriterRelies();
    RunLast(Init, Overtaken);
    assert Overtaken[..|Overtaken| - 1] == Overtaken[..5];
  }
}
