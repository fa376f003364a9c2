/** A retry by the user that has read a deferred row and writes after a drain has resumed the job and a
    worker has claimed it: the write asks for no status and ends the claim. */
module LateRetry {
  import opened Prelude
  import opened Pipeline
  import opened Outcomes
  import opened NoLostJob
  import opened DeferredQueue

  const Resume: seq<Label> := [
    Api(AskRetry(0, 0)), Drain(DrainPush("youtube_api", 0, Delivered)), Drain(DrainCommit(0, "youtube_api", 0, true))]

  const Asked0 := WithCall(SetAside, 0, Seen(0, false, false))

  const Resumed := Asked0.(
    jobs := map[0 := Job(Pending, 0, 3, None, 0, None)], downloadQueue := [0], deferred := DeferredSet({ENTRY}, map[0 := ENTRY]))

  const ClaimedByOther := Resumed.(
    jobs := map[0 := Job(Processing, 0, 3, None, 0, None)], downloadQueue := [],
    tasks := map[0 := Ending(0, 1), 1 := Running(0, 0, 3, None)])

  lemma AskRuns()
    ensures Apply(SetAside, Resume[0]) == Asked0
  {
  }

  lemma DrainRuns()
    ensures Apply(Apply(Asked0, Resume[1]), Resume[2]) == Resumed
  {
    assert Apply(Asked0, Resume[1]) == Asked0.(downloadQueue := [0], draining := {0});
    assert {0} - {0} == Asked0.draining;
  }

  lemma ResumeRuns()
    ensures Run(SetAside, Resume) == Resumed
  {
    AskRuns();
    DrainRuns();
    RunCons(SetAside, Resume[0], [Resume[1], Resume[2]]);
    RunTwo(Asked0, Resume[1], Resume[2]);
  }

  lemma OtherClaims()
    ensures Run(Resumed, ClaimAgain) == ClaimedByOther
  {
    RunTwo(Resumed, Queue(Pop(1)), Queue(Claim(1)));
    assert Apply(Resumed, Queue(Pop(1))) == Resumed.(downloadQueue := [], tasks := map[0 := Ending(0, 1), 1 := Popped(0)]);
  }

  lemma WriteEndsClaim()
    ensures var s := Apply(ClaimedByOther, Api(UserRetry(0, 1)));
      Runs(s, 1, 0) && HasStatus(s, 0, Pending) && PendingRow(s, 1, 0)
    ensures OutcomeOf(ClaimedByOther, Api(UserRetry(0, 1)), 0) == Some(Resetting)
  {
  }

  /** Run 1 is live, and its job is announced to the next worker. */
  lemma LateRetryTakesClaim()
    ensures var s := Run(Init, FirstClaim + DeferFirst + Resume + ClaimAgain);
      var s' := Apply(s, Api(UserRetry(0, 1)));
      && Runs(s, 1, 0) && HasStatus(s, 0, Processing)
      && Runs(s', 1, 0) && HasStatus(s', 0, Pending) && PendingRow(s', 1, 0)
      && OutcomeOf(s, Api(UserRetry(0, 1)), 0) == Some(Resetting)
  {
    FirstClaimRuns();
    DeferFirstRuns();
    ResumeRuns();
    OtherClaims();
    RunAppend(Init, FirstClaim, DeferFirst);
    RunAppend(Init, FirstClaim + DeferFirst, Resume);
    RunAppend(Init, FirstClaim + DeferFirst + Resume, ClaimAgain);
    WriteEndsClaim();
  }
}
