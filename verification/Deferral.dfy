/** The two texts in which a deferred job's service is kept: the member of the deferred set and the job's
    error message. */
module Deferral {
  import opened Prelude

  const MARKER := "Circuit breaker open ("

  const DEFAULT_SERVICE := "youtube"

  function Member(service: string, job: string): string {
    service + ":" + job
  }

  /** The text up to the first `c`, or all of it. */
  function Before(s: string, c: char): string {
    if s == "" || s[0] == c then "" else [s[0]] + Before(s[1..], c)
  }

  /** str.partition: what stands before and behind the first separator. */
  function Partition(s: string, c: char): (r: (string, string))
    ensures |r.0| <= |s|
  {
    var before := Before(s, c);
    BeforeFacts(s, c);
    (before, if |before| < |s| then s[|before| + 1..] else "")
  }

  lemma {:induction false} BeforeFacts(s: string, c: char)
    ensures Before(s, c) <= s && c !in Before(s, c)
    ensures |Before(s, c)| < |s| ==> s[|Before(s, c)|] == c
    ensures c in s <==> |Before(s, c)| < |s|
  {
    if s != "" && s[0] != c {
      BeforeFacts(s[1..], c);
    }
  }

  /** Cutting at the first separator undoes joining, exactly when the first part has no separator. */
  lemma PartitionUndoesJoin(a: string, c: char, b: string)
    ensures Partition(a + [c] + b, c) == (a, b) <==> c !in a
  {
    var s := a + [c] + b;
    BeforeFacts(s, c);
    assert s[|a|] == c && c in s;
    var before := Before(s, c);
    assert s == before + [c] + s[|before| + 1..];
    if c !in a {
      SplitAtFirst(before, c, s[|before| + 1..], a, b);
    }
  }

  /** A set member gives back its service and its job, exactly for services without a colon. */
  lemma MemberReadBack(service: string, job: string)
    ensures Partition(Member(service, job), ':') == (service, job) <==> ':' !in service
  {
    PartitionUndoesJoin(service, ':', job);
  }

  function Behind(cooldown: string): string {
    ", deferred until recovery (cooldown: " + cooldown + "s)"
  }

  function ErrorText(service: string, cooldown: string): string {
    MARKER + service + ")" + Behind(cooldown)
  }

  function IndexOf(s: string, word: string, i: nat): (r: Option<nat>)
    requires i <= |s|
    ensures r.Some? ==> i <= r.value && At(s, r.value, word) && forall m | i <= m < r.value :: !At(s, m, word)
    ensures r.None? ==> forall m | i <= m <= |s| :: !At(s, m, word)
    decreases |s| - i
  {
    if At(s, i, word) then Some(i) else if i == |s| then None else IndexOf(s, word, i + 1)
  }

  /** The service as the reconciliation reads it from the job's error text. */
  function ServiceOf(error: Option<string>): string {
    if error.None? || IndexOf(error.value, MARKER, 0).None? then DEFAULT_SERVICE
    else
      var rest := error.value[IndexOf(error.value, MARKER, 0).value + |MARKER|..];
      if ')' in rest then Before(rest, ')') else DEFAULT_SERVICE
  }

  lemma ReadsAfterMarker(rest: string)
    requires ')' in rest
    ensures ServiceOf(Some(MARKER + rest)) == Before(rest, ')')
  {
    var s := MARKER + rest;
    assert s[0..|MARKER|] == MARKER;
    assert At(s, 0, MARKER);
    assert s[|MARKER|..] == rest;
  }

  lemma BeforeUndoesJoin(a: string, c: char, b: string)
    ensures Before(a + [c] + b, c) == a <==> c !in a
  {
    PartitionUndoesJoin(a, c, b);
    BeforeFacts(a + [c] + b, c);
    assert (a + [c] + b)[|a| + 1..] == b;
  }

  lemma Regroup(a: string, b: string, c: string, d: string)
    ensures a + b + c + d == a + (b + c + d)
  {
  }

  lemma ShapeReadBack(service: string, behind: string)
    ensures ServiceOf(Some(MARKER + (service + [')'] + behind))) == service <==> ')' !in service
  {
    assert (service + [')'] + behind)[|service|] == ')';
    ReadsAfterMarker(service + [')'] + behind);
    BeforeUndoesJoin(service, ')', behind);
  }

  /** So does the error text, exactly for services without a closing parenthesis. */
  lemma ErrorTextReadBack(service: string, cooldown: string)
    ensures ServiceOf(Some(ErrorText(service, cooldown))) == service <==> ')' !in service
  {
    Regroup(MARKER, service, ")", Behind(cooldown));
    ShapeReadBack(service, Behind(cooldown));
  }

  /** A member rebuilt from the database is the member the deferral would have written itself. */
  lemma ReconciledMember(service: string, cooldown: string, job: string)
    requires ')' !in service
    ensures Member(ServiceOf(Some(ErrorText(service, cooldown))), job) == Member(service, job)
    ensures ':' !in service ==> Partition(Member(ServiceOf(Some(ErrorText(service, cooldown))), job), ':') == (service, job)
  {
    ErrorTextReadBack(service, cooldown);
    MemberReadBack(service, job);
  }
}
