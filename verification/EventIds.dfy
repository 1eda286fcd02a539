/** The idempotency id of a submission, as it is printed, and what can be told from it. */
module EventIds {
  import opened Wrappers
  import opened Decimals
  import opened BufferSpec
  import opened CoordinatorSpec

  function ReasonName(reason: CompletionReason): string {
    match reason
    case SemanticComplete => "semantic_complete"
    case ExplicitFinish => "explicit_finish"
    case UserConfirmed => "user_confirmed"
    case ListeningCutoff => "listening_cutoff"
  }

  function EventId(r: CommitRequest): string {
    Tagged(Tagged(Tagged("voice:" + r.sessionId, r.questionId), Decimal(r.revision)), ReasonName(r.reason))
  }

  function Tagged(s: string, tag: string): string {
    s + ":" + tag
  }

  lemma LastTag(a: string, s: string, b: string, t: string)
    requires ':' !in s && ':' !in t && Tagged(a, s) == Tagged(b, t)
    ensures a == b && s == t
  {
    var x, y := Tagged(a, s), Tagged(b, t);
    assert x[|a|] == ':' && y[|b|] == ':';
    assert forall i :: |a| < i < |x| ==> x[i] == s[i - |a| - 1];
    assert forall i :: |b| < i < |y| ==> y[i] == t[i - |b| - 1];
    assert x[..|a|] == a && y[..|b|] == b;
    assert x[|a| + 1..] == s && y[|b| + 1..] == t;
  }

  lemma NamesHaveNoColon(reason: CompletionReason, n: nat)
    ensures ':' !in ReasonName(reason) && ':' !in Decimal(n)
  {
  }

  lemma NamesDiffer(a: CompletionReason, b: CompletionReason)
    requires ReasonName(a) == ReasonName(b)
    ensures a == b
  {
    assert |ReasonName(SemanticComplete)| == 17 && |ReasonName(ExplicitFinish)| == 15;
    assert |ReasonName(UserConfirmed)| == 14 && |ReasonName(ListeningCutoff)| == 16;
  }

  lemma SameRest(session: string, a: string, b: string)
    requires Tagged("voice:" + session, a) == Tagged("voice:" + session, b)
    ensures a == b
  {
    var s := "voice:" + session + ":";
    assert (s + a)[|s|..] == a && (s + b)[|s|..] == b;
  }

  /** Within a session, an id tells the question, the revision and the reason, whatever the ids are. */
  lemma EventIdsTell(r: CommitRequest, r': CommitRequest)
    requires r.sessionId == r'.sessionId
    ensures EventId(r) == EventId(r')
      <==> r.questionId == r'.questionId && r.revision == r'.revision && r.reason == r'.reason
  {
    if EventId(r) == EventId(r') {
      hide Tagged, Decimal, ReasonName;
      var q, q' := Tagged("voice:" + r.sessionId, r.questionId), Tagged("voice:" + r.sessionId, r'.questionId);
      NamesHaveNoColon(r.reason, r.revision);
      NamesHaveNoColon(r'.reason, r'.revision);
      LastTag(Tagged(q, Decimal(r.revision)), ReasonName(r.reason),
              Tagged(q', Decimal(r'.revision)), ReasonName(r'.reason));
      LastTag(q, Decimal(r.revision), q', Decimal(r'.revision));
      NamesDiffer(r.reason, r'.reason);
      DecimalsDiffer(r.revision, r'.revision);
      SameRest(r.sessionId, r.questionId, r'.questionId);
    }
  }

  /** Across sessions it does not: a colon may belong to the session or to the question. */
  lemma SessionsMayShareIds(reason: CompletionReason, revision: nat)
    ensures var r := CommitRequest("a:b", "c", revision, "x", reason, None);
            EventId(r) == EventId(r.(sessionId := "a", questionId := "b:c"))
  {
    assert "voice:" + "a:b" + ":" + "c" == "voice:" + "a" + ":" + "b:c";
  }
}
