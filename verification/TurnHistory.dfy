/**
  One voice turn over its whole life.

  A turn is the buffer together with a history nobody reads while the program runs: the
  snapshots given to the judge, the verdicts it reached, the confirmations begun,
  acknowledged and resolved, and the submissions. A run is any sequence of lock-held
  sections, in any order, by any number of connections, with any arguments: timers may fire
  late or repeatedly, verdicts may arrive in any order, clients may send anything.
 */
module TurnHistory {
  import opened Wrappers
  import opened Text
  import opened TurnModels
  import opened BufferSpec
  import opened CoordinatorSpec

  datatype Snapshot = Snapshot(revision: nat, text: string)

  datatype Verdict = Verdict(snapshot: Snapshot, result: JudgeResult)

  /**
    What was shown to the judge, what it said, which verdicts reached the buffer, and which
    final answers a stall timer found unchanged.
   */
  datatype Evidence = Evidence(
    accepted: seq<Snapshot>, verdicts: seq<Verdict>, recorded: set<nat>, stalls: seq<Snapshot>)

  /** A prompt, and the answer it asks about. */
  datatype Prompt = Prompt(id: string, about: Snapshot)

  /** How a confirmation ended: while its response was being spoken, and by which response. */
  datatype Resolution = Resolution(id: string, midSpeech: bool, answer: Option<Intent>)

  datatype Dialogue = Dialogue(
    prompts: seq<Prompt>, acknowledged: set<string>, resolved: seq<Resolution>)

  datatype Status = InFlight | Succeeded | Aborted

  /** A submission and what the dialogue looked like when it began. */
  datatype Submission = Submission(request: CommitRequest, dialogue: Dialogue, status: Status)

  datatype Turn = Turn(
    buf: Buf, evidence: Evidence, dialogue: Dialogue, submissions: seq<Submission>)

  function NewTurn(sessionId: string, questionId: string): Turn {
    Turn(NewBuffer(sessionId, questionId), Evidence([], [], {}, []), Dialogue([], {}, []), [])
  }

  // ----- runs ------------------------------------------------------------------------------

  datatype Action =
    | Connect
    | Hear(acceptEqual: bool, question: string, revision: nat, text: string, info: SnapshotInfo)
    | Speak(question: string, revision: nat, active: bool)
    | Acknowledge(id: string, question: string, revision: nat)
    | RespondSpeech(id: string, question: string, revision: nat, active: bool)
    | Respond(id: string, question: string, revision: nat, responseRevision: nat, intent: IntentDecision)
    | Disconnect
    | Accept
    | Judge(snapshot: nat, decision: Decision, fallbackUsed: bool)
    | Record(verdict: nat)
    | Settle(verdict: nat)
    | Fire(timer: Timer, freshId: string)
    | RollBackCandidate(question: string, revision: nat)
    | RollBackPrompt(id: string)
    | SubmissionFails(question: string, revision: nat)
    | SubmissionSucceeds(question: string, revision: nat)

  /** Confirmation ids are drawn at random; no two prompts of a turn share one. */
  predicate Fresh(d: Dialogue, id: string) {
    !Blank(id) && forall i :: 0 <= i < |d.prompts| ==> d.prompts[i].id != Strip(id)
  }

  function TimerFires(cfg: Config, t: Turn, timer: Timer, freshId: string): Buf {
    match timer
    case CommitGrace(q, r) => GraceFires(t.buf, q, r).buf
    case Stall(q, r) => StallFires(cfg, t.buf, q, r).buf
    case ConfirmationDelay(q, r) =>
      if Fresh(t.dialogue, freshId) then DelayFires(cfg, t.buf, q, r, freshId).buf else t.buf
    case ReadyTimeout(q, r, id) => ReadyTimeoutFires(t.buf, q, r, id)
    case ResponseTimeout(q, r, id) => ResponseTimeoutFires(t.buf, q, r, id).buf
  }

  /** The buffer after an action. Actions the code would refuse leave it alone. */
  function Section(cfg: Config, t: Turn, a: Action): Buf {
    var b := t.buf;
    match a
    case Connect => Prepare(b)
    case Hear(eq, q, r, text, info) => Transcript(cfg, b, eq, q, r, text, info).buf
    case Speak(q, r, active) => Activity(cfg, b, q, r, active).buf
    case Acknowledge(id, q, r) => ResponseReady(b, id, q, r).buf
    case RespondSpeech(id, q, r, active) => ResponseActivity(b, id, q, r, active).buf
    case Respond(id, q, r, rr, intent) => Response(b, id, q, r, rr, intent).buf
    case Disconnect => Close(b)
    case Accept => b
    case Judge(_, _, _) => b
    case Record(k) =>
      if k < |t.evidence.verdicts| then After(b, RecordDecision(b, t.evidence.verdicts[k].result)) else b
    case Settle(k) =>
      if k < |t.evidence.verdicts| && k in t.evidence.recorded
      then HandleResult(cfg, b, t.evidence.verdicts[k].result).buf else b
    case Fire(timer, id) => TimerFires(cfg, t, timer, id)
    case RollBackCandidate(q, r) => RollbackCandidate(b, q, r)
    case RollBackPrompt(id) => RollbackPrompt(b, id)
    case SubmissionFails(q, r) => SubmissionFailed(b, q, r)
    case SubmissionSucceeds(q, r) => SubmissionDone(b, q, r)
  }

  /** The answer the buffer holds. */
  function Held(b: Buf): Snapshot {
    Snapshot(b.revision, b.answerText)
  }

  /** A stall timer finds the very answer it was started for, still listened to and final. */
  predicate StallsOut(b: Buf, timer: Timer) {
    && b.state == Listening && b.segmentFinal && !Blank(b.answerText)
    && timer.question == b.questionId && timer.revision == b.revision
  }

  function Testify(b: Buf, e: Evidence, a: Action): Evidence {
    match a
    case Accept =>
      if b.state == Listening then e.(accepted := e.accepted + [Held(b)]) else e
    case Judge(i, d, f) =>
      if i < |e.accepted| && ValidResult(JudgeResult(b.questionId, e.accepted[i].revision, d, f))
      then e.(verdicts := e.verdicts
                + [Verdict(e.accepted[i], JudgeResult(b.questionId, e.accepted[i].revision, d, f))])
      else e
    case Record(k) =>
      if k < |e.verdicts| && RecordDecision(b, e.verdicts[k].result).Returned?
         && RecordDecision(b, e.verdicts[k].result).value
      then e.(recorded := e.recorded + {k}) else e
    case Fire(timer, _) =>
      if timer.Stall? && StallsOut(b, timer) then e.(stalls := e.stalls + [Held(b)]) else e
    case _ => e
  }

  /** The response an action applies, if it applies one. */
  function Answer(b: Buf, a: Action): Option<Intent> {
    if a.Respond? && Response(b, a.id, a.question, a.revision, a.responseRevision, a.intent).error.None?
    then Some(a.intent.intent) else None
  }

  /** What a change of the confirmation, with the response applied, adds to the dialogue. */
  function Discuss(d: Dialogue, b: Buf, b': Buf, answer: Option<Intent>): Dialogue {
    Dialogue(
      if b'.confirmationCount > b.confirmationCount && b'.confirmationId.Some?
      then d.prompts + [Prompt(b'.confirmationId.value, Held(b'))] else d.prompts,
      if b'.state == ConfirmingEnd && b'.confirmationId.Some?
      then d.acknowledged + {b'.confirmationId.value} else d.acknowledged,
      if b.confirmationId.Some? && b'.confirmationId != b.confirmationId
      then d.resolved + [Resolution(b.confirmationId.value, b.responseSpeechActive, answer)] else d.resolved)
  }

  function SetLast(s: seq<Submission>, status: Status): seq<Submission> {
    if s == [] then s else s[..|s| - 1] + [s[|s| - 1].(status := status)]
  }

  /** Submissions are what enters and leaves `Committing`. */
  function Submit(s: seq<Submission>, d: Dialogue, b: Buf, b': Buf): seq<Submission> {
    if b'.state == Committing && b.state != Committing && b'.completionReason.Some?
    then s + [Submission(RequestOf(b'), d, InFlight)]
    else if b.state == Committing && b'.state == Committed then SetLast(s, Succeeded)
    else if b.state == Committing && b'.state != Committing then SetLast(s, Aborted)
    else s
  }

  function Apply(cfg: Config, t: Turn, a: Action): Turn {
    var b' := Section(cfg, t, a);
    Turn(b', Testify(t.buf, t.evidence, a), Discuss(t.dialogue, t.buf, b', Answer(t.buf, a)),
         Submit(t.submissions, t.dialogue, t.buf, b'))
  }

  function Run(cfg: Config, t: Turn, actions: seq<Action>): Turn
    decreases |actions|
  {
    if actions == [] then t
    else Apply(cfg, Run(cfg, t, actions[..|actions| - 1]), actions[|actions| - 1])
  }

  // ----- the invariant ---------------------------------------------------------------------

  /** The decision calls the answer finished, certainly enough. */
  predicate CallsFinished(cfg: Config, d: Decision) {
    && d.semanticState == Complete && d.action == AutoSubmit
    && d.confidence >= cfg.autoSubmitConfidence
    && d.reasonCode != InsufficientContext
  }

  /** The judge itself called the answer finished, in a verdict that is not a fallback. */
  predicate Endorses(cfg: Config, v: Verdict, reason: CompletionReason) {
    && !v.result.fallbackUsed && CallsFinished(cfg, v.result.decision)
    && reason == if v.result.decision.explicitCompletion then ExplicitFinish else SemanticComplete
  }

  /** Some verdict endorses submitting, for this reason, a text with these words. */
  predicate Endorsed(cfg: Config, e: Evidence, reason: CompletionReason, words: string) {
    exists k :: 0 <= k < |e.verdicts|
             && Endorses(cfg, e.verdicts[k], reason) && Collapse(e.verdicts[k].snapshot.text) == words
  }

  /** The decision wants the candidate asked, certainly enough, about an answer that closes and suffices. */
  predicate WantsAsking(cfg: Config, d: Decision) {
    && d.semanticState == Ambiguous && d.action == AskConfirmation
    && d.linguisticallyClosed && d.questionSatisfied
    && d.confidence >= cfg.confirmationConfidence
    && d.reasonCode != InsufficientContext
  }

  /** The judge itself suggested asking, in a verdict that is not a fallback. */
  predicate Suggests(cfg: Config, v: Verdict) {
    !v.result.fallbackUsed && WantsAsking(cfg, v.result.decision)
  }

  /** A verdict on this very answer suggests asking. */
  predicate Suggested(cfg: Config, e: Evidence, s: Snapshot) {
    exists k :: 0 <= k < |e.verdicts| && Suggests(cfg, e.verdicts[k]) && e.verdicts[k].snapshot == s
  }

  predicate JudgedHere(e: Evidence, d: Decision, s: Snapshot) {
    exists k :: 0 <= k < |e.verdicts| && e.verdicts[k].result.decision == d && e.verdicts[k].snapshot == s
  }

  predicate JudgedAs(e: Evidence, d: Decision, words: string) {
    exists k :: 0 <= k < |e.verdicts|
             && e.verdicts[k].result.decision == d && Collapse(e.verdicts[k].snapshot.text) == words
  }

  predicate Current(s: Snapshot, b: Buf) {
    s.revision <= b.revision && (s.revision == b.revision ==> s.text == b.answerText)
  }

  predicate EvidenceSound(b: Buf, e: Evidence) {
    && (forall i :: 0 <= i < |e.accepted| ==> Current(e.accepted[i], b))
    && (forall k :: 0 <= k < |e.verdicts| ==>
          && Current(e.verdicts[k].snapshot, b)
          && e.verdicts[k].result.revision == e.verdicts[k].snapshot.revision
          && e.verdicts[k].result.questionId == b.questionId
          && ValidResult(e.verdicts[k].result))
  }

  /** A decision to ask is about this very answer; others may be about the same words. */
  predicate Backed(b: Buf, e: Evidence, d: Decision) {
    if d.action == AskConfirmation then JudgedHere(e, d, Held(b)) || (d == STALL_DECISION && Held(b) in e.stalls)
    else JudgedAs(e, d, Collapse(b.answerText))
  }

  /** The buffer's decision comes from the judge, or from a stall; a judged candidate is endorsed. */
  predicate Grounded(cfg: Config, b: Buf, e: Evidence) {
    && (b.decision.Some? ==> Backed(b, e, b.decision.value))
    && (b.completionReason == Some(SemanticComplete) || b.completionReason == Some(ExplicitFinish) ==>
          Endorsed(cfg, e, b.completionReason.value, Collapse(b.answerText)))
  }

  predicate NoRepeats(s: seq<Resolution>) {
    forall i, j :: 0 <= i < j < |s| ==> s[i].id != s[j].id
  }

  predicate Begun(d: Dialogue, id: string) {
    exists i :: 0 <= i < |d.prompts| && d.prompts[i].id == id
  }

  predicate DialogueSound(cfg: Config, b: Buf, d: Dialogue) {
    && |d.prompts| == b.confirmationCount <= cfg.maxConfirmations
    && (forall i, j :: 0 <= i < j < |d.prompts| ==> d.prompts[i].id != d.prompts[j].id)
    && NoRepeats(d.resolved)
    && (forall i :: 0 <= i < |d.resolved| ==>
          Begun(d, d.resolved[i].id) && b.confirmationId != Some(d.resolved[i].id))
    && (b.confirmationId.Some? ==>
          d.prompts != [] && d.prompts[|d.prompts| - 1] == Prompt(b.confirmationId.value, Held(b)))
    && (b.state == ConfirmingEnd && b.confirmationId.Some? ==> b.confirmationId.value in d.acknowledged)
    && (b.state == ConfirmationPending ==> b.confirmationCount < cfg.maxConfirmations)
    && (ConfirmationState(b.state) ==> !Blank(b.answerText))
  }

  /**
    The dialogue ends with a prompt for this revision: the client was ready to hear the
    response, and the prompt has ended, with this response or without any.
   */
  predicate EndsWith(d: Dialogue, revision: nat, answer: Option<Intent>) {
    && d.prompts != [] && d.resolved != []
    && var prompt, end := d.prompts[|d.prompts| - 1], d.resolved[|d.resolved| - 1];
    && prompt.about.revision == revision && prompt.id in d.acknowledged
    && end.id == prompt.id && end.answer == answer
  }

  /** The last prompt got no answer, and none was being spoken when it ended. */
  predicate Unanswered(d: Dialogue, revision: nat) {
    EndsWith(d, revision, None) && !d.resolved[|d.resolved| - 1].midSpeech
  }

  /** The last prompt was answered with "finished". */
  predicate Confirmed(d: Dialogue, revision: nat) {
    EndsWith(d, revision, Some(Finish))
  }

  /** A listening cutoff is fair when no prompt is left, or the one for this text got no answer. */
  predicate FairCutoff(cfg: Config, d: Dialogue, revision: nat) {
    |d.prompts| >= cfg.maxConfirmations || Unanswered(d, revision)
  }

  /** Every prompt was suggested by the judge, or begun by a stall. */
  predicate PromptsGrounded(cfg: Config, e: Evidence, prompts: seq<Prompt>) {
    forall i :: 0 <= i < |prompts| ==>
      Suggested(cfg, e, prompts[i].about) || prompts[i].about in e.stalls
  }

  predicate CandidateSound(cfg: Config, b: Buf, d: Dialogue) {
    && (b.completionReason == Some(ListeningCutoff) ==> FairCutoff(cfg, d, b.revision))
    && (b.completionReason == Some(UserConfirmed) ==> Confirmed(d, b.revision))
  }

  /** What a submission's own record promises, for good. */
  predicate Justified(cfg: Config, e: Evidence, s: Submission) {
    && (s.request.reason == SemanticComplete || s.request.reason == ExplicitFinish ==>
          Endorsed(cfg, e, s.request.reason, Collapse(s.request.answerText)))
    && (s.request.reason == ListeningCutoff ==> FairCutoff(cfg, s.dialogue, s.request.revision))
    && (s.request.reason == UserConfirmed ==> Confirmed(s.dialogue, s.request.revision))
    && !Blank(s.request.answerText)
  }

  /** Submissions of one revision carry one text, the stripped answer of that revision. */
  predicate TextsAgree(b: Buf, s: seq<Submission>) {
    && (forall i :: 0 <= i < |s| ==>
          && s[i].request.sessionId == b.sessionId && s[i].request.questionId == b.questionId
          && s[i].request.revision <= b.revision
          && (s[i].request.revision == b.revision ==> s[i].request.answerText == Strip(b.answerText)))
    && (forall i, j :: 0 <= i < j < |s| && s[i].request.revision == s[j].request.revision ==>
          s[i].request.answerText == s[j].request.answerText)
  }

  predicate SubmissionsSound(cfg: Config, b: Buf, e: Evidence, s: seq<Submission>) {
    && (forall i :: 0 <= i < |s| ==> Justified(cfg, e, s[i]))
    && (forall i :: 0 <= i < |s| - 1 ==> s[i].status == Aborted)
    && (b.state == Committing ==>
          s != [] && s[|s| - 1].status == InFlight
          && b.completionReason.Some? && s[|s| - 1].request == RequestOf(b))
    && (b.state == Committed ==> s != [] && s[|s| - 1].status == Succeeded)
    && (b.state != Committing && b.state != Committed ==> s == [] || s[|s| - 1].status == Aborted)
  }

  predicate TurnSound(cfg: Config, t: Turn) {
    && Sound(t.buf)
    && EvidenceSound(t.buf, t.evidence)
    && Grounded(cfg, t.buf, t.evidence)
    && DialogueSound(cfg, t.buf, t.dialogue)
    && PromptsGrounded(cfg, t.evidence, t.dialogue.prompts)
    && CandidateSound(cfg, t.buf, t.dialogue)
    && SubmissionsSound(cfg, t.buf, t.evidence, t.submissions)
    && TextsAgree(t.buf, t.submissions)
  }
}
