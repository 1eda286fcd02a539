/**
  The lock-held sections of the voice turn coordinator as functions on the buffer.

  A section reads and writes the buffer in one go; everything a coordinator does between two
  sections (sleeping, asking the language model, reading the interview state, sending a
  message) lets other sections run in between. A section yields the new buffer, the policy it
  settled on if any, and the error it reports if any.
 */
module CoordinatorSpec {
  import opened Wrappers
  import opened Text
  import opened TurnModels
  import opened BufferSpec

  datatype Config = Config(
    confirmationConfidence: real, autoSubmitConfidence: real, maxConfirmations: nat)

  /** What the coordinator's constructor insists on. */
  predicate ValidConfig(cfg: Config) {
    && 0.0 <= cfg.confirmationConfidence <= 1.0
    && 0.0 <= cfg.autoSubmitConfidence <= 1.0
    && cfg.maxConfirmations > 0
  }

  /** A timer that has been started. Cancelling one is a request: it may still fire. */
  datatype Timer =
    | CommitGrace(question: string, revision: nat)
    | Stall(question: string, revision: nat)
    | ConfirmationDelay(question: string, revision: nat)
    | ReadyTimeout(question: string, revision: nat, id: string)
    | ResponseTimeout(question: string, revision: nat, id: string)

  datatype CoordinatorError =
    | WorkerNotAvailable
    | SessionUnavailable
    | QuestionChanged
    | StaleRevision
    | SnapshotConflict
    | StaleConfirmation
    | InvalidMessage
    | FromBuffer(error: TurnError)

  datatype ListeningReason =
    | JudgeFailed
    | Judged(code: ReasonCode)
    | AutoSubmitNotAvailable
    | ConfirmationNotAvailable

  datatype Policy =
    | Defer
    | KeepOn(why: ListeningReason)
    | ScheduleConfirmation
    | ScheduleCommit(reason: CompletionReason)

  datatype Outcome = Outcome(buf: Buf, policy: Option<Policy>, error: Option<CoordinatorError>)

  function Untouched(b: Buf): Outcome { Outcome(b, None, None) }

  function Failed(b: Buf, e: CoordinatorError): Outcome { Outcome(b, None, Some(e)) }

  // ----- decision policy -------------------------------------------------------------------

  predicate CanAutoSubmit(cfg: Config, b: Buf, d: Decision) {
    && !Blank(b.answerText) && !b.speechActive && b.segmentFinal
    && d.semanticState == Complete && d.action == AutoSubmit
    && d.confidence >= cfg.autoSubmitConfidence
    && d.reasonCode != InsufficientContext
  }

  predicate CanConfirm(cfg: Config, b: Buf, d: Decision) {
    && !Blank(b.answerText) && !b.speechActive && b.segmentFinal
    && d.semanticState == Ambiguous && d.action == AskConfirmation
    && d.linguisticallyClosed && d.questionSatisfied
    && d.confidence >= cfg.confirmationConfidence
    && d.reasonCode != InsufficientContext
    && b.confirmationCount < cfg.maxConfirmations
  }

  function SubmitReason(d: Decision): CompletionReason {
    if d.explicitCompletion then ExplicitFinish else SemanticComplete
  }

  function ApplyPolicy(cfg: Config, b: Buf, d: Decision, revision: nat, fallback: bool): Reply<Policy> {
    if d.action == KeepListening then
      Returned(KeepOn(if fallback then JudgeFailed else Judged(d.reasonCode)), b)
    else if b.speechActive then
      Returned(Defer, b)
    else if d.action == AutoSubmit then
      if !CanAutoSubmit(cfg, b, d) then Returned(KeepOn(AutoSubmitNotAvailable), b)
      else
        match MarkCandidate(b, revision, SubmitReason(d))
        case Returned(_, b') => Returned(ScheduleCommit(SubmitReason(d)), b')
        case Raised(e) => Raised(e)
    else if CanConfirm(cfg, b, d) then
      match MarkPending(b, revision, cfg.maxConfirmations)
      case Returned(true, b') => Returned(ScheduleConfirmation, b')
      case Returned(false, b') => Returned(KeepOn(ConfirmationNotAvailable), b')
      case Raised(e) => Raised(e)
    else
      Returned(KeepOn(ConfirmationNotAvailable), b)
  }

  function Decide(cfg: Config, b: Buf, d: Decision, revision: nat, fallback: bool): Outcome {
    match ApplyPolicy(cfg, b, d, revision, fallback)
    case Returned(p, b') => Outcome(b', Some(p), None)
    case Raised(e) => Failed(b, FromBuffer(e))
  }

  // ----- client events ---------------------------------------------------------------------

  function Prepare(b: Buf): Buf {
    var b1 := if ConfirmationState(b.state) then Listen(b) else b;
    if b1.state == CompleteCandidate
       || (b1.state == Listening && (b1.decision.Some? || b1.completionReason.Some?))
    then Listen(b1) else b1
  }

  predicate ExpectsSnapshot(b: Buf) {
    b.state == Listening && (b.revision > 0 || b.answerText != "")
  }

  /** A final transcript with the same words as the text that a live auto-submit judged. */
  predicate RepeatsJudgedAnswer(b: Buf, text: string, info: SnapshotInfo) {
    && b.state == CompleteCandidate
    && b.decision.Some? && b.decisionRevision == Some(b.revision)
    && Collapse(b.answerText) == Collapse(text)
    && !info.speechActive && info.segmentFinal
    && b.decision.value.action == AutoSubmit
  }

  function CarryDecision(cfg: Config, b: Buf, d: Decision): Outcome {
    match RecordDecision(b, JudgeResult(b.questionId, b.revision, d, false))
    case Returned(_, b') => Decide(cfg, b', d, b.revision, false)
    case Raised(e) => Failed(b, FromBuffer(e))
  }

  function Transcript(
    cfg: Config, b: Buf, acceptEqual: bool,
    question: string, revision: nat, text: string, info: SnapshotInfo): Outcome
  {
    if acceptEqual && revision == b.revision then
      match SynchronizeReconnect(b, question, revision, text, info)
      case Returned(_, b') => Untouched(b')
      case Raised(RevisionConflict) => Failed(b, SnapshotConflict)
      case Raised(e) => Failed(b, FromBuffer(e))
    else
      match UpdateTranscript(b, question, revision, text, info)
      case Raised(e) => Failed(b, FromBuffer(e))
      case Returned(false, _) => Failed(b, StaleRevision)
      case Returned(true, b') =>
        if RepeatsJudgedAnswer(b, text, info)
        then CarryDecision(cfg, b', b.decision.value)
        else Untouched(b')
  }

  function Activity(cfg: Config, b: Buf, question: string, revision: nat, speechActive: bool): Outcome {
    match UpdateSpeech(b, question, revision, speechActive)
    case Raised(e) => Failed(b, FromBuffer(e))
    case Returned(false, _) => Failed(b, StaleRevision)
    case Returned(true, b') =>
      if b.speechActive && !speechActive && b'.state == Listening && b'.segmentFinal
         && b'.decisionRevision == Some(revision) && b'.decision.Some?
         && b'.decision.value.action in {AutoSubmit, AskConfirmation}
      then Decide(cfg, b', b'.decision.value, revision, false)
      else Untouched(b')
  }

  predicate Answers(b: Buf, id: string, question: string, revision: nat) {
    && b.questionId == question && b.revision == revision
    && b.confirmationId == Some(id) && b.confirmationRevision == Some(revision)
  }

  function ResponseReady(b: Buf, id: string, question: string, revision: nat): Outcome {
    if b.state !in {ConfirmationPrompting, ConfirmingEnd} || !Answers(b, id, question, revision)
    then Failed(b, StaleConfirmation)
    else
      match MarkReady(b, question, id, revision)
      case Returned(_, b') => Untouched(b')
      case Raised(e) => Failed(b, FromBuffer(e))
  }

  function ResponseActivity(
    b: Buf, id: string, question: string, revision: nat, speechActive: bool): Outcome
  {
    if b.state != ConfirmingEnd || !Answers(b, id, question, revision)
    then Failed(b, StaleConfirmation)
    else
      match UpdateResponseSpeech(b, question, id, revision, speechActive)
      case Returned(_, b') => Untouched(b')
      case Raised(e) => Failed(b, FromBuffer(e))
  }

  /** The first of the two sections of a confirmation response; it only looks. */
  predicate ResponseExpected(b: Buf, id: string, question: string, revision: nat) {
    b.state == ConfirmingEnd && Answers(b, id, question, revision)
  }

  /** The second section, after the response has been classified without the lock. */
  function Response(
    b: Buf, id: string, question: string, revision: nat,
    responseRevision: nat, d: IntentDecision): Outcome
  {
    if !ResponseExpected(b, id, question, revision)
    then Failed(b, StaleConfirmation)
    else
      var newRevision := if d.intent == AnswerContent then Some(responseRevision) else None;
      match ApplyIntent(b, question, id, revision, d, newRevision)
      case Returned(_, b') => Untouched(b')
      case Raised(e) => Failed(b, FromBuffer(e))
  }

  function Close(b: Buf): Buf {
    if ConfirmationState(b.state) then Listen(b) else b
  }

  // ----- judgements ------------------------------------------------------------------------

  predicate AwaitsPolicy(b: Buf, r: JudgeResult) {
    && b.state == Listening
    && b.questionId == r.questionId && b.revision == r.revision
    && b.decisionRevision == Some(r.revision)
  }

  /** The worker's callback, after the worker recorded the result in a section of its own. */
  function HandleResult(cfg: Config, b: Buf, r: JudgeResult): Outcome {
    if !AwaitsPolicy(b, r) then Untouched(b)
    else Decide(cfg, b, r.decision, r.revision, r.fallbackUsed)
  }

  // ----- timers ----------------------------------------------------------------------------

  /** The decision a stalled answer is given when confirmations are left. */
  const STALL_DECISION :=
    Decision(Ambiguous, true, true, Medium, false, AskConfirmation, 1.0, Hesitation)

  predicate Stalled(b: Buf, question: string, revision: nat) {
    && b.questionId == question && b.revision == revision
    && b.state == Listening && b.segmentFinal && !Blank(b.answerText)
  }

  function StallFires(cfg: Config, b: Buf, question: string, revision: nat): Outcome {
    if !Stalled(b, question, revision) then Untouched(b)
    else
      var quiet := if b.speechActive then b.(speechActive := false) else b;
      if quiet.decision.Some? && quiet.decisionRevision == Some(revision)
         && CanAutoSubmit(cfg, quiet, quiet.decision.value)
      then Decide(cfg, quiet, quiet.decision.value, revision, false)
      else if quiet.confirmationCount < cfg.maxConfirmations then
        match RecordDecision(quiet, JudgeResult(question, revision, STALL_DECISION, false))
        case Returned(true, b') => Decide(cfg, b', STALL_DECISION, revision, false)
        case Returned(false, b') => Untouched(b')
        case Raised(e) => Failed(quiet, FromBuffer(e))
      else
        match MarkCutoff(quiet, question, revision)
        case Returned(_, b') => Outcome(b', Some(ScheduleCommit(ListeningCutoff)), None)
        case Raised(e) => Failed(quiet, FromBuffer(e))
  }

  predicate ReadyToPrompt(cfg: Config, b: Buf, question: string, revision: nat) {
    && b.state == ConfirmationPending
    && b.questionId == question && b.revision == revision
    && b.decision.Some? && b.decisionRevision == Some(revision)
    && CanConfirm(cfg, b, b.decision.value)
  }

  function DelayFires(cfg: Config, b: Buf, question: string, revision: nat, id: string): Outcome {
    if !ReadyToPrompt(cfg, b, question, revision) then Untouched(b)
    else
      match BeginPrompt(b, id, revision, cfg.maxConfirmations)
      case Returned(_, b') => Untouched(b')
      case Raised(e) => Failed(b, FromBuffer(e))
  }

  function ReadyTimeoutFires(b: Buf, question: string, revision: nat, id: string): Buf {
    if b.state == ConfirmationPrompting && Answers(b, id, question, revision) then Listen(b) else b
  }

  function ResponseTimeoutFires(b: Buf, question: string, revision: nat, id: string): Outcome {
    if b.state != ConfirmingEnd || !Answers(b, id, question, revision) || b.responseSpeechActive
    then Untouched(b)
    else
      match MarkCutoff(b, question, revision)
      case Returned(_, b') => Outcome(b', Some(ScheduleCommit(ListeningCutoff)), None)
      case Raised(e) => Failed(b, FromBuffer(e))
  }

  predicate ReadyToCommit(b: Buf, question: string, revision: nat) {
    && b.state == CompleteCandidate
    && b.questionId == question && b.revision == revision
    && !b.speechActive && !Blank(b.answerText) && b.completionReason.Some?
  }

  /** The snapshot handed to the interview when an answer is submitted. */
  datatype CommitRequest = CommitRequest(
    sessionId: string,
    questionId: string,
    revision: nat,
    answerText: string,
    reason: CompletionReason,
    deliveryMetrics: Option<DeliveryMetrics>)

  function RequestOf(b: Buf): CommitRequest
    requires b.completionReason.Some?
  {
    CommitRequest(b.sessionId, b.questionId, b.revision, Strip(b.answerText),
                  b.completionReason.value, b.deliveryMetrics)
  }

  function GraceFires(b: Buf, question: string, revision: nat): Outcome {
    if !ReadyToCommit(b, question, revision) then Untouched(b)
    else
      match BeginCommit(b, question, revision)
      case Returned(_, b') => Untouched(b')
      case Raised(e) => Failed(b, FromBuffer(e))
  }

  function RollbackCandidate(b: Buf, question: string, revision: nat): Buf {
    if b.state == CompleteCandidate && b.questionId == question && b.revision == revision
    then Listen(b) else b
  }

  function RollbackPrompt(b: Buf, id: string): Buf {
    if b.confirmationId == Some(id) then Close(b) else b
  }

  function SubmissionFailed(b: Buf, question: string, revision: nat): Buf {
    if b.state == Committing && b.questionId == question && b.revision == revision
    then Listen(b) else b
  }

  function SubmissionDone(b: Buf, question: string, revision: nat): Buf {
    After(b, MarkCommitted(b, question, revision))
  }

  // ----- a section that reports an error has changed nothing --------------------------------

  /** The buffer a transcript leaves when it is taken, before any decision is carried over. */
  function Heard(b: Buf, revision: nat, text: string, info: SnapshotInfo): Buf {
    Observe(b, info).(revision := revision, answerText := text)
  }

  /** A transcript that is taken replaces the answer, and may carry its decision over. */
  lemma TranscriptTaken(
    cfg: Config, b: Buf, acceptEqual: bool, q: string, r: nat, text: string, info: SnapshotInfo)
    requires !Transcript(cfg, b, acceptEqual, q, r, text, info).error.Some?
    ensures GuardOpen(b, q).None? && r >= b.revision && (r == b.revision ==> text == b.answerText)
    ensures Transcript(cfg, b, acceptEqual, q, r, text, info)
      == if !(acceptEqual && r == b.revision) && RepeatsJudgedAnswer(b, text, info)
         then CarryDecision(cfg, Heard(b, r, text, info), b.decision.value)
         else Untouched(Heard(b, r, text, info))
  {
  }

  /** Deciding on the decision the buffer itself holds for the current revision never raises. */
  lemma OwnDecisionIsApplied(cfg: Config, b: Buf, fallback: bool)
    requires Sound(b) && ValidConfig(cfg)
    requires b.state == Listening && b.decision.Some?
    ensures Decide(cfg, b, b.decision.value, b.revision, fallback).error.None?
  {
  }

  lemma CarrySucceeds(cfg: Config, b: Buf, d: Decision)
    requires Sound(b) && ValidConfig(cfg) && b.state == Listening
    ensures CarryDecision(cfg, b, d).error.None?
  {
    var result := JudgeResult(b.questionId, b.revision, d, false);
    RecordDecisionKeeps(b, result);
    OwnDecisionIsApplied(cfg, RecordDecision(b, result).buf, false);
  }

  lemma FailedTranscriptChangesNothing(
    cfg: Config, b: Buf, acceptEqual: bool, q: string, r: nat, text: string, info: SnapshotInfo)
    requires Sound(b) && ValidConfig(cfg)
    ensures var o := Transcript(cfg, b, acceptEqual, q, r, text, info);
            o.error.Some? ==> o.buf == b
  {
    var reply := UpdateTranscript(b, q, r, text, info);
    UpdateTranscriptKeeps(b, q, r, text, info);
    if reply.Returned? && reply.value && b.decision.Some? {
      CarrySucceeds(cfg, reply.buf, b.decision.value);
    }
  }

  lemma FailedActivityChangesNothing(cfg: Config, b: Buf, q: string, r: nat, active: bool)
    requires Sound(b) && ValidConfig(cfg)
    ensures var o := Activity(cfg, b, q, r, active);
            o.error.Some? ==> o.buf == b
  {
    var reply := UpdateSpeech(b, q, r, active);
    if reply.Returned? {
      UpdateSpeechKeeps(b, q, r, active);
      if reply.buf.state == Listening && reply.buf.decision.Some? {
        OwnDecisionIsApplied(cfg, reply.buf, false);
      }
    }
  }
}
