/**
  The voice turn buffer as the object the coordinators share. Every method is proved to do
  exactly what its function in BufferSpec says, and to leave every field as it was when the
  call raises.
 */
module Buffer {
  import opened Wrappers
  import opened Text
  import opened TurnModels
  import opened BufferSpec

  /** A method's outcome and its effect agree with the reply of its specification. */
  predicate Agrees<T(==)>(was: Buf, spec: Reply<T>, now: Buf, r: Result<T, TurnError>) {
    match spec
    case Returned(value, buf) => r == Ok(value) && now == buf
    case Raised(error) => r == Err(error) && now == was
  }

  class VoiceTurnBuffer {
    const sessionId: string
    const questionId: string
    var revision: nat
    var answerText: string
    var speechActive: bool
    var segmentFinal: bool
    var answerDuration: Option<Seconds>
    var latestDeliveryMetrics: Option<DeliveryMetrics>
    var state: TurnState
    var latestDecisionRevision: Option<nat>
    var latestDecision: Option<Decision>
    var confirmationCount: nat
    var activeConfirmationId: Option<string>
    var activeConfirmationRevision: Option<nat>
    var responseSpeechActive: bool
    var pendingCompletionReason: Option<CompletionReason>
    var committedRevision: Option<nat>

    /** model_copy(): the buffer as a value. */
    function Copy(): Buf
      reads this
    {
      Buf(sessionId, questionId, revision, answerText, speechActive, segmentFinal, answerDuration,
          latestDeliveryMetrics, state, latestDecisionRevision, latestDecision, confirmationCount,
          activeConfirmationId, activeConfirmationRevision, responseSpeechActive,
          pendingCompletionReason, committedRevision)
    }

    constructor (sessionId: string, questionId: string)
      ensures Copy() == NewBuffer(sessionId, questionId)
      ensures Sound(Copy())
    {
      this.sessionId := sessionId;
      this.questionId := questionId;
      revision := 0;
      answerText := "";
      speechActive := false;
      segmentFinal := false;
      answerDuration := None;
      latestDeliveryMetrics := None;
      state := Listening;
      latestDecisionRevision := None;
      latestDecision := None;
      confirmationCount := 0;
      activeConfirmationId := None;
      activeConfirmationRevision := None;
      responseSpeechActive := false;
      pendingCompletionReason := None;
      committedRevision := None;
    }

    // Setters for fields that always change together. Each keeps one group of fields.

    method DropDecision()
      modifies this
      ensures Copy() == old(Copy()).(decisionRevision := None, decision := None)
    {
      latestDecisionRevision := None;
      latestDecision := None;
    }

    method DropConfirmation()
      modifies this
      ensures Copy() == old(Copy()).(confirmationId := None, confirmationRevision := None, responseSpeechActive := false)
    {
      activeConfirmationId := None;
      activeConfirmationRevision := None;
      responseSpeechActive := false;
    }

    method ActivateConfirmation(confirmationId: string, atRevision: nat)
      modifies this
      ensures Copy() == old(Copy()).(confirmationId := Some(confirmationId),
                                     confirmationRevision := Some(atRevision),
                                     responseSpeechActive := false)
    {
      activeConfirmationId := Some(confirmationId);
      activeConfirmationRevision := Some(atRevision);
      responseSpeechActive := false;
    }

    method Enter(next: TurnState, reason: Option<CompletionReason>)
      modifies this
      ensures Copy() == old(Copy()).(completionReason := reason, state := next)
    {
      pendingCompletionReason := reason;
      state := next;
    }

    method ReplaceAnswer(newRevision: nat, text: string)
      modifies this
      ensures Copy() == old(Copy()).(revision := newRevision, answerText := text)
    {
      revision := newRevision;
      answerText := text;
    }

    method SetSpeech(active: bool, final: bool)
      modifies this
      ensures Copy() == old(Copy()).(speechActive := active, segmentFinal := final)
    {
      speechActive := active;
      segmentFinal := final;
    }

    method Listen()
      modifies this
      ensures Copy() == BufferSpec.Listen(old(Copy()))
    {
      DropDecision();
      DropConfirmation();
      Enter(Listening, None);
    }

    method Observe(info: SnapshotInfo)
      modifies this
      ensures Copy() == BufferSpec.Observe(old(Copy()), info)
    {
      SetSpeech(info.speechActive, info.segmentFinal);
      if info.answerDuration.Some? {
        answerDuration := info.answerDuration;
      }
      if info.deliveryMetrics.Some? {
        latestDeliveryMetrics := info.deliveryMetrics;
      }
      Listen();
    }

    method UpdateTranscript(question: string, newRevision: nat, text: string, info: SnapshotInfo)
      returns (r: Result<bool, TurnError>)
      modifies this
      ensures Agrees(old(Copy()), BufferSpec.UpdateTranscript(old(Copy()), question, newRevision, text, info), Copy(), r)
    {
      if question != questionId { return Err(QuestionMismatch); }
      if state == Committed { return Err(AlreadyCommitted); }
      if state == Committing { return Err(InvalidTransition); }
      if newRevision <= revision { return Ok(false); }
      if BadDuration(info.answerDuration) { return Err(TurnValueError); }
      ReplaceAnswer(newRevision, text);
      Observe(info);
      r := Ok(true);
    }

    method SynchronizeReconnect(question: string, atRevision: nat, text: string, info: SnapshotInfo)
      returns (r: Result<(), TurnError>)
      modifies this
      ensures Agrees(old(Copy()), BufferSpec.SynchronizeReconnect(old(Copy()), question, atRevision, text, info), Copy(), r)
    {
      if question != questionId { return Err(QuestionMismatch); }
      if state == Committed { return Err(AlreadyCommitted); }
      if state == Committing { return Err(InvalidTransition); }
      if atRevision != revision { return Err(RevisionConflict); }
      if text != answerText { return Err(RevisionConflict); }
      if BadDuration(info.answerDuration) { return Err(TurnValueError); }
      Observe(info);
      r := Ok(());
    }

    method UpdateSpeechActivity(question: string, atRevision: nat, active: bool)
      returns (r: Result<bool, TurnError>)
      modifies this
      ensures Agrees(old(Copy()), UpdateSpeech(old(Copy()), question, atRevision, active), Copy(), r)
    {
      if question != questionId { return Err(QuestionMismatch); }
      if state == Committed { return Err(AlreadyCommitted); }
      if state == Committing { return Err(InvalidTransition); }
      if atRevision != revision { return Ok(false); }
      speechActive := active;
      if active {
        segmentFinal := false;
        Listen();
      }
      r := Ok(true);
    }

    method RecordDecision(result: JudgeResult) returns (r: Result<bool, TurnError>)
      modifies this
      ensures Agrees(old(Copy()), BufferSpec.RecordDecision(old(Copy()), result), Copy(), r)
    {
      if result.questionId != questionId { return Err(QuestionMismatch); }
      if state != Listening { return Ok(false); }
      if result.revision != revision { return Ok(false); }
      latestDecisionRevision := Some(result.revision);
      latestDecision := Some(result.decision);
      r := Ok(true);
    }

    predicate HasActionableDecision(expectedRevision: nat, action: RecommendedAction)
      reads this
    {
      && expectedRevision == revision
      && latestDecisionRevision == Some(expectedRevision)
      && latestDecision.Some? && latestDecision.value.action == action
    }

    method MarkCompleteCandidate(expectedRevision: nat, reason: CompletionReason)
      returns (r: Result<(), TurnError>)
      modifies this
      ensures Agrees(old(Copy()), MarkCandidate(old(Copy()), expectedRevision, reason), Copy(), r)
    {
      if state != Listening { return Err(InvalidTransition); }
      if !HasActionableDecision(expectedRevision, AutoSubmit) { return Err(InvalidTransition); }
      if speechActive { return Err(InvalidTransition); }
      if Blank(answerText) { return Err(InvalidTransition); }
      if reason !in {SemanticComplete, ExplicitFinish} { return Err(InvalidTransition); }
      Enter(CompleteCandidate, Some(reason));
      r := Ok(());
    }

    method MarkConfirmationPending(expectedRevision: nat, maxConfirmations: int)
      returns (r: Result<bool, TurnError>)
      modifies this
      ensures Agrees(old(Copy()), MarkPending(old(Copy()), expectedRevision, maxConfirmations), Copy(), r)
    {
      if maxConfirmations <= 0 { return Err(InvalidTransition); }
      if state != Listening { return Err(InvalidTransition); }
      if !HasActionableDecision(expectedRevision, AskConfirmation) { return Err(InvalidTransition); }
      if speechActive { return Err(InvalidTransition); }
      if confirmationCount >= maxConfirmations { return Ok(false); }
      state := ConfirmationPending;
      r := Ok(true);
    }

    /** A text without the whitespace around it, if anything is left of it. */
    method Normalized(text: string) returns (normalized: Option<string>)
      ensures normalized == if Blank(text) then None else Some(Strip(text))
    {
      BlankIsStrippedEmpty(text);
      normalized := if Strip(text) == "" then None else Some(Strip(text));
    }

    method BeginConfirmationPrompt(confirmationId: string, expectedRevision: nat, maxConfirmations: int)
      returns (r: Result<(), TurnError>)
      modifies this
      ensures Agrees(old(Copy()), BeginPrompt(old(Copy()), confirmationId, expectedRevision, maxConfirmations), Copy(), r)
    {
      if state != ConfirmationPending { return Err(InvalidTransition); }
      if maxConfirmations <= 0 || confirmationCount >= maxConfirmations { return Err(InvalidTransition); }
      var normalized := Normalized(confirmationId);
      if normalized.None? { return Err(InvalidTransition); }
      if expectedRevision != revision { return Err(InvalidTransition); }
      EnterPrompt(normalized.value, expectedRevision);
      r := Ok(());
    }

    method EnterPrompt(confirmationId: string, atRevision: nat)
      modifies this
      ensures Copy() == old(Copy()).(confirmationCount := old(confirmationCount) + 1,
                                     confirmationId := Some(confirmationId),
                                     confirmationRevision := Some(atRevision),
                                     responseSpeechActive := false, state := ConfirmationPrompting)
    {
      confirmationCount := confirmationCount + 1;
      ActivateConfirmation(confirmationId, atRevision);
      state := ConfirmationPrompting;
    }

    predicate IsActiveConfirmation(confirmationId: string, expectedRevision: nat)
      reads this
    {
      && activeConfirmationId == Some(confirmationId)
      && activeConfirmationRevision == Some(expectedRevision)
      && expectedRevision == revision
    }

    method MarkConfirmationResponseReady(question: string, confirmationId: string, expectedRevision: nat)
      returns (r: Result<bool, TurnError>)
      modifies this
      ensures Agrees(old(Copy()), MarkReady(old(Copy()), question, confirmationId, expectedRevision), Copy(), r)
    {
      if question != questionId { return Err(QuestionMismatch); }
      if !IsActiveConfirmation(confirmationId, expectedRevision) { return Err(InvalidTransition); }
      if state == ConfirmingEnd { return Ok(false); }
      if state != ConfirmationPrompting { return Err(InvalidTransition); }
      responseSpeechActive := false;
      state := ConfirmingEnd;
      r := Ok(true);
    }

    method UpdateConfirmationResponseActivity(
      question: string, confirmationId: string, expectedRevision: nat, active: bool)
      returns (r: Result<bool, TurnError>)
      modifies this
      ensures Agrees(old(Copy()), UpdateResponseSpeech(old(Copy()), question, confirmationId, expectedRevision, active), Copy(), r)
    {
      if question != questionId { return Err(QuestionMismatch); }
      if state != ConfirmingEnd { return Err(InvalidTransition); }
      if !IsActiveConfirmation(confirmationId, expectedRevision) { return Err(InvalidTransition); }
      if responseSpeechActive == active { return Ok(false); }
      responseSpeechActive := active;
      r := Ok(true);
    }

    method ApplyConfirmationIntent(
      question: string, confirmationId: string, expectedRevision: nat,
      decision: IntentDecision, newRevision: Option<nat>)
      returns (r: Result<(), TurnError>)
      modifies this
      ensures Agrees(old(Copy()), ApplyIntent(old(Copy()), question, confirmationId, expectedRevision, decision, newRevision), Copy(), r)
    {
      if question != questionId { return Err(QuestionMismatch); }
      if state != ConfirmingEnd { return Err(InvalidTransition); }
      if !IsActiveConfirmation(confirmationId, expectedRevision) { return Err(InvalidTransition); }
      if decision.intent == Finish {
        r := MarkUserConfirmedComplete(question, confirmationId, revision);
        return;
      }
      if decision.intent in {Continue, Unknown} {
        Listen();
        return Ok(());
      }
      if newRevision.None? || newRevision.value <= revision { return Err(InvalidTransition); }
      var addition := if decision.answerContent.Some? then decision.answerContent.value else "";
      if Blank(addition) { return Err(InvalidTransition); }
      ReplaceAnswer(newRevision.value, Append(answerText, addition));
      SetSpeech(false, false);
      Listen();
      r := Ok(());
    }

    method MarkUserConfirmedComplete(question: string, confirmationId: string, expectedRevision: nat)
      returns (r: Result<(), TurnError>)
      modifies this
      ensures Agrees(old(Copy()), MarkUserConfirmed(old(Copy()), question, confirmationId, expectedRevision), Copy(), r)
    {
      if question != questionId { return Err(QuestionMismatch); }
      if state != ConfirmingEnd { return Err(InvalidTransition); }
      if !IsActiveConfirmation(confirmationId, expectedRevision) { return Err(InvalidTransition); }
      if Blank(answerText) { return Err(InvalidTransition); }
      DropConfirmation();
      speechActive := false;
      Enter(CompleteCandidate, Some(UserConfirmed));
      r := Ok(());
    }

    method MarkCutoffComplete(question: string, expectedRevision: nat)
      returns (r: Result<Option<string>, TurnError>)
      modifies this
      ensures Agrees(old(Copy()), MarkCutoff(old(Copy()), question, expectedRevision), Copy(), r)
    {
      if question != questionId { return Err(QuestionMismatch); }
      if state == Committed { return Err(AlreadyCommitted); }
      if state !in {Listening, ConfirmingEnd} { return Err(InvalidTransition); }
      if expectedRevision != revision { return Err(InvalidTransition); }
      if speechActive { return Err(InvalidTransition); }
      if responseSpeechActive { return Err(InvalidTransition); }
      if Blank(answerText) { return Err(InvalidTransition); }
      var cancelled := activeConfirmationId;
      DropConfirmation();
      Enter(CompleteCandidate, Some(ListeningCutoff));
      r := Ok(cancelled);
    }

    method CancelConfirmation() returns (cancelled: Option<string>)
      modifies this
      ensures Agrees(old(Copy()), BufferSpec.CancelConfirmation(old(Copy())), Copy(), Ok(cancelled))
    {
      if state !in {ConfirmationPending, ConfirmationPrompting, ConfirmingEnd} { return None; }
      cancelled := activeConfirmationId;
      Listen();
    }

    method ResumeListening() returns (r: Result<(), TurnError>)
      modifies this
      ensures Agrees(old(Copy()), BufferSpec.ResumeListening(old(Copy())), Copy(), r)
    {
      if state == Committed { return Err(AlreadyCommitted); }
      Listen();
      r := Ok(());
    }

    method BeginCommit(question: string, expectedRevision: nat) returns (r: Result<string, TurnError>)
      modifies this
      ensures Agrees(old(Copy()), BufferSpec.BeginCommit(old(Copy()), question, expectedRevision), Copy(), r)
    {
      if question != questionId { return Err(QuestionMismatch); }
      if state == Committed { return Err(AlreadyCommitted); }
      if state != CompleteCandidate { return Err(InvalidTransition); }
      if expectedRevision != revision { return Err(InvalidTransition); }
      if speechActive { return Err(InvalidTransition); }
      if pendingCompletionReason.None? { return Err(InvalidTransition); }
      var text := Normalized(answerText);
      if text.None? { return Err(InvalidTransition); }
      state := Committing;
      r := Ok(text.value);
    }

    method AbortCommit(question: string, expectedRevision: nat) returns (r: Result<(), TurnError>)
      modifies this
      ensures Agrees(old(Copy()), BufferSpec.AbortCommit(old(Copy()), question, expectedRevision), Copy(), r)
    {
      if question != questionId { return Err(QuestionMismatch); }
      if state != Committing { return Err(InvalidTransition); }
      if expectedRevision != revision { return Err(InvalidTransition); }
      Listen();
      r := Ok(());
    }

    method MarkCommitted(question: string, expectedRevision: nat) returns (r: Result<(), TurnError>)
      modifies this
      ensures Agrees(old(Copy()), BufferSpec.MarkCommitted(old(Copy()), question, expectedRevision), Copy(), r)
    {
      if question != questionId { return Err(QuestionMismatch); }
      if state != Committing { return Err(InvalidTransition); }
      if expectedRevision != revision { return Err(InvalidTransition); }
      speechActive := false;
      DropDecision();
      committedRevision := Some(expectedRevision);
      Enter(Committed, None);
      r := Ok(());
    }
  }
}
