/**
  The voice turn buffer as a value, and each of its operations as a function on that value.

  An operation either returns, giving a result and the new buffer, or raises. A call that
  raises has no new buffer at all: the class in Buffer.dfy is proved to leave its fields
  alone in that case.
 */
module BufferSpec {
  import opened Wrappers
  import opened Text
  import opened TurnModels

  datatype TurnState =
    | Listening
    | CompleteCandidate
    | ConfirmationPending
    | ConfirmationPrompting
    | ConfirmingEnd
    | Committing
    | Committed

  datatype CompletionReason = SemanticComplete | ExplicitFinish | UserConfirmed | ListeningCutoff

  datatype TurnError =
    | TurnValueError
    | QuestionMismatch
    | InvalidTransition
    | AlreadyCommitted
    | RevisionConflict

  datatype Buf = Buf(
    sessionId: string,
    questionId: string,
    revision: nat,
    answerText: string,
    speechActive: bool,
    segmentFinal: bool,
    answerDuration: Option<Seconds>,
    deliveryMetrics: Option<DeliveryMetrics>,
    state: TurnState,
    decisionRevision: Option<nat>,
    decision: Option<Decision>,
    confirmationCount: nat,
    confirmationId: Option<string>,
    confirmationRevision: Option<nat>,
    responseSpeechActive: bool,
    completionReason: Option<CompletionReason>,
    committedRevision: Option<nat>)

  datatype Reply<+T> = Returned(value: T, buf: Buf) | Raised(error: TurnError)

  function NewBuffer(sessionId: string, questionId: string): Buf {
    Buf(sessionId, questionId, 0, "", false, false, None, None, Listening, None, None, 0,
        None, None, false, None, None)
  }

  // ----- consistency -----------------------------------------------------------------------

  predicate ConfirmationState(s: TurnState) {
    s == ConfirmationPending || s == ConfirmationPrompting || s == ConfirmingEnd
  }

  predicate SubmittingState(s: TurnState) {
    s == CompleteCandidate || s == Committing
  }

  /** The model validator. It runs when a buffer is built, never after an assignment. */
  predicate Consistent(b: Buf) {
    && (b.decision.None? <==> b.decisionRevision.None?)
    && (b.decisionRevision.Some? ==> b.decisionRevision.value <= b.revision)
    && (b.committedRevision.Some? ==> b.committedRevision.value <= b.revision)
    && (b.confirmationId.None? <==> b.confirmationRevision.None?)
    && (b.confirmationId.Some? <==> b.state == ConfirmationPrompting || b.state == ConfirmingEnd)
    && (b.confirmationRevision.Some? ==> b.confirmationRevision.value == b.revision)
    && (b.responseSpeechActive ==> b.state == ConfirmingEnd)
    && (b.completionReason.Some? <==> SubmittingState(b.state))
    && (b.committedRevision.Some? <==> b.state == Committed)
    && (b.state == Committed ==> b.committedRevision == Some(b.revision) && !b.speechActive)
  }

  /**
    What actually holds of every buffer: the validator, a decision only for the current
    revision, speech only while listening, and an answer worth submitting wherever a
    submission is under way.
   */
  predicate Sound(b: Buf) {
    && Consistent(b)
    && (b.decisionRevision.Some? ==> b.decisionRevision.value == b.revision)
    && (b.speechActive ==> b.state == Listening)
    && (SubmittingState(b.state) ==> !Blank(b.answerText))
  }

  // ----- operations ------------------------------------------------------------------------

  predicate BadDuration(d: Option<Seconds>) {
    d.Some? && (d.value.NonFinite? || d.value.value < 0.0)
  }

  /** Drops every judgement, confirmation and candidate and listens again. */
  function Listen(b: Buf): Buf {
    b.(decisionRevision := None, decision := None,
       confirmationId := None, confirmationRevision := None, responseSpeechActive := false,
       completionReason := None, state := Listening)
  }

  /** The fields a transcript snapshot carries besides its text and revision. */
  datatype SnapshotInfo = SnapshotInfo(
    speechActive: bool,
    segmentFinal: bool,
    answerDuration: Option<Seconds>,
    deliveryMetrics: Option<DeliveryMetrics>)

  function Observe(b: Buf, info: SnapshotInfo): Buf {
    Listen(b).(
      speechActive := info.speechActive,
      segmentFinal := info.segmentFinal,
      answerDuration := if info.answerDuration.Some? then info.answerDuration else b.answerDuration,
      deliveryMetrics := if info.deliveryMetrics.Some? then info.deliveryMetrics else b.deliveryMetrics)
  }

  function GuardOpen(b: Buf, questionId: string): Option<TurnError> {
    if questionId != b.questionId then Some(QuestionMismatch)
    else if b.state == Committed then Some(AlreadyCommitted)
    else if b.state == Committing then Some(InvalidTransition)
    else None
  }

  function UpdateTranscript(
    b: Buf, questionId: string, revision: nat, text: string, info: SnapshotInfo): Reply<bool>
  {
    var guard := GuardOpen(b, questionId);
    if guard.Some? then Raised(guard.value)
    else if revision <= b.revision then Returned(false, b)
    else if BadDuration(info.answerDuration) then Raised(TurnValueError)
    else Returned(true, Observe(b, info).(revision := revision, answerText := text))
  }

  function SynchronizeReconnect(
    b: Buf, questionId: string, revision: nat, text: string, info: SnapshotInfo): Reply<()>
  {
    var guard := GuardOpen(b, questionId);
    if guard.Some? then Raised(guard.value)
    else if revision != b.revision || text != b.answerText then Raised(RevisionConflict)
    else if BadDuration(info.answerDuration) then Raised(TurnValueError)
    else Returned((), Observe(b, info))
  }

  function UpdateSpeech(b: Buf, questionId: string, revision: nat, speechActive: bool): Reply<bool> {
    var guard := GuardOpen(b, questionId);
    if guard.Some? then Raised(guard.value)
    else if revision != b.revision then Returned(false, b)
    else if speechActive then Returned(true, Listen(b).(speechActive := true, segmentFinal := false))
    else Returned(true, b.(speechActive := false))
  }

  function RecordDecision(b: Buf, r: JudgeResult): Reply<bool> {
    if r.questionId != b.questionId then Raised(QuestionMismatch)
    else if b.state != Listening || r.revision != b.revision then Returned(false, b)
    else Returned(true, b.(decisionRevision := Some(r.revision), decision := Some(r.decision)))
  }

  predicate Actionable(b: Buf, revision: nat, action: RecommendedAction) {
    && revision == b.revision
    && b.decisionRevision == Some(revision)
    && b.decision.Some? && b.decision.value.action == action
  }

  function MarkCandidate(b: Buf, revision: nat, reason: CompletionReason): Reply<()> {
    if b.state != Listening || !Actionable(b, revision, AutoSubmit) || b.speechActive
       || Blank(b.answerText) || reason !in {SemanticComplete, ExplicitFinish}
    then Raised(InvalidTransition)
    else Returned((), b.(completionReason := Some(reason), state := CompleteCandidate))
  }

  function MarkPending(b: Buf, revision: nat, maxConfirmations: int): Reply<bool> {
    if maxConfirmations <= 0 || b.state != Listening
       || !Actionable(b, revision, AskConfirmation) || b.speechActive
    then Raised(InvalidTransition)
    else if b.confirmationCount >= maxConfirmations then Returned(false, b)
    else Returned(true, b.(state := ConfirmationPending))
  }

  function BeginPrompt(b: Buf, id: string, revision: nat, maxConfirmations: int): Reply<()> {
    if b.state != ConfirmationPending || maxConfirmations <= 0
       || b.confirmationCount >= maxConfirmations || Blank(id) || revision != b.revision
    then Raised(InvalidTransition)
    else Returned((), b.(
      confirmationCount := b.confirmationCount + 1,
      confirmationId := Some(Strip(id)),
      confirmationRevision := Some(revision),
      responseSpeechActive := false,
      state := ConfirmationPrompting))
  }

  /** Whether an event names the confirmation that is active for the current revision. */
  predicate Targets(b: Buf, id: string, revision: nat) {
    b.confirmationId == Some(id) && b.confirmationRevision == Some(revision) && revision == b.revision
  }

  function MarkReady(b: Buf, questionId: string, id: string, revision: nat): Reply<bool> {
    if questionId != b.questionId then Raised(QuestionMismatch)
    else if !Targets(b, id, revision) then Raised(InvalidTransition)
    else if b.state == ConfirmingEnd then Returned(false, b)
    else if b.state != ConfirmationPrompting then Raised(InvalidTransition)
    else Returned(true, b.(responseSpeechActive := false, state := ConfirmingEnd))
  }

  function UpdateResponseSpeech(
    b: Buf, questionId: string, id: string, revision: nat, speechActive: bool): Reply<bool>
  {
    if questionId != b.questionId then Raised(QuestionMismatch)
    else if b.state != ConfirmingEnd || !Targets(b, id, revision) then Raised(InvalidTransition)
    else if b.responseSpeechActive == speechActive then Returned(false, b)
    else Returned(true, b.(responseSpeechActive := speechActive))
  }

  function MarkUserConfirmed(b: Buf, questionId: string, id: string, revision: nat): Reply<()> {
    if questionId != b.questionId then Raised(QuestionMismatch)
    else if b.state != ConfirmingEnd || !Targets(b, id, revision) || Blank(b.answerText)
    then Raised(InvalidTransition)
    else Returned((), b.(
      confirmationId := None, confirmationRevision := None, responseSpeechActive := false,
      completionReason := Some(UserConfirmed), speechActive := false, state := CompleteCandidate))
  }

  /** " ".join of the non-empty stripped parts. */
  function Append(answer: string, addition: string): string {
    if Strip(answer) == "" then Strip(addition)
    else if Strip(addition) == "" then Strip(answer)
    else Strip(answer) + " " + Strip(addition)
  }

  /** An addition goes after the answer, and no word of either is changed. */
  lemma AppendJoins(answer: string, addition: string)
    ensures Words(Append(answer, addition)) == Words(answer) + Words(addition)
  {
    var a, b := Strip(answer), Strip(addition);
    WordsStrip(answer);
    WordsStrip(addition);
    WordsConcat(a, ' ', b);
    assert a + " " + b == a + ([' '] + b);
  }

  function ApplyIntent(
    b: Buf, questionId: string, id: string, revision: nat,
    d: IntentDecision, newRevision: Option<nat>): Reply<()>
  {
    if questionId != b.questionId then Raised(QuestionMismatch)
    else if b.state != ConfirmingEnd || !Targets(b, id, revision) then Raised(InvalidTransition)
    else
      match d.intent
      case Finish => MarkUserConfirmed(b, questionId, id, b.revision)
      case Continue => Returned((), Listen(b))
      case Unknown => Returned((), Listen(b))
      case AnswerContent =>
        var addition := if d.answerContent.Some? then d.answerContent.value else "";
        if newRevision.None? || newRevision.value <= b.revision || Blank(addition)
        then Raised(InvalidTransition)
        else Returned((), Listen(b).(
          answerText := Append(b.answerText, addition), revision := newRevision.value,
          speechActive := false, segmentFinal := false))
  }

  function MarkCutoff(b: Buf, questionId: string, revision: nat): Reply<Option<string>> {
    if questionId != b.questionId then Raised(QuestionMismatch)
    else if b.state == Committed then Raised(AlreadyCommitted)
    else if b.state !in {Listening, ConfirmingEnd} || revision != b.revision || b.speechActive
            || b.responseSpeechActive || Blank(b.answerText)
    then Raised(InvalidTransition)
    else Returned(b.confirmationId, b.(
      confirmationId := None, confirmationRevision := None, responseSpeechActive := false,
      completionReason := Some(ListeningCutoff), state := CompleteCandidate))
  }

  function CancelConfirmation(b: Buf): Reply<Option<string>> {
    if ConfirmationState(b.state) then Returned(b.confirmationId, Listen(b)) else Returned(None, b)
  }

  function ResumeListening(b: Buf): Reply<()> {
    if b.state == Committed then Raised(AlreadyCommitted) else Returned((), Listen(b))
  }

  function BeginCommit(b: Buf, questionId: string, revision: nat): Reply<string> {
    if questionId != b.questionId then Raised(QuestionMismatch)
    else if b.state == Committed then Raised(AlreadyCommitted)
    else if b.state != CompleteCandidate || revision != b.revision || b.speechActive
            || b.completionReason.None? || Blank(b.answerText)
    then Raised(InvalidTransition)
    else Returned(Strip(b.answerText), b.(state := Committing))
  }

  function AbortCommit(b: Buf, questionId: string, revision: nat): Reply<()> {
    if questionId != b.questionId then Raised(QuestionMismatch)
    else if b.state != Committing || revision != b.revision then Raised(InvalidTransition)
    else Returned((), Listen(b))
  }

  function MarkCommitted(b: Buf, questionId: string, revision: nat): Reply<()> {
    if questionId != b.questionId then Raised(QuestionMismatch)
    else if b.state != Committing || revision != b.revision then Raised(InvalidTransition)
    else Returned((), b.(
      speechActive := false, decisionRevision := None, decision := None,
      completionReason := None, committedRevision := Some(revision), state := Committed))
  }

  // ----- what every operation keeps --------------------------------------------------------

  /** One call of one operation, with its arguments. */
  datatype Call =
    | CallUpdateTranscript(q: string, revision: nat, text: string, info: SnapshotInfo)
    | CallSynchronize(q: string, revision: nat, text: string, info: SnapshotInfo)
    | CallUpdateSpeech(q: string, revision: nat, speechActive: bool)
    | CallRecordDecision(r: JudgeResult)
    | CallMarkCandidate(revision: nat, reason: CompletionReason)
    | CallMarkPending(revision: nat, max: int)
    | CallBeginPrompt(id: string, revision: nat, max: int)
    | CallMarkReady(q: string, id: string, revision: nat)
    | CallUpdateResponseSpeech(q: string, id: string, revision: nat, speechActive: bool)
    | CallApplyIntent(q: string, id: string, revision: nat, d: IntentDecision, newRevision: Option<nat>)
    | CallMarkUserConfirmed(q: string, id: string, revision: nat)
    | CallMarkCutoff(q: string, revision: nat)
    | CallCancelConfirmation
    | CallResumeListening
    | CallBeginCommit(q: string, revision: nat)
    | CallAbortCommit(q: string, revision: nat)
    | CallMarkCommitted(q: string, revision: nat)

  function After<T>(b: Buf, r: Reply<T>): Buf {
    match r case Returned(_, b') => b' case Raised(_) => b
  }

  /** The buffer after a call, whether it returned or raised. */
  function Perform(b: Buf, c: Call): Buf {
    match c
    case CallUpdateTranscript(q, r, t, i) => After(b, UpdateTranscript(b, q, r, t, i))
    case CallSynchronize(q, r, t, i) => After(b, SynchronizeReconnect(b, q, r, t, i))
    case CallUpdateSpeech(q, r, s) => After(b, UpdateSpeech(b, q, r, s))
    case CallRecordDecision(r) => After(b, RecordDecision(b, r))
    case CallMarkCandidate(r, why) => After(b, MarkCandidate(b, r, why))
    case CallMarkPending(r, max) => After(b, MarkPending(b, r, max))
    case CallBeginPrompt(id, r, max) => After(b, BeginPrompt(b, id, r, max))
    case CallMarkReady(q, id, r) => After(b, MarkReady(b, q, id, r))
    case CallUpdateResponseSpeech(q, id, r, s) => After(b, UpdateResponseSpeech(b, q, id, r, s))
    case CallApplyIntent(q, id, r, d, n) => After(b, ApplyIntent(b, q, id, r, d, n))
    case CallMarkUserConfirmed(q, id, r) => After(b, MarkUserConfirmed(b, q, id, r))
    case CallMarkCutoff(q, r) => After(b, MarkCutoff(b, q, r))
    case CallCancelConfirmation => After(b, CancelConfirmation(b))
    case CallResumeListening => After(b, ResumeListening(b))
    case CallBeginCommit(q, r) => After(b, BeginCommit(b, q, r))
    case CallAbortCommit(q, r) => After(b, AbortCommit(b, q, r))
    case CallMarkCommitted(q, r) => After(b, MarkCommitted(b, q, r))
  }

  function PerformAll(b: Buf, calls: seq<Call>): Buf
    decreases |calls|
  {
    if calls == [] then b else PerformAll(Perform(b, calls[0]), calls[1..])
  }

  /**
    The buffer `b'` may follow `b`: the identity of the turn is fixed, the revision does not
    fall, the text changes only with the revision, the count of prompts does not fall, and
    nothing follows a committed buffer but itself.
   */
  predicate Follows(b: Buf, b': Buf) {
    && b'.sessionId == b.sessionId && b'.questionId == b.questionId
    && b'.revision >= b.revision
    && (b'.revision == b.revision ==> b'.answerText == b.answerText)
    && b'.confirmationCount >= b.confirmationCount
    && (b.state == Committed ==> b' == b)
  }

  predicate Keeps<T>(b: Buf, r: Reply<T>) {
    r.Returned? ==> Sound(r.buf) && Follows(b, r.buf)
  }

  lemma UpdateTranscriptKeeps(b: Buf, q: string, r: nat, t: string, i: SnapshotInfo)
    requires Sound(b)
    ensures Keeps(b, UpdateTranscript(b, q, r, t, i))
  {
  }

  lemma SynchronizeKeeps(b: Buf, q: string, r: nat, t: string, i: SnapshotInfo)
    requires Sound(b)
    ensures Keeps(b, SynchronizeReconnect(b, q, r, t, i))
  {
  }

  lemma UpdateSpeechKeeps(b: Buf, q: string, r: nat, s: bool)
    requires Sound(b)
    ensures Keeps(b, UpdateSpeech(b, q, r, s))
  {
  }

  lemma RecordDecisionKeeps(b: Buf, j: JudgeResult)
    requires Sound(b)
    ensures Keeps(b, RecordDecision(b, j))
  {
  }

  lemma MarkCandidateKeeps(b: Buf, r: nat, why: CompletionReason)
    requires Sound(b)
    ensures Keeps(b, MarkCandidate(b, r, why))
  {
  }

  lemma MarkPendingKeeps(b: Buf, r: nat, max: int)
    requires Sound(b)
    ensures Keeps(b, MarkPending(b, r, max))
  {
  }

  lemma BeginPromptKeeps(b: Buf, id: string, r: nat, max: int)
    requires Sound(b)
    ensures Keeps(b, BeginPrompt(b, id, r, max))
  {
  }

  lemma MarkReadyKeeps(b: Buf, q: string, id: string, r: nat)
    requires Sound(b)
    ensures Keeps(b, MarkReady(b, q, id, r))
  {
  }

  lemma UpdateResponseSpeechKeeps(b: Buf, q: string, id: string, r: nat, s: bool)
    requires Sound(b)
    ensures Keeps(b, UpdateResponseSpeech(b, q, id, r, s))
  {
  }

  lemma MarkUserConfirmedKeeps(b: Buf, q: string, id: string, r: nat)
    requires Sound(b)
    ensures Keeps(b, MarkUserConfirmed(b, q, id, r))
  {
  }

  lemma ApplyIntentKeeps(b: Buf, q: string, id: string, r: nat, d: IntentDecision, n: Option<nat>)
    requires Sound(b)
    ensures Keeps(b, ApplyIntent(b, q, id, r, d, n))
  {
    if d.intent == Finish {
      MarkUserConfirmedKeeps(b, q, id, b.revision);
    } else if b.state != Committed {
      ListenKeeps(b);
    }
  }

  lemma MarkCutoffKeeps(b: Buf, q: string, r: nat)
    requires Sound(b)
    ensures Keeps(b, MarkCutoff(b, q, r))
  {
  }

  lemma ListenKeeps(b: Buf)
    requires Sound(b) && b.state != Committed
    ensures Sound(Listen(b)) && Follows(b, Listen(b))
  {
  }

  lemma BeginCommitKeeps(b: Buf, q: string, r: nat)
    requires Sound(b)
    ensures Keeps(b, BeginCommit(b, q, r))
  {
  }

  lemma MarkCommittedKeeps(b: Buf, q: string, r: nat)
    requires Sound(b)
    ensures Keeps(b, MarkCommitted(b, q, r))
  {
  }

  lemma PerformKeeps(b: Buf, c: Call)
    requires Sound(b)
    ensures Sound(Perform(b, c)) && Follows(b, Perform(b, c))
  {
    if b.state != Committed {
      ListenKeeps(b);
    }
    match c
    case CallUpdateTranscript(q, r, t, i) => UpdateTranscriptKeeps(b, q, r, t, i);
    case CallSynchronize(q, r, t, i) => SynchronizeKeeps(b, q, r, t, i);
    case CallUpdateSpeech(q, r, s) => UpdateSpeechKeeps(b, q, r, s);
    case CallRecordDecision(j) => RecordDecisionKeeps(b, j);
    case CallMarkCandidate(r, why) => MarkCandidateKeeps(b, r, why);
    case CallMarkPending(r, max) => MarkPendingKeeps(b, r, max);
    case CallBeginPrompt(id, r, max) => BeginPromptKeeps(b, id, r, max);
    case CallMarkReady(q, id, r) => MarkReadyKeeps(b, q, id, r);
    case CallUpdateResponseSpeech(q, id, r, s) => UpdateResponseSpeechKeeps(b, q, id, r, s);
    case CallApplyIntent(q, id, r, d, n) => ApplyIntentKeeps(b, q, id, r, d, n);
    case CallMarkUserConfirmed(q, id, r) => MarkUserConfirmedKeeps(b, q, id, r);
    case CallMarkCutoff(q, r) => MarkCutoffKeeps(b, q, r);
    case CallCancelConfirmation =>
    case CallResumeListening =>
    case CallBeginCommit(q, r) => BeginCommitKeeps(b, q, r);
    case CallAbortCommit(q, r) =>
    case CallMarkCommitted(q, r) => MarkCommittedKeeps(b, q, r);
  }

  /** Every sequence of calls, in any order and with any arguments, keeps the buffer sound. */
  lemma {:induction false} BufferStaysSound(b: Buf, calls: seq<Call>)
    requires Sound(b)
    ensures Sound(PerformAll(b, calls)) && Follows(b, PerformAll(b, calls))
    decreases |calls|
  {
    if calls != [] {
      PerformKeeps(b, calls[0]);
      BufferStaysSound(Perform(b, calls[0]), calls[1..]);
    }
  }

  /**
    Leaving `Committing` is possible in three ways only, and no client input or judgement is
    among them: an abort, a completion, or an explicit return to listening.
   */
  lemma CommittingIsClosed(b: Buf, c: Call)
    requires Sound(b) && b.state == Committing
    requires !c.CallAbortCommit? && !c.CallMarkCommitted? && !c.CallResumeListening?
    ensures Perform(b, c) == b
  {
  }
}
