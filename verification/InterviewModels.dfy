/** The values of an interview session: questions, events, verdicts on answers, and its state. */
module InterviewModels {
  import opened Wrappers
  import opened TurnModels

  datatype QuestionKind = Main | FollowUp | Challenge | ConfirmPositive | ConfirmNegative | Trap | Hint

  datatype Question = Question(
    questionId: string, text: string, topic: string, category: Option<string>, kind: QuestionKind,
    parentId: Option<string>, evidenceIds: seq<string>)

  datatype Quality =
    | Sufficient
    | BonusAvailable
    | Misconception
    | PositiveDoubt
    | NegativeDoubt
    | TrapAvailable
    | UnknownQuality
    | OffTopic

  /** The verdict on an answer; the language model behind it is free. */
  datatype Signal = Signal(
    quality: Quality, probeTarget: Option<string>, rationale: seq<string>, deliveryNote: Option<string>)

  /** A piece of the candidate's own material that an answer was compared with. */
  datatype EvidenceChunk = EvidenceChunk(chunkId: string, text: string)

  /** What the evaluation of one answer returns. */
  datatype Assessed = Assessed(signal: Signal, evidence: seq<EvidenceChunk>)

  datatype InterviewEvent =
    | AnswerSubmitted(sessionId: string, questionId: string, text: string)
    | ReplayRequested(sessionId: string)
    | EndRequested(sessionId: string)
    | SilenceDetected(sessionId: string, seconds: real)
    | NoResponseTimeout(sessionId: string)
    | Malformed

  /** What a short spoken phrase may mean instead of an answer. */
  datatype VoiceCommand = NoCommand | EndCommand | ReplayCommand

  datatype SilenceMove = GiveHint | Represent

  datatype SilencePolicy = SilencePolicy(
    hintThreshold: real, firstAction: SilenceMove, secondAction: SilenceMove, maxEvents: int)

  /** What a session is created with. */
  datatype Setup = Setup(
    sessionId: string,
    voice: bool,
    maxQuestions: int,
    maxDerived: int,
    silence: SilencePolicy,
    pauseOnTimeout: bool)

  datatype SilenceAction = SilenceWait | SilenceHint | SilenceReplay | SilenceTimeout

  datatype TimeoutAction = Pause | EndSession

  datatype WorkflowError =
    | NoEvent
    | BadEvent
    | WrongSession
    | NoQuestion
    | WrongQuestion
    | EmptyAnswer
    | NoSignal
    | WrongParent
    | NoQuestionSet

  /** What the candidate said, as the transcript keeps it. */
  datatype Utterance = Utterance(questionId: string, kind: QuestionKind, text: string)

  datatype Report = Report(text: string)

  datatype SessionState = SessionState(
    setup: Setup,
    currentQuestion: Option<Question>,
    askedCount: nat,
    mainQuestionId: Option<string>,
    challengeUsed: bool,
    derivedCount: nat,
    transcript: seq<Utterance>,
    pendingEvent: Option<InterviewEvent>,
    pendingMetrics: Option<DeliveryMetrics>,
    lastSignal: Option<Signal>,
    silenceCount: nat,
    silenceAction: Option<SilenceAction>,
    timeoutAction: Option<TimeoutAction>,
    error: Option<WorkflowError>,
    report: Option<Report>,
    finished: bool)

  function InitialState(setup: Setup): SessionState {
    SessionState(setup, None, 0, None, false, 0, [], None, None, None, 0, None, None, None, None, false)
  }
}
