/**
  The interview as a graph: what each node does to the session, where each router leads, and
  one run of the graph from an input to the next wait.

  What the language models return is given to a run from outside: the meaning of a spoken
  phrase, the verdict on the answer, the next question and the report. A session also keeps a
  history nobody reads while the program runs: the completed sets, the questions asked, and
  every answer that was judged, on topic or not.
 */
module Workflow {
  import opened Wrappers
  import opened Text
  import opened TurnModels
  import opened InterviewModels
  import opened Assessment

  /** What a question was asked for. */
  datatype Role =
    | AsMain | AsFollowUp | AsChallenge | AsConfirmPositive | AsConfirmNegative | AsTrap | AsHint

  datatype Asked = Asked(question: Question, role: Role)

  datatype History = History(sets: seq<seq<Attempt>>, asked: seq<Asked>, judged: seq<Attempt>)

  datatype World = World(state: SessionState, ledger: Ledger, history: History)

  datatype Oracle = Oracle(command: VoiceCommand, assessed: Assessed, question: Question, report: Report)

  function NewWorld(setup: Setup): World {
    World(InitialState(setup), EMPTY_LEDGER, History([], [], []))
  }

  function Ask(w: World, q: Question, role: Role): World {
    w.(state := w.state.(currentQuestion := Some(q)),
       history := w.history.(asked := w.history.asked + [Asked(q, role)]))
  }

  function Fail(w: World, e: WorkflowError): World {
    w.(state := w.state.(error := Some(e)))
  }

  /** The pending input has been dealt with. */
  function Cleared(s: SessionState): SessionState {
    s.(pendingEvent := None, pendingMetrics := None, error := None)
  }

  // ----- nodes -----------------------------------------------------------------------------

  function Greet(w: World, o: Oracle): World {
    var w1 := Ask(w, o.question, AsMain);
    w1.(state := w1.state.(
      askedCount := 1, mainQuestionId := Some(o.question.questionId), finished := false, error := None))
  }

  /** A short spoken phrase may be a command; then it is no answer. */
  function Interpret(s: SessionState, e: InterviewEvent, command: VoiceCommand): InterviewEvent {
    if !e.AnswerSubmitted? || !s.setup.voice then e
    else
      match command
      case NoCommand => e
      case EndCommand => EndRequested(e.sessionId)
      case ReplayCommand => ReplayRequested(e.sessionId)
  }

  function ValidMetrics(s: SessionState, e: InterviewEvent): Option<DeliveryMetrics> {
    if !s.setup.voice || !e.AnswerSubmitted? || s.pendingMetrics == Some(DeliveryMetrics(None, None, None))
    then None else s.pendingMetrics
  }

  function Objection(s: SessionState, command: VoiceCommand): Option<WorkflowError> {
    if s.pendingEvent.None? then Some(NoEvent)
    else if s.pendingEvent.value.Malformed? then Some(BadEvent)
    else if s.pendingEvent.value.sessionId != s.setup.sessionId then Some(WrongSession)
    else
      var e := Interpret(s, s.pendingEvent.value, command);
      if !e.AnswerSubmitted? then None
      else if s.currentQuestion.None? then Some(NoQuestion)
      else if e.questionId != s.currentQuestion.value.questionId then Some(WrongQuestion)
      else if Strip(e.text) == "" then Some(EmptyAnswer)
      else None
  }

  function ValidateEvent(w: World, o: Oracle): World {
    var s := w.state;
    var objection := Objection(s, o.command);
    if objection.Some? then Fail(w, objection.value)
    else
      var e := Interpret(s, s.pendingEvent.value, o.command);
      w.(state := s.(pendingEvent := Some(e), pendingMetrics := ValidMetrics(s, e), error := None))
  }

  predicate HasAnswer(s: SessionState) {
    s.pendingEvent.Some? && s.pendingEvent.value.AnswerSubmitted?
  }

  function RecordCandidateAnswer(w: World): World {
    var s := w.state;
    if s.pendingEvent.None? then Fail(w, NoEvent)
    else if !HasAnswer(s) then Fail(w, BadEvent)
    else if s.currentQuestion.None? then Fail(w, NoQuestion)
    else
      var e := s.pendingEvent.value;
      w.(state := s.(
        transcript := s.transcript + [Utterance(e.questionId, s.currentQuestion.value.kind, e.text)],
        silenceCount := 0, silenceAction := None, timeoutAction := None, error := None))
  }

  function EvaluateAnswer(w: World, o: Oracle): World {
    var s := w.state;
    if s.currentQuestion.None? then
      w.(state := s.(pendingMetrics := None, error := Some(NoQuestion), finished := true))
    else
      var text := if HasAnswer(s) then s.pendingEvent.value.text else "";
      var a := AttemptAt(s.currentQuestion.value, text, s.pendingMetrics, o.assessed);
      World(s.(lastSignal := Some(o.assessed.signal), pendingMetrics := None, error := None),
            Assess(w.ledger, a, o.assessed.evidence),
            w.history.(judged := w.history.judged + [a]))
  }

  /** The five nodes that ask about the last answer; only a challenge is remembered as such. */
  function AskDerived(w: World, o: Oracle, role: Role): World {
    var s := w.state;
    if s.currentQuestion.None? || s.lastSignal.None? then Fail(w, NoSignal)
    else if o.question.parentId != Some(s.currentQuestion.value.questionId) then Fail(w, WrongParent)
    else
      var w1 := Ask(w, o.question, role);
      w1.(state := Cleared(w1.state.(
        derivedCount := s.derivedCount + 1, challengeUsed := s.challengeUsed || role == AsChallenge)))
  }

  function AskMain(w: World, o: Oracle): World {
    var w1 := Ask(w, o.question, AsMain);
    w1.(state := w1.state.(
      askedCount := w.state.askedCount + 1, mainQuestionId := Some(o.question.questionId),
      challengeUsed := false, pendingEvent := None, pendingMetrics := None))
  }

  function MainId(s: SessionState): Option<string> {
    if s.mainQuestionId.Some? then s.mainQuestionId
    else if s.currentQuestion.Some? then Some(s.currentQuestion.value.questionId) else None
  }

  function CompleteQuestionSet(w: World): World {
    var main := MainId(w.state);
    if main.None? then Fail(w, NoQuestionSet)
    else
      World(Cleared(w.state.(challengeUsed := false, derivedCount := 0, silenceCount := 0,
                             silenceAction := None, timeoutAction := None)),
            CompleteSet(w.ledger, main.value),
            w.history.(sets := Completed(w.ledger, w.history.sets)))
  }

  function FinalReport(w: World, o: Oracle): World {
    w.(state := w.state.(report := Some(o.report), error := None))
  }

  function Finalize(w: World): World {
    w.(state := Cleared(w.state.(finished := true)))
  }

  function HandleSilence(w: World, o: Oracle): World {
    var s := w.state;
    if s.pendingEvent.None? || !s.pendingEvent.value.SilenceDetected? then
      w.(state := Cleared(s).(silenceAction := Some(SilenceWait), error := Some(BadEvent)))
    else if s.pendingEvent.value.seconds < s.setup.silence.hintThreshold then
      w.(state := Cleared(s).(silenceAction := Some(SilenceWait)))
    else
      var counted := w.(state := Cleared(s).(silenceCount := s.silenceCount + 1));
      var move := if s.silenceCount == 0 then s.setup.silence.firstAction else s.setup.silence.secondAction;
      if s.silenceCount + 1 >= s.setup.silence.maxEvents then
        counted.(state := counted.state.(silenceAction := Some(SilenceTimeout)))
      else if move == Represent then
        counted.(state := counted.state.(silenceAction := Some(SilenceReplay)))
      else
        var hinted := Ask(counted, o.question, AsHint);
        hinted.(state := hinted.state.(silenceAction := Some(SilenceHint)))
  }

  function HandleTimeout(w: World): World {
    if w.state.setup.pauseOnTimeout
    then w.(state := Cleared(w.state.(timeoutAction := Some(Pause), finished := false)))
    else w.(state := Cleared(w.state.(timeoutAction := Some(EndSession))))
  }

  // ----- the graph -------------------------------------------------------------------------

  datatype Node =
    | GreetNode
    | ComposeUtterance
    | WaitEvent
    | ValidateNode
    | RecordAnswer
    | EvaluateNode
    | AskMainNode
    | AskFollowUp
    | AskChallenge
    | AskConfirmPositive
    | AskConfirmNegative
    | AskTrap
    | CompleteSetNode
    | FinalReportNode
    | FinalizeNode
    | HandleReplay
    | HandleSilenceNode
    | HandleTimeoutNode
    | HandleOffTopic
    | EndNode

  function RouteEvent(s: SessionState): Node {
    if s.error.Some? || s.pendingEvent.None? then HandleReplay
    else
      match s.pendingEvent.value
      case AnswerSubmitted(_, _, _) => RecordAnswer
      case ReplayRequested(_) => HandleReplay
      case SilenceDetected(_, _) => HandleSilenceNode
      case NoResponseTimeout(_) => HandleTimeoutNode
      case EndRequested(_) => FinalReportNode
      case Malformed => HandleReplay
  }

  function RouteQuality(s: SessionState): Node {
    if s.lastSignal.None? then CompleteSetNode
    else if s.lastSignal.value.quality == OffTopic then HandleOffTopic
    else if s.derivedCount >= s.setup.maxDerived then CompleteSetNode
    else if s.lastSignal.value.quality == Misconception && s.challengeUsed then CompleteSetNode
    else
      match s.lastSignal.value.quality
      case BonusAvailable => AskFollowUp
      case Misconception => AskChallenge
      case PositiveDoubt => AskConfirmPositive
      case NegativeDoubt => AskConfirmNegative
      case TrapAvailable => AskTrap
      case _ => CompleteSetNode
  }

  function AfterCompleteSet(s: SessionState): Node {
    if s.finished || s.askedCount >= s.setup.maxQuestions then FinalReportNode else AskMainNode
  }

  function AfterHandleSilence(s: SessionState): Node {
    match s.silenceAction
    case Some(SilenceHint) => ComposeUtterance
    case Some(SilenceReplay) => ComposeUtterance
    case Some(SilenceTimeout) => HandleTimeoutNode
    case _ => WaitEvent
  }

  function AfterHandleTimeout(s: SessionState): Node {
    if s.timeoutAction == Some(Pause) then ComposeUtterance else FinalReportNode
  }

  predicate Derives(n: Node) {
    n in {AskFollowUp, AskChallenge, AskConfirmPositive, AskConfirmNegative, AskTrap}
  }

  /** What the nodes that ask about the last answer ask for. */
  function RoleOf(n: Node): Role {
    match n
    case AskFollowUp => AsFollowUp
    case AskChallenge => AsChallenge
    case AskConfirmPositive => AsConfirmPositive
    case AskConfirmNegative => AsConfirmNegative
    case AskTrap => AsTrap
    case _ => AsMain
  }

  predicate Parked(n: Node) {
    n == WaitEvent || n == EndNode
  }

  /** What a node does. Waiting, and saying something, change nothing that is modelled. */
  function Act(n: Node, w: World, o: Oracle): World {
    match n
    case GreetNode => Greet(w, o)
    case ValidateNode => ValidateEvent(w, o)
    case RecordAnswer => RecordCandidateAnswer(w)
    case EvaluateNode => EvaluateAnswer(w, o)
    case AskMainNode => AskMain(w, o)
    case AskFollowUp => AskDerived(w, o, AsFollowUp)
    case AskChallenge => AskDerived(w, o, AsChallenge)
    case AskConfirmPositive => AskDerived(w, o, AsConfirmPositive)
    case AskConfirmNegative => AskDerived(w, o, AsConfirmNegative)
    case AskTrap => AskDerived(w, o, AsTrap)
    case CompleteSetNode => CompleteQuestionSet(w)
    case FinalReportNode => FinalReport(w, o)
    case FinalizeNode => Finalize(w)
    case HandleReplay => w.(state := Cleared(w.state))
    case HandleSilenceNode => HandleSilence(w, o)
    case HandleTimeoutNode => HandleTimeout(w)
    case HandleOffTopic => w.(state := Cleared(w.state))
    case ComposeUtterance => w
    case WaitEvent => w
    case EndNode => w
  }

  /** The edges, read after the node has acted. */
  function Next(n: Node, s: SessionState): Node {
    match n
    case GreetNode => ComposeUtterance
    case ComposeUtterance => if s.finished then EndNode else WaitEvent
    case ValidateNode => RouteEvent(s)
    case RecordAnswer => EvaluateNode
    case EvaluateNode => RouteQuality(s)
    case CompleteSetNode => AfterCompleteSet(s)
    case HandleSilenceNode => AfterHandleSilence(s)
    case HandleTimeoutNode => AfterHandleTimeout(s)
    case FinalReportNode => FinalizeNode
    case WaitEvent => ValidateNode
    case EndNode => EndNode
    case _ => ComposeUtterance
  }

  function Depth(n: Node): nat {
    match n
    case EndNode => 0
    case WaitEvent => 0
    case ComposeUtterance => 1
    case FinalReportNode => 3
    case HandleTimeoutNode => 4
    case CompleteSetNode => 4
    case HandleSilenceNode => 5
    case EvaluateNode => 5
    case RecordAnswer => 6
    case ValidateNode => 7
    case _ => 2
  }

  /** Where the graph stops. */
  datatype Stop = Stop(node: Node, world: World)

  function Step(n: Node, w: World, o: Oracle): (s: Stop)
    ensures !Parked(n) ==> Depth(s.node) < Depth(n)
  {
    var w' := Act(n, w, o);
    Stop(Next(n, w'.state), w')
  }

  /** The five nodes that ask about an answer differ only in what they ask for. */
  lemma DerivingSteps(n: Node, w: World, o: Oracle)
    requires Derives(n)
    ensures Step(n, w, o) == Stop(ComposeUtterance, AskDerived(w, o, RoleOf(n)))
    ensures RoleOf(n) != AsMain && RoleOf(n) != AsHint && (RoleOf(n) == AsChallenge <==> n == AskChallenge)
  {
  }

  /** Runs the graph until it waits for the candidate or ends. */
  function Settle(n: Node, w: World, o: Oracle): Stop
    decreases Depth(n)
  {
    if Parked(n) then Stop(n, w)
    else Settle(Step(n, w, o).node, Step(n, w, o).world, o)
  }

  function Start(setup: Setup, o: Oracle): Stop {
    Settle(GreetNode, NewWorld(setup), o)
  }

  function WithInput(w: World, e: InterviewEvent, metrics: Option<DeliveryMetrics>): World {
    w.(state := w.state.(pendingEvent := Some(e), pendingMetrics := metrics))
  }

  /** Resumes a waiting graph with an input. */
  function Resume(w: World, e: InterviewEvent, metrics: Option<DeliveryMetrics>, o: Oracle): Stop {
    Settle(ValidateNode, WithInput(w, e, metrics), o)
  }
}
