/**
  What every interview keeps, whatever the candidate sends and the language models return:
  how sets, questions and evaluations are counted, and when it ends.
 */
module WorkflowGuarantees {
  import opened Wrappers
  import opened Text
  import opened TurnModels
  import opened InterviewModels
  import opened Assessment
  import opened Workflow

  function Max(a: int, b: int): int { if a > b then a else b }

  // ----- the shape of a session --------------------------------------------------------------

  predicate AnswersCurrent(s: SessionState) {
    && HasAnswer(s) && s.currentQuestion.Some?
    && s.pendingEvent.value.questionId == s.currentQuestion.value.questionId
    && s.pendingEvent.value.sessionId == s.setup.sessionId
    && Strip(s.pendingEvent.value.text) != ""
  }

  /** What holds when the graph is about to run a node. */
  predicate Shape(n: Node, s: SessionState) {
    && s.currentQuestion.Some? && s.mainQuestionId.Some?
    && 1 <= s.askedCount <= Max(1, s.setup.maxQuestions)
    && s.derivedCount <= Max(0, s.setup.maxDerived)
    && (s.finished ==> s.report.Some? && (n == ComposeUtterance || n == EndNode))
    && match n
       case GreetNode => false
       case EndNode => s.finished
       case ValidateNode => s.pendingEvent.Some?
       case RecordAnswer => AnswersCurrent(s)
       case EvaluateNode => AnswersCurrent(s)
       case AskMainNode => s.askedCount < s.setup.maxQuestions && s.derivedCount == 0
       case FinalizeNode => s.report.Some?
       case AskChallenge => s.lastSignal.Some? && s.derivedCount < s.setup.maxDerived && !s.challengeUsed
       case _ => Derives(n) ==> s.lastSignal.Some? && s.derivedCount < s.setup.maxDerived
  }

  predicate ShapedAt(n: Node, w: World) {
    Shape(n, w.state)
  }

  lemma ValidEventIsShaped(w: World, o: Oracle)
    requires ShapedAt(ValidateNode, w) && Objection(w.state, o.command).None?
    ensures ShapedAt(Step(ValidateNode, w, o).node, Step(ValidateNode, w, o).world)
  {
  }

  lemma InvalidEventIsShaped(w: World, o: Oracle)
    requires ShapedAt(ValidateNode, w) && Objection(w.state, o.command).Some?
    ensures ShapedAt(Step(ValidateNode, w, o).node, Step(ValidateNode, w, o).world)
  {
  }

  lemma ValidateKeepsShape(w: World, o: Oracle)
    requires ShapedAt(ValidateNode, w)
    ensures ShapedAt(Step(ValidateNode, w, o).node, Step(ValidateNode, w, o).world)
  {
    if Objection(w.state, o.command).None? {
      ValidEventIsShaped(w, o);
    } else {
      InvalidEventIsShaped(w, o);
    }
  }

  lemma RecordKeepsShape(w: World, o: Oracle)
    requires ShapedAt(RecordAnswer, w)
    ensures ShapedAt(Step(RecordAnswer, w, o).node, Step(RecordAnswer, w, o).world)
  {
  }

  lemma EvaluateKeepsShape(w: World, o: Oracle)
    requires ShapedAt(EvaluateNode, w)
    ensures ShapedAt(Step(EvaluateNode, w, o).node, Step(EvaluateNode, w, o).world)
  {
  }

  lemma QuestionKeepsShape(n: Node, w: World, o: Oracle)
    requires ShapedAt(n, w) && (Derives(n) || n == AskMainNode)
    ensures ShapedAt(Step(n, w, o).node, Step(n, w, o).world)
  {
    if Derives(n) {
      DerivedKeepsShape(n, w, o);
    }
  }

  lemma DerivedKeepsShape(n: Node, w: World, o: Oracle)
    requires ShapedAt(n, w) && Derives(n)
    ensures ShapedAt(Step(n, w, o).node, Step(n, w, o).world)
  {
    hide Step, RoleOf;
    DerivingSteps(n, w, o);
  }

  lemma OtherKeepsShape(n: Node, w: World, o: Oracle)
    requires ShapedAt(n, w) && !Parked(n)
    requires n !in {ValidateNode, RecordAnswer, EvaluateNode} && !Derives(n) && n != AskMainNode
    ensures ShapedAt(Step(n, w, o).node, Step(n, w, o).world)
  {
    hide Completed, CompleteSet, Max;
  }

  lemma StepKeepsShape(n: Node, w: World, o: Oracle)
    requires ShapedAt(n, w) && !Parked(n)
    ensures ShapedAt(Step(n, w, o).node, Step(n, w, o).world)
  {
    if n == ValidateNode {
      ValidateKeepsShape(w, o);
    } else if n == RecordAnswer {
      RecordKeepsShape(w, o);
    } else if n == EvaluateNode {
      EvaluateKeepsShape(w, o);
    } else if Derives(n) || n == AskMainNode {
      QuestionKeepsShape(n, w, o);
    } else {
      OtherKeepsShape(n, w, o);
    }
  }

  lemma GreetShapes(setup: Setup, o: Oracle)
    ensures Shape(ComposeUtterance, Greet(NewWorld(setup), o).state)
  {
  }

  lemma {:induction false} SettleKeepsShape(n: Node, w: World, o: Oracle)
    requires ShapedAt(n, w)
    ensures ShapedAt(Settle(n, w, o).node, Settle(n, w, o).world)
    decreases Depth(n)
  {
    if !Parked(n) {
      StepKeepsShape(n, w, o);
      SettleKeepsShape(Step(n, w, o).node, Step(n, w, o).world, o);
    }
  }

  // ----- sets and evaluations ----------------------------------------------------------------

  lemma EvaluateBalances(w: World, o: Oracle)
    requires Balanced(w.ledger, w.history.sets) && Documented(w.ledger) && w.state.currentQuestion.Some?
    ensures Balanced(EvaluateAnswer(w, o).ledger, EvaluateAnswer(w, o).history.sets)
    ensures Documented(EvaluateAnswer(w, o).ledger)
  {
    var text := if HasAnswer(w.state) then w.state.pendingEvent.value.text else "";
    AssessBalances(w.ledger, w.history.sets,
                   AttemptAt(w.state.currentQuestion.value, text, w.state.pendingMetrics, o.assessed),
                   o.assessed.evidence);
    AssessDocuments(w.ledger, w.state.currentQuestion.value, text, w.state.pendingMetrics, o.assessed);
  }

  lemma CompleteBalances(w: World)
    requires Balanced(w.ledger, w.history.sets) && Documented(w.ledger) && w.state.mainQuestionId.Some?
    ensures Balanced(CompleteQuestionSet(w).ledger, CompleteQuestionSet(w).history.sets)
    ensures Documented(CompleteQuestionSet(w).ledger)
  {
    CompletingDocuments(w.ledger, w.state.mainQuestionId.value);
    CompletingBalances(w.ledger, w.history.sets, w.state.mainQuestionId.value);
  }

  lemma LedgerUntouched(n: Node, w: World, o: Oracle)
    requires n != EvaluateNode && n != CompleteSetNode
    ensures Step(n, w, o).world.ledger == w.ledger && Step(n, w, o).world.history.sets == w.history.sets
  {
  }

  /** Nothing answered is lost, wherever the graph stands. */
  lemma {:induction false} SettleBalances(n: Node, w: World, o: Oracle)
    requires ShapedAt(n, w) && Balanced(w.ledger, w.history.sets) && Documented(w.ledger)
    ensures Balanced(Settle(n, w, o).world.ledger, Settle(n, w, o).world.history.sets)
    ensures Documented(Settle(n, w, o).world.ledger)
    decreases Depth(n)
  {
    hide Balanced, ValidateEvent;
    if !Parked(n) {
      StepKeepsShape(n, w, o);
      if n == EvaluateNode {
        EvaluateBalances(w, o);
      } else if n == CompleteSetNode {
        CompleteBalances(w);
      } else {
        LedgerUntouched(n, w, o);
      }
      SettleBalances(Step(n, w, o).node, Step(n, w, o).world, o);
    }
  }

  /** Every main question but the current one has its evaluation. */
  predicate Counted(n: Node, s: SessionState, l: Ledger) {
    match n
    case AskMainNode => |l.evaluations| == s.askedCount && l.current == []
    case CompleteSetNode => |l.evaluations| == s.askedCount - 1 && l.current != []
    case FinalReportNode => true
    case FinalizeNode => true
    case EndNode => true
    case ComposeUtterance => !s.finished ==> |l.evaluations| == s.askedCount - 1
    case _ =>
      && |l.evaluations| == s.askedCount - 1
      && (Derives(n) ==> l.current != [])
  }

  predicate CountedAt(n: Node, w: World) {
    Counted(n, w.state, w.ledger)
  }

  /** An on-topic answer belongs to the set it was given in; an off-topic one goes nowhere. */
  lemma RoutedIsCounted(s: SessionState, l: Ledger)
    requires s.lastSignal.Some? && |l.evaluations| == s.askedCount - 1
    requires s.lastSignal.value.quality != OffTopic ==> l.current != []
    ensures Counted(RouteQuality(s), s, l)
  {
  }

  lemma EvaluateKeepsCounts(w: World, o: Oracle)
    requires ShapedAt(EvaluateNode, w) && CountedAt(EvaluateNode, w)
    ensures CountedAt(Step(EvaluateNode, w, o).node, Step(EvaluateNode, w, o).world)
  {
    RoutedIsCounted(EvaluateAnswer(w, o).state, EvaluateAnswer(w, o).ledger);
  }

  lemma CompleteKeepsCounts(w: World, o: Oracle)
    requires ShapedAt(CompleteSetNode, w) && CountedAt(CompleteSetNode, w)
    ensures CountedAt(Step(CompleteSetNode, w, o).node, Step(CompleteSetNode, w, o).world)
  {
  }

  /** Nodes that do not touch the ledger lead only to nodes with the same count. */
  lemma OtherKeepsCounts(n: Node, s: SessionState, l: Ledger, n': Node, s': SessionState)
    requires Counted(n, s, l) && n !in {EvaluateNode, CompleteSetNode, EndNode}
    requires CountsOn(n, s, n', s')
    ensures Counted(n', s', l)
  {
  }

  predicate CountsOn(n: Node, s: SessionState, n': Node, s': SessionState) {
    && n' !in {AskMainNode, CompleteSetNode} && !Derives(n')
    && s'.askedCount == s.askedCount + (if n == AskMainNode then 1 else 0)
    && (n in {FinalReportNode, FinalizeNode} || (n == ComposeUtterance && s.finished) ==>
          n' in {FinalizeNode, EndNode} || (n' == ComposeUtterance && s'.finished))
  }

  lemma QuestionCountsOn(n: Node, w: World, o: Oracle)
    requires Derives(n) || n == AskMainNode
    ensures CountsOn(n, w.state, Step(n, w, o).node, Step(n, w, o).world.state)
  {
  }

  lemma OtherStepsTo(n: Node, w: World, o: Oracle)
    requires ShapedAt(n, w) && n !in {EvaluateNode, CompleteSetNode} && !Parked(n)
    ensures CountsOn(n, w.state, Step(n, w, o).node, Step(n, w, o).world.state)
  {
    hide CompleteSet;
    if Derives(n) || n == AskMainNode {
      QuestionCountsOn(n, w, o);
    }
  }

  lemma StepKeepsCounts(n: Node, w: World, o: Oracle)
    requires ShapedAt(n, w) && CountedAt(n, w) && !Parked(n)
    ensures CountedAt(Step(n, w, o).node, Step(n, w, o).world)
  {
    if n == EvaluateNode {
      EvaluateKeepsCounts(w, o);
    } else if n == CompleteSetNode {
      CompleteKeepsCounts(w, o);
    } else {
      LedgerUntouched(n, w, o);
      OtherStepsTo(n, w, o);
      OtherKeepsCounts(n, w.state, w.ledger, Step(n, w, o).node, Step(n, w, o).world.state);
    }
  }

  lemma {:induction false} SettleKeepsCounts(n: Node, w: World, o: Oracle)
    requires ShapedAt(n, w) && CountedAt(n, w)
    ensures CountedAt(Settle(n, w, o).node, Settle(n, w, o).world)
    decreases Depth(n)
  {
    if !Parked(n) {
      StepKeepsShape(n, w, o);
      StepKeepsCounts(n, w, o);
      SettleKeepsCounts(Step(n, w, o).node, Step(n, w, o).world, o);
    }
  }

  // ----- the questions of a set ----------------------------------------------------------------

  /** Main questions so far, and derived questions and challenges since the last of them. */
  datatype Tally = Tally(mains: nat, derived: nat, challenges: nat)

  function Bump(t: Tally, role: Role): Tally {
    match role
    case AsMain => Tally(t.mains + 1, 0, 0)
    case AsHint => t
    case AsChallenge => t.(derived := t.derived + 1, challenges := t.challenges + 1)
    case _ => t.(derived := t.derived + 1)
  }

  function TallyOf(log: seq<Asked>): Tally {
    if log == [] then Tally(0, 0, 0) else Bump(TallyOf(log[..|log| - 1]), log[|log| - 1].role)
  }

  /** At no moment did a set have two challenges or more derived questions than allowed. */
  predicate WithinLimits(log: seq<Asked>, maxDerived: int) {
    forall i :: 0 <= i <= |log| ==>
      TallyOf(log[..i]).challenges <= 1 && TallyOf(log[..i]).derived <= Max(0, maxDerived)
  }

  lemma TallySnoc(log: seq<Asked>, a: Asked)
    ensures TallyOf(log + [a]) == Bump(TallyOf(log), a.role)
  {
    assert (log + [a])[..|log|] == log;
  }

  lemma LimitsSnoc(log: seq<Asked>, a: Asked, maxDerived: int)
    requires WithinLimits(log, maxDerived)
    requires TallyOf(log + [a]).challenges <= 1 && TallyOf(log + [a]).derived <= Max(0, maxDerived)
    ensures WithinLimits(log + [a], maxDerived)
  {
    var log' := log + [a];
    forall i | 0 <= i <= |log'|
      ensures TallyOf(log'[..i]).challenges <= 1 && TallyOf(log'[..i]).derived <= Max(0, maxDerived)
    {
      if i <= |log| {
        assert log'[..i] == log[..i];
      } else {
        assert log'[..i] == log';
      }
    }
  }

  /** The set is still open: its counters are in use. */
  predicate SetOpen(n: Node, s: SessionState) {
    n !in {AskMainNode, FinalReportNode, FinalizeNode, EndNode} && !(n == ComposeUtterance && s.finished)
  }

  function CountersOf(s: SessionState): Tally {
    Tally(s.askedCount, s.derivedCount, if s.challengeUsed then 1 else 0)
  }

  /** The counters of the session are what its history says they should be. */
  predicate Logged(open: bool, s: SessionState, log: seq<Asked>) {
    && log != [] && s.currentQuestion == Some(log[|log| - 1].question)
    && WithinLimits(log, s.setup.maxDerived)
    && TallyOf(log).mains == s.askedCount
    && (open ==> TallyOf(log) == CountersOf(s))
  }

  predicate LoggedAt(n: Node, w: World) {
    Logged(SetOpen(n, w.state), w.state, w.history.asked)
  }

  /** A question is asked and the counters follow. */
  lemma AskingKeepsLog(s: SessionState, log: seq<Asked>, s': SessionState, a: Asked)
    requires Logged(a.role != AsMain, s, log)
    requires s'.currentQuestion == Some(a.question) && s'.setup == s.setup
    requires a.role == AsMain ==> CountersOf(s') == Tally(s.askedCount + 1, 0, 0)
    requires a.role != AsMain ==> CountersOf(s') == Bump(CountersOf(s), a.role)
    requires a.role == AsChallenge ==> !s.challengeUsed
    requires a.role != AsMain && a.role != AsHint ==> s.derivedCount < s.setup.maxDerived
    ensures Logged(true, s', log + [a])
  {
    TallySnoc(log, a);
    assert log[..|log|] == log;
    LimitsSnoc(log, a, s.setup.maxDerived);
  }

  lemma AskDerivedKeepsLog(w: World, o: Oracle, role: Role)
    requires Logged(true, w.state, w.history.asked) && !w.state.finished
    requires w.state.derivedCount < w.state.setup.maxDerived && (role == AsChallenge ==> !w.state.challengeUsed)
    requires role != AsMain && role != AsHint
    ensures LoggedAt(ComposeUtterance, AskDerived(w, o, role))
  {
    var w' := AskDerived(w, o, role);
    if w'.history.asked != w.history.asked {
      AskingKeepsLog(w.state, w.history.asked, w'.state, Asked(o.question, role));
    }
  }

  lemma AskMainKeepsLog(w: World, o: Oracle)
    requires ShapedAt(AskMainNode, w) && LoggedAt(AskMainNode, w)
    ensures LoggedAt(ComposeUtterance, AskMain(w, o))
  {
    AskingKeepsLog(w.state, w.history.asked, AskMain(w, o).state, Asked(o.question, AsMain));
  }

  lemma SilenceKeepsLog(w: World, o: Oracle)
    requires Logged(true, w.state, w.history.asked)
    ensures Logged(true, HandleSilence(w, o).state, HandleSilence(w, o).history.asked)
  {
    var w' := HandleSilence(w, o);
    if w'.history.asked != w.history.asked {
      AskingKeepsLog(w.state, w.history.asked, w'.state, Asked(o.question, AsHint));
    }
  }

  lemma OtherKeepsLog(n: Node, w: World, o: Oracle)
    requires ShapedAt(n, w) && LoggedAt(n, w) && !Parked(n)
    requires !Derives(n) && n != AskMainNode && n != HandleSilenceNode
    ensures LoggedAt(Step(n, w, o).node, Step(n, w, o).world)
  {
  }

  lemma StepKeepsLog(n: Node, w: World, o: Oracle)
    requires ShapedAt(n, w) && LoggedAt(n, w) && !Parked(n)
    ensures LoggedAt(Step(n, w, o).node, Step(n, w, o).world)
  {
    if Derives(n) {
      AskDerivedKeepsLog(w, o, RoleOf(n));
    } else if n == AskMainNode {
      AskMainKeepsLog(w, o);
    } else if n == HandleSilenceNode {
      SilenceKeepsLog(w, o);
    } else {
      OtherKeepsLog(n, w, o);
    }
  }

  lemma {:induction false} SettleKeepsLog(n: Node, w: World, o: Oracle)
    requires ShapedAt(n, w) && LoggedAt(n, w)
    ensures LoggedAt(Settle(n, w, o).node, Settle(n, w, o).world)
    decreases Depth(n)
  {
    if !Parked(n) {
      StepKeepsShape(n, w, o);
      StepKeepsLog(n, w, o);
      SettleKeepsLog(Step(n, w, o).node, Step(n, w, o).world, o);
    }
  }
}
