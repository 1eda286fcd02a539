/**
  Whole interviews: which answers are judged, that no question is judged twice, and that the
  interview ends after a bounded number of answers.

  Some of this needs Strategy to keep its promises: a new id for every question it returns,
  and the current question as the parent of a derived one.
 */
module InterviewGuarantees {
  import opened Wrappers
  import opened Text
  import opened TurnModels
  import opened InterviewModels
  import opened Assessment
  import opened Workflow
  import opened WorkflowGuarantees

  // ----- which answers are judged ------------------------------------------------------------

  /** An answer to the current question of this session, with words, and not a spoken command. */
  predicate Accepted(s: SessionState, e: InterviewEvent, command: VoiceCommand) {
    && e.AnswerSubmitted? && e.sessionId == s.setup.sessionId
    && (s.setup.voice ==> command == NoCommand)
    && s.currentQuestion.Some? && e.questionId == s.currentQuestion.value.questionId
    && Strip(e.text) != ""
  }

  /** The attempt an accepted answer becomes. */
  function AttemptOf(s: SessionState, e: InterviewEvent, metrics: Option<DeliveryMetrics>, r: Assessed): Attempt
    requires e.AnswerSubmitted? && s.currentQuestion.Some?
  {
    AttemptAt(s.currentQuestion.value, e.text, ValidMetrics(s.(pendingMetrics := metrics), e), r)
  }

  predicate Judging(n: Node) {
    n in {ValidateNode, RecordAnswer, EvaluateNode}
  }

  lemma StepKeepsAttempts(n: Node, w: World, o: Oracle)
    requires !Judging(n) && ShapedAt(n, w) && n != WaitEvent
    ensures Step(n, w, o).world.ledger.all == w.ledger.all && !Judging(Step(n, w, o).node)
    ensures Step(n, w, o).world.history.judged == w.history.judged
  {
  }

  lemma {:induction false} SettleKeepsAttempts(n: Node, w: World, o: Oracle)
    requires !Judging(n) && ShapedAt(n, w)
    ensures Settle(n, w, o).world.ledger.all == w.ledger.all
    ensures Settle(n, w, o).world.history.judged == w.history.judged
    decreases Depth(n)
  {
    if !Parked(n) {
      StepKeepsShape(n, w, o);
      StepKeepsAttempts(n, w, o);
      SettleKeepsAttempts(Step(n, w, o).node, Step(n, w, o).world, o);
    }
  }

  /** The world in which an accepted answer reaches the assessment. */
  function Heard(w: World, e: InterviewEvent, metrics: Option<DeliveryMetrics>, o: Oracle): World {
    RecordCandidateAnswer(ValidateEvent(WithInput(w, e, metrics), o))
  }

  lemma AcceptedIsHeard(w: World, e: InterviewEvent, metrics: Option<DeliveryMetrics>, o: Oracle)
    requires ShapedAt(WaitEvent, w) && Accepted(w.state, e, o.command)
    ensures var w' := Heard(w, e, metrics, o);
            && Step(ValidateNode, WithInput(w, e, metrics), o).node == RecordAnswer
            && Step(RecordAnswer, Step(ValidateNode, WithInput(w, e, metrics), o).world, o) == Stop(EvaluateNode, w')
            && ShapedAt(EvaluateNode, w')
            && w'.ledger == w.ledger && w'.history == w.history
            && w'.state.currentQuestion == w.state.currentQuestion
            && w'.state.pendingEvent == Some(e)
            && w'.state.pendingMetrics == ValidMetrics(w.state.(pendingMetrics := metrics), e)
  {
  }

  lemma RejectedIsNotJudged(w: World, e: InterviewEvent, metrics: Option<DeliveryMetrics>, o: Oracle)
    requires ShapedAt(WaitEvent, w) && !Accepted(w.state, e, o.command)
    ensures var stop := Step(ValidateNode, WithInput(w, e, metrics), o);
            && !Judging(stop.node) && stop.node != CompleteSetNode
            && stop.world.ledger == w.ledger && stop.world.history == w.history
  {
  }

  lemma {:induction false} ResumeAccepted(w: World, e: InterviewEvent, metrics: Option<DeliveryMetrics>, o: Oracle)
    requires ShapedAt(WaitEvent, w) && Accepted(w.state, e, o.command)
    ensures Resume(w, e, metrics, o) == Settle(EvaluateNode, Heard(w, e, metrics, o), o)
  {
    AcceptedIsHeard(w, e, metrics, o);
    var w1 := WithInput(w, e, metrics);
    assert Settle(ValidateNode, w1, o) == Settle(RecordAnswer, Step(ValidateNode, w1, o).world, o);
  }

  /**
    An answer is judged if and only if it is accepted, and then once; it becomes the newest
    attempt if and only if it is also on topic.
   */
  lemma JudgedIffAccepted(w: World, e: InterviewEvent, metrics: Option<DeliveryMetrics>, o: Oracle)
    requires ShapedAt(WaitEvent, w)
    ensures Resume(w, e, metrics, o).world.history.judged
         == if Accepted(w.state, e, o.command)
            then w.history.judged + [AttemptOf(w.state, e, metrics, o.assessed)] else w.history.judged
    ensures Resume(w, e, metrics, o).world.ledger.all
         == if Accepted(w.state, e, o.command) && o.assessed.signal.quality != OffTopic
            then w.ledger.all + [AttemptOf(w.state, e, metrics, o.assessed)] else w.ledger.all
  {
    var w1 := WithInput(w, e, metrics);
    if Accepted(w.state, e, o.command) {
      AcceptedIsHeard(w, e, metrics, o);
      ResumeAccepted(w, e, metrics, o);
      var w2 := Heard(w, e, metrics, o);
      EvaluateAdds(w2, o);
      StepKeepsShape(EvaluateNode, w2, o);
      SettleKeepsAttempts(Step(EvaluateNode, w2, o).node, Step(EvaluateNode, w2, o).world, o);
    } else {
      RejectedIsNotJudged(w, e, metrics, o);
      StepKeepsShape(ValidateNode, w1, o);
      SettleKeepsAttempts(Step(ValidateNode, w1, o).node, Step(ValidateNode, w1, o).world, o);
    }
  }

  lemma RoutesLeaveJudging(s: SessionState)
    ensures !Judging(RouteQuality(s)) && !Parked(RouteQuality(s))
  {
  }

  lemma EvaluateAdds(w: World, o: Oracle)
    requires HasAnswer(w.state) && w.state.currentQuestion.Some?
    ensures !Judging(Step(EvaluateNode, w, o).node)
    ensures var a := AttemptAt(w.state.currentQuestion.value, w.state.pendingEvent.value.text,
                               w.state.pendingMetrics, o.assessed);
            var w' := Step(EvaluateNode, w, o).world;
            && w'.history.judged == w.history.judged + [a]
            && w'.ledger.all == if o.assessed.signal.quality == OffTopic then w.ledger.all else w.ledger.all + [a]
  {
    RoutesLeaveJudging(EvaluateAnswer(w, o).state);
  }

  // ----- no question is judged twice ---------------------------------------------------------

  predicate Issued(log: seq<Asked>, id: string) {
    exists i :: 0 <= i < |log| && log[i].question.questionId == id
  }

  /** No question has two attempts, and every attempt answers a question that was asked. */
  predicate OncePerQuestion(all: seq<Attempt>, log: seq<Asked>) {
    && (forall i, j :: 0 <= i < j < |all| ==> all[i].question.questionId != all[j].question.questionId)
    && (forall i :: 0 <= i < |all| ==> Issued(log, all[i].question.questionId))
  }

  predicate Unanswered(all: seq<Attempt>, q: Option<Question>) {
    q.Some? ==> forall i :: 0 <= i < |all| ==> all[i].question.questionId != q.value.questionId
  }

  /** The question is still open: the answer to it has not been judged on topic. */
  predicate QuestionOpen(n: Node, s: SessionState) {
    || n in {WaitEvent, ValidateNode, RecordAnswer, EvaluateNode, HandleReplay, HandleSilenceNode,
             HandleTimeoutNode, HandleOffTopic}
    || (n == ComposeUtterance && !s.finished)
  }

  predicate SingleAt(n: Node, w: World) {
    && OncePerQuestion(w.ledger.all, w.history.asked)
    && (w.state.currentQuestion.Some? ==> Issued(w.history.asked, w.state.currentQuestion.value.questionId))
    && (QuestionOpen(n, w.state) ==> Unanswered(w.ledger.all, w.state.currentQuestion))
  }

  /** A derived question names the current question as its parent. */
  predicate RightParent(n: Node, w: World, o: Oracle) {
    Derives(n) && w.state.currentQuestion.Some? ==>
      o.question.parentId == Some(w.state.currentQuestion.value.questionId)
  }

  /** What Strategy promises when a node asks it for a question: a new id and the right parent. */
  predicate Honest(n: Node, w: World, o: Oracle) {
    && (Derives(n) || n in {AskMainNode, HandleSilenceNode} ==> !Issued(w.history.asked, o.question.questionId))
    && RightParent(n, w, o)
  }

  /** Strategy keeps its promise at every node a run visits. */
  predicate HonestRun(n: Node, w: World, o: Oracle)
    decreases Depth(n)
  {
    !Parked(n) ==> Honest(n, w, o) && HonestRun(Step(n, w, o).node, Step(n, w, o).world, o)
  }

  /** At every node a run visits, a derived question names its parent. */
  predicate ParentedRun(n: Node, w: World, o: Oracle)
    decreases Depth(n)
  {
    !Parked(n) ==> RightParent(n, w, o) && ParentedRun(Step(n, w, o).node, Step(n, w, o).world, o)
  }

  lemma {:induction false} HonestIsParented(n: Node, w: World, o: Oracle)
    requires HonestRun(n, w, o)
    ensures ParentedRun(n, w, o)
    decreases Depth(n)
  {
    if !Parked(n) {
      HonestIsParented(Step(n, w, o).node, Step(n, w, o).world, o);
    }
  }

  lemma AskingIsSingle(all: seq<Attempt>, log: seq<Asked>, a: Asked)
    requires OncePerQuestion(all, log) && !Issued(log, a.question.questionId)
    ensures OncePerQuestion(all, log + [a]) && Unanswered(all, Some(a.question))
    ensures Issued(log + [a], a.question.questionId)
  {
    var log' := log + [a];
    assert log'[|log|] == a;
    forall i | 0 <= i < |all|
      ensures Issued(log', all[i].question.questionId) && all[i].question.questionId != a.question.questionId
    {
      var k :| 0 <= k < |log| && log[k].question.questionId == all[i].question.questionId;
      assert log'[k] == log[k];
    }
  }

  lemma AnsweringIsSingle(l: Ledger, log: seq<Asked>, a: Attempt, evidence: seq<EvidenceChunk>)
    requires OncePerQuestion(l.all, log) && Unanswered(l.all, Some(a.question))
    requires Issued(log, a.question.questionId)
    ensures OncePerQuestion(Assess(l, a, evidence).all, log)
    ensures a.signal.quality == OffTopic ==> Unanswered(Assess(l, a, evidence).all, Some(a.question))
  {
  }

  lemma AskDerivedIsSingle(w: World, o: Oracle, role: Role)
    requires ShapedAt(AskTrap, w) && SingleAt(AskTrap, w) && Honest(AskTrap, w, o)
    ensures SingleAt(ComposeUtterance, AskDerived(w, o, role))
  {
    AskingIsSingle(w.ledger.all, w.history.asked, Asked(o.question, role));
  }

  lemma AskMainIsSingle(w: World, o: Oracle)
    requires SingleAt(AskMainNode, w) && Honest(AskMainNode, w, o)
    ensures SingleAt(ComposeUtterance, AskMain(w, o))
  {
    AskingIsSingle(w.ledger.all, w.history.asked, Asked(o.question, AsMain));
  }

  lemma SilenceIsSingle(w: World, o: Oracle)
    requires SingleAt(HandleSilenceNode, w) && Honest(HandleSilenceNode, w, o)
    ensures SingleAt(HandleSilenceNode, HandleSilence(w, o))
  {
    AskingIsSingle(w.ledger.all, w.history.asked, Asked(o.question, AsHint));
  }

  lemma EvaluateIsSingle(w: World, o: Oracle)
    requires w.state.currentQuestion.Some? && SingleAt(EvaluateNode, w)
    ensures SingleAt(RouteQuality(EvaluateAnswer(w, o).state), EvaluateAnswer(w, o))
  {
    var text := if HasAnswer(w.state) then w.state.pendingEvent.value.text else "";
    AnsweringIsSingle(w.ledger, w.history.asked,
                      AttemptAt(w.state.currentQuestion.value, text, w.state.pendingMetrics, o.assessed),
                      o.assessed.evidence);
  }

  /** The other nodes neither ask nor judge, and never reopen a question. */
  lemma OtherIsSingle(n: Node, w: World, o: Oracle)
    requires ShapedAt(n, w) && SingleAt(n, w) && !Parked(n)
    requires !Derives(n) && n !in {AskMainNode, HandleSilenceNode, EvaluateNode}
    ensures SingleAt(Step(n, w, o).node, Step(n, w, o).world)
  {
  }

  lemma StepIsSingle(n: Node, w: World, o: Oracle)
    requires ShapedAt(n, w) && SingleAt(n, w) && !Parked(n) && Honest(n, w, o)
    ensures SingleAt(Step(n, w, o).node, Step(n, w, o).world)
  {
    hide Issued, OncePerQuestion, Unanswered;
    if Derives(n) {
      AskDerivedIsSingle(w, o, RoleOf(n));
    } else if n == AskMainNode {
      AskMainIsSingle(w, o);
    } else if n == HandleSilenceNode {
      SilenceIsSingle(w, o);
    } else if n == EvaluateNode {
      EvaluateIsSingle(w, o);
    } else {
      OtherIsSingle(n, w, o);
    }
  }

  lemma {:induction false} SettleIsSingle(n: Node, w: World, o: Oracle)
    requires ShapedAt(n, w) && SingleAt(n, w) && HonestRun(n, w, o)
    ensures SingleAt(Settle(n, w, o).node, Settle(n, w, o).world)
    decreases Depth(n)
  {
    if !Parked(n) {
      StepKeepsShape(n, w, o);
      StepIsSingle(n, w, o);
      SettleIsSingle(Step(n, w, o).node, Step(n, w, o).world, o);
    }
  }

  // ----- the interview ends ------------------------------------------------------------------

  /** The answers the main questions still to be asked are good for. */
  function ForLaterSets(s: SessionState): int {
    (Max(1, s.setup.maxQuestions) - s.askedCount) * (1 + Max(0, s.setup.maxDerived))
  }

  /** How many more on-topic answers the session has room for. */
  function Room(n: Node, s: SessionState): int {
    if n in {EndNode, FinalReportNode, FinalizeNode} || (n == ComposeUtterance && s.finished) then 0
    else if n in {AskMainNode, CompleteSetNode} then ForLaterSets(s)
    else if Derives(n) then ForLaterSets(s) + Max(0, s.setup.maxDerived) - s.derivedCount
    else ForLaterSets(s) + Max(0, s.setup.maxDerived) - s.derivedCount + 1
  }

  function RoomLeft(n: Node, w: World): int {
    Room(n, w.state)
  }

  lemma ForLaterSetsIsNatural(s: SessionState)
    requires s.askedCount <= Max(1, s.setup.maxQuestions)
    ensures ForLaterSets(s) >= 0
  {
  }

  lemma OneSetLess(s: SessionState, s': SessionState)
    requires s'.setup == s.setup && s'.askedCount == s.askedCount + 1
    ensures ForLaterSets(s) == ForLaterSets(s') + 1 + Max(0, s.setup.maxDerived)
  {
  }

  predicate Spends(n: Node, w: World, o: Oracle) {
    var stop := Step(n, w, o);
    |stop.world.ledger.all| + RoomLeft(stop.node, stop.world) <= |w.ledger.all| + RoomLeft(n, w)
  }

  lemma AskMainSpends(w: World, o: Oracle)
    requires ShapedAt(AskMainNode, w)
    ensures Spends(AskMainNode, w, o)
  {
    OneSetLess(w.state, AskMain(w, o).state);
  }

  lemma AskDerivedSpends(n: Node, w: World, o: Oracle)
    requires Derives(n) && ShapedAt(n, w) && RightParent(n, w, o)
    ensures Spends(n, w, o)
  {
    hide Step, RoleOf, AskDerived, Room;
    DerivingSteps(n, w, o);
    DerivedSpends(n, w, o);
    DerivedKeepsLedger(w, o, RoleOf(n));
  }

  lemma DerivedKeepsLedger(w: World, o: Oracle, role: Role)
    requires !w.state.finished
    ensures AskDerived(w, o, role).ledger == w.ledger
    ensures Room(ComposeUtterance, AskDerived(w, o, role).state) == Room(WaitEvent, AskDerived(w, o, role).state)
  {
  }

  lemma RoutingSpends(s: SessionState, s': SessionState, n': Node)
    requires s.askedCount <= Max(1, s.setup.maxQuestions) && s.derivedCount <= Max(0, s.setup.maxDerived)
    requires s'.setup == s.setup && s'.askedCount == s.askedCount && s'.derivedCount == s.derivedCount
    requires n' in {CompleteSetNode, HandleOffTopic} || Derives(n')
    ensures Room(n', s') <= Room(EvaluateNode, s)
    ensures n' != HandleOffTopic ==> Room(n', s') < Room(EvaluateNode, s)
    ensures Derives(n') ==> Room(n', s') + 1 == Room(EvaluateNode, s)
    ensures Room(EvaluateNode, s) == Room(WaitEvent, s)
  {
    ForLaterSetsIsNatural(s);
    assert ForLaterSets(s') == ForLaterSets(s);
  }

  lemma EvaluateSpends(w: World, o: Oracle)
    requires ShapedAt(EvaluateNode, w)
    ensures Spends(EvaluateNode, w, o)
  {
    EvaluateAdds(w, o);
    RoutesOfQuality(EvaluateAnswer(w, o).state);
    OffTopicIsRoutedBack(EvaluateAnswer(w, o).state);
    RoutingSpends(w.state, EvaluateAnswer(w, o).state, RouteQuality(EvaluateAnswer(w, o).state));
  }

  lemma RoutesOfQuality(s: SessionState)
    ensures RouteQuality(s) in {CompleteSetNode, HandleOffTopic} || Derives(RouteQuality(s))
  {
  }

  lemma OffTopicIsRoutedBack(s: SessionState)
    ensures RouteQuality(s) == HandleOffTopic <==> s.lastSignal.Some? && s.lastSignal.value.quality == OffTopic
  {
  }

  lemma CompleteSpends(w: World, o: Oracle)
    requires ShapedAt(CompleteSetNode, w)
    ensures Spends(CompleteSetNode, w, o)
  {
    ForLaterSetsIsNatural(w.state);
  }

  lemma OtherSpends(n: Node, w: World, o: Oracle)
    requires ShapedAt(n, w) && !Parked(n)
    requires !Derives(n) && n !in {AskMainNode, CompleteSetNode, EvaluateNode}
    ensures Spends(n, w, o)
  {
    hide Max, Parked, CompleteQuestionSet, Strip;
    ForLaterSetsIsNatural(w.state);
  }

  lemma StepSpends(n: Node, w: World, o: Oracle)
    requires ShapedAt(n, w) && !Parked(n) && RightParent(n, w, o)
    ensures Spends(n, w, o)
  {
    if Derives(n) {
      AskDerivedSpends(n, w, o);
    } else if n == AskMainNode {
      AskMainSpends(w, o);
    } else if n == CompleteSetNode {
      CompleteSpends(w, o);
    } else if n == EvaluateNode {
      EvaluateSpends(w, o);
    } else {
      OtherSpends(n, w, o);
    }
  }

  lemma {:induction false} SettleSpends(n: Node, w: World, o: Oracle)
    requires ShapedAt(n, w) && ParentedRun(n, w, o)
    ensures var stop := Settle(n, w, o);
            |stop.world.ledger.all| + RoomLeft(stop.node, stop.world) <= |w.ledger.all| + RoomLeft(n, w)
    decreases Depth(n)
  {
    if !Parked(n) {
      StepKeepsShape(n, w, o);
      StepSpends(n, w, o);
      SettleSpends(Step(n, w, o).node, Step(n, w, o).world, o);
    }
  }

  // ----- one on-topic answer -------------------------------------------------------------------

  function RouteAfter(s: SessionState, signal: Signal): Node {
    RouteQuality(s.(lastSignal := Some(signal)))
  }

  /** Strategy returned a derived question that does not belong to the current one. */
  predicate Misparented(s: SessionState, o: Oracle) {
    && Derives(RouteAfter(s, o.assessed.signal))
    && s.currentQuestion.Some? && o.question.parentId != Some(s.currentQuestion.value.questionId)
  }

  lemma RouteDependsOnCounters(s: SessionState, s': SessionState)
    requires s'.setup == s.setup && s'.lastSignal == s.lastSignal
    requires s'.derivedCount == s.derivedCount && s'.challengeUsed == s.challengeUsed
    ensures RouteQuality(s') == RouteQuality(s)
  {
  }

  lemma SettleOnce(n: Node, w: World, o: Oracle)
    requires !Parked(n)
    ensures Settle(n, w, o) == Settle(Step(n, w, o).node, Step(n, w, o).world, o)
  {
  }

  lemma SettleParked(n: Node, w: World, o: Oracle)
    requires Parked(n)
    ensures Settle(n, w, o) == Stop(n, w)
  {
  }

  /** What is composed is said, and the graph stops. */
  lemma SettleComposed(w: World, o: Oracle)
    ensures Settle(ComposeUtterance, w, o) == Stop(if w.state.finished then EndNode else WaitEvent, w)
  {
    hide Settle;
    SettleOnce(ComposeUtterance, w, o);
    SettleParked(if w.state.finished then EndNode else WaitEvent, w, o);
  }

  lemma SettleDerived(n: Node, w: World, o: Oracle)
    requires Derives(n) && !w.state.finished
    ensures Settle(n, w, o) == Stop(WaitEvent, AskDerived(w, o, RoleOf(n)))
  {
    hide Settle;
    SettleOnce(n, w, o);
    SettleComposed(AskDerived(w, o, RoleOf(n)), o);
  }

  lemma SettleFinal(w: World, o: Oracle)
    ensures Settle(FinalReportNode, w, o).node == EndNode
  {
    hide Settle;
    SettleOnce(FinalReportNode, w, o);
    SettleOnce(FinalizeNode, FinalReport(w, o), o);
    SettleComposed(Finalize(FinalReport(w, o)), o);
  }

  lemma SettleLastSet(w: World, o: Oracle)
    requires AfterCompleteSet(CompleteQuestionSet(w).state) == FinalReportNode
    ensures Settle(CompleteSetNode, w, o).node == EndNode
  {
    hide Settle, CompleteQuestionSet, AfterCompleteSet;
    SettleOnce(CompleteSetNode, w, o);
    SettleFinal(CompleteQuestionSet(w), o);
  }

  lemma CompletingGoesOn(w: World)
    ensures CompleteQuestionSet(w).state.finished == w.state.finished
  {
  }

  lemma SettleNextSet(w: World, o: Oracle)
    requires AfterCompleteSet(CompleteQuestionSet(w).state) == AskMainNode && !w.state.finished
    ensures Settle(CompleteSetNode, w, o) == Stop(WaitEvent, AskMain(CompleteQuestionSet(w), o))
  {
    hide Settle, CompleteQuestionSet, AfterCompleteSet;
    CompletingGoesOn(w);
    SettleOnce(CompleteSetNode, w, o);
    SettleOnce(AskMainNode, CompleteQuestionSet(w), o);
    SettleComposed(AskMain(CompleteQuestionSet(w), o), o);
  }

  lemma DerivedSpends(n: Node, w: World, o: Oracle)
    requires Derives(n) && ShapedAt(n, w)
    ensures var w' := AskDerived(w, o, RoleOf(n));
            if o.question.parentId == Some(w.state.currentQuestion.value.questionId)
            then Room(WaitEvent, w'.state) == Room(n, w.state)
            else w' == Fail(w, WrongParent) && Room(WaitEvent, w'.state) == Room(n, w.state) + 1
  {
    hide Room, RoleOf, Max;
    RoomForAnswers(n, w.state);
    RoomForAnswers(n, AskDerived(w, o, RoleOf(n)).state);
  }

  /** A set has room for one answer to each derived question that may still be asked, and for one more. */
  lemma RoomForAnswers(n: Node, s: SessionState)
    requires Derives(n)
    ensures Room(n, s) == ForLaterSets(s) + Max(0, s.setup.maxDerived) - s.derivedCount
    ensures Room(WaitEvent, s) == ForLaterSets(s) + Max(0, s.setup.maxDerived) - s.derivedCount + 1
  {
  }

  lemma SetSpends(w: World, o: Oracle)
    requires ShapedAt(CompleteSetNode, w)
    ensures var stop := Settle(CompleteSetNode, w, o);
            RoomLeft(stop.node, stop.world) <= RoomLeft(CompleteSetNode, w)
  {
    hide CompleteSet;
    var w1 := CompleteQuestionSet(w);
    ForLaterSetsIsNatural(w.state);
    if AfterCompleteSet(w1.state) == AskMainNode {
      SettleNextSet(w, o);
      NextSetSpends(w, o);
    } else {
      SettleLastSet(w, o);
    }
  }

  lemma NextSetSpends(w: World, o: Oracle)
    requires w.state.mainQuestionId.Some? && !w.state.finished
    ensures Room(WaitEvent, AskMain(CompleteQuestionSet(w), o).state) == Room(CompleteSetNode, w.state)
  {
    OneSetLess(w.state, AskMain(CompleteQuestionSet(w), o).state);
  }

  /** What the evaluation of an accepted answer leaves behind. */
  lemma HeardIsRouted(w: World, e: InterviewEvent, metrics: Option<DeliveryMetrics>, o: Oracle)
    requires ShapedAt(WaitEvent, w) && Accepted(w.state, e, o.command)
    ensures var w3 := EvaluateAnswer(Heard(w, e, metrics, o), o);
            && Resume(w, e, metrics, o) == Settle(RouteAfter(w.state, o.assessed.signal), w3, o)
            && ShapedAt(RouteAfter(w.state, o.assessed.signal), w3)
            && w3.state.currentQuestion == w.state.currentQuestion
            && CountersOf(w3.state) == CountersOf(w.state) && w3.state.setup == w.state.setup
            && w3.state.challengeUsed == w.state.challengeUsed && !w3.state.finished
  {
    var w2 := Heard(w, e, metrics, o);
    AcceptedIsHeard(w, e, metrics, o);
    ResumeAccepted(w, e, metrics, o);
    HeardKeepsCounters(w, e, metrics, o);
    EvaluateKeepsShape(w2, o);
    RouteDependsOnCounters(w.state.(lastSignal := Some(o.assessed.signal)), EvaluateAnswer(w2, o).state);
  }

  lemma HeardKeepsCounters(w: World, e: InterviewEvent, metrics: Option<DeliveryMetrics>, o: Oracle)
    requires ShapedAt(WaitEvent, w) && Accepted(w.state, e, o.command)
    ensures var s := Heard(w, e, metrics, o).state;
            && s.askedCount == w.state.askedCount && s.derivedCount == w.state.derivedCount
            && s.challengeUsed == w.state.challengeUsed && s.setup == w.state.setup && !s.finished
            && s.currentQuestion == w.state.currentQuestion
  {
  }

  /**
    Every on-topic answer brings the end closer if and only if Strategy does not return a
    derived question with the wrong parent. If it does, the same question stays, no counter
    moves, and the very same answer can be judged again.
   */
  lemma OnTopicAnswersSpend(w: World, e: InterviewEvent, metrics: Option<DeliveryMetrics>, o: Oracle)
    requires ShapedAt(WaitEvent, w) && Accepted(w.state, e, o.command) && o.assessed.signal.quality != OffTopic
    ensures var stop := Resume(w, e, metrics, o);
            && (RoomLeft(stop.node, stop.world) < RoomLeft(WaitEvent, w) <==> !Misparented(w.state, o))
            && (Misparented(w.state, o) ==>
                  && stop.node == WaitEvent && CountersOf(stop.world.state) == CountersOf(w.state)
                  && stop.world.state.currentQuestion == w.state.currentQuestion)
  {
    if Misparented(w.state, o) {
      MisparentedAnswerStays(w, e, metrics, o);
    } else {
      OtherAnswerSpends(w, e, metrics, o);
    }
  }

  lemma MisparentedAnswerStays(w: World, e: InterviewEvent, metrics: Option<DeliveryMetrics>, o: Oracle)
    requires ShapedAt(WaitEvent, w) && Accepted(w.state, e, o.command) && Misparented(w.state, o)
    ensures var stop := Resume(w, e, metrics, o);
            && stop.node == WaitEvent && RoomLeft(WaitEvent, stop.world) == RoomLeft(WaitEvent, w)
            && CountersOf(stop.world.state) == CountersOf(w.state)
            && stop.world.state.currentQuestion == w.state.currentQuestion
  {
    var w3, n := EvaluateAnswer(Heard(w, e, metrics, o), o), RouteAfter(w.state, o.assessed.signal);
    HeardIsRouted(w, e, metrics, o);
    RoutingSpends(w.state, w3.state, n);
    MisparentedStays(w3, n, o);
  }

  lemma OtherAnswerSpends(w: World, e: InterviewEvent, metrics: Option<DeliveryMetrics>, o: Oracle)
    requires ShapedAt(WaitEvent, w) && Accepted(w.state, e, o.command)
    requires o.assessed.signal.quality != OffTopic && !Misparented(w.state, o)
    ensures var stop := Resume(w, e, metrics, o);
            RoomLeft(stop.node, stop.world) < RoomLeft(WaitEvent, w)
  {
    var w3, n := EvaluateAnswer(Heard(w, e, metrics, o), o), RouteAfter(w.state, o.assessed.signal);
    HeardIsRouted(w, e, metrics, o);
    RoutedOnTopic(w.state.(lastSignal := Some(o.assessed.signal)));
    RoutingSpends(w.state, w3.state, n);
    RoutedSpends(w3, n, o);
  }

  lemma MisparentedStays(w: World, n: Node, o: Oracle)
    requires Derives(n) && ShapedAt(n, w)
    requires o.question.parentId != Some(w.state.currentQuestion.value.questionId)
    ensures Settle(n, w, o) == Stop(WaitEvent, Fail(w, WrongParent))
    ensures Room(WaitEvent, Fail(w, WrongParent).state) == Room(n, w.state) + 1
  {
    SettleDerived(n, w, o);
    DerivedSpends(n, w, o);
  }

  lemma RoutedSpends(w: World, n: Node, o: Oracle)
    requires (Derives(n) || n == CompleteSetNode) && ShapedAt(n, w)
    requires Derives(n) ==> o.question.parentId == Some(w.state.currentQuestion.value.questionId)
    ensures RoomLeft(Settle(n, w, o).node, Settle(n, w, o).world) <= RoomLeft(n, w)
  {
    if n == CompleteSetNode {
      SetSpends(w, o);
    } else {
      SettleDerived(n, w, o);
      DerivedSpends(n, w, o);
    }
  }

  lemma RoutedOnTopic(s: SessionState)
    requires s.lastSignal.Some? && s.lastSignal.value.quality != OffTopic
    ensures Derives(RouteQuality(s)) || RouteQuality(s) == CompleteSetNode
  {
  }

  // ----- whole interviews ----------------------------------------------------------------------

  datatype Input = Input(event: InterviewEvent, metrics: Option<DeliveryMetrics>, oracle: Oracle)

  /** A finished session takes no input. */
  function Receive(w: World, i: Input): World {
    if w.state.finished then w else Resume(w, i.event, i.metrics, i.oracle).world
  }

  function Play(w: World, inputs: seq<Input>): World
    decreases |inputs|
  {
    if inputs == [] then w else Receive(Play(w, inputs[..|inputs| - 1]), inputs[|inputs| - 1])
  }

  function Opening(setup: Setup, o: Oracle): World {
    Start(setup, o).world
  }

  /** Where a session at rest stands. */
  function RestNode(w: World): Node {
    if w.state.finished then EndNode else WaitEvent
  }

  predicate AtRest(w: World) {
    && ShapedAt(RestNode(w), w) && CountedAt(RestNode(w), w) && LoggedAt(RestNode(w), w)
    && Balanced(w.ledger, w.history.sets) && Documented(w.ledger)
  }

  predicate HonestInput(w: World, i: Input) {
    !w.state.finished ==> HonestRun(ValidateNode, WithInput(w, i.event, i.metrics), i.oracle)
  }

  predicate ParentedInput(w: World, i: Input) {
    !w.state.finished ==> ParentedRun(ValidateNode, WithInput(w, i.event, i.metrics), i.oracle)
  }

  predicate HonestPlay(w: World, inputs: seq<Input>)
    decreases |inputs|
  {
    inputs != [] ==>
      && HonestPlay(w, inputs[..|inputs| - 1])
      && HonestInput(Play(w, inputs[..|inputs| - 1]), inputs[|inputs| - 1])
  }

  predicate ParentedPlay(w: World, inputs: seq<Input>)
    decreases |inputs|
  {
    inputs != [] ==>
      && ParentedPlay(w, inputs[..|inputs| - 1])
      && ParentedInput(Play(w, inputs[..|inputs| - 1]), inputs[|inputs| - 1])
  }

  lemma {:induction false} HonestPlayIsParented(w: World, inputs: seq<Input>)
    requires HonestPlay(w, inputs)
    ensures ParentedPlay(w, inputs)
    decreases |inputs|
  {
    if inputs != [] {
      var w1, i := Play(w, inputs[..|inputs| - 1]), inputs[|inputs| - 1];
      HonestPlayIsParented(w, inputs[..|inputs| - 1]);
      if !w1.state.finished {
        HonestIsParented(ValidateNode, WithInput(w1, i.event, i.metrics), i.oracle);
      }
    }
  }

  lemma {:induction false} SettleParks(n: Node, w: World, o: Oracle)
    requires ShapedAt(n, w)
    ensures Settle(n, w, o).node == RestNode(Settle(n, w, o).world)
    decreases Depth(n)
  {
    if !Parked(n) {
      StepKeepsShape(n, w, o);
      SettleParks(Step(n, w, o).node, Step(n, w, o).world, o);
    }
  }

  lemma InputIsShaped(w: World, i: Input)
    requires AtRest(w) && !w.state.finished
    ensures var w1 := WithInput(w, i.event, i.metrics);
            && ShapedAt(ValidateNode, w1) && CountedAt(ValidateNode, w1) && LoggedAt(ValidateNode, w1)
            && Balanced(w1.ledger, w1.history.sets) && Documented(w1.ledger)
  {
  }

  lemma ReceiveRests(w: World, i: Input)
    requires AtRest(w)
    ensures AtRest(Receive(w, i))
  {
    if !w.state.finished {
      var w1 := WithInput(w, i.event, i.metrics);
      InputIsShaped(w, i);
      SettleParks(ValidateNode, w1, i.oracle);
      SettleKeepsShape(ValidateNode, w1, i.oracle);
      SettleKeepsCounts(ValidateNode, w1, i.oracle);
      SettleKeepsLog(ValidateNode, w1, i.oracle);
      SettleBalances(ValidateNode, w1, i.oracle);
    }
  }

  lemma OpeningIsGreeting(setup: Setup, o: Oracle)
    ensures Opening(setup, o) == Greet(NewWorld(setup), o)
  {
    assert Step(GreetNode, NewWorld(setup), o) == Stop(ComposeUtterance, Greet(NewWorld(setup), o));
  }

  lemma OpeningRests(setup: Setup, o: Oracle)
    ensures AtRest(Opening(setup, o)) && !Opening(setup, o).state.finished
    ensures Opening(setup, o).ledger == EMPTY_LEDGER
  {
    OpeningIsGreeting(setup, o);
    GreetShapes(setup, o);
    TallySnoc([], Asked(o.question, AsMain));
    LimitsSnoc([], Asked(o.question, AsMain), setup.maxDerived);
  }

  /**
    Every state between two inputs: nothing answered is lost, the evidence behind it is kept,
    every main question but the current one is evaluated, no set exceeds its limits, and a
    finished session has a report.
   */
  lemma {:induction false} InterviewStaysSound(setup: Setup, o: Oracle, inputs: seq<Input>)
    ensures var w := Play(Opening(setup, o), inputs);
            && AtRest(w)
            && (w.state.finished ==> w.state.report.Some?)
            && (!w.state.finished ==> |w.ledger.evaluations| == w.state.askedCount - 1)
            && AllTraces(w.ledger.evaluations) + Traces(w.ledger.current) == Traces(w.ledger.all)
            && Documented(w.ledger)
            && WithinLimits(w.history.asked, w.state.setup.maxDerived)
            && TallyOf(w.history.asked).mains == w.state.askedCount <= Max(1, w.state.setup.maxQuestions)
    decreases |inputs|
  {
    OpeningRests(setup, o);
    var w := Play(Opening(setup, o), inputs);
    if inputs != [] {
      InterviewStaysSound(setup, o, inputs[..|inputs| - 1]);
      ReceiveRests(Play(Opening(setup, o), inputs[..|inputs| - 1]), inputs[|inputs| - 1]);
    }
    NoAttemptIsLost(w.ledger, w.history.sets);
  }

  lemma ReceiveIsSingle(w: World, i: Input)
    requires AtRest(w) && SingleAt(RestNode(w), w) && HonestInput(w, i)
    ensures SingleAt(RestNode(Receive(w, i)), Receive(w, i))
  {
    if !w.state.finished {
      var w1 := WithInput(w, i.event, i.metrics);
      InputIsShaped(w, i);
      SettleParks(ValidateNode, w1, i.oracle);
      SettleIsSingle(ValidateNode, w1, i.oracle);
    }
  }

  /**
    Racing submissions. Inputs may come from anywhere in any order, twice or late: as long as
    Strategy keeps its promise, no question has two attempts.
   */
  lemma {:induction false} QuestionsAreJudgedOnce(setup: Setup, o: Oracle, inputs: seq<Input>)
    requires HonestPlay(Opening(setup, o), inputs)
    ensures var w := Play(Opening(setup, o), inputs);
            && SingleAt(RestNode(w), w)
            && forall i, j :: 0 <= i < j < |w.ledger.all| ==>
                 w.ledger.all[i].question.questionId != w.ledger.all[j].question.questionId
    decreases |inputs|
  {
    if inputs == [] {
      OpeningIsGreeting(setup, o);
      OpeningRests(setup, o);
      assert Opening(setup, o).history.asked[0].question == o.question;
    } else {
      var init := inputs[..|inputs| - 1];
      QuestionsAreJudgedOnce(setup, o, init);
      InterviewStaysSound(setup, o, init);
      ReceiveIsSingle(Play(Opening(setup, o), init), inputs[|inputs| - 1]);
    }
  }

  lemma ReceiveSpends(w: World, i: Input)
    requires AtRest(w) && ParentedInput(w, i)
    ensures var w' := Receive(w, i);
            |w'.ledger.all| + RoomLeft(RestNode(w'), w') <= |w.ledger.all| + RoomLeft(RestNode(w), w)
  {
    if !w.state.finished {
      var w1 := WithInput(w, i.event, i.metrics);
      InputIsShaped(w, i);
      SettleParks(ValidateNode, w1, i.oracle);
      SettleSpends(ValidateNode, w1, i.oracle);
      InputNeedsNoRoom(w, i);
    }
  }

  lemma InputNeedsNoRoom(w: World, i: Input)
    ensures Room(ValidateNode, WithInput(w, i.event, i.metrics).state) == Room(WaitEvent, w.state)
  {
  }

  /** The on-topic answers an interview can take at most. */
  function MostAnswers(setup: Setup): int {
    Max(1, setup.maxQuestions) * (1 + Max(0, setup.maxDerived))
  }

  /**
    The interview ends. As long as derived questions name their parents, no more than `MostAnswers`
    on-topic answers are judged, and the session is finished once they are.
   */
  lemma {:induction false} InterviewEnds(setup: Setup, o: Oracle, inputs: seq<Input>)
    requires ParentedPlay(Opening(setup, o), inputs)
    ensures var w := Play(Opening(setup, o), inputs);
            && |w.ledger.all| + RoomLeft(RestNode(w), w) <= MostAnswers(setup)
            && |w.ledger.all| <= MostAnswers(setup)
            && (|w.ledger.all| == MostAnswers(setup) ==> w.state.finished && w.state.report.Some?)
    decreases |inputs|
  {
    var w := Play(Opening(setup, o), inputs);
    InterviewStaysSound(setup, o, inputs);
    if inputs == [] {
      OpeningHasRoom(setup, o);
    } else {
      var init := inputs[..|inputs| - 1];
      InterviewEnds(setup, o, init);
      InterviewStaysSound(setup, o, init);
      ReceiveSpends(Play(Opening(setup, o), init), inputs[|inputs| - 1]);
    }
    RestHasRoom(w);
  }

  lemma OpeningHasRoom(setup: Setup, o: Oracle)
    ensures var w := Opening(setup, o);
            |w.ledger.all| + RoomLeft(RestNode(w), w) == MostAnswers(setup)
  {
    OpeningIsGreeting(setup, o);
    var s := Greet(NewWorld(setup), o).state;
    assert ForLaterSets(s) == (Max(1, setup.maxQuestions) - 1) * (1 + Max(0, setup.maxDerived));
  }

  lemma RestHasRoom(w: World)
    requires AtRest(w)
    ensures RoomLeft(RestNode(w), w) >= if w.state.finished then 0 else 1
  {
    ForLaterSetsIsNatural(w.state);
  }
}
