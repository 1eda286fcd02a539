/**
  What one input does to a waiting interview, said in terms of the event, the verdict on the
  answer and the session's own rules: when the interview ends, what is asked next, and what is
  left as it was.
 */
module InterviewOutcomes {
  import opened Wrappers
  import opened Text
  import opened TurnModels
  import opened InterviewModels
  import opened Assessment
  import opened Workflow
  import opened WorkflowGuarantees
  import opened InterviewGuarantees

  // ----- what an input means -----------------------------------------------------------------

  predicate Ours(s: SessionState, e: InterviewEvent) {
    !e.Malformed? && e.sessionId == s.setup.sessionId
  }

  /** A short phrase that was spoken instead of an answer. */
  predicate Spoken(s: SessionState, e: InterviewEvent, command: VoiceCommand, which: VoiceCommand) {
    s.setup.voice && e.AnswerSubmitted? && command == which
  }

  predicate AsksToEnd(s: SessionState, e: InterviewEvent, command: VoiceCommand) {
    Ours(s, e) && (e.EndRequested? || Spoken(s, e, command, EndCommand))
  }

  predicate AsksToRepeat(s: SessionState, e: InterviewEvent, command: VoiceCommand) {
    Ours(s, e) && (e.ReplayRequested? || Spoken(s, e, command, ReplayCommand))
  }

  /** A silence that is long enough to count. */
  predicate CountsAsSilence(s: SessionState, e: InterviewEvent) {
    Ours(s, e) && e.SilenceDetected? && e.seconds >= s.setup.silence.hintThreshold
  }

  /** The client gives up waiting, or the last silence that is allowed has passed. */
  predicate TimesOut(s: SessionState, e: InterviewEvent) {
    || (Ours(s, e) && e.NoResponseTimeout?)
    || (CountsAsSilence(s, e) && s.silenceCount + 1 >= s.setup.silence.maxEvents)
  }

  /** Not of this session, not an event at all, or an answer to another question or without words. */
  predicate Refused(s: SessionState, e: InterviewEvent, command: VoiceCommand) {
    || !Ours(s, e)
    || (&& e.AnswerSubmitted? && !Spoken(s, e, command, EndCommand) && !Spoken(s, e, command, ReplayCommand)
        && (Blank(e.text) || s.currentQuestion.None? || e.questionId != s.currentQuestion.value.questionId))
  }

  /** The answer needs no further question in its set, or may have none. */
  predicate ClosesSet(s: SessionState, q: Quality) {
    && q != OffTopic
    && (|| q == Sufficient || q == UnknownQuality
        || (q == Misconception && s.challengeUsed)
        || s.derivedCount >= s.setup.maxDerived)
  }

  predicate InLastSet(s: SessionState) {
    s.askedCount >= s.setup.maxQuestions
  }

  /** The input ends the interview. */
  predicate Ends(s: SessionState, e: InterviewEvent, o: Oracle) {
    || AsksToEnd(s, e, o.command)
    || (TimesOut(s, e) && !s.setup.pauseOnTimeout)
    || (Accepted(s, e, o.command) && ClosesSet(s, o.assessed.signal.quality) && InLastSet(s))
  }

  /** A derived question is asked for the quality of the answer it derives from. */
  function AskedFor(q: Quality): Role {
    match q
    case BonusAvailable => AsFollowUp
    case Misconception => AsChallenge
    case PositiveDoubt => AsConfirmPositive
    case NegativeDoubt => AsConfirmNegative
    case TrapAvailable => AsTrap
    case _ => AsMain
  }

  /** Every input means exactly one of these. */
  lemma InputsAreSorted(s: SessionState, e: InterviewEvent, command: VoiceCommand)
    requires s.currentQuestion.Some?
    ensures Refused(s, e, command) || AsksToEnd(s, e, command) || AsksToRepeat(s, e, command)
            || Accepted(s, e, command) || (Ours(s, e) && (e.SilenceDetected? || e.NoResponseTimeout?))
  {
    if e.AnswerSubmitted? {
      BlankIsStrippedEmpty(e.text);
    }
  }

  // ----- one run, input by input -------------------------------------------------------------

  /** The world after the input was looked at. */
  function Looked(w: World, e: InterviewEvent, metrics: Option<DeliveryMetrics>, o: Oracle): World {
    ValidateEvent(WithInput(w, e, metrics), o)
  }

  lemma ResumeLooks(w: World, e: InterviewEvent, metrics: Option<DeliveryMetrics>, o: Oracle)
    ensures var w1 := Looked(w, e, metrics, o);
            Resume(w, e, metrics, o) == Settle(RouteEvent(w1.state), w1, o)
  {
    hide ValidateEvent, Settle, RouteEvent;
    SettleOnce(ValidateNode, WithInput(w, e, metrics), o);
  }

  lemma LookedAt(w: World, e: InterviewEvent, metrics: Option<DeliveryMetrics>, o: Oracle)
    requires ShapedAt(WaitEvent, w)
    ensures var w1 := Looked(w, e, metrics, o);
            && w1.state.(pendingEvent := None, pendingMetrics := None, error := None) == Cleared(w.state)
            && w1.ledger == w.ledger && w1.history == w.history
            && (AsksToEnd(w.state, e, o.command) ==> RouteEvent(w1.state) == FinalReportNode)
            && (AsksToRepeat(w.state, e, o.command) || Refused(w.state, e, o.command) ==>
                  RouteEvent(w1.state) == HandleReplay)
            && (Ours(w.state, e) && (e.SilenceDetected? || e.NoResponseTimeout?) ==>
                  && w1.state.pendingEvent == Some(e)
                  && RouteEvent(w1.state) == if e.SilenceDetected? then HandleSilenceNode else HandleTimeoutNode)
  {
    if e.AnswerSubmitted? {
      BlankIsStrippedEmpty(e.text);
    }
  }

  lemma SettleReplay(w: World, o: Oracle)
    requires !w.state.finished
    ensures Settle(HandleReplay, w, o) == Stop(WaitEvent, w.(state := Cleared(w.state)))
  {
    hide Settle;
    SettleOnce(HandleReplay, w, o);
    SettleComposed(w.(state := Cleared(w.state)), o);
  }

  lemma SettleReport(w: World, o: Oracle)
    ensures Settle(FinalReportNode, w, o)
         == Stop(EndNode, w.(state := Cleared(w.state).(report := Some(o.report), finished := true)))
  {
    hide Settle;
    SettleOnce(FinalReportNode, w, o);
    SettleOnce(FinalizeNode, FinalReport(w, o), o);
    SettleComposed(Finalize(FinalReport(w, o)), o);
  }

  lemma SettleTimeout(w: World, o: Oracle)
    requires !w.state.finished
    ensures Settle(HandleTimeoutNode, w, o)
         == if w.state.setup.pauseOnTimeout
            then Stop(WaitEvent, w.(state := Cleared(w.state).(timeoutAction := Some(Pause))))
            else Stop(EndNode, w.(state := Cleared(w.state).(
                   timeoutAction := Some(EndSession), report := Some(o.report), finished := true)))
  {
    hide Settle;
    SettleOnce(HandleTimeoutNode, w, o);
    SettleComposed(HandleTimeout(w), o);
    SettleReport(HandleTimeout(w), o);
  }

  /** Requests to repeat, and whatever is refused, change nothing: the same question waits. */
  lemma OtherInputsWait(w: World, e: InterviewEvent, metrics: Option<DeliveryMetrics>, o: Oracle)
    requires ShapedAt(WaitEvent, w) && !w.state.finished
    requires AsksToRepeat(w.state, e, o.command) || Refused(w.state, e, o.command)
    ensures Resume(w, e, metrics, o) == Stop(WaitEvent, w.(state := Cleared(w.state)))
  {
    hide Settle, ValidateEvent, RouteEvent, Refused, AsksToRepeat;
    var w1 := Looked(w, e, metrics, o);
    LookedAt(w, e, metrics, o);
    ResumeLooks(w, e, metrics, o);
    SettleReplay(w1, o);
  }

  lemma EndingEnds(w: World, e: InterviewEvent, metrics: Option<DeliveryMetrics>, o: Oracle)
    requires ShapedAt(WaitEvent, w) && AsksToEnd(w.state, e, o.command)
    ensures Resume(w, e, metrics, o)
         == Stop(EndNode, w.(state := Cleared(w.state).(report := Some(o.report), finished := true)))
  {
    hide Settle, ValidateEvent, RouteEvent, AsksToEnd;
    var w1 := Looked(w, e, metrics, o);
    LookedAt(w, e, metrics, o);
    ResumeLooks(w, e, metrics, o);
    SettleReport(w1, o);
  }

  /** A timeout pauses or ends the interview, as the session was set up; the question stays. */
  lemma TimeoutPausesOrEnds(w: World, e: InterviewEvent, metrics: Option<DeliveryMetrics>, o: Oracle)
    requires ShapedAt(WaitEvent, w) && !w.state.finished && TimesOut(w.state, e)
    ensures var stop := Resume(w, e, metrics, o);
            && stop.node == (if w.state.setup.pauseOnTimeout then WaitEvent else EndNode)
            && stop.world.state.finished == !w.state.setup.pauseOnTimeout
            && (stop.world.state.finished ==> stop.world.state.report == Some(o.report))
            && SameQuestion(w, stop.world)
  {
    hide Settle, ValidateEvent, RouteEvent;
    var w1 := Looked(w, e, metrics, o);
    LookedAt(w, e, metrics, o);
    ResumeLooks(w, e, metrics, o);
    if e.NoResponseTimeout? {
      SettleTimeout(w1, o);
    } else {
      SettleOnce(HandleSilenceNode, w1, o);
      SettleTimeout(HandleSilence(w1, o), o);
    }
  }

  /** The same question waits in the same set, and nothing was asked or judged. */
  predicate SameQuestion(w: World, w': World) {
    && w'.state.currentQuestion == w.state.currentQuestion && w'.state.mainQuestionId == w.state.mainQuestionId
    && CountersOf(w'.state) == CountersOf(w.state) && w'.state.setup == w.state.setup
    && w'.state.transcript == w.state.transcript
    && w'.ledger == w.ledger && w'.history == w.history
  }

  /**
    A silence: a short one changes nothing; a longer one counts, and gives a hint or says the
    question again, as the session was set up for the first silence and for later ones.
   */
  lemma SilenceHintsOrRepeats(w: World, e: InterviewEvent, metrics: Option<DeliveryMetrics>, o: Oracle)
    requires ShapedAt(WaitEvent, w) && !w.state.finished
    requires Ours(w.state, e) && e.SilenceDetected? && !TimesOut(w.state, e)
    ensures var s, stop := w.state, Resume(w, e, metrics, o);
            var move := if s.silenceCount == 0 then s.setup.silence.firstAction else s.setup.silence.secondAction;
            && stop.node == WaitEvent && !stop.world.state.finished
            && stop.world.state.silenceCount == s.silenceCount + (if CountsAsSilence(s, e) then 1 else 0)
            && (if CountsAsSilence(s, e) && move == GiveHint then
                  && stop.world.state.currentQuestion == Some(o.question)
                  && stop.world.state.mainQuestionId == s.mainQuestionId
                  && stop.world.history == w.history.(asked := w.history.asked + [Asked(o.question, AsHint)])
                  && CountersOf(stop.world.state) == CountersOf(s) && stop.world.ledger == w.ledger
                else SameQuestion(w, stop.world))
  {
    hide Settle, ValidateEvent, RouteEvent;
    var w1 := Looked(w, e, metrics, o);
    LookedAt(w, e, metrics, o);
    ResumeLooks(w, e, metrics, o);
    SettleOnce(HandleSilenceNode, w1, o);
    SettleComposed(HandleSilence(w1, o), o);
    SettleParked(WaitEvent, HandleSilence(w1, o), o);
  }

  // ----- answers -----------------------------------------------------------------------------

  /** Where an answer of some quality leads. */
  lemma RoutedByQuality(s: SessionState, signal: Signal)
    ensures var q, n := signal.quality, RouteAfter(s, signal);
            && (n == HandleOffTopic <==> q == OffTopic)
            && (n == CompleteSetNode <==> ClosesSet(s, q))
            && (Derives(n) <==> q != OffTopic && !ClosesSet(s, q))
            && (Derives(n) ==> RoleOf(n) == AskedFor(q))
  {
  }

  lemma SettleOffTopic(w: World, o: Oracle)
    requires !w.state.finished
    ensures Settle(HandleOffTopic, w, o) == Stop(WaitEvent, w.(state := Cleared(w.state)))
  {
    hide Settle;
    SettleOnce(HandleOffTopic, w, o);
    SettleComposed(w.(state := Cleared(w.state)), o);
  }

  /** Something about the delivery was measured. */
  predicate Measured(metrics: Option<DeliveryMetrics>) {
    && metrics.Some?
    && (metrics.value.speechRate.Some? || metrics.value.fillerCount.Some? || metrics.value.duration.Some?)
  }

  /** The answer has been heard: it is in the transcript, judged, and no silence counts any more. */
  predicate Answered(w: World, e: InterviewEvent, metrics: Option<DeliveryMetrics>, o: Oracle, w': World)
    requires e.AnswerSubmitted? && w.state.currentQuestion.Some?
  {
    var a := AttemptOf(w.state, e, metrics, o.assessed);
    && a.question == w.state.currentQuestion.value && a.answerText == e.text && a.signal == o.assessed.signal
    && a.deliveryMetrics == (if w.state.setup.voice && Measured(metrics) then metrics else None)
    && a.evidenceIds == Ids(o.assessed.evidence)
    && w'.state.transcript
         == w.state.transcript + [Utterance(e.questionId, w.state.currentQuestion.value.kind, e.text)]
    && w'.state.silenceCount == 0 && w'.state.lastSignal == Some(o.assessed.signal)
    && w'.history.judged == w.history.judged + [a]
  }

  /** What the evaluation of an accepted answer leaves, whatever follows. */
  predicate Evaluated(w: World, e: InterviewEvent, metrics: Option<DeliveryMetrics>, o: Oracle, w3: World)
    requires e.AnswerSubmitted? && w.state.currentQuestion.Some?
  {
    && Answered(w, e, metrics, o, w3)
    && w3.ledger == Assess(w.ledger, AttemptOf(w.state, e, metrics, o.assessed), o.assessed.evidence)
    && w3.history.asked == w.history.asked && w3.history.sets == w.history.sets
    && w3.state.mainQuestionId == w.state.mainQuestionId
    && w3.state.currentQuestion == w.state.currentQuestion
    && CountersOf(w3.state) == CountersOf(w.state) && w3.state.setup == w.state.setup
    && w3.state.challengeUsed == w.state.challengeUsed && !w3.state.finished
  }

  lemma HeardIsEvaluated(w: World, e: InterviewEvent, metrics: Option<DeliveryMetrics>, o: Oracle)
    requires ShapedAt(WaitEvent, w) && Accepted(w.state, e, o.command)
    ensures Evaluated(w, e, metrics, o, EvaluateAnswer(Heard(w, e, metrics, o), o))
  {
    AcceptedIsHeard(w, e, metrics, o);
    HeardIsRouted(w, e, metrics, o);
  }

  /** An off-topic answer leaves the question open and the set as it was. */
  predicate StaysOpen(w: World, w': World) {
    && w'.state.currentQuestion == w.state.currentQuestion && CountersOf(w'.state) == CountersOf(w.state)
    && w'.state.mainQuestionId == w.state.mainQuestionId
    && w'.history.asked == w.history.asked && w'.history.sets == w.history.sets
    && w'.ledger.evaluations == w.ledger.evaluations
  }

  /** Another question of the same set was asked, for this purpose. */
  predicate GoesDeeper(w: World, o: Oracle, role: Role, w': World) {
    && w'.state.currentQuestion == Some(o.question)
    && w'.history.asked == w.history.asked + [Asked(o.question, role)]
    && w'.state.mainQuestionId == w.state.mainQuestionId
    && w'.state.askedCount == w.state.askedCount && w'.state.derivedCount == w.state.derivedCount + 1
    && w'.state.challengeUsed == (w.state.challengeUsed || role == AsChallenge)
    && w'.history.sets == w.history.sets && w'.ledger.evaluations == w.ledger.evaluations
  }

  /** The set was evaluated with this answer in it. */
  predicate SetDone(w: World, a: Attempt, w': World) {
    && w'.history.sets == w.history.sets + [w.ledger.current + [a]] && w'.ledger.current == []
    && |w'.ledger.evaluations| == |w.ledger.evaluations| + 1
    && w'.ledger.evaluations[..|w.ledger.evaluations|] == w.ledger.evaluations
    && w.state.mainQuestionId == Some(w'.ledger.evaluations[|w.ledger.evaluations|].questionId)
  }

  /** The next main question was asked, with fresh counters. */
  predicate GoesOn(w: World, o: Oracle, w': World) {
    && w'.state.currentQuestion == Some(o.question)
    && w'.state.mainQuestionId == Some(o.question.questionId)
    && w'.history.asked == w.history.asked + [Asked(o.question, AsMain)]
    && w'.state.askedCount == w.state.askedCount + 1
    && w'.state.derivedCount == 0 && !w'.state.challengeUsed
  }

  lemma SettleSet(w: World, o: Oracle)
    requires ShapedAt(CompleteSetNode, w) && !w.state.finished
    ensures var w1, stop := CompleteQuestionSet(w), Settle(CompleteSetNode, w, o);
            if InLastSet(w.state)
            then stop == Stop(EndNode, w1.(state := Cleared(w1.state).(report := Some(o.report), finished := true)))
            else stop == Stop(WaitEvent, AskMain(w1, o))
  {
    hide Settle, CompleteSet, Completed;
    var w1 := CompleteQuestionSet(w);
    SettleOnce(CompleteSetNode, w, o);
    if InLastSet(w.state) {
      SettleReport(w1, o);
    } else {
      SettleOnce(AskMainNode, w1, o);
      SettleComposed(AskMain(w1, o), o);
    }
  }

  /** What an answer adds to the ledger before it is routed. */
  predicate Judged(w: World, a: Attempt, w3: World) {
    && w3.history.asked == w.history.asked && w3.history.sets == w.history.sets
    && w3.state.mainQuestionId == w.state.mainQuestionId && w.state.mainQuestionId.Some?
    && w3.ledger.evaluations == w.ledger.evaluations
    && w3.ledger.current == w.ledger.current + [a]
  }

  lemma CompletingIsDone(w: World, a: Attempt, w3: World)
    requires Judged(w, a, w3)
    ensures SetDone(w, a, CompleteQuestionSet(w3))
  {
    var id := w.state.mainQuestionId.value;
    EvaluatedFor(w3.ledger.current, id);
  }

  /** The graph has stopped after an accepted answer. */
  predicate Leads(w: World, e: InterviewEvent, metrics: Option<DeliveryMetrics>, o: Oracle, stop: Stop)
    requires e.AnswerSubmitted? && w.state.currentQuestion.Some?
  {
    var q, a, w' := o.assessed.signal.quality, AttemptOf(w.state, e, metrics, o.assessed), stop.world;
    && Answered(w, e, metrics, o, w')
    && w'.state.finished == (ClosesSet(w.state, q) && InLastSet(w.state))
    && stop.node == (if w'.state.finished then EndNode else WaitEvent)
    && (if q == OffTopic then StaysOpen(w, w') && w'.ledger.current == w.ledger.current
        else if ClosesSet(w.state, q) then
          && SetDone(w, a, w')
          && (if InLastSet(w.state)
              then w'.state.report == Some(o.report) && w'.history.asked == w.history.asked
              else GoesOn(w, o, w'))
        else if o.question.parentId == Some(w.state.currentQuestion.value.questionId)
        then GoesDeeper(w, o, AskedFor(q), w') && w'.ledger.current == w.ledger.current + [a]
        else StaysOpen(w, w') && w'.ledger.current == w.ledger.current + [a])
  }

  /**
    Where an accepted answer leads. Off topic, the question stays open. An answer that closes
    its set has it evaluated, and the next main question is asked or the interview ends. Every
    other answer gets the derived question its quality calls for, if that names its parent.
   */
  lemma AnswersLead(w: World, e: InterviewEvent, metrics: Option<DeliveryMetrics>, o: Oracle)
    requires ShapedAt(WaitEvent, w) && !w.state.finished && Accepted(w.state, e, o.command)
    ensures Leads(w, e, metrics, o, Resume(w, e, metrics, o))
  {
    var w3, n := EvaluateAnswer(Heard(w, e, metrics, o), o), RouteAfter(w.state, o.assessed.signal);
    HeardIsEvaluated(w, e, metrics, o);
    HeardIsRouted(w, e, metrics, o);
    RoutedByQuality(w.state, o.assessed.signal);
    if o.assessed.signal.quality == OffTopic {
      OffTopicLeads(w, e, metrics, o, w3);
    } else if Derives(n) {
      DerivedLeads(w, e, metrics, o, w3, n);
    } else {
      SetLeads(w, e, metrics, o, w3);
    }
  }

  lemma OffTopicLeads(w: World, e: InterviewEvent, metrics: Option<DeliveryMetrics>, o: Oracle, w3: World)
    requires e.AnswerSubmitted? && w.state.currentQuestion.Some? && Evaluated(w, e, metrics, o, w3)
    requires o.assessed.signal.quality == OffTopic
    ensures Leads(w, e, metrics, o, Settle(HandleOffTopic, w3, o))
  {
    SettleOffTopic(w3, o);
  }

  lemma DerivedLeads(
    w: World, e: InterviewEvent, metrics: Option<DeliveryMetrics>, o: Oracle, w3: World, n: Node)
    requires e.AnswerSubmitted? && w.state.currentQuestion.Some? && Evaluated(w, e, metrics, o, w3)
    requires Derives(n) && RoleOf(n) == AskedFor(o.assessed.signal.quality)
    requires o.assessed.signal.quality != OffTopic && !ClosesSet(w.state, o.assessed.signal.quality)
    ensures Leads(w, e, metrics, o, Settle(n, w3, o))
  {
    hide Settle, ClosesSet, Keep;
    SettleDerived(n, w3, o);
  }

  lemma SetLeads(w: World, e: InterviewEvent, metrics: Option<DeliveryMetrics>, o: Oracle, w3: World)
    requires e.AnswerSubmitted? && w.state.currentQuestion.Some? && Evaluated(w, e, metrics, o, w3)
    requires ShapedAt(CompleteSetNode, w3)
    requires o.assessed.signal.quality != OffTopic && ClosesSet(w.state, o.assessed.signal.quality)
    ensures Leads(w, e, metrics, o, Settle(CompleteSetNode, w3, o))
  {
    hide Settle, ClosesSet, Keep, Evaluate;
    var a := AttemptOf(w.state, e, metrics, o.assessed);
    SettleSet(w3, o);
    CompletingIsDone(w, a, w3);
  }

  // ----- when an interview ends --------------------------------------------------------------

  lemma EndedIsParked(w: World, e: InterviewEvent, metrics: Option<DeliveryMetrics>, o: Oracle)
    requires ShapedAt(WaitEvent, w) && !w.state.finished
    ensures Resume(w, e, metrics, o).node == RestNode(Resume(w, e, metrics, o).world)
  {
    SettleParks(ValidateNode, WithInput(w, e, metrics), o);
  }

  /**
    An interview ends if and only if the candidate asks for it, in writing or in speech; it
    times out and was not set up to pause; or an accepted answer closes the last set. It ends
    with its report.
   */
  lemma InterviewEndsIff(w: World, e: InterviewEvent, metrics: Option<DeliveryMetrics>, o: Oracle)
    requires ShapedAt(WaitEvent, w) && !w.state.finished
    ensures var stop := Resume(w, e, metrics, o);
            && (stop.world.state.finished <==> Ends(w.state, e, o))
            && stop.node == (if Ends(w.state, e, o) then EndNode else WaitEvent)
            && (Ends(w.state, e, o) ==> stop.world.state.report == Some(o.report))
  {
    hide Resume, Refused, AsksToEnd, AsksToRepeat, Accepted, TimesOut, Answered, SetDone, GoesOn, GoesDeeper;
    var s := w.state;
    EndedIsParked(w, e, metrics, o);
    KindsExclude(s, e, o.command);
    InputsAreSorted(s, e, o.command);
    if AsksToEnd(s, e, o.command) {
      EndingEnds(w, e, metrics, o);
    } else if AsksToRepeat(s, e, o.command) || Refused(s, e, o.command) {
      OtherInputsWait(w, e, metrics, o);
    } else if Accepted(s, e, o.command) {
      AcceptedIsAnswer(s, e, o.command);
      AnswersLead(w, e, metrics, o);
    } else if TimesOut(s, e) {
      TimeoutPausesOrEnds(w, e, metrics, o);
    } else {
      TimeoutIsSorted(s, e);
      SilenceHintsOrRepeats(w, e, metrics, o);
    }
  }

  lemma AcceptedIsAnswer(s: SessionState, e: InterviewEvent, command: VoiceCommand)
    requires Accepted(s, e, command)
    ensures e.AnswerSubmitted? && s.currentQuestion.Some?
  {
  }

  lemma TimeoutIsSorted(s: SessionState, e: InterviewEvent)
    requires !TimesOut(s, e) && Ours(s, e)
    ensures !e.NoResponseTimeout?
  {
  }

  lemma KindsExclude(s: SessionState, e: InterviewEvent, command: VoiceCommand)
    ensures AsksToEnd(s, e, command) || AsksToRepeat(s, e, command) || Refused(s, e, command) ==>
              !TimesOut(s, e) && !Accepted(s, e, command)
    ensures Accepted(s, e, command) ==> !TimesOut(s, e)
    ensures !(AsksToEnd(s, e, command) && (AsksToRepeat(s, e, command) || Refused(s, e, command)))
  {
    if e.AnswerSubmitted? {
      BlankIsStrippedEmpty(e.text);
    }
  }

  // ----- whole interviews --------------------------------------------------------------------

  /** Some input of the interview, met while it was still going on, ends it. */
  predicate WasEnded(w: World, inputs: seq<Input>) {
    exists k :: 0 <= k < |inputs| && EndsAt(w, inputs, k)
  }

  predicate EndsAt(w: World, inputs: seq<Input>, k: nat)
    requires k < |inputs|
  {
    var before := Play(w, inputs[..k]);
    !before.state.finished && Ends(before.state, inputs[k].event, inputs[k].oracle)
  }

  lemma EndedBefore(w: World, inputs: seq<Input>)
    requires inputs != []
    ensures WasEnded(w, inputs) <==>
      WasEnded(w, inputs[..|inputs| - 1]) || EndsAt(w, inputs, |inputs| - 1)
  {
    hide Play, Ends;
    var init := inputs[..|inputs| - 1];
    forall k | 0 <= k < |init| ensures EndsAt(w, inputs, k) <==> EndsAt(w, init, k) {
      assert inputs[..k] == init[..k];
    }
  }

  /** A session is finished if and only if some input ended it; nothing else ever does. */
  lemma {:induction false} FinishedIffEnded(setup: Setup, o: Oracle, inputs: seq<Input>)
    ensures Play(Opening(setup, o), inputs).state.finished <==> WasEnded(Opening(setup, o), inputs)
    decreases |inputs|
  {
    var w0 := Opening(setup, o);
    OpeningRests(setup, o);
    if inputs != [] {
      hide Resume, Ends, AtRest, Opening, WasEnded;
      var init, last := inputs[..|inputs| - 1], inputs[|inputs| - 1];
      var w := Play(w0, init);
      FinishedIffEnded(setup, o, init);
      InterviewStaysSound(setup, o, init);
      EndedBefore(w0, inputs);
      if !w.state.finished {
        RestWaits(w);
        InterviewEndsIff(w, last.event, last.metrics, last.oracle);
      }
    } else {
      assert !WasEnded(w0, inputs);
    }
  }

  lemma RestWaits(w: World)
    requires AtRest(w) && !w.state.finished
    ensures ShapedAt(WaitEvent, w)
  {
  }

  // ----- evaluations and main questions --------------------------------------------------------

  /** The ids of the main questions, in the order in which they were asked. */
  function MainIds(log: seq<Asked>): seq<string> {
    if log == [] then []
    else
      var last := log[|log| - 1];
      MainIds(log[..|log| - 1]) + if last.role == AsMain then [last.question.questionId] else []
  }

  lemma MainIdsSnoc(log: seq<Asked>, a: Asked)
    ensures MainIds(log + [a]) == MainIds(log) + if a.role == AsMain then [a.question.questionId] else []
  {
    assert (log + [a])[..|log|] == log;
  }

  function EvaluationIds(evaluations: seq<Evaluation>): (ids: seq<string>)
    ensures |ids| == |evaluations|
    ensures forall i :: 0 <= i < |ids| ==> ids[i] == evaluations[i].questionId
  {
    seq(|evaluations|, i requires 0 <= i < |evaluations| => evaluations[i].questionId)
  }

  /** Evaluations are of the main questions in order; while the interview goes on, the last is open. */
  predicate InStep(w: World) {
    var mains, ids := MainIds(w.history.asked), EvaluationIds(w.ledger.evaluations);
    && ids <= mains
    && (!w.state.finished ==> w.state.mainQuestionId.Some? && mains == ids + [w.state.mainQuestionId.value])
  }

  lemma SameStep(w: World, w': World)
    requires InStep(w) && !w.state.finished
    requires MainIds(w'.history.asked) == MainIds(w.history.asked)
    requires EvaluationIds(w'.ledger.evaluations) == EvaluationIds(w.ledger.evaluations)
    requires w'.state.mainQuestionId == w.state.mainQuestionId
    ensures InStep(w')
  {
  }

  lemma DoneIsNextId(w: World, a: Attempt, w': World)
    requires InStep(w) && !w.state.finished && SetDone(w, a, w')
    ensures EvaluationIds(w'.ledger.evaluations) == MainIds(w.history.asked)
  {
    var ids, ids' := EvaluationIds(w.ledger.evaluations), EvaluationIds(w'.ledger.evaluations);
    forall i | 0 <= i < |ids| ensures ids'[i] == ids[i] {
      assert w'.ledger.evaluations[..|w.ledger.evaluations|][i] == w'.ledger.evaluations[i];
    }
    assert ids' == ids + [w.state.mainQuestionId.value];
  }

  lemma AnswerKeepsStep(w: World, e: InterviewEvent, metrics: Option<DeliveryMetrics>, o: Oracle, stop: Stop)
    requires InStep(w) && !w.state.finished && e.AnswerSubmitted? && w.state.currentQuestion.Some?
    requires Leads(w, e, metrics, o, stop)
    ensures InStep(stop.world)
  {
    hide MainIds, Answered, ClosesSet;
    var q, a, w' := o.assessed.signal.quality, AttemptOf(w.state, e, metrics, o.assessed), stop.world;
    MainIdsSnoc(w.history.asked, Asked(o.question, AskedFor(q)));
    MainIdsSnoc(w.history.asked, Asked(o.question, AsMain));
    if q != OffTopic && ClosesSet(w.state, q) {
      DoneIsNextId(w, a, w');
    } else {
      if q != OffTopic {
        DerivedIsNoMain(w.state, q);
      }
      SameStep(w, w');
    }
  }

  lemma DerivedIsNoMain(s: SessionState, q: Quality)
    requires q != OffTopic && !ClosesSet(s, q)
    ensures AskedFor(q) != AsMain
  {
  }

  lemma SilenceKeepsStep(w: World, e: InterviewEvent, metrics: Option<DeliveryMetrics>, o: Oracle)
    requires ShapedAt(WaitEvent, w) && !w.state.finished && InStep(w)
    requires Ours(w.state, e) && e.SilenceDetected? && !TimesOut(w.state, e)
    ensures InStep(Resume(w, e, metrics, o).world)
  {
    hide Resume, MainIds, TimesOut;
    SilenceHintsOrRepeats(w, e, metrics, o);
    MainIdsSnoc(w.history.asked, Asked(o.question, AsHint));
    SameStep(w, Resume(w, e, metrics, o).world);
  }

  lemma ResumeKeepsStep(w: World, e: InterviewEvent, metrics: Option<DeliveryMetrics>, o: Oracle)
    requires ShapedAt(WaitEvent, w) && !w.state.finished && InStep(w)
    ensures InStep(Resume(w, e, metrics, o).world)
  {
    hide Resume, Refused, AsksToEnd, AsksToRepeat, Accepted, TimesOut, MainIds, ClosesSet;
    var s := w.state;
    InputsAreSorted(s, e, o.command);
    if AsksToEnd(s, e, o.command) {
      EndingEnds(w, e, metrics, o);
    } else if AsksToRepeat(s, e, o.command) || Refused(s, e, o.command) {
      OtherInputsWait(w, e, metrics, o);
    } else if Accepted(s, e, o.command) {
      AcceptedIsAnswer(s, e, o.command);
      AnswersLead(w, e, metrics, o);
      AnswerKeepsStep(w, e, metrics, o, Resume(w, e, metrics, o));
    } else if TimesOut(s, e) {
      TimeoutPausesOrEnds(w, e, metrics, o);
    } else {
      TimeoutIsSorted(s, e);
      SilenceKeepsStep(w, e, metrics, o);
    }
  }

  /**
    Evaluations follow the main questions: the i-th evaluation is of the i-th main question that
    was asked, and while the interview goes on, exactly the newest main question has none yet.
   */
  lemma {:induction false} EvaluationsFollowMainQuestions(setup: Setup, o: Oracle, inputs: seq<Input>)
    ensures InStep(Play(Opening(setup, o), inputs))
    decreases |inputs|
  {
    if inputs == [] {
      OpeningIsGreeting(setup, o);
      MainIdsSnoc([], Asked(o.question, AsMain));
    } else {
      hide Resume, AtRest, Opening, InStep;
      var init, last := inputs[..|inputs| - 1], inputs[|inputs| - 1];
      var w := Play(Opening(setup, o), init);
      EvaluationsFollowMainQuestions(setup, o, init);
      InterviewStaysSound(setup, o, init);
      if !w.state.finished {
        RestWaits(w);
        ResumeKeepsStep(w, last.event, last.metrics, last.oracle);
      }
    }
  }
}
