/** The values exchanged while a spoken answer is being collected. */
module TurnModels {
  import opened Wrappers
  import opened Text

  datatype SemanticState = Complete | Incomplete | Ambiguous

  datatype Likelihood = Low | Medium | High

  datatype RecommendedAction = AutoSubmit | KeepListening | AskConfirmation

  datatype ReasonCode =
    | SaidFinished
    | CompleteThought
    | UnfinishedClause
    | EnumerationInProgress
    | Hesitation
    | InsufficientContext

  datatype Decision = Decision(
    semanticState: SemanticState,
    linguisticallyClosed: bool,
    questionSatisfied: bool,
    continuationExpected: Likelihood,
    explicitCompletion: bool,
    action: RecommendedAction,
    confidence: real,
    reasonCode: ReasonCode)

  /** What the decision validator accepts; the language model is otherwise free. */
  predicate ValidDecision(d: Decision) {
    && 0.0 <= d.confidence <= 1.0
    && (d.action == AutoSubmit ==> d.semanticState == Complete)
    && (d.action == AskConfirmation ==> d.semanticState == Ambiguous)
    && (d.explicitCompletion ==> d.semanticState != Incomplete)
  }

  /** A verdict bound to the question and revision it was reached for. */
  datatype JudgeResult = JudgeResult(
    questionId: string, revision: nat, decision: Decision, fallbackUsed: bool)

  /** The decision used when the language model fails. */
  const FALLBACK_DECISION :=
    Decision(Ambiguous, false, false, High, false, KeepListening, 0.0, InsufficientContext)

  /** The judge returns a validated decision, or the fallback. */
  predicate ValidResult(r: JudgeResult) {
    ValidDecision(r.decision) && (r.fallbackUsed ==> r.decision == FALLBACK_DECISION)
  }

  datatype Intent = Finish | Continue | AnswerContent | Unknown

  datatype IntentDecision = IntentDecision(
    intent: Intent, answerContent: Option<string>, confidence: real)

  /** What the confirmation-intent validator accepts. */
  predicate ValidIntent(d: IntentDecision) {
    && 0.0 <= d.confidence <= 1.0
    && (d.intent == AnswerContent <==> d.answerContent.Some?)
    && (d.answerContent.Some? ==>
          !Blank(d.answerContent.value) && Strip(d.answerContent.value) == d.answerContent.value)
  }

  /** Durations arrive as floating-point numbers and may be infinite or not a number. */
  datatype Seconds = Finite(value: real) | NonFinite

  datatype DeliveryMetrics = DeliveryMetrics(
    speechRate: Option<real>, fillerCount: Option<nat>, duration: Option<real>)
}
