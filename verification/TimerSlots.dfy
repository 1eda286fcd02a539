/**
  The five task slots of a coordinator, and why the right timer is always running.

  A slot holds the timer that was started last and not asked to stop. This module runs the
  handlers of one connection back to back: within a handler, between leaving its section and
  starting a timer, the slot may still be empty.
 */
module TimerSlots {
  import opened Wrappers
  import opened Text
  import opened TurnModels
  import opened BufferSpec
  import opened CoordinatorSpec
  import opened TurnHistory
  import opened TurnLifecycle
  import opened TurnGuarantees
  import opened TurnProgress

  datatype Tasks = Tasks(
    commit: Option<Timer>,
    stall: Option<Timer>,
    delay: Option<Timer>,
    ready: Option<Timer>,
    response: Option<Timer>)

  const NO_TASKS := Tasks(None, None, None, None, None)

  // ----- starting and stopping -------------------------------------------------------------

  function CancelConfirmationTasks(t: Tasks): Tasks {
    t.(delay := None, ready := None, response := None)
  }

  /** A task that is already submitting is left to finish. */
  function CancelCommitTask(t: Tasks, b: Buf): Tasks {
    if b.state == Committing then t else t.(commit := None)
  }

  function ScheduleCommitTask(t: Tasks, b: Buf): Tasks {
    CancelConfirmationTasks(t).(stall := None, commit := Some(CommitGrace(b.questionId, b.revision)))
  }

  /** A final answer that says something, while the buffer listens: what a stall timer is for. */
  predicate Stallable(b: Buf) {
    b.state == Listening && b.segmentFinal && !Blank(b.answerText)
  }

  function MaybeStall(t: Tasks, b: Buf): Tasks {
    if Stallable(b) then t.(stall := Some(Stall(b.questionId, b.revision))) else t
  }

  /** What follows a policy, outside the lock. */
  function Dispatch(t: Tasks, p: Policy, b: Buf): Tasks {
    match p
    case ScheduleCommit(_) => ScheduleCommitTask(t, b)
    case ScheduleConfirmation => t.(stall := None, delay := Some(ConfirmationDelay(b.questionId, b.revision)))
    case KeepOn(_) => MaybeStall(t, b)
    case Defer => MaybeStall(t, b)
  }

  function DispatchIfAny(t: Tasks, o: Outcome): Tasks {
    if o.policy.Some? then Dispatch(t, o.policy.value, o.buf) else t
  }

  // ----- handlers --------------------------------------------------------------------------

  function ConnectTasks(t: Tasks, b: Buf): Tasks {
    CancelCommitTask(CancelConfirmationTasks(t), b).(stall := None)
  }

  /** New speech or a new transcript stops whatever waited for the old state. */
  function Stopped(t: Tasks, b: Buf, b1: Buf): Tasks {
    var t1 := t.(stall := None);
    var t2 := if ConfirmationState(b.state) then CancelConfirmationTasks(t1) else t1;
    if b.state == CompleteCandidate then CancelCommitTask(t2, b1) else t2
  }

  function StopForTranscript(t: Tasks, b: Buf, o: Outcome): Tasks {
    DispatchIfAny(Stopped(t, b, o.buf), o)
  }

  /** `accepted` is whether the worker took the snapshot that every transcript offers it. */
  function TranscriptTasks(t: Tasks, b: Buf, o: Outcome, accepted: bool): Tasks {
    if o.error.Some? then t
    else if !accepted && o.policy.None? then MaybeStall(StopForTranscript(t, b, o), o.buf)
    else StopForTranscript(t, b, o)
  }

  function ActivityTasks(t: Tasks, b: Buf, o: Outcome, active: bool): Tasks {
    if o.error.Some? then t
    else
      var t1 :=
        if active then Stopped(t, b, o.buf) else if o.policy.None? then MaybeStall(t, o.buf) else t;
      DispatchIfAny(t1, o)
  }

  function ReadyTasks(t: Tasks, b: Buf, o: Outcome, id: string, q: string, r: nat): Tasks {
    if o.error.Some? || b.state == ConfirmingEnd then t
    else t.(ready := None, response := Some(ResponseTimeout(q, r, id)))
  }

  function ResponseSpeechTasks(
    t: Tasks, b: Buf, o: Outcome, id: string, q: string, r: nat, active: bool): Tasks
  {
    if o.error.Some? || b.responseSpeechActive == active then t
    else t.(response := if active then None else Some(ResponseTimeout(q, r, id)))
  }

  /** The response timeout stops as soon as the response is expected, before it is classified. */
  function ResponseTasks(
    t: Tasks, b: Buf, o: Outcome, id: string, q: string, r: nat, d: IntentDecision): Tasks
  {
    if !ResponseExpected(b, id, q, r) then t
    else
      var t1 := t.(response := None);
      if o.error.Some? || d.intent == AnswerContent then t1
      else if d.intent == Finish then ScheduleCommitTask(t1, o.buf)
      else MaybeStall(t1, o.buf)
  }

  function Fired(t: Tasks, timer: Timer): Tasks {
    match timer
    case CommitGrace(_, _) => if t.commit == Some(timer) then t.(commit := None) else t
    case Stall(_, _) => if t.stall == Some(timer) then t.(stall := None) else t
    case ConfirmationDelay(_, _) => if t.delay == Some(timer) then t.(delay := None) else t
    case ReadyTimeout(_, _, _) => if t.ready == Some(timer) then t.(ready := None) else t
    case ResponseTimeout(_, _, _) => if t.response == Some(timer) then t.(response := None) else t
  }

  /** A prompt that was begun is waited for. */
  function DelayTasks(t: Tasks, timer: Timer, o: Outcome, b: Buf, id: string): Tasks
    requires timer.ConfirmationDelay?
  {
    if o.buf == b then Fired(t, timer)
    else Fired(t, timer).(ready := Some(ReadyTimeout(timer.question, timer.revision, Strip(id))))
  }

  function TimerTasks(cfg: Config, turn: Turn, t: Tasks, timer: Timer, id: string): Tasks {
    var b := turn.buf;
    match timer
    case CommitGrace(_, _) => Fired(t, timer)
    case Stall(q, r) => DispatchIfAny(Fired(t, timer), StallFires(cfg, b, q, r))
    case ConfirmationDelay(q, r) =>
      if Fresh(turn.dialogue, id) then DelayTasks(t, timer, DelayFires(cfg, b, q, r, id), b, id) else t
    case ReadyTimeout(_, _, _) => Fired(t, timer)
    case ResponseTimeout(q, r, i) => DispatchIfAny(Fired(t, timer), ResponseTimeoutFires(b, q, r, i))
  }

  /** The slots after a handler that ran the action's section. */
  function NextTasks(cfg: Config, turn: Turn, t: Tasks, a: Action, accepted: bool): Tasks {
    var b := turn.buf;
    match a
    case Connect => ConnectTasks(t, b)
    case Hear(eq, q, r, text, info) => TranscriptTasks(t, b, Transcript(cfg, b, eq, q, r, text, info), accepted)
    case Speak(q, r, active) => ActivityTasks(t, b, Activity(cfg, b, q, r, active), active)
    case Acknowledge(id, q, r) => ReadyTasks(t, b, ResponseReady(b, id, q, r), id, q, r)
    case RespondSpeech(id, q, r, active) =>
      ResponseSpeechTasks(t, b, ResponseActivity(b, id, q, r, active), id, q, r, active)
    case Respond(id, q, r, rr, d) => ResponseTasks(t, b, Response(b, id, q, r, rr, d), id, q, r, d)
    case Settle(k) =>
      if k < |turn.evidence.verdicts| && k in turn.evidence.recorded
      then DispatchIfAny(t, HandleResult(cfg, b, turn.evidence.verdicts[k].result)) else t
    case Fire(timer, id) => TimerTasks(cfg, turn, t, timer, id)
    case Disconnect => ConnectTasks(t, b)
    case RollBackPrompt(_) => t.(ready := None)
    case RollBackCandidate(q, r) => Fired(t, CommitGrace(q, r))
    case _ => t
  }

  /** A connection that arrives or leaves stops every timer, unless it is already submitting. */
  lemma ConnectingStopsTimers(cfg: Config, turn: Turn, t: Tasks, a: Action, accepted: bool)
    requires a.Connect? || a.Disconnect?
    ensures NextTasks(cfg, turn, t, a, accepted)
         == if turn.buf.state == Committing then NO_TASKS.(commit := t.commit) else NO_TASKS
  {
  }

  // ----- the right timer -------------------------------------------------------------------

  /** In every state that waits for a timer, the slot holds the one that matches the buffer. */
  predicate RightTimer(b: Buf, t: Tasks) {
    match b.state
    case CompleteCandidate => t.commit == Some(CommitGrace(b.questionId, b.revision))
    case ConfirmationPending => t.delay == Some(ConfirmationDelay(b.questionId, b.revision))
    case ConfirmationPrompting =>
      b.confirmationId.Some?
      && t.ready == Some(ReadyTimeout(b.questionId, b.revision, b.confirmationId.value))
    case ConfirmingEnd =>
      b.responseSpeechActive
      || (b.confirmationId.Some?
          && t.response == Some(ResponseTimeout(b.questionId, b.revision, b.confirmationId.value)))
    case _ => true
  }

  /** A response the interview cannot use: its revision does not go beyond the answer's. */
  predicate Unusable(b: Buf, a: Action) {
    && a.Respond? && ResponseExpected(b, a.id, a.question, a.revision)
    && a.intent.intent == AnswerContent && a.responseRevision <= b.revision
    && !b.responseSpeechActive
  }

  /**
    Events of an open connection. The classifier's answers are validated, and a prompt that
    could not be sent is taken back before anything else happens.
   */
  predicate Served(b: Buf, a: Action) {
    && !a.Connect? && !a.Disconnect?
    && (a.Respond? ==> ValidIntent(a.intent))
    && (a.RollBackPrompt? ==> b.confirmationId == Some(a.id))
  }

  /** Applying a decision changes the state only with the policy that starts the timer for it. */
  lemma DecideSchedules(cfg: Config, b: Buf, d: Decision, revision: nat, fallback: bool, t: Tasks)
    requires RightTimer(b, t)
    ensures RightTimer(Decide(cfg, b, d, revision, fallback).buf, DispatchIfAny(t, Decide(cfg, b, d, revision, fallback)))
  {
    hide Decide;
    DecisionTells(cfg, b, d, revision, fallback);
  }

  lemma CarryKeepsTimer(cfg: Config, b: Buf, b1: Buf, d: Decision, t: Tasks, accepted: bool)
    requires b.state == CompleteCandidate && b1.state == Listening
    ensures var o := CarryDecision(cfg, b1, d);
            RightTimer(o.buf, TranscriptTasks(t, b, o, accepted))
  {
    var b2 := RecordDecision(b1, JudgeResult(b1.questionId, b1.revision, d, false)).buf;
    DecideSchedules(cfg, b2, d, b1.revision, false, t.(stall := None, commit := None));
  }

  lemma TranscriptKeepsTimer(
    cfg: Config, b: Buf, eq: bool, q: string, r: nat, text: string, info: SnapshotInfo, t: Tasks, accepted: bool)
    requires Sound(b) && ValidConfig(cfg) && RightTimer(b, t)
    ensures var o := Transcript(cfg, b, eq, q, r, text, info);
            RightTimer(o.buf, TranscriptTasks(t, b, o, accepted))
  {
    FailedTranscriptChangesNothing(cfg, b, eq, q, r, text, info);
    if Transcript(cfg, b, eq, q, r, text, info).error.None? {
      TranscriptTaken(cfg, b, eq, q, r, text, info);
      if !(eq && r == b.revision) && RepeatsJudgedAnswer(b, text, info) {
        CarryKeepsTimer(cfg, b, Heard(b, r, text, info), b.decision.value, t, accepted);
      }
    }
  }

  lemma ActivityKeepsTimer(cfg: Config, b: Buf, q: string, r: nat, active: bool, t: Tasks)
    requires Sound(b) && ValidConfig(cfg) && RightTimer(b, t)
    ensures var o := Activity(cfg, b, q, r, active);
            RightTimer(o.buf, ActivityTasks(t, b, o, active))
  {
    FailedActivityChangesNothing(cfg, b, q, r, active);
    var reply := UpdateSpeech(b, q, r, active);
    if reply.Returned? && reply.buf.decision.Some? {
      DecideSchedules(cfg, reply.buf, reply.buf.decision.value, r, false, t);
    }
  }

  lemma ReadyKeepsTimer(b: Buf, id: string, q: string, r: nat, t: Tasks)
    requires RightTimer(b, t)
    ensures var o := ResponseReady(b, id, q, r);
            RightTimer(o.buf, ReadyTasks(t, b, o, id, q, r))
  {
  }

  lemma ResponseSpeechKeepsTimer(b: Buf, id: string, q: string, r: nat, active: bool, t: Tasks)
    requires RightTimer(b, t)
    ensures var o := ResponseActivity(b, id, q, r, active);
            RightTimer(o.buf, ResponseSpeechTasks(t, b, o, id, q, r, active))
  {
  }

  /** The right timer runs after a response. */
  predicate AfterResponse(b: Buf, id: string, q: string, r: nat, rr: nat, d: IntentDecision, t: Tasks) {
    RightTimer(Response(b, id, q, r, rr, d).buf, ResponseTasks(t, b, Response(b, id, q, r, rr, d), id, q, r, d))
  }

  lemma FinishKeepsTimer(cfg: Config, b: Buf, id: string, q: string, r: nat, rr: nat, d: IntentDecision, t: Tasks)
    requires Sound(b) && Talks(cfg, b) && ResponseExpected(b, id, q, r) && d.intent == Finish
    ensures AfterResponse(b, id, q, r, rr, d, t)
  {
    assert MarkUserConfirmed(b, q, id, r).Returned?;
  }

  lemma OtherKeepsTimer(b: Buf, id: string, q: string, r: nat, rr: nat, d: IntentDecision, t: Tasks)
    requires ResponseExpected(b, id, q, r) && d.intent != Finish && d.intent != AnswerContent
    ensures AfterResponse(b, id, q, r, rr, d, t)
  {
    assert Response(b, id, q, r, rr, d).buf.state == Listening;
  }

  lemma ContentKeepsTimer(b: Buf, id: string, q: string, r: nat, rr: nat, d: IntentDecision, t: Tasks)
    requires ResponseExpected(b, id, q, r) && d.intent == AnswerContent && rr > b.revision
    requires ValidIntent(d)
    ensures AfterResponse(b, id, q, r, rr, d, t)
  {
    assert ApplyIntent(b, q, id, r, d, Some(rr)).Returned?;
    assert Response(b, id, q, r, rr, d).buf.state == Listening;
  }

  lemma RefusedResponse(b: Buf, id: string, q: string, r: nat, rr: nat, d: IntentDecision)
    requires ResponseExpected(b, id, q, r) && d.intent == AnswerContent && rr <= b.revision
    ensures Response(b, id, q, r, rr, d) == Failed(b, FromBuffer(InvalidTransition))
  {
  }

  lemma RefusedKeepsTimer(b: Buf, id: string, q: string, r: nat, rr: nat, d: IntentDecision, t: Tasks)
    requires ResponseExpected(b, id, q, r) && d.intent == AnswerContent && rr <= b.revision
    requires b.responseSpeechActive
    ensures AfterResponse(b, id, q, r, rr, d, t)
  {
    RefusedResponse(b, id, q, r, rr, d);
  }

  lemma StaleResponseKeepsTimer(b: Buf, id: string, q: string, r: nat, rr: nat, d: IntentDecision, t: Tasks)
    requires !ResponseExpected(b, id, q, r) && RightTimer(b, t)
    ensures AfterResponse(b, id, q, r, rr, d, t)
  {
  }

  lemma UsableResponseKeepsTimer(
    cfg: Config, b: Buf, id: string, q: string, r: nat, rr: nat, d: IntentDecision, t: Tasks)
    requires Sound(b) && Talks(cfg, b) && RightTimer(b, t) && ValidIntent(d)
    requires !(ResponseExpected(b, id, q, r) && d.intent == AnswerContent && rr <= b.revision
               && !b.responseSpeechActive)
    ensures AfterResponse(b, id, q, r, rr, d, t)
  {
    if !ResponseExpected(b, id, q, r) {
      StaleResponseKeepsTimer(b, id, q, r, rr, d, t);
    } else if d.intent == Finish {
      FinishKeepsTimer(cfg, b, id, q, r, rr, d, t);
    } else if d.intent != AnswerContent {
      OtherKeepsTimer(b, id, q, r, rr, d, t);
    } else if rr > b.revision {
      ContentKeepsTimer(b, id, q, r, rr, d, t);
    } else {
      RefusedKeepsTimer(b, id, q, r, rr, d, t);
    }
  }

  lemma UnusableResponseStopsTimer(b: Buf, a: Action, t: Tasks)
    requires Unusable(b, a)
    ensures var o := Response(b, a.id, a.question, a.revision, a.responseRevision, a.intent);
            && o.buf == b && !RightTimer(o.buf, ResponseTasks(t, b, o, a.id, a.question, a.revision, a.intent))
            && ResponseTasks(t, b, o, a.id, a.question, a.revision, a.intent).response.None?
  {
    RefusedResponse(b, a.id, a.question, a.revision, a.responseRevision, a.intent);
  }

  lemma TimersKeepTimer(cfg: Config, turn: Turn, timer: Timer, id: string, t: Tasks)
    requires Owned(cfg, turn.buf, turn.evidence) && RightTimer(turn.buf, t)
    ensures RightTimer(TimerFires(cfg, turn, timer, id), TimerTasks(cfg, turn, t, timer, id))
  {
    var b := turn.buf;
    if !Matches(b, timer) {
      OtherTimerDoesNothing(cfg, turn, timer, id);
    } else {
      match timer
      case CommitGrace(q, r) => GraceStarts(b, q, r);
      case Stall(q, r) => StallLeaves(cfg, b, q, r); StallSchedules(cfg, b, q, r, Fired(t, timer));
      case ConfirmationDelay(q, r) => if Fresh(turn.dialogue, id) { PromptMoves(cfg, b, q, r, id); }
      case ReadyTimeout(q, r, i) =>
      case ResponseTimeout(q, r, i) =>
    }
  }

  lemma StallSchedules(cfg: Config, b: Buf, q: string, r: nat, t: Tasks)
    requires Sound(b) && Talks(cfg, b) && Stalled(b, q, r)
    ensures RightTimer(StallFires(cfg, b, q, r).buf, DispatchIfAny(t, StallFires(cfg, b, q, r)))
  {
    StallTells(cfg, b, q, r);
    hide StallFires;
  }

  lemma RollbackKeepsTimer(b: Buf, id: string, t: Tasks)
    requires RightTimer(b, t) && (b.state == ConfirmationPrompting ==> b.confirmationId == Some(id))
    ensures RightTimer(RollbackPrompt(b, id), t.(ready := None))
  {
  }

  lemma SettleKeepsTimer(cfg: Config, turn: Turn, k: nat, t: Tasks)
    requires RightTimer(turn.buf, t)
    ensures RightTimer(Section(cfg, turn, Settle(k)), NextTasks(cfg, turn, t, Settle(k), false))
  {
    if k < |turn.evidence.verdicts| {
      var r := turn.evidence.verdicts[k].result;
      DecideSchedules(cfg, turn.buf, r.decision, r.revision, r.fallbackUsed, t);
    }
  }

  // ----- no other timer --------------------------------------------------------------------

  /**
    Every timer that a slot holds matches the buffer. The response slot is left out: a prompt
    that is taken back after the client was ready leaves its response timeout behind.
   */
  predicate SlotsMatch(b: Buf, t: Tasks) {
    && (t.commit.Some? ==> t.commit.value.CommitGrace? && Matches(b, t.commit.value))
    && (t.stall.Some? ==> t.stall.value.Stall? && Matches(b, t.stall.value))
    && (t.delay.Some? ==> t.delay.value.ConfirmationDelay? && Matches(b, t.delay.value))
    && (t.ready.Some? ==> t.ready.value.ReadyTimeout? && Matches(b, t.ready.value))
    && (t.response.Some? ==> t.response.value.ResponseTimeout?)
  }

  /** No slot but the response slot holds a timer. */
  predicate OnlyResponse(t: Tasks) {
    && t.commit.None? && t.stall.None? && t.delay.None? && t.ready.None?
    && (t.response.Some? ==> t.response.value.ResponseTimeout?)
  }

  predicate StallHeld(b: Buf, t: Tasks) {
    t.stall == Some(Stall(b.questionId, b.revision))
  }

  /** The slots match, and a stall timer runs if the buffer listens to a final answer. */
  predicate Restarted(b: Buf, t: Tasks) {
    SlotsMatch(b, t) && (Stallable(b) ==> StallHeld(b, t))
  }

  /** Applying a decision to a listening buffer restarts the timer its policy needs. */
  lemma DecideSlots(cfg: Config, b: Buf, d: Decision, revision: nat, fallback: bool, t: Tasks)
    requires b.state == Listening && SlotsMatch(b, t)
    ensures var o := Decide(cfg, b, d, revision, fallback);
            && SlotsMatch(o.buf, DispatchIfAny(t, o))
            && (o.error.None? ==> Restarted(o.buf, DispatchIfAny(t, o)))
  {
    hide Decide;
    DecisionTells(cfg, b, d, revision, fallback);
  }

  lemma StoppedSlots(b: Buf, t: Tasks, b1: Buf)
    requires SlotsMatch(b, t) && b1.state != Committing
    ensures OnlyResponse(Stopped(t, b, b1))
  {
  }

  lemma CarrySlots(cfg: Config, b: Buf, d: Decision, t: Tasks)
    requires Sound(b) && ValidConfig(cfg) && b.state == Listening && OnlyResponse(t)
    ensures var o := CarryDecision(cfg, b, d);
            && o.error.None? && o.policy.Some? && o.buf.state != Committing
            && Restarted(o.buf, DispatchIfAny(t, o))
  {
    var b2 := RecordDecision(b, JudgeResult(b.questionId, b.revision, d, false)).buf;
    CarrySucceeds(cfg, b, d);
    DecideSlots(cfg, b2, d, b.revision, false, t);
    DecideDecides(cfg, b2, d, b.revision, false);
  }

  /** A transcript that is taken restarts the stall timer, unless the worker has its snapshot. */
  lemma TranscriptSlots(
    cfg: Config, b: Buf, eq: bool, q: string, r: nat, text: string, info: SnapshotInfo, t: Tasks, accepted: bool)
    requires Sound(b) && ValidConfig(cfg) && SlotsMatch(b, t)
    ensures var o := Transcript(cfg, b, eq, q, r, text, info);
            var t' := TranscriptTasks(t, b, o, accepted);
            && SlotsMatch(o.buf, t')
            && (if o.error.Some? then o.buf == b && t' == t else accepted || Restarted(o.buf, t'))
  {
    var o := Transcript(cfg, b, eq, q, r, text, info);
    FailedTranscriptChangesNothing(cfg, b, eq, q, r, text, info);
    if o.error.None? {
      TakenSlots(cfg, b, eq, q, r, text, info, t, accepted);
    }
  }

  lemma TakenSlots(
    cfg: Config, b: Buf, eq: bool, q: string, r: nat, text: string, info: SnapshotInfo, t: Tasks, accepted: bool)
    requires Sound(b) && ValidConfig(cfg) && SlotsMatch(b, t)
    requires Transcript(cfg, b, eq, q, r, text, info).error.None?
    ensures var o := Transcript(cfg, b, eq, q, r, text, info);
            var t' := TranscriptTasks(t, b, o, accepted);
            SlotsMatch(o.buf, t') && (accepted || Restarted(o.buf, t'))
  {
    var heard := Heard(b, r, text, info);
    TranscriptTaken(cfg, b, eq, q, r, text, info);
    StoppedSlots(b, t, heard);
    if !(eq && r == b.revision) && RepeatsJudgedAnswer(b, text, info) {
      CarrySlots(cfg, heard, b.decision.value, Stopped(t, b, heard));
      assert Stopped(t, b, CarryDecision(cfg, heard, b.decision.value).buf) == Stopped(t, b, heard);
    }
  }

  lemma ActivitySlots(cfg: Config, b: Buf, q: string, r: nat, active: bool, t: Tasks)
    requires Sound(b) && ValidConfig(cfg) && SlotsMatch(b, t)
    ensures var o := Activity(cfg, b, q, r, active);
            var t' := ActivityTasks(t, b, o, active);
            && SlotsMatch(o.buf, t')
            && (if o.error.Some? then o.buf == b && t' == t else Restarted(o.buf, t'))
  {
    var o := Activity(cfg, b, q, r, active);
    FailedActivityChangesNothing(cfg, b, q, r, active);
    if o.error.None? {
      var b1 := UpdateSpeech(b, q, r, active).buf;
      if active {
        assert o.buf == b1 && b1.state == Listening && !b1.segmentFinal;
        StoppedSlots(b, t, b1);
      } else if o.policy.Some? {
        DecideSlots(cfg, b1, b1.decision.value, r, false, t);
      }
    }
  }

  lemma ResponseSlots(b: Buf, id: string, q: string, r: nat, rr: nat, d: IntentDecision, t: Tasks)
    requires SlotsMatch(b, t)
    ensures var o := Response(b, id, q, r, rr, d);
            var t' := ResponseTasks(t, b, o, id, q, r, d);
            && SlotsMatch(o.buf, t')
            && (o.buf == b || Restarted(o.buf, t'))
  {
    if ResponseExpected(b, id, q, r) {
      var o := Response(b, id, q, r, rr, d);
      assert OnlyResponse(t.(response := None));
      assert
        || o.buf == b || o.buf.state == CompleteCandidate
        || (o.buf.state == Listening && (d.intent == AnswerContent ==> !o.buf.segmentFinal));
    }
  }

  lemma FiredSlots(b: Buf, t: Tasks, timer: Timer)
    requires SlotsMatch(b, t)
    ensures SlotsMatch(b, Fired(t, timer))
    ensures Matches(b, timer) ==> OnlyResponse(Fired(t, timer))
  {
  }

  lemma TimerSlotsMatch(cfg: Config, turn: Turn, timer: Timer, id: string, t: Tasks)
    requires Owned(cfg, turn.buf, turn.evidence) && SlotsMatch(turn.buf, t)
    ensures SlotsMatch(TimerFires(cfg, turn, timer, id), TimerTasks(cfg, turn, t, timer, id))
  {
    var b := turn.buf;
    FiredSlots(b, t, timer);
    if !Matches(b, timer) {
      OtherTimerDoesNothing(cfg, turn, timer, id);
    } else {
      match timer
      case CommitGrace(q, r) => GraceStarts(b, q, r);
      case Stall(q, r) => StallLeaves(cfg, b, q, r); StallDispatch(cfg, b, q, r, Fired(t, timer));
      case ConfirmationDelay(q, r) => if Fresh(turn.dialogue, id) { PromptMoves(cfg, b, q, r, id); }
      case ReadyTimeout(q, r, i) =>
      case ResponseTimeout(q, r, i) =>
    }
  }

  lemma StallDispatch(cfg: Config, b: Buf, q: string, r: nat, t: Tasks)
    requires Sound(b) && Talks(cfg, b) && Stalled(b, q, r) && OnlyResponse(t)
    ensures SlotsMatch(StallFires(cfg, b, q, r).buf, DispatchIfAny(t, StallFires(cfg, b, q, r)))
  {
    StallTells(cfg, b, q, r);
    hide StallFires;
  }

  /** The policy of a stalled answer tells what was done with it. */
  lemma StallTells(cfg: Config, b: Buf, q: string, r: nat)
    requires Sound(b) && Talks(cfg, b) && Stalled(b, q, r)
    ensures var o := StallFires(cfg, b, q, r);
            && o.policy.Some? && o.buf.questionId == b.questionId && o.buf.revision == b.revision
            && ((o.policy.value.ScheduleCommit? && o.buf.state == CompleteCandidate)
                || (o.policy.value.ScheduleConfirmation? && o.buf.state == ConfirmationPending))
  {
  }
}
