/**
  How one section can move the buffer. Each section of the coordinator is shown to make one
  of a few moves, and the invariant of a turn is then proved once per part of its history.
 */
module TurnLifecycle {
  import opened Wrappers
  import opened Text
  import opened TurnModels
  import opened BufferSpec
  import opened CoordinatorSpec
  import opened TurnHistory

  /** Facts about the buffer that its dialogue history supplies. */
  predicate Talks(cfg: Config, b: Buf) {
    && ValidConfig(cfg)
    && b.confirmationCount <= cfg.maxConfirmations
    && (b.state == ConfirmationPending ==> b.confirmationCount < cfg.maxConfirmations)
    && (ConfirmationState(b.state) ==> !Blank(b.answerText))
  }

  /** The moves of the confirmation dialogue, other than beginning a prompt. */
  predicate DialogueMove(cfg: Config, b: Buf, b': Buf) {
    && Talks(cfg, b')
    && b'.confirmationCount == b.confirmationCount
    && (b'.confirmationId.Some? ==>
          b'.confirmationId == b.confirmationId && b'.revision == b.revision)
    && (b'.state == ConfirmingEnd ==> b.confirmationId.Some?)
  }

  /** A prompt begins: the only move that counts. */
  predicate Prompted(cfg: Config, b: Buf, b': Buf, id: string) {
    && b.state == ConfirmationPending && b.confirmationCount < cfg.maxConfirmations
    && b' == b.(confirmationCount := b.confirmationCount + 1, confirmationId := Some(id),
                confirmationRevision := Some(b.revision), responseSpeechActive := false,
                state := ConfirmationPrompting)
  }

  /** The moves into and out of a submission. */
  predicate SubmitMove(b: Buf, b': Buf) {
    && (b'.completionReason in {Some(ListeningCutoff), Some(UserConfirmed)} ==> b'.revision == b.revision)
    && (b'.state == Committing && b.state != Committing ==>
          b.state == CompleteCandidate && b' == b.(state := Committing))
    && (b'.state == Committing && b.state == Committing ==> b' == b)
    && (b'.state == Committed && b.state != Committed ==> b.state == Committing)
  }

  predicate Moves(cfg: Config, b: Buf, b': Buf) {
    Sound(b') && Follows(b, b') && DialogueMove(cfg, b, b') && SubmitMove(b, b')
  }

  /** A prompt that is playing out has just ended without a response, and none is being spoken. */
  predicate TimesOut(b: Buf, answer: Option<Intent>) {
    b.state == ConfirmingEnd && !b.responseSpeechActive && answer.None?
  }

  /** How a candidate that nobody judged comes about, given the response that was applied. */
  predicate CandidateMove(cfg: Config, b: Buf, b': Buf, answer: Option<Intent>) {
    b'.completionReason == b.completionReason
    || (&& (b'.completionReason == Some(ListeningCutoff) ==>
              b.confirmationCount >= cfg.maxConfirmations || TimesOut(b, answer))
        && (b'.completionReason == Some(UserConfirmed) ==>
              b.state == ConfirmingEnd && answer == Some(Finish)))
  }

  /** What applying a decision can do, whatever the decision. */
  predicate Decided(cfg: Config, b: Buf, d: Decision, b': Buf) {
    || b' == b
    || (CanAutoSubmit(cfg, b, d) && b.state == Listening
        && b' == b.(completionReason := Some(SubmitReason(d)), state := CompleteCandidate))
    || (CanConfirm(cfg, b, d) && b.state == Listening && b' == b.(state := ConfirmationPending))
  }

  lemma DecideDecides(cfg: Config, b: Buf, d: Decision, revision: nat, fallback: bool)
    ensures Decided(cfg, b, d, Decide(cfg, b, d, revision, fallback).buf)
  {
  }

  /** The policy tells what was done. */
  predicate PolicyTells(b: Buf, o: Outcome) {
    if o.error.Some? then o.policy.None? && o.buf == b
    else
      && o.policy.Some?
      && match o.policy.value
         case KeepOn(_) => o.buf == b
         case Defer => o.buf == b
         case ScheduleCommit(why) => o.buf == b.(completionReason := Some(why), state := CompleteCandidate)
         case ScheduleConfirmation => o.buf == b.(state := ConfirmationPending)
  }

  lemma DecisionTells(cfg: Config, b: Buf, d: Decision, revision: nat, fallback: bool)
    ensures PolicyTells(b, Decide(cfg, b, d, revision, fallback))
  {
  }

  // ----- each section makes a move -----------------------------------------------------------

  lemma ListenMoves(cfg: Config, b: Buf)
    requires Sound(b) && Talks(cfg, b) && b.state != Committed
    ensures Moves(cfg, b, Listen(b))
  {
  }

  lemma DecidedMoves(cfg: Config, b: Buf, d: Decision, b': Buf)
    requires Sound(b) && Talks(cfg, b) && Decided(cfg, b, d, b')
    ensures Moves(cfg, b, b')
  {
  }

  lemma MovesThenDecided(cfg: Config, b: Buf, b1: Buf, d: Decision, b2: Buf)
    requires Sound(b) && Moves(cfg, b, b1) && b1.state == Listening && Decided(cfg, b1, d, b2)
    ensures Moves(cfg, b, b2)
  {
    DecidedMoves(cfg, b1, d, b2);
  }

  lemma MovesThenRecorded(cfg: Config, b: Buf, b1: Buf, r: JudgeResult)
    requires Sound(b) && Moves(cfg, b, b1) && b1.state == Listening && RecordDecision(b1, r).Returned?
    ensures Moves(cfg, b, RecordDecision(b1, r).buf)
  {
  }

  lemma HeardMoves(cfg: Config, b: Buf, q: string, r: nat, text: string, info: SnapshotInfo)
    requires Sound(b) && Talks(cfg, b) && GuardOpen(b, q).None?
    requires r >= b.revision && (r == b.revision ==> text == b.answerText)
    ensures Moves(cfg, b, Heard(b, r, text, info)) && Heard(b, r, text, info).state == Listening
  {
  }

  lemma CarryMoves(cfg: Config, b: Buf, b1: Buf, d: Decision)
    requires Sound(b) && Moves(cfg, b, b1) && b1.state == Listening
    ensures Moves(cfg, b, CarryDecision(cfg, b1, d).buf)
  {
    var r := JudgeResult(b1.questionId, b1.revision, d, false);
    var b2 := RecordDecision(b1, r).buf;
    MovesThenRecorded(cfg, b, b1, r);
    DecideDecides(cfg, b2, d, b1.revision, false);
    MovesThenDecided(cfg, b, b2, d, Decide(cfg, b2, d, b1.revision, false).buf);
  }

  lemma FailedTranscript(cfg: Config, b: Buf, eq: bool, q: string, r: nat, text: string, info: SnapshotInfo)
    requires Sound(b) && ValidConfig(cfg) && Transcript(cfg, b, eq, q, r, text, info).error.Some?
    ensures Transcript(cfg, b, eq, q, r, text, info).buf == b
  {
    FailedTranscriptChangesNothing(cfg, b, eq, q, r, text, info);
  }

  lemma TranscriptMoves(
    cfg: Config, b: Buf, eq: bool, q: string, r: nat, text: string, info: SnapshotInfo)
    requires Sound(b) && Talks(cfg, b)
    ensures Moves(cfg, b, Transcript(cfg, b, eq, q, r, text, info).buf)
  {
    hide Transcript, Moves, CarryDecision, Heard;
    if Transcript(cfg, b, eq, q, r, text, info).error.Some? {
      FailedTranscript(cfg, b, eq, q, r, text, info);
      StillMoves(cfg, b);
    } else {
      TranscriptTaken(cfg, b, eq, q, r, text, info);
      HeardMoves(cfg, b, q, r, text, info);
      if b.decision.Some? {
        CarryMoves(cfg, b, Heard(b, r, text, info), b.decision.value);
      }
    }
  }

  lemma SpeechUpdateMoves(cfg: Config, b: Buf, q: string, r: nat, active: bool)
    requires Sound(b) && Talks(cfg, b) && UpdateSpeech(b, q, r, active).Returned?
    ensures Moves(cfg, b, UpdateSpeech(b, q, r, active).buf)
  {
  }

  lemma ActivityMoves(cfg: Config, b: Buf, q: string, r: nat, active: bool)
    requires Sound(b) && Talks(cfg, b)
    ensures Moves(cfg, b, Activity(cfg, b, q, r, active).buf)
  {
    var reply := UpdateSpeech(b, q, r, active);
    if reply.Returned? {
      var b1 := reply.buf;
      SpeechUpdateMoves(cfg, b, q, r, active);
      if b1.state == Listening && b1.decision.Some? {
        DecideDecides(cfg, b1, b1.decision.value, r, false);
        MovesThenDecided(cfg, b, b1, b1.decision.value, Decide(cfg, b1, b1.decision.value, r, false).buf);
      }
    }
  }

  lemma PrepareMoves(cfg: Config, b: Buf)
    requires Sound(b) && Talks(cfg, b)
    ensures Moves(cfg, b, Prepare(b)) && Moves(cfg, b, Close(b))
  {
    if b.state != Committed {
      ListenMoves(cfg, b);
    }
  }

  lemma AcknowledgeMoves(cfg: Config, b: Buf, id: string, q: string, r: nat)
    requires Sound(b) && Talks(cfg, b)
    ensures Moves(cfg, b, ResponseReady(b, id, q, r).buf)
  {
  }

  lemma ResponseSpeechMoves(cfg: Config, b: Buf, id: string, q: string, r: nat, active: bool)
    requires Sound(b) && Talks(cfg, b)
    ensures Moves(cfg, b, ResponseActivity(b, id, q, r, active).buf)
  {
  }

  lemma ConfirmedMoves(cfg: Config, b: Buf, q: string, id: string, r: nat)
    requires Sound(b) && Talks(cfg, b) && MarkUserConfirmed(b, q, id, r).Returned?
    ensures Moves(cfg, b, MarkUserConfirmed(b, q, id, r).buf)
  {
  }

  lemma ResponseMoves(
    cfg: Config, b: Buf, id: string, q: string, r: nat, rr: nat, d: IntentDecision)
    requires Sound(b) && Talks(cfg, b)
    ensures Moves(cfg, b, Response(b, id, q, r, rr, d).buf)
  {
    if ResponseExpected(b, id, q, r) {
      ListenMoves(cfg, b);
      if MarkUserConfirmed(b, q, id, b.revision).Returned? {
        ConfirmedMoves(cfg, b, q, id, b.revision);
      }
    }
  }

  lemma RecordMoves(cfg: Config, b: Buf, r: JudgeResult)
    requires Sound(b) && Talks(cfg, b)
    ensures Moves(cfg, b, After(b, RecordDecision(b, r)))
  {
  }

  lemma ResultMoves(cfg: Config, b: Buf, r: JudgeResult)
    requires Sound(b) && Talks(cfg, b)
    ensures Moves(cfg, b, HandleResult(cfg, b, r).buf)
  {
    StillMoves(cfg, b);
    DecideDecides(cfg, b, r.decision, r.revision, r.fallbackUsed);
    DecidedMoves(cfg, b, r.decision, Decide(cfg, b, r.decision, r.revision, r.fallbackUsed).buf);
  }

  lemma QuietMoves(cfg: Config, b: Buf)
    requires Sound(b) && Talks(cfg, b) && b.state == Listening
    ensures Moves(cfg, b, b.(speechActive := false))
  {
  }

  lemma CutoffMoves(cfg: Config, b: Buf, b1: Buf, q: string, r: nat)
    requires Sound(b) && Moves(cfg, b, b1) && b1.revision == b.revision
    requires MarkCutoff(b1, q, r).Returned?
    ensures Moves(cfg, b, MarkCutoff(b1, q, r).buf)
  {
  }

  lemma StallMoves(cfg: Config, b: Buf, q: string, r: nat)
    requires Sound(b) && Talks(cfg, b)
    ensures Moves(cfg, b, StallFires(cfg, b, q, r).buf)
  {
    if Stalled(b, q, r) {
      var quiet := if b.speechActive then b.(speechActive := false) else b;
      QuietMoves(cfg, b);
      assert quiet == b.(speechActive := false);
      var res := JudgeResult(q, r, STALL_DECISION, false);
      MovesThenRecorded(cfg, b, quiet, res);
      var b1 := RecordDecision(quiet, res).buf;
      DecideDecides(cfg, b1, STALL_DECISION, r, false);
      MovesThenDecided(cfg, b, b1, STALL_DECISION, Decide(cfg, b1, STALL_DECISION, r, false).buf);
      if quiet.decision.Some? {
        DecideDecides(cfg, quiet, quiet.decision.value, r, false);
        MovesThenDecided(cfg, b, quiet, quiet.decision.value, Decide(cfg, quiet, quiet.decision.value, r, false).buf);
      }
      if quiet.confirmationCount >= cfg.maxConfirmations && MarkCutoff(quiet, q, r).Returned? {
        CutoffMoves(cfg, b, quiet, q, r);
      }
    }
  }

  lemma PromptMoves(cfg: Config, b: Buf, q: string, r: nat, id: string)
    requires Sound(b) && Talks(cfg, b) && !Blank(id)
    ensures var b' := DelayFires(cfg, b, q, r, id).buf;
            if ReadyToPrompt(cfg, b, q, r) then Prompted(cfg, b, b', Strip(id)) else b' == b
  {
  }

  lemma ConfirmationTimeoutMoves(cfg: Config, b: Buf, q: string, r: nat, id: string)
    requires Sound(b) && Talks(cfg, b)
    ensures Moves(cfg, b, ReadyTimeoutFires(b, q, r, id))
    ensures Moves(cfg, b, ResponseTimeoutFires(b, q, r, id).buf)
    ensures Moves(cfg, b, RollbackPrompt(b, id))
  {
    if b.state != Committed {
      ListenMoves(cfg, b);
    }
    if b.state == ConfirmingEnd && MarkCutoff(b, q, r).Returned? {
      CutoffMoves(cfg, b, b, q, r);
    }
  }

  lemma GraceStarts(b: Buf, q: string, r: nat)
    ensures GraceFires(b, q, r).buf == if ReadyToCommit(b, q, r) then b.(state := Committing) else b
    ensures GraceFires(b, q, r).error.None?
  {
  }

  lemma GraceMoves(cfg: Config, b: Buf, q: string, r: nat)
    requires Sound(b) && Talks(cfg, b)
    ensures Moves(cfg, b, GraceFires(b, q, r).buf)
  {
    GraceStarts(b, q, r);
    if ReadyToCommit(b, q, r) {
      CommittingMoves(cfg, b);
    } else {
      StillMoves(cfg, b);
    }
  }

  lemma CommittingMoves(cfg: Config, b: Buf)
    requires Sound(b) && Talks(cfg, b) && b.state == CompleteCandidate
    ensures Moves(cfg, b, b.(state := Committing))
  {
  }

  lemma SubmissionDoneMoves(cfg: Config, b: Buf, q: string, r: nat)
    requires Sound(b) && Talks(cfg, b)
    ensures Moves(cfg, b, SubmissionDone(b, q, r))
  {
  }

  lemma RollbackMoves(cfg: Config, b: Buf, q: string, r: nat)
    requires Sound(b) && Talks(cfg, b)
    ensures Moves(cfg, b, RollbackCandidate(b, q, r))
    ensures Moves(cfg, b, SubmissionFailed(b, q, r))
  {
    if b.state != Committed {
      ListenMoves(cfg, b);
    }
  }

  /** The decision the buffer holds still asks for a confirmation. */
  predicate WantsPrompt(cfg: Config, b: Buf) {
    b.decision.Some? && CanConfirm(cfg, b, b.decision.value)
  }

  /** A move, or a prompt begun with a fresh id by the confirmation delay. */
  predicate Acts(cfg: Config, t: Turn, a: Action, b': Buf) {
    || Moves(cfg, t.buf, b')
    || (&& a.Fire? && Fresh(t.dialogue, a.freshId) && WantsPrompt(cfg, t.buf)
        && Prompted(cfg, t.buf, b', Strip(a.freshId)))
  }

  lemma ActsKeep(cfg: Config, t: Turn, a: Action, b': Buf)
    requires Sound(t.buf) && Talks(cfg, t.buf) && Acts(cfg, t, a, b')
    ensures Sound(b') && Talks(cfg, b') && Follows(t.buf, b')
  {
  }

  lemma ClientSectionActs(cfg: Config, t: Turn, a: Action)
    requires Sound(t.buf) && Talks(cfg, t.buf)
    requires a.Connect? || a.Hear? || a.Speak? || a.Acknowledge? || a.RespondSpeech? || a.Respond? || a.Disconnect?
    ensures Moves(cfg, t.buf, Section(cfg, t, a))
  {
    var b := t.buf;
    match a
    case Connect => PrepareMoves(cfg, b);
    case Hear(eq, q, r, text, info) => TranscriptMoves(cfg, b, eq, q, r, text, info);
    case Speak(q, r, active) => ActivityMoves(cfg, b, q, r, active);
    case Acknowledge(id, q, r) => AcknowledgeMoves(cfg, b, id, q, r);
    case RespondSpeech(id, q, r, active) => ResponseSpeechMoves(cfg, b, id, q, r, active);
    case Respond(id, q, r, rr, d) => ResponseMoves(cfg, b, id, q, r, rr, d);
    case Disconnect => PrepareMoves(cfg, b);
  }

  lemma WorkerSectionActs(cfg: Config, t: Turn, a: Action)
    requires Sound(t.buf) && Talks(cfg, t.buf)
    requires a.Accept? || a.Judge? || a.Record? || a.Settle?
    ensures Moves(cfg, t.buf, Section(cfg, t, a))
  {
    var b := t.buf;
    StillMoves(cfg, b);
    match a
    case Record(k) => if k < |t.evidence.verdicts| { RecordMoves(cfg, b, t.evidence.verdicts[k].result); }
    case Settle(k) => if k < |t.evidence.verdicts| { ResultMoves(cfg, b, t.evidence.verdicts[k].result); }
    case Accept =>
    case Judge(_, _, _) =>
  }

  lemma SectionActs(cfg: Config, t: Turn, a: Action)
    requires Sound(t.buf) && Talks(cfg, t.buf)
    ensures Acts(cfg, t, a, Section(cfg, t, a))
  {
    var b := t.buf;
    match a
    case Fire(timer, id) => TimerActs(cfg, t, timer, id);
    case RollBackCandidate(q, r) => RollbackMoves(cfg, b, q, r);
    case RollBackPrompt(id) => ConfirmationTimeoutMoves(cfg, b, "", 0, id);
    case SubmissionFails(q, r) => RollbackMoves(cfg, b, q, r);
    case SubmissionSucceeds(q, r) => SubmissionDoneMoves(cfg, b, q, r);
    case Accept => WorkerSectionActs(cfg, t, a);
    case Judge(_, _, _) => WorkerSectionActs(cfg, t, a);
    case Record(_) => WorkerSectionActs(cfg, t, a);
    case Settle(_) => WorkerSectionActs(cfg, t, a);
    case _ => ClientSectionActs(cfg, t, a);
  }

  // ----- how candidates that nobody judged come about ----------------------------------------

  /** Whatever a decision leads to, it is no cutoff and no confirmation by the candidate. */
  lemma DecidedCandidates(cfg: Config, b: Buf, b1: Buf, d: Decision, b': Buf, answer: Option<Intent>)
    requires b1.completionReason.None? || b1.completionReason == b.completionReason
    requires Decided(cfg, b1, d, b')
    ensures CandidateMove(cfg, b, b', answer)
  {
  }

  lemma TranscriptCandidates(
    cfg: Config, b: Buf, eq: bool, q: string, r: nat, text: string, info: SnapshotInfo, answer: Option<Intent>)
    requires Sound(b) && ValidConfig(cfg)
    ensures CandidateMove(cfg, b, Transcript(cfg, b, eq, q, r, text, info).buf, answer)
  {
    if Transcript(cfg, b, eq, q, r, text, info).error.Some? {
      FailedTranscript(cfg, b, eq, q, r, text, info);
    } else {
      TranscriptTaken(cfg, b, eq, q, r, text, info);
      if b.decision.Some? {
        var b1, d := Heard(b, r, text, info), b.decision.value;
        var b2 := RecordDecision(b1, JudgeResult(b1.questionId, b1.revision, d, false)).buf;
        DecideDecides(cfg, b2, d, b1.revision, false);
        DecidedCandidates(cfg, b, b2, d, Decide(cfg, b2, d, b1.revision, false).buf, answer);
      }
    }
  }

  lemma ActivityCandidates(cfg: Config, b: Buf, q: string, r: nat, active: bool, answer: Option<Intent>)
    ensures CandidateMove(cfg, b, Activity(cfg, b, q, r, active).buf, answer)
  {
    var reply := UpdateSpeech(b, q, r, active);
    if reply.Returned? && reply.buf.decision.Some? {
      var d := reply.buf.decision.value;
      DecideDecides(cfg, reply.buf, d, r, false);
      DecidedCandidates(cfg, b, reply.buf, d, Decide(cfg, reply.buf, d, r, false).buf, answer);
    }
  }

  lemma StallCandidates(cfg: Config, b: Buf, q: string, r: nat, answer: Option<Intent>)
    ensures CandidateMove(cfg, b, StallFires(cfg, b, q, r).buf, answer)
  {
    var quiet := if b.speechActive then b.(speechActive := false) else b;
    if quiet.decision.Some? {
      var d := quiet.decision.value;
      DecideDecides(cfg, quiet, d, r, false);
      DecidedCandidates(cfg, b, quiet, d, Decide(cfg, quiet, d, r, false).buf, answer);
    }
    var reply := RecordDecision(quiet, JudgeResult(q, r, STALL_DECISION, false));
    if reply.Returned? {
      DecideDecides(cfg, reply.buf, STALL_DECISION, r, false);
      DecidedCandidates(cfg, b, reply.buf, STALL_DECISION, Decide(cfg, reply.buf, STALL_DECISION, r, false).buf, answer);
    }
  }

  lemma ResponseCandidates(cfg: Config, b: Buf, a: Action)
    requires a.Respond?
    ensures var b' := Response(b, a.id, a.question, a.revision, a.responseRevision, a.intent).buf;
            CandidateMove(cfg, b, b', Answer(b, a))
  {
  }

  lemma ResultCandidates(cfg: Config, b: Buf, r: JudgeResult, answer: Option<Intent>)
    ensures CandidateMove(cfg, b, HandleResult(cfg, b, r).buf, answer)
  {
    DecideDecides(cfg, b, r.decision, r.revision, r.fallbackUsed);
    DecidedCandidates(cfg, b, b, r.decision, Decide(cfg, b, r.decision, r.revision, r.fallbackUsed).buf, answer);
  }

  lemma TimerCandidates(cfg: Config, t: Turn, timer: Timer, id: string)
    ensures CandidateMove(cfg, t.buf, TimerFires(cfg, t, timer, id), None)
  {
    match timer
    case CommitGrace(q, r) => GraceStarts(t.buf, q, r);
    case Stall(q, r) => StallCandidates(cfg, t.buf, q, r, None);
    case ConfirmationDelay(q, r) =>
    case ReadyTimeout(q, r, i) =>
    case ResponseTimeout(q, r, i) =>
  }

  /**
    A cutoff needs a stall with no prompt left, or the timeout of a response while nobody
    speaks; and only a response "finished" makes a candidate that was confirmed.
   */
  lemma SectionCandidates(cfg: Config, t: Turn, a: Action)
    requires Sound(t.buf) && ValidConfig(cfg)
    ensures CandidateMove(cfg, t.buf, Section(cfg, t, a), Answer(t.buf, a))
  {
    hide CandidateMove, Transcript, Activity, Response, HandleResult, TimerFires;
    var b, answer := t.buf, Answer(t.buf, a);
    match a
    case Hear(eq, q, r, text, info) => TranscriptCandidates(cfg, b, eq, q, r, text, info, answer);
    case Speak(q, r, active) => ActivityCandidates(cfg, b, q, r, active, answer);
    case Respond(_, _, _, _, _) => ResponseCandidates(cfg, b, a);
    case Settle(k) =>
      SameCandidates(cfg, t, a);
      if k < |t.evidence.verdicts| { ResultCandidates(cfg, b, t.evidence.verdicts[k].result, answer); }
    case Fire(timer, id) => TimerCandidates(cfg, t, timer, id);
    case _ => SameCandidates(cfg, t, a);
  }

  /** All other sections keep or drop the reason there was. */
  lemma SameCandidates(cfg: Config, t: Turn, a: Action)
    ensures CandidateMove(cfg, t.buf, t.buf, Answer(t.buf, a))
    ensures !a.Hear? && !a.Speak? && !a.Respond? && !a.Settle? && !a.Fire? ==>
              CandidateMove(cfg, t.buf, Section(cfg, t, a), Answer(t.buf, a))
  {
  }

  lemma StillMoves(cfg: Config, b: Buf)
    requires Sound(b) && Talks(cfg, b)
    ensures Moves(cfg, b, b)
  {
  }

  lemma TimerActs(cfg: Config, t: Turn, timer: Timer, id: string)
    requires Sound(t.buf) && Talks(cfg, t.buf)
    ensures Acts(cfg, t, Fire(timer, id), TimerFires(cfg, t, timer, id))
  {
    var b := t.buf;
    match timer
    case CommitGrace(q, r) => GraceMoves(cfg, b, q, r);
    case Stall(q, r) => StallMoves(cfg, b, q, r);
    case ConfirmationDelay(q, r) =>
      StillMoves(cfg, b);
      if Fresh(t.dialogue, id) {
        PromptMoves(cfg, b, q, r, id);
      }
    case ReadyTimeout(q, r, i) => ConfirmationTimeoutMoves(cfg, b, q, r, i);
    case ResponseTimeout(q, r, i) => ConfirmationTimeoutMoves(cfg, b, q, r, i);
  }
}
