/**
  What verdicts, stalls and transcripts do to a turn, said in terms of the verdict's own
  fields and of what was heard, and what the answer is that is asked about and submitted.
 */
module TurnOutcomes {
  import opened Wrappers
  import opened Text
  import opened TurnModels
  import opened BufferSpec
  import opened CoordinatorSpec
  import opened TurnHistory
  import opened TurnLifecycle
  import opened TurnGuarantees
  import opened TurnProgress

  // ----- which answers are asked about -------------------------------------------------------

  /** At this moment of the run, a stall timer found this very answer still listened to. */
  predicate StalledAt(cfg: Config, t: Turn, actions: seq<Action>, k: nat, s: Snapshot) {
    && k < |actions| && actions[k].Fire? && actions[k].timer.Stall?
    && var b := Run(cfg, t, actions[..k]).buf;
    && StallsOut(b, actions[k].timer) && Held(b) == s
  }

  predicate WasStalled(cfg: Config, t: Turn, actions: seq<Action>, s: Snapshot) {
    exists k :: 0 <= k < |actions| && StalledAt(cfg, t, actions, k, s)
  }

  lemma NewStall(cfg: Config, t: Turn, a: Action, s: Snapshot)
    requires s in Apply(cfg, t, a).evidence.stalls
    ensures s in t.evidence.stalls || (a.Fire? && a.timer.Stall? && StallsOut(t.buf, a.timer) && Held(t.buf) == s)
  {
    hide Section, Discuss, Submit;
  }

  lemma StalledBefore(cfg: Config, t: Turn, actions: seq<Action>, s: Snapshot)
    requires actions != [] && WasStalled(cfg, t, actions[..|actions| - 1], s)
    ensures WasStalled(cfg, t, actions, s)
  {
    hide Run, StallsOut;
    var init := actions[..|actions| - 1];
    var k :| 0 <= k < |init| && StalledAt(cfg, t, init, k, s);
    assert actions[..k] == init[..k];
    assert StalledAt(cfg, t, actions, k, s);
  }

  /** A stall on record was fired at some moment of the run. */
  lemma {:induction false} StallsWereFired(
    cfg: Config, sessionId: string, questionId: string, actions: seq<Action>, s: Snapshot)
    requires s in Run(cfg, NewTurn(sessionId, questionId), actions).evidence.stalls
    ensures WasStalled(cfg, NewTurn(sessionId, questionId), actions, s)
    decreases |actions|
  {
    var t0 := NewTurn(sessionId, questionId);
    if actions != [] {
      hide Apply, NewTurn, WasStalled, StallsOut;
      var init, a := actions[..|actions| - 1], actions[|actions| - 1];
      NewStall(cfg, Run(cfg, t0, init), a, s);
      if s in Run(cfg, t0, init).evidence.stalls {
        StallsWereFired(cfg, sessionId, questionId, init, s);
        StalledBefore(cfg, t0, actions, s);
      } else {
        StalledLast(cfg, t0, actions, s);
      }
    }
  }

  lemma StalledLast(cfg: Config, t: Turn, actions: seq<Action>, s: Snapshot)
    requires actions != []
    requires var a, b := actions[|actions| - 1], Run(cfg, t, actions[..|actions| - 1]).buf;
             a.Fire? && a.timer.Stall? && StallsOut(b, a.timer) && Held(b) == s
    ensures WasStalled(cfg, t, actions, s)
  {
    hide Run, StallsOut;
    assert StalledAt(cfg, t, actions, |actions| - 1, s);
  }

  /**
    Nobody is asked without a reason. Every prompt that was begun asks about an answer that the
    judge itself, without a fallback and certainly enough, found closed and sufficient but was
    unsure of; or about a final answer that a stall timer found unchanged.
   */
  lemma PromptsWereSuggested(
    cfg: Config, sessionId: string, questionId: string, actions: seq<Action>, i: nat)
    requires ValidConfig(cfg)
    requires i < |Run(cfg, NewTurn(sessionId, questionId), actions).dialogue.prompts|
    ensures var t := Run(cfg, NewTurn(sessionId, questionId), actions);
            var about := t.dialogue.prompts[i].about;
            Suggested(cfg, t.evidence, about)
            || WasStalled(cfg, NewTurn(sessionId, questionId), actions, about)
  {
    hide Run, WasStalled, Suggested;
    NewTurnSound(cfg, sessionId, questionId);
    RunKeeps(cfg, NewTurn(sessionId, questionId), actions);
    var t := Run(cfg, NewTurn(sessionId, questionId), actions);
    assert PromptsGrounded(cfg, t.evidence, t.dialogue.prompts);
    if !Suggested(cfg, t.evidence, t.dialogue.prompts[i].about) {
      StallsWereFired(cfg, sessionId, questionId, actions, t.dialogue.prompts[i].about);
    }
  }

  // ----- what a verdict does -----------------------------------------------------------------

  /** The candidate is silent after a final answer that says something. */
  predicate Quiet(b: Buf) {
    !b.speechActive && b.segmentFinal && !Blank(b.answerText)
  }

  /** The judge itself calls the answer finished. */
  predicate Finishes(cfg: Config, v: Verdict) {
    !v.result.fallbackUsed && CallsFinished(cfg, v.result.decision)
  }

  /** The turn is a candidate because the judge called the answer finished. */
  predicate JudgedCandidate(b: Buf, d: Decision) {
    && b.state == CompleteCandidate
    && b.completionReason == Some(if d.explicitCompletion then ExplicitFinish else SemanticComplete)
  }

  function AfterVerdict(cfg: Config, t: Turn, k: nat): Turn {
    Apply(cfg, Apply(cfg, t, Record(k)), Settle(k))
  }

  /**
    A verdict on the answer the turn listens to makes it a candidate if and only if it calls the
    answer finished and the candidate is silent after a final answer; it makes it ask if and
    only if it suggests asking, the same holds, and a prompt is left; otherwise the turn
    listens on.
   */
  lemma VerdictDecides(cfg: Config, t: Turn, k: nat)
    requires ValidConfig(cfg) && TurnSound(cfg, t) && k < |t.evidence.verdicts|
    requires t.buf.state == Listening && t.evidence.verdicts[k].snapshot.revision == t.buf.revision
    ensures var b, b', v := t.buf, AfterVerdict(cfg, t, k).buf, t.evidence.verdicts[k];
            && (b'.state == CompleteCandidate <==> Quiet(b) && Finishes(cfg, v))
            && (b'.state == ConfirmationPending <==>
                  Quiet(b) && Suggests(cfg, v) && |t.dialogue.prompts| < cfg.maxConfirmations)
            && (b'.state in {Listening, CompleteCandidate, ConfirmationPending})
            && (b'.state == CompleteCandidate ==> JudgedCandidate(b', v.result.decision))
            && Held(b') == Held(b)
  {
    var v := t.evidence.verdicts[k];
    assert ValidResult(v.result) && v.result.questionId == t.buf.questionId;
    RecordedSettles(cfg, t, k);
    DecidesBy(cfg, WithDecision(t.buf, v.result), v.result);
  }

  function WithDecision(b: Buf, r: JudgeResult): Buf {
    b.(decisionRevision := Some(r.revision), decision := Some(r.decision))
  }

  lemma RecordedSettles(cfg: Config, t: Turn, k: nat)
    requires k < |t.evidence.verdicts| && t.buf.state == Listening
    requires var r := t.evidence.verdicts[k].result;
             r.revision == t.buf.revision && r.questionId == t.buf.questionId
    ensures var r := t.evidence.verdicts[k].result;
            AfterVerdict(cfg, t, k).buf
              == Decide(cfg, WithDecision(t.buf, r), r.decision, r.revision, r.fallbackUsed).buf
  {
    hide Decide, Discuss, Submit;
  }

  lemma DecidesBy(cfg: Config, b: Buf, r: JudgeResult)
    requires ValidConfig(cfg) && ValidResult(r)
    requires b.state == Listening && b.decision == Some(r.decision)
    requires b.decisionRevision == Some(r.revision) && r.revision == b.revision
    ensures var b', v := Decide(cfg, b, r.decision, r.revision, r.fallbackUsed).buf,
                         Verdict(Held(b), r);
            && (b'.state == CompleteCandidate <==> Quiet(b) && Finishes(cfg, v))
            && (b'.state == ConfirmationPending <==>
                  Quiet(b) && Suggests(cfg, v) && b.confirmationCount < cfg.maxConfirmations)
            && b'.state in {Listening, CompleteCandidate, ConfirmationPending}
            && (b'.state == CompleteCandidate ==> JudgedCandidate(b', r.decision))
            && Held(b') == Held(b)
  {
  }

  /**
    What the coordinator is told to do about a verdict: go on listening and say why, wait for
    the end of speech, or schedule the next step.
   */
  lemma VerdictIsAnnounced(cfg: Config, t: Turn, k: nat)
    requires ValidConfig(cfg) && TurnSound(cfg, t) && k < |t.evidence.verdicts|
    requires t.buf.state == Listening && t.evidence.verdicts[k].snapshot.revision == t.buf.revision
    ensures var b, v := t.buf, t.evidence.verdicts[k];
            var d, policy := v.result.decision, HandleResult(cfg, Apply(cfg, t, Record(k)).buf, v.result).policy;
            && (policy == Some(KeepOn(JudgeFailed)) <==> v.result.fallbackUsed)
            && (policy == Some(KeepOn(Judged(d.reasonCode))) <==>
                  d.action == KeepListening && !v.result.fallbackUsed)
            && (policy == Some(Defer) <==> d.action != KeepListening && b.speechActive)
            && (policy == Some(KeepOn(AutoSubmitNotAvailable)) <==>
                  d.action == AutoSubmit && !b.speechActive && !(Quiet(b) && Finishes(cfg, v)))
            && (policy == Some(KeepOn(ConfirmationNotAvailable)) <==>
                  d.action == AskConfirmation && !b.speechActive
                  && !(Quiet(b) && Suggests(cfg, v) && |t.dialogue.prompts| < cfg.maxConfirmations))
            && (policy == Some(ScheduleConfirmation) <==>
                  AfterVerdict(cfg, t, k).buf.state == ConfirmationPending)
            && (policy.Some? && policy.value.ScheduleCommit? <==>
                  AfterVerdict(cfg, t, k).buf.state == CompleteCandidate)
  {
    var v := t.evidence.verdicts[k];
    assert ValidResult(v.result) && v.result.questionId == t.buf.questionId;
    VerdictDecides(cfg, t, k);
    AnnouncesBy(cfg, WithDecision(t.buf, v.result), v.result);
  }

  lemma AnnouncesBy(cfg: Config, b: Buf, r: JudgeResult)
    requires ValidConfig(cfg) && ValidResult(r)
    requires b.state == Listening && b.questionId == r.questionId && b.decision == Some(r.decision)
    requires b.decisionRevision == Some(r.revision) && r.revision == b.revision
    ensures var d, v, policy := r.decision, Verdict(Held(b), r), HandleResult(cfg, b, r).policy;
            && (policy == Some(KeepOn(JudgeFailed)) <==> r.fallbackUsed)
            && (policy == Some(KeepOn(Judged(d.reasonCode))) <==> d.action == KeepListening && !r.fallbackUsed)
            && (policy == Some(Defer) <==> d.action != KeepListening && b.speechActive)
            && (policy == Some(KeepOn(AutoSubmitNotAvailable)) <==>
                  d.action == AutoSubmit && !b.speechActive && !(Quiet(b) && Finishes(cfg, v)))
            && (policy == Some(KeepOn(ConfirmationNotAvailable)) <==>
                  d.action == AskConfirmation && !b.speechActive
                  && !(Quiet(b) && Suggests(cfg, v) && b.confirmationCount < cfg.maxConfirmations))
            && (policy == Some(ScheduleConfirmation) <==>
                  Quiet(b) && Suggests(cfg, v) && b.confirmationCount < cfg.maxConfirmations)
            && (policy.Some? && policy.value.ScheduleCommit? <==> Quiet(b) && Finishes(cfg, v))
  {
  }

  // ----- what a stall does -------------------------------------------------------------------

  /**
    A stalled answer always moves on: it is submitted if the decision on it calls it finished;
    if not, the candidate is asked while a prompt is left, and cut off when none is.
   */
  lemma StallDecides(cfg: Config, t: Turn, timer: Timer, id: string)
    requires ValidConfig(cfg) && TurnSound(cfg, t) && timer.Stall? && StallsOut(t.buf, timer)
    ensures var b, b' := t.buf, Apply(cfg, t, Fire(timer, id)).buf;
            var finished := b.decision.Some? && CallsFinished(cfg, b.decision.value);
            && Held(b') == Held(b) && !b'.speechActive
            && (if finished then JudgedCandidate(b', b.decision.value)
                else if |t.dialogue.prompts| < cfg.maxConfirmations then b'.state == ConfirmationPending
                else b'.state == CompleteCandidate && b'.completionReason == Some(ListeningCutoff))
  {
    hide Discuss, Submit, Testify, Grounded;
  }

  /** Whenever a timer fires, and for whatever it was started, it reports no error. */
  lemma TimersNeverFail(cfg: Config, t: Turn, q: string, r: nat, id: string)
    requires ValidConfig(cfg) && TurnSound(cfg, t)
    ensures GraceFires(t.buf, q, r).error.None? && StallFires(cfg, t.buf, q, r).error.None?
    ensures ResponseTimeoutFires(t.buf, q, r, id).error.None?
    ensures Fresh(t.dialogue, id) ==> DelayFires(cfg, t.buf, q, r, id).error.None?
  {
    hide Grounded, EvidenceSound, SubmissionsSound, TextsAgree, PromptsGrounded, CandidateSound;
    SoundTalk(cfg, t);
    hide TurnSound, DialogueSound;
    GraceStarts(t.buf, q, r);
    StallNeverFails(cfg, t.buf, q, r);
  }

  lemma SoundTalk(cfg: Config, t: Turn)
    requires ValidConfig(cfg) && TurnSound(cfg, t)
    ensures Sound(t.buf) && Talks(cfg, t.buf)
  {
  }

  lemma StallNeverFails(cfg: Config, b: Buf, q: string, r: nat)
    requires Sound(b) && Talks(cfg, b)
    ensures StallFires(cfg, b, q, r).error.None?
  {
  }

  // ----- what a transcript does --------------------------------------------------------------

  /** The client sends the answer again as it is, and the connection expects that. */
  predicate Resends(b: Buf, a: Action)
    requires a.Hear?
  {
    a.acceptEqual && a.revision == b.revision
  }

  predicate NotNegative(duration: Option<Seconds>) {
    duration.Some? ==> duration.value.Finite? && duration.value.value >= 0.0
  }

  predicate OpenTo(b: Buf, question: string) {
    question == b.questionId && b.state != Committing && b.state != Committed
  }

  /** When a transcript is taken, and which error it gets otherwise. */
  lemma TakenIff(cfg: Config, b: Buf, a: Action)
    requires Sound(b) && ValidConfig(cfg) && a.Hear?
    ensures var error := Transcript(cfg, b, a.acceptEqual, a.question, a.revision, a.text, a.info).error;
            var newer, fits := a.revision > b.revision, NotNegative(a.info.answerDuration);
            && (Taken(cfg, b, a) <==>
                  OpenTo(b, a.question) && fits && (newer || (Resends(b, a) && a.text == b.answerText)))
            && (error == Some(FromBuffer(QuestionMismatch)) <==> a.question != b.questionId)
            && (error == Some(FromBuffer(AlreadyCommitted)) <==>
                  a.question == b.questionId && b.state == Committed)
            && (error == Some(FromBuffer(InvalidTransition)) <==>
                  a.question == b.questionId && b.state == Committing)
            && (error == Some(SnapshotConflict) <==>
                  OpenTo(b, a.question) && Resends(b, a) && a.text != b.answerText)
            && (error == Some(StaleRevision) <==> OpenTo(b, a.question) && !newer && !Resends(b, a))
            && (error == Some(FromBuffer(TurnValueError)) <==>
                  OpenTo(b, a.question) && !fits && (newer || (Resends(b, a) && a.text == b.answerText)))
  {
    var reply := UpdateTranscript(b, a.question, a.revision, a.text, a.info);
    UpdateTranscriptKeeps(b, a.question, a.revision, a.text, a.info);
    if reply.Returned? && reply.value && b.decision.Some? {
      CarrySucceeds(cfg, reply.buf, b.decision.value);
    }
  }

  /** The final transcript says in the same words what the judge called finished. */
  predicate RepeatsCandidate(cfg: Config, b: Buf, a: Action)
    requires a.Hear?
  {
    && b.state == CompleteCandidate && a.revision > b.revision
    && Collapse(a.text) == Collapse(b.answerText)
    && a.info.segmentFinal && !a.info.speechActive
    && b.decision.Some? && CallsFinished(cfg, b.decision.value)
  }

  lemma SameWordsSaySomething(s: string, t: string)
    requires Collapse(s) == Collapse(t)
    ensures Blank(s) <==> Blank(t)
  {
    DropBlanksCollapse(s);
    DropBlanksCollapse(t);
    InkOfSpace(s);
    InkOfSpace(t);
  }

  /**
    A transcript that is taken replaces the answer. It keeps a candidate if and only if it
    repeats, final and in silence, the words of an answer that the judge called finished;
    otherwise the turn listens.
   */
  lemma TranscriptKeepsCandidateIff(cfg: Config, t: Turn, a: Action)
    requires ValidConfig(cfg) && TurnSound(cfg, t) && Taken(cfg, t.buf, a)
    ensures var b, b' := t.buf, Apply(cfg, t, a).buf;
            && Held(b') == Snapshot(a.revision, a.text)
            && b'.speechActive == a.info.speechActive && b'.segmentFinal == a.info.segmentFinal
            && (if RepeatsCandidate(cfg, b, a) then JudgedCandidate(b', b.decision.value)
                else b'.state == Listening)
            && (b.state != CompleteCandidate ==> b'.decision.None?)
  {
    hide Discuss, Submit, Testify, Grounded, Collapse, Blank;
    var b := t.buf;
    TranscriptTaken(cfg, b, a.acceptEqual, a.question, a.revision, a.text, a.info);
    if b.state == CompleteCandidate && Collapse(a.text) == Collapse(b.answerText) {
      SameWordsSaySomething(a.text, b.answerText);
      if b.decision.Some? && b.decision.value.action == AutoSubmit {
        CarriedDecision(cfg, Heard(b, a.revision, a.text, a.info), b.decision.value);
      }
    }
  }

  lemma CarriedDecision(cfg: Config, b: Buf, d: Decision)
    requires Sound(b) && ValidConfig(cfg) && b.state == Listening && d.action == AutoSubmit
    ensures var b' := CarryDecision(cfg, b, d).buf;
            && Held(b') == Held(b) && b'.speechActive == b.speechActive && b'.segmentFinal == b.segmentFinal
            && (if Quiet(b) && CallsFinished(cfg, d) then JudgedCandidate(b', d) else b'.state == Listening)
  {
  }

  // ----- what speech does --------------------------------------------------------------------

  /**
    Speech sends every open turn back to listening, without a decision, to an answer that is
    not final. When it ends, a decision reached meanwhile on the final answer is applied.
   */
  lemma SpeechDecides(cfg: Config, t: Turn, q: string, r: nat, active: bool)
    requires ValidConfig(cfg) && TurnSound(cfg, t) && OpenTo(t.buf, q) && r == t.buf.revision
    ensures var b, b' := t.buf, Apply(cfg, t, Speak(q, r, active)).buf;
            && Held(b') == Held(b) && b'.speechActive == active
            && (active ==> b'.state == Listening && b'.decision.None? && !b'.segmentFinal)
            && (!active && !b.speechActive ==> b' == b)
            && (!active && b.speechActive ==>
                  if b.decision.None? || !b.segmentFinal || Blank(b.answerText) then b'.state == Listening
                  else if CallsFinished(cfg, b.decision.value) then JudgedCandidate(b', b.decision.value)
                  else if WantsAsking(cfg, b.decision.value) && |t.dialogue.prompts| < cfg.maxConfirmations
                  then b'.state == ConfirmationPending
                  else b'.state == Listening)
  {
    hide Discuss, Submit, Testify, Grounded, Blank;
  }

  // ----- what connections do -----------------------------------------------------------------

  /**
    A connection that arrives takes the turn back to listening without a decision, unless it is
    being submitted or was. One that leaves ends a confirmation under way, and only that.
   */
  lemma ConnectionsDecide(cfg: Config, t: Turn)
    requires ValidConfig(cfg) && TurnSound(cfg, t)
    ensures var b, b' := t.buf, Apply(cfg, t, Connect).buf;
            && Held(b') == Held(b) && b'.segmentFinal == b.segmentFinal && b'.confirmationCount == b.confirmationCount
            && (if b.state == Committing || b.state == Committed then b' == b
                else b'.state == Listening && b'.decision.None? && b'.speechActive == b.speechActive)
    ensures var b, b' := t.buf, Apply(cfg, t, Disconnect).buf;
            if b.state in {ConfirmationPending, ConfirmationPrompting, ConfirmingEnd} then
              && Held(b') == Held(b) && b'.segmentFinal == b.segmentFinal
              && b'.state == Listening && b'.decision.None? && b'.confirmationCount == b.confirmationCount
            else b' == b
  {
    hide Discuss, Submit, Testify, Grounded;
  }

  /** Whatever ends a confirmation names it, and a commit names the text that is submitted. */
  lemma EndsAreNamed(b: Buf, q: string, r: nat)
    requires Sound(b)
    ensures MarkCutoff(b, q, r).Returned? ==>
              MarkCutoff(b, q, r).value == b.confirmationId && MarkCutoff(b, q, r).buf.confirmationId.None?
    ensures CancelConfirmation(b).Returned? && CancelConfirmation(b).buf.confirmationId.None?
    ensures CancelConfirmation(b).value == b.confirmationId
    ensures BeginCommit(b, q, r).Returned? ==>
              && BeginCommit(b, q, r).buf.completionReason.Some?
              && BeginCommit(b, q, r).value == RequestOf(BeginCommit(b, q, r).buf).answerText
  {
  }

  /** A confirmation becomes pending exactly while a prompt is left. */
  lemma PendingIffPromptLeft(b: Buf, revision: nat, max: int)
    requires MarkPending(b, revision, max).Returned?
    ensures MarkPending(b, revision, max).value <==> b.confirmationCount < max
    ensures MarkPending(b, revision, max).buf.state
         == if b.confirmationCount < max then ConfirmationPending else Listening
  {
  }

  // ----- what the client says about a prompt -------------------------------------------------

  /** The event names the prompt that is active, and the answer it asks about. */
  predicate Names(b: Buf, id: string, q: string, r: nat) {
    b.confirmationId == Some(id) && q == b.questionId && r == b.revision
  }

  /** The client may say more than once that it is ready; that it speaks, once it was ready. */
  lemma PromptEventsTaken(cfg: Config, t: Turn, id: string, q: string, r: nat, active: bool)
    requires ValidConfig(cfg) && TurnSound(cfg, t)
    ensures var b, ready := t.buf, ResponseReady(t.buf, id, q, r);
            && (ready.error.None? <==> Names(b, id, q, r))
            && (ready.error.None? ==>
                  ready.buf == if b.state == ConfirmingEnd then b else b.(state := ConfirmingEnd))
            && (ready.error.Some? ==> ready == Failed(b, StaleConfirmation))
    ensures var b, speaks := t.buf, ResponseActivity(t.buf, id, q, r, active);
            && (speaks.error.None? <==> Names(b, id, q, r) && b.state == ConfirmingEnd)
            && (speaks.error.None? ==> speaks.buf == b.(responseSpeechActive := active))
            && (speaks.error.Some? ==> speaks == Failed(b, StaleConfirmation))
  {
    hide Grounded, EvidenceSound, DialogueSound, SubmissionsSound, TextsAgree, PromptsGrounded;
  }

  /**
    A response is applied if and only if it answers the active prompt of a client that is ready
    and, when it adds to the answer, has content and a later revision. "Finished" makes the
    turn a candidate; every other response makes it listen.
   */
  lemma ResponsesDecide(cfg: Config, t: Turn, a: Action)
    requires ValidConfig(cfg) && TurnSound(cfg, t) && a.Respond?
    ensures var b, b' := t.buf, Apply(cfg, t, a).buf;
            var adds := a.intent.intent == AnswerContent;
            && (Answer(b, a).Some? <==>
                  && Names(b, a.id, a.question, a.revision) && b.state == ConfirmingEnd
                  && (adds ==> a.responseRevision > b.revision && a.intent.answerContent.Some?
                               && !Blank(a.intent.answerContent.value)))
            && (Answer(b, a).Some? ==>
                  && b'.confirmationId.None?
                  && (if a.intent.intent == Finish
                      then b'.state == CompleteCandidate && b'.completionReason == Some(UserConfirmed)
                      else b'.state == Listening && b'.decision.None?))
            && (Answer(b, a).None? ==> b' == b)
  {
    hide Grounded, EvidenceSound, SubmissionsSound, TextsAgree, PromptsGrounded, Discuss, Submit, Testify;
    ResponseDecides(cfg, t.buf, a);
  }

  lemma ResponseDecides(cfg: Config, b: Buf, a: Action)
    requires Sound(b) && Talks(cfg, b) && a.Respond?
    ensures var o := Response(b, a.id, a.question, a.revision, a.responseRevision, a.intent);
            var adds := a.intent.intent == AnswerContent;
            && (o.error.None? <==>
                  && Names(b, a.id, a.question, a.revision) && b.state == ConfirmingEnd
                  && (adds ==> a.responseRevision > b.revision && a.intent.answerContent.Some?
                               && !Blank(a.intent.answerContent.value)))
            && (o.error.None? ==>
                  && o.buf.confirmationId.None?
                  && (if a.intent.intent == Finish
                      then o.buf.state == CompleteCandidate && o.buf.completionReason == Some(UserConfirmed)
                      else o.buf.state == Listening && o.buf.decision.None?))
            && (o.error.Some? ==> o.buf == b)
  {
    assert Blank("");
    hide Append, Blank;
  }
}
