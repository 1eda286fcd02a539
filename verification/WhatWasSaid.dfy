/**
  What the candidate said, as a listener would note it down: the words of the newest transcript
  and of every addition after it, and the newest measurements. That is what the buffer holds
  after any run, and what is submitted in the end.
 */
module WhatWasSaid {
  import opened Wrappers
  import opened Text
  import opened TurnModels
  import opened BufferSpec
  import opened CoordinatorSpec
  import opened TurnHistory
  import opened TurnLifecycle
  import opened TurnGuarantees
  import opened TurnProgress
  import opened TurnOutcomes

  datatype Speech = Speech(
    revision: nat, words: seq<string>, duration: Option<Seconds>, metrics: Option<DeliveryMetrics>)

  function Newer<T>(before: Option<T>, now: Option<T>): Option<T> {
    if now.Some? then now else before
  }

  /** A transcript that is taken says everything anew; an addition says something more. */
  function Noted(cfg: Config, s: Speech, b: Buf, a: Action): Speech {
    if Taken(cfg, b, a) then
      Speech(a.revision, Words(a.text), Newer(s.duration, a.info.answerDuration),
             Newer(s.metrics, a.info.deliveryMetrics))
    else if Answer(b, a) == Some(AnswerContent) && a.intent.answerContent.Some? then
      s.(revision := a.responseRevision, words := s.words + Words(a.intent.answerContent.value))
    else s
  }

  function Said(cfg: Config, t: Turn, actions: seq<Action>): Speech
    decreases |actions|
  {
    if actions == [] then Speech(0, [], None, None)
    else
      var init, a := actions[..|actions| - 1], actions[|actions| - 1];
      Noted(cfg, Said(cfg, t, init), Run(cfg, t, init).buf, a)
  }

  function SpeechOf(b: Buf): Speech {
    Speech(b.revision, Words(b.answerText), b.answerDuration, b.deliveryMetrics)
  }

  // ----- sections that note nothing ----------------------------------------------------------

  /** The answer and its measurements stay. */
  predicate SameSpeech(b: Buf, b': Buf) {
    && b'.revision == b.revision && b'.answerText == b.answerText
    && b'.answerDuration == b.answerDuration && b'.deliveryMetrics == b.deliveryMetrics
  }

  lemma DecidedSaysNothing(cfg: Config, b: Buf, d: Decision, revision: nat, fallback: bool)
    ensures SameSpeech(b, Decide(cfg, b, d, revision, fallback).buf)
  {
  }

  lemma CarryingSaysNothing(cfg: Config, b: Buf, d: Decision)
    ensures SameSpeech(b, CarryDecision(cfg, b, d).buf)
  {
    hide Decide;
    var b1 := After(b, RecordDecision(b, JudgeResult(b.questionId, b.revision, d, false)));
    DecidedSaysNothing(cfg, b1, d, b.revision, false);
  }

  lemma ActivitySaysNothing(cfg: Config, b: Buf, q: string, r: nat, active: bool)
    ensures SameSpeech(b, Activity(cfg, b, q, r, active).buf)
  {
    hide Decide;
    var b1 := After(b, UpdateSpeech(b, q, r, active));
    if b1.decision.Some? {
      DecidedSaysNothing(cfg, b1, b1.decision.value, r, false);
    }
  }

  lemma StallSaysNothing(cfg: Config, b: Buf, q: string, r: nat)
    ensures SameSpeech(b, StallFires(cfg, b, q, r).buf)
  {
    hide Decide;
    var quiet := if b.speechActive then b.(speechActive := false) else b;
    if quiet.decision.Some? {
      DecidedSaysNothing(cfg, quiet, quiet.decision.value, r, false);
    }
    DecidedSaysNothing(cfg, After(quiet, RecordDecision(quiet, JudgeResult(q, r, STALL_DECISION, false))),
                       STALL_DECISION, r, false);
  }

  lemma TimerSaysNothing(cfg: Config, t: Turn, timer: Timer, id: string)
    ensures SameSpeech(t.buf, TimerFires(cfg, t, timer, id))
  {
    match timer
    case CommitGrace(q, r) => GraceStarts(t.buf, q, r);
    case Stall(q, r) => StallSaysNothing(cfg, t.buf, q, r);
    case ConfirmationDelay(q, r) =>
    case ReadyTimeout(q, r, i) =>
    case ResponseTimeout(q, r, i) =>
  }

  lemma ResponseSays(b: Buf, a: Action)
    requires a.Respond?
    ensures var b' := Response(b, a.id, a.question, a.revision, a.responseRevision, a.intent).buf;
            if Answer(b, a) == Some(AnswerContent) then
              && a.intent.answerContent.Some?
              && SpeechOf(b') == SpeechOf(b).(revision := a.responseRevision,
                                   words := Words(b.answerText) + Words(a.intent.answerContent.value))
            else SameSpeech(b, b')
  {
    hide Words, Append, Strip;
    if a.intent.answerContent.Some? {
      AppendJoins(b.answerText, a.intent.answerContent.value);
    }
  }

  lemma TranscriptSays(cfg: Config, b: Buf, a: Action)
    requires Sound(b) && ValidConfig(cfg) && a.Hear?
    ensures var b' := Transcript(cfg, b, a.acceptEqual, a.question, a.revision, a.text, a.info).buf;
            SpeechOf(b') == Noted(cfg, SpeechOf(b), b, a)
  {
    hide Transcript, CarryDecision, Words;
    FailedTranscriptChangesNothing(cfg, b, a.acceptEqual, a.question, a.revision, a.text, a.info);
    if Taken(cfg, b, a) {
      TranscriptTaken(cfg, b, a.acceptEqual, a.question, a.revision, a.text, a.info);
      if b.decision.Some? {
        CarryingSaysNothing(cfg, Heard(b, a.revision, a.text, a.info), b.decision.value);
      }
    }
  }

  lemma OtherSaysNothing(cfg: Config, t: Turn, a: Action)
    requires !a.Hear? && !a.Speak? && !a.Respond? && !a.Settle? && !a.Fire?
    ensures SameSpeech(t.buf, Section(cfg, t, a))
  {
  }

  /** A section changes the answer and its measurements only as a listener would note. */
  lemma SectionSays(cfg: Config, t: Turn, a: Action)
    requires Sound(t.buf) && ValidConfig(cfg)
    ensures SpeechOf(Section(cfg, t, a)) == Noted(cfg, SpeechOf(t.buf), t.buf, a)
  {
    hide Transcript, Activity, Response, HandleResult, TimerFires, Words;
    var b := t.buf;
    match a
    case Hear(_, _, _, _, _) => TranscriptSays(cfg, b, a);
    case Speak(q, r, active) => ActivitySaysNothing(cfg, b, q, r, active);
    case Respond(_, _, _, _, _) => ResponseSays(b, a);
    case Settle(k) => if k < |t.evidence.verdicts| { VerdictSaysNothing(cfg, b, t.evidence.verdicts[k].result); }
    case Fire(timer, id) => TimerSaysNothing(cfg, t, timer, id);
    case _ => OtherSaysNothing(cfg, t, a);
  }

  lemma VerdictSaysNothing(cfg: Config, b: Buf, r: JudgeResult)
    ensures SameSpeech(b, HandleResult(cfg, b, r).buf)
  {
    hide Decide;
    DecidedSaysNothing(cfg, b, r.decision, r.revision, r.fallbackUsed);
  }

  // ----- whole runs --------------------------------------------------------------------------

  /** After any run the buffer holds what was said: no word is lost, added or moved. */
  lemma {:induction false} BufferHoldsWhatWasSaid(
    cfg: Config, sessionId: string, questionId: string, actions: seq<Action>)
    requires ValidConfig(cfg)
    ensures var t0 := NewTurn(sessionId, questionId);
            SpeechOf(Run(cfg, t0, actions).buf) == Said(cfg, t0, actions)
    decreases |actions|
  {
    var t0 := NewTurn(sessionId, questionId);
    if actions != [] {
      hide Words, Section, TurnSound, Noted;
      var init := actions[..|actions| - 1];
      BufferHoldsWhatWasSaid(cfg, sessionId, questionId, init);
      RunIsSound(cfg, sessionId, questionId, init);
      SectionSays(cfg, Run(cfg, t0, init), actions[|actions| - 1]);
    }
  }

  lemma RunIsSound(cfg: Config, sessionId: string, questionId: string, actions: seq<Action>)
    requires ValidConfig(cfg)
    ensures TurnSound(cfg, Run(cfg, NewTurn(sessionId, questionId), actions))
    ensures Sound(Run(cfg, NewTurn(sessionId, questionId), actions).buf)
  {
    NewTurnSound(cfg, sessionId, questionId);
    RunKeeps(cfg, NewTurn(sessionId, questionId), actions);
  }

  /** The newest submission is of the answer the buffer holds. */
  predicate SubmitsHeld(b: Buf, s: seq<Submission>) {
    b.state in {Committing, Committed} ==>
      && s != []
      && var r := s[|s| - 1].request;
      && r.sessionId == b.sessionId && r.questionId == b.questionId && r.revision == b.revision
      && r.answerText == Strip(b.answerText) && r.deliveryMetrics == b.deliveryMetrics
  }

  lemma SubmittingHeld(b: Buf, b': Buf, d: Dialogue, s: seq<Submission>)
    requires Sound(b) && Sound(b') && Follows(b, b') && SubmitMove(b, b') && SubmitsHeld(b, s)
    requires b.state in {Committing, Committed} ==> SpeechOf(b') == SpeechOf(b)
    ensures SubmitsHeld(b', Submit(s, d, b, b'))
  {
    hide Words, Strip, Blank;
  }

  lemma NothingIsSaidWhileSubmitting(cfg: Config, t: Turn, a: Action)
    requires Sound(t.buf) && t.buf.state in {Committing, Committed}
    ensures Noted(cfg, SpeechOf(t.buf), t.buf, a) == SpeechOf(t.buf)
  {
    hide Words;
    assert GuardOpen(t.buf, t.buf.questionId).Some?;
  }

  lemma {:induction false} SubmissionsAreHeld(
    cfg: Config, sessionId: string, questionId: string, actions: seq<Action>)
    requires ValidConfig(cfg)
    ensures var t := Run(cfg, NewTurn(sessionId, questionId), actions);
            SubmitsHeld(t.buf, t.submissions)
    decreases |actions|
  {
    if actions != [] {
      hide Section, SubmitsHeld, TurnSound, Noted, Submit, Discuss, Testify;
      var init, a := actions[..|actions| - 1], actions[|actions| - 1];
      var t := Run(cfg, NewTurn(sessionId, questionId), init);
      SubmissionsAreHeld(cfg, sessionId, questionId, init);
      RunIsSound(cfg, sessionId, questionId, init);
      SoundTalk(cfg, t);
      SectionActs(cfg, t, a);
      ActsKeep(cfg, t, a, Section(cfg, t, a));
      SectionSays(cfg, t, a);
      if t.buf.state in {Committing, Committed} {
        NothingIsSaidWhileSubmitting(cfg, t, a);
      }
      ActsSubmit(cfg, t, a, Section(cfg, t, a));
      SubmittingHeld(t.buf, Section(cfg, t, a), t.dialogue, t.submissions);
    }
  }

  lemma ActsSubmit(cfg: Config, t: Turn, a: Action, b': Buf)
    requires Sound(t.buf) && Acts(cfg, t, a, b')
    ensures SubmitMove(t.buf, b')
  {
  }

  /** The submission under way, or accepted, carries what was said, with its measurements. */
  lemma SubmittedIsWhatWasSaid(cfg: Config, sessionId: string, questionId: string, actions: seq<Action>)
    requires ValidConfig(cfg)
    ensures var t0 := NewTurn(sessionId, questionId);
            var t, said := Run(cfg, t0, actions), Said(cfg, t0, actions);
            t.buf.state in {Committing, Committed} ==>
              && t.submissions != []
              && var request := t.submissions[|t.submissions| - 1].request;
              && request.revision == said.revision && Words(request.answerText) == said.words
              && request.deliveryMetrics == said.metrics
  {
    hide Run, Said, Words, Strip;
    var b := Run(cfg, NewTurn(sessionId, questionId), actions).buf;
    BufferHoldsWhatWasSaid(cfg, sessionId, questionId, actions);
    SubmissionsAreHeld(cfg, sessionId, questionId, actions);
    WordsStrip(b.answerText);
  }

  /**
    A connection expects the old answer again if and only if something was said, and nothing of
    it is being submitted or was.
   */
  lemma ReconnectExpectsWhatWasSaid(cfg: Config, sessionId: string, questionId: string, actions: seq<Action>)
    requires ValidConfig(cfg)
    ensures var t0 := NewTurn(sessionId, questionId);
            ExpectsSnapshot(Prepare(Run(cfg, t0, actions).buf)) <==>
              && Run(cfg, t0, actions).buf.state !in {Committing, Committed}
              && Said(cfg, t0, actions).revision > 0
  {
    hide Run, Said, Words, TurnSound;
    BufferHoldsWhatWasSaid(cfg, sessionId, questionId, actions);
    NewTurnSound(cfg, sessionId, questionId);
    RevisionDeterminesText(cfg, NewTurn(sessionId, questionId), actions);
  }
}
