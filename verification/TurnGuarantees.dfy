/**
  What every run of a voice turn keeps, whatever the clients, the judge and the timers do:
  one text per revision, submissions the judge endorsed or a confirmation justified, each
  confirmation resolved once, and at most one submission that counts.
 */
module TurnGuarantees {
  import opened Wrappers
  import opened Text
  import opened TurnModels
  import opened BufferSpec
  import opened CoordinatorSpec
  import opened EventIds
  import opened TurnHistory
  import opened TurnLifecycle

  // ----- evidence --------------------------------------------------------------------------

  lemma EvidenceKept(b: Buf, b': Buf, e: Evidence, a: Action)
    requires EvidenceSound(b, e) && Follows(b, b')
    ensures EvidenceSound(b', Testify(b, e, a))
  {
    assert Current(Snapshot(b.revision, b.answerText), b);
    forall s: Snapshot | Current(s, b) ensures Current(s, b') {}
  }

  predicate Extends(e: Evidence, e': Evidence) {
    && |e.verdicts| <= |e'.verdicts|
    && (forall k :: 0 <= k < |e.verdicts| ==> e'.verdicts[k] == e.verdicts[k])
    && e.stalls <= e'.stalls
  }

  lemma StalledStays(e: Evidence, e': Evidence, s: Snapshot)
    requires Extends(e, e') && s in e.stalls
    ensures s in e'.stalls
  {
    var k :| 0 <= k < |e.stalls| && e.stalls[k] == s;
    assert e'.stalls[k] == s;
  }

  lemma BackedStays(b: Buf, e: Evidence, e': Evidence, d: Decision)
    requires Backed(b, e, d) && Extends(e, e')
    ensures Backed(b, e', d)
  {
    if d.action != AskConfirmation {
      var words := Collapse(b.answerText);
      var k :| 0 <= k < |e.verdicts|
               && e.verdicts[k].result.decision == d && Collapse(e.verdicts[k].snapshot.text) == words;
      assert e'.verdicts[k].result.decision == d;
    } else if JudgedHere(e, d, Held(b)) {
      var k :| 0 <= k < |e.verdicts| && e.verdicts[k].result.decision == d && e.verdicts[k].snapshot == Held(b);
      assert e'.verdicts[k].result.decision == d;
    } else {
      StalledStays(e, e', Held(b));
    }
  }

  lemma EndorsedStays(cfg: Config, e: Evidence, e': Evidence, reason: CompletionReason, words: string)
    requires Extends(e, e') && Endorsed(cfg, e, reason, words)
    ensures Endorsed(cfg, e', reason, words)
  {
    var k :| 0 <= k < |e.verdicts|
             && Endorses(cfg, e.verdicts[k], reason) && Collapse(e.verdicts[k].snapshot.text) == words;
    assert Endorses(cfg, e'.verdicts[k], reason);
  }

  lemma GroundedStays(cfg: Config, b: Buf, e: Evidence, e': Evidence)
    requires Grounded(cfg, b, e) && Extends(e, e')
    ensures Grounded(cfg, b, e')
  {
    if b.decision.Some? {
      BackedStays(b, e, e', b.decision.value);
    }
    if b.completionReason == Some(SemanticComplete) || b.completionReason == Some(ExplicitFinish) {
      EndorsedStays(cfg, e, e', b.completionReason.value, Collapse(b.answerText));
    }
  }

  /** A decision good enough for auto-submission, coming from the judge, is an endorsement. */
  lemma JudgedEndorses(cfg: Config, b: Buf, e: Evidence, d: Decision)
    requires EvidenceSound(b, e) && JudgedAs(e, d, Collapse(b.answerText))
    requires CanAutoSubmit(cfg, b, d)
    ensures Endorsed(cfg, e, SubmitReason(d), Collapse(b.answerText))
  {
    var k :| 0 <= k < |e.verdicts|
             && e.verdicts[k].result.decision == d && Collapse(e.verdicts[k].snapshot.text) == Collapse(b.answerText);
    assert ValidResult(e.verdicts[k].result);
    assert Endorses(cfg, e.verdicts[k], SubmitReason(d));
  }

  lemma DecidedGrounded(cfg: Config, b: Buf, e: Evidence, d: Decision, b': Buf)
    requires EvidenceSound(b, e) && Grounded(cfg, b, e) && Decided(cfg, b, d, b')
    requires Backed(b, e, d)
    ensures Grounded(cfg, b', e)
  {
    if CanAutoSubmit(cfg, b, d) {
      JudgedEndorses(cfg, b, e, d);
    }
  }

  /** Decisions and judged candidates that were dropped, or kept with the words of the answer. */
  predicate NoNewGround(b: Buf, b': Buf) {
    && (b'.decision.Some? ==> b'.decision == b.decision && b'.revision == b.revision)
    && (b'.completionReason in {Some(SemanticComplete), Some(ExplicitFinish)} ==>
          b'.completionReason == b.completionReason)
    && (b'.decision.Some? || b'.completionReason.Some? ==> b'.answerText == b.answerText)
  }

  lemma OldGround(cfg: Config, b: Buf, e: Evidence, b': Buf)
    requires Grounded(cfg, b, e) && NoNewGround(b, b')
    ensures Grounded(cfg, b', e)
  {
  }

  /** The words of an answer are all that a carried decision depends on. */
  lemma CarryGrounded(cfg: Config, b: Buf, b1: Buf, e: Evidence, d: Decision)
    requires Grounded(cfg, b, e) && EvidenceSound(b1, e) && b.decision == Some(d) && d.action == AutoSubmit
    requires Collapse(b1.answerText) == Collapse(b.answerText)
    requires b1.state == Listening && b1.completionReason.None?
    ensures Grounded(cfg, CarryDecision(cfg, b1, d).buf, e)
  {
    var b2 := RecordDecision(b1, JudgeResult(b1.questionId, b1.revision, d, false)).buf;
    assert b2 == b1.(decisionRevision := Some(b1.revision), decision := Some(d));
    DecideDecides(cfg, b2, d, b1.revision, false);
    DecidedGrounded(cfg, b2, e, d, Decide(cfg, b2, d, b1.revision, false).buf);
  }

  lemma HeardHasNoGround(b: Buf, r: nat, text: string, info: SnapshotInfo)
    ensures var b1 := Heard(b, r, text, info);
            NoNewGround(b, b1) && b1.state == Listening && b1.completionReason.None? && b1.answerText == text
  {
  }

  lemma HeardKeepsEvidence(b: Buf, e: Evidence, q: string, r: nat, text: string, info: SnapshotInfo)
    requires EvidenceSound(b, e) && r >= b.revision && (r == b.revision ==> text == b.answerText)
    ensures EvidenceSound(Heard(b, r, text, info), e)
  {
  }

  /** A transcript with the same words inherits the decision; anything else starts afresh. */
  lemma TranscriptGrounded(
    cfg: Config, b: Buf, e: Evidence, eq: bool, q: string, r: nat, text: string, info: SnapshotInfo)
    requires Sound(b) && ValidConfig(cfg) && EvidenceSound(b, e) && Grounded(cfg, b, e)
    ensures Grounded(cfg, Transcript(cfg, b, eq, q, r, text, info).buf, e)
  {
    hide Transcript, Heard, EvidenceSound, Grounded, CarryDecision, NoNewGround;
    FailedTranscriptChangesNothing(cfg, b, eq, q, r, text, info);
    if Transcript(cfg, b, eq, q, r, text, info).error.None? {
      TranscriptTaken(cfg, b, eq, q, r, text, info);
      HeardHasNoGround(b, r, text, info);
      if !(eq && r == b.revision) && RepeatsJudgedAnswer(b, text, info) {
        HeardKeepsEvidence(b, e, q, r, text, info);
        CarryGrounded(cfg, b, Heard(b, r, text, info), e, b.decision.value);
      } else {
        OldGround(cfg, b, e, Heard(b, r, text, info));
      }
    }
  }

  lemma ActivityGrounded(cfg: Config, b: Buf, e: Evidence, q: string, r: nat, active: bool)
    requires Sound(b) && EvidenceSound(b, e) && Grounded(cfg, b, e)
    ensures Grounded(cfg, Activity(cfg, b, q, r, active).buf, e)
  {
    var reply := UpdateSpeech(b, q, r, active);
    if reply.Returned? {
      var b1 := reply.buf;
      OldGround(cfg, b, e, b1);
      UpdateSpeechKeeps(b, q, r, active);
      EvidenceKept(b, b1, e, Connect);
      if b1.decision.Some? {
        DecideDecides(cfg, b1, b1.decision.value, r, false);
        DecidedGrounded(cfg, b1, e, b1.decision.value, Decide(cfg, b1, b1.decision.value, r, false).buf);
      }
    }
  }

  /** A verdict concerns the text that has its revision, so recording it is grounded. */
  lemma VerdictGrounded(cfg: Config, b: Buf, e: Evidence, k: nat)
    requires EvidenceSound(b, e) && Grounded(cfg, b, e) && k < |e.verdicts|
    ensures Grounded(cfg, After(b, RecordDecision(b, e.verdicts[k].result)), e)
    ensures Grounded(cfg, HandleResult(cfg, b, e.verdicts[k].result).buf, e)
  {
    var v := e.verdicts[k];
    assert Current(v.snapshot, b);
    if v.result.revision == b.revision {
      assert v.snapshot == Held(b);
      assert Backed(b, e, v.result.decision);
      DecideDecides(cfg, b, v.result.decision, v.result.revision, v.result.fallbackUsed);
      DecidedGrounded(cfg, b, e, v.result.decision,
                      Decide(cfg, b, v.result.decision, v.result.revision, v.result.fallbackUsed).buf);
    }
  }

  lemma StallGrounded(cfg: Config, b: Buf, e: Evidence, q: string, r: nat)
    requires Sound(b) && EvidenceSound(b, e) && Grounded(cfg, b, e)
    requires Stalled(b, q, r) ==> Held(b) in e.stalls
    ensures Grounded(cfg, StallFires(cfg, b, q, r).buf, e)
  {
    if Stalled(b, q, r) {
      var quiet := if b.speechActive then b.(speechActive := false) else b;
      OldGround(cfg, b, e, quiet);
      EvidenceKept(b, quiet, e, Connect);
      if quiet.decision.Some? && CanAutoSubmit(cfg, quiet, quiet.decision.value) {
        DecideDecides(cfg, quiet, quiet.decision.value, r, false);
        DecidedGrounded(cfg, quiet, e, quiet.decision.value, Decide(cfg, quiet, quiet.decision.value, r, false).buf);
      } else if quiet.confirmationCount < cfg.maxConfirmations {
        var b1 := RecordDecision(quiet, JudgeResult(q, r, STALL_DECISION, false)).buf;
        DecideDecides(cfg, b1, STALL_DECISION, r, false);
        DecidedGrounded(cfg, b1, e, STALL_DECISION, Decide(cfg, b1, STALL_DECISION, r, false).buf);
      }
    }
  }

  lemma TimerGrounded(cfg: Config, t: Turn, timer: Timer, id: string)
    requires Sound(t.buf) && EvidenceSound(t.buf, t.evidence) && Grounded(cfg, t.buf, t.evidence)
    ensures Grounded(cfg, TimerFires(cfg, t, timer, id), Testify(t.buf, t.evidence, Fire(timer, id)))
  {
    var b, e := t.buf, Testify(t.buf, t.evidence, Fire(timer, id));
    EvidenceGrows(b, t.evidence, Fire(timer, id));
    GroundedStays(cfg, b, t.evidence, e);
    match timer
    case CommitGrace(q, r) =>
      GraceStarts(b, q, r);
      OldGround(cfg, b, e, GraceFires(b, q, r).buf);
    case Stall(q, r) => StallGrounded(cfg, b, e, q, r);
    case ConfirmationDelay(q, r) => OldGround(cfg, b, e, TimerFires(cfg, t, timer, id));
    case ReadyTimeout(q, r, i) => OldGround(cfg, b, e, ReadyTimeoutFires(b, q, r, i));
    case ResponseTimeout(q, r, i) => OldGround(cfg, b, e, ResponseTimeoutFires(b, q, r, i).buf);
  }

  /** Sections that bring in no decision. */
  lemma OtherSectionGrounded(cfg: Config, t: Turn, a: Action)
    requires Grounded(cfg, t.buf, t.evidence)
    requires !a.Hear? && !a.Speak? && !a.Record? && !a.Settle? && !a.Fire?
    ensures Grounded(cfg, Section(cfg, t, a), t.evidence)
  {
    hide Grounded;
    OldGround(cfg, t.buf, t.evidence, Section(cfg, t, a));
  }

  lemma SectionGrounded(cfg: Config, t: Turn, a: Action)
    requires Sound(t.buf) && ValidConfig(cfg) && EvidenceSound(t.buf, t.evidence) && Grounded(cfg, t.buf, t.evidence)
    ensures Grounded(cfg, Section(cfg, t, a), Testify(t.buf, t.evidence, a))
  {
    var b := t.buf;
    if a.Fire? {
      TimerGrounded(cfg, t, a.timer, a.freshId);
    } else {
      DecidedSectionGrounded(cfg, t, a);
      EvidenceGrows(b, t.evidence, a);
      GroundedStays(cfg, Section(cfg, t, a), t.evidence, Testify(b, t.evidence, a));
    }
  }

  lemma DecidedSectionGrounded(cfg: Config, t: Turn, a: Action)
    requires Sound(t.buf) && ValidConfig(cfg) && EvidenceSound(t.buf, t.evidence) && Grounded(cfg, t.buf, t.evidence)
    requires !a.Fire?
    ensures Grounded(cfg, Section(cfg, t, a), t.evidence)
  {
    hide Grounded, EvidenceSound, Transcript, Activity, TimerFires, HandleResult;
    var b := t.buf;
    match a
    case Hear(eq, q, r, text, info) => TranscriptGrounded(cfg, b, t.evidence, eq, q, r, text, info);
    case Speak(q, r, active) => ActivityGrounded(cfg, b, t.evidence, q, r, active);
    case Record(k) => if k < |t.evidence.verdicts| { VerdictGrounded(cfg, b, t.evidence, k); }
    case Settle(k) => if k < |t.evidence.verdicts| { VerdictGrounded(cfg, b, t.evidence, k); }
    case _ => OtherSectionGrounded(cfg, t, a);
  }

  // ----- dialogue --------------------------------------------------------------------------

  lemma PromptKeepsDialogue(cfg: Config, b: Buf, b': Buf, d: Dialogue, id: string, answer: Option<Intent>)
    requires Sound(b) && DialogueSound(cfg, b, d)
    requires Prompted(cfg, b, b', id) && forall i :: 0 <= i < |d.prompts| ==> d.prompts[i].id != id
    ensures DialogueSound(cfg, b', Discuss(d, b, b', answer))
  {
    var d' := Discuss(d, b, b', answer);
    assert d'.prompts == d.prompts + [Prompt(id, Held(b))];
    forall i | 0 <= i < |d.resolved| ensures Begun(d', d.resolved[i].id) && d.resolved[i].id != id {
      assert Begun(d, d.resolved[i].id);
      var k :| 0 <= k < |d.prompts| && d.prompts[k].id == d.resolved[i].id;
      assert d'.prompts[k].id == d.resolved[i].id;
    }
  }

  /** A prompt that ends joins the resolved ones, none of which has its id. */
  lemma EndedPromptIsNew(cfg: Config, b: Buf, d: Dialogue, end: Resolution)
    requires DialogueSound(cfg, b, d) && b.confirmationId == Some(end.id)
    ensures NoRepeats(d.resolved + [end]) && Begun(d, end.id)
  {
    hide Blank;
    assert d.prompts[|d.prompts| - 1].id == end.id;
  }

  lemma BegunStays(d: Dialogue, d': Dialogue, id: string)
    requires d'.prompts == d.prompts && Begun(d, id)
    ensures Begun(d', id)
  {
  }

  lemma MoveKeepsDialogue(cfg: Config, b: Buf, b': Buf, d: Dialogue, answer: Option<Intent>)
    requires Sound(b) && DialogueSound(cfg, b, d) && Moves(cfg, b, b')
    ensures DialogueSound(cfg, b', Discuss(d, b, b', answer))
  {
    assert b'.revision == b.revision ==> Held(b') == Held(b);
    hide NoRepeats, Begun, Follows, SubmitMove, Blank;
    var d' := Discuss(d, b, b', answer);
    assert d'.prompts == d.prompts;
    if b.confirmationId.Some? {
      EndedPromptIsNew(cfg, b, d, Resolution(b.confirmationId.value, b.responseSpeechActive, answer));
      BegunStays(d, d', b.confirmationId.value);
    }
    forall i | 0 <= i < |d.resolved| ensures Begun(d', d.resolved[i].id) {
      BegunStays(d, d', d.resolved[i].id);
    }
  }

  /** While a candidate stands, no prompt is begun and none ends. */
  lemma CandidateIsQuiet(cfg: Config, b: Buf, b': Buf, d: Dialogue, answer: Option<Intent>)
    requires Sound(b) && Moves(cfg, b, b')
    requires b.completionReason.Some? && b'.completionReason == b.completionReason
    ensures Discuss(d, b, b', answer) == d
  {
  }

  /** The prompt that was playing out ends, and the dialogue ends with it. */
  lemma LastPromptEnds(cfg: Config, b: Buf, b': Buf, d: Dialogue, answer: Option<Intent>)
    requires Sound(b) && DialogueSound(cfg, b, d) && Moves(cfg, b, b')
    requires b.state == ConfirmingEnd && b'.state == CompleteCandidate
    ensures var d' := Discuss(d, b, b', answer);
            && EndsWith(d', b.revision, answer) && d'.prompts == d.prompts
            && d'.resolved[|d'.resolved| - 1].midSpeech == b.responseSpeechActive
  {
    hide Talks, Follows, SubmitMove, Blank, NoRepeats, Begun;
    assert d.prompts[|d.prompts| - 1] == Prompt(b.confirmationId.value, Held(b));
  }

  lemma CandidateKept(cfg: Config, b: Buf, b': Buf, d: Dialogue, answer: Option<Intent>)
    requires Sound(b) && DialogueSound(cfg, b, d) && CandidateSound(cfg, b, d)
    requires Moves(cfg, b, b') && CandidateMove(cfg, b, b', answer)
    ensures CandidateSound(cfg, b', Discuss(d, b, b', answer))
  {
    if b'.completionReason in {Some(ListeningCutoff), Some(UserConfirmed)} {
      if b'.completionReason == b.completionReason {
        CandidateIsQuiet(cfg, b, b', d, answer);
      } else if b.state == ConfirmingEnd {
        LastPromptEnds(cfg, b, b', d, answer);
      }
    }
  }

  // ----- submissions -----------------------------------------------------------------------

  lemma NewSubmissionJustified(cfg: Config, b: Buf, e: Evidence, d: Dialogue)
    requires Sound(b) && b.state == CompleteCandidate
    requires Grounded(cfg, b, e) && CandidateSound(cfg, b, d)
    ensures Justified(cfg, e, Submission(RequestOf(b), d, InFlight))
  {
    CollapseStrip(b.answerText);
    StripKeepsBlank(b.answerText);
  }

  /** One more submission, all earlier ones aborted. */
  lemma AddedSubmission(cfg: Config, b: Buf, e: Evidence, s: seq<Submission>, last: Submission)
    requires b.state == Committing && b.completionReason.Some?
    requires last.request == RequestOf(b) && last.status == InFlight && Justified(cfg, e, last)
    requires forall i :: 0 <= i < |s| ==> Justified(cfg, e, s[i]) && s[i].status == Aborted
    ensures SubmissionsSound(cfg, b, e, s + [last])
  {
    var s' := s + [last];
    forall i | 0 <= i < |s'| ensures Justified(cfg, e, s'[i]) {
      assert i < |s| ==> Justified(cfg, e, s[i]);
    }
  }

  lemma AllAborted(cfg: Config, b: Buf, e: Evidence, s: seq<Submission>)
    requires SubmissionsSound(cfg, b, e, s) && b.state == CompleteCandidate
    ensures forall i :: 0 <= i < |s| ==> Justified(cfg, e, s[i]) && s[i].status == Aborted
  {
  }

  lemma BegunSubmission(cfg: Config, b: Buf, e: Evidence, d: Dialogue, s: seq<Submission>)
    requires Sound(b) && b.state == CompleteCandidate
    requires Justified(cfg, e, Submission(RequestOf(b), d, InFlight))
    requires SubmissionsSound(cfg, b, e, s)
    ensures var b' := b.(state := Committing);
            SubmissionsSound(cfg, b', e, Submit(s, d, b, b'))
  {
    RequestIgnoresState(b);
    AllAborted(cfg, b, e, s);
    AddedSubmission(cfg, b.(state := Committing), e, s, Submission(RequestOf(b), d, InFlight));
  }

  lemma RequestIgnoresState(b: Buf)
    requires b.completionReason.Some?
    ensures RequestOf(b.(state := Committing)) == RequestOf(b)
  {
  }

  lemma EndedSubmission(cfg: Config, b: Buf, b': Buf, e: Evidence, s: seq<Submission>, status: Status)
    requires SubmissionsSound(cfg, b, e, s) && b.state == Committing
    requires status == Succeeded <==> b'.state == Committed
    requires status == Aborted <==> b'.state != Committed
    requires b'.state != Committing
    ensures SubmissionsSound(cfg, b', e, SetLast(s, status))
  {
    var s' := SetLast(s, status);
    forall i | 0 <= i < |s'| ensures Justified(cfg, e, s'[i]) {
      assert Justified(cfg, e, s[i]);
    }
  }

  lemma JustifiedStays(cfg: Config, e: Evidence, e': Evidence, s: Submission)
    requires Justified(cfg, e, s) && Extends(e, e')
    ensures Justified(cfg, e', s)
  {
    if s.request.reason == SemanticComplete || s.request.reason == ExplicitFinish {
      EndorsedStays(cfg, e, e', s.request.reason, Collapse(s.request.answerText));
    }
  }

  lemma SubmissionsKept(cfg: Config, b: Buf, b': Buf, e: Evidence, d: Dialogue, s: seq<Submission>)
    requires Sound(b) && Moves(cfg, b, b')
    requires Grounded(cfg, b, e) && CandidateSound(cfg, b, d)
    requires SubmissionsSound(cfg, b, e, s)
    ensures SubmissionsSound(cfg, b', e, Submit(s, d, b, b'))
  {
    if b'.state == Committing && b.state != Committing {
      NewSubmissionJustified(cfg, b, e, d);
      BegunSubmission(cfg, b, e, d, s);
    } else if b.state == Committing && b'.state == Committed {
      EndedSubmission(cfg, b, b', e, s, Succeeded);
    } else if b.state == Committing && b'.state != Committing {
      EndedSubmission(cfg, b, b', e, s, Aborted);
    }
  }

  lemma TextsKept(cfg: Config, b: Buf, b': Buf, d: Dialogue, s: seq<Submission>)
    requires Sound(b) && Follows(b, b') && SubmitMove(b, b') && TextsAgree(b, s)
    ensures TextsAgree(b', Submit(s, d, b, b'))
  {
    var s' := Submit(s, d, b, b');
    if b'.state == Committing && b.state != Committing {
      assert s' == s + [Submission(RequestOf(b'), d, InFlight)];
    } else {
      assert |s'| == |s| && forall i :: 0 <= i < |s| ==> s'[i].request == s[i].request;
    }
  }

  // ----- the invariant of a turn -------------------------------------------------------------

  /** The parts of the invariant that depend on what the buffer did. */
  lemma HistoryKept(cfg: Config, t: Turn, a: Action, b': Buf)
    requires ValidConfig(cfg) && TurnSound(cfg, t) && Acts(cfg, t, a, b')
    requires CandidateMove(cfg, t.buf, b', Answer(t.buf, a))
    ensures Sound(b') && Follows(t.buf, b')
    ensures var d' := Discuss(t.dialogue, t.buf, b', Answer(t.buf, a));
            DialogueSound(cfg, b', d') && CandidateSound(cfg, b', d')
    ensures var s' := Submit(t.submissions, t.dialogue, t.buf, b');
            SubmissionsSound(cfg, b', t.evidence, s') && TextsAgree(b', s')
  {
    var answer := Answer(t.buf, a);
    if Moves(cfg, t.buf, b') {
      MovedHistory(cfg, t.buf, b', t.evidence, t.dialogue, t.submissions, answer);
    } else {
      PromptKeepsDialogue(cfg, t.buf, b', t.dialogue, Strip(a.freshId), answer);
      PromptedHistory(cfg, t.buf, b', t.evidence, t.dialogue, t.submissions, Strip(a.freshId), answer);
    }
  }

  lemma MovedHistory(
    cfg: Config, b: Buf, b': Buf, e: Evidence, d: Dialogue, s: seq<Submission>, answer: Option<Intent>)
    requires Sound(b) && Grounded(cfg, b, e) && DialogueSound(cfg, b, d) && CandidateSound(cfg, b, d)
    requires SubmissionsSound(cfg, b, e, s) && TextsAgree(b, s)
    requires Moves(cfg, b, b') && CandidateMove(cfg, b, b', answer)
    ensures var d' := Discuss(d, b, b', answer);
            DialogueSound(cfg, b', d') && CandidateSound(cfg, b', d')
    ensures SubmissionsSound(cfg, b', e, Submit(s, d, b, b')) && TextsAgree(b', Submit(s, d, b, b'))
  {
    MoveKeepsDialogue(cfg, b, b', d, answer);
    CandidateKept(cfg, b, b', d, answer);
    SubmissionsKept(cfg, b, b', e, d, s);
    TextsKept(cfg, b, b', d, s);
  }

  lemma PromptedHistory(
    cfg: Config, b: Buf, b': Buf, e: Evidence, d: Dialogue, s: seq<Submission>, id: string, answer: Option<Intent>)
    requires Sound(b) && CandidateSound(cfg, b, d) && SubmissionsSound(cfg, b, e, s) && TextsAgree(b, s)
    requires Prompted(cfg, b, b', id)
    ensures Sound(b') && Follows(b, b') && CandidateSound(cfg, b', Discuss(d, b, b', answer))
    ensures SubmissionsSound(cfg, b', e, Submit(s, d, b, b')) && TextsAgree(b', Submit(s, d, b, b'))
  {
  }

  lemma ApplyKeeps(cfg: Config, t: Turn, a: Action)
    requires ValidConfig(cfg) && TurnSound(cfg, t)
    ensures TurnSound(cfg, Apply(cfg, t, a)) && Follows(t.buf, Apply(cfg, t, a).buf)
  {
    var b, b' := t.buf, Section(cfg, t, a);
    var e' := Testify(b, t.evidence, a);
    SectionActs(cfg, t, a);
    SectionCandidates(cfg, t, a);
    SectionGrounded(cfg, t, a);
    HistoryKept(cfg, t, a, b');
    EvidenceKept(b, b', t.evidence, a);
    EvidenceGrows(b, t.evidence, a);
    PromptsKept(cfg, t, a);
    var s' := Submit(t.submissions, t.dialogue, b, b');
    forall i | 0 <= i < |s'| ensures Justified(cfg, e', s'[i]) {
      JustifiedStays(cfg, t.evidence, e', s'[i]);
    }
  }

  /** A decision that still asks is a suggestion of the judge, or of a stall. */
  lemma WantedIsSuggested(cfg: Config, b: Buf, e: Evidence)
    requires EvidenceSound(b, e) && Grounded(cfg, b, e) && WantsPrompt(cfg, b)
    ensures Suggested(cfg, e, Held(b)) || Held(b) in e.stalls
  {
    var d := b.decision.value;
    if JudgedHere(e, d, Held(b)) {
      var k :| 0 <= k < |e.verdicts| && e.verdicts[k].result.decision == d && e.verdicts[k].snapshot == Held(b);
      assert ValidResult(e.verdicts[k].result);
      assert Suggests(cfg, e.verdicts[k]);
    }
  }

  lemma GroundedPromptStays(cfg: Config, e: Evidence, e': Evidence, p: Prompt)
    requires Extends(e, e') && (Suggested(cfg, e, p.about) || p.about in e.stalls)
    ensures Suggested(cfg, e', p.about) || p.about in e'.stalls
  {
    if Suggested(cfg, e, p.about) {
      var k :| 0 <= k < |e.verdicts| && Suggests(cfg, e.verdicts[k]) && e.verdicts[k].snapshot == p.about;
      assert Suggests(cfg, e'.verdicts[k]);
    } else {
      StalledStays(e, e', p.about);
    }
  }

  lemma PromptsKept(cfg: Config, t: Turn, a: Action)
    requires ValidConfig(cfg) && TurnSound(cfg, t)
    ensures PromptsGrounded(cfg, Testify(t.buf, t.evidence, a), Apply(cfg, t, a).dialogue.prompts)
  {
    var b', e' := Section(cfg, t, a), Testify(t.buf, t.evidence, a);
    var prompts, prompts' := t.dialogue.prompts, Apply(cfg, t, a).dialogue.prompts;
    SectionActs(cfg, t, a);
    EvidenceGrows(t.buf, t.evidence, a);
    hide Section, Testify, Suggested;
    forall i | 0 <= i < |prompts'|
      ensures Suggested(cfg, e', prompts'[i].about) || prompts'[i].about in e'.stalls
    {
      if i < |prompts| {
        assert prompts'[i] == prompts[i];
      } else {
        assert WantsPrompt(cfg, t.buf) && prompts'[i].about == Held(t.buf);
        WantedIsSuggested(cfg, t.buf, t.evidence);
      }
      GroundedPromptStays(cfg, t.evidence, e', prompts'[i]);
    }
  }

  lemma EvidenceGrows(b: Buf, e: Evidence, a: Action)
    ensures Extends(e, Testify(b, e, a))
  {
  }

  lemma NewTurnSound(cfg: Config, sessionId: string, questionId: string)
    ensures TurnSound(cfg, NewTurn(sessionId, questionId))
  {
  }

  /** Every reachable state of a turn satisfies the invariant. */
  lemma {:induction false} RunKeeps(cfg: Config, t: Turn, actions: seq<Action>)
    requires ValidConfig(cfg) && TurnSound(cfg, t)
    ensures TurnSound(cfg, Run(cfg, t, actions))
    decreases |actions|
  {
    if actions != [] {
      RunKeeps(cfg, t, actions[..|actions| - 1]);
      ApplyKeeps(cfg, Run(cfg, t, actions[..|actions| - 1]), actions[|actions| - 1]);
    }
  }

  // ----- consequences for whole runs ---------------------------------------------------------

  lemma {:induction false} RunSplits(cfg: Config, t: Turn, before: seq<Action>, after: seq<Action>)
    ensures Run(cfg, t, before + after) == Run(cfg, Run(cfg, t, before), after)
    decreases |after|
  {
    if after == [] {
      assert before + after == before;
    } else {
      var init, last := after[..|after| - 1], after[|after| - 1];
      RunSplits(cfg, t, before, init);
      assert (before + after)[..|before + after| - 1] == before + init;
    }
  }

  /**
    Revision determines text. Between any two moments of a turn's life the revision does not
    fall, and while it stays the same so does the text; a committed turn never changes again.
   */
  lemma {:induction false} RevisionDeterminesText(cfg: Config, t: Turn, actions: seq<Action>)
    requires ValidConfig(cfg) && TurnSound(cfg, t)
    ensures Follows(t.buf, Run(cfg, t, actions).buf)
    decreases |actions|
  {
    if actions != [] {
      var init := actions[..|actions| - 1];
      RevisionDeterminesText(cfg, t, init);
      RunKeeps(cfg, t, init);
      ApplyKeeps(cfg, Run(cfg, t, init), actions[|actions| - 1]);
    }
  }

  /** Two submissions of a turn with the same idempotency id carry the same text. */
  lemma EqualEventIdsCarryEqualText(
    cfg: Config, sessionId: string, questionId: string, actions: seq<Action>, i: nat, j: nat)
    requires ValidConfig(cfg)
    requires var s := Run(cfg, NewTurn(sessionId, questionId), actions).submissions;
             i < |s| && j < |s| && EventId(s[i].request) == EventId(s[j].request)
    ensures var s := Run(cfg, NewTurn(sessionId, questionId), actions).submissions;
            s[i].request.answerText == s[j].request.answerText
  {
    hide Run, EventId;
    NewTurnSound(cfg, sessionId, questionId);
    RunKeeps(cfg, NewTurn(sessionId, questionId), actions);
    var s := Run(cfg, NewTurn(sessionId, questionId), actions).submissions;
    EventIdsTell(s[i].request, s[j].request);
  }

  /**
    Provenance. An answer submitted because it is finished has, up to whitespace, a text that
    the judge itself called finished, ready for submission and certain enough, without a
    fallback; and that text had been shown to the judge as the answer of some revision.
   */
  lemma FinishedAnswersWereJudged(
    cfg: Config, sessionId: string, questionId: string, actions: seq<Action>, n: nat)
    requires ValidConfig(cfg)
    requires var s := Run(cfg, NewTurn(sessionId, questionId), actions).submissions;
             n < |s| && s[n].request.reason in {SemanticComplete, ExplicitFinish}
    ensures var t := Run(cfg, NewTurn(sessionId, questionId), actions);
            exists k :: 0 <= k < |t.evidence.verdicts|
              && Endorses(cfg, t.evidence.verdicts[k], t.submissions[n].request.reason)
              && Collapse(t.evidence.verdicts[k].snapshot.text) == Collapse(t.submissions[n].request.answerText)
  {
    NewTurnSound(cfg, sessionId, questionId);
    RunKeeps(cfg, NewTurn(sessionId, questionId), actions);
    var t := Run(cfg, NewTurn(sessionId, questionId), actions);
    assert Justified(cfg, t.evidence, t.submissions[n]);
  }

  /**
    Fair cutoff. The confirmations counted are the prompts begun, never more than allowed; and
    an answer is cut off only with no prompt left, or when the last prompt was for that very
    revision, the client was ready to hear the response, and the prompt ended with no response
    applied and none being spoken. Either way a prompt had been begun. An answer counts as
    confirmed only if the response to its last prompt, for that revision, was "finished".
   */
  lemma CutoffsAreFair(
    cfg: Config, sessionId: string, questionId: string, actions: seq<Action>, n: nat)
    requires ValidConfig(cfg)
    requires n < |Run(cfg, NewTurn(sessionId, questionId), actions).submissions|
    ensures var t := Run(cfg, NewTurn(sessionId, questionId), actions);
            var s := t.submissions[n];
            && t.buf.confirmationCount == |t.dialogue.prompts| <= cfg.maxConfirmations
            && (s.request.reason == ListeningCutoff ==>
                  && (|| |s.dialogue.prompts| >= cfg.maxConfirmations
                      || Unanswered(s.dialogue, s.request.revision))
                  && |s.dialogue.prompts| >= 1)
            && (s.request.reason == UserConfirmed ==> Confirmed(s.dialogue, s.request.revision))
  {
    NewTurnSound(cfg, sessionId, questionId);
    RunKeeps(cfg, NewTurn(sessionId, questionId), actions);
    var t := Run(cfg, NewTurn(sessionId, questionId), actions);
    assert Justified(cfg, t.evidence, t.submissions[n]);
  }

  /**
    One submission counts: whenever a submission begins, all earlier ones were aborted; so at
    most one is in flight, and none begins after one succeeded.
   */
  lemma OneSubmissionCounts(
    cfg: Config, sessionId: string, questionId: string, actions: seq<Action>, i: nat)
    requires ValidConfig(cfg)
    requires i < |Run(cfg, NewTurn(sessionId, questionId), actions).submissions|
    ensures var t := Run(cfg, NewTurn(sessionId, questionId), actions);
            && (i < |t.submissions| - 1 ==> t.submissions[i].status == Aborted)
            && (t.submissions[i].status == InFlight <==>
                  i == |t.submissions| - 1 && t.buf.state == Committing)
            && (t.submissions[i].status == Succeeded <==>
                  i == |t.submissions| - 1 && t.buf.state == Committed)
  {
    NewTurnSound(cfg, sessionId, questionId);
    RunKeeps(cfg, NewTurn(sessionId, questionId), actions);
  }

  lemma {:induction false} SuccessIsFinal(cfg: Config, t: Turn, actions: seq<Action>)
    requires ValidConfig(cfg) && TurnSound(cfg, t) && t.buf.state == Committed
    ensures Run(cfg, t, actions).buf == t.buf && Run(cfg, t, actions).submissions == t.submissions
    decreases |actions|
  {
    if actions != [] {
      var init := actions[..|actions| - 1];
      SuccessIsFinal(cfg, t, init);
      RunKeeps(cfg, t, init);
      ApplyKeeps(cfg, Run(cfg, t, init), actions[|actions| - 1]);
    }
  }

  // ----- confirmations ---------------------------------------------------------------------

  predicate Active(t: Turn, id: string) {
    t.buf.confirmationId == Some(id)
  }

  lemma {:induction false} ResolvedGrows(cfg: Config, t: Turn, actions: seq<Action>)
    ensures t.dialogue.resolved <= Run(cfg, t, actions).dialogue.resolved
    decreases |actions|
  {
    if actions != [] {
      ResolvedGrows(cfg, t, actions[..|actions| - 1]);
    }
  }

  predicate Resolved(t: Turn, id: string) {
    exists k :: 0 <= k < |t.dialogue.resolved| && t.dialogue.resolved[k].id == id
  }

  lemma {:induction false} LeftMeansResolved(cfg: Config, t: Turn, actions: seq<Action>, id: string)
    requires Active(t, id) && !Active(Run(cfg, t, actions), id)
    ensures Resolved(Run(cfg, t, actions), id)
    decreases |actions|
  {
    var init := actions[..|actions| - 1];
    var t1, d' := Run(cfg, t, init), Run(cfg, t, actions).dialogue;
    if Active(t1, id) {
      assert d'.resolved[|t1.dialogue.resolved|].id == id;
    } else {
      LeftMeansResolved(cfg, t, init, id);
      var k :| 0 <= k < |t1.dialogue.resolved| && t1.dialogue.resolved[k].id == id;
      assert d'.resolved[k].id == id;
    }
  }

  /**
    A confirmation is resolved once: when an active id stops being active, by whatever event,
    it never becomes active again; and the resolutions of a turn name no id twice.
   */
  lemma ConfirmationsResolveOnce(
    cfg: Config, t: Turn, during: seq<Action>, after: seq<Action>, id: string)
    requires ValidConfig(cfg) && TurnSound(cfg, t)
    requires Active(t, id) && !Active(Run(cfg, t, during), id)
    ensures !Active(Run(cfg, t, during + after), id)
    ensures NoRepeats(Run(cfg, t, during + after).dialogue.resolved)
  {
    LeftMeansResolved(cfg, t, during, id);
    RunSplits(cfg, t, during, after);
    ResolvedGrows(cfg, Run(cfg, t, during), after);
    RunKeeps(cfg, t, during + after);
    var end := Run(cfg, t, during + after).dialogue.resolved;
    var k :| 0 <= k < |Run(cfg, t, during).dialogue.resolved|
             && Run(cfg, t, during).dialogue.resolved[k].id == id;
    assert end[k].id == id;
  }

  lemma AppliedResponseResolves(
    b: Buf, id: string, q: string, r: nat, rr: nat, d: IntentDecision)
    requires Response(b, id, q, r, rr, d).error.None?
    ensures ResponseExpected(b, id, q, r)
    ensures Response(b, id, q, r, rr, d).buf.confirmationId.None?
  {
  }

  /** The confirmation has ended, with this response or without any. */
  predicate OnRecord(t: Turn, id: string, answer: Option<Intent>) {
    exists k :: 0 <= k < |t.dialogue.resolved|
             && t.dialogue.resolved[k].id == id && t.dialogue.resolved[k].answer == answer
  }

  lemma ResponseIsRecorded(cfg: Config, t: Turn, response: Action)
    requires response.Respond? && Answer(t.buf, response).Some?
    ensures OnRecord(Apply(cfg, t, response), response.id, Some(response.intent.intent))
  {
    var resolved := Apply(cfg, t, response).dialogue.resolved;
    AppliedResponseResolves(t.buf, response.id, response.question, response.revision,
                            response.responseRevision, response.intent);
    assert resolved[|resolved| - 1].id == response.id;
  }

  lemma RecordsStay(cfg: Config, t: Turn, actions: seq<Action>, id: string, answer: Option<Intent>)
    requires OnRecord(t, id, answer)
    ensures OnRecord(Run(cfg, t, actions), id, answer)
  {
    ResolvedGrows(cfg, t, actions);
    var k :| 0 <= k < |t.dialogue.resolved|
             && t.dialogue.resolved[k].id == id && t.dialogue.resolved[k].answer == answer;
    assert Run(cfg, t, actions).dialogue.resolved[k] == t.dialogue.resolved[k];
  }

  /** A response that was applied at any moment of a run is on record at its end. */
  lemma ResponsesAreRecorded(cfg: Config, t: Turn, actions: seq<Action>, k: nat)
    requires k < |actions| && actions[k].Respond?
    requires Answer(Run(cfg, t, actions[..k]).buf, actions[k]).Some?
    ensures OnRecord(Run(cfg, t, actions), actions[k].id, Some(actions[k].intent.intent))
  {
    hide Apply, OnRecord;
    ResponseIsRecorded(cfg, Run(cfg, t, actions[..k]), actions[k]);
    assert actions[..k + 1][..k] == actions[..k];
    RecordsStay(cfg, Run(cfg, t, actions[..k + 1]), actions[k + 1..], actions[k].id,
                Some(actions[k].intent.intent));
    RunSplits(cfg, t, actions[..k + 1], actions[k + 1..]);
    assert actions[..k + 1] + actions[k + 1..] == actions;
  }

  lemma SubmittedDialogue(cfg: Config, t: Turn, a: Action, n: nat)
    requires n < |Apply(cfg, t, a).submissions|
    ensures var t' := Apply(cfg, t, a);
            && t.dialogue.resolved <= t'.dialogue.resolved
            && t'.submissions[n].dialogue
                 == if n < |t.submissions| then t.submissions[n].dialogue else t.dialogue
  {
    hide Section, Testify, Answer, RequestOf;
  }

  /** What a submission remembers of the dialogue is how the dialogue began. */
  lemma {:induction false} SubmissionsRemember(
    cfg: Config, sessionId: string, questionId: string, actions: seq<Action>, n: nat)
    requires n < |Run(cfg, NewTurn(sessionId, questionId), actions).submissions|
    ensures var t := Run(cfg, NewTurn(sessionId, questionId), actions);
            t.submissions[n].dialogue.resolved <= t.dialogue.resolved
    decreases |actions|
  {
    if actions != [] {
      hide Apply;
      var init := actions[..|actions| - 1];
      SubmittedDialogue(cfg, Run(cfg, NewTurn(sessionId, questionId), init), actions[|actions| - 1], n);
      if n < |Run(cfg, NewTurn(sessionId, questionId), init).submissions| {
        SubmissionsRemember(cfg, sessionId, questionId, init, n);
      }
    }
  }

  /**
    A cutoff with prompts left was never answered: whatever responses to the last prompt arrived
    in the whole run, before or after the submission, every one of them was refused.
   */
  lemma CutoffsWereNotAnswered(
    cfg: Config, sessionId: string, questionId: string, actions: seq<Action>, n: nat, k: nat)
    requires ValidConfig(cfg)
    requires n < |Run(cfg, NewTurn(sessionId, questionId), actions).submissions|
    requires k < |actions| && actions[k].Respond?
    ensures var s := Run(cfg, NewTurn(sessionId, questionId), actions).submissions[n];
            var before := Run(cfg, NewTurn(sessionId, questionId), actions[..k]).buf;
            var prompts, a := s.dialogue.prompts, actions[k];
            s.request.reason == ListeningCutoff && |prompts| < cfg.maxConfirmations ==>
              && prompts != []
              && (a.id == prompts[|prompts| - 1].id ==>
                    Response(before, a.id, a.question, a.revision, a.responseRevision, a.intent).error.Some?)
  {
    hide Run, TurnSound, Response;
    var t0 := NewTurn(sessionId, questionId);
    var t := Run(cfg, t0, actions);
    var s, a := t.submissions[n], actions[k];
    if s.request.reason == ListeningCutoff && |s.dialogue.prompts| < cfg.maxConfirmations {
      CutoffsAreFair(cfg, sessionId, questionId, actions, n);
      SubmissionsRemember(cfg, sessionId, questionId, actions, n);
      if a.id == s.dialogue.prompts[|s.dialogue.prompts| - 1].id
         && Answer(Run(cfg, t0, actions[..k]).buf, a).Some?
      {
        ResponsesAreRecorded(cfg, t0, actions, k);
        ResolutionsAreUnique(cfg, sessionId, questionId, actions, a.id,
                             |s.dialogue.resolved| - 1, Some(a.intent.intent));
      }
    }
  }

  /** The moment the response on record was applied. */
  predicate AppliedAt(cfg: Config, t: Turn, actions: seq<Action>, k: nat, id: string, intent: Intent) {
    && k < |actions| && actions[k].Respond? && actions[k].id == id && actions[k].intent.intent == intent
    && Answer(Run(cfg, t, actions[..k]).buf, actions[k]).Some?
  }

  predicate WasApplied(cfg: Config, t: Turn, actions: seq<Action>, id: string, intent: Intent) {
    exists k :: 0 <= k < |actions| && AppliedAt(cfg, t, actions, k, id, intent)
  }

  lemma NewResolution(cfg: Config, t: Turn, a: Action, i: nat)
    requires i < |Apply(cfg, t, a).dialogue.resolved|
    ensures var end := Apply(cfg, t, a).dialogue.resolved[i];
            if i < |t.dialogue.resolved| then end == t.dialogue.resolved[i]
            else end.answer == Answer(t.buf, a) && t.buf.confirmationId == Some(end.id)
  {
    hide Section, Testify, Answer, Submit;
  }

  lemma AppliedBefore(cfg: Config, t: Turn, actions: seq<Action>, id: string, intent: Intent)
    requires actions != [] && WasApplied(cfg, t, actions[..|actions| - 1], id, intent)
    ensures WasApplied(cfg, t, actions, id, intent)
  {
    hide Run, Answer;
    var init := actions[..|actions| - 1];
    var k :| 0 <= k < |init| && AppliedAt(cfg, t, init, k, id, intent);
    assert actions[..k] == init[..k];
    assert AppliedAt(cfg, t, actions, k, id, intent);
  }

  lemma AppliedLast(cfg: Config, t: Turn, actions: seq<Action>, id: string)
    requires actions != []
    requires var b := Run(cfg, t, actions[..|actions| - 1]).buf;
             && Answer(b, actions[|actions| - 1]).Some? && b.confirmationId == Some(id)
    ensures var b := Run(cfg, t, actions[..|actions| - 1]).buf;
            WasApplied(cfg, t, actions, id, Answer(b, actions[|actions| - 1]).value)
  {
    hide Run, Response;
    var b, a := Run(cfg, t, actions[..|actions| - 1]).buf, actions[|actions| - 1];
    AppliedResponseResolves(b, a.id, a.question, a.revision, a.responseRevision, a.intent);
    assert AppliedAt(cfg, t, actions, |actions| - 1, id, a.intent.intent);
  }

  /** A response on record was applied at some moment of the run. */
  lemma {:induction false} RecordedWasApplied(
    cfg: Config, sessionId: string, questionId: string, actions: seq<Action>, i: nat)
    requires i < |Run(cfg, NewTurn(sessionId, questionId), actions).dialogue.resolved|
    requires Run(cfg, NewTurn(sessionId, questionId), actions).dialogue.resolved[i].answer.Some?
    ensures var t0 := NewTurn(sessionId, questionId);
            var end := Run(cfg, t0, actions).dialogue.resolved[i];
            WasApplied(cfg, t0, actions, end.id, end.answer.value)
    decreases |actions|
  {
    var t0 := NewTurn(sessionId, questionId);
    if actions != [] {
      hide Apply, NewTurn, Answer, WasApplied;
      var init, a := actions[..|actions| - 1], actions[|actions| - 1];
      var end := Run(cfg, t0, actions).dialogue.resolved[i];
      NewResolution(cfg, Run(cfg, t0, init), a, i);
      if i < |Run(cfg, t0, init).dialogue.resolved| {
        RecordedWasApplied(cfg, sessionId, questionId, init, i);
        AppliedBefore(cfg, t0, actions, end.id, end.answer.value);
      } else {
        AppliedLast(cfg, t0, actions, end.id);
      }
    }
  }

  /** An answer counts as confirmed only if "finished" was applied to its last prompt. */
  lemma ConfirmedAnswersWereConfirmed(
    cfg: Config, sessionId: string, questionId: string, actions: seq<Action>, n: nat)
    requires ValidConfig(cfg)
    requires var s := Run(cfg, NewTurn(sessionId, questionId), actions).submissions;
             n < |s| && s[n].request.reason == UserConfirmed
    ensures var t0 := NewTurn(sessionId, questionId);
            var s := Run(cfg, t0, actions).submissions[n];
            && s.dialogue.prompts != []
            && WasApplied(cfg, t0, actions, s.dialogue.prompts[|s.dialogue.prompts| - 1].id, Finish)
  {
    hide Run, TurnSound;
    CutoffsAreFair(cfg, sessionId, questionId, actions, n);
    SubmissionsRemember(cfg, sessionId, questionId, actions, n);
    var resolved := Run(cfg, NewTurn(sessionId, questionId), actions).submissions[n].dialogue.resolved;
    RecordedWasApplied(cfg, sessionId, questionId, actions, |resolved| - 1);
  }

  lemma ResolutionsAreUnique(
    cfg: Config, sessionId: string, questionId: string, actions: seq<Action>, id: string,
    i: nat, answer: Option<Intent>)
    requires ValidConfig(cfg)
    requires var t := Run(cfg, NewTurn(sessionId, questionId), actions);
             && i < |t.dialogue.resolved| && t.dialogue.resolved[i].id == id
             && OnRecord(t, id, answer)
    ensures Run(cfg, NewTurn(sessionId, questionId), actions).dialogue.resolved[i].answer == answer
  {
    hide Run, NewTurn, TurnSound;
    NewTurnSound(cfg, sessionId, questionId);
    RunKeeps(cfg, NewTurn(sessionId, questionId), actions);
    RecordsAreUnique(cfg, Run(cfg, NewTurn(sessionId, questionId), actions), id, i, answer);
  }

  lemma RecordsAreUnique(cfg: Config, t: Turn, id: string, i: nat, answer: Option<Intent>)
    requires TurnSound(cfg, t) && i < |t.dialogue.resolved| && t.dialogue.resolved[i].id == id
    requires OnRecord(t, id, answer)
    ensures t.dialogue.resolved[i].answer == answer
  {
    hide Sound, EvidenceSound, Grounded, PromptsGrounded, CandidateSound, SubmissionsSound, TextsAgree;
    var k :| 0 <= k < |t.dialogue.resolved|
             && t.dialogue.resolved[k].id == id && t.dialogue.resolved[k].answer == answer;
    assert NoRepeats(t.dialogue.resolved);
  }

  /**
    A response is looked up before it is classified and applied afterwards, with anything in
    between. If it is applied, its confirmation was active at every moment in between, and no
    later response to the same confirmation is applied.
   */
  lemma ResponsesApplyOnce(
    cfg: Config, t: Turn, during: seq<Action>, response: Action, after: seq<Action>, k: nat)
    requires ValidConfig(cfg) && TurnSound(cfg, t)
    requires response.Respond? && k <= |during|
    requires ResponseExpected(t.buf, response.id, response.question, response.revision)
    requires Response(Run(cfg, t, during).buf, response.id, response.question, response.revision,
                      response.responseRevision, response.intent).error.None?
    ensures Active(Run(cfg, t, during[..k]), response.id)
    ensures !Active(Run(cfg, t, during + [response] + after), response.id)
  {
    hide Run, TurnSound, Response;
    var id := response.id;
    AppliedResponseResolves(Run(cfg, t, during).buf, id, response.question, response.revision,
                            response.responseRevision, response.intent);
    assert during[..k] + during[k..] == during;
    if !Active(Run(cfg, t, during[..k]), id) {
      ConfirmationsResolveOnce(cfg, t, during[..k], during[k..], id);
    }
    OneMore(cfg, t, during, response);
    ConfirmationsResolveOnce(cfg, t, during + [response], after, id);
  }

  lemma OneMore(cfg: Config, t: Turn, actions: seq<Action>, a: Action)
    ensures Run(cfg, t, actions + [a]).buf == Section(cfg, Run(cfg, t, actions), a)
  {
    assert (actions + [a])[..|actions|] == actions;
  }
}
