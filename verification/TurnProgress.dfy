/**
  What a voice turn does when nothing else disturbs it: timers succeed exactly when they
  match, silence changes the state only so often, and the order of a verdict and the end of
  speech does not matter.

  Progress is stated for a connection that has prepared the turn and whose worker is the only
  one judging it since: a worker judges no revision twice.
 */
module TurnProgress {
  import opened Wrappers
  import opened Text
  import opened TurnModels
  import opened BufferSpec
  import opened CoordinatorSpec
  import opened TurnHistory
  import opened TurnLifecycle
  import opened TurnGuarantees

  // ----- a sole owner ----------------------------------------------------------------------

  /** One worker judges each revision at most once, in increasing order. */
  predicate OneWorker(e: Evidence) {
    forall i, j :: 0 <= i < j < |e.verdicts| ==>
      e.verdicts[i].snapshot.revision < e.verdicts[j].snapshot.revision
  }

  /** A connection takes over: it prepares the buffer and starts with no verdict of its own. */
  function TakeOver(t: Turn): Turn {
    Turn(Prepare(t.buf), Evidence([], [], {}, []), t.dialogue, t.submissions)
  }

  predicate RecordedFor(e: Evidence, revision: nat) {
    exists k :: 0 <= k < |e.verdicts| && k in e.recorded && e.verdicts[k].snapshot.revision == revision
  }

  /** While the turn listens, its decision is the recorded verdict on this revision, if any. */
  predicate DecisionOwned(b: Buf, e: Evidence) {
    b.state == Listening && b.decision.Some? ==>
      && (forall k :: 0 <= k < |e.verdicts| && k in e.recorded && e.verdicts[k].snapshot.revision == b.revision ==>
            e.verdicts[k].result.decision == b.decision.value)
      && (b.speechActive ==> RecordedFor(e, b.revision))
  }

  predicate PendingOwned(cfg: Config, b: Buf) {
    b.state == ConfirmationPending ==> b.decision.Some? && CanConfirm(cfg, b, b.decision.value)
  }

  predicate Owned(cfg: Config, b: Buf, e: Evidence) {
    && Sound(b) && Talks(cfg, b) && EvidenceSound(b, e)
    && (forall k :: k in e.recorded ==> k < |e.verdicts|)
    && DecisionOwned(b, e) && PendingOwned(cfg, b)
  }

  lemma TakeOverOwns(cfg: Config, t: Turn)
    requires Sound(t.buf) && Talks(cfg, t.buf)
    ensures Owned(cfg, TakeOver(t).buf, TakeOver(t).evidence)
    ensures t.buf.state !in {Committing, Committed} ==> TakeOver(t).buf.state == Listening
  {
    PrepareMoves(cfg, t.buf);
  }

  /** Sections that bring in no decision. */
  predicate NoNewDecision(b: Buf, b': Buf) {
    && (b'.state == Listening && b'.decision.Some? ==>
          b.state == Listening && b'.decision == b.decision && b'.revision == b.revision
          && (b'.speechActive ==> b.speechActive))
    && (b'.state == ConfirmationPending ==> b' == b)
  }

  lemma OldOwned(cfg: Config, b: Buf, e: Evidence, b': Buf)
    requires Owned(cfg, b, e) && NoNewDecision(b, b')
    ensures DecisionOwned(b', e) && PendingOwned(cfg, b')
  {
  }

  lemma DecidedOwned(cfg: Config, b: Buf, e: Evidence, d: Decision, b': Buf)
    requires Owned(cfg, b, e) && Decided(cfg, b, d, b')
    requires b.decision == Some(d) || d.action == AutoSubmit
    ensures DecisionOwned(b', e) && PendingOwned(cfg, b')
  {
  }

  lemma CarriedOwned(
    cfg: Config, b: Buf, e: Evidence, q: string, r: nat, text: string, info: SnapshotInfo)
    requires Owned(cfg, b, e) && RepeatsJudgedAnswer(b, text, info)
    requires UpdateTranscript(b, q, r, text, info).Returned? && UpdateTranscript(b, q, r, text, info).value
    ensures var b' := CarryDecision(cfg, UpdateTranscript(b, q, r, text, info).buf, b.decision.value).buf;
            DecisionOwned(b', e) && PendingOwned(cfg, b')
  {
    var d, b1 := b.decision.value, UpdateTranscript(b, q, r, text, info).buf;
    var b2 := RecordDecision(b1, JudgeResult(b1.questionId, b1.revision, d, false)).buf;
    assert forall k :: 0 <= k < |e.verdicts| ==> Current(e.verdicts[k].snapshot, b);
    DecideDecides(cfg, b2, d, b1.revision, false);
  }

  lemma TranscriptOwned(
    cfg: Config, b: Buf, e: Evidence, eq: bool, q: string, r: nat, text: string, info: SnapshotInfo)
    requires Owned(cfg, b, e)
    ensures var b' := Transcript(cfg, b, eq, q, r, text, info).buf;
            DecisionOwned(b', e) && PendingOwned(cfg, b')
  {
    var reply := UpdateTranscript(b, q, r, text, info);
    if reply.Returned? && reply.value && !(eq && r == b.revision) && RepeatsJudgedAnswer(b, text, info) {
      CarriedOwned(cfg, b, e, q, r, text, info);
    } else {
      OldOwned(cfg, b, e, Transcript(cfg, b, eq, q, r, text, info).buf);
    }
  }

  lemma ActivityOwned(cfg: Config, b: Buf, e: Evidence, q: string, r: nat, active: bool)
    requires Owned(cfg, b, e)
    ensures var b' := Activity(cfg, b, q, r, active).buf;
            DecisionOwned(b', e) && PendingOwned(cfg, b')
  {
    hide Decide;
    var reply := UpdateSpeech(b, q, r, active);
    if reply.Returned? {
      var b1 := reply.buf;
      OldOwned(cfg, b, e, b1);
      SpeechUpdateMoves(cfg, b, q, r, active);
      EvidenceKept(b, b1, e, Connect);
      if b1.decision.Some? {
        DecideDecides(cfg, b1, b1.decision.value, r, false);
        DecidedOwned(cfg, b1, e, b1.decision.value, Decide(cfg, b1, b1.decision.value, r, false).buf);
      }
    }
  }

  lemma RecordOwned(cfg: Config, b: Buf, e: Evidence, k: nat)
    requires Owned(cfg, b, e) && OneWorker(e) && k < |e.verdicts|
    ensures var b' := After(b, RecordDecision(b, e.verdicts[k].result));
            var e' := Testify(b, e, Record(k));
            DecisionOwned(b', e') && PendingOwned(cfg, b')
  {
    var e' := Testify(b, e, Record(k));
    if e' != e {
      assert e'.verdicts[k].snapshot.revision == b.revision;
      assert forall j :: 0 <= j < |e.verdicts| && e.verdicts[j].snapshot.revision == b.revision ==> j == k;
    }
  }

  lemma SettleOwned(cfg: Config, b: Buf, e: Evidence, k: nat)
    requires Owned(cfg, b, e) && k < |e.verdicts| && k in e.recorded
    ensures var b' := HandleResult(cfg, b, e.verdicts[k].result).buf;
            DecisionOwned(b', e) && PendingOwned(cfg, b')
  {
    var r := e.verdicts[k].result;
    if AwaitsPolicy(b, r) {
      assert b.decision == Some(r.decision);
      DecideDecides(cfg, b, r.decision, r.revision, r.fallbackUsed);
      DecidedOwned(cfg, b, e, r.decision, Decide(cfg, b, r.decision, r.revision, r.fallbackUsed).buf);
    }
  }

  /** A stalled final answer always leaves the listening state. */
  lemma StallLeaves(cfg: Config, b: Buf, q: string, r: nat)
    requires Sound(b) && Talks(cfg, b) && Stalled(b, q, r)
    ensures var b' := StallFires(cfg, b, q, r).buf;
            b'.state == CompleteCandidate || (b'.state == ConfirmationPending && PendingOwned(cfg, b'))
  {
  }

  lemma TimerOwned(cfg: Config, t: Turn, timer: Timer, id: string)
    requires Owned(cfg, t.buf, t.evidence)
    ensures var b' := TimerFires(cfg, t, timer, id);
            DecisionOwned(b', t.evidence) && PendingOwned(cfg, b')
  {
    var b, e := t.buf, t.evidence;
    match timer
    case CommitGrace(q, r) =>
      GraceStarts(b, q, r);
      OldOwned(cfg, b, e, GraceFires(b, q, r).buf);
    case Stall(q, r) =>
      if Stalled(b, q, r) {
        StallLeaves(cfg, b, q, r);
      }
    case ConfirmationDelay(q, r) =>
      if Fresh(t.dialogue, id) {
        PromptMoves(cfg, b, q, r, id);
        OldOwned(cfg, b, e, DelayFires(cfg, b, q, r, id).buf);
      }
    case ReadyTimeout(q, r, i) => OldOwned(cfg, b, e, ReadyTimeoutFires(b, q, r, i));
    case ResponseTimeout(q, r, i) => OldOwned(cfg, b, e, ResponseTimeoutFires(b, q, r, i).buf);
  }

  /** Ownership is about verdicts, not about stalls. */
  lemma StallsOwnNothing(b: Buf, e: Evidence, e': Evidence)
    requires DecisionOwned(b, e) && e'.verdicts == e.verdicts && e'.recorded == e.recorded
    ensures DecisionOwned(b, e')
  {
    assert RecordedFor(e, b.revision) ==> RecordedFor(e', b.revision);
  }

  lemma OtherSectionOwned(cfg: Config, t: Turn, a: Action)
    requires Owned(cfg, t.buf, t.evidence)
    requires !a.Hear? && !a.Speak? && !a.Accept? && !a.Judge? && !a.Record? && !a.Settle? && !a.Fire?
    ensures DecisionOwned(Section(cfg, t, a), t.evidence) && PendingOwned(cfg, Section(cfg, t, a))
  {
    OldOwned(cfg, t.buf, t.evidence, Section(cfg, t, a));
  }

  lemma SectionOwned(cfg: Config, t: Turn, a: Action)
    requires Owned(cfg, t.buf, t.evidence) && OneWorker(t.evidence)
    ensures DecisionOwned(Section(cfg, t, a), Testify(t.buf, t.evidence, a))
    ensures PendingOwned(cfg, Section(cfg, t, a))
  {
    hide Transcript, Activity, TimerFires, DecisionOwned, PendingOwned;
    var b, e := t.buf, t.evidence;
    match a
    case Hear(eq, q, r, text, info) => TranscriptOwned(cfg, b, e, eq, q, r, text, info);
    case Speak(q, r, active) => ActivityOwned(cfg, b, e, q, r, active);
    case Record(k) => if k < |e.verdicts| { RecordOwned(cfg, b, e, k); }
    case Settle(k) => if k < |e.verdicts| && k in e.recorded { SettleOwned(cfg, b, e, k); }
    case Fire(timer, id) =>
      TimerOwned(cfg, t, timer, id);
      StallsOwnNothing(Section(cfg, t, a), e, Testify(b, e, a));
    case Accept => AcceptOwned(b, e);
    case Judge(i, d, f) => JudgeOwned(b, e, i, d, f);
    case _ => OtherSectionOwned(cfg, t, a);
  }

  lemma AcceptOwned(b: Buf, e: Evidence)
    requires DecisionOwned(b, e)
    ensures DecisionOwned(b, Testify(b, e, Accept))
  {
    assert RecordedFor(e, b.revision) ==> RecordedFor(Testify(b, e, Accept), b.revision);
  }

  lemma JudgeOwned(b: Buf, e: Evidence, i: nat, d: Decision, f: bool)
    requires DecisionOwned(b, e) && forall k :: k in e.recorded ==> k < |e.verdicts|
    ensures DecisionOwned(b, Testify(b, e, Judge(i, d, f)))
  {
    var e' := Testify(b, e, Judge(i, d, f));
    if RecordedFor(e, b.revision) {
      var k :| 0 <= k < |e.verdicts| && k in e.recorded && e.verdicts[k].snapshot.revision == b.revision;
      assert e'.verdicts[k] == e.verdicts[k];
    }
  }

  lemma ApplyOwned(cfg: Config, t: Turn, a: Action)
    requires Owned(cfg, t.buf, t.evidence) && OneWorker(t.evidence)
    ensures var t' := Apply(cfg, t, a);
            Owned(cfg, t'.buf, t'.evidence)
  {
    var b' := Section(cfg, t, a);
    SectionOwned(cfg, t, a);
    SectionActs(cfg, t, a);
    ActsKeep(cfg, t, a, b');
    EvidenceKept(t.buf, b', t.evidence, a);
  }

  lemma FewerVerdictsOneWorker(cfg: Config, t: Turn, a: Action)
    requires OneWorker(Apply(cfg, t, a).evidence)
    ensures OneWorker(t.evidence)
  {
    var e, e' := t.evidence, Apply(cfg, t, a).evidence;
    EvidenceGrows(t.buf, e, a);
    forall i, j | 0 <= i < j < |e.verdicts|
      ensures e.verdicts[i].snapshot.revision < e.verdicts[j].snapshot.revision
    {
      assert e'.verdicts[i] == e.verdicts[i] && e'.verdicts[j] == e.verdicts[j];
    }
  }

  /** Ownership is kept by every run in which no revision is judged twice. */
  lemma {:induction false} RunOwned(cfg: Config, t: Turn, actions: seq<Action>)
    requires Owned(cfg, t.buf, t.evidence)
    requires OneWorker(Run(cfg, t, actions).evidence)
    ensures Owned(cfg, Run(cfg, t, actions).buf, Run(cfg, t, actions).evidence)
    decreases |actions|
  {
    if actions != [] {
      var t1, a := Run(cfg, t, actions[..|actions| - 1]), actions[|actions| - 1];
      FewerVerdictsOneWorker(cfg, t1, a);
      RunOwned(cfg, t, actions[..|actions| - 1]);
      ApplyOwned(cfg, t1, a);
    }
  }

  // ----- timers succeed exactly when they match ------------------------------------------------

  /** The timer was started for the state, question, revision and confirmation of the buffer. */
  predicate Matches(b: Buf, timer: Timer) {
    && timer.question == b.questionId && timer.revision == b.revision
    && match timer
       case CommitGrace(_, _) => b.state == CompleteCandidate
       case Stall(_, _) => b.state == Listening && b.segmentFinal && !Blank(b.answerText)
       case ConfirmationDelay(_, _) => b.state == ConfirmationPending
       case ReadyTimeout(_, _, id) => b.state == ConfirmationPrompting && b.confirmationId == Some(id)
       case ResponseTimeout(_, _, id) =>
         b.state == ConfirmingEnd && b.confirmationId == Some(id) && !b.responseSpeechActive
  }

  /** Where a timer that matches takes the turn. */
  predicate TimerSucceeds(timer: Timer, b: Buf, b': Buf) {
    && b'.revision == b.revision && b'.answerText == b.answerText && b'.segmentFinal == b.segmentFinal
    && match timer
       case CommitGrace(_, _) => b'.state == Committing
       case Stall(_, _) => b'.state == CompleteCandidate || b'.state == ConfirmationPending
       case ConfirmationDelay(_, _) => b'.state == ConfirmationPrompting
       case ReadyTimeout(_, _, _) => b'.state == Listening
       case ResponseTimeout(_, _, _) =>
         b'.state == CompleteCandidate && b'.completionReason == Some(ListeningCutoff)
  }

  lemma StallSucceeds(cfg: Config, b: Buf, timer: Timer)
    requires Sound(b) && Talks(cfg, b) && timer.Stall? && Matches(b, timer)
    ensures TimerSucceeds(timer, b, StallFires(cfg, b, timer.question, timer.revision).buf)
  {
    StallLeaves(cfg, b, timer.question, timer.revision);
  }

  lemma ResponseTimeoutSucceeds(cfg: Config, b: Buf, timer: Timer)
    requires Sound(b) && Talks(cfg, b) && timer.ResponseTimeout? && Matches(b, timer)
    ensures TimerSucceeds(timer, b, ResponseTimeoutFires(b, timer.question, timer.revision, timer.id).buf)
  {
  }

  lemma MatchingTimerSucceeds(cfg: Config, t: Turn, timer: Timer, id: string)
    requires Owned(cfg, t.buf, t.evidence) && Fresh(t.dialogue, id) && Matches(t.buf, timer)
    ensures TimerSucceeds(timer, t.buf, TimerFires(cfg, t, timer, id))
  {
    var b := t.buf;
    match timer
    case CommitGrace(q, r) => GraceStarts(b, q, r);
    case Stall(q, r) => StallSucceeds(cfg, b, timer);
    case ConfirmationDelay(q, r) => PromptMoves(cfg, b, q, r, id);
    case ReadyTimeout(q, r, i) =>
    case ResponseTimeout(q, r, i) => ResponseTimeoutSucceeds(cfg, b, timer);
  }

  lemma OtherTimerDoesNothing(cfg: Config, t: Turn, timer: Timer, id: string)
    requires Sound(t.buf) && !Matches(t.buf, timer)
    ensures TimerFires(cfg, t, timer, id) == t.buf
  {
  }

  lemma OwnedTimersWork(cfg: Config, t: Turn, timer: Timer, id: string)
    requires Owned(cfg, t.buf, t.evidence) && Fresh(t.dialogue, id)
    ensures Matches(t.buf, timer) ==> TimerSucceeds(timer, t.buf, TimerFires(cfg, t, timer, id))
    ensures TimerFires(cfg, t, timer, id) != t.buf <==> Matches(t.buf, timer)
  {
    if Matches(t.buf, timer) {
      MatchingTimerSucceeds(cfg, t, timer, id);
      assert TimerFires(cfg, t, timer, id).state != t.buf.state;
    } else {
      OtherTimerDoesNothing(cfg, t, timer, id);
    }
  }

  /**
    No re-check strands the turn. After a connection takes a turn over, in every state it can
    reach without a revision being judged twice, a timer that fires changes the buffer if and
    only if it matches it; and if it matches, it takes the turn where it should go.
   */
  lemma TimersWorkIffTheyMatch(
    cfg: Config, t: Turn, actions: seq<Action>, timer: Timer, id: string)
    requires Sound(t.buf) && Talks(cfg, t.buf)
    requires OneWorker(Run(cfg, TakeOver(t), actions).evidence)
    requires Fresh(Run(cfg, TakeOver(t), actions).dialogue, id)
    ensures var now := Run(cfg, TakeOver(t), actions);
            var b' := Section(cfg, now, Fire(timer, id));
            && (b' != now.buf <==> Matches(now.buf, timer))
            && (Matches(now.buf, timer) ==> TimerSucceeds(timer, now.buf, b'))
  {
    hide Run, TakeOver, Owned, Talks, Sound, TimerFires, TimerSucceeds, Matches, OneWorker;
    TakeOverOwns(cfg, t);
    RunOwned(cfg, TakeOver(t), actions);
    OwnedTimersWork(cfg, Run(cfg, TakeOver(t), actions), timer, id);
  }

  // ----- silence ends ----------------------------------------------------------------------

  /** What can still happen when the candidate says nothing and the interview does not change. */
  predicate Silent(a: Action) {
    a.Fire? || a.SubmissionSucceeds? || a.Accept? || a.Judge? || a.Record? || a.Settle?
  }

  function Rank(s: TurnState): nat {
    match s
    case ConfirmationPrompting => 5
    case Listening => 4
    case ConfirmationPending => 3
    case ConfirmingEnd => 3
    case CompleteCandidate => 2
    case Committing => 1
    case Committed => 0
  }

  /** The confirmations left, then the state. */
  function Measure(cfg: Config, b: Buf): nat
    requires b.confirmationCount <= cfg.maxConfirmations
  {
    3 * (cfg.maxConfirmations - b.confirmationCount) + Rank(b.state)
  }

  /** A silent step keeps the state and the count, or lowers the measure. */
  predicate Descends(cfg: Config, b: Buf, b': Buf) {
    && b.confirmationCount <= cfg.maxConfirmations && b'.confirmationCount <= cfg.maxConfirmations
    && if b'.state == b.state then b'.confirmationCount == b.confirmationCount
       else Measure(cfg, b') < Measure(cfg, b)
  }

  lemma SilentTimerDescends(cfg: Config, t: Turn, timer: Timer, id: string)
    requires Sound(t.buf) && Talks(cfg, t.buf)
    ensures Descends(cfg, t.buf, TimerFires(cfg, t, timer, id))
  {
    var b := t.buf;
    match timer
    case CommitGrace(q, r) => GraceStarts(b, q, r);
    case Stall(q, r) =>
      StallMoves(cfg, b, q, r);
      if Stalled(b, q, r) {
        StallLeaves(cfg, b, q, r);
      }
    case ConfirmationDelay(q, r) =>
      if Fresh(t.dialogue, id) {
        PromptMoves(cfg, b, q, r, id);
      }
    case ReadyTimeout(q, r, i) =>
    case ResponseTimeout(q, r, i) => ConfirmationTimeoutMoves(cfg, b, q, r, i);
  }

  lemma SilentDescends(cfg: Config, t: Turn, a: Action)
    requires Sound(t.buf) && Talks(cfg, t.buf) && Silent(a)
    ensures Descends(cfg, t.buf, Section(cfg, t, a))
  {
    hide TimerFires, Decide;
    var b := t.buf;
    match a
    case Fire(timer, id) => SilentTimerDescends(cfg, t, timer, id);
    case Settle(k) =>
      if k < |t.evidence.verdicts| {
        var r := t.evidence.verdicts[k].result;
        DecideDecides(cfg, b, r.decision, r.revision, r.fallbackUsed);
      }
    case Record(k) =>
    case Accept =>
    case Judge(_, _, _) =>
    case SubmissionSucceeds(q, r) =>
  }

  /** How many actions of a run changed the state. */
  function Changes(cfg: Config, t: Turn, actions: seq<Action>): nat
    decreases |actions|
  {
    if actions == [] then 0
    else
      var init := actions[..|actions| - 1];
      Changes(cfg, t, init)
        + if Run(cfg, t, actions).buf.state != Run(cfg, t, init).buf.state then 1 else 0
  }

  /**
    Termination without the user. However often timers fire, in whatever order, and whatever
    verdicts still arrive, a silent run changes the state only a bounded number of times.
   */
  lemma {:induction false} SilenceTerminates(cfg: Config, t: Turn, actions: seq<Action>)
    requires Sound(t.buf) && Talks(cfg, t.buf)
    requires forall i :: 0 <= i < |actions| ==> Silent(actions[i])
    ensures Sound(Run(cfg, t, actions).buf) && Talks(cfg, Run(cfg, t, actions).buf)
    ensures Changes(cfg, t, actions) + Measure(cfg, Run(cfg, t, actions).buf) <= Measure(cfg, t.buf)
    ensures Changes(cfg, t, actions) <= 3 * cfg.maxConfirmations + 5
    decreases |actions|
  {
    hide Sound, Talks, Section, Silent, Acts, Testify, Discuss, Submit;
    if actions != [] {
      var init, a := actions[..|actions| - 1], actions[|actions| - 1];
      var t1 := Run(cfg, t, init);
      SilenceTerminates(cfg, t, init);
      SilentDescends(cfg, t1, a);
      SectionActs(cfg, t1, a);
      ActsKeep(cfg, t1, a, Section(cfg, t1, a));
    }
  }

  // ----- answers that are not final --------------------------------------------------------

  /** The turn listens to an answer whose last segment is not final. */
  predicate Unfinished(b: Buf) {
    b.state == Listening && !b.segmentFinal
  }

  /** A transcript that is taken. */
  predicate Taken(cfg: Config, b: Buf, a: Action) {
    a.Hear? && Transcript(cfg, b, a.acceptEqual, a.question, a.revision, a.text, a.info).error.None?
  }

  /** A response that adds puts its words after those of the answer, and leaves it unfinished. */
  lemma AdditionIsUnfinished(cfg: Config, t: Turn, a: Action)
    requires Answer(t.buf, a) == Some(AnswerContent)
    ensures Unfinished(Apply(cfg, t, a).buf) && Apply(cfg, t, a).buf.revision == a.responseRevision
    ensures a.intent.answerContent.Some?
    ensures Words(Apply(cfg, t, a).buf.answerText)
         == Words(t.buf.answerText) + Words(a.intent.answerContent.value)
  {
    hide Words, Append, Strip;
    if a.intent.answerContent.Some? {
      AppendJoins(t.buf.answerText, a.intent.answerContent.value);
    }
  }

  /** Every other response that is applied leaves the answer alone. */
  lemma OtherResponsesKeepAnswer(cfg: Config, t: Turn, a: Action)
    requires Answer(t.buf, a).Some? && Answer(t.buf, a) != Some(AnswerContent)
    ensures var b' := Apply(cfg, t, a).buf;
            b'.answerText == t.buf.answerText && b'.revision == t.buf.revision
  {
  }

  /** Whatever the decision, an unfinished answer gets neither a candidate nor a confirmation. */
  lemma NothingDecided(cfg: Config, b: Buf, d: Decision, revision: nat, fallback: bool)
    requires Unfinished(b)
    ensures Decide(cfg, b, d, revision, fallback).buf == b
  {
  }

  lemma TimerLeavesUnfinished(cfg: Config, t: Turn, timer: Timer, id: string)
    requires Unfinished(t.buf)
    ensures TimerFires(cfg, t, timer, id) == t.buf
  {
  }

  lemma TranscriptFinishesIff(
    cfg: Config, b: Buf, eq: bool, q: string, r: nat, text: string, info: SnapshotInfo)
    requires Sound(b) && ValidConfig(cfg) && Unfinished(b)
    ensures var o := Transcript(cfg, b, eq, q, r, text, info);
            && o.buf.state == Listening
            && (Unfinished(o.buf) <==> o.error.Some? || !info.segmentFinal)
            && (if o.error.Some? then o.buf == b else o.buf == Heard(b, r, text, info))
  {
    FailedTranscriptChangesNothing(cfg, b, eq, q, r, text, info);
    if Transcript(cfg, b, eq, q, r, text, info).error.None? {
      TranscriptTaken(cfg, b, eq, q, r, text, info);
    }
  }

  lemma VerdictLeavesUnfinished(cfg: Config, b: Buf, r: JudgeResult)
    requires Unfinished(b)
    ensures HandleResult(cfg, b, r).buf == b
  {
    NothingDecided(cfg, b, r.decision, r.revision, r.fallbackUsed);
  }

  /** The sections other than transcripts, verdicts and timers leave an unfinished answer so. */
  lemma OtherLeavesUnfinished(cfg: Config, t: Turn, a: Action)
    requires Unfinished(t.buf) && !a.Hear? && !a.Settle? && !a.Fire?
    ensures Unfinished(Section(cfg, t, a))
    ensures Section(cfg, t, a).revision == t.buf.revision && Section(cfg, t, a).answerText == t.buf.answerText
  {
  }

  /** One action finishes an unfinished answer if and only if it is a final transcript, taken. */
  lemma FinishesIff(cfg: Config, t: Turn, a: Action)
    requires Sound(t.buf) && ValidConfig(cfg) && Unfinished(t.buf)
    ensures var b' := Section(cfg, t, a);
            && (Unfinished(b') <==> !(Taken(cfg, t.buf, a) && a.info.segmentFinal))
            && (!Taken(cfg, t.buf, a) ==> b'.revision == t.buf.revision && b'.answerText == t.buf.answerText)
  {
    hide Transcript, TimerFires, HandleResult, Heard;
    match a
    case Hear(eq, q, r, text, info) => TranscriptFinishesIff(cfg, t.buf, eq, q, r, text, info);
    case Fire(timer, id) => TimerLeavesUnfinished(cfg, t, timer, id);
    case Settle(k) => if k < |t.evidence.verdicts| { VerdictLeavesUnfinished(cfg, t.buf, t.evidence.verdicts[k].result); }
    case _ => OtherLeavesUnfinished(cfg, t, a);
  }

  /** No transcript of the run is taken, or none that is final. */
  predicate NoneTaken(cfg: Config, t: Turn, actions: seq<Action>, onlyFinal: bool)
    decreases |actions|
  {
    actions != [] ==>
      && NoneTaken(cfg, t, actions[..|actions| - 1], onlyFinal)
      && var a := actions[|actions| - 1];
      && !(Taken(cfg, Run(cfg, t, actions[..|actions| - 1]).buf, a) && (onlyFinal ==> a.info.segmentFinal))
  }

  /**
    An unfinished answer waits for the client. Whatever else happens - verdicts, timers, speech
    that starts and ends, responses, connections that come and go - it is still listened to and
    nothing is submitted, until a final transcript is taken; and until any transcript is
    taken, it stays the same answer.
   */
  lemma {:induction false} UnfinishedWaits(cfg: Config, t: Turn, actions: seq<Action>, onlyFinal: bool)
    requires Sound(t.buf) && Talks(cfg, t.buf) && Unfinished(t.buf)
    requires NoneTaken(cfg, t, actions, onlyFinal)
    ensures var now := Run(cfg, t, actions);
            && Sound(now.buf) && Talks(cfg, now.buf)
            && Unfinished(now.buf) && now.submissions == t.submissions
            && (!onlyFinal ==> now.buf.revision == t.buf.revision && now.buf.answerText == t.buf.answerText)
    decreases |actions|
  {
    hide Sound, Section, Acts, Taken, Testify, Discuss;
    if actions != [] {
      var init, a := actions[..|actions| - 1], actions[|actions| - 1];
      var t1 := Run(cfg, t, init);
      UnfinishedWaits(cfg, t, init, onlyFinal);
      FinishesIff(cfg, t1, a);
      SectionActs(cfg, t1, a);
      ActsKeep(cfg, t1, a, Section(cfg, t1, a));
    }
  }

  // ----- a verdict and the end of speech ---------------------------------------------------

  /** How many commits and confirmations a section schedules. */
  function Scheduled(o: Outcome): nat {
    if o.policy.Some? && (o.policy.value.ScheduleCommit? || o.policy.value.ScheduleConfirmation?)
    then 1 else 0
  }

  /** Where an order of sections ends, and how much it scheduled on the way. */
  datatype Ending = Ending(buf: Buf, scheduled: nat)

  function VerdictThenPolicyThenSilence(cfg: Config, b: Buf, r: JudgeResult): Ending {
    var b1 := After(b, RecordDecision(b, r));
    var o2 := HandleResult(cfg, b1, r);
    var o3 := Activity(cfg, o2.buf, b.questionId, b.revision, false);
    Ending(o3.buf, Scheduled(o2) + Scheduled(o3))
  }

  function VerdictThenSilenceThenPolicy(cfg: Config, b: Buf, r: JudgeResult): Ending {
    var b1 := After(b, RecordDecision(b, r));
    var o2 := Activity(cfg, b1, b.questionId, b.revision, false);
    var o3 := HandleResult(cfg, o2.buf, r);
    Ending(o3.buf, Scheduled(o2) + Scheduled(o3))
  }

  function SilenceThenVerdictThenPolicy(cfg: Config, b: Buf, r: JudgeResult): Ending {
    var o1 := Activity(cfg, b, b.questionId, b.revision, false);
    var b2 := After(o1.buf, RecordDecision(o1.buf, r));
    var o3 := HandleResult(cfg, b2, r);
    Ending(o3.buf, Scheduled(o1) + Scheduled(o3))
  }

  /** The common ending: the verdict recorded, speech over, and the policy applied once if final. */
  function Settled(cfg: Config, b: Buf, r: JudgeResult): Ending {
    var quiet := b.(speechActive := false, decisionRevision := Some(r.revision), decision := Some(r.decision));
    var o := Decide(cfg, quiet, r.decision, r.revision, r.fallbackUsed);
    Ending(o.buf, Scheduled(o))
  }

  predicate SpeakingUnjudged(b: Buf, r: JudgeResult) {
    && Sound(b) && b.state == Listening && b.speechActive && b.decision.None?
    && r.questionId == b.questionId && r.revision == b.revision
  }

  lemma PolicyFirst(cfg: Config, b: Buf, r: JudgeResult)
    requires ValidConfig(cfg) && SpeakingUnjudged(b, r)
    ensures VerdictThenPolicyThenSilence(cfg, b, r) == Settled(cfg, b, r)
  {
  }

  lemma SilenceBetween(cfg: Config, b: Buf, r: JudgeResult)
    requires ValidConfig(cfg) && SpeakingUnjudged(b, r)
    ensures VerdictThenSilenceThenPolicy(cfg, b, r) == Settled(cfg, b, r)
  {
  }

  lemma SilenceFirst(cfg: Config, b: Buf, r: JudgeResult)
    requires ValidConfig(cfg) && SpeakingUnjudged(b, r)
    ensures SilenceThenVerdictThenPolicy(cfg, b, r) == Settled(cfg, b, r)
  {
  }

  /**
    Order independence. While the candidate speaks and the owner has no verdict on this
    revision yet, recording the verdict, applying the policy and the end of speech give the
    same buffer in every order the code allows, and schedule the same number of commits and
    confirmations, at most one.
   */
  lemma OrderDoesNotMatter(cfg: Config, t: Turn, r: JudgeResult)
    requires Owned(cfg, t.buf, t.evidence)
    requires t.buf.state == Listening && t.buf.speechActive && !RecordedFor(t.evidence, t.buf.revision)
    requires r.questionId == t.buf.questionId && r.revision == t.buf.revision
    ensures VerdictThenPolicyThenSilence(cfg, t.buf, r) == VerdictThenSilenceThenPolicy(cfg, t.buf, r)
    ensures VerdictThenSilenceThenPolicy(cfg, t.buf, r) == SilenceThenVerdictThenPolicy(cfg, t.buf, r)
    ensures SilenceThenVerdictThenPolicy(cfg, t.buf, r).scheduled <= 1
  {
    PolicyFirst(cfg, t.buf, r);
    SilenceBetween(cfg, t.buf, r);
    SilenceFirst(cfg, t.buf, r);
  }
}
