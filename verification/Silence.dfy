/**
  What becomes of a turn when the candidate says nothing more and the judge is done: only
  timers that a slot holds fire, prompts are played or fail, and submissions end.
 */
module Silence {
  import opened Wrappers
  import opened Text
  import opened TurnModels
  import opened BufferSpec
  import opened CoordinatorSpec
  import opened TurnHistory
  import opened TurnLifecycle
  import opened TurnProgress
  import opened TimerSlots
  import opened Desks

  // ----- quiet events -----------------------------------------------------------------------

  predicate Held(t: Tasks, timer: Timer) {
    match timer
    case CommitGrace(_, _) => t.commit == Some(timer)
    case Stall(_, _) => t.stall == Some(timer)
    case ConfirmationDelay(_, _) => t.delay == Some(timer)
    case ReadyTimeout(_, _, _) => t.ready == Some(timer)
    case ResponseTimeout(_, _, _) => t.response == Some(timer)
  }

  /** What can still happen: every event is one that the desk itself gives rise to. */
  predicate Quiet(d: Desk, e: Event) {
    var b := d.turn.buf;
    match e
    case Event(Fire(timer, id), _) =>
      Held(d.tasks, timer) && (timer.ConfirmationDelay? ==> Fresh(d.turn.dialogue, id))
    case Event(Acknowledge(id, q, r), _) => b.state == ConfirmationPrompting && Answers(b, id, q, r)
    case Event(RollBackPrompt(id), _) => b.confirmationId == Some(id)
    case Event(RollBackCandidate(q, r), _) =>
      b.state == CompleteCandidate && q == b.questionId && r == b.revision
    case Event(SubmissionSucceeds(q, r), _) => b.state == Committing && q == b.questionId && r == b.revision
    case Event(SubmissionFails(q, r), _) => b.state == Committing && q == b.questionId && r == b.revision
    case _ => false
  }

  /** A prompt that nobody acknowledged or that was not sent, a candidate or submission taken back. */
  predicate StepsBack(e: Event) {
    match e
    case Event(Fire(timer, _), _) => timer.ReadyTimeout?
    case Event(RollBackPrompt(_), _) => true
    case Event(RollBackCandidate(_, _), _) => true
    case Event(SubmissionFails(_, _), _) => true
    case _ => false
  }

  predicate QuietRun(cfg: Config, d: Desk, events: seq<Event>)
    decreases |events|
  {
    events != [] ==>
      && QuietRun(cfg, d, events[..|events| - 1])
      && Quiet(ServeAll(cfg, d, events[..|events| - 1]), events[|events| - 1])
  }

  /** Nothing can happen any more. */
  ghost predicate Over(d: Desk) {
    forall e :: !Quiet(d, e)
  }

  /** The turn listens and no stall timer will ever bring it on. */
  predicate LeftListening(d: Desk) {
    d.turn.buf.state == Listening && d.tasks.stall.None?
  }

  // ----- quiet events run down --------------------------------------------------------------

  /** A response timeout that is left over from a prompt that was taken back. */
  predicate StaleResponse(d: Desk) {
    d.tasks.response.Some? && !Matches(d.turn.buf, d.tasks.response.value)
  }

  function QuietMeasure(cfg: Config, d: Desk): nat
    requires d.turn.buf.confirmationCount <= cfg.maxConfirmations
  {
    (if LeftListening(d) then 0 else Measure(cfg, d.turn.buf)) + (if StaleResponse(d) then 1 else 0)
  }

  /** What every quiet event does. */
  predicate StepsOn(cfg: Config, d: Desk, d': Desk, back: bool)
    requires Talks(cfg, d.turn.buf) && Talks(cfg, d'.turn.buf)
  {
    var b, b' := d.turn.buf, d'.turn.buf;
    && d'.turn.evidence.verdicts == d.turn.evidence.verdicts
    && b'.revision == b.revision && b'.answerText == b.answerText && !b'.responseSpeechActive
    && QuietMeasure(cfg, d') < QuietMeasure(cfg, d)
    && LeftListening(d') == (LeftListening(d) || back)
  }

  /** A response timeout that does not match is stale, and firing it empties its slot. */
  lemma StaleFires(cfg: Config, d: Desk, timer: Timer, id: string, accepted: bool)
    requires DeskSound(cfg, d) && Held(d.tasks, timer) && !Matches(d.turn.buf, timer)
    requires !d.turn.buf.responseSpeechActive
    ensures timer.ResponseTimeout?
    ensures var d' := Serve(cfg, d, Event(Fire(timer, id), accepted));
            d'.turn.buf == d.turn.buf && StepsOn(cfg, d, d', false)
  {
    OtherTimerDoesNothing(cfg, d.turn, timer, id);
  }

  /** The slots after a timer that matches has fired. */
  lemma MatchingSlots(cfg: Config, d: Desk, timer: Timer, id: string)
    requires DeskSound(cfg, d) && Held(d.tasks, timer) && Matches(d.turn.buf, timer)
    requires timer.ConfirmationDelay? ==> Fresh(d.turn.dialogue, id)
    ensures var t' := TimerTasks(cfg, d.turn, d.tasks, timer, id);
            && (t'.response.None? || t'.response == d.tasks.response)
            && (timer.ResponseTimeout? ==> t'.response.None?)
            && (timer.ReadyTimeout? ==> t'.stall.None?)
  {
  }

  lemma MatchingTimerStepsOn(cfg: Config, d: Desk, timer: Timer, id: string, accepted: bool)
    requires DeskSound(cfg, d) && Held(d.tasks, timer) && Matches(d.turn.buf, timer)
    requires timer.ConfirmationDelay? ==> Fresh(d.turn.dialogue, id)
    requires Talks(cfg, Serve(cfg, d, Event(Fire(timer, id), accepted)).turn.buf)
    ensures StepsOn(cfg, d, Serve(cfg, d, Event(Fire(timer, id), accepted)), timer.ReadyTimeout?)
  {
    var other := if timer.ConfirmationDelay? then id else UnusedId(d.turn.dialogue);
    UnusedIdIsFresh(d.turn.dialogue);
    MatchingTimerSucceeds(cfg, d.turn, timer, other);
    IdIsIgnored(cfg, d.turn, timer, id, other);
    SilentTimerDescends(cfg, d.turn, timer, id);
    MatchingSlots(cfg, d, timer, id);
    TimerQuiets(cfg, d.turn, timer, id);
    FiredDesk(cfg, d, timer, id, accepted);
    TimerStepsOn(cfg, d, Serve(cfg, d, Event(Fire(timer, id), accepted)), timer);
  }

  lemma TimerStepsOn(cfg: Config, d: Desk, d': Desk, timer: Timer)
    requires Talks(cfg, d.turn.buf) && Talks(cfg, d'.turn.buf) && SlotsMatch(d.turn.buf, d.tasks)
    requires Held(d.tasks, timer) && Matches(d.turn.buf, timer)
    requires TimerSucceeds(timer, d.turn.buf, d'.turn.buf) && Descends(cfg, d.turn.buf, d'.turn.buf)
    requires d'.turn.evidence.verdicts == d.turn.evidence.verdicts && !d'.turn.buf.responseSpeechActive
    requires d'.tasks.response.None? || d'.tasks.response == d.tasks.response
    requires timer.ResponseTimeout? ==> d'.tasks.response.None?
    requires timer.ReadyTimeout? ==> d'.tasks.stall.None?
    ensures StepsOn(cfg, d, d', timer.ReadyTimeout?)
  {
  }

  lemma IdIsIgnored(cfg: Config, t: Turn, timer: Timer, a: string, b: string)
    ensures timer.ConfirmationDelay? || TimerFires(cfg, t, timer, a) == TimerFires(cfg, t, timer, b)
  {
  }

  /** Timers end or keep the silence of the response. */
  lemma TimerQuiets(cfg: Config, t: Turn, timer: Timer, id: string)
    requires Owned(cfg, t.buf, t.evidence) && Matches(t.buf, timer)
    ensures !TimerFires(cfg, t, timer, id).responseSpeechActive
  {
  }

  lemma AcknowledgeStepsOn(cfg: Config, d: Desk, id: string, q: string, r: nat, accepted: bool)
    requires DeskSound(cfg, d) && d.turn.buf.state == ConfirmationPrompting && Answers(d.turn.buf, id, q, r)
    requires Talks(cfg, Serve(cfg, d, Event(Acknowledge(id, q, r), accepted)).turn.buf)
    ensures StepsOn(cfg, d, Serve(cfg, d, Event(Acknowledge(id, q, r), accepted)), false)
  {
  }

  lemma StepBack(cfg: Config, d: Desk, a: Action, accepted: bool)
    requires DeskSound(cfg, d) && Quiet(d, Event(a, accepted)) && StepsBack(Event(a, accepted)) && !a.Fire?
    requires Talks(cfg, Serve(cfg, d, Event(a, accepted)).turn.buf)
    ensures StepsOn(cfg, d, Serve(cfg, d, Event(a, accepted)), true)
  {
  }

  lemma SuccessStepsOn(cfg: Config, d: Desk, q: string, r: nat, accepted: bool)
    requires DeskSound(cfg, d) && Quiet(d, Event(SubmissionSucceeds(q, r), accepted))
    requires Talks(cfg, Serve(cfg, d, Event(SubmissionSucceeds(q, r), accepted)).turn.buf)
    ensures StepsOn(cfg, d, Serve(cfg, d, Event(SubmissionSucceeds(q, r), accepted)), false)
  {
  }

  lemma QuietStepsOn(cfg: Config, d: Desk, e: Event)
    requires DeskSound(cfg, d) && OneWorker(d.turn.evidence) && Quiet(d, e)
    requires !d.turn.buf.responseSpeechActive
    ensures DeskSound(cfg, Serve(cfg, d, e)) && StepsOn(cfg, d, Serve(cfg, d, e), StepsBack(e))
  {
    hide Serve, StepsOn;
    ServeKeepsDesk(cfg, d, e);
    match e
    case Event(Fire(timer, id), accepted) =>
      if Matches(d.turn.buf, timer) {
        MatchingTimerStepsOn(cfg, d, timer, id, accepted);
      } else {
        StaleFires(cfg, d, timer, id, accepted);
      }
    case Event(Acknowledge(id, q, r), accepted) => AcknowledgeStepsOn(cfg, d, id, q, r, accepted);
    case Event(SubmissionSucceeds(q, r), accepted) => SuccessStepsOn(cfg, d, q, r, accepted);
    case Event(a, accepted) => StepBack(cfg, d, a, accepted);
  }

  // ----- ids -----------------------------------------------------------------------------------

  function TotalLength(ps: seq<Prompt>): nat {
    if ps == [] then 0 else |ps[0].id| + TotalLength(ps[1..])
  }

  lemma {:induction false} NoIdIsLonger(ps: seq<Prompt>, i: nat)
    requires i < |ps|
    ensures |ps[i].id| <= TotalLength(ps)
  {
    if i > 0 {
      NoIdIsLonger(ps[1..], i - 1);
    }
  }

  /** An id no prompt of the dialogue has. */
  function UnusedId(d: Dialogue): string {
    seq(1 + TotalLength(d.prompts), _ => 'c')
  }

  lemma UnusedIdIsFresh(d: Dialogue)
    ensures Fresh(d, UnusedId(d))
  {
    var id := UnusedId(d);
    assert !IsSpace(id[0]) && !IsSpace(id[|id| - 1]);
    assert LStrip(id) == id && RStrip(id) == id;
    forall i | 0 <= i < |d.prompts| ensures d.prompts[i].id != Strip(id) {
      NoIdIsLonger(d.prompts, i);
    }
  }

  // ----- where silence ends --------------------------------------------------------------------

  predicate NoStepBack(events: seq<Event>) {
    forall i :: 0 <= i < |events| ==> !StepsBack(events[i])
  }

  lemma NoStepBackSnoc(events: seq<Event>)
    requires events != []
    ensures NoStepBack(events)
      <==> NoStepBack(events[..|events| - 1]) && !StepsBack(events[|events| - 1])
  {
    var init := events[..|events| - 1];
    assert events == init + [events[|events| - 1]];
    assert NoStepBack(events) ==> forall i :: 0 <= i < |init| ==> init[i] == events[i];
  }

  /** A turn the silence can still take somewhere. */
  predicate Underway(cfg: Config, d: Desk) {
    && DeskSound(cfg, d) && OneWorker(d.turn.evidence)
    && !d.turn.buf.responseSpeechActive && !LeftListening(d)
  }

  lemma {:induction false} QuietRunKeeps(cfg: Config, d: Desk, events: seq<Event>)
    requires Underway(cfg, d) && QuietRun(cfg, d, events)
    ensures var now := ServeAll(cfg, d, events);
            && DeskSound(cfg, now) && OneWorker(now.turn.evidence) && !now.turn.buf.responseSpeechActive
            && now.turn.buf.revision == d.turn.buf.revision && now.turn.buf.answerText == d.turn.buf.answerText
            && |events| + QuietMeasure(cfg, now) <= QuietMeasure(cfg, d)
            && (LeftListening(now) <==> !NoStepBack(events))
    decreases |events|
  {
    if events != [] {
      var init, e := events[..|events| - 1], events[|events| - 1];
      QuietRunKeeps(cfg, d, init);
      QuietStepsOn(cfg, ServeAll(cfg, d, init), e);
      NoStepBackSnoc(events);
    }
  }

  /** Something can happen to every turn that is neither committed nor left listening. */
  lemma NotOver(cfg: Config, d: Desk) returns (e: Event)
    requires Underway(cfg, d) && d.turn.buf.state != Committed
    ensures Quiet(d, e) && !StepsBack(e)
  {
    var b, t := d.turn.buf, d.tasks;
    UnusedIdIsFresh(d.turn.dialogue);
    match b.state
    case Listening => e := Event(Fire(t.stall.value, ""), false);
    case CompleteCandidate => e := Event(Fire(t.commit.value, ""), false);
    case ConfirmationPending => e := Event(Fire(t.delay.value, UnusedId(d.turn.dialogue)), false);
    case ConfirmationPrompting => e := Event(Acknowledge(b.confirmationId.value, b.questionId, b.revision), false);
    case ConfirmingEnd => e := Event(Fire(t.response.value, ""), false);
    case Committing => e := Event(SubmissionSucceeds(b.questionId, b.revision), false);
  }

  lemma OverIsEmpty(d: Desk)
    requires Over(d) && SlotsMatch(d.turn.buf, d.tasks)
    ensures d.tasks == NO_TASKS
  {
    var t := d.tasks;
    UnusedIdIsFresh(d.turn.dialogue);
    assert !Quiet(d, Event(Fire(if t.commit.Some? then t.commit.value else CommitGrace("", 0), ""), false));
    assert !Quiet(d, Event(Fire(if t.stall.Some? then t.stall.value else Stall("", 0), ""), false));
    var delay := if t.delay.Some? then t.delay.value else ConfirmationDelay("", 0);
    assert !Quiet(d, Event(Fire(delay, UnusedId(d.turn.dialogue)), false));
    assert !Quiet(d, Event(Fire(if t.ready.Some? then t.ready.value else ReadyTimeout("", 0, ""), ""), false));
    assert !Quiet(d, Event(Fire(if t.response.Some? then t.response.value else ResponseTimeout("", 0, ""), ""), false));
  }

  /**
    Silence ends. While the candidate says nothing and the judge is done, a desk that watches
    its turn serves a bounded number of events, and when nothing more can happen no timer
    runs, and the same answer is submitted, or the turn listens. It is submitted if and only
    if no prompt stayed without its acknowledgement or its client, and no candidate and no
    submission was taken back.
   */
  lemma SilenceSubmitsIff(cfg: Config, d: Desk, events: seq<Event>)
    requires Underway(cfg, d) && QuietRun(cfg, d, events)
    ensures |events| <= 3 * cfg.maxConfirmations + 6
    ensures var now := ServeAll(cfg, d, events);
            && now.turn.buf.revision == d.turn.buf.revision && now.turn.buf.answerText == d.turn.buf.answerText
            && (Over(now) ==>
                  && now.tasks == NO_TASKS
                  && (now.turn.buf.state == Committed <==> NoStepBack(events))
                  && (now.turn.buf.state == Listening <==> !NoStepBack(events)))
  {
    var now := ServeAll(cfg, d, events);
    QuietRunKeeps(cfg, d, events);
    if Over(now) {
      OverIsEmpty(now);
      if !LeftListening(now) && now.turn.buf.state != Committed {
        var e := NotOver(cfg, now);
      }
    }
  }

  lemma ServeAllSnoc(cfg: Config, d: Desk, events: seq<Event>, e: Event)
    ensures ServeAll(cfg, d, events + [e]) == Serve(cfg, ServeAll(cfg, d, events), e)
    ensures QuietRun(cfg, d, events + [e]) <==> QuietRun(cfg, d, events) && Quiet(ServeAll(cfg, d, events), e)
  {
    assert (events + [e])[..|events|] == events;
  }

  lemma UnderwayStays(cfg: Config, d: Desk, events: seq<Event>)
    requires Underway(cfg, d) && QuietRun(cfg, d, events) && NoStepBack(events)
    ensures Underway(cfg, ServeAll(cfg, d, events))
  {
    QuietRunKeeps(cfg, d, events);
  }

  lemma NothingServed(cfg: Config, d: Desk)
    ensures QuietRun(cfg, d, []) && NoStepBack([])
  {
  }

  lemma NoStepBackThen(events: seq<Event>, e: Event)
    requires NoStepBack(events) && !StepsBack(e)
    ensures NoStepBack(events + [e])
  {
    hide StepsBack;
  }

  /** Silence can always submit: some quiet events, none of them a step back, end in a submission. */
  lemma SilenceCanSubmit(cfg: Config, d: Desk) returns (events: seq<Event>)
    requires Underway(cfg, d)
    ensures QuietRun(cfg, d, events) && NoStepBack(events)
    ensures ServeAll(cfg, d, events).turn.buf.state == Committed
  {
    hide *;
    events := [];
    NothingServed(cfg, d);
    while ServeAll(cfg, d, events).turn.buf.state != Committed
      invariant QuietRun(cfg, d, events) && NoStepBack(events)
      decreases 3 * cfg.maxConfirmations + 6 - |events|
    {
      UnderwayStays(cfg, d, events);
      SilenceSubmitsIff(cfg, d, events);
      var e := NotOver(cfg, ServeAll(cfg, d, events));
      ServeAllSnoc(cfg, d, events, e);
      NoStepBackThen(events, e);
      SilenceSubmitsIff(cfg, d, events + [e]);
      events := events + [e];
    }
  }
}
