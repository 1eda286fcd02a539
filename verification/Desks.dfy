/**
  The turn, the timers and the worker of one connection, handler by handler: which timer runs
  when, and which answers are left with neither a timer nor a snapshot at the worker.

  Handlers run back to back, as in TimerSlots.
 */
module Desks {
  import opened Wrappers
  import opened Text
  import opened TurnModels
  import opened BufferSpec
  import opened CoordinatorSpec
  import opened TurnHistory
  import opened TurnLifecycle
  import opened TurnGuarantees
  import opened TurnProgress
  import opened TimerSlots

  /**
    A turn, the slots of the connection that owns it, and the revision of the snapshot its
    worker accepted last, until the worker is done with it.
   */
  datatype Desk = Desk(turn: Turn, tasks: Tasks, atWorker: Option<nat>)

  /**
    A handler ran, and the worker took the snapshot it was offered or not; or the worker let
    its snapshot go without a word, because the judge failed or the buffer had moved on.
   */
  datatype Event = Event(action: Action, accepted: bool) | Lapse

  /** A connection starts with empty slots and a worker that has seen nothing. */
  function TakesOver(t: Turn): Desk {
    Desk(TakeOver(t), NO_TASKS, None)
  }

  function OfferTo(atWorker: Option<nat>, o: Outcome, accepted: bool): Option<nat> {
    if accepted && o.error.None? then Some(o.buf.revision) else atWorker
  }

  /** The snapshot at the worker after a handler. Only the verdict on it brings it back. */
  function NextAtWorker(cfg: Config, d: Desk, a: Action, accepted: bool): Option<nat> {
    var b := d.turn.buf;
    match a
    case Hear(eq, q, r, text, info) => OfferTo(d.atWorker, Transcript(cfg, b, eq, q, r, text, info), accepted)
    case Respond(id, q, r, rr, i) =>
      if i.intent == AnswerContent then OfferTo(d.atWorker, Response(b, id, q, r, rr, i), accepted)
      else d.atWorker
    case Settle(k) => if Delivers(d, k) then None else d.atWorker
    case _ => d.atWorker
  }

  /** The recorded verdict is the one on the snapshot at the worker. */
  predicate Delivers(d: Desk, k: nat) {
    && k < |d.turn.evidence.verdicts| && k in d.turn.evidence.recorded
    && d.atWorker == Some(d.turn.evidence.verdicts[k].snapshot.revision)
  }

  function Serve(cfg: Config, d: Desk, e: Event): Desk {
    match e
    case Lapse => d.(atWorker := None)
    case Event(a, accepted) =>
      Desk(Apply(cfg, d.turn, a), NextTasks(cfg, d.turn, d.tasks, a, accepted), NextAtWorker(cfg, d, a, accepted))
  }

  function ServeAll(cfg: Config, d: Desk, events: seq<Event>): Desk
    decreases |events|
  {
    if events == [] then d
    else Serve(cfg, ServeAll(cfg, d, events[..|events| - 1]), events[|events| - 1])
  }

  predicate DeskSound(cfg: Config, d: Desk) {
    && Owned(cfg, d.turn.buf, d.turn.evidence)
    && RightTimer(d.turn.buf, d.tasks)
    && SlotsMatch(d.turn.buf, d.tasks)
  }

  lemma TakeOverIsSound(cfg: Config, t: Turn)
    requires Sound(t.buf) && Talks(cfg, t.buf)
    ensures DeskSound(cfg, TakesOver(t))
  {
    TakeOverOwns(cfg, t);
  }

  lemma RespondSection(cfg: Config, turn: Turn, a: Action, t: Tasks, accepted: bool)
    requires a.Respond?
    ensures var o := Response(turn.buf, a.id, a.question, a.revision, a.responseRevision, a.intent);
            && Section(cfg, turn, a) == o.buf
            && NextTasks(cfg, turn, t, a, accepted)
                 == ResponseTasks(t, turn.buf, o, a.id, a.question, a.revision, a.intent)
  {
  }

  // ----- the timers of waiting states --------------------------------------------------------

  predicate FromClient(a: Action) {
    a.Hear? || a.Speak? || a.Acknowledge? || a.RespondSpeech? || a.Respond?
  }

  lemma ClientKeepsTimer(cfg: Config, d: Desk, a: Action, accepted: bool)
    requires DeskSound(cfg, d) && Served(d.turn.buf, a) && FromClient(a)
    ensures RightTimer(Section(cfg, d.turn, a), NextTasks(cfg, d.turn, d.tasks, a, accepted))
      <==> !Unusable(d.turn.buf, a)
  {
    hide Transcript, TranscriptTasks, Activity, ActivityTasks, Response, ResponseTasks, SlotsMatch;
    var b, t := d.turn.buf, d.tasks;
    match a
    case Hear(eq, q, r, text, info) => TranscriptKeepsTimer(cfg, b, eq, q, r, text, info, t, accepted);
    case Speak(q, r, active) => ActivityKeepsTimer(cfg, b, q, r, active, t);
    case Acknowledge(id, q, r) => ReadyKeepsTimer(b, id, q, r, t);
    case RespondSpeech(id, q, r, active) => ResponseSpeechKeepsTimer(b, id, q, r, active, t);
    case Respond(id, q, r, rr, intent) =>
      RespondSection(cfg, d.turn, a, t, accepted);
      if Unusable(b, a) {
        UnusableResponseStopsTimer(b, a, t);
      } else {
        UsableResponseKeepsTimer(cfg, b, id, q, r, rr, intent, t);
      }
  }

  lemma OwnEventKeepsTimer(cfg: Config, d: Desk, a: Action, accepted: bool)
    requires DeskSound(cfg, d) && Served(d.turn.buf, a) && !FromClient(a)
    ensures RightTimer(Section(cfg, d.turn, a), NextTasks(cfg, d.turn, d.tasks, a, accepted))
  {
    hide HandleResult, DispatchIfAny, TimerFires, TimerTasks, SlotsMatch;
    var b, t := d.turn.buf, d.tasks;
    match a
    case Settle(k) => SettleKeepsTimer(cfg, d.turn, k, t);
    case Fire(timer, id) => TimersKeepTimer(cfg, d.turn, timer, id, t);
    case SubmissionSucceeds(q, r) =>
    case Record(k) =>
    case Accept =>
    case Judge(_, _, _) =>
    case RollBackCandidate(q, r) =>
    case RollBackPrompt(id) => RollbackKeepsTimer(b, id, t);
    case SubmissionFails(q, r) =>
  }

  /** A handler keeps the right timer running, unless it serves a response nobody can use. */
  lemma EventKeepsTimer(cfg: Config, d: Desk, a: Action, accepted: bool)
    requires DeskSound(cfg, d) && Served(d.turn.buf, a)
    ensures RightTimer(Section(cfg, d.turn, a), NextTasks(cfg, d.turn, d.tasks, a, accepted))
      <==> !Unusable(d.turn.buf, a)
  {
    hide Section, NextTasks, RightTimer, DeskSound, Served;
    if FromClient(a) {
      ClientKeepsTimer(cfg, d, a, accepted);
    } else {
      OwnEventKeepsTimer(cfg, d, a, accepted);
    }
  }

  lemma ClientKeepsSlots(cfg: Config, d: Desk, a: Action, accepted: bool)
    requires DeskSound(cfg, d) && Served(d.turn.buf, a) && FromClient(a)
    ensures SlotsMatch(Section(cfg, d.turn, a), NextTasks(cfg, d.turn, d.tasks, a, accepted))
  {
    hide Transcript, TranscriptTasks, Activity, ActivityTasks, Response, ResponseTasks, RightTimer;
    var b, t := d.turn.buf, d.tasks;
    match a
    case Hear(eq, q, r, text, info) => TranscriptSlots(cfg, b, eq, q, r, text, info, t, accepted);
    case Speak(q, r, active) => ActivitySlots(cfg, b, q, r, active, t);
    case Acknowledge(id, q, r) =>
    case RespondSpeech(id, q, r, active) =>
    case Respond(id, q, r, rr, intent) =>
      RespondSection(cfg, d.turn, a, t, accepted);
      ResponseSlots(b, id, q, r, rr, intent, t);
  }

  lemma OwnEventKeepsSlots(cfg: Config, d: Desk, a: Action, accepted: bool)
    requires DeskSound(cfg, d) && Served(d.turn.buf, a) && !FromClient(a)
    ensures SlotsMatch(Section(cfg, d.turn, a), NextTasks(cfg, d.turn, d.tasks, a, accepted))
  {
    hide HandleResult, DispatchIfAny, TimerFires, TimerTasks, RightTimer;
    var b, t := d.turn.buf, d.tasks;
    match a
    case Settle(k) => SettleSlots(cfg, d.turn, k, t);
    case Fire(timer, id) => TimerSlotsMatch(cfg, d.turn, timer, id, t);
    case SubmissionSucceeds(q, r) =>
    case Record(k) =>
    case Accept =>
    case Judge(_, _, _) =>
    case RollBackCandidate(q, r) => FiredSlots(b, t, CommitGrace(q, r));
    case RollBackPrompt(id) =>
    case SubmissionFails(q, r) =>
  }

  /** A handler leaves no timer in a slot that does not match the new state. */
  lemma EventKeepsSlots(cfg: Config, d: Desk, a: Action, accepted: bool)
    requires DeskSound(cfg, d) && Served(d.turn.buf, a)
    ensures SlotsMatch(Section(cfg, d.turn, a), NextTasks(cfg, d.turn, d.tasks, a, accepted))
  {
    hide Section, NextTasks, SlotsMatch, DeskSound, Served;
    if FromClient(a) {
      ClientKeepsSlots(cfg, d, a, accepted);
    } else {
      OwnEventKeepsSlots(cfg, d, a, accepted);
    }
  }

  /** A verdict that still applies restarts the stall timer of an answer it leaves open. */
  lemma SettleSlots(cfg: Config, turn: Turn, k: nat, t: Tasks)
    requires Owned(cfg, turn.buf, turn.evidence) && SlotsMatch(turn.buf, t)
    ensures SlotsMatch(Section(cfg, turn, Settle(k)), NextTasks(cfg, turn, t, Settle(k), false))
    ensures k < |turn.evidence.verdicts| && k in turn.evidence.recorded
            && AwaitsPolicy(turn.buf, turn.evidence.verdicts[k].result)
      ==> Restarted(Section(cfg, turn, Settle(k)), NextTasks(cfg, turn, t, Settle(k), false))
  {
    if k < |turn.evidence.verdicts| && k in turn.evidence.recorded {
      var r := turn.evidence.verdicts[k].result;
      if AwaitsPolicy(turn.buf, r) {
        assert turn.buf.decision == Some(r.decision);
        OwnDecisionIsApplied(cfg, turn.buf, r.fallbackUsed);
        DecideSlots(cfg, turn.buf, r.decision, r.revision, r.fallbackUsed, t);
      }
    }
  }

  predicate Usable(b: Buf, e: Event) {
    e.Event? ==> Served(b, e.action) && !Unusable(b, e.action)
  }

  predicate WellServed(cfg: Config, d: Desk, events: seq<Event>)
    decreases |events|
  {
    events != [] ==>
      && WellServed(cfg, d, events[..|events| - 1])
      && Usable(ServeAll(cfg, d, events[..|events| - 1]).turn.buf, events[|events| - 1])
  }

  /** What the desk does to its turn, as a run of sections. */
  function Actions(events: seq<Event>): (actions: seq<Action>)
    decreases |events|
  {
    if events == [] then []
    else
      var init := Actions(events[..|events| - 1]);
      match events[|events| - 1]
      case Event(a, _) => init + [a]
      case Lapse => init
  }

  lemma RunSnoc(cfg: Config, t: Turn, actions: seq<Action>, a: Action)
    ensures Run(cfg, t, actions + [a]) == Apply(cfg, Run(cfg, t, actions), a)
  {
    assert (actions + [a])[..|actions|] == actions;
  }

  lemma {:induction false} ServingIsRunning(cfg: Config, d: Desk, events: seq<Event>)
    ensures ServeAll(cfg, d, events).turn == Run(cfg, d.turn, Actions(events))
    decreases |events|
  {
    if events != [] {
      var init, e := events[..|events| - 1], events[|events| - 1];
      var before := ServeAll(cfg, d, init);
      ServingIsRunning(cfg, d, init);
      match e
      case Event(a, accepted) =>
        RunSnoc(cfg, d.turn, Actions(init), a);
        ServedTurn(cfg, before, a, accepted);
      case Lapse =>
        assert Actions(events) == Actions(init);
    }
  }

  lemma ServedTurn(cfg: Config, d: Desk, a: Action, accepted: bool)
    ensures Serve(cfg, d, Event(a, accepted)).turn == Apply(cfg, d.turn, a)
  {
  }

  lemma ServeKeepsDesk(cfg: Config, d: Desk, e: Event)
    requires DeskSound(cfg, d) && OneWorker(d.turn.evidence) && Usable(d.turn.buf, e)
    ensures DeskSound(cfg, Serve(cfg, d, e))
  {
    if e.Event? {
      ApplyOwned(cfg, d.turn, e.action);
      EventKeepsTimer(cfg, d, e.action, e.accepted);
      EventKeepsSlots(cfg, d, e.action, e.accepted);
    }
  }

  lemma EarlierOneWorker(cfg: Config, d: Desk, e: Event)
    requires OneWorker(Serve(cfg, d, e).turn.evidence)
    ensures OneWorker(d.turn.evidence)
  {
    if e.Event? {
      FewerVerdictsOneWorker(cfg, d.turn, e.action);
    }
  }

  lemma {:induction false} DeskStaysSound(cfg: Config, d: Desk, events: seq<Event>)
    requires DeskSound(cfg, d) && WellServed(cfg, d, events)
    requires OneWorker(ServeAll(cfg, d, events).turn.evidence)
    ensures DeskSound(cfg, ServeAll(cfg, d, events))
    decreases |events|
  {
    if events != [] {
      var d1, e := ServeAll(cfg, d, events[..|events| - 1]), events[|events| - 1];
      EarlierOneWorker(cfg, d1, e);
      DeskStaysSound(cfg, d, events[..|events| - 1]);
      ServeKeepsDesk(cfg, d1, e);
    }
  }

  /** The timer a state waits for, if it waits for one. */
  function Awaited(b: Buf, t: Tasks): Option<Timer> {
    match b.state
    case CompleteCandidate => t.commit
    case ConfirmationPending => t.delay
    case ConfirmationPrompting => t.ready
    case ConfirmingEnd => if b.responseSpeechActive then None else t.response
    case _ => None
  }

  predicate Waits(b: Buf) {
    b.state == CompleteCandidate || (ConfirmationState(b.state) && !b.responseSpeechActive)
  }

  /** The timer matches the turn, and firing it takes the turn where it should go. */
  predicate Advances(cfg: Config, turn: Turn, timer: Timer, id: string) {
    Matches(turn.buf, timer) && TimerSucceeds(timer, turn.buf, TimerFires(cfg, turn, timer, id))
  }

  lemma DeskAdvances(cfg: Config, d: Desk, id: string)
    requires DeskSound(cfg, d) && Fresh(d.turn.dialogue, id)
    ensures Waits(d.turn.buf) <==> Awaited(d.turn.buf, d.tasks).Some?
    ensures Waits(d.turn.buf) ==> Advances(cfg, d.turn, Awaited(d.turn.buf, d.tasks).value, id)
  {
    if Waits(d.turn.buf) {
      OwnedTimersWork(cfg, d.turn, Awaited(d.turn.buf, d.tasks).value, id);
    }
  }

  /**
    Candidates and confirmations keep their timer. A connection takes over and serves any
    events, none of them an unusable response. Then a candidate, a pending or playing prompt,
    and a prompt that waits for a response each have their timer running, and when that timer
    fires, it succeeds.
   */
  lemma CandidatesAndConfirmationsKeepTheirTimer(cfg: Config, t: Turn, events: seq<Event>, id: string)
    requires Sound(t.buf) && Talks(cfg, t.buf)
    requires WellServed(cfg, TakesOver(t), events)
    requires OneWorker(ServeAll(cfg, TakesOver(t), events).turn.evidence)
    requires Fresh(ServeAll(cfg, TakesOver(t), events).turn.dialogue, id)
    ensures var now := ServeAll(cfg, TakesOver(t), events);
            && (Waits(now.turn.buf) <==> Awaited(now.turn.buf, now.tasks).Some?)
            && (Waits(now.turn.buf) ==> Advances(cfg, now.turn, Awaited(now.turn.buf, now.tasks).value, id))
  {
    TakeOverIsSound(cfg, t);
    DeskStaysSound(cfg, TakesOver(t), events);
    DeskAdvances(cfg, ServeAll(cfg, TakesOver(t), events), id);
  }

  /**
    An unusable response strands its confirmation: it goes on waiting, and no timer is left to
    end it. The message schema keeps such responses out.
   */
  lemma UnusableResponseStrands(cfg: Config, d: Desk, a: Action, accepted: bool)
    requires DeskSound(cfg, d) && Served(d.turn.buf, a) && Unusable(d.turn.buf, a)
    ensures Section(cfg, d.turn, a) == d.turn.buf && d.turn.buf.state == ConfirmingEnd
    ensures Serve(cfg, d, Event(a, accepted)).tasks.response.None?
  {
    RespondSection(cfg, d.turn, a, d.tasks, accepted);
    UnusableResponseStopsTimer(d.turn.buf, a, d.tasks);
  }

  // ----- final answers nobody watches ----------------------------------------------------------

  /** A final answer the turn listens to has its stall timer, or its snapshot is at the worker. */
  predicate Watched(d: Desk) {
    Stallable(d.turn.buf) ==>
      StallHeld(d.turn.buf, d.tasks) || d.atWorker == Some(d.turn.buf.revision)
  }

  /** Only the worker watches the answer. */
  predicate OnlyWorkerWatches(d: Desk) {
    && Stallable(d.turn.buf) && d.tasks.stall.None?
    && d.atWorker == Some(d.turn.buf.revision)
  }

  /** The turn has a final answer that is not at the worker. */
  predicate FinalElsewhere(d: Desk) {
    d.turn.buf.segmentFinal && d.atWorker != Some(d.turn.buf.revision)
  }

  /**
    The events that leave a final answer unwatched: going back to listening from a prompt, a
    candidate or a submission, and a worker that is done with a snapshot without applying a
    verdict. None of them starts a timer.
   */
  predicate Unwatches(d: Desk, e: Event) {
    var b := d.turn.buf;
    match e
    case Lapse => OnlyWorkerWatches(d)
    case Event(Settle(k), _) =>
      Delivers(d, k) && OnlyWorkerWatches(d) && !AwaitsPolicy(b, d.turn.evidence.verdicts[k].result)
    case Event(Fire(timer, _), _) => timer.ReadyTimeout? && Matches(b, timer) && FinalElsewhere(d)
    case Event(RollBackPrompt(id), _) => b.confirmationId == Some(id) && FinalElsewhere(d)
    case Event(RollBackCandidate(q, r), _) =>
      b.state == CompleteCandidate && q == b.questionId && r == b.revision && FinalElsewhere(d)
    case Event(SubmissionFails(q, r), _) =>
      b.state == Committing && q == b.questionId && r == b.revision && FinalElsewhere(d)
    case _ => false
  }

  lemma HandlerKeepsWatch(cfg: Config, d: Desk, a: Action, accepted: bool)
    requires DeskSound(cfg, d) && Served(d.turn.buf, a) && Watched(d)
    requires FromClient(a)
    ensures Watched(Serve(cfg, d, Event(a, accepted)))
  {
    hide Transcript, TranscriptTasks, Activity, ActivityTasks, Discuss, Submit;
    var b, t := d.turn.buf, d.tasks;
    match a
    case Hear(eq, q, r, text, info) => TranscriptSlots(cfg, b, eq, q, r, text, info, t, accepted);
    case Speak(q, r, active) => ActivitySlots(cfg, b, q, r, active, t);
    case Respond(id, q, r, rr, intent) =>
      RespondSection(cfg, d.turn, a, t, accepted);
      ResponseSlots(b, id, q, r, rr, intent, t);
    case Acknowledge(id, q, r) =>
    case RespondSpeech(id, q, r, active) =>
  }

  lemma SettleKeepsWatch(cfg: Config, d: Desk, k: nat, accepted: bool)
    requires DeskSound(cfg, d) && Watched(d)
    ensures Watched(Serve(cfg, d, Event(Settle(k), accepted))) <==> !Unwatches(d, Event(Settle(k), accepted))
  {
    SettleSlots(cfg, d.turn, k, d.tasks);
  }

  /** A timer that does not match, or has no id for its prompt, leaves the answer as it was. */
  lemma IdleTimerKeepsWatch(cfg: Config, d: Desk, timer: Timer, id: string)
    requires DeskSound(cfg, d) && !Matches(d.turn.buf, timer)
    ensures TimerFires(cfg, d.turn, timer, id) == d.turn.buf
    ensures TimerTasks(cfg, d.turn, d.tasks, timer, id).stall == d.tasks.stall
  {
    OtherTimerDoesNothing(cfg, d.turn, timer, id);
  }

  /** A timer that matches takes the turn out of listening, except the one of an unready client. */
  lemma MatchedTimer(cfg: Config, d: Desk, timer: Timer, id: string)
    requires DeskSound(cfg, d) && Matches(d.turn.buf, timer)
    ensures var b' := TimerFires(cfg, d.turn, timer, id);
            if timer.ReadyTimeout? then b' == Listen(d.turn.buf) else b'.state != Listening
  {
    var b := d.turn.buf;
    match timer
    case CommitGrace(q, r) => GraceStarts(b, q, r);
    case Stall(q, r) => StallLeaves(cfg, b, q, r);
    case ConfirmationDelay(q, r) => if Fresh(d.turn.dialogue, id) { PromptMoves(cfg, b, q, r, id); }
    case ReadyTimeout(q, r, i) =>
    case ResponseTimeout(q, r, i) =>
  }

  lemma TimerKeepsWatch(cfg: Config, d: Desk, timer: Timer, id: string, accepted: bool)
    requires DeskSound(cfg, d) && Watched(d)
    ensures var e := Event(Fire(timer, id), accepted);
            Watched(Serve(cfg, d, e)) <==> !Unwatches(d, e)
  {
    FiredDesk(cfg, d, timer, id, accepted);
    if Matches(d.turn.buf, timer) {
      hide Serve, TimerFires, Owned;
      MatchedTimer(cfg, d, timer, id);
      ReadyHasAnswer(cfg, d);
    } else {
      hide Serve, TimerFires, TimerTasks, Owned, Matches;
      IdleTimerKeepsWatch(cfg, d, timer, id);
    }
  }

  lemma FiredDesk(cfg: Config, d: Desk, timer: Timer, id: string, accepted: bool)
    ensures var d' := Serve(cfg, d, Event(Fire(timer, id), accepted));
            && d'.turn.buf == TimerFires(cfg, d.turn, timer, id)
            && d'.turn.evidence.verdicts == d.turn.evidence.verdicts
            && d'.tasks == TimerTasks(cfg, d.turn, d.tasks, timer, id) && d'.atWorker == d.atWorker
  {
  }

  lemma ReadyHasAnswer(cfg: Config, d: Desk)
    requires DeskSound(cfg, d)
    ensures ConfirmationState(d.turn.buf.state) ==> !Blank(d.turn.buf.answerText)
  {
  }

  /**
    An event keeps a final answer watched if and only if it is not one of those that go back
    to listening or end the worker's work without starting a timer.
   */
  lemma EventKeepsWatch(cfg: Config, d: Desk, e: Event)
    requires DeskSound(cfg, d) && Watched(d)
    requires e.Event? ==> Served(d.turn.buf, e.action)
    ensures Watched(Serve(cfg, d, e)) <==> !Unwatches(d, e)
  {
    hide Transcript, TranscriptTasks, Activity, ActivityTasks, Response, ResponseTasks, HandleResult, DispatchIfAny,
         TimerFires, TimerTasks, Discuss, Submit, RightTimer;
    match e
    case Lapse =>
    case Event(Settle(k), accepted) => SettleKeepsWatch(cfg, d, k, accepted);
    case Event(Fire(timer, id), accepted) => TimerKeepsWatch(cfg, d, timer, id, accepted);
    case Event(RollBackPrompt(id), _) =>
    case Event(RollBackCandidate(q, r), _) =>
    case Event(SubmissionFails(q, r), _) =>
    case Event(SubmissionSucceeds(q, r), _) =>
    case Event(Record(k), _) =>
    case Event(Accept, _) =>
    case Event(Judge(_, _, _), _) =>
    case Event(a, accepted) => HandlerKeepsWatch(cfg, d, a, accepted);
  }

  /** A transcript that is taken is watched afterwards, whatever happened before. */
  lemma TranscriptsAreWatched(cfg: Config, d: Desk, a: Action, accepted: bool)
    requires DeskSound(cfg, d) && a.Hear?
    requires Transcript(cfg, d.turn.buf, a.acceptEqual, a.question, a.revision, a.text, a.info).error.None?
    ensures Watched(Serve(cfg, d, Event(a, accepted)))
  {
    TranscriptSlots(cfg, d.turn.buf, a.acceptEqual, a.question, a.revision, a.text, a.info, d.tasks, accepted);
  }

  /** An addition goes to the worker, if the worker takes it. */
  lemma AdditionGoesToWorker(cfg: Config, d: Desk, a: Action, accepted: bool)
    requires Answer(d.turn.buf, a) == Some(AnswerContent)
    ensures Serve(cfg, d, Event(a, accepted)).atWorker
         == if accepted then Some(a.responseRevision) else d.atWorker
  {
    AdditionIsUnfinished(cfg, d.turn, a);
  }

  /**
    A connection that takes over does not watch a final answer that is still to be submitted:
    its slots are empty, and its worker waits for the next transcript.
   */
  lemma TakeoverIsWatchedIff(t: Turn)
    requires Sound(t.buf)
    ensures Watched(TakesOver(t))
      <==> t.buf.state in {Committing, Committed} || !t.buf.segmentFinal || Blank(t.buf.answerText)
  {
  }

  /**
    No stall timer runs for an unfinished answer. The final transcript that ends the wait
    leaves an answer with words its stall timer, or its snapshot at the worker.
   */
  lemma FinalTranscriptIsWatched(cfg: Config, d: Desk, a: Action, accepted: bool)
    requires DeskSound(cfg, d) && Unfinished(d.turn.buf)
    ensures d.tasks.stall.None?
    ensures var now := Serve(cfg, d, Event(a, accepted));
            Taken(cfg, d.turn.buf, a) && a.info.segmentFinal && !Blank(a.text) ==>
              && Stallable(now.turn.buf) && now.turn.buf.answerText == a.text
              && (StallHeld(now.turn.buf, now.tasks) || now.atWorker == Some(now.turn.buf.revision))
  {
    if Taken(cfg, d.turn.buf, a) {
      TranscriptsAreWatched(cfg, d, a, accepted);
      TranscriptFinishesIff(cfg, d.turn.buf, a.acceptEqual, a.question, a.revision, a.text, a.info);
    }
  }

  predicate KeepsWatch(cfg: Config, d: Desk, events: seq<Event>)
    decreases |events|
  {
    events != [] ==>
      && KeepsWatch(cfg, d, events[..|events| - 1])
      && !Unwatches(ServeAll(cfg, d, events[..|events| - 1]), events[|events| - 1])
  }

  lemma {:induction false} DeskStaysWatched(cfg: Config, d: Desk, events: seq<Event>)
    requires DeskSound(cfg, d) && Watched(d) && WellServed(cfg, d, events) && KeepsWatch(cfg, d, events)
    requires OneWorker(ServeAll(cfg, d, events).turn.evidence)
    ensures DeskSound(cfg, ServeAll(cfg, d, events)) && Watched(ServeAll(cfg, d, events))
    decreases |events|
  {
    if events != [] {
      var d1, e := ServeAll(cfg, d, events[..|events| - 1]), events[|events| - 1];
      EarlierOneWorker(cfg, d1, e);
      DeskStaysWatched(cfg, d, events[..|events| - 1]);
      ServeKeepsDesk(cfg, d1, e);
      EventKeepsWatch(cfg, d1, e);
    }
  }

  /** The turn need not be waited for, or its timer is running and will succeed. */
  predicate Timed(cfg: Config, d: Desk, id: string) {
    var b := d.turn.buf;
    && (Waits(b) ==> Awaited(b, d.tasks).Some? && Advances(cfg, d.turn, Awaited(b, d.tasks).value, id))
    && (Stallable(b) ==>
          || d.atWorker == Some(b.revision)
          || (d.tasks.stall.Some? && Advances(cfg, d.turn, d.tasks.stall.value, id)))
  }

  /**
    No turn is stranded. While a watched desk serves events, none of them an unusable response
    and none of those that unwatch an answer, every turn that waits has its timer running, and
    so has every final answer that the worker does not have; when that timer fires, it succeeds.
   */
  lemma NoTurnIsStranded(cfg: Config, d: Desk, events: seq<Event>, id: string)
    requires DeskSound(cfg, d) && Watched(d) && WellServed(cfg, d, events) && KeepsWatch(cfg, d, events)
    requires OneWorker(ServeAll(cfg, d, events).turn.evidence)
    requires Fresh(ServeAll(cfg, d, events).turn.dialogue, id)
    ensures Timed(cfg, ServeAll(cfg, d, events), id)
  {
    var now := ServeAll(cfg, d, events);
    DeskStaysWatched(cfg, d, events);
    DeskAdvances(cfg, now, id);
    if Stallable(now.turn.buf) && StallHeld(now.turn.buf, now.tasks) {
      OwnedTimersWork(cfg, now.turn, now.tasks.stall.value, id);
    }
  }
}
