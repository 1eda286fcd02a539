/**
  The voice turn coordinator as an object. Each handler and each timer body is a method, run
  with nothing in between, and proved to do to the shared buffer what its section in
  CoordinatorSpec says, and to its own task slots what TimerSlots says.
 */
module Coordinator {
  import opened Wrappers
  import opened Text
  import opened TurnModels
  import opened BufferSpec
  import opened Buffer
  import opened CoordinatorSpec
  import opened TimerSlots
  import WorkerSpec
  import opened Worker

  /** What the interview session says when a handler asks for the current question. */
  datatype Interview = Unavailable | Asking(questionId: string)

  const MAX_REMEMBERED := 20

  function SnapshotOf(b: Buf): WorkerSpec.TurnSnapshot {
    WorkerSpec.TurnSnapshot(b.sessionId, b.questionId, b.revision, b.answerText, b.speechActive, b.segmentFinal)
  }

  /** Whether the worker takes the buffer's present contents as its next snapshot. */
  predicate Takes(cfg: WorkerSpec.WorkerConfig, w: WorkerSpec.Worker, b: Buf) {
    WorkerSpec.Takes(cfg, b, w, SnapshotOf(b))
  }

  function Offered(cfg: WorkerSpec.WorkerConfig, w: WorkerSpec.Worker, b: Buf): WorkerSpec.Worker {
    if Takes(cfg, w, b) then WorkerSpec.Offer(cfg, w, SnapshotOf(b)) else w
  }

  /** Ids remembered as invalid: the new one joins, and beyond twenty any of them may be lost. */
  predicate Remembers(was: set<string>, id: string, now: set<string>) {
    && now <= was + {id}
    && |now| <= MAX_REMEMBERED
    && (|was + {id}| <= MAX_REMEMBERED ==> now == was + {id})
  }

  predicate RemembersIf(was: set<string>, id: Option<string>, now: set<string>) {
    match id
    case Some(i) => Remembers(was, i, now)
    case None => now == was
  }

  class VoiceTurnCoordinator {
    const cfg: Config
    const buffer: VoiceTurnBuffer
    const worker: LatestWinsTurnCompletionWorker
    var tasks: Tasks
    var invalid: set<string>
    var acceptEqual: bool
    var closed: bool

    predicate Valid()
      reads this, buffer
    {
      ValidConfig(cfg) && worker.buffer == buffer && Sound(buffer.Copy()) && |invalid| <= MAX_REMEMBERED
    }

    constructor (cfg: Config, workerCfg: WorkerSpec.WorkerConfig, buffer: VoiceTurnBuffer, lock: AsyncLock)
      requires ValidConfig(cfg) && WorkerSpec.ValidWorkerConfig(workerCfg) && Sound(buffer.Copy())
      ensures Valid() && this.cfg == cfg && this.buffer == buffer
      ensures fresh(worker) && worker.bufferLock == lock && worker.State() == WorkerSpec.NewWorker()
      ensures tasks == NO_TASKS && invalid == {} && !acceptEqual && !closed
    {
      this.cfg := cfg;
      this.buffer := buffer;
      worker := new LatestWinsTurnCompletionWorker(workerCfg, buffer, lock);
      tasks := NO_TASKS;
      invalid := {};
      acceptEqual := false;
      closed := false;
    }

    // ----- checks before a section ---------------------------------------------------------

    /** Why an event for a question is refused before its section is entered. */
    function Refusal(interview: Interview, question: string): Option<CoordinatorError>
      reads this, worker
    {
      if closed || worker.closed then Some(WorkerNotAvailable)
      else if interview.Unavailable? then Some(SessionUnavailable)
      else if interview.questionId != question then Some(QuestionChanged)
      else None
    }

    /** The same for an event that answers a confirmation. */
    function ResponseRefusal(interview: Interview, question: string, id: string): Option<CoordinatorError>
      reads this, worker
    {
      if closed || worker.closed then Some(WorkerNotAvailable)
      else if id in invalid then Some(StaleConfirmation)
      else Refusal(interview, question)
    }

    /** And for the news that a prompt was played, which names how its playback ended. */
    function ReadyRefusal(interview: Interview, question: string, id: string, playback: string)
      : Option<CoordinatorError>
      reads this, worker
    {
      if closed || worker.closed then Some(WorkerNotAvailable)
      else if id in invalid then Some(StaleConfirmation)
      else if playback !in {"completed", "failed"} then Some(InvalidMessage)
      else Refusal(interview, question)
    }

    predicate TimerAllowed(interview: Interview, question: string)
      reads this, worker
    {
      !closed && !worker.closed && interview == Asking(question)
    }

    // ----- small steps ---------------------------------------------------------------------

    method RememberInvalidConfirmation(id: string)
      modifies this`invalid
      ensures Remembers(old(invalid), id, invalid)
    {
      invalid := invalid + {id};
      while |invalid| > MAX_REMEMBERED
        invariant invalid <= old(invalid) + {id}
        invariant |old(invalid) + {id}| <= MAX_REMEMBERED ==> invalid == old(invalid) + {id}
      {
        var lost :| lost in invalid;
        invalid := invalid - {lost};
      }
    }

    method CancelAllTasks()
      modifies this`tasks
      ensures tasks == ConnectTasks(old(tasks), buffer.Copy())
    {
      tasks := CancelConfirmationTasks(tasks);
      tasks := CancelCommitTask(tasks, buffer.Copy());
      tasks := tasks.(stall := None);
    }

    /** Applies a decision under the lock. */
    method ApplyDecisionPolicy(d: Decision, revision: nat, fallbackUsed: bool)
      returns (r: Result<Policy, TurnError>)
      modifies buffer
      ensures Agrees(old(buffer.Copy()), ApplyPolicy(cfg, old(buffer.Copy()), d, revision, fallbackUsed), buffer.Copy(), r)
    {
      if d.action == KeepListening {
        return Ok(KeepOn(if fallbackUsed then JudgeFailed else Judged(d.reasonCode)));
      }
      if buffer.speechActive { return Ok(Defer); }
      if d.action == AutoSubmit {
        if !CanAutoSubmit(cfg, buffer.Copy(), d) { return Ok(KeepOn(AutoSubmitNotAvailable)); }
        var marked := buffer.MarkCompleteCandidate(revision, SubmitReason(d));
        return if marked.Ok? then Ok(ScheduleCommit(SubmitReason(d))) else Err(marked.error);
      }
      if CanConfirm(cfg, buffer.Copy(), d) {
        var pending := buffer.MarkConfirmationPending(revision, cfg.maxConfirmations);
        if pending.Err? { return Err(pending.error); }
        if pending.value { return Ok(ScheduleConfirmation); }
      }
      r := Ok(KeepOn(ConfirmationNotAvailable));
    }

    /** Applies a decision and reports the outcome of the section. */
    method DecideNow(d: Decision, revision: nat, fallbackUsed: bool) returns (o: Outcome)
      modifies buffer
      ensures o == Decide(cfg, old(buffer.Copy()), d, revision, fallbackUsed)
      ensures buffer.Copy() == o.buf
    {
      var policy := ApplyDecisionPolicy(d, revision, fallbackUsed);
      match policy
      case Ok(p) => o := Outcome(buffer.Copy(), Some(p), None);
      case Err(e) => o := Failed(buffer.Copy(), FromBuffer(e));
    }

    /** Offers the buffer's contents to the worker. */
    method OfferSnapshot() returns (accepted: bool)
      requires worker.buffer == buffer
      modifies worker
      ensures accepted <==> Takes(worker.cfg, old(worker.State()), buffer.Copy())
      ensures worker.State() == Offered(worker.cfg, old(worker.State()), buffer.Copy())
    {
      accepted := worker.Submit(SnapshotOf(buffer.Copy()));
    }

    // ----- connection ----------------------------------------------------------------------

    method PrepareConnection()
      requires Valid()
      modifies this, buffer
      ensures Valid()
      ensures buffer.Copy() == Prepare(old(buffer.Copy()))
      ensures acceptEqual == ExpectsSnapshot(buffer.Copy())
      ensures tasks == ConnectTasks(old(tasks), old(buffer.Copy()))
      ensures RemembersIf(old(invalid), old(buffer.activeConfirmationId), invalid)
      ensures closed == old(closed)
    {
      PreparedIsSound(buffer.Copy());
      CancelAllTasks();
      var id := buffer.CancelConfirmation();
      if id.Some? {
        RememberInvalidConfirmation(id.value);
      }
      if buffer.state == CompleteCandidate {
        var _ := buffer.ResumeListening();
      } else if buffer.state == Listening
        && (buffer.latestDecision.Some? || buffer.pendingCompletionReason.Some?)
      {
        var _ := buffer.ResumeListening();
      }
      acceptEqual := ExpectsSnapshot(buffer.Copy());
    }

    method Aclose()
      requires Valid()
      modifies this, buffer, worker
      ensures Valid() && closed
      ensures buffer.Copy() == Close(old(buffer.Copy()))
      ensures tasks == ConnectTasks(old(tasks), old(buffer.Copy()))
      ensures RemembersIf(old(invalid), old(buffer.activeConfirmationId), invalid)
      ensures worker.State() == WorkerSpec.Cancel(old(worker.State()))
    {
      closed := true;
      CancelAllTasks();
      var id := buffer.CancelConfirmation();
      if id.Some? {
        RememberInvalidConfirmation(id.value);
      }
      worker.Cancel();
    }

    // ----- sections of client events ---------------------------------------------------------

    /** The old answer's decision is recorded for the new revision and applied at once. */
    method CarryNow(d: Decision) returns (o: Outcome)
      requires ValidConfig(cfg) && Sound(buffer.Copy()) && buffer.state == Listening
      modifies buffer
      ensures o == CarryDecision(cfg, old(buffer.Copy()), d) && o.error.None?
      ensures buffer.Copy() == o.buf
    {
      CarrySucceeds(cfg, buffer.Copy(), d);
      var _ := buffer.RecordDecision(JudgeResult(buffer.questionId, buffer.revision, d, false));
      o := DecideNow(d, buffer.revision, false);
    }

    /** The section of a transcript event. */
    method TranscriptSection(question: string, revision: nat, text: string, info: SnapshotInfo)
      returns (o: Outcome)
      requires Valid()
      modifies this`acceptEqual, buffer
      ensures o == Transcript(cfg, old(buffer.Copy()), old(acceptEqual), question, revision, text, info)
      ensures buffer.Copy() == o.buf
      ensures acceptEqual == (old(acceptEqual) && o.error.Some?)
    {
      var before := buffer.Copy();
      if acceptEqual && revision == buffer.revision {
        var synchronized := buffer.SynchronizeReconnect(question, revision, text, info);
        if synchronized.Err? {
          return Failed(buffer.Copy(),
                        if synchronized.error == RevisionConflict then SnapshotConflict
                        else FromBuffer(synchronized.error));
        }
        acceptEqual := false;
        return Untouched(buffer.Copy());
      }
      var updated := buffer.UpdateTranscript(question, revision, text, info);
      if updated.Err? { return Failed(buffer.Copy(), FromBuffer(updated.error)); }
      if !updated.value { return Failed(buffer.Copy(), StaleRevision); }
      acceptEqual := false;
      if !RepeatsJudgedAnswer(before, text, info) { return Untouched(buffer.Copy()); }
      UpdateTranscriptKeeps(before, question, revision, text, info);
      o := CarryNow(before.decision.value);
    }

    /** The section of a speech event. */
    method ActivitySection(question: string, revision: nat, active: bool) returns (o: Outcome)
      modifies buffer
      ensures o == Activity(cfg, old(buffer.Copy()), question, revision, active)
      ensures buffer.Copy() == o.buf
    {
      var wasActive := buffer.speechActive;
      var updated := buffer.UpdateSpeechActivity(question, revision, active);
      if updated.Err? { return Failed(buffer.Copy(), FromBuffer(updated.error)); }
      if !updated.value { return Failed(buffer.Copy(), StaleRevision); }
      if wasActive && !active && buffer.state == Listening && buffer.segmentFinal
        && buffer.latestDecisionRevision == Some(revision) && buffer.latestDecision.Some?
        && buffer.latestDecision.value.action in {AutoSubmit, AskConfirmation}
      {
        o := DecideNow(buffer.latestDecision.value, revision, false);
        return;
      }
      o := Untouched(buffer.Copy());
    }

    method DispatchPolicy(o: Outcome)
      modifies this`tasks
      ensures tasks == DispatchIfAny(old(tasks), o)
    {
      if o.policy.Some? {
        match o.policy.value
        case ScheduleCommit(_) => tasks := ScheduleCommitTask(tasks, o.buf);
        case ScheduleConfirmation =>
          tasks := tasks.(stall := None);
          tasks := tasks.(delay := Some(ConfirmationDelay(o.buf.questionId, o.buf.revision)));
        case KeepOn(_) => tasks := MaybeStall(tasks, o.buf);
        case Defer => tasks := MaybeStall(tasks, o.buf);
      }
    }

    /** A confirmation that was under way before the section is over. */
    method InvalidateConfirmation(before: Buf)
      modifies this`tasks, this`invalid
      ensures tasks == if ConfirmationState(before.state) then CancelConfirmationTasks(old(tasks)) else old(tasks)
      ensures RemembersIf(old(invalid), if ConfirmationState(before.state) then before.confirmationId else None, invalid)
    {
      if ConfirmationState(before.state) {
        tasks := CancelConfirmationTasks(tasks);
        if before.confirmationId.Some? {
          RememberInvalidConfirmation(before.confirmationId.value);
        }
      }
    }

    /** What a transcript event does once it has left its section. */
    method StopTasks(before: Buf, o: Outcome)
      modifies this`tasks, this`invalid
      ensures tasks == StopForTranscript(old(tasks), before, o)
      ensures RemembersIf(old(invalid), if ConfirmationState(before.state) then before.confirmationId else None, invalid)
    {
      tasks := tasks.(stall := None);
      InvalidateConfirmation(before);
      if before.state == CompleteCandidate {
        tasks := CancelCommitTask(tasks, o.buf);
      }
      DispatchPolicy(o);
    }

    /** And what it does last: it offers the new snapshot, and watches for a stall if it is not taken. */
    method AfterTranscript(before: Buf, o: Outcome)
      requires worker.buffer == buffer && o.error.None? && buffer.Copy() == o.buf
      modifies this`tasks, this`invalid, worker
      ensures tasks == TranscriptTasks(old(tasks), before, o, Takes(worker.cfg, old(worker.State()), o.buf))
      ensures RemembersIf(old(invalid), if ConfirmationState(before.state) then before.confirmationId else None, invalid)
      ensures worker.State() == Offered(worker.cfg, old(worker.State()), o.buf)
    {
      StopTasks(before, o);
      var accepted := OfferSnapshot();
      if !accepted && o.policy.None? {
        tasks := MaybeStall(tasks, o.buf);
      }
    }

    // ----- client events ---------------------------------------------------------------------

    method HandleTranscriptUpdated(
      interview: Interview, question: string, revision: nat, text: string, info: SnapshotInfo)
      returns (r: Result<Buf, CoordinatorError>)
      requires Valid()
      modifies this, buffer, worker
      ensures Valid() && closed == old(closed)
      ensures old(Refusal(interview, question)).Some? ==>
        r == Err(old(Refusal(interview, question)).value) && unchanged(this, buffer, worker)
      ensures old(Refusal(interview, question)).None? ==>
        var b := old(buffer.Copy());
        var o := Transcript(cfg, b, old(acceptEqual), question, revision, text, info);
        && r == (if o.error.Some? then Err(o.error.value) else Ok(o.buf))
        && buffer.Copy() == o.buf && (o.error.Some? ==> o.buf == b)
        && acceptEqual == (old(acceptEqual) && o.error.Some?)
        && tasks == TranscriptTasks(old(tasks), b, o, Takes(worker.cfg, old(worker.State()), o.buf))
        && RemembersIf(old(invalid), if o.error.None? then b.confirmationId else None, invalid)
        && worker.State() == if o.error.Some? then old(worker.State())
                             else Offered(worker.cfg, old(worker.State()), o.buf)
    {
      var refusal := Refusal(interview, question);
      if refusal.Some? { return Err(refusal.value); }
      r := TakeTranscript(question, revision, text, info);
    }

    /** A transcript event that was not refused. */
    method TakeTranscript(question: string, revision: nat, text: string, info: SnapshotInfo)
      returns (r: Result<Buf, CoordinatorError>)
      requires Valid()
      modifies this, buffer, worker
      ensures Valid() && closed == old(closed)
      ensures
        var b := old(buffer.Copy());
        var o := Transcript(cfg, b, old(acceptEqual), question, revision, text, info);
        && r == (if o.error.Some? then Err(o.error.value) else Ok(o.buf))
        && buffer.Copy() == o.buf && (o.error.Some? ==> o.buf == b)
        && acceptEqual == (old(acceptEqual) && o.error.Some?)
        && tasks == TranscriptTasks(old(tasks), b, o, Takes(worker.cfg, old(worker.State()), o.buf))
        && RemembersIf(old(invalid), if o.error.None? then b.confirmationId else None, invalid)
        && worker.State() == if o.error.Some? then old(worker.State())
                             else Offered(worker.cfg, old(worker.State()), o.buf)
    {
      hide Transcript, Takes, Offered, DispatchIfAny;
      var before := buffer.Copy();
      TranscriptIsSound(cfg, before, acceptEqual, question, revision, text, info);
      FailedTranscriptChangesNothing(cfg, before, acceptEqual, question, revision, text, info);
      PreparedIsSound(before);
      var o := TranscriptSection(question, revision, text, info);
      if o.error.Some? { return Err(o.error.value); }
      AfterTranscript(before, o);
      r := Ok(o.buf);
    }

    method HandleActivityChanged(interview: Interview, question: string, revision: nat, active: bool)
      returns (r: Result<Buf, CoordinatorError>)
      requires Valid()
      modifies this, buffer
      ensures Valid() && closed == old(closed) && acceptEqual == old(acceptEqual)
      ensures old(Refusal(interview, question)).Some? ==>
        r == Err(old(Refusal(interview, question)).value) && unchanged(this, buffer)
      ensures old(Refusal(interview, question)).None? ==>
        var b := old(buffer.Copy());
        var o := Activity(cfg, b, question, revision, active);
        && r == (if o.error.Some? then Err(o.error.value) else Ok(o.buf))
        && buffer.Copy() == o.buf && (o.error.Some? ==> o.buf == b)
        && tasks == ActivityTasks(old(tasks), b, o, active)
        && RemembersIf(old(invalid), if active && o.error.None? then b.confirmationId else None, invalid)
    {
      hide Activity, Sound;
      var refusal := Refusal(interview, question);
      if refusal.Some? { return Err(refusal.value); }
      var before := buffer.Copy();
      ActivityIsSound(cfg, before, question, revision, active);
      PreparedIsSound(before);
      var o := ActivitySection(question, revision, active);
      if o.error.Some? { return Err(o.error.value); }
      if active {
        tasks := tasks.(stall := None);
      } else if o.policy.None? {
        tasks := MaybeStall(tasks, o.buf);
      }
      if active {
        InvalidateConfirmation(before);
      }
      if active && before.state == CompleteCandidate {
        tasks := CancelCommitTask(tasks, o.buf);
      }
      DispatchPolicy(o);
      r := Ok(o.buf);
    }

    method HandleResponseReady(
      interview: Interview, id: string, question: string, revision: nat, playback: string)
      returns (r: Result<Buf, CoordinatorError>)
      requires Valid()
      modifies this`tasks, buffer
      ensures Valid()
      ensures old(ReadyRefusal(interview, question, id, playback)).Some? ==>
        r == Err(old(ReadyRefusal(interview, question, id, playback)).value) && unchanged(this, buffer)
      ensures old(ReadyRefusal(interview, question, id, playback)).None? ==>
        var b := old(buffer.Copy());
        var o := ResponseReady(b, id, question, revision);
        && r == (if o.error.Some? then Err(o.error.value) else Ok(o.buf))
        && buffer.Copy() == o.buf && (o.error.Some? ==> o.buf == b)
        && tasks == ReadyTasks(old(tasks), b, o, id, question, revision)
    {
      var refusal := ReadyRefusal(interview, question, id, playback);
      if refusal.Some? { return Err(refusal.value); }
      if buffer.state !in {ConfirmationPrompting, ConfirmingEnd} || !Answers(buffer.Copy(), id, question, revision) {
        return Err(StaleConfirmation);
      }
      MarkReadyKeeps(buffer.Copy(), question, id, revision);
      var moved := buffer.MarkConfirmationResponseReady(question, id, revision);
      if moved == Ok(true) {
        tasks := tasks.(ready := None);
        tasks := tasks.(response := Some(ResponseTimeout(question, revision, id)));
      }
      r := Ok(buffer.Copy());
    }

    method HandleResponseActivity(
      interview: Interview, id: string, question: string, revision: nat, active: bool)
      returns (r: Result<Buf, CoordinatorError>)
      requires Valid()
      modifies this`tasks, buffer
      ensures Valid()
      ensures old(ResponseRefusal(interview, question, id)).Some? ==>
        r == Err(old(ResponseRefusal(interview, question, id)).value) && unchanged(this, buffer)
      ensures old(ResponseRefusal(interview, question, id)).None? ==>
        var b := old(buffer.Copy());
        var o := ResponseActivity(b, id, question, revision, active);
        && r == (if o.error.Some? then Err(o.error.value) else Ok(o.buf))
        && buffer.Copy() == o.buf && (o.error.Some? ==> o.buf == b)
        && tasks == ResponseSpeechTasks(old(tasks), b, o, id, question, revision, active)
    {
      var refusal := ResponseRefusal(interview, question, id);
      if refusal.Some? { return Err(refusal.value); }
      if !ResponseExpected(buffer.Copy(), id, question, revision) { return Err(StaleConfirmation); }
      UpdateResponseSpeechKeeps(buffer.Copy(), question, id, revision, active);
      var changed := buffer.UpdateConfirmationResponseActivity(question, id, revision, active);
      if changed == Ok(true) && active {
        tasks := tasks.(response := None);
      } else if changed == Ok(true) {
        tasks := tasks.(response := Some(ResponseTimeout(question, revision, id)));
      }
      r := Ok(buffer.Copy());
    }

    /** The first half of a confirmation response: it is looked up, and its timeout is stopped. */
    method ExpectResponse(interview: Interview, id: string, question: string, revision: nat)
      returns (r: Result<(), CoordinatorError>)
      modifies this`tasks
      ensures r == match ResponseRefusal(interview, question, id)
                   case Some(e) => Err(e)
                   case None =>
                     if ResponseExpected(buffer.Copy(), id, question, revision) then Ok(()) else Err(StaleConfirmation)
      ensures tasks == if r.Ok? then old(tasks).(response := None) else old(tasks)
    {
      var refusal := ResponseRefusal(interview, question, id);
      if refusal.Some? { return Err(refusal.value); }
      if !ResponseExpected(buffer.Copy(), id, question, revision) { return Err(StaleConfirmation); }
      tasks := tasks.(response := None);
      r := Ok(());
    }

    /** The second half, after the response was classified: it is looked up again and applied. */
    method ApplyResponse(
      interview: Interview, id: string, question: string, revision: nat,
      responseRevision: nat, d: IntentDecision)
      returns (r: Result<Buf, CoordinatorError>)
      requires Valid()
      modifies this, buffer, worker
      ensures Valid() && closed == old(closed) && acceptEqual == old(acceptEqual)
      ensures interview != Asking(question) ==>
        && r == Err(if interview.Unavailable? then SessionUnavailable else QuestionChanged)
        && unchanged(this, buffer, worker)
      ensures interview == Asking(question) ==>
        var b := old(buffer.Copy());
        var o := Response(b, id, question, revision, responseRevision, d);
        && r == (if o.error.Some? then Err(o.error.value) else Ok(o.buf))
        && buffer.Copy() == o.buf && (o.error.Some? ==> o.buf == b)
        && (old(tasks).response.None? ==> tasks == ResponseTasks(old(tasks), b, o, id, question, revision, d))
        && RemembersIf(old(invalid), if o.error.None? then Some(id) else None, invalid)
        && worker.State() == if o.error.None? && d.intent == AnswerContent
                             then Offered(worker.cfg, old(worker.State()), o.buf) else old(worker.State())
    {
      if interview.Unavailable? { return Err(SessionUnavailable); }
      if interview.questionId != question { return Err(QuestionChanged); }
      var before := buffer.Copy();
      if !ResponseExpected(before, id, question, revision) { return Err(StaleConfirmation); }
      ApplyIntentKeeps(before, question, id, revision, d,
                       if d.intent == AnswerContent then Some(responseRevision) else None);
      var applied := buffer.ApplyConfirmationIntent(
        question, id, revision, d, if d.intent == AnswerContent then Some(responseRevision) else None);
      if applied.Err? { return Err(FromBuffer(applied.error)); }
      RememberInvalidConfirmation(id);
      if d.intent == AnswerContent {
        var _ := OfferSnapshot();
      } else if d.intent == Finish {
        tasks := ScheduleCommitTask(tasks, buffer.Copy());
      } else {
        tasks := MaybeStall(tasks, buffer.Copy());
      }
      r := Ok(buffer.Copy());
    }

    // ----- verdicts and timers -----------------------------------------------------------------

    method HandleWorkerResult(result: JudgeResult)
      requires Valid()
      modifies this`tasks, buffer
      ensures Valid()
      ensures var o := if closed then Untouched(old(buffer.Copy())) else HandleResult(cfg, old(buffer.Copy()), result);
              buffer.Copy() == o.buf && tasks == DispatchIfAny(old(tasks), o)
    {
      if closed || !AwaitsPolicy(buffer.Copy(), result) { return; }
      DecidedIsSound(cfg, buffer.Copy(), result.decision, result.revision, result.fallbackUsed);
      var o := DecideNow(result.decision, result.revision, result.fallbackUsed);
      DispatchPolicy(o);
    }

    /** The answer has stalled: reapply a verdict, ask for confirmation, or stop listening. */
    method StallSection(question: string, revision: nat) returns (o: Outcome)
      requires Stalled(buffer.Copy(), question, revision)
      modifies buffer
      ensures o == StallFires(cfg, old(buffer.Copy()), question, revision)
      ensures buffer.Copy() == o.buf
    {
      if buffer.speechActive {
        var _ := buffer.UpdateSpeechActivity(question, revision, false);
      }
      if buffer.latestDecision.Some? && buffer.latestDecisionRevision == Some(revision)
        && CanAutoSubmit(cfg, buffer.Copy(), buffer.latestDecision.value)
      {
        o := DecideNow(buffer.latestDecision.value, revision, false);
      } else if buffer.confirmationCount < cfg.maxConfirmations {
        var _ := buffer.RecordDecision(JudgeResult(question, revision, STALL_DECISION, false));
        o := DecideNow(STALL_DECISION, revision, false);
      } else {
        var cutoff := buffer.MarkCutoffComplete(question, revision);
        o := if cutoff.Ok? then Outcome(buffer.Copy(), Some(ScheduleCommit(ListeningCutoff)), None)
             else Failed(buffer.Copy(), FromBuffer(cutoff.error));
      }
    }

    method RunStallTimeout(interview: Interview, question: string, revision: nat)
      requires Valid()
      modifies this`tasks, buffer
      ensures Valid()
      ensures !TimerAllowed(interview, question) ==>
        buffer.Copy() == old(buffer.Copy()) && tasks == Fired(old(tasks), Stall(question, revision))
      ensures TimerAllowed(interview, question) ==>
        var o := StallFires(cfg, old(buffer.Copy()), question, revision);
        && buffer.Copy() == o.buf
        && tasks == DispatchIfAny(Fired(old(tasks), Stall(question, revision)), o)
    {
      tasks := Fired(tasks, Stall(question, revision));
      if !TimerAllowed(interview, question) || !Stalled(buffer.Copy(), question, revision) { return; }
      StallIsSound(cfg, buffer.Copy(), question, revision);
      var o := StallSection(question, revision);
      DispatchPolicy(o);
    }

    /** The section that begins a prompt. */
    method PromptSection(question: string, revision: nat, id: string) returns (begun: bool)
      requires Valid()
      modifies buffer
      ensures Valid()
      ensures buffer.Copy() == if closed || worker.closed then old(buffer.Copy())
                               else DelayFires(cfg, old(buffer.Copy()), question, revision, id).buf
      ensures begun <==> buffer.Copy() != old(buffer.Copy())
    {
      if closed || worker.closed || !ReadyToPrompt(cfg, buffer.Copy(), question, revision) { return false; }
      BeginPromptKeeps(buffer.Copy(), id, revision, cfg.maxConfirmations);
      var result := buffer.BeginConfirmationPrompt(id, revision, cfg.maxConfirmations);
      begun := result.Ok?;
    }

    /** The pause before a confirmation is over: the prompt begins, and its timeout with it. */
    method RunConfirmationDelay(question: string, revision: nat, id: string)
      requires Valid()
      modifies this`tasks, buffer
      ensures Valid()
      ensures
        var b := old(buffer.Copy());
        var o := if closed || worker.closed then Untouched(b) else DelayFires(cfg, b, question, revision, id);
        && buffer.Copy() == o.buf
        && tasks == DelayTasks(old(tasks), ConfirmationDelay(question, revision), o, b, id)
    {
      tasks := Fired(tasks, ConfirmationDelay(question, revision));
      var begun := PromptSection(question, revision, id);
      if begun {
        tasks := tasks.(ready := Some(ReadyTimeout(question, revision, Strip(id))));
      }
    }

    /** A prompt that could not be sent is taken back. */
    method PromptNotSent(id: string)
      requires Valid()
      modifies this`tasks, this`invalid, buffer
      ensures Valid()
      ensures buffer.Copy() == RollbackPrompt(old(buffer.Copy()), id)
      ensures RemembersIf(old(invalid), if old(buffer.activeConfirmationId) == Some(id) then Some(id) else None, invalid)
      ensures tasks == old(tasks).(ready := None)
    {
      tasks := tasks.(ready := None);
      if buffer.activeConfirmationId == Some(id) {
        PreparedIsSound(buffer.Copy());
        var _ := buffer.CancelConfirmation();
        RememberInvalidConfirmation(id);
      }
    }

    method RunReadyTimeout(interview: Interview, question: string, revision: nat, id: string)
      requires Valid()
      modifies this, buffer
      ensures Valid() && closed == old(closed) && acceptEqual == old(acceptEqual)
      ensures tasks == Fired(old(tasks), ReadyTimeout(question, revision, id))
      ensures var b' := if TimerAllowed(interview, question)
                        then ReadyTimeoutFires(old(buffer.Copy()), question, revision, id) else old(buffer.Copy());
              && buffer.Copy() == b'
              && RemembersIf(old(invalid), if b' == old(buffer.Copy()) then None else Some(id), invalid)
    {
      tasks := Fired(tasks, ReadyTimeout(question, revision, id));
      if !TimerAllowed(interview, question) || buffer.state != ConfirmationPrompting
        || !Answers(buffer.Copy(), id, question, revision)
      {
        return;
      }
      PreparedIsSound(buffer.Copy());
      var _ := buffer.CancelConfirmation();
      RememberInvalidConfirmation(id);
    }

    method RunResponseTimeout(interview: Interview, question: string, revision: nat, id: string)
      requires Valid()
      modifies this, buffer
      ensures Valid() && closed == old(closed) && acceptEqual == old(acceptEqual)
      ensures var o := if TimerAllowed(interview, question)
                       then ResponseTimeoutFires(old(buffer.Copy()), question, revision, id)
                       else Untouched(old(buffer.Copy()));
              && buffer.Copy() == o.buf
              && tasks == DispatchIfAny(Fired(old(tasks), ResponseTimeout(question, revision, id)), o)
              && RemembersIf(old(invalid), if o.policy.Some? then Some(id) else None, invalid)
    {
      tasks := Fired(tasks, ResponseTimeout(question, revision, id));
      if !TimerAllowed(interview, question) || !ResponseExpected(buffer.Copy(), id, question, revision)
        || buffer.responseSpeechActive
      {
        return;
      }
      MarkCutoffKeeps(buffer.Copy(), question, revision);
      var cutoff := buffer.MarkCutoffComplete(question, revision);
      if cutoff.Err? { return; }
      RememberInvalidConfirmation(id);
      tasks := ScheduleCommitTask(tasks, buffer.Copy());
    }

    // ----- submission --------------------------------------------------------------------------

    /** The commit grace has passed: the candidate is submitted, or given up with its question. */
    method RunCommitDelay(interview: Interview, question: string, revision: nat)
      returns (request: Option<CommitRequest>)
      requires Valid()
      modifies this`tasks, buffer
      ensures Valid()
      ensures tasks == Fired(old(tasks), CommitGrace(question, revision))
      ensures interview != Asking(question) ==>
        request.None? && buffer.Copy() == RollbackCandidate(old(buffer.Copy()), question, revision)
      ensures interview == Asking(question) ==>
        && buffer.Copy() == (if closed || worker.closed then old(buffer.Copy())
                             else GraceFires(old(buffer.Copy()), question, revision).buf)
        && (request.Some? <==> buffer.state == Committing && old(buffer.state) != Committing)
        && (request.Some? ==> buffer.pendingCompletionReason.Some? && request.value == RequestOf(buffer.Copy()))
    {
      tasks := Fired(tasks, CommitGrace(question, revision));
      request := None;
      if interview != Asking(question) {
        RollBack(question, revision);
        return;
      }
      if closed || worker.closed || !ReadyToCommit(buffer.Copy(), question, revision) { return; }
      BeginCommitKeeps(buffer.Copy(), question, revision);
      var reason := buffer.pendingCompletionReason.value;
      var text := buffer.BeginCommit(question, revision);
      if text.Err? { return; }
      request := Some(CommitRequest(buffer.sessionId, question, revision, text.value, reason,
                                    buffer.latestDeliveryMetrics));
    }

    method RollBack(question: string, revision: nat)
      requires Valid()
      modifies buffer
      ensures Valid()
      ensures buffer.Copy() == RollbackCandidate(old(buffer.Copy()), question, revision)
    {
      if buffer.state == CompleteCandidate && buffer.questionId == question && buffer.revision == revision {
        ListenKeeps(buffer.Copy());
        var _ := buffer.ResumeListening();
      }
    }

    method AbortCommit(request: CommitRequest)
      requires Valid()
      modifies buffer
      ensures Valid()
      ensures buffer.Copy() == SubmissionFailed(old(buffer.Copy()), request.questionId, request.revision)
    {
      if buffer.state == Committing && buffer.questionId == request.questionId && buffer.revision == request.revision {
        ListenKeeps(buffer.Copy());
        var _ := buffer.AbortCommit(request.questionId, request.revision);
      }
    }

    method FinishCommit(request: CommitRequest) returns (r: Result<(), CoordinatorError>)
      requires Valid()
      modifies buffer, worker
      ensures Valid()
      ensures buffer.Copy() == SubmissionDone(old(buffer.Copy()), request.questionId, request.revision)
      ensures r.Ok? <==> MarkCommitted(old(buffer.Copy()), request.questionId, request.revision).Returned?
      ensures worker.State() == if r.Ok? then WorkerSpec.Cancel(old(worker.State())) else old(worker.State())
    {
      MarkCommittedKeeps(buffer.Copy(), request.questionId, request.revision);
      var marked := buffer.MarkCommitted(request.questionId, request.revision);
      if marked.Err? { return Err(FromBuffer(marked.error)); }
      worker.Cancel();
      r := Ok(());
    }
  }

  lemma PreparedIsSound(b: Buf)
    requires Sound(b)
    ensures Sound(Prepare(b)) && Sound(Close(b))
    ensures b.confirmationId.Some? ==> ConfirmationState(b.state)
  {
  }

  lemma DecidedIsSound(cfg: Config, b: Buf, d: Decision, revision: nat, fallback: bool)
    requires Sound(b)
    ensures Sound(Decide(cfg, b, d, revision, fallback).buf)
  {
    MarkCandidateKeeps(b, revision, SubmitReason(d));
    MarkPendingKeeps(b, revision, cfg.maxConfirmations);
  }

  lemma TranscriptIsSound(
    cfg: Config, b: Buf, eq: bool, q: string, r: nat, text: string, info: SnapshotInfo)
    requires Sound(b)
    ensures Sound(Transcript(cfg, b, eq, q, r, text, info).buf)
  {
    SynchronizeKeeps(b, q, r, text, info);
    UpdateTranscriptKeeps(b, q, r, text, info);
    var reply := UpdateTranscript(b, q, r, text, info);
    if reply.Returned? && reply.value && b.decision.Some? {
      var result := JudgeResult(reply.buf.questionId, reply.buf.revision, b.decision.value, false);
      RecordDecisionKeeps(reply.buf, result);
      DecidedIsSound(cfg, RecordDecision(reply.buf, result).buf, b.decision.value, reply.buf.revision, false);
    }
  }

  lemma ActivityIsSound(cfg: Config, b: Buf, q: string, r: nat, active: bool)
    requires Sound(b) && ValidConfig(cfg)
    ensures var o := Activity(cfg, b, q, r, active);
            Sound(o.buf) && (o.error.Some? ==> o.buf == b)
  {
    FailedActivityChangesNothing(cfg, b, q, r, active);
    UpdateSpeechKeeps(b, q, r, active);
    var reply := UpdateSpeech(b, q, r, active);
    if reply.Returned? && reply.buf.decision.Some? {
      DecidedIsSound(cfg, reply.buf, reply.buf.decision.value, r, false);
    }
  }

  lemma StallIsSound(cfg: Config, b: Buf, q: string, r: nat)
    requires Sound(b) && Stalled(b, q, r)
    ensures Sound(StallFires(cfg, b, q, r).buf)
  {
    var quiet := if b.speechActive then b.(speechActive := false) else b;
    var result := JudgeResult(q, r, STALL_DECISION, false);
    RecordDecisionKeeps(quiet, result);
    if quiet.decision.Some? {
      DecidedIsSound(cfg, quiet, quiet.decision.value, r, false);
    }
    DecidedIsSound(cfg, RecordDecision(quiet, result).buf, STALL_DECISION, r, false);
    MarkCutoffKeeps(quiet, q, r);
  }
}
