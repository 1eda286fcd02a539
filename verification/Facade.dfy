/**
  The facade of one interview session: it starts the graph once, resumes it once per input,
  remembers results by the client's idempotency ids, and lets a finished session rest.

  A session value also keeps the history of the graph runs, which the program does not.
 */
module Facade {
  import opened Wrappers
  import opened TurnModels
  import opened Assessment
  import opened InterviewModels
  import opened Workflow
  import opened WorkflowGuarantees
  import opened InterviewGuarantees

  datatype Request = Request(clientEventId: Option<string>, input: Input)

  /** A run of the graph, and the state it ended in. */
  datatype Run = Run(id: Option<string>, input: Input, result: SessionState)

  datatype Session = Session(
    setup: Setup,
    started: bool,
    greeting: Oracle,
    checkpoint: World,
    processed: map<string, SessionState>,
    runs: seq<Run>)

  datatype FacadeError = NotStarted

  function NewSession(setup: Setup, o: Oracle): Session {
    Session(setup, false, o, NewWorld(setup), map[], [])
  }

  function StartSession(f: Session): Session {
    if f.started then f else f.(started := true, checkpoint := Opening(f.setup, f.greeting))
  }

  /** Whether a request makes the graph run. */
  predicate Runs(f: Session, r: Request) {
    && f.started && !f.checkpoint.state.finished
    && (r.clientEventId.Some? ==> r.clientEventId.value !in f.processed)
  }

  /** A run that ended in `w` is remembered under its id. */
  function Record(f: Session, r: Request, w: World): Session {
    f.(checkpoint := w,
       runs := f.runs + [Run(r.clientEventId, r.input, w.state)],
       processed := if r.clientEventId.Some? then f.processed[r.clientEventId.value := w.state] else f.processed)
  }

  function Submit(f: Session, r: Request): Session {
    if Runs(f, r) then Record(f, r, Receive(f.checkpoint, r.input)) else f
  }

  /** What the caller gets. */
  function Answer(f: Session, r: Request): Result<SessionState, FacadeError> {
    if !f.started then Err(NotStarted)
    else if r.clientEventId.Some? && r.clientEventId.value in f.processed
    then Ok(f.processed[r.clientEventId.value])
    else Ok(Submit(f, r).checkpoint.state)
  }

  datatype Call = CallStart | CallSubmit(r: Request)

  function Handle(f: Session, c: Call): Session {
    match c
    case CallStart => StartSession(f)
    case CallSubmit(r) => Submit(f, r)
  }

  function HandleAll(f: Session, calls: seq<Call>): Session
    decreases |calls|
  {
    if calls == [] then f else Handle(HandleAll(f, calls[..|calls| - 1]), calls[|calls| - 1])
  }

  // ----- the object --------------------------------------------------------------------------

  class InterviewSession {
    const setup: Setup
    const greeting: Oracle
    var started: bool
    var checkpoint: World
    var processedClientEvents: map<string, SessionState>
    ghost var runs: seq<Run>

    ghost function State(): Session
      reads this
    {
      Session(setup, started, greeting, checkpoint, processedClientEvents, runs)
    }

    constructor (setup: Setup, o: Oracle)
      ensures State() == NewSession(setup, o)
    {
      this.setup := setup;
      greeting := o;
      started := false;
      checkpoint := NewWorld(setup);
      processedClientEvents := map[];
      runs := [];
    }

    method Start() returns (state: SessionState)
      modifies this
      ensures State() == StartSession(old(State())) && state == checkpoint.state
    {
      if started { return checkpoint.state; }
      checkpoint := Opening(setup, greeting);
      started := true;
      state := checkpoint.state;
    }

    method SubmitEvent(input: Input, clientEventId: Option<string>) returns (r: Result<SessionState, FacadeError>)
      modifies this
      ensures State() == Submit(old(State()), Request(clientEventId, input))
      ensures r == Answer(old(State()), Request(clientEventId, input))
    {
      if !started { return Err(NotStarted); }
      if clientEventId.Some? && clientEventId.value in processedClientEvents {
        return Ok(processedClientEvents[clientEventId.value]);
      }
      if checkpoint.state.finished { return Ok(checkpoint.state); }
      checkpoint := Resume(checkpoint, input.event, input.metrics, input.oracle).world;
      if clientEventId.Some? {
        processedClientEvents := processedClientEvents[clientEventId.value := checkpoint.state];
      }
      runs := runs + [Run(clientEventId, input, checkpoint.state)];
      r := Ok(checkpoint.state);
    }
  }

  // ----- idempotency -------------------------------------------------------------------------

  predicate RanAs(f: Session, k: nat, id: string) {
    k < |f.runs| && f.runs[k].id == Some(id)
  }

  /** Every remembered id is the id of exactly one run, and its result is that run's result. */
  ghost predicate Remembered(f: Session) {
    && (forall i: nat, j: nat, id: string :: RanAs(f, i, id) && RanAs(f, j, id) ==> i == j)
    && (forall i: nat, id: string :: RanAs(f, i, id) ==> id in f.processed && f.processed[id] == f.runs[i].result)
    && (forall id :: id in f.processed ==> exists i: nat :: RanAs(f, i, id))
  }

  lemma RecordRemembers(f: Session, r: Request, w: World)
    requires Remembered(f) && (r.clientEventId.Some? ==> r.clientEventId.value !in f.processed)
    ensures Remembered(Record(f, r, w))
  {
    var f', n := Record(f, r, w), |f.runs|;
    forall i: nat, id: string | RanAs(f', i, id) ensures if i == n then r.clientEventId == Some(id) else RanAs(f, i, id) {}
    forall id | id in f'.processed ensures exists i: nat :: RanAs(f', i, id) {
      if id in f.processed {
        var i: nat :| RanAs(f, i, id);
        assert RanAs(f', i, id);
      } else {
        assert RanAs(f', n, id);
      }
    }
  }

  function Inputs(runs: seq<Run>): (inputs: seq<Input>)
    ensures |inputs| == |runs|
    ensures forall i :: 0 <= i < |inputs| ==> inputs[i] == runs[i].input
  {
    seq(|runs|, i requires 0 <= i < |runs| => runs[i].input)
  }

  /** Each run took the interview from where the one before it left it. */
  predicate Played(opening: World, runs: seq<Run>) {
    forall k :: 0 <= k < |runs| ==> runs[k].result == Play(opening, Inputs(runs[..k + 1])).state
  }

  ghost predicate SessionSound(f: Session) {
    && (!f.started ==> f.runs == [] && f.processed == map[])
    && (f.started ==> f.checkpoint == Play(Opening(f.setup, f.greeting), Inputs(f.runs)))
    && Played(Opening(f.setup, f.greeting), f.runs)
    && Remembered(f)
  }

  lemma PlaySnoc(w: World, inputs: seq<Input>, i: Input)
    ensures Play(w, inputs + [i]) == Receive(Play(w, inputs), i)
  {
    hide Receive;
    assert (inputs + [i])[..|inputs|] == inputs;
  }

  lemma InputsSnoc(runs: seq<Run>, run: Run)
    ensures Inputs(runs + [run]) == Inputs(runs) + [run.input]
  {
  }

  lemma RunIsPlayed(opening: World, w: World, runs: seq<Run>, run: Run)
    requires w == Play(opening, Inputs(runs)) && Played(opening, runs)
    requires run.result == Receive(w, run.input).state
    ensures Receive(w, run.input) == Play(opening, Inputs(runs + [run]))
    ensures Played(opening, runs + [run])
  {
    hide Play, Receive, Inputs;
    var runs' := runs + [run];
    InputsSnoc(runs, run);
    PlaySnoc(opening, Inputs(runs), run.input);
    forall k | 0 <= k < |runs'| ensures runs'[k].result == Play(opening, Inputs(runs'[..k + 1])).state {
      if k < |runs| {
        assert runs'[..k + 1] == runs[..k + 1];
      } else {
        assert runs'[..k + 1] == runs';
      }
    }
  }

  lemma HandleKeeps(f: Session, c: Call)
    requires SessionSound(f)
    ensures SessionSound(Handle(f, c))
  {
    if c.CallSubmit? && Runs(f, c.r) {
      var w := Receive(f.checkpoint, c.r.input);
      RunIsPlayed(Opening(f.setup, f.greeting), f.checkpoint, f.runs, Run(c.r.clientEventId, c.r.input, w.state));
      RecordRemembers(f, c.r, w);
    }
  }

  lemma {:induction false} CallsKeep(f: Session, calls: seq<Call>)
    requires SessionSound(f)
    ensures SessionSound(HandleAll(f, calls))
    decreases |calls|
  {
    if calls != [] {
      CallsKeep(f, calls[..|calls| - 1]);
      HandleKeeps(HandleAll(f, calls[..|calls| - 1]), calls[|calls| - 1]);
    }
  }

  lemma NewSessionSound(setup: Setup, o: Oracle)
    ensures SessionSound(NewSession(setup, o))
  {
  }

  lemma RepeatedIdsAreAnswered(f: Session, i: nat, j: nat, again: Request)
    requires Remembered(f) && again.clientEventId.Some? && (!f.started ==> f.runs == [])
    requires RanAs(f, i, again.clientEventId.value) && RanAs(f, j, again.clientEventId.value)
    ensures i == j && !Runs(f, again) && Answer(f, again) == Ok(f.runs[i].result)
  {
  }

  /**
    Each idempotency id makes the graph run at most once, in every session and for every
    sequence of calls; and whoever repeats the id gets the state that run ended in, whatever
    has happened since.
   */
  lemma IdsRunOnce(setup: Setup, o: Oracle, calls: seq<Call>, i: nat, j: nat, again: Request)
    requires var f := HandleAll(NewSession(setup, o), calls);
             again.clientEventId.Some?
             && RanAs(f, i, again.clientEventId.value) && RanAs(f, j, again.clientEventId.value)
    ensures var f := HandleAll(NewSession(setup, o), calls);
            && i == j && !Runs(f, again)
            && Answer(f, again) == Ok(f.runs[i].result)
            && f.runs[i].result == Play(Opening(setup, o), Inputs(f.runs[..i + 1])).state
  {
    NewSessionSound(setup, o);
    CallsKeep(NewSession(setup, o), calls);
    RunsGrow(NewSession(setup, o), calls);
    RepeatedIdsAreAnswered(HandleAll(NewSession(setup, o), calls), i, j, again);
  }

  /** No run has had this id. */
  predicate IsNew(f: Session, id: Option<string>) {
    forall k :: 0 <= k < |f.runs| ==> f.runs[k].id.None? || f.runs[k].id != id
  }

  lemma NewIsUnprocessed(f: Session, id: string)
    requires Remembered(f)
    ensures IsNew(f, Some(id)) <==> id !in f.processed
  {
    if id in f.processed {
      var i: nat :| RanAs(f, i, id);
    } else {
      forall k | 0 <= k < |f.runs| ensures f.runs[k].id != Some(id) {
        assert f.runs[k].id == Some(id) ==> RanAs(f, k, id);
      }
    }
  }

  /**
    A submission runs the graph if and only if the session was started and is not finished and
    no run had its id. It then takes the interview on from where it stood, and its caller gets
    the state it ended in; otherwise nothing changes.
   */
  lemma SubmissionsRunIffNew(setup: Setup, o: Oracle, calls: seq<Call>, r: Request)
    ensures var f := HandleAll(NewSession(setup, o), calls);
            var f', run := Submit(f, r), Receive(f.checkpoint, r.input);
            var runs := f.started && !f.checkpoint.state.finished && IsNew(f, r.clientEventId);
            && (runs ==>
                  && f'.checkpoint == run && Answer(f, r) == Ok(run.state)
                  && f'.runs == f.runs + [Run(r.clientEventId, r.input, run.state)])
            && (!runs ==> f' == f)
            && (!f.started ==> Answer(f, r) == Err(NotStarted))
            && (f.started && f.checkpoint.state.finished && IsNew(f, r.clientEventId) ==>
                  Answer(f, r) == Ok(f.checkpoint.state))
  {
    hide Receive;
    var f := HandleAll(NewSession(setup, o), calls);
    NewSessionSound(setup, o);
    CallsKeep(NewSession(setup, o), calls);
    if r.clientEventId.Some? {
      NewIsUnprocessed(f, r.clientEventId.value);
    }
  }

  /** A session is started by the first call that asks for it, with its greeting, and stays so. */
  lemma {:induction false} StartedIffAsked(setup: Setup, o: Oracle, calls: seq<Call>)
    ensures HandleAll(NewSession(setup, o), calls).started <==> CallStart in calls
    decreases |calls|
  {
    if calls != [] {
      StartedIffAsked(setup, o, calls[..|calls| - 1]);
    }
  }

  // ----- whole sessions ------------------------------------------------------------------------

  /** The runs so far, in order, never change. */
  lemma {:induction false} RunsGrow(f: Session, calls: seq<Call>)
    ensures f.runs <= HandleAll(f, calls).runs
    ensures HandleAll(f, calls).setup == f.setup && HandleAll(f, calls).greeting == f.greeting
    decreases |calls|
  {
    if calls != [] {
      RunsGrow(f, calls[..|calls| - 1]);
    }
  }

  lemma CheckpointIsPlayed(setup: Setup, o: Oracle, calls: seq<Call>)
    requires HandleAll(NewSession(setup, o), calls).started
    ensures var f := HandleAll(NewSession(setup, o), calls);
            f.checkpoint == Play(Opening(setup, o), Inputs(f.runs))
  {
    NewSessionSound(setup, o);
    CallsKeep(NewSession(setup, o), calls);
    RunsGrow(NewSession(setup, o), calls);
  }

  /**
    A session under any calls, manual or automatic, in any order, is an interview played with
    the inputs that ran: so whatever holds of every interview holds of it.
   */
  lemma SessionsArePlayed(setup: Setup, o: Oracle, calls: seq<Call>)
    requires HandleAll(NewSession(setup, o), calls).started
    ensures var f := HandleAll(NewSession(setup, o), calls);
            && f.checkpoint == Play(Opening(setup, o), Inputs(f.runs))
            && AtRest(f.checkpoint)
            && (f.checkpoint.state.finished ==> f.checkpoint.state.report.Some?)
  {
    CheckpointIsPlayed(setup, o, calls);
    InterviewStaysSound(setup, o, Inputs(HandleAll(NewSession(setup, o), calls).runs));
  }

  predicate AnsweredOnce(all: seq<Attempt>) {
    forall i, j :: 0 <= i < j < |all| ==> all[i].question.questionId != all[j].question.questionId
  }

  lemma PlayedOnce(setup: Setup, o: Oracle, inputs: seq<Input>)
    requires HonestPlay(Opening(setup, o), inputs)
    ensures AnsweredOnce(Play(Opening(setup, o), inputs).ledger.all)
  {
    QuestionsAreJudgedOnce(setup, o, inputs);
  }

  lemma PlayedWithinBound(setup: Setup, o: Oracle, inputs: seq<Input>)
    requires ParentedPlay(Opening(setup, o), inputs)
    ensures |Play(Opening(setup, o), inputs).ledger.all| <= MostAnswers(setup)
  {
    InterviewEnds(setup, o, inputs);
  }

  /**
    Racing submissions through the facade. If derived questions name their parents, the
    session takes a bounded number of on-topic evaluations; if Strategy keeps all its
    promises, the bound holds and no question gets a second one.
   */
  lemma RacingSubmissionsAreSafe(setup: Setup, o: Oracle, calls: seq<Call>)
    requires HandleAll(NewSession(setup, o), calls).started
    ensures var inputs := Inputs(HandleAll(NewSession(setup, o), calls).runs);
            var all := HandleAll(NewSession(setup, o), calls).checkpoint.ledger.all;
            && (ParentedPlay(Opening(setup, o), inputs) ==> |all| <= MostAnswers(setup))
            && (HonestPlay(Opening(setup, o), inputs) ==> |all| <= MostAnswers(setup) && AnsweredOnce(all))
  {
    var inputs := Inputs(HandleAll(NewSession(setup, o), calls).runs);
    CheckpointIsPlayed(setup, o, calls);
    if HonestPlay(Opening(setup, o), inputs) {
      HonestPlayIsParented(Opening(setup, o), inputs);
      PlayedOnce(setup, o, inputs);
    }
    if ParentedPlay(Opening(setup, o), inputs) {
      PlayedWithinBound(setup, o, inputs);
    }
  }
}
