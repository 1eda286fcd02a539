/**
  What every run of a session keeps, with any number of connections in any interleaving: a
  turn being submitted gains no new owner, a superseded connection starts no submission, and
  each turn has at most one submission in flight and none after one succeeded.
 */
module OwnershipGuarantees {
  import opened Wrappers
  import opened TurnModels
  import BufferSpec
  import opened CoordinatorSpec
  import opened TurnHistory
  import opened TurnLifecycle
  import opened TurnGuarantees
  import opened Ownership

  type Buf = BufferSpec.Buf
  type TurnState = BufferSpec.TurnState

  // ----- who enters and leaves `Committing` --------------------------------------------------

  predicate SameCommitting(b: Buf, b': Buf) {
    && (b'.state.Committing? <==> b.state.Committing?)
    && (b.state.Committing? ==> b' == b)
  }

  predicate SubmissionEnds(a: Action) {
    a.SubmissionFails? || a.SubmissionSucceeds?
  }

  predicate Grace(a: Action) {
    a.Fire? && a.timer.CommitGrace?
  }

  lemma TimersKeepCommitting(cfg: Config, t: Turn, timer: Timer, id: string)
    requires BufferSpec.Sound(t.buf) && Talks(cfg, t.buf)
    requires t.buf.state.Committing? || !timer.CommitGrace?
    ensures SameCommitting(t.buf, TimerFires(cfg, t, timer, id))
  {
    var b := t.buf;
    match timer
    case CommitGrace(q, r) =>
    case Stall(q, r) => if Stalled(b, q, r) { StallNeverCommits(cfg, b, q, r); }
    case ConfirmationDelay(q, r) =>
    case ReadyTimeout(q, r, i) =>
    case ResponseTimeout(q, r, i) =>
  }

  lemma StallNeverCommits(cfg: Config, b: Buf, q: string, r: nat)
    requires BufferSpec.Sound(b) && Talks(cfg, b) && Stalled(b, q, r)
    ensures !StallFires(cfg, b, q, r).buf.state.Committing?
  {
  }

  lemma TranscriptKeepsCommitting(
    cfg: Config, b: Buf, eq: bool, q: string, r: nat, text: string, info: BufferSpec.SnapshotInfo)
    ensures SameCommitting(b, Transcript(cfg, b, eq, q, r, text, info).buf)
  {
    var reply := BufferSpec.UpdateTranscript(b, q, r, text, info);
    if reply.Returned? && reply.value && b.decision.Some? {
      var b2 := BufferSpec.RecordDecision(reply.buf, JudgeResult(b.questionId, r, b.decision.value, false)).buf;
      DecideDecides(cfg, b2, b.decision.value, r, false);
    }
  }

  lemma ActivityKeepsCommitting(cfg: Config, b: Buf, q: string, r: nat, active: bool)
    ensures SameCommitting(b, Activity(cfg, b, q, r, active).buf)
  {
    var reply := BufferSpec.UpdateSpeech(b, q, r, active);
    if reply.Returned? && reply.buf.decision.Some? {
      DecideDecides(cfg, reply.buf, reply.buf.decision.value, r, false);
    }
  }

  lemma ResultKeepsCommitting(cfg: Config, b: Buf, r: JudgeResult)
    ensures SameCommitting(b, HandleResult(cfg, b, r).buf)
  {
    DecideDecides(cfg, b, r.decision, r.revision, r.fallbackUsed);
  }

  /** Only the commit grace enters `Committing`, and only the end of the submission leaves it. */
  lemma SectionsKeepCommitting(cfg: Config, t: Turn, a: Action)
    requires BufferSpec.Sound(t.buf) && Talks(cfg, t.buf) && !SubmissionEnds(a)
    requires t.buf.state.Committing? || !Grace(a)
    ensures SameCommitting(t.buf, Section(cfg, t, a))
  {
    hide Transcript, Activity, HandleResult, TimerFires;
    var b := t.buf;
    match a
    case Hear(eq, q, r, text, info) => TranscriptKeepsCommitting(cfg, b, eq, q, r, text, info);
    case Speak(q, r, active) => ActivityKeepsCommitting(cfg, b, q, r, active);
    case Settle(k) => if k < |t.evidence.verdicts| { ResultKeepsCommitting(cfg, b, t.evidence.verdicts[k].result); }
    case Fire(timer, id) => TimersKeepCommitting(cfg, t, timer, id);
    case Respond(id, q, r, rr, d) =>
    case Acknowledge(id, q, r) =>
    case RespondSpeech(id, q, r, active) =>
    case Record(k) =>
    case SubmissionSucceeds(q, r) =>
    case Connect =>
    case Disconnect =>
    case Accept =>
    case Judge(_, _, _) =>
    case RollBackCandidate(q, r) =>
    case RollBackPrompt(id) =>
    case SubmissionFails(q, r) =>
  }

  // ----- each step keeps the session sound -------------------------------------------------

  /** Connections keep their entry and what they have in flight; new ones have nothing in flight. */
  predicate SameFlights(s: Session, s': Session) {
    && |s.connections| <= |s'.connections|
    && (forall c :: 0 <= c < |s.connections| ==>
          && s'.connections[c].entry == s.connections[c].entry
          && s'.connections[c].inFlight == s.connections[c].inFlight)
    && (forall c :: |s.connections| <= c < |s'.connections| ==> s'.connections[c].inFlight.None?)
  }

  predicate SameTurns(s: Session, s': Session) {
    && |s.entries| <= |s'.entries|
    && (forall e :: 0 <= e < |s.entries| ==> SameCommitting(s.entries[e].turn.buf, s'.entries[e].turn.buf))
    && (forall e :: |s.entries| <= e < |s'.entries| ==> !s'.entries[e].turn.buf.state.Committing?)
  }

  lemma FlightsKept(s: Session, s': Session)
    requires Indexed(s) && Indexed(s') && FlightsSound(s)
    requires SameFlights(s, s') && SameTurns(s, s')
    ensures FlightsSound(s')
  {
    forall e | 0 <= e < |s'.entries| && s'.entries[e].turn.buf.state.Committing?
      ensures Submitting(s', e)
    {
      assert Submitting(s, e);
      var c :| 0 <= c < |s.connections| && s.connections[c].entry == e && Flying(s, c);
      assert Flying(s', c);
    }
    forall c | 0 <= c < |s'.connections| && Flying(s', c)
      ensures Flying(s, c)
      ensures FlightOf(s'.entries[s'.connections[c].entry].turn.buf, s'.connections[c].inFlight.value)
    {
      assert SameCommitting(s.entries[s.connections[c].entry].turn.buf, s'.entries[s.connections[c].entry].turn.buf);
    }
  }

  lemma ReplaceSound(cfg: Config, s: Session, q: string)
    requires SessionSound(cfg, s)
    ensures SessionSound(cfg, Replace(s, q))
  {
    hide TurnSound, FlightOf;
    NewTurnSound(cfg, s.sessionId, q);
    FlightsKept(s, Replace(s, q));
  }

  lemma JoinSound(cfg: Config, s: Session)
    requires SessionSound(cfg, s)
    ensures SessionSound(cfg, Join(s))
  {
    FlightsKept(s, Join(s));
  }

  predicate RegistrySound(s: Session) {
    Indexed(s) && OwnersRegistered(s)
  }

  lemma RegisterKeepsRegistry(s: Session, e: nat, c: nat)
    requires RegistrySound(s) && e < |s.entries| && c < |s.connections|
    requires s.current == Some(e) && s.connections[c].entry == e
    ensures RegistrySound(Register(s, e, c))
  {
  }

  /** Which connection owns a turn is no concern of the turn. */
  lemma SameTurnsSound(cfg: Config, s: Session, s': Session)
    requires SessionSound(cfg, s) && RegistrySound(s') && SameFlights(s, s')
    requires |s'.entries| == |s.entries|
    requires forall e :: 0 <= e < |s.entries| ==> s'.entries[e].turn == s.entries[e].turn
    ensures SessionSound(cfg, s')
  {
    FlightsKept(s, s');
  }

  lemma RegisterSound(cfg: Config, s: Session, e: nat, c: nat)
    requires SessionSound(cfg, s) && e < |s.entries| && c < |s.connections|
    requires s.current == Some(e) && s.connections[c].entry == e
    ensures SessionSound(cfg, Register(s, e, c))
  {
    RegisterKeepsRegistry(s, e, c);
    SameTurnsSound(cfg, s, Register(s, e, c));
  }

  lemma NextSound(cfg: Config, s: Session)
    requires SessionSound(cfg, s)
    ensures SessionSound(cfg, RegisterNext(s))
  {
    if s.current.Some? {
      JoinSound(cfg, s);
      RegisterSound(cfg, Join(s), s.current.value, |s.connections|);
    }
  }

  lemma ShutSound(cfg: Config, s: Session, c: Option<nat>)
    requires SessionSound(cfg, s)
    ensures SessionSound(cfg, s.(connections := ShutWorker(s.connections, c)))
  {
    SameTurnsSound(cfg, s, s.(connections := ShutWorker(s.connections, c)));
  }

  lemma RemoveSound(cfg: Config, s: Session)
    requires SessionSound(cfg, s)
    ensures SessionSound(cfg, Perform(cfg, s, Remove))
  {
    SameTurnsSound(cfg, s, Perform(cfg, s, Remove));
  }

  lemma DetachKeepsRegistry(cfg: Config, s: Session, c: nat)
    requires RegistrySound(s)
    ensures RegistrySound(Perform(cfg, s, Detach(c)))
  {
  }

  lemma DetachSound(cfg: Config, s: Session, c: nat)
    requires SessionSound(cfg, s)
    ensures SessionSound(cfg, Perform(cfg, s, Detach(c)))
  {
    hide Section, TurnSound, Indexed;
    DetachKeepsRegistry(cfg, s, c);
    SameTurnsSound(cfg, s, Perform(cfg, s, Detach(c)));
  }

  lemma HangupSound(cfg: Config, s: Session, c: nat)
    requires SessionSound(cfg, s)
    ensures SessionSound(cfg, Perform(cfg, s, Hangup(c)))
  {
    SameTurnsSound(cfg, s, Perform(cfg, s, Hangup(c)));
  }

  lemma SetTurnKeeps(cfg: Config, s: Session, c: nat, t: Turn)
    requires RegistrySound(s) && TurnsSound(cfg, s) && c < |s.connections| && TurnSound(cfg, t)
    ensures RegistrySound(SetTurn(s, c, t)) && TurnsSound(cfg, SetTurn(s, c, t))
  {
  }

  /** A section of a turn leaves the registry alone and keeps the turns sound. */
  lemma OnTurnKeeps(cfg: Config, s: Session, c: nat, a: Action)
    requires ValidConfig(cfg) && SessionSound(cfg, s) && Live(s, c)
    ensures var s' := OnTurn(cfg, s, c, a);
            Indexed(s') && OwnersRegistered(s') && TurnsSound(cfg, s')
  {
    var t := s.entries[s.connections[c].entry].turn;
    ApplyKeeps(cfg, t, a);
    SetTurnKeeps(cfg, s, c, Apply(cfg, t, a));
  }

  lemma SoundTurnTalks(cfg: Config, t: Turn)
    requires ValidConfig(cfg) && TurnSound(cfg, t)
    ensures BufferSpec.Sound(t.buf) && Talks(cfg, t.buf)
  {
  }

  lemma QuietSectionSound(cfg: Config, s: Session, c: nat, a: Action)
    requires ValidConfig(cfg) && SessionSound(cfg, s) && Live(s, c)
    requires !SubmissionEnds(a) && (BufOf(s, c).state.Committing? || !Grace(a))
    ensures SessionSound(cfg, OnTurn(cfg, s, c, a))
  {
    var t := s.entries[s.connections[c].entry].turn;
    SoundTurnTalks(cfg, t);
    SectionsKeepCommitting(cfg, t, a);
    OnTurnKeeps(cfg, s, c, a);
    SetTurnKeepsFlights(s, c, Apply(cfg, t, a));
  }

  lemma SetTurnKeepsFlights(s: Session, c: nat, t: Turn)
    requires Indexed(s) && FlightsSound(s) && c < |s.connections| && SameCommitting(BufOf(s, c), t.buf)
    ensures Indexed(SetTurn(s, c, t)) && FlightsSound(SetTurn(s, c, t))
  {
    FlightsKept(s, SetTurn(s, c, t));
  }

  lemma GraceStep(b: Buf, timer: Timer)
    requires BufferSpec.Sound(b) && timer.CommitGrace?
    ensures var b' := GraceFires(b, timer.question, timer.revision).buf;
            b'.state.Committing? ==> b'.completionReason.Some?
  {
    GraceStarts(b, timer.question, timer.revision);
  }

  /** A submission that starts is the only one of its turn. */
  lemma StartFlights(cfg: Config, s: Session, c: nat, timer: Timer, id: string)
    requires Indexed(s) && FlightsSound(s) && Live(s, c) && BufferSpec.Sound(BufOf(s, c))
    requires timer.CommitGrace? && !BufOf(s, c).state.Committing?
    ensures FlightsSound(Started(s, OnTurn(cfg, s, c, Fire(timer, id)), c))
  {
    var s1 := OnTurn(cfg, s, c, Fire(timer, id));
    GraceStep(BufOf(s, c), timer);
    if BufOf(s1, c).state.Committing? {
      StartedFlights(s, s1, c);
    } else {
      FlightsKept(s, s1);
    }
  }

  lemma TurnIsSound(cfg: Config, s: Session, c: nat)
    requires ValidConfig(cfg) && SessionSound(cfg, s) && Live(s, c)
    ensures BufferSpec.Sound(BufOf(s, c)) && Talks(cfg, BufOf(s, c))
  {
    SoundTurnTalks(cfg, s.entries[s.connections[c].entry].turn);
  }

  lemma StartSound(cfg: Config, s: Session, c: nat, timer: Timer, id: string)
    requires ValidConfig(cfg) && SessionSound(cfg, s) && Live(s, c)
    requires timer.CommitGrace? && !BufOf(s, c).state.Committing?
    ensures SessionSound(cfg, Started(s, OnTurn(cfg, s, c, Fire(timer, id)), c))
  {
    TurnIsSound(cfg, s, c);
    OnTurnKeeps(cfg, s, c, Fire(timer, id));
    StartFlights(cfg, s, c, timer, id);
    StartedKeepsRest(cfg, s, OnTurn(cfg, s, c, Fire(timer, id)), c);
  }

  lemma StartedKeepsRest(cfg: Config, s: Session, s1: Session, c: nat)
    requires Live(s, c) && Live(s1, c) && RegistrySound(s1) && TurnsSound(cfg, s1)
    ensures RegistrySound(Started(s, s1, c)) && TurnsSound(cfg, Started(s, s1, c))
  {
    hide TurnSound;
  }

  lemma FlightIsCommitting(s: Session, d: nat)
    requires Indexed(s) && FlightsSound(s) && Flying(s, d)
    ensures s.entries[s.connections[d].entry].turn.buf.state.Committing?
  {
    assert FlightOf(s.entries[s.connections[d].entry].turn.buf, s.connections[d].inFlight.value);
  }

  lemma StartedFlights(s: Session, s1: Session, c: nat)
    requires Indexed(s) && Indexed(s1) && FlightsSound(s) && c < |s.connections|
    requires s1.connections == s.connections && |s1.entries| == |s.entries|
    requires var e := s.connections[c].entry;
             && s1.entries[e].turn.buf.state.Committing? && s1.entries[e].turn.buf.completionReason.Some?
             && !s.entries[e].turn.buf.state.Committing?
             && (forall f :: 0 <= f < |s.entries| && f != e ==> s1.entries[f].turn.buf == s.entries[f].turn.buf)
    ensures Indexed(Started(s, s1, c)) && FlightsSound(Started(s, s1, c))
  {
    hide RequestOf;
    var e, s' := s.connections[c].entry, Started(s, s1, c);
    forall d | 0 <= d < |s'.connections| && d != c ensures Flying(s', d) <==> Flying(s, d) {}
    forall d | 0 <= d < |s.connections| && Flying(s, d) ensures s.connections[d].entry != e {
      FlightIsCommitting(s, d);
    }
    forall f | 0 <= f < |s'.entries| && s'.entries[f].turn.buf.state.Committing?
      ensures Submitting(s', f)
    {
      if f == e {
        assert Flying(s', c);
      } else {
        assert Submitting(s, f);
        var d :| 0 <= d < |s.connections| && s.connections[d].entry == f && Flying(s, d);
        assert Flying(s', d);
      }
    }
  }

  lemma FailureEnds(b: Buf, r: CommitRequest)
    requires FlightOf(b, r)
    ensures !SubmissionFailed(b, r.questionId, r.revision).state.Committing?
  {
  }

  lemma SuccessEnds(b: Buf, r: CommitRequest)
    requires FlightOf(b, r)
    ensures SubmissionDone(b, r.questionId, r.revision).state.Committed?
  {
  }

  lemma EndSections(cfg: Config, t: Turn, r: CommitRequest)
    ensures Section(cfg, t, End(r, true)) == SubmissionDone(t.buf, r.questionId, r.revision)
    ensures Section(cfg, t, End(r, false)) == SubmissionFailed(t.buf, r.questionId, r.revision)
  {
  }

  lemma EndStep(cfg: Config, t: Turn, r: CommitRequest, succeeded: bool)
    requires FlightOf(t.buf, r)
    ensures !Section(cfg, t, End(r, succeeded)).state.Committing?
  {
    SuccessEnds(t.buf, r);
    FailureEnds(t.buf, r);
    EndSections(cfg, t, r);
  }

  lemma FinishFlights(cfg: Config, s: Session, c: nat, succeeded: bool)
    requires Indexed(s) && FlightsSound(s) && Flying(s, c)
    ensures FlightsSound(Finished(cfg, s, c, s.connections[c].inFlight.value, succeeded))
  {
    var r, e := s.connections[c].inFlight.value, s.connections[c].entry;
    var t := s.entries[e].turn;
    EndStep(cfg, t, r, succeeded);
    var s' := Finished(cfg, s, c, r, succeeded);
    assert s'.entries[e].turn.buf == Section(cfg, t, End(r, succeeded));
    EndedFlights(s, s', c);
  }

  /** The end of a submission leaves the registry alone, apart from closing a worker. */
  lemma ClosingKeepsRegistry(s1: Session, cs: seq<Connection>)
    requires RegistrySound(s1) && |cs| == |s1.connections|
    requires forall d :: 0 <= d < |cs| ==>
               && cs[d].entry == s1.connections[d].entry && cs[d].attached == s1.connections[d].attached
               && (s1.connections[d].workerClosed ==> cs[d].workerClosed)
    ensures RegistrySound(s1.(connections := cs))
  {
  }

  lemma ConcludedKeepsRest(cfg: Config, s: Session, c: nat, t: Turn, succeeded: bool)
    requires RegistrySound(s) && TurnsSound(cfg, s) && c < |s.connections| && TurnSound(cfg, t)
    ensures RegistrySound(Concluded(s, c, t, succeeded)) && TurnsSound(cfg, Concluded(s, c, t, succeeded))
  {
    SetTurnKeeps(cfg, s, c, t);
    ClosingKeepsRegistry(SetTurn(s, c, t), Concluded(s, c, t, succeeded).connections);
  }

  lemma FinishSound(cfg: Config, s: Session, c: nat, succeeded: bool)
    requires ValidConfig(cfg) && SessionSound(cfg, s) && Flying(s, c)
    ensures SessionSound(cfg, Finished(cfg, s, c, s.connections[c].inFlight.value, succeeded))
  {
    var t, a := s.entries[s.connections[c].entry].turn, End(s.connections[c].inFlight.value, succeeded);
    ApplyKeeps(cfg, t, a);
    ConcludedKeepsRest(cfg, s, c, Apply(cfg, t, a), succeeded);
    FinishFlights(cfg, s, c, succeeded);
  }

  lemma FlightsDiffer(s: Session, c: nat, d: nat)
    requires Indexed(s) && FlightsSound(s) && Flying(s, c) && Flying(s, d) && c != d
    ensures s.connections[c].entry != s.connections[d].entry
  {
  }

  lemma EndedFlights(s: Session, s': Session, c: nat)
    requires Indexed(s) && Indexed(s') && FlightsSound(s) && Flying(s, c)
    requires |s'.entries| == |s.entries| && |s'.connections| == |s.connections|
    requires forall d :: 0 <= d < |s.connections| ==>
               && s'.connections[d].entry == s.connections[d].entry
               && s'.connections[d].inFlight == if d == c then None else s.connections[d].inFlight
    requires var e := s.connections[c].entry;
             && !s'.entries[e].turn.buf.state.Committing?
             && (forall f :: 0 <= f < |s.entries| && f != e ==> s'.entries[f].turn.buf == s.entries[f].turn.buf)
    ensures FlightsSound(s')
  {
    forall d | 0 <= d < |s'.connections| && Flying(s', d) ensures Flying(s, d) && d != c {}
    forall d | 0 <= d < |s.connections| && Flying(s, d) && d != c
      ensures s.connections[d].entry != s.connections[c].entry
    {
      FlightsDiffer(s, c, d);
    }
    forall f | 0 <= f < |s'.entries| && s'.entries[f].turn.buf.state.Committing?
      ensures Submitting(s', f)
    {
      assert Submitting(s, f);
      var d :| 0 <= d < |s.connections| && s.connections[d].entry == f && Flying(s, d);
      assert Flying(s', d);
    }
  }

  lemma FireSound(cfg: Config, s: Session, c: nat, timer: Timer, id: string)
    requires ValidConfig(cfg) && SessionSound(cfg, s) && Live(s, c)
    ensures SessionSound(cfg, Started(s, OnTurn(cfg, s, c, Fire(timer, id)), c))
  {
    if timer.CommitGrace? && !BufOf(s, c).state.Committing? {
      StartSound(cfg, s, c, timer, id);
    } else {
      QuietSectionSound(cfg, s, c, Fire(timer, id));
      var t := s.entries[s.connections[c].entry].turn;
      SoundTurnTalks(cfg, t);
      SectionsKeepCommitting(cfg, t, Fire(timer, id));
    }
  }

  lemma RegistryActSound(cfg: Config, s: Session, act: SessionAction)
    requires ValidConfig(cfg) && SessionSound(cfg, s)
    requires !act.Handle? && !act.FireTimer? && !act.EndSubmission?
    ensures SessionSound(cfg, Perform(cfg, s, act))
  {
    match act
    case Open(q) =>
      ReplaceSound(cfg, s, q);
      JoinSound(cfg, OpenTurn(s, q));
    case Attach(c) =>
      if Live(s, c) && s.current == Some(s.connections[c].entry) {
        RegisterSound(cfg, s, s.connections[c].entry, c);
      }
    case Advance(c, q) =>
      ReplaceSound(cfg, s, q);
      NextSound(cfg, Replace(s, q));
    case ReplaceByHand(q) => ReplaceSound(cfg, s, q);
    case Remove => RemoveSound(cfg, s);
    case Hangup(c) => HangupSound(cfg, s, c);
    case CloseWorker(c) => ShutSound(cfg, s, Some(c));
    case Detach(c) => DetachSound(cfg, s, c);
  }

  lemma PerformSound(cfg: Config, s: Session, act: SessionAction)
    requires ValidConfig(cfg) && SessionSound(cfg, s)
    ensures SessionSound(cfg, Perform(cfg, s, act))
  {
    match act
    case Handle(c, a) => HandleSound(cfg, s, c, a);
    case FireTimer(c, timer, id) => TimerSound(cfg, s, c, timer, id);
    case EndSubmission(c, succeeded) => EndSound(cfg, s, c, succeeded);
    case _ => RegistryActSound(cfg, s, act);
  }

  lemma HandleSound(cfg: Config, s: Session, c: nat, a: Action)
    requires ValidConfig(cfg) && SessionSound(cfg, s)
    ensures SessionSound(cfg, Perform(cfg, s, Handle(c, a)))
  {
    hide Section, OwnersRegistered, SessionSound, OpenTurn, Live;
    if Live(s, c) && !SubmissionEnds(a) && !a.Fire? {
      QuietSectionSound(cfg, s, c, a);
    }
  }

  lemma TimerSound(cfg: Config, s: Session, c: nat, timer: Timer, id: string)
    requires ValidConfig(cfg) && SessionSound(cfg, s)
    ensures SessionSound(cfg, Perform(cfg, s, FireTimer(c, timer, id)))
  {
    if Perform(cfg, s, FireTimer(c, timer, id)) != s {
      FireSound(cfg, s, c, timer, id);
    }
  }

  lemma EndSound(cfg: Config, s: Session, c: nat, succeeded: bool)
    requires ValidConfig(cfg) && SessionSound(cfg, s)
    ensures SessionSound(cfg, Perform(cfg, s, EndSubmission(c, succeeded)))
  {
    if Perform(cfg, s, EndSubmission(c, succeeded)) != s {
      FinishSound(cfg, s, c, succeeded);
    }
  }

  lemma NewSessionSound(cfg: Config, sessionId: string)
    ensures SessionSound(cfg, NewSession(sessionId))
  {
  }

  /** Every reachable state of a session satisfies the invariant. */
  lemma {:induction false} SessionStaysSound(cfg: Config, s: Session, acts: seq<SessionAction>)
    requires ValidConfig(cfg) && SessionSound(cfg, s)
    ensures SessionSound(cfg, RunSession(cfg, s, acts))
    decreases |acts|
  {
    if acts != [] {
      SessionStaysSound(cfg, s, acts[..|acts| - 1]);
      PerformSound(cfg, RunSession(cfg, s, acts[..|acts| - 1]), acts[|acts| - 1]);
    }
  }

  // ----- who may submit ----------------------------------------------------------------------

  /** A turn being submitted may lose its owner, but nobody else becomes its owner. */
  lemma CommittingGainsNoOwner(cfg: Config, s: Session, act: SessionAction, e: nat)
    requires Indexed(s) && e < |s.entries| && s.entries[e].turn.buf.state.Committing?
    ensures e < |Perform(cfg, s, act).entries|
    ensures Perform(cfg, s, act).entries[e].owner in {s.entries[e].owner, None}
  {
    hide Apply;
  }

  /** Whoever has a submission in flight is the only connection its turn may be registered to. */
  predicate SubmittersOwn(s: Session)
    requires Indexed(s)
  {
    forall c :: 0 <= c < |s.connections| && Flying(s, c) ==>
      s.entries[s.connections[c].entry].owner in {Some(c), None}
  }

  /**
    A submission starts only when a commit grace fires for the registered owner of the current
    turn, whose connection is open; and it submits what the buffer holds at that moment.
   */
  lemma OnlyOwnersStart(cfg: Config, s: Session, act: SessionAction, c: nat)
    requires ValidConfig(cfg) && SessionSound(cfg, s)
    requires c < |Perform(cfg, s, act).connections|
    requires Flying(Perform(cfg, s, act), c) && !Flying(s, c)
    ensures act.FireTimer? && act.c == c && act.timer.CommitGrace?
    ensures c < |s.connections| && !s.connections[c].closed && Owns(s, c)
    ensures ReadyToCommit(BufOf(s, c), act.timer.question, act.timer.revision)
    ensures Perform(cfg, s, act).connections[c].inFlight == Some(RequestOf(BufOf(s, c)))
  {
    NobodyElseStarts(cfg, s, act, c);
    TurnIsSound(cfg, s, c);
    FiringCommits(cfg, s.entries[s.connections[c].entry].turn, act.timer, act.freshId);
  }

  lemma FiringCommits(cfg: Config, t: Turn, timer: Timer, id: string)
    requires BufferSpec.Sound(t.buf) && Talks(cfg, t.buf) && !t.buf.state.Committing?
    requires TimerFires(cfg, t, timer, id).state.Committing?
    ensures timer.CommitGrace? && ReadyToCommit(t.buf, timer.question, timer.revision)
    ensures TimerFires(cfg, t, timer, id) == t.buf.(state := BufferSpec.Committing)
  {
    if timer.CommitGrace? {
      GraceStarts(t.buf, timer.question, timer.revision);
    } else {
      TimersKeepCommitting(cfg, t, timer, id);
    }
  }

  lemma OthersStartNothing(cfg: Config, s: Session, act: SessionAction, c: nat)
    requires !act.FireTimer? && Flying(Perform(cfg, s, act), c)
    ensures Flying(s, c)
  {
    hide Apply, NewTurn, BufOf, CurrentOwner;
  }

  lemma NobodyElseStarts(cfg: Config, s: Session, act: SessionAction, c: nat)
    requires c < |Perform(cfg, s, act).connections|
    requires Flying(Perform(cfg, s, act), c) && !Flying(s, c)
    ensures act.FireTimer? && act.c == c && Live(s, c)
    ensures s.connections[c].attached && !s.connections[c].closed && !s.connections[c].workerClosed
    ensures !BufOf(s, c).state.Committing?
    ensures var b' := TimerFires(cfg, s.entries[s.connections[c].entry].turn, act.timer, act.freshId);
            b'.state.Committing? && b'.completionReason.Some?
            && Perform(cfg, s, act).connections[c].inFlight == Some(RequestOf(b'))
  {
    if act.FireTimer? {
      FiringStarts(cfg, s, act.c, act.timer, act.freshId, c);
    } else {
      OthersStartNothing(cfg, s, act, c);
    }
  }

  lemma FiringStarts(cfg: Config, s: Session, d: nat, timer: Timer, id: string, c: nat)
    requires Flying(Perform(cfg, s, FireTimer(d, timer, id)), c) && !Flying(s, c)
    ensures d == c && Live(s, c)
    ensures s.connections[c].attached && !s.connections[c].closed && !s.connections[c].workerClosed
    ensures !BufOf(s, c).state.Committing?
    ensures var b' := TimerFires(cfg, s.entries[s.connections[c].entry].turn, timer, id);
            b'.state.Committing? && b'.completionReason.Some?
            && Perform(cfg, s, FireTimer(d, timer, id)).connections[c].inFlight == Some(RequestOf(b'))
  {
    hide Testify, Discuss, Submit, OpenTurn, Register, RegisterNext, Replace, ShutWorker, Finished;
    if Live(s, d) {
      var t := s.entries[s.connections[d].entry].turn;
      SettingStarts(s, d, Apply(cfg, t, Fire(timer, id)), c);
      assert Section(cfg, t, Fire(timer, id)) == TimerFires(cfg, t, timer, id);
    }
  }

  lemma SettingStarts(s: Session, d: nat, t: Turn, c: nat)
    requires Live(s, d)
    ensures Flying(Started(s, SetTurn(s, d, t), d), c) && !Flying(s, c) ==>
      && d == c && !BufOf(s, c).state.Committing? && t.buf.state.Committing? && t.buf.completionReason.Some?
      && Started(s, SetTurn(s, d, t), d).connections[c].inFlight == Some(RequestOf(t.buf))
  {
  }

  /** Connections and turns are never forgotten, and a connection never changes its turn. */
  predicate Grows(s: Session, s': Session) {
    && |s.entries| <= |s'.entries|
    && |s.connections| <= |s'.connections|
    && forall c :: 0 <= c < |s.connections| ==> s'.connections[c].entry == s.connections[c].entry
  }

  lemma GrowsByRegistry(cfg: Config, s: Session, act: SessionAction)
    requires !act.Handle? && !act.FireTimer? && !act.EndSubmission?
    ensures Grows(s, Perform(cfg, s, act))
  {
    hide Apply;
  }

  lemma GrowsByTurn(s: Session, c: nat, t: Turn, succeeded: bool)
    requires Live(s, c)
    ensures Grows(s, SetTurn(s, c, t))
    ensures Grows(s, Started(s, SetTurn(s, c, t), c))
    ensures Grows(s, Concluded(s, c, t, succeeded))
  {
  }

  lemma PerformGrows(cfg: Config, s: Session, act: SessionAction)
    ensures Grows(s, Perform(cfg, s, act))
  {
    if Perform(cfg, s, act) != s {
      match act
      case Handle(c, a) => GrowsByTurn(s, c, Apply(cfg, s.entries[s.connections[c].entry].turn, a), false);
      case FireTimer(c, timer, id) =>
        GrowsByTurn(s, c, Apply(cfg, s.entries[s.connections[c].entry].turn, Fire(timer, id)), false);
      case EndSubmission(c, succeeded) =>
        var a := End(s.connections[c].inFlight.value, succeeded);
        GrowsByTurn(s, c, Apply(cfg, s.entries[s.connections[c].entry].turn, a), succeeded);
      case _ => GrowsByRegistry(cfg, s, act);
    }
  }

  lemma SubmitterKept(cfg: Config, s: Session, act: SessionAction, c: nat)
    requires ValidConfig(cfg) && SessionSound(cfg, s) && SubmittersOwn(s)
    requires Flying(Perform(cfg, s, act), c)
    ensures c < |s.connections| && s.connections[c].entry < |s.entries|
    ensures s.entries[s.connections[c].entry].owner in {Some(c), None}
    ensures s.entries[s.connections[c].entry].turn.buf.state.Committing? || act.FireTimer?
  {
    if Flying(s, c) {
      assert FlightOf(s.entries[s.connections[c].entry].turn.buf, s.connections[c].inFlight.value);
    } else {
      OnlyOwnersStart(cfg, s, act, c);
    }
  }

  lemma TimersKeepOwners(cfg: Config, s: Session, act: SessionAction, e: nat)
    requires act.FireTimer? && e < |s.entries|
    ensures e < |Perform(cfg, s, act).entries|
    ensures Perform(cfg, s, act).entries[e].owner == s.entries[e].owner
  {
  }

  lemma SubmittersKept(cfg: Config, s: Session, act: SessionAction)
    requires ValidConfig(cfg) && SessionSound(cfg, s) && SubmittersOwn(s)
    requires Indexed(Perform(cfg, s, act))
    ensures SubmittersOwn(Perform(cfg, s, act))
  {
    var s' := Perform(cfg, s, act);
    PerformGrows(cfg, s, act);
    forall c | 0 <= c < |s'.connections| && Flying(s', c)
      ensures s'.entries[s'.connections[c].entry].owner in {Some(c), None}
    {
      SubmitterKept(cfg, s, act, c);
      if act.FireTimer? {
        TimersKeepOwners(cfg, s, act, s.connections[c].entry);
      } else {
        CommittingGainsNoOwner(cfg, s, act, s.connections[c].entry);
      }
    }
  }

  /** In every reachable state a turn being submitted is registered to its submitter or to nobody. */
  lemma {:induction false} SubmittersAreOwners(cfg: Config, sessionId: string, acts: seq<SessionAction>)
    requires ValidConfig(cfg)
    ensures SessionSound(cfg, RunSession(cfg, NewSession(sessionId), acts))
    ensures SubmittersOwn(RunSession(cfg, NewSession(sessionId), acts))
    decreases |acts|
  {
    NewSessionSound(cfg, sessionId);
    SessionStaysSound(cfg, NewSession(sessionId), acts);
    if acts != [] {
      SubmittersAreOwners(cfg, sessionId, acts[..|acts| - 1]);
      PerformSound(cfg, RunSession(cfg, NewSession(sessionId), acts[..|acts| - 1]), acts[|acts| - 1]);
      SubmittersKept(cfg, RunSession(cfg, NewSession(sessionId), acts[..|acts| - 1]), acts[|acts| - 1]);
    }
  }

  /**
    One submission per turn. In every reachable state two connections with a submission in
    flight are submitting different turns, and each submits what its turn is committing.
   */
  lemma OneFlightPerTurn(cfg: Config, sessionId: string, acts: seq<SessionAction>, c: nat, d: nat)
    requires ValidConfig(cfg)
    requires Flying(RunSession(cfg, NewSession(sessionId), acts), c)
    requires Flying(RunSession(cfg, NewSession(sessionId), acts), d)
    requires RunSession(cfg, NewSession(sessionId), acts).connections[c].entry
          == RunSession(cfg, NewSession(sessionId), acts).connections[d].entry
    ensures c == d
    ensures var s := RunSession(cfg, NewSession(sessionId), acts);
            Live(s, c) && FlightOf(BufOf(s, c), s.connections[c].inFlight.value)
  {
    NewSessionSound(cfg, sessionId);
    SessionStaysSound(cfg, NewSession(sessionId), acts);
  }

  // ----- a superseded connection -------------------------------------------------------------

  predicate Retired(s: Session, c: nat) {
    c < |s.connections| && s.connections[c].attached && s.connections[c].workerClosed
  }

  predicate StaysRetired(s: Session, s': Session, c: nat)
    requires Retired(s, c)
  {
    Retired(s', c) && s'.connections[c].inFlight in {s.connections[c].inFlight, None}
  }

  lemma RetiredByRegistry(cfg: Config, s: Session, act: SessionAction, c: nat)
    requires Retired(s, c) && !act.Handle? && !act.FireTimer? && !act.EndSubmission?
    ensures StaysRetired(s, Perform(cfg, s, act), c)
  {
    hide Apply;
  }

  lemma RetiredByTurn(s: Session, d: nat, t: Turn, succeeded: bool, c: nat)
    requires Retired(s, c) && Live(s, d)
    ensures StaysRetired(s, SetTurn(s, d, t), c)
    ensures d != c ==> StaysRetired(s, Started(s, SetTurn(s, d, t), d), c)
    ensures StaysRetired(s, Concluded(s, d, t, succeeded), c)
  {
  }

  lemma RetiredStays(cfg: Config, s: Session, act: SessionAction, c: nat)
    requires Retired(s, c)
    ensures StaysRetired(s, Perform(cfg, s, act), c)
  {
    match act
    case Handle(d, a) =>
      if Live(s, d) { RetiredByTurn(s, d, Apply(cfg, s.entries[s.connections[d].entry].turn, a), false, c); }
    case FireTimer(d, timer, id) =>
      if Live(s, d) { RetiredByTurn(s, d, Apply(cfg, s.entries[s.connections[d].entry].turn, Fire(timer, id)), false, c); }
    case EndSubmission(d, succeeded) =>
      if Live(s, d) && Flying(s, d) {
        var a := End(s.connections[d].inFlight.value, succeeded);
        RetiredByTurn(s, d, Apply(cfg, s.entries[s.connections[d].entry].turn, a), succeeded, c);
      }
    case _ => RetiredByRegistry(cfg, s, act, c);
  }

  lemma {:induction false} RetiredForGood(cfg: Config, s: Session, acts: seq<SessionAction>, c: nat)
    requires Retired(s, c)
    ensures Retired(RunSession(cfg, s, acts), c)
    ensures RunSession(cfg, s, acts).connections[c].inFlight in {s.connections[c].inFlight, None}
    decreases |acts|
  {
    if acts != [] {
      RetiredForGood(cfg, s, acts[..|acts| - 1], c);
      RetiredStays(cfg, RunSession(cfg, s, acts[..|acts| - 1]), acts[|acts| - 1], c);
    }
  }

  /**
    Once another connection is registered for its turn, or another turn has the slot, a
    connection starts no submission ever again; the one it may have in flight can only end.
   */
  lemma SupersededNeverSubmits(
    cfg: Config, sessionId: string, before: seq<SessionAction>, after: seq<SessionAction>, c: nat)
    requires ValidConfig(cfg)
    requires var s := RunSession(cfg, NewSession(sessionId), before);
             c < |s.connections| && s.connections[c].attached
             && (Indexed(s) ==> !Owns(s, c))
    ensures var s := RunSession(cfg, NewSession(sessionId), before);
            var s' := RunSession(cfg, s, after);
            c < |s'.connections| && s'.connections[c].inFlight in {s.connections[c].inFlight, None}
  {
    NewSessionSound(cfg, sessionId);
    SessionStaysSound(cfg, NewSession(sessionId), before);
    RetiredForGood(cfg, RunSession(cfg, NewSession(sessionId), before), after, c);
  }

  // ----- an accepted answer ------------------------------------------------------------------

  predicate Accepted(s: Session, e: nat) {
    e < |s.entries| && s.entries[e].turn.buf.state.Committed?
  }

  lemma CommittedTurnStays(cfg: Config, t: Turn, a: Action)
    requires ValidConfig(cfg) && TurnSound(cfg, t) && t.buf.state.Committed?
    ensures Apply(cfg, t, a).buf == t.buf && Apply(cfg, t, a).submissions == t.submissions
  {
    ApplyKeeps(cfg, t, a);
  }

  lemma RegistryLeavesTurns(cfg: Config, s: Session, act: SessionAction, e: nat)
    requires e < |s.entries| && !act.Handle? && !act.FireTimer? && !act.EndSubmission?
    ensures e < |Perform(cfg, s, act).entries|
    ensures Perform(cfg, s, act).entries[e].turn == s.entries[e].turn
  {
  }

  predicate OneSection(cfg: Config, t: Turn, a: Action, t': Turn) {
    t' == t || t' == Apply(cfg, t, a)
  }

  lemma HandleIsOneSection(cfg: Config, s: Session, c: nat, a: Action, e: nat)
    requires e < |s.entries|
    ensures OneSection(cfg, s.entries[e].turn, a, Perform(cfg, s, Handle(c, a)).entries[e].turn)
  {
    hide Section, OpenTurn, Register, RegisterNext, Replace, ShutWorker, Finished;
    if Live(s, c) {
      SettingIsOneTurn(s, c, Apply(cfg, s.entries[s.connections[c].entry].turn, a), false, e);
    }
  }

  lemma TimerIsOneSection(cfg: Config, s: Session, c: nat, timer: Timer, id: string, e: nat)
    requires e < |s.entries|
    ensures OneSection(cfg, s.entries[e].turn, Fire(timer, id),
                       Perform(cfg, s, FireTimer(c, timer, id)).entries[e].turn)
  {
    if Perform(cfg, s, FireTimer(c, timer, id)) != s {
      SettingIsOneTurn(s, c, Apply(cfg, s.entries[s.connections[c].entry].turn, Fire(timer, id)), false, e);
    }
  }

  lemma SettingIsOneTurn(s: Session, c: nat, t: Turn, succeeded: bool, e: nat)
    requires Live(s, c) && e < |s.entries|
    ensures var t' := if e == s.connections[c].entry then t else s.entries[e].turn;
      && SetTurn(s, c, t).entries[e].turn == t'
      && Started(s, SetTurn(s, c, t), c).entries[e].turn == t'
      && Concluded(s, c, t, succeeded).entries[e].turn == t'
  {
  }

  lemma EndIsOneSection(cfg: Config, s: Session, c: nat, succeeded: bool, e: nat)
    requires e < |s.entries| && Flying(s, c)
    ensures OneSection(cfg, s.entries[e].turn, End(s.connections[c].inFlight.value, succeeded),
                       Perform(cfg, s, EndSubmission(c, succeeded)).entries[e].turn)
  {
    if Perform(cfg, s, EndSubmission(c, succeeded)) != s {
      var a := End(s.connections[c].inFlight.value, succeeded);
      SettingIsOneTurn(s, c, Apply(cfg, s.entries[s.connections[c].entry].turn, a), succeeded, e);
    }
  }

  /** What one step can do to one turn: nothing, or one section. */
  lemma OneSectionAtMost(cfg: Config, s: Session, act: SessionAction, e: nat) returns (a: Action)
    requires e < |s.entries|
    ensures e < |Perform(cfg, s, act).entries|
    ensures OneSection(cfg, s.entries[e].turn, a, Perform(cfg, s, act).entries[e].turn)
  {
    PerformGrows(cfg, s, act);
    a := Connect;
    match act {
      case Handle(c, h) =>
        a := h;
        HandleIsOneSection(cfg, s, c, h, e);
      case FireTimer(c, timer, id) =>
        a := Fire(timer, id);
        TimerIsOneSection(cfg, s, c, timer, id, e);
      case EndSubmission(c, succeeded) =>
        if Flying(s, c) {
          a := End(s.connections[c].inFlight.value, succeeded);
          EndIsOneSection(cfg, s, c, succeeded, e);
        }
      case _ => RegistryLeavesTurns(cfg, s, act, e);
    }
  }

  /**
    None after success. Once a turn's answer was accepted, its buffer and its submissions
    never change again and no submission of it is in flight, whatever connections do.
   */
  lemma {:induction false} AcceptedIsFinal(cfg: Config, s: Session, acts: seq<SessionAction>, e: nat)
    requires ValidConfig(cfg) && SessionSound(cfg, s) && Accepted(s, e)
    ensures SessionSound(cfg, RunSession(cfg, s, acts)) && Accepted(RunSession(cfg, s, acts), e)
    ensures var s' := RunSession(cfg, s, acts);
            && s'.entries[e].turn.buf == s.entries[e].turn.buf
            && s'.entries[e].turn.submissions == s.entries[e].turn.submissions
            && !Submitting(s', e)
    decreases |acts|
  {
    SessionStaysSound(cfg, s, acts);
    if acts != [] {
      var init, act := acts[..|acts| - 1], acts[|acts| - 1];
      AcceptedIsFinal(cfg, s, init, e);
      var a := OneSectionAtMost(cfg, RunSession(cfg, s, init), act, e);
      CommittedTurnStays(cfg, RunSession(cfg, s, init).entries[e].turn, a);
    }
  }
}
