/**
  That connections get somewhere: who comes last takes the turn over unless it is being
  submitted, its owner can submit it, and every submission ends.
 */
module Takeovers {
  import opened Wrappers
  import opened Text
  import opened TurnModels
  import BufferSpec
  import opened CoordinatorSpec
  import opened TurnHistory
  import opened TurnLifecycle
  import opened TurnGuarantees
  import opened Ownership
  import opened OwnershipGuarantees

  /** The session after a connection opened a turn and offered its worker. */
  function Arrived(cfg: Config, s: Session, question: string): Session {
    Perform(cfg, Perform(cfg, s, Open(question)), Attach(|s.connections|))
  }

  /** The current turn is for this question. */
  predicate Asks(s: Session, question: string) {
    && s.current.Some? && s.current.value < |s.entries|
    && s.entries[s.current.value].turn.buf.questionId == question
  }

  lemma OpeningAsks(cfg: Config, s: Session, question: string)
    requires Indexed(s)
    ensures var s' := Perform(cfg, s, Open(question));
            && Asks(s', question) && |s'.connections| == |s.connections| + 1 && s'.current.Some?
            && (Asks(s, question) ==> s.current.Some?)
            && s'.connections[|s.connections|]
                 == Connection(s'.current.value, false, false, false, None)
            && (Asks(s, question) ==> s'.current == s.current && s'.entries == s.entries)
            && (!Asks(s, question) ==>
                  s'.entries == s.entries + [Entry(NewTurn(s.sessionId, question), None)])
  {
  }

  /**
    The newest connection takes over. After it opened the turn of a question, its worker is
    registered if and only if that turn is not being submitted; then it owns the turn, and the
    worker that was registered before is closed. The same question keeps its turn.
   */
  lemma NewcomersTakeOver(cfg: Config, s: Session, question: string)
    requires ValidConfig(cfg) && SessionSound(cfg, s)
    ensures var s', c := Arrived(cfg, s, question), |s.connections|;
            && SessionSound(cfg, s') && Asks(s', question) && c < |s'.connections|
            && (Asks(s, question) ==> s'.current == s.current)
            && s'.connections[c].entry == s'.current.value
            && (s'.connections[c].attached <==>
                  s'.entries[s'.current.value].turn.buf.state != BufferSpec.Committing)
            && (s'.connections[c].attached ==> Owns(s', c) && !s'.connections[c].workerClosed)
            && (s'.connections[c].attached && CurrentOwner(s).Some? ==>
                  s'.connections[CurrentOwner(s).value].workerClosed)
  {
    hide *;
    var s1, c := Perform(cfg, s, Open(question)), |s.connections|;
    PerformSound(cfg, s, Open(question));
    PerformSound(cfg, s1, Attach(c));
    SoundIsIndexed(cfg, s);
    SoundIsIndexed(cfg, s1);
    OpeningAsks(cfg, s, question);
    OldOwnerCloses(cfg, s, question);
    AttachingOwns(cfg, s1, c, question);
    ArrivedIs(cfg, s, question);
  }

  lemma ArrivedIs(cfg: Config, s: Session, question: string)
    ensures Arrived(cfg, s, question) == Perform(cfg, Perform(cfg, s, Open(question)), Attach(|s.connections|))
  {
  }

  lemma AttachingOwns(cfg: Config, s: Session, c: nat, question: string)
    requires Indexed(s) && Asks(s, question) && c < |s.connections|
    requires s.connections[c] == Connection(s.current.value, false, false, false, None)
    ensures var s' := Perform(cfg, s, Attach(c));
            && Indexed(s') && Asks(s', question) && c < |s'.connections| && s'.current == s.current
            && s'.current.Some? && s'.current.value < |s'.entries|
            && s'.connections[c].entry == s'.current.value
            && (s'.connections[c].attached <==>
                  s'.entries[s'.current.value].turn.buf.state != BufferSpec.Committing)
            && (s'.connections[c].attached ==> Owns(s', c) && !s'.connections[c].workerClosed)
  {
  }

  lemma OldOwnerCloses(cfg: Config, s: Session, question: string)
    requires Indexed(s)
    ensures var s', c, o := Arrived(cfg, s, question), |s.connections|, CurrentOwner(s);
            && c < |s'.connections|
            && (o.Some? ==>
                  && o.value < |s'.connections|
                  && (s'.connections[c].attached ==> s'.connections[o.value].workerClosed))
  {
  }

  /** A candidate that nothing disturbed is submitted as it is, once the owner's grace timer fires. */
  lemma OwnersStart(cfg: Config, s: Session, c: nat, id: string)
    requires ValidConfig(cfg) && SessionSound(cfg, s)
    requires c < |s.connections| && s.connections[c].attached
    requires !s.connections[c].closed && !s.connections[c].workerClosed
    requires BufOf(s, c).state == BufferSpec.CompleteCandidate
    ensures var b := BufOf(s, c);
            var s' := Perform(cfg, s, FireTimer(c, CommitGrace(b.questionId, b.revision), id));
            b.completionReason.Some? && c < |s'.connections| && s'.connections[c].inFlight == Some(RequestOf(b))
  {
    var b := BufOf(s, c);
    TurnIsSound(cfg, s, c);
    ReadyIfCandidate(b);
    GraceStarts(b, b.questionId, b.revision);
    FiredTurn(cfg, s, c, CommitGrace(b.questionId, b.revision), id);
  }

  lemma ReadyIfCandidate(b: BufferSpec.Buf)
    requires BufferSpec.Sound(b) && b.state == BufferSpec.CompleteCandidate
    ensures ReadyToCommit(b, b.questionId, b.revision)
  {
  }

  lemma FiredTurn(cfg: Config, s: Session, c: nat, timer: Timer, id: string)
    requires Live(s, c)
    ensures var s' := OnTurn(cfg, s, c, Fire(timer, id));
            && Live(s', c) && s'.connections == s.connections
            && BufOf(s', c) == TimerFires(cfg, s.entries[s.connections[c].entry].turn, timer, id)
  {
    hide Testify, Discuss, Submit, TimerFires;
  }

  /**
    Every submission ends as it is told: accepted, the turn is committed; failed, it listens
    again. Either way nothing of the connection is in flight any more.
   */
  lemma SubmissionsEnd(cfg: Config, s: Session, c: nat, succeeded: bool)
    requires ValidConfig(cfg) && SessionSound(cfg, s) && Flying(s, c)
    ensures var s' := Perform(cfg, s, EndSubmission(c, succeeded));
            && Live(s', c) && !Flying(s', c) && s'.connections[c].entry == s.connections[c].entry
            && BufOf(s', c).state == (if succeeded then BufferSpec.Committed else BufferSpec.Listening)
            && s'.connections[c].workerClosed == (s.connections[c].workerClosed || succeeded)
  {
    hide *;
    FlightStands(cfg, s, c);
    EndIsConcluded(cfg, s, c, succeeded);
    var t, r := s.entries[s.connections[c].entry].turn, s.connections[c].inFlight.value;
    EndedBuffer(cfg, t, r, succeeded);
    ConcludedConnection(s, c, Apply(cfg, t, End(r, succeeded)), succeeded);
  }

  lemma FlightStands(cfg: Config, s: Session, c: nat)
    requires ValidConfig(cfg) && SessionSound(cfg, s) && Flying(s, c)
    ensures Live(s, c) && s.connections[c].inFlight.Some? && c < |s.connections|
    ensures s.connections[c].entry < |s.entries|
    ensures BufferSpec.Sound(s.entries[s.connections[c].entry].turn.buf)
    ensures FlightOf(s.entries[s.connections[c].entry].turn.buf, s.connections[c].inFlight.value)
  {
    hide TurnSound;
    TurnIsSound(cfg, s, c);
  }

  lemma EndIsConcluded(cfg: Config, s: Session, c: nat, succeeded: bool)
    requires Live(s, c) && s.connections[c].inFlight.Some?
    ensures Perform(cfg, s, EndSubmission(c, succeeded))
         == Concluded(s, c, Apply(cfg, s.entries[s.connections[c].entry].turn,
                                  End(s.connections[c].inFlight.value, succeeded)), succeeded)
  {
    hide Apply, Concluded;
  }

  lemma EndedBuffer(cfg: Config, t: Turn, r: CommitRequest, succeeded: bool)
    requires BufferSpec.Sound(t.buf) && FlightOf(t.buf, r)
    ensures Apply(cfg, t, End(r, succeeded)).buf.state == if succeeded then BufferSpec.Committed else BufferSpec.Listening
  {
    hide Testify, Discuss, Submit;
  }

  lemma ConcludedConnection(s: Session, c: nat, t: Turn, succeeded: bool)
    requires Live(s, c)
    ensures var s' := Concluded(s, c, t, succeeded);
            && Live(s', c) && BufOf(s', c) == t.buf && !Flying(s', c) && c < |s'.connections|
            && s'.connections[c].entry == s.connections[c].entry
            && s'.connections[c].workerClosed == (s.connections[c].workerClosed || succeeded)
  {
  }

  /** The connection whose answer was accepted goes on with the turn of the next question. */
  lemma AcceptedGoesOn(cfg: Config, s: Session, c: nat, question: string)
    requires ValidConfig(cfg) && SessionSound(cfg, s)
    requires Live(s, c) && BufOf(s, c).state == BufferSpec.Committed
    ensures var s', d := Perform(cfg, s, Advance(c, question)), |s.connections|;
            && SessionSound(cfg, s') && Asks(s', question)
            && s'.entries[s'.current.value].turn == NewTurn(s.sessionId, question)
            && d < |s'.connections| && Owns(s', d) && s'.connections[d].attached && !s'.connections[d].workerClosed
  {
    hide *;
    PerformSound(cfg, s, Advance(c, question));
    SoundIsIndexed(cfg, s);
    NextIsOwned(s, question);
    AdvanceIsNext(cfg, s, c, question);
  }

  lemma SoundIsIndexed(cfg: Config, s: Session)
    requires SessionSound(cfg, s)
    ensures Indexed(s)
  {
  }

  lemma AdvanceIsNext(cfg: Config, s: Session, c: nat, question: string)
    requires Live(s, c) && BufOf(s, c).state == BufferSpec.Committed
    ensures Perform(cfg, s, Advance(c, question)) == RegisterNext(Replace(s, question))
  {
    hide RegisterNext, Replace;
  }

  lemma NextIsOwned(s: Session, question: string)
    requires Indexed(s)
    ensures var s', d := RegisterNext(Replace(s, question)), |s.connections|;
            && Indexed(s') && Asks(s', question)
            && s'.entries[s'.current.value].turn == NewTurn(s.sessionId, question)
            && d < |s'.connections| && Owns(s', d) && s'.connections[d].attached && !s'.connections[d].workerClosed
  {
  }
}
