/**
  Many connections, one session: who may submit.

  A session keeps every turn its registry ever held and every connection that ever opened.
  The registry slot names the current turn; a turn names the connection whose worker is
  registered for it. Connections come, reconnect, are superseded and go in any order. A
  handler that passed its availability check may run its section long after it was
  superseded; a timer checks again under the lock.
 */
module Ownership {
  import opened Wrappers
  import opened Text
  import opened TurnModels
  import opened BufferSpec
  import opened CoordinatorSpec
  import opened TurnHistory
  import opened TurnLifecycle
  import opened TurnGuarantees

  datatype Entry = Entry(turn: Turn, owner: Option<nat>)

  /** A coordinator: its entry, whether its worker was registered, and what it submits. */
  datatype Connection = Connection(
    entry: nat, attached: bool, closed: bool, workerClosed: bool, inFlight: Option<CommitRequest>)

  datatype Session = Session(
    sessionId: string, entries: seq<Entry>, current: Option<nat>, connections: seq<Connection>)

  function NewSession(sessionId: string): Session {
    Session(sessionId, [], None, [])
  }

  datatype SessionAction =
    | Open(question: string)
    | Attach(c: nat)
    | Handle(c: nat, a: Action)
    | FireTimer(c: nat, timer: Timer, freshId: string)
    | EndSubmission(c: nat, succeeded: bool)
    | Advance(c: nat, question: string)
    | ReplaceByHand(question: string)
    | Remove
    | Hangup(c: nat)
    | CloseWorker(c: nat)
    | Detach(c: nat)

  // ----- the registry ----------------------------------------------------------------------

  function ShutWorker(cs: seq<Connection>, c: Option<nat>): seq<Connection> {
    if c.Some? && c.value < |cs| then cs[c.value := cs[c.value].(workerClosed := true)] else cs
  }

  function CurrentOwner(s: Session): Option<nat> {
    if s.current.Some? && s.current.value < |s.entries| then s.entries[s.current.value].owner else None
  }

  /** replace_question: a new entry takes the slot and the registered worker is cancelled. */
  function Replace(s: Session, question: string): Session {
    s.(entries := s.entries + [Entry(NewTurn(s.sessionId, question), None)],
       current := Some(|s.entries|),
       connections := ShutWorker(s.connections, CurrentOwner(s)))
  }

  /** open_turn: the same question keeps its entry, another question replaces it. */
  function OpenTurn(s: Session, question: string): Session {
    if s.current.Some? && s.current.value < |s.entries|
       && s.entries[s.current.value].turn.buf.questionId == question
    then s else Replace(s, question)
  }

  function Register(s: Session, e: nat, c: nat): Session
    requires e < |s.entries| && c < |s.connections|
  {
    var shut := if s.entries[e].owner == Some(c) then s.connections
                else ShutWorker(s.connections, s.entries[e].owner);
    s.(entries := s.entries[e := s.entries[e].(owner := Some(c))],
       connections := shut[c := shut[c].(attached := true)])
  }

  // ----- actions ---------------------------------------------------------------------------

  predicate Live(s: Session, c: nat) {
    c < |s.connections| && s.connections[c].entry < |s.entries|
  }

  function BufOf(s: Session, c: nat): Buf
    requires Live(s, c)
  {
    s.entries[s.connections[c].entry].turn.buf
  }

  function SetTurn(s: Session, c: nat, t: Turn): Session
    requires Live(s, c)
  {
    var e := s.connections[c].entry;
    s.(entries := s.entries[e := s.entries[e].(turn := t)])
  }

  function OnTurn(cfg: Config, s: Session, c: nat, a: Action): Session
    requires Live(s, c)
  {
    SetTurn(s, c, Apply(cfg, s.entries[s.connections[c].entry].turn, a))
  }

  /** Sections a connection may run whether or not it still owns the turn. */
  predicate Ungated(a: Action) {
    !a.Fire? && !a.SubmissionFails? && !a.SubmissionSucceeds? && !a.Record?
  }

  function Join(s: Session): Session {
    if s.current.None? then s
    else s.(connections := s.connections + [Connection(s.current.value, false, false, false, None)])
  }

  /** The connection that got its answer accepted goes on with the turn it just put in the slot. */
  function RegisterNext(s: Session): Session {
    if s.current.Some? && s.current.value < |s.entries|
    then Register(Join(s), s.current.value, |s.connections|) else s
  }

  function Perform(cfg: Config, s: Session, act: SessionAction): Session {
    match act
    case Open(q) => Join(OpenTurn(s, q))
    case Attach(c) =>
      if Live(s, c) && !s.connections[c].attached && !s.connections[c].workerClosed
         && BufOf(s, c).state != Committing && s.current == Some(s.connections[c].entry)
      then Register(s, s.connections[c].entry, c) else s
    case Handle(c, a) =>
      if Live(s, c) && (s.connections[c].attached || a.Disconnect?)
         && (Ungated(a) || (a.Record? && !s.connections[c].workerClosed))
      then OnTurn(cfg, s, c, a) else s
    case FireTimer(c, timer, id) =>
      if Live(s, c) && s.connections[c].attached && !s.connections[c].closed && !s.connections[c].workerClosed
      then Started(s, OnTurn(cfg, s, c, Fire(timer, id)), c) else s
    case EndSubmission(c, succeeded) =>
      if Live(s, c) && s.connections[c].inFlight.Some?
      then Finished(cfg, s, c, s.connections[c].inFlight.value, succeeded) else s
    case Advance(c, q) =>
      if Live(s, c) && BufOf(s, c).state == Committed then RegisterNext(Replace(s, q)) else s
    case ReplaceByHand(q) => Replace(s, q)
    case Remove =>
      s.(current := None, connections := ShutWorker(s.connections, CurrentOwner(s)))
    case Hangup(c) =>
      if c < |s.connections|
      then s.(connections := s.connections[c := s.connections[c].(closed := true)]) else s
    case CloseWorker(c) => s.(connections := ShutWorker(s.connections, Some(c)))
    case Detach(c) =>
      if CurrentOwner(s) == Some(c)
      then s.(entries := s.entries[s.current.value := s.entries[s.current.value].(owner := None)],
              connections := ShutWorker(s.connections, Some(c)))
      else s
  }

  /** A connection whose grace timer took the turn into `Committing` submits its answer. */
  function Started(s: Session, s': Session, c: nat): Session
    requires Live(s, c) && Live(s', c)
  {
    if BufOf(s', c).state == Committing && BufOf(s, c).state != Committing
       && BufOf(s', c).completionReason.Some?
    then s'.(connections := s'.connections[c := s'.connections[c].(inFlight := Some(RequestOf(BufOf(s', c))))])
    else s'
  }

  function End(r: CommitRequest, succeeded: bool): Action {
    if succeeded then SubmissionSucceeds(r.questionId, r.revision)
    else SubmissionFails(r.questionId, r.revision)
  }

  function Finished(cfg: Config, s: Session, c: nat, r: CommitRequest, succeeded: bool): Session
    requires Live(s, c)
  {
    Concluded(s, c, Apply(cfg, s.entries[s.connections[c].entry].turn, End(r, succeeded)), succeeded)
  }

  /** The connection has nothing in flight any more; an accepted answer closes its worker. */
  function Concluded(s: Session, c: nat, t: Turn, succeeded: bool): Session
    requires Live(s, c)
  {
    var conn := s.connections[c].(inFlight := None);
    SetTurn(s, c, t).(connections := s.connections[c := if succeeded then conn.(workerClosed := true) else conn])
  }

  function RunSession(cfg: Config, s: Session, acts: seq<SessionAction>): Session
    decreases |acts|
  {
    if acts == [] then s
    else Perform(cfg, RunSession(cfg, s, acts[..|acts| - 1]), acts[|acts| - 1])
  }

  // ----- the invariant ---------------------------------------------------------------------

  predicate Indexed(s: Session) {
    && (s.current.Some? ==> s.current.value < |s.entries|)
    && (forall c :: 0 <= c < |s.connections| ==> s.connections[c].entry < |s.entries|)
    && (forall e :: 0 <= e < |s.entries| && s.entries[e].owner.Some? ==> s.entries[e].owner.value < |s.connections|)
  }

  /** An attached connection with a live worker is the registered owner of the current entry. */
  predicate Owns(s: Session, c: nat)
    requires Indexed(s) && c < |s.connections|
  {
    s.current == Some(s.connections[c].entry) && s.entries[s.connections[c].entry].owner == Some(c)
  }

  predicate OwnersRegistered(s: Session)
    requires Indexed(s)
  {
    forall c :: 0 <= c < |s.connections| && s.connections[c].attached && !s.connections[c].workerClosed ==>
      Owns(s, c)
  }

  predicate Submitting(s: Session, e: nat) {
    exists c :: 0 <= c < |s.connections| && s.connections[c].entry == e && Flying(s, c)
  }

  /** A submission in flight is what the turn's own buffer is committing. */
  predicate FlightOf(b: Buf, r: CommitRequest) {
    b.state == Committing && b.completionReason.Some? && r == RequestOf(b)
  }

  predicate Flying(s: Session, c: nat) {
    c < |s.connections| && s.connections[c].inFlight.Some?
  }

  /** Exactly the turns in `Committing` have a submission in flight, and only one each. */
  predicate FlightsSound(s: Session)
    requires Indexed(s)
  {
    && (forall c :: 0 <= c < |s.connections| && Flying(s, c) ==>
          FlightOf(s.entries[s.connections[c].entry].turn.buf, s.connections[c].inFlight.value))
    && (forall c, d :: 0 <= c < d < |s.connections| && Flying(s, c) && Flying(s, d) ==>
          s.connections[c].entry != s.connections[d].entry)
    && (forall e :: 0 <= e < |s.entries| && s.entries[e].turn.buf.state == Committing ==>
          Submitting(s, e))
  }

  predicate TurnsSound(cfg: Config, s: Session) {
    forall e :: 0 <= e < |s.entries| ==> TurnSound(cfg, s.entries[e].turn)
  }

  predicate SessionSound(cfg: Config, s: Session) {
    Indexed(s) && OwnersRegistered(s) && FlightsSound(s) && TurnsSound(cfg, s)
  }
}
