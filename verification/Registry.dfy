/**
  The registry of active voice turns: one entry per session, replaced with its question, and
  the worker of the connection that owns it. Each method is one section under the registry's
  lock; its contract gives the whole new state, object by object.
 */
module Registry {
  import opened Wrappers
  import opened Text
  import opened BufferSpec
  import opened Buffer
  import WorkerSpec
  import opened Worker

  datatype RegistryError = EmptyId | UnknownSession | WorkerClosed | ForeignBuffer | ForeignLock

  class VoiceTurnRegistryEntry {
    const buffer: VoiceTurnBuffer
    const lock: AsyncLock
    var worker: LatestWinsTurnCompletionWorker?

    constructor (sessionId: string, questionId: string)
      ensures fresh(buffer) && fresh(lock) && buffer.Copy() == NewBuffer(sessionId, questionId)
      ensures worker == null
    {
      buffer := new VoiceTurnBuffer(sessionId, questionId);
      lock := new AsyncLock();
      worker := null;
    }
  }

  class VoiceTurnRegistry {
    var entries: map<string, VoiceTurnRegistryEntry>

    constructor ()
      ensures entries == map[]
    {
      entries := map[];
    }

    /** The entry of a session and the worker registered for it, if any. */
    ghost function Slot(sessionId: string): set<object>
      reads this, if sessionId in entries then {entries[sessionId]} else {}
    {
      if sessionId in entries then
        {entries[sessionId]}
          + if entries[sessionId].worker != null then {entries[sessionId].worker} else {}
      else {}
    }

    /** The worker that replacing or removing a session's entry cancels. */
    function Registered(sessionId: string): LatestWinsTurnCompletionWorker?
      reads this, if sessionId in entries then {entries[sessionId]} else {}
    {
      if sessionId in entries then entries[sessionId].worker else null
    }

    method CancelRegistered(sessionId: string)
      modifies Registered(sessionId)
      ensures Registered(sessionId) != null ==>
        Registered(sessionId).State() == WorkerSpec.Cancel(old(Registered(sessionId).State()))
    {
      if sessionId in entries && entries[sessionId].worker != null {
        entries[sessionId].worker.Cancel();
      }
    }

    /** A new entry takes the slot, and the worker registered for the old one is cancelled. */
    method Install(sessionId: string, questionId: string) returns (entry: VoiceTurnRegistryEntry)
      modifies this, Registered(sessionId)
      ensures fresh(entry) && fresh(entry.buffer) && fresh(entry.lock)
      ensures entry.buffer.Copy() == NewBuffer(sessionId, questionId) && entry.worker == null
      ensures entries == old(entries)[sessionId := entry]
      ensures old(Registered(sessionId)) != null ==>
        old(Registered(sessionId)).State() == WorkerSpec.Cancel(old(Registered(sessionId).State()))
    {
      CancelRegistered(sessionId);
      entry := new VoiceTurnRegistryEntry(sessionId, questionId);
      entries := entries[sessionId := entry];
    }

    /**
      The turn of a session's current question. A reconnect for the same question gets the very
      same entry back, worker and all; any other question starts over.
     */
    method OpenTurn(sessionId: string, questionId: string)
      returns (r: Result<VoiceTurnRegistryEntry, RegistryError>)
      modifies this, Registered(Strip(sessionId))
      ensures r.Err? <==> Blank(sessionId) || Blank(questionId)
      ensures r.Err? ==> r.error == EmptyId && entries == old(entries)
      ensures r.Ok? ==> entries == old(entries)[Strip(sessionId) := r.value]
      ensures r.Ok? ==> r.value.buffer.questionId == Strip(questionId)
      ensures var id := Strip(sessionId);
        if r.Err? || (id in old(entries) && old(entries[id].buffer.questionId) == Strip(questionId))
        then
          && (r.Ok? ==> r.value == old(entries)[id])
          && (old(Registered(id)) != null ==>
                old(Registered(id)).State() == old(Registered(id).State()))
        else
          && fresh(r.value) && r.value.worker == null
          && r.value.buffer.Copy() == NewBuffer(id, Strip(questionId))
          && (old(Registered(id)) != null ==>
                old(Registered(id)).State() == WorkerSpec.Cancel(old(Registered(id).State())))
    {
      BlankIsStrippedEmpty(sessionId);
      BlankIsStrippedEmpty(questionId);
      var id := Strip(sessionId);
      if id == "" || Strip(questionId) == "" {
        return Err(EmptyId);
      }
      if id in entries && entries[id].buffer.questionId == Strip(questionId) {
        return Ok(entries[id]);
      }
      var entry := Install(id, Strip(questionId));
      r := Ok(entry);
    }

    /** Starts over even for the same question id. */
    method ReplaceQuestion(sessionId: string, questionId: string)
      returns (r: Result<VoiceTurnRegistryEntry, RegistryError>)
      modifies this, Registered(Strip(sessionId))
      ensures r.Err? <==> Blank(sessionId) || Blank(questionId)
      ensures r.Err? ==> r.error == EmptyId && entries == old(entries)
      ensures r.Ok? ==>
        && fresh(r.value) && r.value.worker == null
        && r.value.buffer.Copy() == NewBuffer(Strip(sessionId), Strip(questionId))
        && entries == old(entries)[Strip(sessionId) := r.value]
      ensures old(Registered(Strip(sessionId))) != null ==>
        old(Registered(Strip(sessionId))).State()
          == if r.Ok? then WorkerSpec.Cancel(old(Registered(Strip(sessionId)).State()))
             else old(Registered(Strip(sessionId)).State())
    {
      BlankIsStrippedEmpty(sessionId);
      BlankIsStrippedEmpty(questionId);
      if Strip(sessionId) == "" || Strip(questionId) == "" {
        return Err(EmptyId);
      }
      var entry := Install(Strip(sessionId), Strip(questionId));
      r := Ok(entry);
    }

    /** Why a worker may not be registered for a session. */
    function Objection(sessionId: string, worker: LatestWinsTurnCompletionWorker): Option<RegistryError>
      reads this, worker
    {
      if sessionId !in entries then Some(UnknownSession)
      else if worker.closed then Some(WorkerClosed)
      else if worker.buffer != entries[sessionId].buffer then Some(ForeignBuffer)
      else if worker.bufferLock != entries[sessionId].lock then Some(ForeignLock)
      else None
    }

    /**
      Registers a worker for the session's current entry, and cancels the one it supersedes.
      Only a live worker built on that very buffer and lock is accepted.
     */
    method AttachWorker(sessionId: string, worker: LatestWinsTurnCompletionWorker)
      returns (r: Result<VoiceTurnRegistryEntry, RegistryError>)
      modifies Slot(sessionId)
      ensures entries == old(entries)
      ensures r.Ok? <==>
        && sessionId in entries && !old(worker.closed)
        && worker.buffer == entries[sessionId].buffer && worker.bufferLock == entries[sessionId].lock
      ensures match old(Objection(sessionId, worker))
        case Some(error) => r == Err(error) && unchanged(old(Slot(sessionId)))
        case None =>
          && r == Ok(entries[sessionId])
          && entries[sessionId].worker == worker
          && !worker.closed && worker.State() == old(worker.State())
          && (old(Registered(sessionId)) != null && old(Registered(sessionId)) != worker ==>
                old(Registered(sessionId)).State() == WorkerSpec.Cancel(old(Registered(sessionId).State())))
    {
      if sessionId !in entries { return Err(UnknownSession); }
      var entry := entries[sessionId];
      if worker.closed { return Err(WorkerClosed); }
      if worker.buffer != entry.buffer { return Err(ForeignBuffer); }
      if worker.bufferLock != entry.lock { return Err(ForeignLock); }
      if entry.worker == worker { return Ok(entry); }
      if entry.worker != null {
        entry.worker.Cancel();
      }
      entry.worker := worker;
      r := Ok(entry);
    }

    /** A connection that leaves takes only its own worker with it. */
    method DetachWorker(sessionId: string, worker: LatestWinsTurnCompletionWorker) returns (detached: bool)
      modifies Slot(sessionId)
      ensures entries == old(entries)
      ensures detached <==> old(Registered(sessionId)) == worker
      ensures detached ==>
        entries[sessionId].worker == null && worker.State() == WorkerSpec.Cancel(old(worker.State()))
      ensures !detached ==> unchanged(old(Slot(sessionId)))
    {
      if sessionId !in entries || entries[sessionId].worker != worker {
        return false;
      }
      worker.Cancel();
      entries[sessionId].worker := null;
      detached := true;
    }

    method Remove(sessionId: string) returns (r: Option<VoiceTurnRegistryEntry>)
      modifies this, Registered(sessionId)
      ensures entries == old(entries) - {sessionId}
      ensures r == if sessionId in old(entries) then Some(old(entries[sessionId])) else None
      ensures old(Registered(sessionId)) != null ==>
        old(Registered(sessionId)).State() == WorkerSpec.Cancel(old(Registered(sessionId).State()))
    {
      CancelRegistered(sessionId);
      r := if sessionId in entries then Some(entries[sessionId]) else None;
      entries := entries - {sessionId};
    }
  }
}
