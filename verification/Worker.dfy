/**
  The latest-wins worker as an object. Each method is one section between two awaits, proved
  to do what its function in WorkerSpec says; `runner` is where the worker's task stands.
 */
module Worker {
  import opened Wrappers
  import opened Text
  import opened TurnModels
  import opened BufferSpec
  import opened Buffer
  import opened WorkerSpec

  /** Held while a section runs. Only its identity matters here. */
  class AsyncLock {
    constructor () {}
  }

  class LatestWinsTurnCompletionWorker {
    const cfg: WorkerConfig
    const buffer: VoiceTurnBuffer
    const bufferLock: AsyncLock
    var pendingSnapshot: Option<TurnSnapshot>
    var runner: Runner
    var latestAcceptedRevision: int
    var latestAcceptedText: string
    var latestAcceptedSegmentFinal: bool
    var lastCallStartedAt: Option<real>
    var closed: bool

    /** The worker's own fields as a value. */
    function State(): WorkerSpec.Worker
      reads this
    {
      WorkerSpec.Worker(pendingSnapshot, runner, latestAcceptedRevision, latestAcceptedText,
                        latestAcceptedSegmentFinal, lastCallStartedAt, closed)
    }

    constructor (cfg: WorkerConfig, buffer: VoiceTurnBuffer, bufferLock: AsyncLock)
      requires ValidWorkerConfig(cfg)
      ensures this.cfg == cfg && this.buffer == buffer && this.bufferLock == bufferLock
      ensures State() == NewWorker()
    {
      this.cfg := cfg;
      this.buffer := buffer;
      this.bufferLock := bufferLock;
      pendingSnapshot := None;
      runner := NoRunner;
      latestAcceptedRevision := -1;
      latestAcceptedText := "";
      latestAcceptedSegmentFinal := false;
      lastCallStartedAt := None;
      closed := false;
    }

    /**
      Offers a snapshot. What is accepted is what the buffer holds while it listens, is worth
      judging, and replaces whatever was waiting.
     */
    method Submit(snapshot: TurnSnapshot) returns (accepted: bool)
      modifies this
      ensures accepted <==> Takes(cfg, old(buffer.Copy()), old(State()), snapshot)
      ensures State() == if accepted then Offer(cfg, old(State()), snapshot) else old(State())
      ensures buffer.Copy() == old(buffer.Copy())
    {
      if closed { return false; }
      if !MatchesBuffer(buffer.Copy(), snapshot) { return false; }
      var normalized := Collapse(snapshot.currentAnswer);
      var compact := DropBlanks(normalized);
      if compact == "" { return false; }
      if !snapshot.segmentFinal && |compact| < cfg.minTextLength { return false; }
      if snapshot.revision <= latestAcceptedRevision { return false; }
      if compact == latestAcceptedText && snapshot.segmentFinal == latestAcceptedSegmentFinal { return false; }
      if runner == NoRunner && !Meaningful(cfg, State(), snapshot) { return false; }
      latestAcceptedRevision := snapshot.revision;
      latestAcceptedText := compact;
      latestAcceptedSegmentFinal := snapshot.segmentFinal;
      pendingSnapshot := Some(snapshot);
      if runner == NoRunner {
        runner := AtTop;
      }
      accepted := true;
    }

    method Cancel()
      modifies this
      ensures State() == WorkerSpec.Cancel(old(State()))
    {
      closed := true;
      pendingSnapshot := None;
    }

    method LoopHead(now: real)
      requires ValidWorkerConfig(cfg) && runner == AtTop
      modifies this`runner
      ensures State() == Top(cfg, old(State()), now)
    {
      if closed || pendingSnapshot.None? {
        runner := Leaving;
        return;
      }
      var delay := RemainingDelay(cfg, State(), now);
      runner := if delay > 0.0 then Sleeping else AboutToTake;
    }

    method TakeSnapshot(now: real)
      requires runner == AboutToTake
      modifies this`runner, this`pendingSnapshot, this`lastCallStartedAt
      ensures State() == Take(old(State()), now)
    {
      if closed || pendingSnapshot.None? {
        runner := AtTop;
        return;
      }
      var snapshot := pendingSnapshot.value;
      pendingSnapshot := None;
      lastCallStartedAt := Some(now);
      runner := Judging(snapshot);
    }

    method Finish()
      requires runner == Leaving
      modifies this`runner
      ensures State() == Leave(old(State()))
    {
      runner := NoRunner;
      if !closed && pendingSnapshot.Some? {
        runner := AtTop;
      }
    }

    /** Writes a verdict into the buffer, unless the worker was closed or the turn moved on. */
    method ApplyLatestResult(result: JudgeResult) returns (applied: bool)
      modifies buffer
      ensures State() == old(State())
      ensures buffer.Copy() == if old(closed) then old(buffer.Copy())
                               else After(old(buffer.Copy()), BufferSpec.RecordDecision(old(buffer.Copy()), result))
      ensures applied <==> !old(closed) && BufferSpec.RecordDecision(old(buffer.Copy()), result) == Returned(true, buffer.Copy())
    {
      if closed { return false; }
      if result.questionId != buffer.questionId { return false; }
      if result.revision != buffer.revision { return false; }
      var recorded := buffer.RecordDecision(result);
      applied := recorded == Ok(true);
    }
  }
}
