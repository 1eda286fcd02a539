/**
  The latest-wins worker: a single slot for the newest snapshot, and one task that judges at a
  bounded rate.

  The task is modelled by where it stands between two lock-held sections. Time is a real
  number that never runs backwards; a sleep may end at any moment.
 */
module WorkerSpec {
  import opened Wrappers
  import opened Text
  import opened BufferSpec

  datatype TurnSnapshot = TurnSnapshot(
    sessionId: string,
    questionId: string,
    revision: nat,
    currentAnswer: string,
    speechActive: bool,
    segmentFinal: bool)

  /** Where the runner task stands; `Leaving` is between its loop and its last section. */
  datatype Runner =
    | NoRunner
    | AtTop
    | Sleeping
    | AboutToTake
    | Judging(snapshot: TurnSnapshot)
    | Delivering
    | Leaving

  datatype WorkerConfig = WorkerConfig(minTextLength: nat, maxCallsPerSecond: real)

  predicate ValidWorkerConfig(cfg: WorkerConfig) {
    cfg.minTextLength > 0 && cfg.maxCallsPerSecond > 0.0
  }

  function MinInterval(cfg: WorkerConfig): real
    requires ValidWorkerConfig(cfg)
  {
    1.0 / cfg.maxCallsPerSecond
  }

  datatype Worker = Worker(
    pending: Option<TurnSnapshot>,
    runner: Runner,
    acceptedRevision: int,
    acceptedText: string,
    acceptedFinal: bool,
    lastCallAt: Option<real>,
    closed: bool)

  function NewWorker(): Worker {
    Worker(None, NoRunner, -1, "", false, None, false)
  }

  // ----- sections --------------------------------------------------------------------------

  predicate MatchesBuffer(b: Buf, s: TurnSnapshot) {
    && b.state == Listening
    && s.sessionId == b.sessionId && s.questionId == b.questionId
    && s.revision == b.revision && s.currentAnswer == b.answerText
    && s.speechActive == b.speechActive && s.segmentFinal == b.segmentFinal
  }

  /** The answer with its words joined and the blanks between them removed. */
  function Compact(s: TurnSnapshot): string {
    DropBlanks(Collapse(s.currentAnswer))
  }

  predicate WorthJudging(cfg: WorkerConfig, s: TurnSnapshot) {
    Compact(s) != "" && (s.segmentFinal || |Compact(s)| >= cfg.minTextLength)
  }

  predicate Meaningful(cfg: WorkerConfig, w: Worker, s: TurnSnapshot) {
    || w.acceptedRevision < 0
    || if s.segmentFinal then Compact(s) != w.acceptedText || !w.acceptedFinal
       else |Compact(s)| - |w.acceptedText| >= cfg.minTextLength
  }

  predicate Acceptable(cfg: WorkerConfig, w: Worker, s: TurnSnapshot) {
    && !w.closed && s.revision > w.acceptedRevision
    && (Compact(s) != w.acceptedText || s.segmentFinal != w.acceptedFinal)
    && (w.runner != NoRunner || Meaningful(cfg, w, s))
  }

  /** What submit() accepts, with the buffer as it is. */
  predicate Takes(cfg: WorkerConfig, b: Buf, w: Worker, s: TurnSnapshot) {
    MatchesBuffer(b, s) && WorthJudging(cfg, s) && Acceptable(cfg, w, s)
  }

  /** The part of submit() under the worker's own lock. */
  function Offer(cfg: WorkerConfig, w: Worker, s: TurnSnapshot): Worker {
    if !Acceptable(cfg, w, s) then w
    else w.(acceptedRevision := s.revision, acceptedText := Compact(s), acceptedFinal := s.segmentFinal,
            pending := Some(s), runner := if w.runner == NoRunner then AtTop else w.runner)
  }

  function RemainingDelay(cfg: WorkerConfig, w: Worker, now: real): real
    requires ValidWorkerConfig(cfg)
  {
    if w.lastCallAt.None? then 0.0
    else
      var left := MinInterval(cfg) - (now - w.lastCallAt.value);
      if left > 0.0 then left else 0.0
  }

  /** The head of the loop: leave, wait for the rate limit, or go on. */
  function Top(cfg: WorkerConfig, w: Worker, now: real): Worker
    requires ValidWorkerConfig(cfg)
  {
    if w.runner != AtTop then w
    else if w.closed || w.pending.None? then w.(runner := Leaving)
    else if RemainingDelay(cfg, w, now) > 0.0 then w.(runner := Sleeping)
    else w.(runner := AboutToTake)
  }

  function Wake(w: Worker): Worker {
    if w.runner == Sleeping then w.(runner := AtTop) else w
  }

  function Take(w: Worker, now: real): Worker {
    if w.runner != AboutToTake then w
    else if w.closed || w.pending.None? then w.(runner := AtTop)
    else w.(runner := Judging(w.pending.value), pending := None, lastCallAt := Some(now))
  }

  /** A judgement ends, with a verdict to deliver or with an error. */
  function EndJudgement(w: Worker, delivered: bool): Worker {
    if w.runner.Judging? then w.(runner := if delivered then Delivering else AtTop) else w
  }

  function EndDelivery(w: Worker): Worker {
    if w.runner == Delivering then w.(runner := AtTop) else w
  }

  /** Cancellation reaches the task wherever it waits. */
  function Interrupt(w: Worker): Worker {
    if w.closed && (w.runner == Sleeping || w.runner.Judging? || w.runner == Delivering)
    then w.(runner := Leaving) else w
  }

  /** The last section of a task: it starts its successor if something is pending again. */
  function Leave(w: Worker): Worker {
    if w.runner != Leaving then w
    else w.(runner := if !w.closed && w.pending.Some? then AtTop else NoRunner)
  }

  function Cancel(w: Worker): Worker {
    w.(closed := true, pending := None)
  }

  // ----- runs ------------------------------------------------------------------------------

  datatype WorkerAction =
    | DoOffer(snapshot: TurnSnapshot)
    | DoTop
    | DoWake
    | DoTake
    | DoEndJudgement(delivered: bool)
    | DoEndDelivery
    | DoInterrupt
    | DoLeave
    | DoCancel

  /** A worker with its history: what it accepted, what it judged, and when it began. */
  datatype WorkerRun = WorkerRun(
    worker: Worker, accepted: seq<TurnSnapshot>, judged: seq<TurnSnapshot>,
    starts: seq<real>, clock: real)

  function NewRun(clock: real): WorkerRun {
    WorkerRun(NewWorker(), [], [], [], clock)
  }

  function Act(cfg: WorkerConfig, w: Worker, a: WorkerAction, now: real): Worker
    requires ValidWorkerConfig(cfg)
  {
    match a
    case DoOffer(s) => Offer(cfg, w, s)
    case DoTop => Top(cfg, w, now)
    case DoWake => Wake(w)
    case DoTake => Take(w, now)
    case DoEndJudgement(delivered) => EndJudgement(w, delivered)
    case DoEndDelivery => EndDelivery(w)
    case DoInterrupt => Interrupt(w)
    case DoLeave => Leave(w)
    case DoCancel => Cancel(w)
  }

  /** One section at a given moment; the moment is ignored if it lies in the past. */
  function Step(cfg: WorkerConfig, r: WorkerRun, a: WorkerAction, now: real): WorkerRun
    requires ValidWorkerConfig(cfg)
  {
    var at := if now < r.clock then r.clock else now;
    var w, w' := r.worker, Act(cfg, r.worker, a, at);
    WorkerRun(
      w',
      if a.DoOffer? && Acceptable(cfg, w, a.snapshot) then r.accepted + [a.snapshot] else r.accepted,
      if a.DoEndJudgement? && w.runner.Judging? then r.judged + [w.runner.snapshot] else r.judged,
      if w'.runner.Judging? && !w.runner.Judging? then r.starts + [at] else r.starts,
      at)
  }

  datatype Timed = Timed(action: WorkerAction, at: real)

  function RunWorker(cfg: WorkerConfig, r: WorkerRun, steps: seq<Timed>): WorkerRun
    requires ValidWorkerConfig(cfg)
    decreases |steps|
  {
    if steps == [] then r
    else
      var last := steps[|steps| - 1];
      Step(cfg, RunWorker(cfg, r, steps[..|steps| - 1]), last.action, last.at)
  }

  // ----- the invariant ---------------------------------------------------------------------

  predicate Increasing(s: seq<TurnSnapshot>) {
    forall i, j :: 0 <= i < j < |s| ==> s[i].revision < s[j].revision
  }

  predicate AllBelow(s: seq<TurnSnapshot>, revision: int) {
    forall i :: 0 <= i < |s| ==> s[i].revision < revision
  }

  /** The newest accepted snapshot is pending, being judged, or judged. */
  predicate NewestIsHandled(r: WorkerRun) {
    r.accepted != [] ==>
      var newest := r.accepted[|r.accepted| - 1];
      || (r.worker.pending == Some(newest) && r.worker.runner != NoRunner)
      || r.worker.runner == Judging(newest)
      || (r.judged != [] && r.judged[|r.judged| - 1] == newest)
  }

  predicate JudgedInOrder(r: WorkerRun) {
    var w := r.worker;
    && Increasing(r.judged) && AllBelow(r.judged, w.acceptedRevision + 1)
    && (w.runner.Judging? ==>
          AllBelow(r.judged, w.runner.snapshot.revision) && w.runner.snapshot.revision <= w.acceptedRevision)
    && (w.pending.Some? ==>
          && w.pending.value.revision == w.acceptedRevision && AllBelow(r.judged, w.acceptedRevision)
          && (w.runner.Judging? ==> w.runner.snapshot.revision < w.acceptedRevision))
  }

  predicate Spaced(cfg: WorkerConfig, starts: seq<real>)
    requires ValidWorkerConfig(cfg)
  {
    forall i :: 0 <= i < |starts| - 1 ==> starts[i] + MinInterval(cfg) <= starts[i + 1]
  }

  predicate StartsInOrder(cfg: WorkerConfig, r: WorkerRun)
    requires ValidWorkerConfig(cfg)
  {
    && Spaced(cfg, r.starts)
    && (if r.starts == [] then r.worker.lastCallAt.None?
        else r.worker.lastCallAt == Some(r.starts[|r.starts| - 1]) && r.starts[|r.starts| - 1] <= r.clock)
    && (r.worker.runner == AboutToTake && r.starts != [] ==>
          r.starts[|r.starts| - 1] + MinInterval(cfg) <= r.clock)
  }

  predicate RunSound(cfg: WorkerConfig, r: WorkerRun)
    requires ValidWorkerConfig(cfg)
  {
    && (r.accepted != [] ==> r.worker.acceptedRevision == r.accepted[|r.accepted| - 1].revision)
    && (r.accepted == [] ==> r.worker.acceptedRevision == -1)
    && (r.worker.pending.Some? ==> r.accepted != [] && r.worker.pending.value == r.accepted[|r.accepted| - 1])
    && (r.worker.closed ==> r.worker.pending.None?)
    && (r.worker.closed || NewestIsHandled(r))
    && JudgedInOrder(r)
    && StartsInOrder(cfg, r)
  }

  lemma OfferKeepsOrder(cfg: WorkerConfig, r: WorkerRun, s: TurnSnapshot, now: real)
    requires ValidWorkerConfig(cfg) && RunSound(cfg, r)
    ensures JudgedInOrder(Step(cfg, r, DoOffer(s), now))
  {
  }

  lemma TakeKeepsOrder(cfg: WorkerConfig, r: WorkerRun, now: real)
    requires ValidWorkerConfig(cfg) && RunSound(cfg, r)
    ensures JudgedInOrder(Step(cfg, r, DoTake, now))
  {
  }

  lemma JudgementKeepsOrder(cfg: WorkerConfig, r: WorkerRun, delivered: bool, now: real)
    requires ValidWorkerConfig(cfg) && RunSound(cfg, r)
    ensures JudgedInOrder(Step(cfg, r, DoEndJudgement(delivered), now))
  {
    if r.worker.runner.Judging? {
      var s := r.worker.runner.snapshot;
      OneMoreJudged(r.judged, s, r.worker.acceptedRevision + 1);
      if r.worker.pending.Some? {
        OneMoreJudged(r.judged, s, r.worker.acceptedRevision);
      }
    }
  }

  lemma OneMoreJudged(judged: seq<TurnSnapshot>, s: TurnSnapshot, bound: int)
    requires Increasing(judged) && AllBelow(judged, s.revision) && s.revision < bound
    ensures Increasing(judged + [s]) && AllBelow(judged + [s], bound)
  {
  }

  /** Sections that accept nothing, take nothing and judge nothing. */
  predicate Idle(a: WorkerAction) {
    !a.DoOffer? && !a.DoTake? && !a.DoEndJudgement?
  }

  lemma IdleKeepsOrder(cfg: WorkerConfig, r: WorkerRun, a: WorkerAction, now: real)
    requires ValidWorkerConfig(cfg) && RunSound(cfg, r) && Idle(a)
    ensures JudgedInOrder(Step(cfg, r, a, now))
  {
    var r' := Step(cfg, r, a, now);
    assert r'.judged == r.judged && r'.worker.acceptedRevision == r.worker.acceptedRevision;
    assert r'.worker.runner.Judging? ==> r'.worker.runner == r.worker.runner;
    assert r'.worker.pending.Some? ==> r'.worker.pending == r.worker.pending;
  }

  lemma TakeKeepsStarts(cfg: WorkerConfig, r: WorkerRun, now: real)
    requires ValidWorkerConfig(cfg) && RunSound(cfg, r)
    ensures StartsInOrder(cfg, Step(cfg, r, DoTake, now))
  {
  }

  lemma TopKeepsStarts(cfg: WorkerConfig, r: WorkerRun, now: real)
    requires ValidWorkerConfig(cfg) && RunSound(cfg, r)
    ensures StartsInOrder(cfg, Step(cfg, r, DoTop, now))
  {
  }

  lemma OtherKeepsStarts(cfg: WorkerConfig, r: WorkerRun, a: WorkerAction, now: real)
    requires ValidWorkerConfig(cfg) && RunSound(cfg, r) && !a.DoTake? && !a.DoTop?
    ensures StartsInOrder(cfg, Step(cfg, r, a, now))
  {
    var r' := Step(cfg, r, a, now);
    assert r'.starts == r.starts && r'.worker.lastCallAt == r.worker.lastCallAt;
    assert r'.worker.runner == AboutToTake ==> r.worker.runner == AboutToTake;
  }

  lemma StepKeepsOrder(cfg: WorkerConfig, r: WorkerRun, a: WorkerAction, now: real)
    requires ValidWorkerConfig(cfg) && RunSound(cfg, r)
    ensures JudgedInOrder(Step(cfg, r, a, now))
  {
    match a
    case DoOffer(s) => OfferKeepsOrder(cfg, r, s, now);
    case DoTake => TakeKeepsOrder(cfg, r, now);
    case DoEndJudgement(delivered) => JudgementKeepsOrder(cfg, r, delivered, now);
    case _ => IdleKeepsOrder(cfg, r, a, now);
  }

  lemma StepKeepsStarts(cfg: WorkerConfig, r: WorkerRun, a: WorkerAction, now: real)
    requires ValidWorkerConfig(cfg) && RunSound(cfg, r)
    ensures StartsInOrder(cfg, Step(cfg, r, a, now))
  {
    match a
    case DoTake => TakeKeepsStarts(cfg, r, now);
    case DoTop => TopKeepsStarts(cfg, r, now);
    case _ => OtherKeepsStarts(cfg, r, a, now);
  }

  lemma StepKeepsNewest(cfg: WorkerConfig, r: WorkerRun, a: WorkerAction, now: real)
    requires ValidWorkerConfig(cfg) && RunSound(cfg, r)
    ensures var r' := Step(cfg, r, a, now);
            r'.worker.closed || NewestIsHandled(r')
  {
  }

  lemma StepKeeps(cfg: WorkerConfig, r: WorkerRun, a: WorkerAction, now: real)
    requires ValidWorkerConfig(cfg) && RunSound(cfg, r)
    ensures RunSound(cfg, Step(cfg, r, a, now))
  {
    StepKeepsOrder(cfg, r, a, now);
    StepKeepsStarts(cfg, r, a, now);
    StepKeepsNewest(cfg, r, a, now);
  }

  lemma {:induction false} RunKeepsSound(cfg: WorkerConfig, clock: real, steps: seq<Timed>)
    requires ValidWorkerConfig(cfg)
    ensures RunSound(cfg, RunWorker(cfg, NewRun(clock), steps))
    decreases |steps|
  {
    if steps != [] {
      var init, last := steps[..|steps| - 1], steps[|steps| - 1];
      RunKeepsSound(cfg, clock, init);
      StepKeeps(cfg, RunWorker(cfg, NewRun(clock), init), last.action, last.at);
    }
  }

  /**
    Nothing is lost. At every boundary of a section, unless the worker is closed, the newest
    accepted snapshot waits with a live task, is being judged, or has been judged last; and
    the judged revisions strictly increase, the one being judged above them all.
   */
  lemma NewestIsNeverLost(cfg: WorkerConfig, clock: real, steps: seq<Timed>)
    requires ValidWorkerConfig(cfg)
    ensures var r := RunWorker(cfg, NewRun(clock), steps);
            && (r.worker.closed || NewestIsHandled(r))
            && Increasing(r.judged)
            && (r.worker.runner.Judging? ==> AllBelow(r.judged, r.worker.runner.snapshot.revision))
  {
    RunKeepsSound(cfg, clock, steps);
  }

  // ----- rate ------------------------------------------------------------------------------

  lemma {:induction false} GapGrows(cfg: WorkerConfig, starts: seq<real>, i: nat, j: nat)
    requires ValidWorkerConfig(cfg) && Spaced(cfg, starts) && i <= j < |starts|
    ensures starts[i] + (j - i) as real * MinInterval(cfg) <= starts[j]
    decreases j - i
  {
    if i < j {
      GapGrows(cfg, starts, i, j - 1);
      assert starts[j - 1] + MinInterval(cfg) <= starts[j - 1 + 1];
      assert (j - i) as real * MinInterval(cfg)
          == (j - 1 - i) as real * MinInterval(cfg) + MinInterval(cfg);
    }
  }

  lemma CallsFit(max: real, n: nat, width: real)
    requires max > 0.0 && n as real * (1.0 / max) <= width
    ensures n <= (width * max).Floor
  {
    var interval := 1.0 / max;
    assert interval * max == 1.0;
    assert n as real == n as real * (interval * max) == (n as real * interval) * max;
    assert (n as real * interval) * max <= width * max by {
      assert (width - n as real * interval) * max >= 0.0;
    }
  }

  /**
    The judge is called at a bounded rate: starts are at least 1/max apart, so a window of
    `width` seconds holds at most floor(width * max) + 1 of them, across sleeps, replaced
    snapshots and successive tasks.
   */
  lemma JudgementRateIsBounded(
    cfg: WorkerConfig, clock: real, steps: seq<Timed>, i: nat, j: nat, from: real, width: real)
    requires ValidWorkerConfig(cfg)
    requires i <= j < |RunWorker(cfg, NewRun(clock), steps).starts|
    requires var s := RunWorker(cfg, NewRun(clock), steps).starts;
             from <= s[i] && s[j] <= from + width
    ensures j - i + 1 <= (width * cfg.maxCallsPerSecond).Floor + 1
    ensures Spaced(cfg, RunWorker(cfg, NewRun(clock), steps).starts)
  {
    RunKeepsSound(cfg, clock, steps);
    StartsFit(cfg, RunWorker(cfg, NewRun(clock), steps).starts, i, j, from, width);
  }

  lemma StartsFit(cfg: WorkerConfig, starts: seq<real>, i: nat, j: nat, from: real, width: real)
    requires ValidWorkerConfig(cfg) && Spaced(cfg, starts) && i <= j < |starts|
    requires from <= starts[i] && starts[j] <= from + width
    ensures j - i + 1 <= (width * cfg.maxCallsPerSecond).Floor + 1
  {
    GapGrows(cfg, starts, i, j);
    CallsFit(cfg.maxCallsPerSecond, j - i, width);
  }

  // ----- repeats -----------------------------------------------------------------------------

  /** The second snapshot is newer, and says something else or is final where the first was not. */
  predicate SaysMore(s: TurnSnapshot, s': TurnSnapshot) {
    && s.revision < s'.revision
    && (Ink(s.currentAnswer) != Ink(s'.currentAnswer) || s.segmentFinal != s'.segmentFinal)
  }

  predicate Remembers(r: WorkerRun) {
    && (r.accepted == [] ==> r.worker.acceptedRevision == -1 && r.worker.acceptedText == "")
    && (r.accepted != [] ==>
          var last := r.accepted[|r.accepted| - 1];
          && r.worker.acceptedRevision == last.revision
          && r.worker.acceptedText == Ink(last.currentAnswer) && r.worker.acceptedFinal == last.segmentFinal)
  }

  predicate Developing(s: seq<TurnSnapshot>) {
    forall i :: 0 <= i < |s| - 1 ==> SaysMore(s[i], s[i + 1])
  }

  lemma StepDevelops(cfg: WorkerConfig, r: WorkerRun, a: WorkerAction, now: real)
    requires ValidWorkerConfig(cfg) && Remembers(r) && Developing(r.accepted)
    ensures Remembers(Step(cfg, r, a, now)) && Developing(Step(cfg, r, a, now).accepted)
  {
    if a.DoOffer? {
      DropBlanksCollapse(a.snapshot.currentAnswer);
    } else {
      assert Step(cfg, r, a, now).accepted == r.accepted;
    }
  }

  /**
    Repeats are not judged. Over any run, each snapshot the worker accepts has a higher
    revision than the one before, and other characters besides whitespace, or is final where
    that one was not or the other way round.
   */
  lemma {:induction false} RepeatsAreNotAccepted(cfg: WorkerConfig, clock: real, steps: seq<Timed>)
    requires ValidWorkerConfig(cfg)
    ensures Remembers(RunWorker(cfg, NewRun(clock), steps))
    ensures Developing(RunWorker(cfg, NewRun(clock), steps).accepted)
    decreases |steps|
  {
    if steps != [] {
      var init, last := steps[..|steps| - 1], steps[|steps| - 1];
      RepeatsAreNotAccepted(cfg, clock, init);
      StepDevelops(cfg, RunWorker(cfg, NewRun(clock), init), last.action, last.at);
    }
  }

  // ----- what must be accepted ---------------------------------------------------------------

  /** The snapshot is what the buffer holds while it listens. */
  predicate ShowsAnswer(b: Buf, s: TurnSnapshot) {
    && b.state == Listening
    && s == TurnSnapshot(b.sessionId, b.questionId, b.revision, b.answerText, b.speechActive, b.segmentFinal)
  }

  /** A new snapshot, compared with the one accepted last, if there is one. */
  predicate Adds(accepted: seq<TurnSnapshot>, s: TurnSnapshot) {
    && (forall i :: 0 <= i < |accepted| ==> accepted[i].revision < s.revision)
    && (accepted != [] ==> SaysMore(accepted[|accepted| - 1], s))
  }

  /** How much more a snapshot says than the one accepted last. */
  function Growth(accepted: seq<TurnSnapshot>, s: TurnSnapshot): int
    requires accepted != []
  {
    |Ink(s.currentAnswer)| - |Ink(accepted[|accepted| - 1].currentAnswer)|
  }

  /**
    What must be judged. After any run, a worker that is not closed takes a snapshot if and
    only if it shows the answer listened to, says something, is newer than all accepted ones,
    and differs from the last of them in its characters or in being final. One that is not
    final must also be long enough, and must have grown by as much if the worker is idle.
   */
  lemma TakenIffNew(cfg: WorkerConfig, clock: real, steps: seq<Timed>, b: Buf, s: TurnSnapshot)
    requires ValidWorkerConfig(cfg)
    requires !RunWorker(cfg, NewRun(clock), steps).worker.closed
    ensures var r := RunWorker(cfg, NewRun(clock), steps);
            Takes(cfg, b, r.worker, s) <==>
              && ShowsAnswer(b, s) && Ink(s.currentAnswer) != "" && Adds(r.accepted, s)
              && (s.segmentFinal
                  || (&& |Ink(s.currentAnswer)| >= cfg.minTextLength
                      && (r.worker.runner == NoRunner && r.accepted != [] ==>
                            Growth(r.accepted, s) >= cfg.minTextLength)))
  {
    hide RunWorker, RunSound, Ink, Collapse, DropBlanks;
    DropBlanksCollapse(s.currentAnswer);
    RepeatsAreNotAccepted(cfg, clock, steps);
    RunKeepsSound(cfg, clock, steps);
    AcceptedIncrease(cfg, clock, steps);
  }

  lemma {:induction false} DevelopingIncreases(s: seq<TurnSnapshot>, i: nat, j: nat)
    requires Developing(s) && i < j < |s|
    ensures s[i].revision < s[j].revision
    decreases j - i
  {
    assert SaysMore(s[j - 1], s[j - 1 + 1]);
    if i < j - 1 {
      DevelopingIncreases(s, i, j - 1);
    }
  }

  lemma AcceptedIncrease(cfg: WorkerConfig, clock: real, steps: seq<Timed>)
    requires ValidWorkerConfig(cfg)
    ensures Increasing(RunWorker(cfg, NewRun(clock), steps).accepted)
  {
    RepeatsAreNotAccepted(cfg, clock, steps);
    var accepted := RunWorker(cfg, NewRun(clock), steps).accepted;
    forall i, j | 0 <= i < j < |accepted| ensures accepted[i].revision < accepted[j].revision {
      DevelopingIncreases(accepted, i, j);
    }
  }

  // ----- the newest snapshot can always be judged ----------------------------------------------

  /** The loop goes on to the judge if and only if the interval since the last start has passed. */
  lemma LoopGoesOnIff(cfg: WorkerConfig, clock: real, steps: seq<Timed>, now: real)
    requires ValidWorkerConfig(cfg)
    requires var r := RunWorker(cfg, NewRun(clock), steps);
             r.worker.runner == AtTop && !r.worker.closed && r.worker.pending.Some? && now >= r.clock
    ensures var r := RunWorker(cfg, NewRun(clock), steps);
            var runner := Step(cfg, r, DoTop, now).worker.runner;
            && (runner == AboutToTake <==>
                  r.starts == [] || now - r.starts[|r.starts| - 1] >= 1.0 / cfg.maxCallsPerSecond)
            && (runner != AboutToTake ==> runner == Sleeping)
  {
    RunKeepsSound(cfg, clock, steps);
  }

  lemma RunWorkerSnoc(cfg: WorkerConfig, r: WorkerRun, steps: seq<Timed>, last: Timed)
    requires ValidWorkerConfig(cfg)
    ensures RunWorker(cfg, r, steps + [last]) == Step(cfg, RunWorker(cfg, r, steps), last.action, last.at)
  {
    assert (steps + [last])[..|steps|] == steps;
  }

  /** Neither an offer nor a cancellation. */
  predicate OwnSteps(steps: seq<Timed>) {
    forall i :: 0 <= i < |steps| ==> !steps[i].action.DoOffer? && !steps[i].action.DoCancel?
  }

  /** The section that brings a task back to the head of its loop. */
  function BackToTop(runner: Runner): WorkerAction {
    match runner
    case Sleeping => DoWake
    case Judging(_) => DoEndJudgement(false)
    case Delivering => DoEndDelivery
    case _ => DoLeave
  }

  lemma ComesBack(cfg: WorkerConfig, r: WorkerRun, at: real)
    requires ValidWorkerConfig(cfg) && RunSound(cfg, r)
    requires !r.worker.closed && r.worker.pending.Some?
    requires r.worker.runner !in {NoRunner, AtTop, AboutToTake}
    ensures var r' := Step(cfg, r, BackToTop(r.worker.runner), at);
            && r'.worker.runner == AtTop && !r'.worker.closed && r'.worker.pending == r.worker.pending
            && r'.accepted == r.accepted
  {
  }

  lemma TakingJudges(cfg: WorkerConfig, r: WorkerRun, at: real)
    requires ValidWorkerConfig(cfg) && r.worker.runner == AboutToTake
    requires !r.worker.closed && r.worker.pending.Some?
    ensures var r' := Step(cfg, Step(cfg, r, DoTake, at), DoEndJudgement(true), at);
            r'.accepted == r.accepted && r'.judged == r.judged + [r.worker.pending.value]
  {
  }

  function LateEnough(cfg: WorkerConfig, r: WorkerRun): real
    requires ValidWorkerConfig(cfg)
  {
    if r.worker.lastCallAt.Some? && r.worker.lastCallAt.value + MinInterval(cfg) > r.clock
    then r.worker.lastCallAt.value + MinInterval(cfg) else r.clock
  }

  /**
    Whatever happened before, as long as the worker is not closed, some sections of its own task,
    in which nothing is offered and nothing cancelled, get the newest accepted snapshot judged.
   */
  lemma NewestCanBeJudged(cfg: WorkerConfig, clock: real, steps: seq<Timed>) returns (more: seq<Timed>)
    requires ValidWorkerConfig(cfg)
    requires var r := RunWorker(cfg, NewRun(clock), steps); !r.worker.closed && r.accepted != []
    ensures OwnSteps(more) && |more| <= 4
    ensures var r, r' := RunWorker(cfg, NewRun(clock), steps), RunWorker(cfg, NewRun(clock), steps + more);
            r'.accepted == r.accepted && r'.judged != []
            && r'.judged[|r'.judged| - 1] == r.accepted[|r.accepted| - 1]
  {
    hide Step, RunSound, NewestIsHandled;
    var r := RunWorker(cfg, NewRun(clock), steps);
    var newest := r.accepted[|r.accepted| - 1];
    RunKeepsSound(cfg, clock, steps);
    NewestStands(cfg, r);
    assert steps + [] == steps;
    if r.judged != [] && r.judged[|r.judged| - 1] == newest {
      more := [];
    } else if r.worker.runner == Judging(newest) {
      more := [Timed(DoEndJudgement(true), r.clock)];
      RunWorkerSnoc(cfg, NewRun(clock), steps, more[0]);
      JudgingJudges(cfg, r, r.clock);
    } else {
      more := WaitingIsJudged(cfg, clock, steps);
    }
  }

  lemma NewestStands(cfg: WorkerConfig, r: WorkerRun)
    requires ValidWorkerConfig(cfg) && RunSound(cfg, r) && !r.worker.closed && r.accepted != []
    ensures var newest := r.accepted[|r.accepted| - 1];
            || (r.worker.pending == Some(newest) && r.worker.runner != NoRunner)
            || r.worker.runner == Judging(newest)
            || (r.judged != [] && r.judged[|r.judged| - 1] == newest)
  {
  }

  lemma JudgingJudges(cfg: WorkerConfig, r: WorkerRun, at: real)
    requires ValidWorkerConfig(cfg) && r.worker.runner.Judging?
    ensures var r' := Step(cfg, r, DoEndJudgement(true), at);
            r'.accepted == r.accepted && r'.judged == r.judged + [r.worker.runner.snapshot]
  {
  }

  /** Four sections at most: back to the head of the loop, on to the judge, take, and judge. */
  lemma WaitingIsJudged(cfg: WorkerConfig, clock: real, steps: seq<Timed>) returns (more: seq<Timed>)
    requires ValidWorkerConfig(cfg)
    requires var r := RunWorker(cfg, NewRun(clock), steps);
             !r.worker.closed && r.worker.pending.Some? && r.worker.runner != NoRunner
    ensures OwnSteps(more) && |more| <= 4
    ensures var r, r' := RunWorker(cfg, NewRun(clock), steps), RunWorker(cfg, NewRun(clock), steps + more);
            r'.accepted == r.accepted && r'.judged != []
            && Some(r'.judged[|r'.judged| - 1]) == r.worker.pending
  {
    hide Step, RunSound;
    var r := RunWorker(cfg, NewRun(clock), steps);
    RunKeepsSound(cfg, clock, steps);
    if r.worker.runner == AboutToTake {
      more := Take2(cfg, clock, steps, r.clock);
    } else if r.worker.runner == AtTop {
      more := Top3(cfg, clock, steps);
    } else {
      var back := Timed(BackToTop(r.worker.runner), r.clock);
      ComesBack(cfg, r, r.clock);
      RunWorkerSnoc(cfg, NewRun(clock), steps, back);
      var rest := Top3(cfg, clock, steps + [back]);
      more := [back] + rest;
      assert steps + more == (steps + [back]) + rest;
    }
  }

  lemma Take2(cfg: WorkerConfig, clock: real, steps: seq<Timed>, at: real) returns (more: seq<Timed>)
    requires ValidWorkerConfig(cfg)
    requires var r := RunWorker(cfg, NewRun(clock), steps);
             r.worker.runner == AboutToTake && !r.worker.closed && r.worker.pending.Some?
    ensures OwnSteps(more) && |more| == 2
    ensures var r, r' := RunWorker(cfg, NewRun(clock), steps), RunWorker(cfg, NewRun(clock), steps + more);
            r'.accepted == r.accepted && r'.judged != []
            && Some(r'.judged[|r'.judged| - 1]) == r.worker.pending
  {
    hide Step;
    more := [Timed(DoTake, at), Timed(DoEndJudgement(true), at)];
    TakingJudges(cfg, RunWorker(cfg, NewRun(clock), steps), at);
    RunWorkerSnoc(cfg, NewRun(clock), steps, more[0]);
    RunWorkerSnoc(cfg, NewRun(clock), steps + [more[0]], more[1]);
    assert steps + more == (steps + [more[0]]) + [more[1]];
  }

  lemma Top3(cfg: WorkerConfig, clock: real, steps: seq<Timed>) returns (more: seq<Timed>)
    requires ValidWorkerConfig(cfg)
    requires var r := RunWorker(cfg, NewRun(clock), steps);
             r.worker.runner == AtTop && !r.worker.closed && r.worker.pending.Some?
    ensures OwnSteps(more) && |more| == 3
    ensures var r, r' := RunWorker(cfg, NewRun(clock), steps), RunWorker(cfg, NewRun(clock), steps + more);
            r'.accepted == r.accepted && r'.judged != []
            && Some(r'.judged[|r'.judged| - 1]) == r.worker.pending
  {
    hide Step;
    var r := RunWorker(cfg, NewRun(clock), steps);
    var at := LateEnough(cfg, r);
    var top := Timed(DoTop, at);
    TopGoesOn(cfg, r, at);
    RunWorkerSnoc(cfg, NewRun(clock), steps, top);
    var rest := Take2(cfg, clock, steps + [top], at);
    more := [top] + rest;
    assert steps + more == (steps + [top]) + rest;
  }

  lemma TopGoesOn(cfg: WorkerConfig, r: WorkerRun, at: real)
    requires ValidWorkerConfig(cfg) && r.worker.runner == AtTop && !r.worker.closed && r.worker.pending.Some?
    requires at >= r.clock && (r.worker.lastCallAt.Some? ==> at >= r.worker.lastCallAt.value + MinInterval(cfg))
    ensures var r' := Step(cfg, r, DoTop, at);
            && r'.worker == r.worker.(runner := AboutToTake)
            && r'.accepted == r.accepted && r'.judged == r.judged
  {
  }
}
