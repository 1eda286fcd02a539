# Verification of the interview backend

This project models three parts of an AI technical-interview backend and proves what they
are for.

**The voice turn.** While a candidate speaks, a buffer collects one answer. A language model
judges snapshots of it, a coordinator turns verdicts, client events and five kinds of timer
into state changes, and at last the answer is submitted. Connections come and go during all of
this. `BufferSpec` gives each operation of the buffer as a function and `Buffer` the object
itself; `CoordinatorSpec` gives each lock-held section and `Coordinator` the object. `TurnHistory`
runs any sequence of sections, in any order, with any arguments and any verdicts, and keeps a
history of what was judged, asked and submitted; `TurnLifecycle` and `TurnGuarantees` prove what
every such run keeps. `TurnOutcomes` says what a verdict, a stall, a transcript, speech and a
response do, in terms of what was judged and heard, and `WhatWasSaid` that the answer submitted is
what the candidate said; `EventIds` is about the ids of submissions. `TurnProgress` says when a timer
works and what an answer that is not final waits for, `TimerSlots` and `Desks` which timers run, and
`Silence` where a turn ends when nobody speaks. `Worker` and `WorkerSpec` are the rate-limited judge
runner, `Registry`, `Ownership`, `OwnershipGuarantees` and `Takeovers` the hand-over of a turn between
connections.

**The interview.** `Workflow` is the graph of the interview: nodes, routers, edges, and one run
from an input to the next wait. `Assessment` holds the attempts and evaluations. `Facade` adds
the idempotency memo. `WorkflowGuarantees` and `InterviewGuarantees` prove how questions, sets and
evaluations are counted, that no question is judged twice, and that the interview ends;
`InterviewOutcomes` says what each input does, when exactly the interview ends, and which question
an answer leads to.

**Evidence texts.** `Lines`, `Packing`, `Splitting`, `CodeChunking` and `Chunking` are the splitter
that cuts evidence into chunks; `Fences`, `Cuts` and `LineGroups` say where it cuts, and what it never
cuts. `DiffHunks` reads the added lines off a unified diff, `DiffPatches`
is the diff itself and what should be found in it, `DiffReading`, `DiffMeaning`, `DiffInk` and
`DiffSteps` compare the two, and `DiffGuarantees` says when they agree. `Text` and `Decimals` hold
the string operations they rest on.

Objects of the source are classes whose methods are proved against functions; what the source
promises is proved about those functions. Language models, the Python parser, the declaration
patterns, clocks and networks are parameters: they may answer anything their validators accept.

Findings, where the code does less than one might expect:

- A confirmation response that adds to the answer but whose revision does not exceed the answer's
  is refused after its timeout was stopped, so nothing ends the confirmation any more. A response
  keeps the right timer running if and only if it is not of this kind; the message schema
  (`src/interview/api/voice/schema.py:242-252`) keeps such responses out.
- A derived question with the wrong parent is refused after the answer was counted, so the same
  answer can be judged again and again. An on-topic answer brings the end closer if and only if
  Strategy does not return one.
- Some events leave a final answer with neither a stall timer nor a snapshot at the worker, so that
  nothing brings the turn on until the candidate or another connection does: a prompt whose client
  is not ready or that cannot be sent, a candidate whose question changed, a failed submission, and
  a judgement that fails or comes too late. `Desks.EventKeepsWatch` says which exactly, and
  `Silence.SilenceSubmitsIff` that in silence these are the only way not to submit. For an unready
  client the code says that this is intended (`coordinator.py:1959-1961`).
- An answer that is not final waits for the client. After a confirmation response that adds to the
  answer (`buffer.py:735`) no verdict, timer, speech event or reconnection brings the turn on, however
  long the silence: `TurnProgress.UnfinishedWaits`. Exactly a final transcript does, and it is watched
  again: `Desks.FinalTranscriptIsWatched`.
- A code unit that is too long is filled up line by line, but every part after the first is reckoned
  one character longer than it is, so a line that would just fit opens another part
  (`code_chunking.py:166-172`): `LineGroups.LargeUnitIsFilled`.
- An added line that starts with two plus signs is taken for a file name, and lines are split at
  every break of `splitlines`, such as a form feed, not only at line ends. What follows such a break
  is read by its own first character: it is lost, or reported as added even in a removed line, or
  it ends the run and shifts the numbers after it. A break at the end of a line, or one followed by
  blanks where nothing that says something comes later in the hunk, does no harm.
  `DiffGuarantees.ExtractionIsRightIff` gives the condition.

## Model

| member | source | states |
|---|---|---|
| Buffer.VoiceTurnBuffer.UpdateTranscript | src/interview/interviewer/turn_completion/buffer.py:194-275 | a newer transcript replaces the text and drops judgement, confirmation and candidate; an old one, another question or a committed turn changes nothing |
| Buffer.VoiceTurnBuffer.SynchronizeReconnect | src/interview/interviewer/turn_completion/buffer.py:277-360 | only the very same revision and text are accepted again, with fresh speech information |
| Buffer.VoiceTurnBuffer.UpdateSpeechActivity | src/interview/interviewer/turn_completion/buffer.py:362-411 | speech restarts listening; silence only clears the flag |
| Buffer.VoiceTurnBuffer.RecordDecision | src/interview/interviewer/turn_completion/buffer.py:413-436 | a verdict is kept only while listening and for the current revision |
| Buffer.VoiceTurnBuffer.MarkCompleteCandidate | src/interview/interviewer/turn_completion/buffer.py:438-474 | a candidate needs an auto-submit decision for this revision, silence and an answer |
| Buffer.VoiceTurnBuffer.MarkConfirmationPending | src/interview/interviewer/turn_completion/buffer.py:476-517 | a confirmation needs its decision, silence and a confirmation left |
| Buffer.VoiceTurnBuffer.BeginConfirmationPrompt | src/interview/interviewer/turn_completion/buffer.py:519-555 | beginning a prompt counts it and makes its stripped id the active one |
| Buffer.VoiceTurnBuffer.MarkConfirmationResponseReady | src/interview/interviewer/turn_completion/buffer.py:557-605 | only the active confirmation becomes ready; a duplicate changes nothing |
| Buffer.VoiceTurnBuffer.UpdateConfirmationResponseActivity | src/interview/interviewer/turn_completion/buffer.py:607-658 | response speech is tracked for the active confirmation only |
| Buffer.VoiceTurnBuffer.ApplyConfirmationIntent | src/interview/interviewer/turn_completion/buffer.py:660-744 | finish makes a candidate, continue and unknown listen on, answer content is appended under a larger revision |
| Buffer.VoiceTurnBuffer.MarkUserConfirmedComplete | src/interview/interviewer/turn_completion/buffer.py:746-794 | a confirmed answer becomes a candidate and the confirmation ends |
| Buffer.VoiceTurnBuffer.MarkCutoffComplete | src/interview/interviewer/turn_completion/buffer.py:796-855 | a cutoff needs silence on both sides and an answer, and reports the confirmation it ends |
| Buffer.VoiceTurnBuffer.CancelConfirmation | src/interview/interviewer/turn_completion/buffer.py:857-872 | a confirmation under way returns to listening and its id is reported |
| Buffer.VoiceTurnBuffer.ResumeListening | src/interview/interviewer/turn_completion/buffer.py:874-888 | anything but a committed turn returns to listening |
| Buffer.VoiceTurnBuffer.BeginCommit | src/interview/interviewer/turn_completion/buffer.py:890-928 | a candidate that still stands starts submitting its stripped answer |
| Buffer.VoiceTurnBuffer.AbortCommit | src/interview/interviewer/turn_completion/buffer.py:930-951 | a failed submission returns to listening |
| Buffer.VoiceTurnBuffer.MarkCommitted | src/interview/interviewer/turn_completion/buffer.py:953-979 | a successful submission fixes the revision for good |
| BufferSpec.BufferStaysSound | src/interview/interviewer/turn_completion/buffer.py:143-979 | every sequence of calls keeps the validator, speech only while listening, an answer wherever it is submitted, one text per revision, and committed frozen |
| BufferSpec.CommittingIsClosed | src/interview/interviewer/turn_completion/buffer.py:194-979 | while a submission is under way no call but its end or a return to listening changes anything |
| CoordinatorSpec.OwnDecisionIsApplied | src/interview/interviewer/turn_completion/coordinator.py:1145-1215 | applying the decision held for the current revision never raises |
| CoordinatorSpec.FailedTranscriptChangesNothing | src/interview/interviewer/turn_completion/coordinator.py:525-623 | a transcript event that reports an error has left the buffer alone |
| CoordinatorSpec.FailedActivityChangesNothing | src/interview/interviewer/turn_completion/coordinator.py:711-753 | a speech event that reports an error has left the buffer alone |
| TurnGuarantees.RunKeeps | src/interview/interviewer/turn_completion/coordinator.py:433-2262 | every state reachable by any interleaving of sections satisfies the invariant of a turn |
| TurnGuarantees.RevisionDeterminesText | src/interview/interviewer/turn_completion/buffer.py:251-744 | the revision never falls, one revision has one text, and a committed turn never changes |
| TurnGuarantees.EqualEventIdsCarryEqualText | src/interview/interviewer/turn_completion/coordinator.py:1409-1429 | two submissions of a turn with the same client event id carry the same text |
| TurnGuarantees.FinishedAnswersWereJudged | src/interview/interviewer/turn_completion/coordinator.py:599-623 | an answer submitted as finished equals, up to whitespace, a text the judge itself rated complete, without fallback, at or above the threshold |
| TurnGuarantees.CutoffsAreFair | src/interview/interviewer/turn_completion/coordinator.py:2072-2103 | confirmations counted are prompts begun, never too many; a cutoff comes with no prompt left, or the last prompt was for that revision, was acknowledged, and ended with no response applied or being spoken; a confirmed answer had "finished" applied to such a prompt |
| TurnGuarantees.CutoffsWereNotAnswered | src/interview/interviewer/turn_completion/coordinator.py:1007-1030 | in any run, before or after a cutoff with prompts left, every response to its last prompt was refused |
| TurnGuarantees.ConfirmedAnswersWereConfirmed | src/interview/interviewer/turn_completion/buffer.py:660-794 | an answer is submitted as confirmed only if the run applied a response "finished" to its last prompt |
| TurnGuarantees.OneSubmissionCounts | src/interview/interviewer/turn_completion/coordinator.py:1392-1488 | all submissions but the last were aborted; one is in flight exactly while committing, one succeeded exactly when committed |
| TurnGuarantees.SuccessIsFinal | src/interview/interviewer/turn_completion/buffer.py:953-1005 | after a success neither buffer nor submissions change in any run |
| TurnGuarantees.ConfirmationsResolveOnce | src/interview/interviewer/turn_completion/coordinator.py:1957-2150 | a confirmation id that stopped being active never becomes active again and is resolved once |
| TurnGuarantees.ResponsesApplyOnce | src/interview/interviewer/turn_completion/coordinator.py:955-1064 | a response takes effect only if its id was active throughout the unlocked classification, and no later response to it does |
| TurnOutcomes.PromptsWereSuggested | src/interview/interviewer/turn_completion/coordinator.py:1314-1342 | in any run, every prompt begun asks about an answer that a verdict of the judge, not a fallback, rated ambiguous and to be asked about, closed, sufficient, certain enough and with enough context; or about a final answer that a stall timer found unchanged |
| TurnOutcomes.VerdictDecides | src/interview/interviewer/turn_completion/coordinator.py:1145-1215 | a verdict on the answer listened to makes a candidate if and only if it calls the answer finished and the candidate is silent after a final answer, a pending confirmation if and only if it suggests asking and a prompt is left, and nothing otherwise |
| TurnOutcomes.VerdictIsAnnounced | src/interview/interviewer/turn_completion/coordinator.py:1217-1284 | which step is scheduled after a verdict, and which reason for listening on is reported |
| TurnOutcomes.StallDecides | src/interview/interviewer/turn_completion/coordinator.py:1716-1781 | a stalled answer is submitted if its decision calls it finished, else asked about while a prompt is left, else cut off |
| TurnOutcomes.TimersNeverFail | src/interview/interviewer/turn_completion/coordinator.py:1716-2138 | no timer reports an error, whenever it fires and whatever it was started for |
| TurnOutcomes.TakenIff | src/interview/interviewer/turn_completion/coordinator.py:520-598 | when a transcript is taken, and which error it gets otherwise |
| TurnOutcomes.TranscriptKeepsCandidateIff | src/interview/interviewer/turn_completion/coordinator.py:599-623 | a transcript that is taken keeps a candidate if and only if it repeats, final and in silence, the words of an answer the judge called finished; otherwise the turn listens |
| TurnOutcomes.SpeechDecides | src/interview/interviewer/turn_completion/coordinator.py:684-775 | speech makes the turn listen without a decision to an answer that is not final; its end applies a decision reached meanwhile on a final answer |
| TurnOutcomes.ConnectionsDecide | src/interview/interviewer/turn_completion/coordinator.py:433-475 | a connection that arrives takes an open turn back to listening without a decision, one that leaves ends a confirmation and nothing else |
| TurnOutcomes.PendingIffPromptLeft | src/interview/interviewer/turn_completion/buffer.py:476-517 | a confirmation becomes pending exactly while a prompt is left |
| TurnOutcomes.EndsAreNamed | src/interview/interviewer/turn_completion/buffer.py:796-928 | a cutoff or a cancellation reports the confirmation it ends, and a commit the text that is submitted |
| TurnOutcomes.PromptEventsTaken | src/interview/interviewer/turn_completion/coordinator.py:2188-2225 | the client's readiness and response speech are taken exactly when they name the active prompt, repeated readiness changes nothing |
| TurnOutcomes.ResponsesDecide | src/interview/interviewer/turn_completion/buffer.py:660-794 | when a response is applied, and that "finished" makes a candidate and every other response listens |
| WhatWasSaid.BufferHoldsWhatWasSaid | src/interview/interviewer/turn_completion/buffer.py:194-744 | after any run the buffer holds the words, revision and measurements of the newest transcript with every addition after it, in order |
| WhatWasSaid.SubmittedIsWhatWasSaid | src/interview/interviewer/turn_completion/coordinator.py:1403-1429 | the submission in flight or accepted carries exactly what was said, with its newest delivery metrics |
| WhatWasSaid.ReconnectExpectsWhatWasSaid | src/interview/interviewer/turn_completion/coordinator.py:433-475 | a connection expects the old snapshot again if and only if something was said and nothing of it is or was submitted |
| EventIds.EventIdsTell | src/interview/interviewer/turn_completion/coordinator.py:1425-1428 | within a session, the printed id of a submission tells question, revision and reason, whatever characters the ids hold |
| EventIds.SessionsMayShareIds | src/interview/interviewer/turn_completion/coordinator.py:1425-1428 | two sessions whose ids hold colons can print the same id |
| TurnProgress.TimersWorkIffTheyMatch | src/interview/interviewer/turn_completion/coordinator.py:1364-2138 | for a sole owner a timer changes the turn if and only if it matches state, question, revision and id, and then takes it where it should go |
| TurnProgress.SilenceTerminates | src/interview/interviewer/turn_completion/coordinator.py:1677-2138 | without the candidate at most three state changes per confirmation and five more happen, however often timers fire |
| TurnProgress.AdditionIsUnfinished | src/interview/interviewer/turn_completion/buffer.py:720-744 | a response that adds puts its words after those of the answer, under its revision, and leaves the turn listening to an answer that is not final |
| TurnProgress.OtherResponsesKeepAnswer | src/interview/interviewer/turn_completion/buffer.py:691-717 | every other response that is applied leaves text and revision alone |
| TurnProgress.FinishesIff | src/interview/interviewer/turn_completion/coordinator.py:1279-1343 | any one event keeps the turn listening to an answer that is not final, unless it is a final transcript that is taken, and then not; without a taken transcript the answer stays the same |
| TurnProgress.UnfinishedWaits | src/interview/interviewer/turn_completion/coordinator.py:1710-1723 | in any run without a final transcript taken, an answer that is not final is still listened to and nothing is submitted; without any transcript taken it is the same answer |
| TurnProgress.OrderDoesNotMatter | src/interview/interviewer/turn_completion/coordinator.py:734-751 | a verdict, its policy and the end of speech give the same buffer and at most one scheduled step in every order |
| TimerSlots.ConnectingStopsTimers | src/interview/interviewer/turn_completion/coordinator.py:433-475 | a connection that arrives or leaves stops every timer but a submission's |
| Desks.EventKeepsTimer | src/interview/interviewer/turn_completion/coordinator.py:1217-1284 | a handler keeps the timer that a candidate or a confirmation waits for running if and only if it does not serve an unusable response |
| Desks.EventKeepsSlots | src/interview/interviewer/turn_completion/coordinator.py:1344-1682 | no handler leaves a timer in its slot that does not match the new state, a response timeout of a prompt that was taken back excepted |
| Desks.EventKeepsWatch | src/interview/interviewer/turn_completion/coordinator.py:1516-2150 | a final answer keeps its stall timer or its snapshot at the worker if and only if the event is not an unready or unsent prompt, a candidate or submission taken back, or a worker that is done without a verdict that still applies |
| Desks.CandidatesAndConfirmationsKeepTheirTimer | src/interview/interviewer/turn_completion/coordinator.py:433-2138 | after taking over and any served events without an unusable response, every candidate and every confirmation has its timer running, and that timer succeeds |
| Desks.NoTurnIsStranded | src/interview/interviewer/turn_completion/coordinator.py:433-2150 | while none of those events happens, every final answer is at the worker or has a timer that will succeed, in whatever state the turn is |
| Desks.TranscriptsAreWatched | src/interview/interviewer/turn_completion/coordinator.py:477-682 | a transcript that is taken is watched afterwards, by its stall timer or by the worker |
| Desks.FinalTranscriptIsWatched | src/interview/interviewer/turn_completion/coordinator.py:477-682 | no stall timer runs for an answer that is not final; a final transcript with words that is taken brings it its stall timer or its snapshot to the worker |
| Desks.AdditionGoesToWorker | src/interview/interviewer/turn_completion/coordinator.py:1033-1037 | an addition to the answer is offered to the worker under its new revision |
| Desks.TakeoverIsWatchedIff | src/interview/interviewer/turn_completion/coordinator.py:433-475 | a connection that takes over watches a final answer only if it is being submitted or was, until the next transcript |
| Desks.ServingIsRunning | src/interview/interviewer/turn_completion/coordinator.py:433-2138 | the handlers of a connection, run one after the other, are a run of sections, so all that holds of every run holds of them |
| Desks.UnusableResponseStrands | src/interview/interviewer/turn_completion/coordinator.py:1007-1030 | a response whose revision is too small leaves the confirmation waiting without a timer |
| Silence.SilenceSubmitsIff | src/interview/interviewer/turn_completion/coordinator.py:1364-2150 | when the candidate is silent and the judge is done, a bounded number of events follow, only timers in a slot firing; then no timer runs and the turn is committed or listens, with the same answer, and it is committed if and only if no prompt stayed unready or unsent and no candidate or submission was taken back |
| Silence.SilenceCanSubmit | src/interview/interviewer/turn_completion/coordinator.py:1364-2150 | from every watched turn, held timers, acknowledged prompts and one successful submission lead to the submission of its answer |
| Coordinator.VoiceTurnCoordinator.RememberInvalidConfirmation | src/interview/interviewer/turn_completion/coordinator.py:2253-2262 | at most twenty ids are kept, nothing unknown appears, and none is lost before there are more than twenty |
| Coordinator.VoiceTurnCoordinator.ApplyDecisionPolicy | src/interview/interviewer/turn_completion/coordinator.py:1145-1215 | keep listening, defer, candidate or pending confirmation, as the decision and the buffer allow |
| Coordinator.VoiceTurnCoordinator.PrepareConnection | src/interview/interviewer/turn_completion/coordinator.py:433-475 | takes the turn back to listening, stops every timer, expects the old snapshot again if there was one |
| Coordinator.VoiceTurnCoordinator.Aclose | src/interview/interviewer/turn_completion/coordinator.py:1066-1107 | closes, ends a confirmation under way, stops timers and worker |
| Coordinator.VoiceTurnCoordinator.HandleTranscriptUpdated | src/interview/interviewer/turn_completion/coordinator.py:477-682 | buffer, timers, invalid ids and worker after a transcript event, and the errors it reports |
| Coordinator.VoiceTurnCoordinator.HandleActivityChanged | src/interview/interviewer/turn_completion/coordinator.py:684-789 | the same for a speech event |
| Coordinator.VoiceTurnCoordinator.HandleResponseReady | src/interview/interviewer/turn_completion/coordinator.py:791-874 | a prompt that was played waits for its response under a new timeout |
| Coordinator.VoiceTurnCoordinator.HandleResponseActivity | src/interview/interviewer/turn_completion/coordinator.py:876-953 | response speech stops the timeout, its end starts it again |
| Coordinator.VoiceTurnCoordinator.ExpectResponse | src/interview/interviewer/turn_completion/coordinator.py:993-1010 | a response is looked up under the lock and stops the timeout |
| Coordinator.VoiceTurnCoordinator.ApplyResponse | src/interview/interviewer/turn_completion/coordinator.py:1013-1056 | a classified response is looked up again and applied, its id is invalid from then on |
| Coordinator.VoiceTurnCoordinator.HandleWorkerResult | src/interview/interviewer/turn_completion/coordinator.py:1109-1143 | a verdict that is still current is applied and its timer started |
| Coordinator.VoiceTurnCoordinator.RunStallTimeout | src/interview/interviewer/turn_completion/coordinator.py:1677-1819 | a stalled answer is resubmitted to the policy, confirmed, or cut off |
| Coordinator.VoiceTurnCoordinator.RunConfirmationDelay | src/interview/interviewer/turn_completion/coordinator.py:1840-1905 | a pending confirmation that still stands begins its prompt and waits for the client |
| Coordinator.VoiceTurnCoordinator.PromptNotSent | src/interview/interviewer/turn_completion/coordinator.py:1906-2150 | a prompt that did not reach the client is taken back |
| Coordinator.VoiceTurnCoordinator.RunReadyTimeout | src/interview/interviewer/turn_completion/coordinator.py:1950-2023 | an unready client ends the prompt, never the answer |
| Coordinator.VoiceTurnCoordinator.RunResponseTimeout | src/interview/interviewer/turn_completion/coordinator.py:2053-2138 | a missing response cuts the answer off and schedules its submission |
| Coordinator.VoiceTurnCoordinator.RunCommitDelay | src/interview/interviewer/turn_completion/coordinator.py:1364-1430 | a candidate that still stands is submitted as it is, or given up with its question |
| Coordinator.VoiceTurnCoordinator.AbortCommit | src/interview/interviewer/turn_completion/coordinator.py:1548-1565 | a failed submission returns its turn to listening |
| Coordinator.VoiceTurnCoordinator.FinishCommit | src/interview/interviewer/turn_completion/coordinator.py:1484-1501 | a successful submission is marked and the worker cancelled |
| Registry.VoiceTurnRegistry.OpenTurn | src/interview/interviewer/turn_completion/registry.py:53-105 | the same question gets its very entry back; another one gets a fresh entry and cancels the registered worker |
| Registry.VoiceTurnRegistry.ReplaceQuestion | src/interview/interviewer/turn_completion/registry.py:107-152 | always a fresh entry, the registered worker is cancelled |
| Registry.VoiceTurnRegistry.AttachWorker | src/interview/interviewer/turn_completion/registry.py:154-198 | only a live worker on this very buffer and lock is registered, and it cancels the one it supersedes |
| Registry.VoiceTurnRegistry.DetachWorker | src/interview/interviewer/turn_completion/registry.py:200-229 | a connection takes only its own worker with it |
| Registry.VoiceTurnRegistry.Remove | src/interview/interviewer/turn_completion/registry.py:248-265 | the entry goes and its worker is cancelled |
| OwnershipGuarantees.SessionStaysSound | src/interview/api/voice/websocket.py:484-508 | with any number of connections in any interleaving, live registered workers own the current turn and flights are exactly the committing turns |
| OwnershipGuarantees.CommittingGainsNoOwner | src/interview/api/voice/websocket.py:484-508 | a turn being submitted keeps its owner or loses it, nobody else becomes its owner |
| OwnershipGuarantees.OnlyOwnersStart | src/interview/interviewer/turn_completion/coordinator.py:1391-1413 | a submission starts only at a commit grace of the registered owner of the current turn, with an open connection |
| OwnershipGuarantees.SubmittersAreOwners | src/interview/api/voice/websocket.py:484-508 | in every reachable state a turn being submitted is registered to its submitter or to nobody |
| OwnershipGuarantees.OneFlightPerTurn | src/interview/interviewer/turn_completion/coordinator.py:1391-1488 | no turn has two submissions in flight, and each submits what its turn is committing |
| OwnershipGuarantees.SupersededNeverSubmits | src/interview/interviewer/turn_completion/registry.py:185-198 | a superseded connection never starts a submission again |
| OwnershipGuarantees.AcceptedIsFinal | src/interview/api/voice/websocket.py:391-435 | once a turn's answer was accepted nothing changes it and nothing of it is in flight |
| Takeovers.NewcomersTakeOver | src/interview/api/voice/websocket.py:484-508 | from every reachable session the connection that comes last becomes the registered owner, and the old owner's worker is closed, if and only if the turn is not being submitted |
| Takeovers.OwnersStart | src/interview/interviewer/turn_completion/coordinator.py:1391-1413 | the grace timer of an open owner submits an undisturbed candidate as the buffer holds it |
| Takeovers.SubmissionsEnd | src/interview/interviewer/turn_completion/coordinator.py:1484-1565 | an accepted submission commits its turn and closes the worker, a failed one returns it to listening, and nothing stays in flight |
| Takeovers.AcceptedGoesOn | src/interview/api/voice/websocket.py:391-435 | after an accepted answer a registered owner goes on with a fresh turn of the next question |
| Worker.LatestWinsTurnCompletionWorker.Submit | src/interview/interviewer/turn_completion/worker.py:138-196 | exactly when a snapshot is accepted, and that it replaces the one waiting |
| Worker.LatestWinsTurnCompletionWorker.LoopHead | src/interview/interviewer/turn_completion/worker.py:269-281 | the runner leaves, waits for the rate limit, or goes on |
| Worker.LatestWinsTurnCompletionWorker.TakeSnapshot | src/interview/interviewer/turn_completion/worker.py:283-288 | the waiting snapshot is taken and the start of the call noted |
| Worker.LatestWinsTurnCompletionWorker.Finish | src/interview/interviewer/turn_completion/worker.py:313-318 | a leaving runner starts its successor if something waits again |
| Worker.LatestWinsTurnCompletionWorker.Cancel | src/interview/interviewer/turn_completion/worker.py:198-208 | a cancelled worker is closed and forgets what waits |
| Worker.LatestWinsTurnCompletionWorker.ApplyLatestResult | src/interview/interviewer/turn_completion/worker.py:332-359 | a verdict is recorded only by an open worker for the current question and revision |
| WorkerSpec.NewestIsNeverLost | src/interview/interviewer/turn_completion/worker.py:138-318 | unless closed, the last accepted snapshot waits with a live runner, is being judged, or was judged; judged revisions increase |
| WorkerSpec.JudgementRateIsBounded | src/interview/interviewer/turn_completion/worker.py:273-330 | starts are at least one interval apart, so any window holds a bounded number of them |
| WorkerSpec.RepeatsAreNotAccepted | src/interview/interviewer/turn_completion/worker.py:163-193 | over any run every accepted snapshot is newer than the one before and has other characters besides whitespace, or differs in being final |
| WorkerSpec.TakenIffNew | src/interview/interviewer/turn_completion/worker.py:138-193 | a live worker takes a snapshot if and only if it shows the answer listened to, has ink, is newer than all accepted ones and differs from the last in ink or finality; one that is not final needs the minimum length, and as much growth if the worker is idle |
| WorkerSpec.LoopGoesOnIff | src/interview/interviewer/turn_completion/worker.py:320-330 | the loop goes on to the judge if and only if one interval has passed since the last start |
| WorkerSpec.NewestCanBeJudged | src/interview/interviewer/turn_completion/worker.py:265-318 | after any run at most four sections of the worker's own task judge the newest accepted snapshot |
| Assessment.AssessmentAgent.Evaluate | src/interview/assessment/agent.py:110-197 | the evidence behind a verdict is kept; an on-topic answer joins the current and all attempts, an off-topic one leaves no other trace |
| Assessment.AssessmentAgent.FindMainAttempt | src/interview/assessment/agent.py:281-310 | the first attempt at the main question itself, or the first attempt |
| Assessment.AssessmentAgent.BuildAnswerContext | src/interview/assessment/agent.py:338-342 | the answers of the set, one per line |
| Assessment.AssessmentAgent.CompleteQuestionSet | src/interview/assessment/agent.py:200-262 | a set with answers becomes one evaluation, with its evidence ids and delivery notes once each in their first order, and is cleared; an empty one is no set |
| Assessment.SummaryConcat | src/interview/assessment/agent.py:338-342 | the summary of two lists of answers is the first summary, a line feed, and the second |
| Assessment.NotesSay | src/interview/assessment/agent.py:325-336 | the notes of a set are those of its attempts that are not empty |
| Assessment.NotesConcat | src/interview/assessment/agent.py:325-336 | notes are listed in the order of the answers |
| Wrappers.DistinctKeepsOrder | src/interview/assessment/agent.py:325-336 | items that occur again later leave the order of first occurrences alone |
| Assessment.EvaluationSays | src/interview/assessment/agent.py:233-256 | an evaluation has topic, text, category and sources of the first main attempt or the first attempt, every verdict in order, and each note and piece of evidence once |
| Assessment.NoAttemptIsLost | src/interview/assessment/agent.py:163-262 | the traces of all evaluations and of the current set are the traces of all attempts, in order |
| WorkflowGuarantees.SettleKeepsShape | src/interview/interviewer/workflow/graph.py:91-161 | whatever node runs, questions and counters stay within bounds and finished means a report is stored |
| WorkflowGuarantees.SettleKeepsCounts | src/interview/interviewer/workflow/nodes.py:482-520 | every main question but the current one has its evaluation while the session goes on |
| WorkflowGuarantees.SettleKeepsLog | src/interview/interviewer/workflow/routing.py:47-107 | no set ever has two challenges or more derived questions than allowed |
| InterviewGuarantees.JudgedIffAccepted | src/interview/interviewer/workflow/nodes.py:63-130 | an answer is judged, once, if and only if it answers the current question of this session with words and is no command; it becomes an attempt if and only if it is also on topic |
| InterviewGuarantees.OnTopicAnswersSpend | src/interview/interviewer/workflow/nodes.py:285-480 | an on-topic answer brings the end closer if and only if Strategy does not return a derived question with the wrong parent |
| InterviewGuarantees.InterviewStaysSound | src/interview/interviewer/workflow/graph.py:91-161 | between any two inputs no attempt and no evidence behind one is lost, evaluations equal asked questions minus one, limits hold, and finished has a report |
| InterviewGuarantees.QuestionsAreJudgedOnce | src/interview/interviewer/workflow/nodes.py:114-130 | with fresh, correctly parented questions no question gets two on-topic attempts, whatever inputs race |
| InterviewGuarantees.InterviewEnds | src/interview/interviewer/workflow/routing.py:47-176 | if derived questions name their parents, at most max_questions times one plus max_derived on-topic answers are judged, and then the session is finished |
| InterviewOutcomes.InterviewEndsIff | src/interview/interviewer/workflow/routing.py:10-176 | an input ends a session if and only if it asks for the end in writing or speech, times out without pausing, or is an accepted answer that closes the last set |
| InterviewOutcomes.FinishedIffEnded | src/interview/interviewer/workflow/graph.py:91-161 | after any inputs a session is finished if and only if one of them ended it in that sense |
| InterviewOutcomes.OtherInputsWait | src/interview/interviewer/workflow/routing.py:32-44 | a request to repeat, and every input that is refused, leaves question, counters, transcript, ledger and history as they were, and waits |
| InterviewOutcomes.TimeoutPausesOrEnds | src/interview/interviewer/workflow/nodes.py:721-760 | a timeout, sent or reached by silences, pauses or ends the session as it was set up, at the same question |
| InterviewOutcomes.SilenceHintsOrRepeats | src/interview/interviewer/workflow/nodes.py:585-674 | a short silence changes nothing; a longer one counts, and gives a hint or repeats the question as set up for the first and for later silences |
| InterviewOutcomes.AnswersLead | src/interview/interviewer/workflow/routing.py:47-107 | off topic keeps the question; an answer that closes its set has the set evaluated with it and the next main question asked, or ends the session; any other gets the derived question for its quality, if that names its parent |
| InterviewOutcomes.EvaluationsFollowMainQuestions | src/interview/interviewer/workflow/nodes.py:482-520 | the i-th evaluation is of the i-th main question asked, and the newest main question of a session that goes on has none yet |
| Facade.InterviewSession.Start | src/interview/interviewer/facade.py:112-132 | the graph starts once |
| Facade.InterviewSession.SubmitEvent | src/interview/interviewer/facade.py:134-200 | not started, remembered, finished, or run and remembered |
| Facade.IdsRunOnce | src/interview/interviewer/facade.py:165-200 | each client event id runs the graph at most once, and repeating it gives the state that run ended in |
| Facade.SubmissionsRunIffNew | src/interview/interviewer/facade.py:165-200 | a submission runs the graph if and only if the session is started and unfinished and no run had its id; what the caller gets in each case |
| Facade.StartedIffAsked | src/interview/interviewer/facade.py:112-132 | a session is started exactly once it was asked to start |
| Facade.SessionsArePlayed | src/interview/interviewer/facade.py:134-200 | a session under any calls is an interview played with the inputs that ran |
| Facade.RacingSubmissionsAreSafe | src/interview/interviewer/facade.py:165-200 | manual and automatic submissions in any order stay within the bound if derived questions name their parents; if ids are fresh too, they stay within it and judge no question twice |
| Packing.PartList.AppendUnit | src/interview/evidence/chunking.py:134-154 | a unit joins the current part, or the part goes on the caller's list and the unit starts the next |
| Packing.PackIsGreedy | src/interview/evidence/chunking.py:65-109 | parts are consecutive groups of units, several only if they fit, and no part had room for the next unit |
| Packing.PackFits | src/interview/evidence/chunking.py:134-154 | if every unit fits so does every part |
| Splitting.ParagraphsHaveNoGap | src/interview/evidence/chunking.py:65-68 | no paragraph has a blank line inside |
| Splitting.SentencesKeepInk | src/interview/evidence/chunking.py:206-209 | sentences hold the text's characters in order |
| Splitting.HardSplitFits | src/interview/evidence/chunking.py:212-214 | fixed-length pieces hold the text's characters in order and fit |
| CodeChunking.NormalizeCodeText | src/interview/evidence/code_chunking.py:17-30 | trailing blanks go, one blank line of several stays |
| CodeChunking.NormalizeKeepsRows | src/interview/evidence/code_chunking.py:17-30 | every line that says something is kept |
| CodeChunking.IncludeLeadingComments | src/interview/evidence/code_chunking.py:84-139 | the run of comment and blank lines right above a declaration |
| CodeChunking.CommentStartIsFirst | src/interview/evidence/code_chunking.py:84-139 | as many comment and blank lines as there are go with the declaration, and no others |
| CodeChunking.SplitPython | src/interview/evidence/code_chunking.py:49-81 | the lines before, of and after each declaration the parser found |
| CodeChunking.FindBraceBlockEnd | src/interview/evidence/code_chunking.py:142-151 | just after the first line at which the opened block is closed, or the end |
| CodeChunking.SplitBraces | src/interview/evidence/code_chunking.py:96-128 | one unit per declaration that is not inside an earlier one, with its comments |
| CodeChunking.SplitLarge | src/interview/evidence/code_chunking.py:158-174 | a unit that is too long is filled up line by line |
| CodeChunking.LargeUnitKeepsRows | src/interview/evidence/code_chunking.py:158-174 | it is cut between lines only, and a part that does not fit is one line |
| CodeChunking.SplitIntoCodeUnits | src/interview/evidence/code_chunking.py:33-46 | units by language, large ones split, empty parts dropped |
| CodeChunking.CodeUnitsKeepLines | src/interview/evidence/code_chunking.py:33-174 | for every language, any patterns and any parser that lists declarations in order, the units hold the text's lines in order |
| Chunking.SplitOversizedBlock | src/interview/evidence/chunking.py:157-176 | a long paragraph is packed by sentences, a long sentence cut by length |
| Chunking.SplitPlainText | src/interview/evidence/chunking.py:65-79 | paragraphs and their pieces are packed in order |
| Chunking.SplitCodeBlocks | src/interview/evidence/chunking.py:111-131 | fences stay together, the rest is split at blank lines, as `Fences.BlocksAreRuns` says |
| Chunking.SplitOversizedCodeBlock | src/interview/evidence/chunking.py:179-203 | a long block is packed by lines, a long line cut by length |
| Chunking.SplitCodeText | src/interview/evidence/chunking.py:82-109 | fenced and other code go their ways |
| Chunking.TextPartsKeepContent | src/interview/evidence/chunking.py:65-79 | the parts of a text hold its characters in order and fit |
| Chunking.FencedPartsKeepContent | src/interview/evidence/chunking.py:82-97 | so do the parts of fenced code |
| Chunking.CodePartsKeepLines | src/interview/evidence/chunking.py:82-109 | other code keeps whole lines in order, and a part that does not fit is a single line |
| Chunking.SmallUnitsStayWhole | src/interview/evidence/chunking.py:100-109 | a declaration that fits lies whole in one part |
| Chunking.Chunk | src/interview/evidence/chunking.py:13-54 | all children of all chunks in order, or an error for a size that is not positive |
| Chunking.ChildrenKeepContent | src/interview/evidence/chunking.py:13-54 | the children of a chunk say what it says and fit, or are single lines where lines are kept |
| Chunking.ChildrenAreDistinct | src/interview/evidence/chunking.py:44-52 | children have different ids and inherit everything else |
| Chunking.ChunkingKeepsContent | src/interview/evidence/chunking.py:13-54 | chunking a list says what the list said, in order |
| Chunking.PackIsPresentable | src/interview/evidence/chunking.py:134-154 | every part says something and has no whitespace at its ends |
| Fences.BlocksAreRuns | src/interview/evidence/chunking.py:116-131 | the blocks of fenced code are the longest runs of lines without a blank line outside fences, a line being inside when an odd number of fence lines precedes it; only such blank lines are left out |
| Fences.FencesStayTogether | src/interview/evidence/chunking.py:82-131 | a fence lies whole in one block, and a block that fits lies whole in one part |
| Fences.FencedCodeIsCutByFences | src/interview/evidence/chunking.py:82-97 | code with a fence line that does not fit is cut by its fences, whatever its language |
| Cuts.LinesCutAtBreaks | src/interview/evidence/chunking.py:121-131 | lines are cut at every line break and nowhere else, a carriage return with its line feed being one, and lines and breaks make up the text |
| Cuts.ParagraphsCutAtGaps | src/interview/evidence/chunking.py:65-68 | what lies between two paragraphs is whitespace from line feed to line feed, and with it they make up the text |
| Cuts.SentencesCutAtEnds | src/interview/evidence/chunking.py:206-209 | sentences are cut after an end mark that whitespace follows, and nowhere else |
| Cuts.HardSplitAtMultiples | src/interview/evidence/chunking.py:212-214 | the i-th piece of a fixed length begins at i times that length |
| Cuts.HardSplitCount | src/interview/evidence/chunking.py:212-214 | there are as many pieces as the length needs, and no more |
| Cuts.TidyingKeepsOneBlank | src/interview/evidence/code_chunking.py:17-30 | of a run of blank lines the first stays, and every other line stays, stripped at its end |
| Cuts.NetCounts | src/interview/evidence/code_chunking.py:142-151 | the depth of a line is the number of braces it opens less that of those it closes |
| Cuts.CommentIsCut | src/interview/evidence/code_chunking.py:142-151 | a line counts up to its first two slashes |
| Cuts.SmallParagraphsStayWhole | src/interview/evidence/chunking.py:65-79 | a paragraph that fits lies whole in one part |
| Cuts.PythonDeclarationsStayWhole | src/interview/evidence/code_chunking.py:49-93 | a Python declaration that fits, with the comment lines right above it, lies whole in one part |
| Cuts.BraceDeclarationsStayWhole | src/interview/evidence/code_chunking.py:96-151 | so does a declaration with its block in a language with braces, unless an earlier one's block holds it |
| Cuts.CodeIsRecognised | src/interview/evidence/chunking.py:57-62 | a chunk is code if its type says so or a line of it begins with a fence |
| Cuts.FittingChunksStayWhole | src/interview/evidence/chunking.py:23-34 | a chunk that fits once tidied keeps its id and stays one part |
| Cuts.LongCodeIsCutByLanguage | src/interview/evidence/chunking.py:82-109 | code without a fence that does not fit is cut by the rules of its own language |
| LineGroups.LongBlockIsFilled | src/interview/evidence/chunking.py:157-176 | a long paragraph is made of its sentences in order, as many in a part as fit; only a sentence that does not fit is cut |
| LineGroups.LongCodeBlockIsFilled | src/interview/evidence/chunking.py:179-203 | a long code block is made of its lines in order, as many in a part as fit; only a line that does not fit is cut |
| LineGroups.LargeUnitIsFilled | src/interview/evidence/code_chunking.py:158-174 | a large unit is cut between lines into consecutive groups none of which had room for the next line, where every group but the first is reckoned one character longer than it is |
| DiffHunks.ExtractAddedPatchHunks | src/interview/evidence/sources.py:734-786 | the scan over the lines of a patch, run by run |
| DiffReading.HeaderIsRead | src/interview/evidence/sources.py:763-767 | a printed hunk header is read with its new first line |
| DiffReading.PatchLineIsRead | src/interview/evidence/sources.py:762-783 | a line is read by its mark up to its first inner line break, and what follows each break like a line of its own |
| DiffReading.ExtractionReadsPatches | src/interview/evidence/sources.py:734-786 | for every list of hunks, whatever characters their lines hold and however each line ends: the runs of added lines that no unchanged line separates, numbered, of the hunks as they are read |
| DiffGuarantees.ExtractionIsRightIff | src/interview/evidence/sources.py:734-786 | where only added lines hold what looks like an added line or a header after an inner line break: right up to whitespace if and only if every added line is read whole and no line that shifts the numbers is followed in its hunk by the end of a run that says something |
| DiffGuarantees.ExtractionIsExactIff | src/interview/evidence/sources.py:734-786 | for lines without inner line breaks, and any line ends: extraction inverts printing if and only if no added line starts with two plus signs |
| DiffGuarantees.InventedTextIsReported | src/interview/evidence/sources.py:762-776 | where added lines are read whole, any other line with text after an inner break that looks added makes extraction report text nobody added |
| DiffPatches.RunsOfHunk | src/interview/evidence/sources.py:746-760 | a contribution comes from a maximal run of added lines of the new file and bears the numbers of its first and last line |
| DiffPatches.RunsHoldAllAdded | src/interview/evidence/sources.py:768-783 | the runs, one after the other, are the added lines in order: none is left out, cut or repeated |
| DiffGuarantees.FormFeedLosesText | src/interview/evidence/sources.py:762-776 | an added line with a form feed inside loses what follows it |
| DiffGuarantees.RemovedTextIsReported | src/interview/evidence/sources.py:762-776 | a removed line with a plus sign behind a form feed is reported as an added line |
| DiffGuarantees.BlankBehindBreakShifts | src/interview/evidence/sources.py:777-779 | a removed line with a blank behind an inner break, between two added lines, breaks their run |
| DiffGuarantees.MistakesCancel | src/interview/evidence/sources.py:762-776 | two such mistakes can cancel, so the condition needs that nothing is invented |

## Left out

- TurnGuarantees.EqualEventIdsCarryEqualText: within one buffer only; replacing a question starts a new buffer at revision 0, possibly under the same question id, so ids can recur across buffers.
- TurnProgress.TimersWorkIffTheyMatch: for a sole owner whose worker judges no revision twice; a superseded connection that closes late can cancel a confirmation of the new owner.
- Desks.NoTurnIsStranded: between handlers of one connection; while a handler awaits a message between leaving its section and starting a timer, no timer runs yet. A prompt that cannot be sent is taken back while it is the active one.
- Silence.SilenceSubmitsIff: what may happen in silence is that held timers fire, the client acknowledges a prompt, a prompt or candidate is taken back, and a submission ends; verdicts are not among it, and no durations are modelled.
- InterviewGuarantees.QuestionsAreJudgedOnce: needs fresh question ids and right parents from Strategy, whose code is not part of this model.
- CodeChunking.CodeUnitsKeepLines: takes from Python's parser that top-level declarations come in order, do not overlap and lie within the text.
- DiffGuarantees.ExtractionIsRightIff: for patches in which only added lines hold, after an inner line break, what looks like an added line or a header; for the others ExtractionReadsPatches says what is found, InventedTextIsReported when it is wrong, and MistakesCancel that it can be right by accident.
- Assessment.AssessmentAgent.CompleteQuestionSet: without score, comment and the competency model, which are floating-point arithmetic over the attempts.
- Worker.LatestWinsTurnCompletionWorker.Submit: the check against the buffer and the acceptance run back to back; the code releases the buffer's lock in between (`worker.py:160-171`), and a verdict on a snapshot that is no longer current is dropped later.
- The methods of `Coordinator` run a handler's sections back to back; what happens in between is covered by the runs of `TurnHistory`, section by section.
- The runs of `TurnHistory` do not use the availability checks before a section nor the set of invalid ids: they allow more than the code does.
- The worker's loop is modelled by the sections of its task between two awaits, not as one loop.
- Cancelling a timer is a request that may come too late; cancellation from outside, such as a process shutdown during a submission, is not modelled.
- Judge, answer evaluation, intent classification, voice commands, Strategy's questions and reports are arbitrary values that satisfy their validators.
- A judgement that raises counts as judged: like the code, the worker drops its snapshot and goes on.
- Utterances, turn types and the interviewer's side of the transcript: fixed texts that nothing reads back.
- Recovery of a graph whose node raised, releasing a session, and the registry of sessions.
- The declaration patterns of the splitter and the languages' grammars, except which languages have a pattern.
- Digits other than 0 to 9 in hunk headers.
- HTTP routing, authentication, storage, speech services, telemetry and logging.
