# Verification of infercat's protocol and accounting

A Dafny 4.11 model of the parts of infercat in which several things happen at once or add up over
time, and proofs of what they promise. `dafny verify dfyconfig.toml` checks all of it, in minutes.

Each component has the same three layers. A file of functions says on values what one critical
section does. A file of classes or loops, in the form the source has, is proved to do exactly that.
Files of lemmas prove what holds of every run of those functions.

- **Bridge** (`Bridge*.dfy`): the Worker's `Host` object and the host's `session`, two state machines
  joined by a FIFO channel each way. `BridgeWorker` and `BridgeSession` are the two ends,
  `BridgeSystem` the product with every interleaving of frames, settled awaits, client aborts,
  deadlines, handler moves, handler joins, key reloads, dropped sockets and reconnects. `BridgeLocal`
  is the invariant: what one job looks like from both ends and both channels; `BridgeProgress` shows that
  nothing waits in vain, `BridgeHistory` and `BridgeVerdicts` tie what arrives and what clients are answered to
  the steps of the run, `BridgeGuards` is each end against any peer, and `BridgeEdges` what happens without the
  hypotheses below. `BridgeHost` and `BridgeClient` are the classes.
- **Limiter** (`Limits*.dfy`, `KeyState.dfy`, `Meters.dfy`, `Audio.dfy`, `AudioRuns.dfy`, `Images.dfy`,
  `ImageRuns.dfy`): a key's pruned log and meters against a ledger that forgets nothing; and a key's
  images under the run manager that starts, stops and releases them.
- **Queue** (`Queue*.dfy`, `SlotQueue.dfy`): slots in front of an engine, with hand-over and departure
  racing, and a cap read anew each time.
- **Pipeline** (`Pipeline*.dfy`): a key's requests going through limiter and queue and out of the one exit,
  with other keys' requests in the same queue. `Outcomes.dfy` names how a request ends, and
  `PipelineOutcomes` says what decides it.
- **Caps** (`Caps.dfy`): what of a chat's output cap is reserved and what leaves in its body.
- **Pure results** (`Diff*.dfy`, `Stream.dfy`, `StreamReply.dfy`, `HostToolReply.dfy`, `Container.dfy`, `Responses*.dfy`,
  over `Text.dfy`): the unified diff, the stream accumulator, WAV and FLAC durations, Responses to chat.

## Hypotheses

- Within one socket the channels are reliable and FIFO; job ids are fresh; a response's status is
  between 200 and 599; a host announces between 1 and 2^53 - 1 slots.
- An upload is enqueued on the negotiated socket it was admitted on. `BridgeEdges.EpochHypothesis`
  shows this is exactly what the code needs: an upload suspended at bridge/src/index.ts:317 across a
  reconnect can reach the queue before the Worker has seen the new socket's `keys`, and then the host
  ends the session (`BridgeEdges.EpochFails` is a reachable state in which it does).
- The host lists its keys successfully. `BridgeEdges.SlotlessKeys` says exactly when the code fails
  without this: the frame sent when the key store cannot be listed has no slot count, which the Worker
  reads as one; `BridgeEdges.SlotlessFails` is a reachable state.
- A request's path has well-formed percent escapes. The Worker does not check that. An upload it lets
  through, for which a slot is free, makes the host end the session, and everybody's jobs with it, if
  and only if its path has a malformed escape (`BridgeEdges.EscapeHypothesis`); a `GET /v1/%` does so
  in a reachable state (`BridgeEdges.EscapeFails`).
- The limiter's clock never goes back, and a key's limits do not change during a run. `reserve` is
  called on an admission that has no reservation yet; in the pipeline that is proved.
- Image job ids are new. That one generation runs at a time and that a job checked for its hold keeps it
  until it settles, or until a shutdown after which nothing is admitted, is proved (`ImageRuns.DayHolds`).

## What the code does differently from what it says

- A TPM refusal's Retry-After is exact only while the live reservations leave the request room. When
  they do not, it is 60 and no wait without a settlement is long enough (`LimitsTheorems.TokenRetryExact`;
  `LimitsTheorems.MinuteNeverFrees` is a run that ends there). Likewise after midnight
  (`LimitsTheorems.DayRetryExact`, `LimitsTheorems.DayNeverFrees`).
- Fitting the context grants the floor of 16 tokens even where the context has no room for them, so
  that prompt and cap can exceed it (`Caps.ContextFits`); and it raises a cap exactly when the context has
  no room for it and it is under 16 (`Caps.ContextRaises`). A context of 110, a prompt of 108 and a cap of
  5 show both (`Caps.FloorExceeds`).
- `tool_choice` is checked by alias alone, so that a function nobody declared is accepted exactly when a
  declared one has its alias, as when its bare name is the alias of a namespaced one; and then that other
  one is meant (`Responses.ChoiceIsDeclared`, `Responses.ChosenByAlias`).

## Model

| member | source | states |
|---|---|---|
| BridgeTheorems.StepKeeps | bridge/src/index.ts:346-523 | every step of either end, under any interleaving with the other, keeps the per-job invariant over both ends and both channels |
| BridgeTheorems.NoUnexpectedFrame | internal/bridge/client.go:248-363 | in every reachable state the next frame at either end is one that end accepts, no run has taken an "unexpected" or "invalid" branch (the 4 MiB body cap among them), and the dispatcher blocks on a `ready` only for a handler that has sent its `end` |
| BridgeTheorems.SlotsHold | internal/bridge/client.go:236-271 | active jobs, and handlers held by the host, are at most the negotiated slots, which are what the host announced up to 64; the host's jobs are active at the Worker or have their `ready` on the way; at most 4 wait, and only while every slot is taken |
| BridgeTheorems.BytesArrive | bridge/src/index.ts:450-480 | a handler runs on exactly the posted body; what the client stream accepted is a prefix of what the handler wrote, and all of it once closed on `end` |
| BridgeTheorems.NoByteMissing | internal/bridge/client.go:413-451 | what a handler has written is, in order, what the client has accepted, is being offered, is on the wire and is in the writer; the 100 ms flush leaves nothing there |
| BridgeHistory.StatusArrives | internal/bridge/client.go:404-411 | whatever status a client was answered with is the one its handler gave first: the first `WriteHeader`'s, or 200 when bytes or the end came first |
| BridgeHistory.RequestArrives | internal/bridge/client.go:290-299 | a handler runs on the method, path and bytes that were posted under its id |
| BridgeHistory.ResponseArrives | bridge/src/index.ts:405-485 | a response that was closed has the status and all the bytes its handler wrote |
| BridgeHistory.FirstPostedFirstStarted | bridge/src/index.ts:346-352 | whoever waits was posted after all who run and after those before it in the line |
| BridgeTheorems.OneChunkInFlight | internal/bridge/client.go:435-451 | no data frame on the wire is over 512 KiB and no job, cancelled or not, has two there; of a job not cancelled the frame on the wire, a chunk offered to the client and an `ack` on its way back exclude each other |
| BridgeTheorems.HeldOrAnswered | bridge/src/index.ts:329-344 | every job still held has a live timer, and every job that has left was answered and its timer cleared, its stream closed unless it was cancelled |
| BridgeAnswers.AnsweredOnce | bridge/src/index.ts:486-523 | no step forgets a job or changes an answer given: the first `resolve` is the last |
| BridgeVerdicts.AnswerIs | bridge/src/index.ts:486-523 | a client without an answer gets one exactly when its response begins, with that status; when its job fails, with what it failed with; when the host gives it up, 504; when the socket goes, 502 |
| BridgeVerdicts.TurnedAwayExactly | bridge/src/index.ts:326-344 | a host that is there turns an upload away if and only if every slot is taken and four wait |
| BridgeVerdicts.SmallTalk | bridge/src/index.ts:383-399 | a ping gets a pong, and the host's keys the slot count, and nothing else changes |
| BridgeVerdicts.StoppedExactly | internal/bridge/client.go:323-360 | the context of a running handler ends if and only if the Worker cancels the job, an acknowledgement does not come in time, the response ends in an error, the handler returns or the session is over |
| BridgeAnswers.NoneForgotten | bridge/src/index.ts:326-352 | every id ever admitted is active, waiting, or gone with an answer |
| BridgeAnswers.FreedAfterReturn | internal/bridge/client.go:202-204 | the host lets go of a job that had a handler only after the handler has returned, at the end of a session as well, which waits for all of them; and during a session only after its last word |
| BridgeProgress.NothingIsStuck | internal/bridge/client.go:432-451 | no deadlock: of every active job a frame is on its way, or its client stream is being offered a chunk, or its handler can go on without its deadline, or it is being joined |
| BridgeProgress.AckWillCome | internal/bridge/client.go:435-451 | a handler that waits for an ack, uncancelled, has its chunk or the ack in exactly one place: the wire down, the client's stream, the wire up, the ack channel |
| BridgeProgress.WaitEnds | internal/bridge/client.go:349-360 | the dispatcher waits on a `ready` only for a handler whose next move is to return |
| BridgeGuards.HostIsGuarded | internal/bridge/client.go:248-363 | whatever frames a Worker sends, a session that stands holds no more jobs than it announced and none before the slots are negotiated, each with a good id, method and path and at most 4 MiB |
| BridgeGuards.WorkerIsGuarded | bridge/src/index.ts:374-485 | whatever frames a host sends, a Worker that has not severed it keeps at most 64 active and 4 waiting jobs, answers with statuses from 200 to 599 and gives no stream bytes before its response or over 512 KiB at once |
| BridgeEdges.EpochHypothesis | bridge/src/index.ts:310-344 | an upload enqueued on a live socket makes the host end the session if and only if the Worker has not seen that socket's `keys` |
| BridgeEdges.EpochFails | bridge/src/index.ts:310-344 | a reachable state, a host just reconnected, in which any upload does that |
| BridgeEdges.SlotlessKeys | internal/bridge/client.go:78-98 | the slotless `keys` frame of a failed listing is refused by the Worker if and only if another slot count than one is in force |
| BridgeEdges.SlotlessFails | internal/bridge/client.go:78-98 | a reachable state, two slots in force, in which it is |
| BridgeEdges.EscapeHypothesis | internal/bridge/client.go:290-299 | an upload that the Worker lets through, with any body, for which a slot is free and whatever is on the wire before it, leads to an error at the host if and only if its path has a malformed percent escape; then the host need only read on |
| BridgeEdges.BadEscapeAdmitted | bridge/src/index.ts:148-155 | the path `/v1/%` meets the Worker's conditions and has such an escape |
| BridgeEdges.EscapeFails | internal/bridge/client.go:290-299 | from a reachable state with a free slot a `GET /v1/%` ends the session |
| BridgeEdges.EscapesExactly | internal/bridge/client.go:295-299 | escapes are well-formed if and only if each percent sign before the query is followed by two hexadecimal digits |
| BridgeHost.Host.Start | bridge/src/index.ts:353-373 | sends head, body in 512 KiB chunks and end, which together are the posted bytes |
| BridgeHost.Host.Next | bridge/src/index.ts:346-352 | starts waiting jobs in order while slots are free |
| BridgeHost.Host.Enqueue | bridge/src/index.ts:326-344 | 503 without a socket, 429 with four waiting, else the job joins and may start |
| BridgeHost.Host.Fail | bridge/src/index.ts:486-505 | the first failure of a job answers it; a waiting job leaves, an active one stays until its cancel is confirmed |
| BridgeHost.Host.Disconnect | bridge/src/index.ts:506-523 | every job held is answered and gone, and the slot count forgotten |
| BridgeHost.Host.Connect | bridge/src/index.ts:289-295 | what the old socket left is answered before the new socket is taken |
| BridgeHost.Host.WebSocketMessage | bridge/src/index.ts:374-485 | a frame does what the Worker's specification says, and a frame it rejects severs the socket |
| BridgeHost.Host.Resume | bridge/src/index.ts:459-481 | the rest of a frame's handling once the stream operation it awaits has settled |
| BridgeClient.Session.Dispatch | internal/bridge/client.go:248-363 | one turn of the dispatcher's loop is the session's specification, blocking and errors included |
| BridgeClient.Session.Settle | internal/bridge/client.go:236-241 | a joined handler's job is deleted and its `ready` sent |
| BridgeClient.ResponseWriter.Write | internal/bridge/client.go:413-430 | bytes shipped and buffered grow by exactly what was written, in full chunks, unless an error ended it |
| BridgeClient.ResponseWriter.Flush | internal/bridge/client.go:435-451 | everything buffered leaves in one frame, and a missing ack is an error |
| BridgeClient.ResponseWriter.Finish | internal/bridge/client.go:452-463 | the rest is flushed and `end` is sent if and only if nothing went wrong |
| Limits.FitBudgetExact | internal/gateway/limits.go:230-263 | a request fits a ceiling if and only if none is set or used, prompt and floor are within it; what it gets is what it asked for or all the room |
| Limits.SecondsUntilExact | internal/gateway/limits.go:171-177 | the answer is the first whole second at or after the moment |
| LimitsLedger.StepKeeps | internal/gateway/limits.go:196-341 | every admission, reservation, settlement and look keeps the ledger's invariant |
| LimitsLedger.RemoveIsUncount | internal/gateway/limits.go:328-335 | removal by number from the pruned log uncounts that admission and no other, expired or not |
| LimitsTheorems.LogIsHistory | internal/gateway/limits.go:137-158 | the pruned, edited log is the whole history of admissions restricted to the last 60 s less the uncounted; likewise the charges |
| LimitsTheorems.RateCeiling | internal/gateway/limits.go:209-226 | no half-open 60 s window of any run holds more than RPM counted admissions |
| LimitsTheorems.MinuteCeiling | internal/gateway/limits.go:272-341 | charges of the last 60 s and live reservations are at most TPM and the overruns in the window |
| LimitsTheorems.DayCeiling | internal/gateway/limits.go:303-341 | the day's seed, charges and live reservations are at most the daily budget, or the seed if more, and the day's overruns, across midnight |
| LimitsTheorems.CountersAreSums | internal/gateway/limits.go:317-341 | `inFlight` and `reserved` are sums over the live admissions, and zero when there are none |
| LimitsTheorems.AdmittedExactly | internal/gateway/limits.go:196-227 | an admission is granted if and only if fewer than the allowed are live and fewer than RPM counted ones lie in the whole history's last 60 s |
| LimitsTheorems.AdmissionOutcome | internal/gateway/limits.go:196-227 | which refusal an admission gets: its slots are taken, whenever they are; else the minute is full, by the history, with a Retry-After that is exact; nothing else, and a refusal takes nothing |
| LimitsTheorems.ReservedExactly | internal/gateway/limits.go:272-311 | a reservation is granted if and only if prompt and floor fit both ceilings beside live reservations and the history's charges of the window and the day |
| LimitsTheorems.RateRetryExact | internal/gateway/limits.go:210-220 | after an RPM refusal that said s the same request is admitted after w seconds if and only if w >= s; `AdmissionOutcome` says when there is one |
| LimitsTheorems.TokenRetryExact | internal/gateway/limits.go:285-301 | after a TPM refusal that said s the minute lets it through after w seconds if and only if w >= s, when reservations leave room; else s is 60 and it never does |
| LimitsTheorems.DayRetryExact | internal/gateway/limits.go:303-306 | after a daily refusal that said s the request passes after w seconds if and only if w >= s and reservations leave room |
| LimitsTheorems.MinuteNeverFrees | internal/gateway/limits.go:285-301 | a run after which a TPM refusal says 60 and after any wait the request is refused again |
| LimitsTheorems.DayNeverFrees | internal/gateway/limits.go:303-306 | a run after which a daily refusal says midnight and after any wait the request is refused again |
| LimitsTheorems.ReserveOutcome | internal/gateway/limits.go:272-311 | which ceiling refuses and with what Retry-After, and that nothing else does |
| LimitsTheorems.GrantIsLargest | internal/gateway/limits.go:229-251 | the cap granted is the largest not over the one asked for that both ceilings have room for, and exactly prompt and cap are reserved |
| KeyState.KeyState.SeedToday | internal/gateway/limits.go:110-123 | the day restored from the usage log |
| KeyState.KeyState.Prune | internal/gateway/limits.go:137-158 | the loops over both logs drop exactly what has left the window |
| KeyState.KeyState.Used | internal/gateway/limits.go:161-169 | requests and tokens are the sums over the pruned logs |
| KeyState.KeyState.RetryAfter | internal/gateway/limits.go:286-299 | the walk over the log finds the charge whose expiry makes room, or 60 |
| KeyState.KeyState.AdmitResource | internal/gateway/limits.go:196-227 | new state and answer are those of the specification |
| KeyState.KeyState.Reserve | internal/gateway/limits.go:272-311 | new state and answer are those of the specification |
| KeyState.KeyState.Settle | internal/gateway/limits.go:317-341 | new state is that of the specification, the removal loop included |
| KeyState.KeyState.Counters | internal/gateway/limits.go:343-356 | the requests, tokens and day's tokens reported are the pruned sums and the live reservations |
| Meters.DayCeiling | internal/gateway/audio.go:237-265 | over every run a day's meter is its seed and charges, its holds those of the live calls, and together they stay within the limit but for the day's overruns |
| Meters.StrictCeiling | internal/gateway/audio.go:252-260 | a resource charged its hold or nothing, as speech is, never passes the day's limit, or its seed |
| Meters.HeldExactly | internal/gateway/audio.go:244-262 | a hold is put on if and only if the day's seed and charges, the live holds and it are within the limit |
| Meters.HoldRetryExact | internal/gateway/audio.go:244-251 | after a refusal the same hold is put on after w seconds if and only if w is at least its Retry-After and the other holds leave room |
| Audio.OverrunIsRecorded | internal/gateway/audio.go:373-401 | what is charged beyond the hold is exactly `OverrunSeconds`; speech is charged its hold or nothing |
| Audio.ChargeExactly | internal/gateway/audio.go:380-401 | what each call costs: nothing unsent; speech its hold or nothing; a transcription what the engine reported, or its hold when cut, left or unreported |
| Audio.AudioMeters.ReserveAudio | internal/gateway/audio.go:237-265 | a hold on one meter, refused with the seconds to midnight; the other meter only rolls |
| Audio.AudioMeters.SettleAudio | internal/gateway/audio.go:373-401 | the hold goes back and the charge is the call's, on its own meter |
| AudioRuns.AudioCeilings | internal/gateway/audio.go:237-265 | over every run of transcriptions and speech the day's seconds and holds stay within the budget, or the seed, and the `OverrunSeconds` recorded that day; its characters and holds within theirs altogether |
| AudioRuns.Step | internal/gateway/audio.go:373-401 | the two meters of the object move as those of the run |
| Images.TwoChargedFailures | internal/gateway/images.go:574-595 | between a success and the next at most two generations that produced nothing are charged, whoever's they are |
| Images.FirstTwoCharged | internal/gateway/images.go:574-595 | when none failed for certain, exactly the first two are charged |
| Images.ChargedExactly | internal/gateway/images.go:585-588 | a stored image is charged, suspect or not; a failure exactly when it was abandoned, not oversized, on an engine not suspect |
| Images.BackoffIs | internal/gateway/images.go:645-660 | the delay is the base doubled once per failure from the second on, up to 15 times the base |
| Images.DelayNeverFalls | internal/gateway/images.go:651-659 | until a success the delay never falls and, once there is one, lies between the base and 15 times it |
| Images.RetryIs | internal/gateway/images.go:633-660 | after a success the engine is tried at once; from the second failure since it on, when the delay has passed since the last |
| ImageRuns.DayHolds | internal/gateway/images.go:511-595 | under every run of batches, checks, settlements, stops, releases and shutdown the day's images and all that may still be charged never exceed the daily limit, or the seed on its day; until a shutdown a checked job keeps its hold till it settles; one worker runs at a time |
| ImageRuns.HeldExactly | internal/gateway/images.go:531-548 | the day's images are its seed and the charges of that day, and a batch is held if and only if these, the holds and the batch are within the limit |
| ImageRuns.ReleasedExactly | internal/run/manager.go:132-137 | which hold each event takes away, and who works and has the worker after it |
| ImageRuns.RunManager.SubmitBatch | internal/run/manager.go:93-131 | the batch is held and its releases kept, or given back when the store refuses it; nothing after a shutdown |
| ImageRuns.RunManager.Return | internal/run/manager.go:211-230 | a worker that returns releases its job |
| ImageRuns.RunManager.StopTerminal | internal/run/join.go:17-29 | a stopped job is released only if it has no worker |
| ImageRuns.RunManager.Close | internal/run/manager.go:527-532 | the loop calls every release there still is |
| Images.BatchRetryExact | internal/gateway/images.go:537-540 | a refused batch is held after w seconds if and only if w is at least its Retry-After and the other holds leave room |
| Images.Gate.RecordImageResult | internal/gateway/images.go:633-662 | the counters after a generation are those of the specification |
| Images.KeyImages.ReserveBatch | internal/gateway/images.go:531-555 | all of a batch is held, or none |
| Images.KeyImages.ReleaseReservation | internal/gateway/images.go:557-564 | exactly that job's hold goes |
| Images.KeyImages.ReserveImage | internal/gateway/images.go:565-573 | a job goes on if and only if it has its hold |
| Images.KeyImages.SettleImage | internal/gateway/images.go:574-595 | the hold goes, and one image is charged exactly when the specification says |
| Queue.FillExact | internal/gateway/queue.go:115-126 | slots go to a prefix of the line, never at or above the limit, until the line or the slots run out |
| Queue.StepKeeps | internal/gateway/queue.go:35-113 | arrivals, hand-overs, wake-ups, departures and releases in any order and at any cap keep the queue's invariant |
| QueueTheorems.SlotsConserved | internal/gateway/queue.go:35-113 | slots in use are those of holders and of waiters handed one who have not resumed; none stays with a request that has gone |
| QueueTheorems.FirstComeFirstServed | internal/gateway/queue.go:115-126 | grants follow arrival, at most one each, and nobody is granted a slot while an earlier request waits |
| QueueTheorems.CapHolds | internal/gateway/queue.go:35-50 | a slot is granted only below the cap read in that critical section, the line grows only to max(2, 2 x cap), and after an arrival or release nobody waits while there is room |
| QueueTheorems.NewcomerFate | internal/gateway/queue.go:35-50 | a newcomer gets a slot if and only if one is left after all who wait; is refused if and only if none is and max(2, 2 x cap) would still wait; else it waits, last |
| QueueTheorems.DepartureLosesNothing | internal/gateway/queue.go:56-67 | a waiter that gives up as it is handed a slot passes it to the oldest waiter when the cap has room, else returns it |
| QueueTheorems.LeftForGood | internal/gateway/queue.go:70-105 | a request that has decided to leave never holds a slot again |
| QueueTheorems.NobodyWaitsForNothing | internal/gateway/queue.go:118-129 | under a fixed cap nobody waits while a slot is free and the cap is never exceeded |
| SlotQueue.SlotQueue.Fill | internal/gateway/queue.go:118-126 | the loop closes exactly the channels of those the specification grants |
| SlotQueue.SlotQueue.Enter | internal/gateway/queue.go:36-50 | the first critical section of `acquire` |
| SlotQueue.SlotQueue.Depart | internal/gateway/queue.go:56-67 | the second: out of the line, or the slot handed on |
| SlotQueue.SlotQueue.Release | internal/gateway/queue.go:108-113 | a slot back to the oldest waiter or the pool |
| PipelineTheorems.PipelineIsSound | internal/gateway/request.go:170-197 | the limiter's ceilings and the queue's laws hold with requests in every stage, and everything taken has one owner |
| PipelineTheorems.EverythingGivenBack | internal/gateway/request.go:468-537 | when every request of the key is through the exit its slots and reservations are zero and the buffered bodies are other keys'; with none of those in the queue, its slots and line are empty |
| PipelineTheorems.FinishedHoldsNothing | internal/gateway/request.go:468-537 | a finished request holds nothing, whatever the others do |
| PipelineTheorems.OnlyTheTableRemains | internal/gateway/request.go:539-575 | an admission counts afterwards exactly when the settle table says; the charges are, one each, those of the settled requests the table charges |
| PipelineTheorems.TableLaws | internal/gateway/request.go:539-575 | what counts is a message the engine was asked for, an audio call it was sent and did not turn away as busy, or either that timed out in line; nothing else is charged, audio never here; a cut message without a stream is charged its reservation |
| PipelineTheorems.RejectedLeavesNothing | internal/gateway/request.go:539-575 | a request refused before the queue neither counts nor is charged, over every run |
| PipelineOutcomes.EventsDecide | internal/gateway/request.go:359-575 | what a settled request counts and costs is decided by what happened to it: answered and how, sent, or timed out in line - told from the events of the run alone |
| PipelineOutcomes.LineDecides | internal/gateway/queue.go:35-67 | a request whose place in the line was lost ends as that, and one that found the line full as refused |
| PipelineOutcomes.PassesExactly | internal/gateway/request.go:331-377 | in every reachable state a request passes admission, budgets and queue if and only if, by history and line, what it asks for is there |
| PipelineSteps.CheckBudgetsKeeps | internal/gateway/request.go:331-347 | `reserve` is called on a live admission that has no reservation, so once |
| PipelineSteps.SettleKeeps | internal/gateway/request.go:488-501 | whatever was admitted is found and settled at the exit |
| PipelineSteps.FreeSlotKeeps | internal/gateway/request.go:484-486 | a slot that was taken is there to release at the exit |
| Caps.ReservationIsAsked | internal/gateway/request.go:331-347 | a chat that passes holds its prompt and the smallest positive cap its body leaves with, which is at most max(key cap, 16) |
| Caps.ClampHolds | internal/gateway/proxy.go:214-242 | with a key cap the body has a cap and none over it |
| Caps.ClampKeeps | internal/gateway/proxy.go:214-242 | a cap within the key's is untouched, and so is everything else |
| Caps.ClampExact | internal/gateway/proxy.go:214-242 | each cap by itself: kept within the key's, else the key's; a body without any is given the key's; all else untouched |
| Caps.StripExact | internal/gateway/proxy.go:71-89 | overrides and caps that are no numbers are gone, and all else is as it was |
| Caps.FittedCapIs | internal/gateway/proxy.go:244-260 | a prompt is refused if and only if it alone is over the context; a cap there is room for stays, any other becomes the largest there is room for, or 16 when there is none for those |
| Caps.CapIsLargest | internal/gateway/request.go:331-347 | the cap a chat leaves with is the largest not over the one it came with that the minute and the day have room for |
| Caps.ContextFits | internal/gateway/proxy.go:244-260 | prompt and cap fit the context afterwards if and only if they did before or the floor has room |
| Caps.ContextRaises | internal/gateway/proxy.go:244-260 | fitting raises a cap if and only if the context has no room for it and it is under 16 |
| Caps.FloorExceeds | internal/gateway/proxy.go:244-260 | a prompt, cap and context for which it does both |
| Caps.EffContextIs | internal/gateway/proxy.go:262-273 | the context in force is within the key's and the model's own, and none only when none is given |
| Caps.SetCapSets | internal/gateway/proxy.go:277-290 | whichever fields carried a cap carry the new one, and it is the body's cap |
| Caps.ChatRequest.StripOverrides | internal/gateway/proxy.go:71-89 | the body without the override names and without caps that are no numbers, and the names removed, each once and in order |
| Caps.ChatRequest.ClampMaxTokens | internal/gateway/proxy.go:216-242 | the body clamped, and the cap in force is its smallest |
| Caps.ChatRequest.SetMaxTok | internal/gateway/proxy.go:277-290 | body and record as specified |
| Caps.ChatRequest.FitContextTo | internal/gateway/proxy.go:248-260 | body and record as specified, or the prompt refused |
| Caps.ChatRequest.Reserve | internal/gateway/request.go:335-347 | the key reserves, and the cap granted is written into the body |
| DiffTheorems.RoundTrip | internal/agent/diff.go:13-85 | a diff not cut short reads back as a hunk with true header counts, whose old side is the lines of `before` it names, and which turns `before` into `after` byte for byte |
| DiffTheorems.DiffIsBounded | internal/agent/diff.go:49-63 | no diff is over 64 KiB, for any input |
| DiffTheorems.TruncationIsVisible | internal/agent/diff.go:49-63 | the last line of a diff is the marker if and only if it was cut short |
| DiffTheorems.HunkIsTight | internal/agent/diff.go:30-40 | three lines of context where there are three, and what changes begins and ends with a difference |
| DiffTheorems.HunkInOrder | internal/agent/diff.go:63-85 | kept lines, then those gone, then those that came, then kept lines |
| DiffTheorems.WrittenExactly | internal/agent/diff.go:13-62 | a diff is written if and only if both are text of at most 64 KiB and differ; it is whole if and only if that leaves room for the marker, else as many entries as do and the marker |
| DiffWriter.WriteDiff | internal/agent/diff.go:13-85 | the loops compute the specified diff, or none |
| DiffWriter.SplitLines | internal/agent/diff.go:22-28 | the lines, each with its newline, and no empty last one |
| Stream.PiecesDoNotMatter | internal/gateway/host_tools.go:96-161 | however the bytes are cut, content, reasoning, calls, finish state, deltas and error are those of the whole stream, and what waits is the suffix after the last newline |
| Stream.TwoWaysAgree | internal/gateway/host_tools.go:96-161 | two ways of cutting the same stream give the same reply |
| StreamReply.ReplyIs | internal/gateway/host_tools.go:96-161 | content, reasoning, the observer's deltas, each call's arguments, the number of calls, the reason and whether it is finished are those of the choices in the complete lines, in order |
| StreamReply.ErrorIs | internal/gateway/host_tools.go:96-161 | a stream that never overflowed fails with the first thing wrong in it, and only then |
| StreamReply.OverflowIs | internal/gateway/host_tools.go:96-100 | it overflows if and only if some piece with what still waits for its newline is over the limit |
| StreamReply.PayloadIs | internal/gateway/host_tools.go:107-111 | the payload of a line is what follows `data:`, trimmed |
| Stream.ObserverSawEverything | internal/gateway/host_tools.go:133-158 | without an error content and reasoning are the deltas the observer got joined together, no delta holds a tool call, and there are at most 16 calls |
| Stream.DrainLeaves | internal/gateway/host_tools.go:101-106 | unless it ended in an error, what waits after all complete lines is what follows the last newline |
| Stream.ArgumentsAssemble | internal/gateway/host_tools.go:136-152 | each call's arguments are its own pieces in order, however calls are interleaved |
| Stream.NamesAssemble | internal/gateway/host_tools.go:143-149 | an identifier or name that comes with one piece or with every piece is in the call once |
| StreamReply.PiecesJoin | internal/gateway/host_tools.go:143-149 | an identifier and a name that come in pieces are the pieces joined |
| Stream.NoReasonNoFinish | internal/gateway/host_tools.go:112-132 | `[DONE]` does not finish a reply whose engine never gave a reason |
| Stream.DoneFinishes | internal/gateway/host_tools.go:112-115 | a `[DONE]` line finishes a reply that has a reason |
| HostToolReply.HostToolReply.Consume | internal/gateway/host_tools.go:96-161 | the loop over complete lines is the specification's |
| HostToolReply.HostToolReply.AddCalls | internal/gateway/host_tools.go:136-152 | each piece lands on the call it names, made room for first |
| Container.WaveDuration | internal/gateway/audio_duration.go:17-54 | for every list of well-formed chunks the file is measured if and only if its formats are valid and its data whole frames, and then it is frames over sample rate |
| Container.FlacDuration | internal/gateway/audio_duration.go:9-16 | a STREAMINFO of section 8.2 of RFC 9639 is measured as total samples over sample rate, when it states both |
| Container.MeasuredExactly | internal/gateway/audio_duration.go:8-55 | for every byte string: it is measured if and only if it is a FLAC file that states both or a WAV file of well-formed chunks that plays |
| Container.FormatExactly | internal/gateway/audio_duration.go:30-44 | a format is valid if and only if it is integer or float samples of whole bytes whose frame size and byte rate follow from channels, rate and width |
| Container.ContainerSeconds | internal/gateway/audio_duration.go:8-55 | terminates within bounds on every byte string, with the specified result |
| Container.Chunks | internal/gateway/audio_duration.go:24-50 | the position loop is the walk over what lies between header and end |
| Responses.EachItsOwnAlias | internal/gateway/responses.go:44-55 | declarations are accepted if and only if all names are valid and no two share an alias, and then aliases lead back one to one |
| Responses.NoFunctionTwice | internal/gateway/responses.go:143-146 | no function is declared twice |
| Responses.AliasesAreNames | internal/gateway/responses.go:44-55 | accepted declarations have aliases that are names; a bare function keeps its own |
| Responses.OrderDoesNotMatter | internal/gateway/responses.go:332-346 | `historyName` gives the same answer in every iteration order: the one match, or a refusal when there is none or more |
| Responses.ChoiceIsDeclared | internal/gateway/responses.go:194-205 | a function is accepted if and only if a declared one has its alias, and the one meant is that one: the same if it was declared, another if not |
| Responses.ChosenByAlias | internal/gateway/responses.go:198-204 | that this happens |
| ResponsesInput.TranslationKeepsMeaning | internal/gateway/responses.go:218-276 | the translation is refused if and only if some item is; taken apart, its turns are the non-reasoning items in order; no two turns of calls are adjacent |
| ResponsesInput.WholeInput | internal/gateway/responses.go:210-281 | the same of a whole request, given as items; given as text, it means the one message of the user with that text; anything else is refused |
| ResponsesInput.WholeBegins | internal/gateway/responses.go:210-221 | the instructions come first, as the system's, and a text is the user's |
| ResponsesInput.ChatReturns | internal/gateway/responses.go:210-281 | any chat of the roles an engine knows, in which no two turns of calls are adjacent, written as input, is translated to itself |
| ResponsesInput.RolesAre | internal/gateway/responses.go:232-239 | user, assistant and system are kept, developer is system, and any other role is refused |
| ResponsesInput.UnderstoodExactly | internal/gateway/responses.go:222-275 | an item is refused if and only if it lacks what it needs: a role, content, an id, arguments, or exactly one declared function of its name |
| ResponsesInput.CallMeansDeclared | internal/gateway/responses.go:245-263 | a call's alias leads back to the one declaration its name matches |
| ResponsesInput.Adapter.DeclareAll | internal/gateway/responses.go:133-155 | the declaration loop is the specification's |
| ResponsesInput.Adapter.HistoryName | internal/gateway/responses.go:332-346 | the loop over the map in no particular order finds what any order finds |
| ResponsesInput.Adapter.TranslateInput | internal/gateway/responses.go:218-276 | the loop that edits the last turn in place is the specification's |
| ResponsesInput.Adapter.TranslateBody | internal/gateway/responses.go:210-281 | instructions, then text or items, as specified, or a refusal |

## Left out

- The Worker's `Job` objects are values in `BridgeHost.Host`, so that what closures see through an alias (`onAbort`, timers, the writer's `closed` handler) is a step naming the job's id instead.
- A request's record is a value in `Pipeline`, because its methods are interrupted by those of other requests; the exit's three critical sections are three steps.
- The pipeline is that of one key and one destination; other keys' requests are in it as what they do to the queue and the body count, and a key's requests to other destinations are not.
- Failed sends on the bridge are dropped sockets; header filtering, key hashes, storage, hibernation, the rate counter, the registration and the pings' automatic answer are not modelled.
- Timers, deadlines, aborts and engine results are steps that may happen at any time, not durations.
- The four concurrent uploads (`reading`) and the `/v1/` route's admission before the queue are single-branch checks.
- Whether bytes are UTF-8, white space is trimmed, JSON decodes, content converts, and what a namespaced name hashes to are parameters.
- `runstate.MaxOutput` is not part of this model: the accumulator's limit is a parameter.
- Durations are exact fractions and audio amounts whole units: the rounding of floating point is not modelled.
- The RIFF arithmetic is on unbounded integers; no intermediate value of the source reaches 2^64.
- Search meters, image reads, the run manager, the key store, usage aggregation and the Responses output relay would add easy members or are not part of this model.
- The fields of a Responses request other than its tools and input (text format, reasoning effort, sampling) are copied one by one and not modelled.
- Model resolution and prompt text extraction are not modelled; token counts are inputs.
- KeyState.KeyState.Counters: does not report the search, image, audio and speech counters of the same snapshot, because those meters are objects of their own here (`Meters`, `Audio`, `Images`).
- Of the run manager only what concerns an image job's hold is modelled; the store, its states, recovery, priorities, joins and quarantines are not, and the job `schedule` picks is any.
