# AgentProgram: a verified model of its protocols

AgentProgram is a contract-driven workflow backend with an Electron client. This project models
the parts whose correctness depends on whole runs rather than on one function, and proves what
those parts are for. `dafny verify dfyconfig.toml` checks everything.

| module | what it models |
|---|---|
| `EventLog`, `EventBroker`, `EventTickets`, `EventSocket`, `EventProxy`, `EventProxyInputs`, `EventProxySwitch`, `Renderer`, `EventDelivery`, `EventSettling`, `EventOutOfOrder` | an event's way from the log to the window: publisher, deduplicating broker with bounded queues, one-time tickets, replay-then-live sockets that may die anywhere, the desktop proxy, the renderer; `EventDelivery` puts them together as one interleaved state machine, `EventSettling` shows that it can always recover, `EventOutOfOrder` what publication in the wrong order costs |
| `GovernanceState`, `GovernanceGates`, `GovernanceArtifacts`, `GovernanceStages`, `GovernanceHandoffs`, `GovernanceOrder`, `GovernanceOvertaken`, `GovernanceReleased`, `GovernanceLate`, `GovernanceCalls`, `GovernanceService` | quality gates, approvals, handoffs, change requests, artifact versions and stage runs of one workflow, under any sequence of calls; `GovernanceCalls` says of every call when it is accepted, what it leaves and under which code it is refused |
| `Ndjson`, `NdjsonLines` | the incremental line splitter against the one-shot one, and what the lines and frames of a response are |
| `Redaction`, `Replacement`, `SecretRegistry`, `Sanitizer`, `PythonText` | removal of registered secrets from text and structured values |
| `ContextWindow`, `ConversationRoom` | the context window and the rolling summary, together over many agent runs |
| `AgentRun`, `AgentRunEnds`, `AgentRunFrames` | one agent run: draft, reviews, reconciliation, frames and final status; how it ends in terms of what it meets, and what its frames show |
| `PathOrder`, `ProjectTree`, `Checkpoints`, `ProjectPaths`, `ProjectContext` | capturing a project, comparing and restoring checkpoints, path rules, packing files into a prompt |

Code that changes state is a class or a looping method, proved equal to a function of the old
state; what the program promises is proved about those functions over every input and every run.
What such a function computes is in turn characterised without it: which lines a text has, which keys
are masked, which findings a gate lists, which record a run leaves.

## What the code does not do

Where a property one would expect turned out false, the code is modelled as it is, a concrete
input is given, and the exact condition is proved.

- A checkpoint cannot be captured of every project. Directories are walked depth first in name
  order, but the checkpoint contract asks for paths in string order, so a project with `src/main`
  and `src.py` is refused (`ProjectTree.SiblingRefused`, exact condition in `ProjectTree.CapturableIff`).
  The contract also refuses names a file system allows: a file `a:b`, or one that starts with a blank at
  the top (`ProjectTree.NameRefused`, exact condition in `ProjectTree.NamesAcceptedIff`).
- Evaluating or approving a gate checks the stage, not the attempt: a superseded attempt can pass
  and complete the stage while its current attempt was never finished
  (`GovernanceOvertaken.SupersededAttemptPasses` gives a run of calls from a fresh workflow, exact condition in
  `GovernanceOrder.HandoffOrderlyIff`).
- In a completed workflow a superseded attempt can still wait for its approval. Approving it gives the last stage a
  second active handoff, rejecting it sets the finished workflow running (`GovernanceLate.LateApprovalHandsOffTwice`,
  `GovernanceLate.LateRejectionRuns`; for every call, exactly when it leaves the order: `GovernanceOrder.OrderKeptIff`).
- Registering an artifact version checks neither the attempt nor that the workflow is still running: after the
  workflow is completed, a superseded deployer attempt can supersede a version that the last handoff holds locked
  (`GovernanceReleased.DeployedVersionSuperseded`, exact condition in `GovernanceReleased.UnlockedIff`).
- A transition call may move a stage from waiting_approval to handoff_ready and on to completed, so
  a completed stage run has a handoff exactly when no such call was used (`GovernanceStages.CompletedHasHandoffIff`,
  a run in `GovernanceOvertaken.CompletedWithoutHandoff`).
- A gate that something blocks is accepted in a paused or completed workflow and sets it running
  (`GovernanceOvertaken.PausedSetRunning`, exact condition in `GovernanceGates.EvaluatedWhileNotRunning`).
- Streaming an agent run that already finished replaces its status and its output (`AgentRun.ResultOverwritten`);
  no settled result, not even a recorded refusal, is safe from it (`AgentRun.NoSettledResultIsSafe`). It survives
  exactly when the second stream cannot record its end, is cancelled before it reads the run, or would record what
  is there already (`AgentRun.SettledKeptIff`).
- The window looks at 64 messages only: with any settings, 65 short ones are not all kept, although the summary
  builder leaves them (`ConversationRoom.ManyDropped`, exact condition in `ConversationRoom.DropsNothingHereIff`).
- With at most 64 messages outstanding: the settings only order summary maximum, trigger and context maximum; that
  the window drops nothing needs summary maximum + trigger <= context maximum + 1 (`ConversationRoom.LosslessIff`,
  a run that drops a message otherwise in `ConversationRoom.CrowdedRoom`).
- The window reaches a room's newest message only up to 10 000 messages (`ConversationRoom.NewestMissed`,
  exact condition in `ConversationRoom.ReachesNewestIff`).
- Redaction removes a secret from every text exactly when it has no asterisk at either end and no
  three in a row (`Redaction.AlwaysRemovedIff`). A registry is idempotent exactly when no
  registered secret but the mask survives in any text (`Redaction.IdempotentIffRemovesAll`), and every choice of some
  secrets is exactly when each of them is of that kind or the mask itself (`Redaction.IdempotentIff`).
- The proxy keeps one cursor for all workflows: after a switch the history is whole exactly when
  none of it lies behind that cursor (`EventDelivery.WholeHistoryIff`, `EventProxySwitch.SwitchDropsOlderEvent`).
- The outbox does not promise to publish in log order. The socket's cursor loses a queued event exactly when
  first publications arrive out of order (`EventSocket.LosesNothingIff`, a whole run in
  `EventOutOfOrder.OlderEventLost`).

## Assumptions

- Event ids grow in commit order. The publisher may publish any committed event at any time and again; the
  delivery claims are about runs in which no event is published before all earlier ones have been (`RunInOrder`).
- A method that holds a lock, and a unit of work that commits, is one atomic step; a unit of work
  that raises changes nothing. A closed socket delivers nothing more.
- Hashes and random identifiers do not collide. `JSON.parse`, decoding of bytes and file reading are
  functions given from outside; a file's content stands for its hash and size.
- Clock readings, file contents, adapter streams and failures are inputs. Numbers from JavaScript are
  whole numbers of any size or fractions.
- `EventProxy.connecting` and `EventProxy.forwarded` record what the surrounding program sees: attempts
  under way and events sent to the window. `Gate.mode` and `Db.waved` in `GovernanceState` are history
  that the database does not store.

## Model

| member | source | states |
|---|---|---|
| EventBroker.RunFaithful | backend/src/agent_platform/application/events/streaming.py:88-124 | over every interleaving of publish, take, subscribe and unsubscribe: a registered subscriber was given plus holds exactly its workflow's accepted publications since it subscribed, a dropped one a prefix of them closed by the end marker at most; the dedup window is the last accepted ids; two acceptances of one id are more than the window apart |
| EventBroker.SentinelIsLast | backend/src/agent_platform/application/events/streaming.py:118-124 | the end marker is the last item a subscriber can ever receive |
| EventBroker.AtMostOnceInsideTheWindow | backend/src/agent_platform/application/events/streaming.py:106-110 | when a subscriber is given one event twice, now or later, the two come from acceptances more than the dedup window apart: an at-least-once publisher is at-most-once within the window |
| EventBroker.EventStreamBroker.Subscribe | backend/src/agent_platform/application/events/streaming.py:88-96 | a new subscription with an empty queue joins the others, which are unchanged |
| EventBroker.EventStreamBroker.Unsubscribe | backend/src/agent_platform/application/events/streaming.py:98-100 | exactly the named subscription is gone |
| EventBroker.EventStreamBroker.Publish | backend/src/agent_platform/application/events/streaming.py:102-124 | the in-place publication: window, queues and registrations change as one step of the run model, and a known id or an inconsistent id changes nothing |
| EventTickets.RunSingleUse | backend/src/agent_platform/application/events/streaming.py:45-75 | in every run at most `max_pending` tickets are held, none is redeemed twice, and each only for the workflow it was issued to |
| EventTickets.RedeemableUntilExpiry | backend/src/agent_platform/application/events/streaming.py:45-75 | an unused ticket followed by fewer than `max_pending` issues is redeemable exactly until it expires |
| EventTickets.EventTicketStore.Issue | backend/src/agent_platform/application/events/streaming.py:45-55 | prune, evict the oldest while full, append: the store's new contents as a function of the old |
| EventTickets.EventTicketStore.Consume | backend/src/agent_platform/application/events/streaming.py:57-70 | the entry leaves the store and its workflow is returned only if it has not expired; blank and overlong tokens change nothing |
| EventTickets.RedeemMeans | backend/src/agent_platform/application/events/streaming.py:57-70 | a blank token or one of more than 256 characters changes nothing and gives nothing; any other gives the workflow of the live ticket it names, and exactly the live tickets of other tokens stay |
| EventSocket.LosesNothingIff | backend/src/agent_platform/interfaces/api/routes/events.py:88-107 | draining a queue with a rising cursor loses no event exactly when first occurrences come in increasing order |
| EventLog.AboveMembers | backend/src/agent_platform/infrastructure/database/repositories.py:118-125 | a replay query covers exactly the workflow's events above the cursor |
| EventProxy.RunSupervisedInOrder | frontend/electron/event-proxy.ts:40-180 | for every sequence of calls, frames, closings and late connection attempts: forwarded ids strictly increase up to the cursor, and from the first watched workflow until the proxy is stopped there is exactly one of an open socket, an armed timer and a pending attempt |
| EventProxy.NothingOlderIsForwarded | frontend/electron/event-proxy.ts:161-167 | nothing at or below the cursor is forwarded later, whatever happens |
| EventProxySwitch.SwitchDropsOlderEvent | frontend/electron/event-proxy.ts:40-47 | a concrete run in which switching workflow makes the proxy drop an older event of the new workflow |
| EventProxy.DelayBounds | frontend/electron/event-proxy.ts:174 | reconnect delays never shrink from one attempt to the next, stay between 250 and 5000 milliseconds, and are 5000 from the sixth attempt on |
| EventProxyInputs.JudgeMeans | frontend/electron/event-proxy.ts:133-160 | an event is taken from exactly the frames that carry the right schema twice, one id of at least 1 twice, and a type; the greeting is skipped, a binary frame closes with 1003 and any other with 1007 |
| EventProxyInputs.ReceiveMeans | frontend/electron/event-proxy.ts:133-168 | a frame moves the cursor exactly to a newer event it carries, which goes to the window if there is one |
| EventProxyInputs.Backoff | frontend/electron/event-proxy.ts:170-180 | after n failures in a row the next one waits 250, 500, 1000, 2000, 4000 milliseconds, and 5000 from then on |
| EventProxyInputs.StartsOver | frontend/electron/event-proxy.ts:40-47 | an open socket or another workflow counts failures from none again, and another workflow also drops socket and timer and keeps the cursor |
| EventProxyInputs.ReplayMeans | frontend/electron/event-proxy.ts:49-58 | a replay raises the cursor if it is behind and reconnects a proxy without a socket; a fractional or negative cursor changes nothing |
| EventProxyInputs.StoppingMeans | frontend/electron/event-proxy.ts:60-69 | stopping drops socket and timer and outdates every attempt under way |
| EventProxyInputs.TimerMeans | frontend/electron/event-proxy.ts:174-179 | a timer that fires starts an attempt unless the proxy was stopped or has moved on |
| EventProxyInputs.ClosingArms | frontend/electron/event-proxy.ts:122-127 | closing the current socket waits like a failed attempt, closing any other does nothing |
| EventProxy.EventProxy.ObserveWorkflow | frontend/electron/event-proxy.ts:40-47 | choosing another workflow restarts the connection and keeps the cursor; choosing the same one changes nothing |
| EventProxy.EventProxy.Restart | frontend/electron/event-proxy.ts:71-83 | a new generation, no socket, no timer, and one new attempt unless stopped |
| EventProxy.EventProxy.ResumeConnect | frontend/electron/event-proxy.ts:90-131 | an attempt that ends: a socket for the current generation, nothing for an old one, a scheduled retry after a failure |
| EventProxy.EventProxy.OnClose | frontend/electron/event-proxy.ts:122-127 | only the current socket's closing clears it and schedules a retry |
| EventProxy.EventProxy.RequestReplay | frontend/electron/event-proxy.ts:49-58 | the cursor never moves back, a fractional or negative cursor is refused, and a proxy without a socket reconnects |
| EventProxy.EventProxy.Receive | frontend/electron/event-proxy.ts:133-168 | the in-place frame handler is the run model's step, malformed frames included |
| EventProxy.EventProxy.ScheduleReconnect | frontend/electron/event-proxy.ts:170-180 | at most one timer, never for an old generation or after stop |
| Renderer.RunReflectsLeaders | frontend/src/events/event-stream.ts:39-56 | over any events at all, the read model is determined by the well-formed events that exceed all before them: applied ids strictly increase, the cursor is the last of them, the recent list is the last 100 |
| Renderer.RunComplains | frontend/src/events/event-stream.ts:39-56 | the complaint shown is the last one, of schema or of form, since an event was applied; repeated events change nothing |
| Renderer.ReplayCursor.Evaluate | frontend/src/events/replay-cursor.ts:15-28 | the decision on an event and the cursor after it |
| Renderer.EventStream.Receive | frontend/src/events/event-stream.ts:39-56 | cursor and read model after one event |
| EventDelivery.NextGood | frontend/electron/event-proxy.ts:107-127 | every step of every component, a publication in order among them, keeps the delivery invariant that ties log, queues, sockets, proxy and window together |
| EventDelivery.RunGood | backend/src/agent_platform/interfaces/api/routes/events.py:68-97 | that invariant holds after every run that publishes first in log order, with any number of drops, reconnects, overflows and repeated publications |
| EventDelivery.ForwardedExactly | frontend/electron/event-proxy.ts:161-167 | the events forwarded since a workflow was chosen are exactly the log's events of it between the cursor then and the cursor now, in increasing order |
| EventDelivery.AppliedExactly | frontend/src/events/event-stream.ts:54 | the window has applied a prefix of what was forwarded; of the watched workflow, first or later, exactly the log between the cursor it was chosen at and the window's own cursor |
| EventDelivery.WindowBehindProxy | frontend/src/events/event-stream.ts:31-33 | the window's cursor never exceeds the proxy's, so asking for a replay skips nothing |
| EventDelivery.SettledIsComplete | backend/src/agent_platform/interfaces/api/routes/events.py:72-93 | once everything is published and delivered, nothing is missing, however many connections died on the way |
| EventSettling.RunCanSettle | frontend/electron/event-proxy.ts:99-131 | after any run with publication in order and a workflow watched, there are steps after which the stream is settled and everything of the workflow above the cursor it was chosen at has been forwarded |
| EventOutOfOrder.OlderEventLost | backend/src/agent_platform/infrastructure/database/outbox_store.py:44-61 | a run in which the newer of two events is published first: the stream settles and only the newer one was forwarded |
| EventDelivery.WholeHistoryIff | frontend/electron/event-proxy.ts:40-47 | a settled stream has shown the whole history of the chosen workflow exactly when none of it was behind the cursor when it was chosen |
| Ndjson.StreamPayload | frontend/electron/backend-client.ts:100-138 | for every way of cutting a response, the streamed reader succeeds exactly when the one-shot reader does, with the same frames, or none where that gives null for an empty response; on a failure it has handed out a prefix, all frames before the first bad line if that is the cause |
| Ndjson.SplitResumes | frontend/electron/backend-client.ts:113-121 | splitting may be resumed from the unfinished last line wherever the text was cut, between a carriage return and a newline included |
| Ndjson.EmitLines | frontend/electron/backend-client.ts:113-121 | what one call emits and what it keeps buffered |
| NdjsonLines.SplitIff | frontend/electron/backend-client.ts:89-92 | every text is lines and line ends, each "\n" or "\r\n", in exactly one way in which no line holds a newline or a return before a bare one, and splitting finds it |
| NdjsonLines.ReaderMeans | frontend/electron/backend-client.ts:79-95 | a response of such lines is refused above 16 777 216 bytes, is null when empty, fails when a visible line does not parse, and else gives one frame for each visible line, in order |
| NdjsonLines.SpacesDiffer | frontend/electron/backend-client.ts:91 | what the browser trims: exactly what Python strips but for four controls and the next-line sign, and with the byte order mark |
| Redaction.RedactRemoves | backend/src/agent_platform/infrastructure/redaction.py:51-56 | a secret without an asterisk at either end or three in a row survives in no redacted text, whatever else is registered and in whatever order |
| Replacement.ReplaceIff | backend/src/agent_platform/infrastructure/redaction.py:51-56 | replacing a secret is exactly this: taken into the parts between its occurrences from the left, the text keeps the parts and has the mask between them |
| Redaction.RedactIdempotent | backend/src/agent_platform/infrastructure/redaction.py:51-56 | if every registered secret is the mask or contains a registered one without an asterisk at either end or three in a row, redacting a redacted text changes nothing |
| Redaction.IdempotentIffRemovesAll | backend/src/agent_platform/infrastructure/redaction.py:51-56 | for each registry by itself, longest secrets first: redacting twice is redacting once on every text exactly when no registered secret but the mask survives in any redacted text |
| Redaction.StarsNotIdempotent | backend/src/agent_platform/infrastructure/redaction.py:51-56 | a registry that holds a secret of nothing but asterisks, other than the mask, is never idempotent, whatever else it holds |
| Redaction.IdempotentIff | backend/src/agent_platform/infrastructure/redaction.py:51-56 | every choice of some secrets, in any order, is idempotent on every text exactly when each of the secrets is the mask or has no asterisk at either end and no three in a row |
| Redaction.SecretBecomesMaskIff | backend/src/agent_platform/infrastructure/redaction.py:53-55 | in longest-first order a text that is exactly a secret becomes exactly the mask, however secrets contain one another, unless and only unless one or two asterisks are registered behind it |
| Redaction.AlwaysRemovedIff | backend/src/agent_platform/infrastructure/redaction.py:43-56 | a secret is removed from every text, whatever else is registered, exactly when it has no asterisk at either end and no three in a row |
| SecretRegistry.KnownWhileOpen | backend/src/agent_platform/infrastructure/redaction.py:26-48 | in every run a secret is known exactly while some registration of it is open, however often each is closed |
| SecretRegistry.RegisterMeans | backend/src/agent_platform/infrastructure/redaction.py:43-48 | a value is registered exactly if it is not blank, and then counted once more |
| SecretRegistry.KnownSecrets.Close | backend/src/agent_platform/infrastructure/redaction.py:31-40 | closing twice counts once; the last closing removes the secret |
| SecretRegistry.KnownSecrets.RedactText | backend/src/agent_platform/infrastructure/redaction.py:51-56 | the loop redacts with every known secret, longest first, and leaves none of the removable ones |
| Sanitizer.EntriesHide | backend/src/agent_platform/infrastructure/redaction.py:59-81 | no string value at any depth of a sanitized mapping contains a removable secret, and every sensitive key holds only the mask |
| Sanitizer.SensitiveIff | backend/src/agent_platform/infrastructure/redaction.py:10-20 | a key is sensitive exactly when it spells one of the seven names written out, letter by letter up to case |
| Sanitizer.SanitizeIff | backend/src/agent_platform/infrastructure/redaction.py:59-81 | for every value there is one result: texts redacted, values under credential keys masked, values that are no plain data left empty, and keys, lengths and all other values the same |
| ContextWindow.ContextBuilder.Build | backend/src/agent_platform/application/model_runtime/context.py:59-101 | the window is the longest suffix of the recent pending messages that fits the remaining budget, or the newest alone, and the models are shown exactly these messages in order, each in the role of its author, behind a system message that names the boundary and holds the summary; another room's message or summary is refused |
| ContextWindow.ContextBuilder.Choose | backend/src/agent_platform/application/model_runtime/context.py:80-89 | the backwards loop selects the longest fitting suffix |
| ContextWindow.SelectionUnique | backend/src/agent_platform/application/model_runtime/context.py:80-89 | there is only one such selection |
| ContextWindow.ShownUnique | backend/src/agent_platform/application/model_runtime/context.py:90-101 | there is one window that shows a summary and a selection |
| ContextWindow.DropsNothingIff | backend/src/agent_platform/application/model_runtime/context.py:78-89 | nothing pending is left out exactly when there are few enough messages and they fit, or there is only one |
| ContextWindow.SummaryAdvances | backend/src/agent_platform/application/model_runtime/context.py:111-148 | a new summary reaches strictly further, leaves exactly the last two pending messages, and its text is trimmed, not empty and within its maximum |
| ContextWindow.SummarizesIff | backend/src/agent_platform/application/model_runtime/context.py:111-132 | there is a new summary exactly when at least four messages are pending and together reach the trigger; a message of another room is refused |
| ContextWindow.SummaryCarries | backend/src/agent_platform/application/model_runtime/context.py:133-143 | it says what the old summary said and every absorbed message in order, by number, author and text: all of that when it fits, and else the trimmed end of it |
| ContextWindow.DecimalReads | backend/src/agent_platform/application/model_runtime/context.py:96 | the numbers written into these texts read back as the numbers, without a leading zero |
| ConversationRoom.RunConsistent | backend/src/agent_platform/application/model_runtime/runner.py:518-543 | over every run of appended messages and started runs: messages are numbered from one, and every summary of the room reaches strictly further than the one before and fits its size |
| ConversationRoom.PostingMeans | backend/src/agent_platform/application/workflows/service.py:335-410 | a posted text becomes a message of its author under the next number exactly if, stripped, it has 1 to 100 000 characters |
| ConversationRoom.StartingMeans | backend/src/agent_platform/application/model_runtime/runner.py:518-543 | a run rolls the summary and then posts its instruction as the user's; a refused instruction leaves no trace |
| ConversationRoom.RollingMeans | backend/src/agent_platform/application/model_runtime/runner.py:518-532 | rolling adds what the summary builder makes of the oldest 10 000 messages, and changes no other record |
| ConversationRoom.SettingsSuffice | backend/src/agent_platform/application/model_runtime/context.py:53-57 | whatever the settings accept the two builders accept, and in every room that comes about the summary leaves a budget |
| ConversationRoom.WindowAboveSummary | backend/src/agent_platform/application/model_runtime/runner.py:518-585 | every message is on one side of the boundary only: the window holds consecutive messages above the summary, up to the last one loaded |
| ConversationRoom.ReachesNewestIff | backend/src/agent_platform/application/model_runtime/runner.py:518 | the window reaches the newest message exactly while the room has at most 10 000 messages |
| ConversationRoom.NewestMissed | backend/src/agent_platform/application/model_runtime/runner.py:518 | posting 10 001 messages leads to a room whose window stops at the 10 000th |
| ConversationRoom.LosslessIff | backend/src/agent_platform/config/settings.py:156-159 | for all settings the program accepts: in every room that steps lead to from an empty one, with less than the trigger and at most 64 messages outstanding, the window drops nothing, exactly when summary maximum + trigger <= context maximum + 1 |
| ConversationRoom.DropsNothingHereIff | backend/src/agent_platform/application/model_runtime/context.py:77-89 | the condition of `ContextWindow.DropsNothingIff` for a whole room, reached or not: the window drops nothing exactly when at most as many messages are outstanding as it looks at and they fit what the summary leaves of the budget, or there is only one |
| ConversationRoom.ManyDropped | backend/src/agent_platform/application/model_runtime/context.py:78 | for all settings the program accepts: posting 65 one-character messages leads to a room whose window drops one that no summary covers |
| ConversationRoom.CrowdedRoom | backend/src/agent_platform/config/settings.py:95-97 | for all settings the program accepts there are steps from an empty room to one with a summary of full length and pending messages just below the trigger |
| AgentRun.FramesNumbered | backend/src/agent_platform/application/model_runtime/runner.py:280-464 | whatever the calls do, frames are numbered 1, 2, ..., n; a run that returns ends with its only completion frame, showing the recorded status, and one that raises shows none |
| AgentRun.SucceedsIff | backend/src/agent_platform/application/model_runtime/runner.py:302-431 | a pending run ends as succeeded exactly when it could be entered, made ready and recorded and the draft, every assigned review and the reconciliation produced content; its output is then the reconciled text, or the draft if nobody reviews |
| AgentRun.CallProducesIff | backend/src/agent_platform/application/model_runtime/runner.py:606-725 | a call produces its whole streamed text, trimmed, exactly when the adapter and the secret are there, the stream ends by itself uncancelled and within the size limit, and the text is not blank and can be stored |
| AgentRun.VerdictMeans | backend/src/agent_platform/application/model_runtime/runner.py:322-429 | a run that finishes its calls is failed exactly without a draft and then has no output; otherwise the output is the draft or the reconciled text, only success carries no error, and a formal run with a failed review keeps the draft |
| AgentRunEnds.StopMeans | backend/src/agent_platform/application/model_runtime/runner.py:659-684 | the loop over the chunks reads to the end exactly when no cancellation is seen and the text fits the limit in UTF-8; it stops for a cancellation exactly when the text before it fits |
| AgentRunEnds.SizeIsLeast | backend/src/agent_platform/application/model_runtime/runner.py:674 | a character counts the fewest bytes that reach it in UTF-8 |
| AgentRunEnds.SizeOfOne | backend/src/agent_platform/application/model_runtime/runner.py:674 | one character takes what it counts, the empty text nothing |
| AgentRunEnds.SizeConcat | backend/src/agent_platform/application/model_runtime/runner.py:674 | the size of joined texts is the sum of theirs |
| AgentRunEnds.CallEndsAs | backend/src/agent_platform/application/model_runtime/runner.py:588-726 | how every call ends, from what it meets alone: the exception, the trimmed text, or the code of the first thing that failed |
| AgentRunEnds.RunEndsAs | backend/src/agent_platform/application/model_runtime/runner.py:271-464 | how every pending run ends: without an exception the record of its calls; else the first exception decides, a cancellation as cancelled, a domain error under its code, a crash as internal failure; and when that cannot be recorded, the run stays as it was |
| AgentRunFrames.RunInPlace | backend/src/agent_platform/application/model_runtime/runner.py:271-464 | the frames of every run come in the order of the pipeline: start, each call's start, chunks and end in turn, error, completion |
| AgentRunFrames.CallFrames | backend/src/agent_platform/application/model_runtime/runner.py:629-726 | a call that was set up starts with its start frame and ends with its completion or its code unless it raised |
| AgentRunFrames.RunShows | backend/src/agent_platform/application/model_runtime/runner.py:271-464 | however a pending run ends, its frames show for every phase exactly the text kept of the call it made, and nothing for a call it did not make |
| AgentRunFrames.KeptIs | backend/src/agent_platform/application/model_runtime/runner.py:659-688 | what is kept of a stream is a prefix of it within the limit, and all of it when it was read to the end |
| AgentRunFrames.KeptExactly | backend/src/agent_platform/application/model_runtime/runner.py:659-688 | it is exactly the text of the chunks before the cancellation or the one that is too much, and nothing of a stream that was never asked for |
| AgentRunFrames.OutputWasStreamed | backend/src/agent_platform/application/model_runtime/runner.py:271-464 | the output of a run that succeeds is the text its last call streamed, trimmed |
| AgentRun.FormalSuccessHadFourCalls | backend/src/agent_platform/application/model_runtime/runner.py:179-186 | a successful formal run had all four calls succeed |
| AgentRun.StreamedTwice | backend/src/agent_platform/application/model_runtime/runner.py:432-490 | a run streamed twice ends as succeeded exactly when the first stream succeeded and the second could not record its end or was cancelled before it read the run, or the first failed before its commit without recording that and the second succeeded; a success is otherwise replaced by the failure named |
| AgentRun.SettledKeptIff | backend/src/agent_platform/application/model_runtime/runner.py:454-490 | another stream keeps a settled record exactly when it cannot record its end, is cancelled before it reads the run, or records the very failure that is there |
| AgentRun.NoSettledResultIsSafe | backend/src/agent_platform/application/model_runtime/runner.py:454-490 | for every settled record there is a stream that replaces it |
| AgentRun.ResultOverwritten | backend/src/agent_platform/application/model_runtime/runner.py:485-490 | with any output limit, a run that succeeded with a text, streamed again, is a failure without one |
| AgentRun.AgentRuntime.ReadChunks | backend/src/agent_platform/application/model_runtime/runner.py:658-686 | the chunk loop: pieces kept, frames handed out and the reason it stopped |
| AgentRun.AgentRuntime.StreamCall | backend/src/agent_platform/application/model_runtime/runner.py:588-725 | the frames and the outcome of one call |
| AgentRun.AgentRuntime.ReviewAll | backend/src/agent_platform/application/model_runtime/runner.py:332-431 | the reviews in turn and what follows from them |
| AgentRun.AgentRuntime.Reconcile | backend/src/agent_platform/application/model_runtime/runner.py:360-429 | what follows from the reviews: the reconciliation call, if any, and the verdict |
| AgentRun.AgentRuntime.Handle | backend/src/agent_platform/application/model_runtime/runner.py:432-462 | the record, the frames and the exception after each kind of error |
| AgentRun.AgentRuntime.Run | backend/src/agent_platform/application/model_runtime/runner.py:271-464 | the step-by-step run equals the function the properties are proved about, exceptions included |
| Checkpoints.HashesOf | backend/src/agent_platform/application/projects/changes.py:106-107 | the map of a valid checkpoint holds exactly its files |
| Checkpoints.DetectExternalChanges | backend/src/agent_platform/application/projects/changes.py:13-47 | the changes are strictly sorted by path, complete, and truthful: each holds both hashes and is called added, deleted or modified exactly if it is; checkpoints of different projects are refused |
| Checkpoints.PatchGivesCurrent | backend/src/agent_platform/application/projects/changes.py:24-47 | replaying the changes on the baseline gives the current files back |
| Checkpoints.EmptyIffSame | backend/src/agent_platform/application/projects/changes.py:27-28 | there are no changes exactly when the files agree |
| Checkpoints.DetectFileConflicts | backend/src/agent_platform/application/projects/changes.py:50-83 | the conflicts are strictly sorted, complete and truthful: each holds the three hashes of its path, no two of them the same |
| Checkpoints.ConflictsAreOrderDependence | backend/src/agent_platform/application/projects/changes.py:64-69 | the two orders of making the user's and the agent's changes differ at exactly the reported paths |
| Checkpoints.NoConflictsIffCommute | backend/src/agent_platform/application/projects/changes.py:50-83 | nothing is reported exactly when the two sides' changes commute, and then they give the three-way merge |
| Checkpoints.ConflictsSymmetric | backend/src/agent_platform/application/projects/changes.py:68 | user and agent may be exchanged |
| Checkpoints.BuildRestorePlan | backend/src/agent_platform/application/projects/changes.py:86-103 | sorted overwrites are the target paths whose current content differs, sorted extras the current paths the target lacks |
| Checkpoints.RestorePrepared | backend/src/agent_platform/infrastructure/projects/checkpoints.py:157-192 | a restore happens exactly when both checkpoints are of one project and the workspace still matches the protection checkpoint on the target's paths; it then writes every target file and deletes nothing |
| Checkpoints.RestoreThenReplan | backend/src/agent_platform/application/projects/changes.py:93-96 | after a restore the target's paths agree and all unplanned ones are untouched; planning again finds nothing to overwrite and the same extras |
| Checkpoints.RestoreLeavesExtras | backend/src/agent_platform/application/projects/changes.py:96 | a scan against the target after its restore lists exactly the extras, as added |
| PathOrder.Sorted | backend/src/agent_platform/application/projects/changes.py:24 | the elements of a set of paths in strictly increasing string order |
| PathOrder.AscendingUnique | backend/src/agent_platform/application/projects/changes.py:64 | there is only one such order |
| ProjectTree.Walk.Visit | backend/src/agent_platform/infrastructure/projects/checkpoints.py:260-304 | the depth-first walk appends exactly what the entries contribute, exclusions skipped |
| ProjectTree.CapturableIff | backend/src/agent_platform/domain/projects/models.py:261-268 | the walked paths are in strict string order exactly when no non-empty directory has a later non-empty sibling that extends its name below the slash |
| ProjectTree.ListedIff | backend/src/agent_platform/infrastructure/projects/checkpoints.py:260-304 | a walk lists exactly the files that names lead to past nothing excluded, each under the joined names and with its content |
| ProjectTree.SkipIff | backend/src/agent_platform/infrastructure/projects/checkpoints.py:649-655 | excluded is everything at or below the agent folder and the directories named, component by component |
| ProjectTree.NamesAcceptedIff | backend/src/agent_platform/domain/projects/models.py:241-243 | the checkpoint contract accepts every walked path exactly when no name on the way to a file is a dot or two or holds a backslash, a colon or a NUL, none at the top starts with a blank, and no file's name ends with one |
| ProjectTree.Create | backend/src/agent_platform/infrastructure/projects/checkpoints.py:67-101 | a checkpoint is created exactly if both hold, and holds the walked files; otherwise the path is reported before the order |
| ProjectTree.SiblingRefused | backend/src/agent_platform/infrastructure/projects/checkpoints.py:262-292 | a project with `src/main` and `src.py` is refused |
| ProjectTree.NameRefused | backend/src/agent_platform/domain/contracts/scalars.py:42-57 | a project with a single file `a:b`, or one whose name starts with a blank, is in order and still refused |
| ProjectPaths.CanonicalIff | backend/src/agent_platform/domain/contracts/scalars.py:42-57 | a path is accepted exactly when each of its components is plain and free of a backslash, a colon and a NUL, the first does not start and the last does not end with a blank |
| ProjectPaths.UnderIffPrefix | backend/src/agent_platform/application/tooling/service.py:626-627 | the string test for a path being a directory or below it holds exactly when the components of one begin the components of the other |
| ProjectPaths.UnderIsOrder | backend/src/agent_platform/application/orchestration/context.py:152-153 | that relation is an order whose upper sets are chains |
| ProjectPaths.ApprovedIff | backend/src/agent_platform/application/tooling/service.py:626-627 | a path is approved exactly when the components of some target begin its own |
| ProjectPaths.ApprovedIsDownward | backend/src/agent_platform/application/tooling/service.py:626-627 | what approves a path approves everything below it |
| ProjectPaths.ApprovedBelowAddsNothing | backend/src/agent_platform/application/tooling/service.py:626-627 | adding an already approved path to the approved ones approves nothing more |
| ProjectPaths.CanonicalStaysBelow | backend/src/agent_platform/domain/contracts/scalars.py:42-57 | an accepted path never climbs above where it is joined, and different accepted paths lead to different places |
| ProjectContext.Build | backend/src/agent_platform/application/orchestration/context.py:50-74 | the text holds the base and the sections of exactly the files that are eligible and fit behind those taken before, and a hash is recorded for exactly those |
| ProjectContext.PackingIs | backend/src/agent_platform/application/orchestration/context.py:50-74 | file after file, one that is plain UTF-8 text of at most 65 536 bytes without a null character is appended, headed by its path and digest, exactly when it fits the rest of the budget |
| ProjectContext.TextWithinBudget | backend/src/agent_platform/application/orchestration/context.py:50-74 | the text is never longer than the budget, or than the base text if that is longer |
| ProjectContext.NothingElseFits | backend/src/agent_platform/application/orchestration/context.py:68-73 | no eligible file that was left out would fit in the space left at the end |
| GovernanceGates.StatusMeans | backend/src/agent_platform/application/governance/service.py:265-345 | a gate fails exactly when a named version is not a draft of the run itself that the project file still agrees with, the latest formal run did not succeed, tasks are active or conflicts are open; it warns exactly when only the test command of a builder or reviewer stage is missing; otherwise it holds all the versions it was asked about |
| GovernanceGates.ArtifactIssuesMean | backend/src/agent_platform/application/governance/service.py:263-301 | which code a gate lists for which finding about a named version: missing, not a draft of the run, or changed since |
| GovernanceGates.ContextIssuesMean | backend/src/agent_platform/application/governance/service.py:302-343 | which code it lists for what else it finds; no code twice |
| GovernanceGates.AcceptedAre | backend/src/agent_platform/application/governance/service.py:299-301 | a gate accepts exactly the usable ones of the named versions, in their order |
| GovernanceGates.ResolutionMeans | backend/src/agent_platform/application/governance/service.py:344-356 | an autonomous gate that passes goes on by itself, a manual one that does not fail waits for approval, any other sends the stage back |
| GovernanceGates.EvaluateAddsOne | backend/src/agent_platform/application/governance/service.py:346-430 | every evaluation adds one gate and exactly one of an approval, a handoff and a change request, and leaves the stage run and the workflow in the matching state |
| GovernanceGates.DecideRecordsOne | backend/src/agent_platform/application/governance/service.py:478-545 | every decision settles approval and gate together and adds exactly one handoff or one change request |
| GovernanceGates.EvaluatedWhileNotRunning | backend/src/agent_platform/application/governance/service.py:411-427 | in a workflow that is not running an evaluation is accepted exactly when something blocks the gate or, in autonomous mode, only the test command is missing, and then sets the workflow running or held |
| GovernanceGates.RunSound | backend/src/agent_platform/application/governance/service.py:239-634 | in every run approvals, handoffs and gate change requests are in one-to-one correspondence with the gates that need them, and agree with their resolutions |
| GovernanceGates.HandoffsAreEarned | backend/src/agent_platform/application/governance/service.py:345-430 | in every run a handoff's gate passed in autonomous mode, or was evaluated without an error in manual mode and then approved |
| GovernanceGates.AcceptedMeansHandedOff | backend/src/agent_platform/application/governance/service.py:499-528 | in every run an approval is accepted exactly when its gate has a handoff |
| GovernanceGates.FailedGatesHaveNoApproval | backend/src/agent_platform/application/governance/service.py:499-503 | no approval ever targets a failed gate or one evaluated in autonomous mode |
| GovernanceArtifacts.NumberedWithoutGaps | backend/src/agent_platform/application/governance/service.py:191-211 | in every run the versions of an artifact are numbered from one without a gap |
| GovernanceArtifacts.RunVersions | backend/src/agent_platform/infrastructure/database/governance_repository.py:287-365 | in every run each version supersedes its direct predecessor, only an artifact's last version can be current, and nothing recorded about a version is ever rewritten |
| GovernanceArtifacts.RunFiled | backend/src/agent_platform/application/governance/service.py:157-190 | in every run there is one artifact a path, and one a trimmed, not empty and not too long name in each stage, below that stage's own folder; and artifacts are never renamed, moved or removed |
| GovernanceArtifacts.OneHandoffEach | backend/src/agent_platform/application/governance/service.py:836-868 | no artifact version appears in two handoffs, and a version carries a checkpoint exactly when one handoff holds it |
| GovernanceArtifacts.RecreateAddsNothing | backend/src/agent_platform/application/governance/service.py:191-198 | registering unchanged content again adds no version |
| GovernanceStages.CompletedHasHandoffIff | backend/src/agent_platform/domain/workflows/state_machine.py:20-23 | in every run a completed stage run has a handoff exactly when no transition call moved it to handoff_ready |
| GovernanceOrder.RunOrderly | backend/src/agent_platform/infrastructure/database/workflow_repository.py:159-294 | as long as gates are settled on current attempts only, every stage before the workflow's own is completed and every later one locked |
| GovernanceOrder.HandoffOrderlyIff | backend/src/agent_platform/application/governance/service.py:812-819 | a call that hands a stage off keeps that order exactly when the stage run it hands off is the current attempt or the workflow is already completed |
| GovernanceOrder.OrderKeptIff | backend/src/agent_platform/application/governance/service.py:478-545 | any call keeps that order exactly when it fails, settles no gate of a superseded attempt, hands off in a completed workflow, or hands nothing off in one that is not |
| GovernanceOvertaken.PausedSetRunning | backend/src/agent_platform/application/governance/service.py:411-427 | a workflow reached from a fresh one by calls alone, paused, that a gate without a usable artifact sets running |
| GovernanceOvertaken.SupersededAttemptPasses | backend/src/agent_platform/application/governance/service.py:812-819 | a workflow reached from a fresh one by calls alone, in order and running, in which evaluating a superseded attempt hands it off and moves to the next stage while the current attempt is not finished |
| GovernanceOvertaken.CompletedWithoutHandoff | backend/src/agent_platform/application/workflows/service.py:184-242 | a workflow reached from a fresh one by calls alone, in which a stage is completed and there is no gate and no handoff |
| GovernanceHandoffs.ActiveHandoffsHold | backend/src/agent_platform/application/governance/service.py:836-908 | in every run, whatever attempts the calls concern, an active handoff to a later stage comes from a stage before the workflow's own, all its versions are still locked, and it is the only one of its stage |
| GovernanceReleased.UnlockedIff | backend/src/agent_platform/application/governance/service.py:146-211 | among all calls, exactly a registration of changed content for an artifact whose latest version a handoff holds leaves the handoff, of any stage, active with a version that is no longer locked |
| GovernanceReleased.HandoffsStayLocked | backend/src/agent_platform/application/governance/service.py:836-908 | in every run whose registrations, evaluations and decisions concern current attempts, all versions of every active handoff, the last stage's included, are locked and no other active handoff is of its stage |
| GovernanceReleased.DeployedVersionSuperseded | backend/src/agent_platform/application/governance/service.py:146-156 | a completed workflow reached from a fresh one by calls alone, in which a superseded deployer attempt supersedes a version the last handoff holds |
| GovernanceLate.LateApprovalHandsOffTwice | backend/src/agent_platform/application/governance/service.py:478-528 | a completed workflow in order, reached from a fresh one by calls alone, in which approving a superseded attempt leaves two active handoffs of the last stage |
| GovernanceLate.LateRejectionRuns | backend/src/agent_platform/application/governance/service.py:529-545 | the same workflow, in which rejecting it sets the workflow running although its current attempt is done |
| GovernanceHandoffs.WithdrawalMeans | backend/src/agent_platform/infrastructure/database/governance_repository.py:339-458 | reopening a stage or requesting a change in it invalidates exactly the drafts and locked versions, and deactivates exactly the handoffs, from that stage on |
| GovernanceCalls.EvaluatesIff | backend/src/agent_platform/application/governance/service.py:239-451 | an evaluation is accepted exactly when its request is in order and, unless the gate sends the stage back, the workflow is running and an automatic gate can be finished |
| GovernanceCalls.DecidesIff | backend/src/agent_platform/application/governance/service.py:467-565 | a decision is accepted exactly when it is open and, for an approval, every version can still be locked, a checkpoint captured and the next stage opened |
| GovernanceCalls.FinalizesIff | backend/src/agent_platform/application/governance/service.py:825-927 | when a gate is finished and everything that leaves: versions locked with the checkpoint, one handoff of exactly them, the next stage opened or the workflow completed |
| GovernanceCalls.RegistersIff | backend/src/agent_platform/application/governance/service.py:132-228 | when a registration is accepted and everything it leaves: the artifact, and a next version on top unless the latest already has that content |
| GovernanceCalls.TransitionsIff | backend/src/agent_platform/application/workflows/service.py:184-242 | when a transition call is accepted and everything it leaves |
| GovernanceCalls.AllowedIff | backend/src/agent_platform/domain/workflows/state_machine.py:8-60 | the transition table: the next state of the pipeline, rework, recovery, or giving up on what is under way |
| GovernanceCalls.ReopensIff | backend/src/agent_platform/application/workflows/service.py:244-333 | a stage is reopened exactly when its current attempt is completed and no agent is active; then it and all later stages have new attempts, and their versions and handoffs are withdrawn |
| GovernanceCalls.RequestsIff | backend/src/agent_platform/application/governance/service.py:573-634 | a change is requested of a stage up to the current one, and withdraws versions and handoffs from that stage on |
| GovernanceCalls.StartMeans | backend/src/agent_platform/infrastructure/database/workflow_repository.py:138-157 | only a workflow that was just created is started |
| GovernanceCalls.ModeMeans | backend/src/agent_platform/application/governance/service.py:98-131 | the mode can be chosen unless the workflow has ended |
| GovernanceCalls.ControlMeans | backend/src/agent_platform/application/governance/service.py:642-721 | a workflow under way can be paused, and only a paused one resumed; nothing but the status changes |
| GovernanceCalls.EndingMeans | backend/src/agent_platform/application/governance/service.py:642-721 | stopping and abandoning end the workflow and its current attempt, unless it has ended |
| GovernanceCalls.FoldersApart | backend/src/agent_platform/application/governance/service.py:150-157 | the folders of the five stages lie apart: no path serves two stages |
| GovernanceCalls.RegistrationRefused | backend/src/agent_platform/application/governance/service.py:132-190 | the code of every refused registration, exactly |
| GovernanceCalls.EvaluationRefused | backend/src/agent_platform/application/governance/service.py:239-262 | the code of an evaluation refused before the gate is judged |
| GovernanceCalls.DecisionRefused | backend/src/agent_platform/application/governance/service.py:467-515 | the code of a decision refused before its gate is finished |
| GovernanceCalls.FinishRefused | backend/src/agent_platform/application/governance/service.py:825-870 | the first version that cannot be locked decides the code, then the checkpoint |
| GovernanceCalls.ObstacleMeans | backend/src/agent_platform/application/governance/service.py:825-870 | the code of a version that cannot be locked: not a draft, no artifact, no file, or changed since |
| GovernanceCalls.MoveRefused | backend/src/agent_platform/application/workflows/service.py:184-270 | the code of a refused transition or reopening |
| GovernanceCalls.MoveStageRefused | backend/src/agent_platform/infrastructure/database/workflow_repository.py:159-240 | the code under which a stage is not moved |
| GovernanceCalls.ControlRefused | backend/src/agent_platform/application/governance/service.py:573-721 | the codes of the other refused calls |
| GovernanceService.Service.CreateArtifactVersion | backend/src/agent_platform/application/governance/service.py:132-228 | the step-by-step call equals the state machine's step, every refusal included |
| GovernanceService.Service.EvaluateGate | backend/src/agent_platform/application/governance/service.py:239-451 | the step-by-step call, with its loops over versions and issues, equals the state machine's step |
| GovernanceService.Service.DecideGateApproval | backend/src/agent_platform/application/governance/service.py:467-565 | the step-by-step call equals the state machine's step; a failure leaves every record alone |
| GovernanceService.InspectAll | backend/src/agent_platform/application/governance/service.py:263-301 | the loop over the named versions: issues and accepted versions in the order asked for |
| GovernanceService.FinalizeGate | backend/src/agent_platform/application/governance/service.py:825-927 | the first version that cannot be locked decides the failure; otherwise lock, checkpoint, hand off and complete |
| GovernanceService.LockVersions | backend/src/agent_platform/infrastructure/database/governance_repository.py:320-337 | exactly the named versions are locked with the checkpoint |

## Left out

- EventDelivery.RunGood: one window subscribed from the start is modelled; several windows would each see the same forwarded events.
- EventBroker.EventStreamBroker.Publish: asyncio queue waiters and task scheduling are not modelled; each locked body is one step.
- EventTickets.RunSingleUse: tickets are keyed by the token itself, the digest being taken as injective.
- EventProxy.RunSupervisedInOrder: ticket requests to the sidecar and WebSocket close codes are not modelled beyond succeeding, failing or coming too late.
- SecretRegistry.KnownSecrets.RedactText: the order among secrets of equal length is not fixed; the contract holds for any such order.
- Redaction.RedactIdempotent: sufficient only; the exact condition for one registry, `Redaction.IdempotentIffRemovesAll`, speaks of what survives and not of the secrets' characters alone.
- Redaction.IdempotentIff: exact for all choices of the secrets together; for one registry see `Redaction.IdempotentIffRemovesAll`.
- Sanitizer.EntriesHide: values of types the sanitizer drops are one case, and two keys with the same text keep the last value.
- ContextWindow.SummaryAdvances: the summary's digest, id and timestamp are not modelled.
- ConversationRoom.LosslessIff: a room may be written to whenever a step says so; when the workflow allows that is not modelled.
- ConversationRoom.RunConsistent: room archiving and message kinds are not modelled, only the order and numbering of messages.
- AgentRun.SucceedsIff: token counts, prompts and the review material are not modelled, and what each call meets is given independently.
- AgentRun.AgentRuntime.Run: the registry that refuses a second concurrent execution, a consumer that closes the stream early (which leaves the run running) and a failing clean-up of a cancelled call are not modelled.
- ProjectTree.Create: size and count limits, links and unreadable entries are not modelled, nor are names that are not valid Unicode, which the checkpoint contract refuses.
- Checkpoints.RestorePrepared: a file standing where the target needs a directory, and a failure in the middle of writing, are not modelled.
- ProjectContext.Build: the ordering of files by priority and the walk that finds them are not modelled; the loop is proved for every order.
- ProjectPaths.CanonicalStaysBelow: resolution is lexical; symbolic links and the operating system's path rules are not modelled.
- GovernanceGates.StatusMeans: a gate lists its accepted versions in the order asked for; a gate read back from the database lists them in id order.
- GovernanceService.Service.DecideGateApproval: optimistic version numbers, which only make more calls fail, and rooms, tasks, events and timestamps are not modelled.
- Transition, reopen, change request and control calls are functions on the records rather than methods; they have no loop beyond one database statement.
- Recovery after a restart, capability requests, tool calls and the orchestration of plans.
- The outbox, its leases, backoff and dead letters, beyond the order in which it publishes; model adapters; secret stores; database migrations; user interface.
