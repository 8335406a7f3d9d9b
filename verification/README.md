# yuubot: verified models of the stateful protocols

This project models the parts of yuubot whose correctness depends on more than one function at a time, and
proves properties of them over every input, every run or every reachable state.

| component | model and theorems | the code's objects and loops |
|---|---|---|
| runtime task tree and delivery | `TaskModel`, `TaskTree`, `TaskTheorems`, `TaskNotices`, `TaskOutcome`, `TaskDelivery`, `TaskPosting`, `TaskCancel`, `TaskDescent` | `TaskRuntime` |
| terminal display buffer | `PtyScreen`, `PtyTheorems`, `PtyCursor` | `PtyDisplay` |
| completion stream to events to messages | `StreamModel`, `StreamTheorems`, `StreamChoices` | `StreamRuntime` |
| incremental history of the Responses API | `ResponseHistory`, `HistoryWire`, `HistoryRuns` | `HistoryRuntime` |
| two levels of fallback | `Fallback` | `Fallback` (methods) |
| run gate and interrupts | `RunGate` | `RunGate.ConversationGate` |
| conversation replication to the browser | `Replication`, `Recovery`, `RecoveryRuns` | `ReplicationRuntime` |
| expiring index of finished records | `ExpiringModel` | `ExpiringIndexClass` |
| kernel pools and their limiter | `PoolModel` | `KernelPools` |
| turn limits | `TurnLimits` | `TurnLimits` (classes) |
| webhook rate limit | `RateLimiter` | `RateLimiter` (class) |

`Basics` holds the shared vocabulary. Each protocol is a state with one transition for each stretch of code
between two points of suspension, but where "Left out" says otherwise; runs are all finite sequences of enabled
transitions, so every interleaving of the coroutines is covered. The code's own objects are classes whose methods change fields in place, with
the code's loops; each method is proved to do the transition or to compute the function the theorems are about.
What each transition and function comes to is stated a second time in the terms of the code's own fields, by the
lemmas and predicates whose names end in "Exact" and the modules `TaskOutcome`, `TaskPosting`, `PtyCursor`,
`StreamChoices` and `HistoryWire`.

Clock readings, randomly drawn ids and tokens, what a model or an endpoint answers, and where interrupts
arrive are parameters. `PtyScreen` takes the predicate "is a letter" as a parameter and reads ASCII digits.

## What turned out not to hold

Each of these is a lemma with the exact condition, and a run or state in which it happens.

* A parent whose own work failed or was cancelled waits for its children on an event that a finishing child
  only sets while the parent still accepts children. It then sleeps until another cancellation covers it, which
  ends the wait (`TaskNotices.LastChildStrands`, `StrandingHappens`, `StrandedStays`, `StrandedWakes`).
* A cancel request does not mean that the record is or will be "cancelled": one that comes after the end is only
  noted (`TaskOutcome.LateCancel`). What decides is whether it is there when the record becomes terminal
  (`TaskOutcome.DecidedAtTheEnd`).
* `listener.py:170` says that a gap after an overflow triggers a snapshot. It does exactly when the client is
  not already waiting for one. Otherwise the snapshot it waits for may be among the frames thrown away, and the
  client stays behind until it reconnects or its conversation is opened again. Nor does it ask again when its
  request is refused because the conversation or its actor is not found (`ws.py:363-370`). A snapshot of any
  conversation empties the queue of all of them (`listener.py:165-166`), so opening another conversation on the
  same socket is enough, without an overflow; the web client here opens one socket for each conversation, so
  that takes another client of the socket interface. `Recovery.StepSticks` says for every step exactly when it
  leaves a client waiting for a snapshot that is not coming, `StuckForever` that it stays behind,
  `QuietRunsConverge` exactly when a client left alone comes up to date if its requests are served,
  `EvenIfRefused` and `RefusalsShow` exactly when it does so even if they are refused, and
  `RecoveryRuns.SlowSocketSticks`, `RefusalSticks` and `OtherOpeningSticks` give runs that get there.
* An error frame has no version. Put into a full queue it throws away the newest version, and the client does
  not learn that it is behind until the next version: `Recovery.StepUnaware` has the exact condition,
  `RecoveryRuns.ErrorLeavesUnaware` the run (`listener.py:109-115`, `169-172`).
* An append is in memory before it is stored, and a run that is cancelled or fails during the write loses it
  (`loop.py:587-592`, `history.py:80-102`) while the conversation lives on. The live conversation is not harmed
  (`ResponseHistory.LiveIsSafe`), but the cursor then counts items the store does not have. After a reload the
  next request may read inputs twice or leave out the one it is made for: `ResponseHistory.ReloadExact` has the
  exact condition, `HistoryRuns.ReadTwice` and `NeverSent` the runs. The rest of the chain of responses is full
  exactly when that request was (`ResponseHistory.ChainExact`).
* A compaction made for one endpoint and model is dropped with the rest of the response state when a request
  goes to another one or falls back to Chat, although the history it stands for is not in this conversation
  (`ResponseHistory.CompactionCarried`, `FallbackDropsCompaction`, `HistoryRuns.CompactionDropped`).
* A worker stays registered and keeps its slot although no lease names it, and idle expiry and purging pass it
  by, in exactly two cases: its key is given another worker after it died, or its release is cut off during the
  reset, which `chat/harness.py:127-134` does when closing a tool takes longer than its bound
  (`PoolModel.OrphanMade`, `OrphanStays`, `TakeOverHappens`, `AbandonHappens`).
* An owner string does not parse back exactly when a separator begins before the end of the actor's part: when
  the actor id holds `:conv:`, ends in `:conv`, starts with `conv:` or is `conv`
  (`TaskModel.OwnerRoundTrip`, `ActorConvLost`).
* `CSI 2 K` also moves the cursor to column 0, and `CSI 1 K` leaves the character under the cursor and pads a
  short line with blanks; ECMA-48 section 8.3.41 erases the active position too and does not move it. The code
  is followed (`PtyTheorems.EraseInLineCell`, `EraseInLineShape`).

## Model

| member | source | states |
|---|---|---|
| TaskTheorems.CancellationClosure | src/yuubot/runtime/tasks.py:355-378 | After `cancel` in any reachable state and any further run: no record ever joins that tree, and each record of it that was active is cancel-requested, refuses children, and is "cancelled" if it is terminal. |
| TaskTheorems.CancelReaches | src/yuubot/runtime/tasks.py:355-378 | `cancel` changes exactly the record and its active descendants, closes all of them, and skips the open deliveries of the descendants. |
| TaskTheorems.NoActiveUnderTerminal | src/yuubot/runtime/tasks.py:237-253 | In every reachable state all ancestors of an active record are active. |
| TaskTheorems.FinishedStaysChildless | src/yuubot/runtime/tasks.py:441-462 | A record leaves the active dict only when it has no active child, and in no later state does it have one. |
| TaskTheorems.ReachableIsForest | src/yuubot/runtime/tasks.py:237-253 | In every reachable state the parent fields form a forest that agrees with the child sets and with the two dicts. |
| TaskTheorems.RootIsTop | src/yuubot/runtime/tasks.py:243-252 | `root_task_id` names the parentless end of the chain of parents, and the whole chain has one actor. |
| TaskTheorems.AncestorsFormAChain | src/yuubot/runtime/tasks.py:237-253 | Any two ancestors of a record are ancestors of one another. |
| TaskTheorems.StepEvolves | src/yuubot/runtime/tasks.py:90-150 | No step changes a link or undoes a terminal status, a cancel request, a closed record, or a closed delivery. |
| TaskTheorems.NewTaskIsPut | src/yuubot/runtime/tasks.py:237-253 | Only `put` brings a record into existence. |
| TaskTree.StepKeepsInv | src/yuubot/runtime/tasks.py:230-474 | Every step keeps forest, dicts, index, shelter, wakeups and notices together. |
| TaskTree.ReachableInv | src/yuubot/runtime/tasks.py:230-474 | All of these hold in every reachable state. |
| TaskNotices.SleepingParentHasChild | src/yuubot/runtime/tasks.py:441-459 | No lost wakeup: a parent that accepts children and sleeps on the cleared event has an active child. |
| TaskNotices.NoticesAreExact | src/yuubot/runtime/tasks.py:449-459 | A step queues with a record exactly one notice for each child that finishes while the record is active and accepts children, and none otherwise. |
| TaskNotices.AtMostOneNotice | src/yuubot/runtime/tasks.py:142-150 | Over any run a parent gets at most one notice from a child, and only from finished children of its own. |
| TaskNotices.LastChildStrands | src/yuubot/runtime/tasks.py:449-459 | When the last active child of a sleeping parent finishes, the parent sleeps on for ever exactly when it no longer accepts children. |
| TaskNotices.FailedParentIsStranded | src/yuubot/runtime/tasks.py:406-459 | From any state with a parent and one active child, failing the parent and then ending the child strands the parent. |
| TaskNotices.StrandingHappens | src/yuubot/runtime/tasks.py:406-459 | Such a state is reachable from the empty registry. |
| TaskNotices.StrandedStays | src/yuubot/runtime/tasks.py:441-459 | Only a cancellation that covers a stranded record, of it or an ancestor or by an ancestor's failure, changes that. |
| TaskNotices.StrandedWakes | src/yuubot/runtime/tasks.py:370-378 | Such a cancellation does: it sets the event, and the wait then ends with the record cancelled. |
| TaskOutcome.TerminalStatus | src/yuubot/runtime/tasks.py:406-439 | In every run from a reachable state that begins with the end of a record's coroutine as done, failed or cancelled: a terminal status of that record is the one it ended with, or "cancelled" with a cancellation requested; without a request it is the one it ended with. |
| TaskOutcome.DecidedAtTheEnd | src/yuubot/runtime/tasks.py:435-447 | Every step of such a run that makes the record terminal makes it "cancelled" if a cancellation is requested then, else what the coroutine ended with; the end of the coroutine does so itself exactly when no child is active; no later step changes it. |
| TaskOutcome.LateCancel | src/yuubot/runtime/tasks.py:355-378 | A reachable record that is done and cancel-requested: a cancellation after the end changes no status. |
| TaskOutcome.EndHandsOn | src/yuubot/runtime/tasks.py:449-462 | Whichever step makes a record terminal: a parent that accepts children gets the one notice and the delivery counts as delivered, another parent gets none and an open delivery is skipped, and a root keeps its delivery and gets a delivery coroutine. |
| TaskOutcome.CancelExact | src/yuubot/runtime/tasks.py:355-378 | Record by record what a cancellation writes: accepting, cancel request, delivery and event, of the record and of its active descendants, and of no other. |
| TaskOutcome.FailureCancels | src/yuubot/runtime/tasks.py:415-434 | A coroutine that fails or is cancelled closes its record and cancels every active descendant; one that returns does neither. |
| TaskOutcome.WaitsExact | src/yuubot/runtime/tasks.py:441-447 | With an active child left, a record whose coroutine is over is waiting for its children, on the cleared event. |
| TaskOutcome.AdmissionExact | src/yuubot/runtime/tasks.py:238-247 | A record is admitted exactly when it has no parent, or one that is active, accepts children and has an owner of the same actor; and which error each other case gets. |
| TaskOutcome.PutExact | src/yuubot/runtime/tasks.py:237-253 | The record that is admitted, field by field; its parent's event is set and no other record changes. |
| TaskDelivery.DeliveredAtMostOnce | src/yuubot/runtime/tasks.py:647-799 | Over any run of schedule, queue, drain, suppress, skip and requeue a root sends at most one wakeup, only finished roots send one, and a root is "delivered" only if it did. |
| TaskDelivery.ClosedStaysClosed | src/yuubot/runtime/tasks.py:647-799 | Once delivered or skipped, a delivery is never held, pending or queued again. |
| TaskPosting.RunDeliveryExact | src/yuubot/runtime/tasks.py:681-718 | A pending delivery of a finished root: sent to the actor; or by conversation, sent if that is not there or is idle, queued if it runs, but skipped if it is suppressed and the task is no agent; manual ones are skipped; and it stays if the owner does not parse. No other record changes. |
| TaskPosting.DrainExact | src/yuubot/runtime/tasks.py:721-740 | Of the queued records that still wait, one wakeup each in the order of the queue, but for failed sends and cancelled tasks that are no agents, which are skipped; the queue is empty and nothing else changes. |
| TaskPosting.SuppressExact | src/yuubot/runtime/tasks.py:743-770 | The queue keeps just its agents, in order, and the other open deliveries that are listed or name the conversation are skipped. |
| TaskPosting.SkipExact | src/yuubot/runtime/tasks.py:773-799 | Just the open deliveries of registered tasks that are no agents and are listed, or go to a conversation and have its `:conv:` mark anywhere in their owner, are skipped. |
| TaskPosting.CloseExact | src/yuubot/chat/loop.py:412-416 | Closing does that and forgets this queue and no other. |
| TaskPosting.ReleaseExact | src/yuubot/runtime/tasks.py:132-136 | Releasing moves a held delivery to pending or skipped and no other. |
| TaskPosting.RequeueExact | src/yuubot/chat/loop.py:385-387 | A result goes to the end of the queue of one conversation unless it is in it. |
| TaskPosting.SkipFinishedExact | src/yuubot/tools/bash.py:109-111 | Dropping the result of a finished task changes its delivery and nothing else. |
| TaskCancel.ChildrenCoverTree | src/yuubot/runtime/tasks.py:355-378 | Cancelling the tree of each active child marks exactly the active descendants. |
| TaskCancel.MarkUnderMore | src/yuubot/runtime/tasks.py:355-378 | Cancelling one more child's tree adds just that tree to what is marked. |
| TaskDescent.FrontierStep | src/yuubot/runtime/tasks.py:310-318 | Taking a record from the worklist and adding its children keeps the entries pairwise unrelated and everything below either visited or below an entry. |
| TaskRuntime.Runtime.Put | src/yuubot/runtime/tasks.py:237-253 | Admits a record or refuses it with the code's error; a refusal changes nothing. |
| TaskRuntime.Runtime.CheckParent | src/yuubot/runtime/tasks.py:238-247 | Reports the first of the four admission rules that is broken. |
| TaskRuntime.Runtime.ActiveChildren | src/yuubot/runtime/tasks.py:300-308 | The children that are registered and not terminal. |
| TaskRuntime.Runtime.Descendants | src/yuubot/runtime/tasks.py:310-318 | Terminates and returns each registered descendant exactly once and nothing else. |
| TaskRuntime.Runtime.Cancel | src/yuubot/runtime/tasks.py:355-378 | The recursion over children terminates and does what `cancel` does to a whole tree. |
| TaskRuntime.Runtime.SignalIfWaiting | src/yuubot/runtime/tasks.py:370-378 | A record that waits for its children is woken instead of interrupted. |
| TaskRuntime.Runtime.OwnWorkEnds | src/yuubot/runtime/tasks.py:406-439 | From the end of the coroutine to its next suspension or its terminal state: the step `TaskOutcome.DecidedAtTheEnd`, `FailureCancels` and `WaitsExact` are about. |
| TaskRuntime.Runtime.WaitForChildren | src/yuubot/runtime/tasks.py:441-447 | Suspends on the cleared event exactly while an active child is left, else finishes with the status that `TaskOutcome.DecidedAtTheEnd` says. |
| TaskRuntime.Runtime.Resume | src/yuubot/runtime/tasks.py:441-447 | A woken wait looks again, and waits on or ends as `TaskOutcome.WaitsExact` and `DecidedAtTheEnd` say. |
| TaskRuntime.Runtime.Finish | src/yuubot/runtime/tasks.py:449-462 | The terminal transition with its report to the parent, the move to the store and the delivery coroutine of a root. |
| TaskRuntime.Runtime.Report | src/yuubot/runtime/tasks.py:452-459 | An accepting, unfinished parent gets the notice and the event and the child counts as delivered; otherwise an open delivery is skipped. |
| TaskRuntime.Runtime.AgentPauses | src/yuubot/runtime/subagents.py:202-220 | A subagent waits exactly when it has no notice and an active child; else it takes its notices. |
| TaskRuntime.Runtime.AgentGoesOn | src/yuubot/runtime/subagents.py:207-212 | A woken subagent takes the notices there are. |
| TaskRuntime.Runtime.DeliverTaskResult | src/yuubot/runtime/tasks.py:647-678 | Sends one wakeup and marks the delivery. |
| TaskRuntime.Runtime.ScheduleTaskDelivery | src/yuubot/runtime/tasks.py:681-718 | The delivery coroutine of a finished root, branch by branch. |
| TaskRuntime.Runtime.DrainPendingTaskDeliveries | src/yuubot/runtime/tasks.py:721-740 | Empties the queue in order; closed deliveries are passed over. |
| TaskRuntime.Runtime.SuppressConversationTaskDeliveries | src/yuubot/runtime/tasks.py:743-770 | Keeps the queued results of agents and skips all others. |
| TaskRuntime.Runtime.SkipConversationTaskDeliveries | src/yuubot/runtime/tasks.py:773-799 | Skips exactly the listed and the owned open deliveries that are not an agent's. |
| TaskRuntime.Runtime.CloseConversation | src/yuubot/chat/loop.py:412-416 | Forgets the queue and skips the conversation's deliveries. |
| TaskRuntime.Runtime.QueueTaskDelivery | src/yuubot/chat/loop.py:385-387 | Queues an id once. |
| TaskModel.OwnerRoundTrip | src/yuubot/runtime/tasks.py:46-52 | An owner string parses back into actor and conversation exactly when no separator begins before the end of the actor's part. |
| TaskModel.ActorConvLost | src/yuubot/runtime/tasks.py:46-52 | The actor `conv` comes back as `actor`, with `conv:` before the conversation. |
| PtyTheorems.ChunkIndependence | src/yuubot/runtime/pty_display.py:25-60 | From any buffer, feeding `a` and then `c` leaves the same lines, cursor and pending text as feeding `a + c`. |
| PtyTheorems.AnyChunking | src/yuubot/runtime/pty_display.py:25-60 | So does any way of cutting the output into chunks. |
| PtyTheorems.EscapeStable | src/yuubot/runtime/pty_display.py:70-108 | A complete escape sequence is recognised as the same sequence whatever follows it. |
| PtyTheorems.HeldBack | src/yuubot/runtime/pty_display.py:25-60 | An escape sequence cut off after any text is held back whole: the screen is the one the text alone leaves. |
| PtyTheorems.FedIsClean | src/yuubot/runtime/pty_display.py:25-60 | Whatever is fed, no C0 control character and no DEL is stored, the cursor is on a line, and what is pending is the start of one escape sequence. |
| PtyTheorems.RenderIdempotent | src/yuubot/runtime/pty_display.py:207-210 | Rendering a snapshot in a fresh buffer gives that same snapshot. |
| PtyTheorems.RenderSnapshot | src/yuubot/runtime/pty_display.py:62-68 | It leaves exactly the shown lines with the cursor at their end. |
| PtyTheorems.WriteCell | src/yuubot/runtime/pty_display.py:185-193 | Writing changes the one cell at the cursor and moves one to the right. |
| PtyTheorems.NewlineCell | src/yuubot/runtime/pty_display.py:180-183 | A new line changes no cell. |
| PtyTheorems.DispatchCell | src/yuubot/runtime/pty_display.py:122-178 | A control sequence blanks exactly the cells it erases; cursor moves change no cell. |
| PtyTheorems.EraseInLineCell | src/yuubot/runtime/pty_display.py:155-164 | Which cells each mode of erase-in-line blanks: mode 1 not the one under the cursor. |
| PtyTheorems.EraseInLineShape | src/yuubot/runtime/pty_display.py:155-164 | Mode 2 moves the cursor to column 0 and the others leave it; mode 1 pads a line that is shorter than the cursor's column; no other line changes. |
| PtyCursor.UpAndDown | src/yuubot/runtime/pty_display.py:124-135 | CSI A and B move by the parameter, or by one if it is missing or zero; A stops at the first line, B adds lines; the column is kept within the text of the new line. |
| PtyCursor.LeftAndRight | src/yuubot/runtime/pty_display.py:136-147 | CSI C moves right without limit, D left to column 0, G to a column counted from one; nothing else changes. |
| PtyCursor.Placed | src/yuubot/runtime/pty_display.py:148-154 | CSI H and f go to row and column counted from one, missing and zero being the first, and add the lines that are missing. |
| PtyCursor.DisplayErased | src/yuubot/runtime/pty_display.py:166-176 | CSI J cuts the line at the cursor and empties those below; mode 2 leaves one empty line and sends the cursor home; other modes do nothing. |
| PtyCursor.LineErased | src/yuubot/runtime/pty_display.py:155-164 | What each mode of CSI K leaves of the line, character by character. |
| PtyCursor.OthersIgnored | src/yuubot/runtime/pty_display.py:122-178 | Every other final character is without effect. |
| PtyCursor.CharExact | src/yuubot/runtime/pty_display.py:38-60 | Where each single character leaves the cursor, and what it writes: carriage return, newline, backspace, tab stops of eight, ignored controls, printable characters. |
| PtyCursor.CsiRuns | src/yuubot/runtime/pty_display.py:79-88 | Anywhere in the output, ESC `[`, a body and the first final character have the effect of that character with the parameters of the body, and the rest is read from there. |
| PtyCursor.CsiHeld | src/yuubot/runtime/pty_display.py:79-82 | Without a final character nothing is applied and all of it is kept. |
| PtyCursor.OtherEscapesRun | src/yuubot/runtime/pty_display.py:73-89 | ESC and another character are passed over, and so is a whole operating system command; one that has not ended is kept. |
| PtyCursor.CsiExact | src/yuubot/runtime/pty_display.py:101-108 | A control sequence ends at its first letter, `@`, back quote or tilde. |
| PtyCursor.OscExact | src/yuubot/runtime/pty_display.py:91-99 | An operating system command ends at its first BEL or ESC backslash. |
| PtyCursor.ParamsExact | src/yuubot/runtime/pty_display.py:110-120 | Parameters are the fields between semicolons by position: a printed number is that number, an empty field and one with another character 0, and no body gives none. |
| PtyCursor.LastShownExact | src/yuubot/runtime/pty_display.py:62-68 | The shown lines go from the first to the cursor's and on to just before the first empty one. |
| PtyCursor.JoinExact | src/yuubot/runtime/pty_display.py:62-68 | They are joined by one newline each. |
| PtyCursor.MovedRight | src/yuubot/runtime/pty_display.py:136-139 | `ab`, two to the right, `c` leave the line `ab  c` and column 5. |
| PtyDisplay.PtyDisplayBuffer.Feed | src/yuubot/runtime/pty_display.py:25-60 | The index loop does over pending text and chunk the run that `PtyCursor.CsiRuns`, `CharRuns` and `OtherEscapesRun` describe piece by piece. |
| PtyDisplay.PtyDisplayBuffer.ConsumeEscape | src/yuubot/runtime/pty_display.py:70-89 | Takes exactly one complete sequence, or nothing and changes nothing. |
| PtyDisplay.PtyDisplayBuffer.FindOscEnd | src/yuubot/runtime/pty_display.py:91-99 | One past the first BEL or ESC backslash. |
| PtyDisplay.PtyDisplayBuffer.FindCsiEnd | src/yuubot/runtime/pty_display.py:101-108 | The first final character. |
| PtyDisplay.PtyDisplayBuffer.ParseParams | src/yuubot/runtime/pty_display.py:110-120 | Fields that are empty or not all digits count as 0. |
| PtyDisplay.PtyDisplayBuffer.ApplyCsi | src/yuubot/runtime/pty_display.py:122-178 | Cursor and erase functions with the code's clamping, as `PtyCursor` has them in row, column and lines. |
| PtyDisplay.PtyDisplayBuffer.Snapshot | src/yuubot/runtime/pty_display.py:62-68 | The lines up to the cursor line and on to the first empty one. |
| PtyDisplay.RenderPtyOutput | src/yuubot/runtime/pty_display.py:207-210 | Feeding everything at once to a new buffer. |
| PtyDisplay.ReplaceBySnapshot | src/yuubot/tools/progress.py:64-69 | A display replaced by a rendered snapshot shows that snapshot. |
| StreamTheorems.StreamRoundTrip | src/yuubot/llm/gateway.py:1377-1464 | Merging the events of a stream that ended by itself gives one call per index that was ever named, with its first name, its first id seen by then (else `tool-i`) and all its argument fragments in order, among text and reasoning in order of first appearance. |
| StreamTheorems.MergeReadsStream | src/yuubot/domain/stream.py:100-156 | For any set of ended calls: the same reading without the calls that were not ended. |
| StreamTheorems.PartialMergeReadsStream | src/yuubot/domain/stream.py:145-156 | With partial calls kept, every named call comes back whether ended or not. |
| StreamTheorems.SlotsByFirstAppearance | src/yuubot/domain/stream.py:163-166 | The result lists each slot once, strictly by where it first opens. |
| StreamTheorems.NamedSoFar | src/yuubot/llm/gateway.py:499-500 | The calls that are ended are those some delta named. |
| StreamTheorems.EmittedAgrees | src/yuubot/llm/gateway.py:1377-1421 | After any deltas, the gateway's buffers and the merge of what it emitted agree with a reading of the deltas that knows neither. |
| StreamChoices.AllSaid | src/yuubot/llm/gateway.py:1424-1464 | What a stream that ended comes back as, read off the fields of the choices: text exactly if some content is not empty, and then all contents in order; the same of reasoning; for each index the first name that is not empty in a tool call entry of type function or none or in `function_call`, the first id no later, and all arguments in order; and the outputs in the order of the places that first open them. |
| StreamChoices.WordsSaid | src/yuubot/llm/gateway.py:480-485 | An interrupted one comes back with just its text and reasoning. |
| StreamChoices.SpotsOf | src/yuubot/llm/gateway.py:1424-1464 | The gateway looks at the choices in order and in each at content, reasoning, `function_call` and the tool calls, in this order, and takes each once if there is something. |
| StreamChoices.ReasonExact | src/yuubot/llm/gateway.py:491-493 | The finish reason is the last that was given, "stop" without any. |
| StreamModel.GroupInjective | src/yuubot/llm/gateway.py:1386 | Different indexes have different group names. |
| StreamRuntime.ChatStream | src/yuubot/llm/gateway.py:470-504 | What is sent for any chunks merges to the reading of the chunks consumed: all named calls and the last finish reason, or no call and "interrupted"; and that is just what the fields of those choices said, in order (`StreamChoices.Said`). |
| StreamRuntime.ToolStreamState.EmitToolName | src/yuubot/llm/gateway.py:1377-1404 | A call is announced once and then releases the fragments held back. |
| StreamRuntime.ToolStreamState.EmitToolArguments | src/yuubot/llm/gateway.py:1407-1421 | Fragments go out after the name and are held back before it. |
| StreamRuntime.ToolStreamState.EventsFromChunk | src/yuubot/llm/gateway.py:1424-1464 | The events and buffers after one chunk, for the deltas that `StreamChoices.SpotsOf` reads off its choices. |
| StreamRuntime.MergeEvents | src/yuubot/domain/stream.py:100-156 | The merge loop and its output loop compute the merge the theorems are about. |
| Basics.Sorted | src/yuubot/llm/gateway.py:499 | The given indexes, ascending. |
| ResponseHistory.IncrementalIsFull | src/yuubot/llm/gateway.py:515-542 | In every run whose reloads are safe, with appends written or lost, completed, interrupted, failed and fallen-back requests, endpoint and model switches and persisting at any time, a request and the stored responses it continues carry the compaction in force and every input of the conversation once and in order; and the response it continues is one the endpoint has. |
| ResponseHistory.LiveIsSafe | src/yuubot/chat/loop.py:587-592 | A run without a reload is safe, whatever the store loses. |
| ResponseHistory.UnlostIsSafe | src/yuubot/chat/history.py:80-102 | A run in which no append is lost is safe with reloads anywhere, even during a write. |
| ResponseHistory.LiveOrUnlostIsFull | src/yuubot/llm/gateway.py:515-542 | So in every run without a reload or without a lost append each request is full. |
| ResponseHistory.ReloadExact | src/yuubot/chat/history.py:293-311 | After a reload, with anything appended, written, lost or persisted and any requests that did not complete in between, a request to the stored state's endpoint and model is full exactly when no response is stored; or the cursor lies within the messages it is made with and they hold the same input up to it; or it lies beyond them, there is no compaction, and no input was sent up to it. |
| ResponseHistory.ReloadElsewhere | src/yuubot/llm/gateway.py:515-530 | Then a request to another endpoint or model is full. |
| ResponseHistory.ChainExact | src/yuubot/llm/gateway.py:515-624 | From any state: after a request completes, the later ones to the same endpoint and model are full exactly when it was. |
| HistoryRuns.ReadTwice | src/yuubot/chat/loop.py:587-592 | An answer of more than two items is lost; after one more turn, a reload and the next input the cursor lies beyond the messages, and the model reads the first two inputs twice. |
| HistoryRuns.NeverSent | src/yuubot/chat/loop.py:587-592 | With two items lost the next input falls below the cursor, and the request made for it does not send it. |
| ResponseHistory.DeltaCompletes | src/yuubot/llm/gateway.py:1242-1257 | What was sent up to the cursor and the delta make up the whole. |
| HistoryWire.RequestExact | src/yuubot/llm/gateway.py:515-542 | Entry by entry what a request holds: on top of a stored response one entry for each input and tool result from the cursor on, in order and with its own role, content or call id; without one, or with a cursor beyond the messages, the compaction and then an entry for each; and to another endpoint or model an entry for each and nothing else. |
| HistoryWire.ItemsWired | src/yuubot/llm/gateway.py:1260-1280 | There are as many entries as inputs and tool results, and each of these is the entry at the index that counts those before it, with its own fields. |
| HistoryWire.DeltaWired | src/yuubot/llm/gateway.py:1242-1257 | The same of the items from the cursor on. |
| HistoryWire.WiredOnce | src/yuubot/llm/gateway.py:1260-1280 | One history has one such list of entries. |
| HistoryWire.NextRequest | src/yuubot/llm/gateway.py:613-624 | After a stored response the next request to its endpoint and model continues it with what was added and nothing else; another starts anew. |
| HistoryWire.ResultIsSent | src/yuubot/llm/gateway.py:1242-1257 | A tool result after the cursor is sent as the output of its call. |
| HistoryWire.MessagesExact | src/yuubot/chat/history.py:326-342 | Each item but tool specs is one message, in order: itself, or for a system prompt a developer message of yuubot with its text. |
| HistoryWire.SpecsExact | src/yuubot/chat/history.py:326-342 | The specs sent are those listed last. |
| HistoryWire.SpecsPlaced | src/yuubot/chat/history.py:345-363 | The current specs are the only ones and stand where the first specs or system prompt stood, or first. |
| HistoryWire.OthersKept | src/yuubot/chat/history.py:345-363 | The other items are kept in their order. |
| ResponseHistory.CurrentSpecsKeepMessages | src/yuubot/chat/history.py:345-363 | Replacing the tool specs changes no message, and the specs sent are the current ones. |
| ResponseHistory.CompactionCarried | src/yuubot/llm/gateway.py:515-530 | A request carries the compaction exactly when the state was made for its endpoint and model. |
| ResponseHistory.FallbackDropsCompaction | src/yuubot/llm/gateway.py:458-467 | After a fallback to Chat the next request stands on the messages alone. |
| HistoryRuns.CompactionDropped | src/yuubot/llm/gateway.py:515-530 | One append after a compaction: a request to its endpoint reads it, a request to another one does not. |
| ResponseHistory.StepKeepsInv | src/yuubot/llm/gateway.py:613-624 | Each step but an unsafe reload keeps in-memory and durable response state faithful to what the endpoint stored. |
| HistoryRuntime.HistoryHelper.ToLlmInput | src/yuubot/chat/history.py:326-342 | The last specs with the extra ones, and the messages in order. |
| HistoryRuntime.HistoryHelper.Load | src/yuubot/chat/history.py:293-311 | Stored items come back with the same messages and the current specs; an empty history is seeded. |
| HistoryRuntime.WithCurrentToolSpecs | src/yuubot/chat/history.py:345-363 | The flag loop puts the specs where the theorems say and keeps all messages. |
| HistoryRuntime.ResponseItemsOf | src/yuubot/llm/gateway.py:1260-1280 | One entry for each input and tool result, in order, with its own fields; everything generated is left out. |
| HistoryRuntime.ResponseDeltaOf | src/yuubot/llm/gateway.py:1242-1257 | The same for the items from the cursor on. |
| HistoryRuntime.ResponseState.Open | src/yuubot/llm/gateway.py:515-542 | State check, then the increment or everything: entry by entry what `HistoryWire.RequestExact` says. |
| ResponseHistory.CompletedFaithful | src/yuubot/llm/gateway.py:613-624 | The cursor and response id that a completed response leaves stand for a context the endpoint has: the compaction and all input so far. |
| Fallback.GatewayStream | src/yuubot/llm/gateway.py:873-929 | The caller hears the first target that does not give way and nothing of any other; the end of the stream names the targets tried, in order; if all give way the last error is raised; and the log of the attempts, kept where each begins, is the one `SingleSource` is about. |
| Fallback.EndpointStream | src/yuubot/llm/gateway.py:432-504 | Chat is heard exactly when the Responses attempt delivered nothing and failed with a code that allows it; the response state is cleared exactly then; and what it asks of the endpoint, logged where each attempt begins, is nothing when stopped, else Responses and in that case Chat. |
| Fallback.SingleSource | src/yuubot/llm/gateway.py:448-467 | The events heard come from the last attempt made; every attempt before it, at any target and by either protocol, delivered nothing and failed with a code that allows the next one, and when all targets give way every attempt did. |
| Fallback.Try | src/yuubot/llm/gateway.py:888-926 | One target is heard, with the targets tried so far in its end of stream, or gives way with the error code that is kept. |
| Fallback.HeardExact | src/yuubot/llm/gateway.py:432-504 | In the fields of the endpoint: when Chat is heard (nothing was delivered and the code is one of the five), when Responses, and what was asked. |
| Fallback.RouteExact | src/yuubot/llm/gateway.py:873-929 | In the fields of the targets: which are passed over (no endpoint, or nothing delivered and one of the four codes), which is heard, that its events come unchanged but for the ends, which are told the names of the targets up to it, and the error otherwise. |
| Fallback.StoppedAnswersLocally | src/yuubot/llm/gateway.py:443-447 | Once the stop event is set no endpoint is asked: the first one that exists reports the interruption. |
| RunGate.AcceptedInterruptSticks | src/yuubot/chat/loop.py:329-352 | After an accepted interrupt, until that run exits: the stop event stays set, no iteration starts, and at most one stream begins, none unless one was about to, and it sees the event. |
| RunGate.RefusedInterruptChangesNothing | src/yuubot/chat/loop.py:329-336 | An interrupt is refused exactly when no run is going on or the run already ended as interrupted, and then changes nothing. |
| RunGate.OneRunAtATime | src/yuubot/chat/loop.py:418-427 | A run enters exactly when none is going on, with the event clear. |
| RunGate.ToolsOnlyWhenCalled | src/yuubot/chat/loop.py:494-545 | In every run, whatever arrives: tools run and the loop goes round only after a stream that reported tool calls without a pause. |
| RunGate.JudgedExact | src/yuubot/chat/loop.py:494-545 | Exactly then are tools next; after any other report only the exit is left, and the run ends as interrupted exactly if the stream said so. |
| RunGate.StepExact | src/yuubot/chat/loop.py:329-564 | In every run, which steps leave the run interrupting, interrupted or idle, which set the stop event, and after which only the exit is left: a cancellation interrupts at any point, an error ends the run and leaves its state. |
| RunGate.CourseUnique | src/yuubot/chat/loop.py:442-564 | When nothing arrives, the turns and the stop event alone decide the steps, the ending and the state. |
| RunGate.ConversationGate.Interrupt | src/yuubot/chat/loop.py:329-352 | Accepts exactly in a run that has not ended as interrupted; the first accepted one sets the stop event. |
| RunGate.ConversationGate.EnterRun | src/yuubot/chat/loop.py:418-427 | Enters or is busy. |
| RunGate.ConversationGate.RunLoop | src/yuubot/chat/loop.py:442-564 | For any turns, with an interrupt, a cancellation, an error or nothing at every suspension, the loop makes only the steps the theorems quantify over, and its reports are the turns' in order but for the stop event. When nothing arrives: for each leading turn with tool calls and no pause a stream, its report, the tools and another round; for the first other turn a stream, its report and no more, with the ending and state of that turn's reason. |
| Replication.ClientNeverWrong | web/src/features/conversations/hooks/use-conversation-session.ts:158-220 | Over every run of deltas, commits, errors, openings, refusals, overflows and reconnections the client shows the living chunks of its version and a suffix of the history of that version, and the queue stays within 256. |
| Replication.HandledTrue | web/src/features/conversations/hooks/use-conversation-session.ts:158-220 | Handling any true frame, stale or not, keeps the client true. |
| Replication.OpeningShows | src/yuubot/chat/listener.py:59-76 | An opening leaves one snapshot in the queue, and a client that handles it shows the newest version, all its chunks and the newest two hundred items or all there are, and waits no longer. |
| Replication.ServedExact | src/yuubot/chat/loop.py:594-621 | The state and the frame that each delta and commit makes. |
| Recovery.NewestRetained | src/yuubot/chat/listener.py:162-172 | Every delta and commit of an open conversation waits when published, overflow or not. |
| Recovery.QuietRunsConverge | web/src/features/conversations/hooks/use-conversation-session.ts:158-220 | While nothing new happens and requests are served, server, listener and client settle after a bounded number of steps in any order; the client then shows the newest version exactly when a request was open or the frames that waited made it ask or led there; else it is waiting in vain or unaware. |
| Recovery.EvenIfRefused | src/yuubot/web/ws.py:363-372 | Whichever requests are served or refused: a client whose waiting frames lead to the newest version shows it once all is settled. |
| Recovery.RefusalsShow | src/yuubot/web/ws.py:363-370 | And only then for sure: when all requests are refused it settles at just the version the frames lead to. |
| Recovery.StepSticks | src/yuubot/chat/listener.py:162-179 | For every step from every reachable state: it leaves the client waiting for a snapshot that is not coming exactly when its last request is refused while what waits does not help, or with none open it misses something it waits for (a version not told to the listener, a new version in place of a drained queue, another frame in place of a queue it needs), or it was stuck and the step neither reconnects nor opens its conversation. |
| Recovery.StepUnaware | src/yuubot/chat/listener.py:109-115 | A step leaves a client that would have come up to date behind without a word exactly when it drains, for another frame, a queue that client needs and does not wait for, or makes a version that is not told, or refuses a last request that an earlier snapshot had answered; the next version told ends that. |
| Recovery.OneOfThree | src/yuubot/chat/listener.py:162-179 | A client comes up to date if its requests are served, waits in vain or is unaware, and only one of these. |
| Recovery.OverflowAsks | src/yuubot/chat/listener.py:162-172 | The comment's case, a delta or commit that overflows the queue with nothing under way: the client asks exactly when it is not waiting already; if it is, and the request was served, it is stuck. |
| Recovery.StuckForever | web/src/features/conversations/hooks/use-conversation-session.ts:83-89 | A stuck client is behind over every run without a reconnection or another opening of its conversation. |
| RecoveryRuns.SlowSocketSticks | src/yuubot/chat/listener.py:162-184 | One conversation, one client and a socket that is busy with a frame while the queue overflows, twice: the client is stuck. |
| RecoveryRuns.RefusalSticks | src/yuubot/web/ws.py:363-370 | A reconnection whose one request is refused: the client is stuck. |
| RecoveryRuns.OtherOpeningSticks | src/yuubot/chat/listener.py:59-76 | Eight steps of a client that has two conversations open on one socket, and no overflow: it is stuck. |
| Recovery.ErrorUnnoticed | web/src/features/conversations/hooks/use-conversation-session.ts:221-227 | An error in place of a full queue reaches the client without changing what it shows or making it ask, and nothing else is left to reach it. |
| RecoveryRuns.ErrorLeavesUnaware | src/yuubot/chat/listener.py:109-115 | A run with one error after which all is handled, nothing is asked for, and the client shows version 0 of 256. |
| ReplicationRuntime.WsListener.Enqueue | src/yuubot/chat/listener.py:162-179 | A reset or a full queue is emptied for the new frame. |
| ReplicationRuntime.WsListener.OnSnapshot | src/yuubot/chat/listener.py:59-76 | Sends the newest 200 items. |
| ReplicationRuntime.Conversation.Subscribe | src/yuubot/chat/loop.py:360-371 | A subscriber starts from a snapshot of the current version. |
| ReplicationRuntime.Conversation.EmitDelta | src/yuubot/chat/loop.py:594-599 | A new version with one more living chunk, told to every subscriber. |
| ReplicationRuntime.Conversation.PublishCommit | src/yuubot/chat/loop.py:605-621 | A new version with the items appended and no living chunk, told to every subscriber. |
| ReplicationRuntime.Conversation.EmitError | src/yuubot/chat/loop.py:623-626 | Tells every subscriber and makes no version. |
| ReplicationRuntime.Session.Handle | web/src/features/conversations/hooks/use-conversation-session.ts:158-220 | The client's branches, and whether a snapshot is asked for. |
| ExpiringModel.EvictionUnique | src/yuubot/runtime/expiring_index.py:107-130 | What `evict` must leave — no expired entry, every shielded one, of the others the youngest that fit and no fewer — leaves one result. |
| ExpiringModel.EvictionSettles | src/yuubot/runtime/expiring_index.py:107-130 | Evicting again at the same time changes nothing. |
| ExpiringModel.NothingEvicted | src/yuubot/runtime/expiring_index.py:123-124 | While everything fits, only expired entries go. |
| ExpiringModel.YoungerSurvive | src/yuubot/runtime/expiring_index.py:126-130 | No entry goes before an older one that could. |
| ExpiringModel.PutStays | src/yuubot/runtime/expiring_index.py:34-49 | An entry put with a retention ahead is there afterwards exactly when it has not expired. |
| ExpiringModel.ReadIsLast | src/yuubot/runtime/expiring_index.py:51-73 | An entry that was read is the last to be evicted: while an unshielded one that was touched earlier stays, it does. |
| ExpiringModel.TouchedExact | src/yuubot/runtime/expiring_index.py:66-73 | Reading changes the last touch and nothing else, and puts the entry behind every one touched earlier. |
| ExpiringModel.ExpiryExact | src/yuubot/runtime/expiring_index.py:107-130 | An entry past its expiry is gone; one before its expiry and before the end of its retention is there. |
| ExpiringModel.TotalExact | src/yuubot/runtime/expiring_index.py:107-130 | Sizes add up, one below zero counting as none. |
| ExpiringModel.KeyOrderExact | src/yuubot/runtime/expiring_index.py:121-126 | Keys are ordered by the first place where they differ, a shorter one that agrees being first. |
| ExpiringModel.OlderTotal | src/yuubot/runtime/expiring_index.py:121-126 | The order by last touch, creation and key is total. |
| ExpiringModel.OlderExact | src/yuubot/runtime/expiring_index.py:121-126 | The one touched earlier goes first; touched at once, the one created earlier; else the smaller key. |
| ExpiringIndexClass.ExpiringIndex.Evict | src/yuubot/runtime/expiring_index.py:107-130 | Does exactly that, on both dictionaries. |
| ExpiringIndexClass.ExpiringIndex.Put | src/yuubot/runtime/expiring_index.py:34-49 | Keeps a key's creation time, then evicts. |
| ExpiringIndexClass.ExpiringIndex.Get | src/yuubot/runtime/expiring_index.py:51-55 | Evicts, then returns and touches the entry or fails. |
| ExpiringIndexClass.ExpiringIndex.Pop | src/yuubot/runtime/expiring_index.py:57-60 | Evicts, then removes the entry or fails. |
| ExpiringIndexClass.ExpiringIndex.Discard | src/yuubot/runtime/expiring_index.py:62-64 | Removes a key from both dictionaries. |
| ExpiringIndexClass.ExpiringIndex.Touch | src/yuubot/runtime/expiring_index.py:66-73 | Changes the last touch and nothing else. |
| ExpiringIndexClass.ExpiringIndex.UpdateRetention | src/yuubot/runtime/expiring_index.py:75-89 | Always replaces the expiry and the retention only when one is given, between two evictions. |
| ExpiringIndexClass.ExpiringIndex.Contains | src/yuubot/runtime/expiring_index.py:103-105 | Evicts before it answers. |
| PoolModel.SlotsConserved | src/yuubot/python/pool.py:61-216 | In every interleaving of all pools of a limiter: free slots, registered workers, acquirers with a slot and workers on their way out add up to the maximum; every lease names a registered worker and no two the same. |
| PoolModel.StepOk | src/yuubot/python/pool.py:61-216 | Each step keeps a pool's leases exclusive and moves slots without making or losing one. |
| PoolModel.PurgedOk | src/yuubot/python/pool.py:136-147 | Each victim of a purge was registered and counts once. |
| PoolModel.RegisteredExact | src/yuubot/python/pool.py:77-216 | For every step, worker by worker: who is registered and who is in state leased afterwards; a purge unregisters the key's worker and the idle ones and no other. |
| PoolModel.LeasesExact | src/yuubot/python/pool.py:77-216 | And which leases there are. |
| PoolModel.OrphanMade | src/yuubot/python/pool.py:77-134 | A worker becomes registered but unreachable exactly when its key is given another worker after it died or its release is cut off during the reset. |
| PoolModel.TakeOverHappens | src/yuubot/python/pool.py:77-116 | A run of the first kind. |
| PoolModel.AbandonHappens | src/yuubot/python/pool.py:118-134 | A run of the second kind; no lease is left and the slot is gone. |
| PoolModel.OrphanStays | src/yuubot/python/pool.py:134-216 | It stays so until it is dropped by name or the pool shuts down. |
| KernelPools.KernelPool.FindIdleWorker | src/yuubot/python/pool.py:173-177 | A live idle worker if there is one. |
| KernelPools.KernelPool.AcquireWarm | src/yuubot/python/pool.py:83-95 | The live lease of the key, else a live idle worker leased to it, else nothing. |
| KernelPools.KernelPool.AcquireSpawned | src/yuubot/python/pool.py:97-116 | Registers and leases the new worker, or drops it for a live lease made meanwhile. |
| KernelPools.KernelPool.BeginRelease | src/yuubot/python/pool.py:118-123 | The key loses its lease. |
| KernelPools.KernelPool.EndRelease | src/yuubot/python/pool.py:124-134 | A worker that was reset and is alive is idle, one that failed or died is dropped, and one whose release is cut off stays as it is; a slot goes back only for a registered worker that is dropped. |
| KernelPools.KernelPool.PurgeForRestart | src/yuubot/python/pool.py:136-147 | Unregisters the key's worker and all idle ones, as many slots as victims. |
| KernelPools.KernelPool.Drop | src/yuubot/python/pool.py:149-197 | Unregisters a worker and its leases and says whether a slot goes back. |
| KernelPools.KernelPool.ExpireIdle | src/yuubot/python/pool.py:200-216 | Unregisters exactly the idle workers past their time. |
| KernelPools.KernelPool.Shutdown | src/yuubot/python/pool.py:61-75 | Unregisters everything, one slot each. |
| TurnLimits.QuotaHolds | src/yuubot/runtime/turn_limits.py:44-115 | In every interleaving of open, close, reserve, commit and release the counters equal the numbers of open and of committed reservations, and these never exceed the limit. |
| TurnLimits.RoomIsExact | src/yuubot/runtime/turn_limits.py:86-97 | There is room exactly when fewer reservations than the limit are open or committed. |
| TurnLimits.SettledStays | src/yuubot/runtime/turn_limits.py:52-65 | Nothing changes a finished reservation; a second commit or release changes nothing at all. |
| TurnLimits.CloseLeavesTurns | src/yuubot/runtime/turn_limits.py:83-84 | Closing a token commutes with the end of any reservation. |
| TurnLimits.TurnState.Reserve | src/yuubot/runtime/turn_limits.py:86-97 | Reserves exactly when the capability has a limit and there is room; a refusal says why and changes nothing. |
| TurnLimits.EndGood | src/yuubot/runtime/turn_limits.py:52-65 | Ending a reservation, in either way and even a second time, keeps every counter equal to its tally and within the limit. |
| TurnLimits.EndedExact | src/yuubot/runtime/turn_limits.py:52-65 | A success makes the reservation committed and moves its count to the successes; a failure makes it released and frees its place; no other reservation or count changes. |
| TurnLimits.QuotaNumbers | src/yuubot/runtime/turn_limits.py:14-19 | In every run at most one of each fixer, three searches and four delegations of a turn are open or committed. |
| TurnLimits.TurnLimitReservation.Commit | src/yuubot/runtime/turn_limits.py:52-58 | The first end of a reservation makes it a success; a later one changes nothing. |
| TurnLimits.TurnLimitReservation.Release | src/yuubot/runtime/turn_limits.py:60-65 | The first end of a reservation frees its slot; a later one changes nothing. |
| TurnLimits.TurnLimitRegistry.Reserve | src/yuubot/runtime/turn_limits.py:86-97 | An unknown token is refused; else the turn decides. |
| TurnLimits.TurnLimitRegistry.Run | src/yuubot/runtime/turn_limits.py:99-107 | An operation's slot ends as a success or free, never open. |
| RateLimiter.WindowBound | src/yuubot/web/public_api.py:39-48 | With a monotone clock any window of the given length, open at its start, holds at most `limit` accepted hits of a key. |
| RateLimiter.DequeCounts | src/yuubot/web/public_api.py:42-45 | The trimmed deque holds exactly the hits of the window that ends now. |
| RateLimiter.PublicWebhookRateLimiter.Allow | src/yuubot/web/public_api.py:39-48 | Accepts exactly when, of all hits ever accepted, fewer than the limit lie in the window that ends now. |

## Left out

- SQLite, HTTP and WebSocket transport, processes, the OpenAI SDK, credentials, the CLI and the web pages.
- Contents: notice texts, task output, usage accounting, image data, JSON coding (taken as lossless), logging.
- `_on_task_done` for a coroutine that raises out of `_run`: only the record that was cancelled before its first step is modelled, and such a record is taken to have no children.
- Termination of cancelled and failed parents: `TaskNotices.LastChildStrands` shows that it does not hold.
- At-least-once delivery: closing a conversation forgets its queue, and a busy conversation requeues a result that was already sent, which the drain passes over.
- `root_task_id` given by a caller: no caller gives one. Ids are fresh and putting into a mailbox does not suspend.
- Which finished records the store evicts: any may go at any time in the task model; `ExpiringModel` has the exact rule.
- TaskRuntime.Runtime.SkipConversationTaskDeliveries: the owner test is the code's substring test, so `c1` also matches an owner in `c12`.
- TaskRuntime.Runtime.DrainPendingTaskDeliveries: a send that fails is taken to fail before the wakeup goes out.
- `strip_ansi`, `filter_tool_output` and redaction, and the copy of the display buffer in `src/yext/_pty_output.py`.
- ExpiringIndexClass.ExpiringIndex.Evict: an item is a value with a fixed size; in the code the size of a record is read when `evict` runs.
- `values` and `keys` of the index, which list what `Contains` decides.
- The chat message list `_messages` and the order of Responses events within one response.
- ResponseHistory.IncrementalIsFull: what an endpoint generated is not part of the claim; both ways of sending leave it out.
- Recovery.StepSticks: a conversation object that is discarded, after an idle hour or with its actor, and loaded again under the same id. The listener stays with the old one, which shows here as a `Close`; that the new one starts again at version 0 is not modelled.
- Replication.ClientNeverWrong: about one conversation object for each id; a client that misses the snapshot of a new one may take its deltas for those of the old one, as their versions start again.
- Older history fetched by the browser, pending user messages and phases of its transcript.
- Fallback.GatewayStream: how a selector becomes a list of targets; an error that is not a gateway error is passed on by the code and is not an outcome here.
- RunGate.ConversationGate.Interrupt: suppressing the task deliveries is `TaskRuntime.Runtime.SuppressConversationTaskDeliveries`.
- RunGate.ConversationGate.RunLoop: takes a finite list of turns, where the code loops until it returns; the theorems are about runs of any length.
- PoolModel.SlotsConserved: registering a new worker and leasing it are one step; a shutdown that is cut off leaves its slot among those on their way out for good.
- `TurnLimitRegistry.reserve` suspends between finding its turn and locking it; closing the token in between changes no turn.
- The per-key locks of the pool, which only exclude interleavings that are covered here.
