# erlang-monitor: verified models

This project models the parts of erlang-monitor whose correctness depends on
many steps or many goroutines, and proves what they keep. `dafny verify
dfyconfig.toml` checks everything.

- **Ops Agent task protocol** (`Ops*.dfy`). One task is shared by a runner, an
  approval entry point, a deadline watcher, cancellation and a reaper. The
  model is a transition system with one step per critical section of the
  agent's mutex; every goroutine is a thread with a program counter, any number
  of which may exist. `OpsTask` holds the shared record, once as a value with
  one function per section and once as the mutable class whose methods are
  proved to do the same. Model replies, shell outputs, the three validators,
  argument decoding, the exemption test and text clipping are arbitrary.
  `OpsSequential` is the plain interpreter that the protocol is shown to refine.
  `OpsLoop` has the source's methods over the mutable class: loops that pause
  for an approval, the decision, and the resumption from the saved queue; taken
  one after the other they compute the same. `OpsLiveness` says when a task can
  still end, `OpsEvents` and `OpsStory` what its event log says: the end as it
  was recorded, each command that waits and each decision, and otherwise exactly
  the history of rounds, decisions and executions.
- **Event delivery** (`EventLog.dfy`). Appends, offers, reads and subscriptions
  interleave freely.
- **Shell lexers** (`ShellLexer`, `NullRedirection`, `NullRedirectionLaws`,
  `ApprovalSplit`, `ApprovalSplitLaws`, `ApprovalBytes`, `ApprovalExempt`). Both lexers run one
  quote and escape automaton, whose states are also described as tokens. Each is
  compared with an independent reference: a set of disjoint justified edits, a
  grammar of pieces, and conditions on single bytes (`ApprovalBytes`).
- **Exporter poller** (`PollerWorkers`, `UpdateChannel`, `Confirmation`,
  `NodeStatus`, `NodeTotals`, `NodeNames`). Worker reconciliation on mutable
  objects, the latest-wins channel as an interleaved system, the confirmation
  schedule that grows while it is worked through, and the status counters over
  one targeted pass and over a collection with all the passes that follow it.
- **Status store** (`StatusStore.dfy`). Memory under one lock, snapshot and
  write under another, any number of threads, writes that may fail.
- **Hot reload** (`HotReload.dfy`). The digest test against parsing every time.
- **Process index and shell quoting** (`ProcessIndex`, `ShellQuote`). The
  two-key index against linear search, and quoting undone by the quoting rules
  of POSIX.1-2017, Shell Command Language, sections 2.2.1 to 2.2.3.
- **Conversation builder** (`TailFitting`, `Conversation`). Exact lengths of a
  bounded question whose clipping overshoots.

Where the code keeps less than one would expect, the exact condition is proved
and a concrete case shows the failure:

- `Failed` is not absorbing (`OpsRuns.FailedLeftOnlyByParking`; the run is in
  `OpsWitness.FailedTaskAwaitsApproval`).
- A cancelled task may never end: exactly when a command waits for a decision
  or lies ahead of its owner (`OpsLiveness.CanStillEnd`; `StrandedForGood`).
- A segment that ends in an escape after trimming does not survive joining
  (`ApprovalSplitLaws.SplitJoin`; `DanglingEscapeLost`). The splitter's only
  caller passes trimmed text, for which the list always survives
  (`TrimmedSplitJoin`).
- An error outlives a good scan (`HotReload.GoodScanError`;
  `ErrorOutlivesGoodScan`).
- A node name without a host part can be shadowed in the process index
  (`ProcessIndex.LookupIsSearch`; `ShadowedWitness`).
- One targeted pass does not conserve the node total when the count is already
  zero (`NodeStatus.TotalConserved`; `TotalNotConserved`). After a full
  collection the poller cannot get there while failures are reported under the
  names that were asked for (`NodeTotals.RoundConserves`), which full node names
  ensure (`ProcessIndex.FullNameFound`). A node named without a host part that
  comes back under a full name is counted twice (`RenamedNodeCountedTwice`).
- A question whose fixed parts alone are too long exceeds its limit
  (`Conversation.FitsExactlyWhenFixedPartsFit`; `TooLongForTen`). The page's own
  call cannot get there: its text area holds 4000 characters and it uses the
  default limit of 16000 (`PageQuestionFits`).

## Model

| member | source | states |
|---|---|---|
| OpsRefinement.RunFollows | internal/opsagent/agent.go:98-353 | after any run, wherever the pauses fell in a batch and whatever a deadline, a cancellation or the reaper did, the task stands at, or has run out at, the state that some number of turns of the sequential interpreter gives |
| OpsRefinement.RestingRecordIsTurns | internal/opsagent/agent.go:98-353 | whenever no thread moves the task, paused, ended or cut short, its messages, loaded skills, step count and executions are those of some number of turns |
| OpsRefinement.EndedRunIsResult | internal/opsagent/agent.go:98-353 | when a run has ended the task and its deadline did not pass, messages, loaded skills, step count, executions and ending are those of the interpreter that answers each approval on the spot |
| OpsRefinement.DecisionFollows | internal/opsagent/agent.go:272-353 | an accepted decision with its hand-over is one turn of the interpreter |
| OpsLoop.Dispatch | internal/opsagent/agent.go:184-270 | answers one call as the interpreter's turn does, or pauses with the command pending, validated, not exempt and the later calls saved; which events it adds |
| OpsLoop.ProcessToolCalls | internal/opsagent/agent.go:151-166 | answers the calls of a batch in order until the first pause, whose command is then the first one open; the interpreter's outcome stays |
| OpsLoop.Decide | internal/opsagent/agent.go:272-353 | whichever way the creator decides on the waiting command, the record is the interpreter's one turn later and runs again with the saved queue; which events it adds |
| OpsLoop.ResumeQueuedCalls | internal/opsagent/agent.go:168-182 | takes the saved calls and goes on to the next pause or to the interpreter's end |
| OpsLoop.RunTask | internal/opsagent/agent.go:98-182 | with one decision and one resumption for each pause the task ends, its record, executions and ending are the interpreter's outcome, and its last event is the matching terminal one |
| OpsLoop.WatchTaskDeadline | internal/opsagent/agent.go:436-452 | after a cancellation, or when the task has ended, nothing; otherwise it fails the task and logs that |
| OpsRuns.TranscriptWellFormed | internal/opsagent/agent.go:108-182 | in every reachable state the transcript is system, user, then rounds with one result per call in call order; the call in flight, pending or running as approved, followed by the saved queue, is exactly what the open round still lacks; a model request carries finished rounds only |
| OpsRuns.ExactlyOneHolder | internal/opsagent/agent.go:98-353 | until its end a task is held by exactly one party: one owning thread, or a pending command that the status shows; there is never more than one owner |
| OpsRuns.PendingStaysValid | internal/opsagent/agent.go:272-340 | at most one party owns the task, what waits for approval passes all three validators with the skills loaded now, and no decision can take a rejection branch of the revalidation |
| OpsRuns.FrozenWhilePending | internal/opsagent/agent.go:151-181 | while a command is pending nothing but its accepted decision changes skills, queue, transcript or the pending command |
| OpsRuns.ExecutionsWarranted | internal/opsagent/agent.go:232-351 | each requested call reaches the shell at most once and in request order, with the requested command, and is exempt or approved by the creator under its call ID; a denied call never executes |
| OpsRuns.ApprovedFirst | internal/opsagent/agent.go:272-349 | an execution that is not exempt has an earlier accepted approving Decide of the task's creator naming that call |
| OpsRuns.DecisionHappened | internal/opsagent/agent.go:272-296 | every recorded decision goes back to an accepted Decide by an administrator with the same actor, call and verdict |
| OpsRuns.OneTerminalEvent | internal/opsagent/agent.go:436-504 | over all interleavings of runner, Decide, watcher, cancel and reaper the log holds at most one terminal event |
| OpsEvents.EndIsAnnounced | internal/opsagent/agent.go:436-504 | a completion in the log means a completed task and a failure a recorded one; once the end is recorded, the task still listed and nothing left to emit, the log holds exactly the matching terminal event and the context has ended |
| OpsEvents.WaitingIsAnnounced | internal/opsagent/agent.go:254-263 | every request for approval in the log is for a command that waited under that call ID, and the command that waits is in the log once nothing is left to emit |
| OpsEvents.DecisionsAnnounced | internal/opsagent/agent.go:290-351 | announced and recorded decisions are the same, by call, verdict and actor |
| OpsEvents.LogGrowsWhileListed | internal/opsagent/agent.go:454-467 | the log only grows at its end; a task off the table has an ended context and a log that no longer changes |
| OpsStory.LogTellsHistory | internal/opsagent/agent.go:98-351 | apart from ends and requests for approval the log is always a front part of the story of its rounds, decisions and executions, in order: model calls by step and outcome, what was said, verdicts, starts and finishes by call; while listed only the owner's outbox is missing |
| OpsRuns.CompletedAbsorbing | internal/opsagent/agent.go:477-490 | Completed is never left and its answer and transcript never change |
| OpsRuns.NoDecisionAfterContextEnds | internal/opsagent/agent.go:286-289 | once the task context has ended no Decide is accepted for the rest of the run |
| OpsRuns.FailedLeftOnlyByParking | internal/opsagent/agent.go:254-263 | Failed is left if and only if a runner parks a command after the deadline failed the task |
| OpsWitness.FailedTaskAwaitsApproval | internal/opsagent/agent.go:254-263 | a reachable failed task that an action turns into one awaiting approval |
| OpsBound.MovesDescend | internal/opsagent/agent.go:98-182 | every action that moves the task lowers the lexicographic measure of steps left, outstanding reply, unanswered calls and place in the current call |
| OpsBound.OthersKeepMeasure | internal/opsagent/agent.go:98-182 | no other action raises that measure |
| OpsBound.NeverStuck | internal/opsagent/agent.go:98-353 | a task that has not ended can always be moved on by its owner, or, while listed and live, by either decision of its creator |
| OpsLiveness.WorkEnds | internal/opsagent/agent.go:98-353 | from any state that has not ended the task's own moves reach its end, for all answers and decisions while it is listed and live, and without decisions when the model fails and no command waits or lies ahead |
| OpsLiveness.AlwaysWatched | internal/opsagent/agent.go:93-95 | in every reachable state that has not ended and whose context was not cancelled some thread watches the deadline or will start to |
| OpsLiveness.DeadlineEnds | internal/opsagent/agent.go:436-452 | unless its context was cancelled, a task that has not ended, parked or at work, is failed with the deadline's message by the watcher's steps alone; a pending command stays |
| OpsLiveness.StrandedForGood | internal/opsagent/agent.go:286-296 | no sequence of actions ends a cancelled task that waits for a decision or whose owner must come to one |
| OpsLiveness.CanStillEnd | internal/opsagent/agent.go:98-452 | a reachable task that has not ended can still end if and only if its context was not cancelled, or no command waits and none lies ahead of its owner before the next model request |
| OpsBound.ModelCallsBounded | internal/opsagent/agent.go:98-107 | across any pauses and resumes the model replies received, plus one if a request is out, equal the step count, which never exceeds MaxSteps |
| OpsTask.TaskState.NextStep | internal/opsagent/agent.go:100-109 | counts a step only below the limit and hands out the whole transcript |
| OpsTask.TaskState.AwaitApproval | internal/opsagent/agent.go:254-259 | parks the command and the status without a terminal test, nothing else |
| OpsTask.TaskState.TakeQueued | internal/opsagent/agent.go:168-176 | hands the saved queue over only to a running task and empties it |
| OpsTask.TaskState.Complete | internal/opsagent/agent.go:477-487 | writes the answer over a task that is not terminal, otherwise nothing |
| OpsTask.TaskState.FailOnDeadline | internal/opsagent/agent.go:441-451 | fails a running or awaiting task and leaves its pending command in place |
| OpsTask.TaskState.TakeDecision | internal/opsagent/agent.go:272-340 | the verdict for every caller and state, in the order of the tests, and the whole record each verdict leaves |
| OpsSafety.VerdictMeans | internal/opsagent/agent.go:272-340 | for any record a decision is accepted exactly from an administrator who is the creator, on the waiting call of a listed, live task, and an approval passes exactly if the three validators do |
| EventLog.Hub.Append | internal/opsagent/agent.go:454-467 | does nothing for a task that is gone; otherwise numbers the event by its position and names the watchers of that moment |
| EventLog.Hub.Subscribe | internal/opsagent/agent.go:413-431 | refuses for a task that is gone; otherwise registers the channel and returns exactly the events past the given ID in order |
| EventLog.BoardSteps | internal/opsagent/agent.go:413-475 | each action of the interleaved system changes listing, log and watchers as these methods do, offers go to the watchers they name, and a subscriber gets the history they return |
| EventLog.EachEventOnce | internal/opsagent/agent.go:413-475 | event k has ID k+1; an event before the subscription is in its history exactly once if past lastID and never offered; one after it is offered exactly once and not in the history |
| EventLog.HistoryInOrder | internal/opsagent/agent.go:413-431 | a subscriber's history is the log's end as it joined, oldest first, from the first ID past lastID on |
| EventLog.FirstInFirstOut | internal/opsagent/agent.go:468-474 | what a subscriber has read, and that followed by what waits in its channel, only ever grows at the end |
| EventLog.LossOnlyWhenFull | internal/opsagent/agent.go:468-474 | every offer is read, still buffered, or was made to a full channel |
| ShellLexer.BareIsTokenized | internal/opsagent/shell.go:139-178 | a position is outside quotes exactly when the text before it is plain characters, escaped characters and whole quotations |
| ShellLexer.DoubleIsOpened | internal/opsagent/shell.go:139-178 | a position is inside double quotes exactly when a bare double quote stands before it and has not closed |
| NullRedirection.HasUnsupportedExplicitOutputDescriptor | internal/opsagent/shell.go:212-225 | answers whether a whole word of digits other than 1 and 2 stands before the operator |
| NullRedirection.StripAllowedNullOutputRedirections | internal/opsagent/shell.go:139-210 | the lexer computes the trimmed policy copy of the reference scan |
| NullRedirectionLaws.StripStructure | internal/opsagent/shell.go:139-210 | the copy is the command with disjoint bare null redirections each replaced by one space, every quoted or escaped byte kept, the same quote and escape state at every written byte |
| NullRedirectionLaws.RedirectionGrammar | internal/opsagent/shell.go:180-232 | a span is a null redirection exactly when the command reads as some text, ">" or "&>", blanks, "/dev/null" and the end or a token boundary, where ">" follows no ">", "<", "&" and no number of its own but 1 and 2 |
| NullRedirectionLaws.AddedNullRedirection | internal/opsagent/shell.go:139-210 | adding " >/dev/null" leaves the policy copy unchanged if and only if the command closes its quotes |
| ApprovalSplit.SplitApprovalExemptSegments | internal/opsagent/shell.go:246-318 | the loop accepts and returns what the recursive reader does |
| ApprovalSplitLaws.SplitMeetsGrammar | internal/opsagent/shell.go:246-318 | a command is accepted exactly when the grammar of balanced pieces joined by bare pipes and double ampersands derives it, and every derivation gives the same trimmed pieces |
| ApprovalBytes.AcceptedBytes | internal/opsagent/shell.go:246-318 | a command is accepted if and only if its quotes close, each byte is allowed in its state (the bytes are listed), pipes are single and ampersands double, and something stands before each separator and at the end |
| ApprovalBytes.NothingElseRuns | internal/opsagent/shell.go:281-305 | of an accepted command, position by position: no line end, semicolon, redirection, backquote, parenthesis or substitution where it would act |
| ApprovalSplitLaws.SplitJoin | internal/opsagent/shell.go:246-318 | joining the pieces by spaced pipes and splitting again returns them if the last piece has no dangling escape, and is refused otherwise |
| ApprovalSplitLaws.TrimmedSplitJoin | internal/opsagent/shell.go:113-114 | for trimmed commands, which is all the caller passes, joining and splitting again always returns the list |
| ApprovalSplitLaws.DanglingEscapeLost | internal/opsagent/shell.go:246-318 | "ls", a backslash and a space split into one piece that is refused when split again |
| ApprovalExempt.FindHasWriteAction | internal/opsagent/shell.go:236-244 | finds a write action if and only if some field is one |
| ApprovalExempt.IsApprovalExemptCommand | internal/opsagent/shell.go:109-132 | the method decides exactly IsExempt |
| ApprovalExempt.ExemptMeetsGrammar | internal/opsagent/shell.go:109-132 | outside the analysis allowlist a command is exempt if and only if its policy copy has a derivation in which every piece is a listed program that writes nothing |
| ApprovalExempt.ExemptSpelled | internal/opsagent/shell.go:109-132 | a command needs no approval exactly when it is on the analysis allowlist, or its policy copy is acceptable byte by byte and each piece starts with one of the eight programs, unquoted, and a find has none of the five write actions |
| ApprovalExempt.FieldsAreWords | internal/opsagent/shell.go:119-121 | the fields of a piece are its words in order, with only white space around them |
| ApprovalExempt.BaseSplits | internal/opsagent/shell.go:123 | the program name is what stands between the last slash or backslash and any at the end |
| ApprovalExempt.SegmentHasProgram | internal/opsagent/shell.go:118-121 | every segment has a first field, so the loop's test for none never fires |
| ApprovalExempt.NullRedirectionKeepsVerdict | internal/opsagent/shell.go:109-132 | for every command that is not blank, quotes closed or not, sending its output to /dev/null does not change whether it needs approval, provided the analysis allowlist judges both forms alike |
| PollerWorkers.Poller.Start | internal/exporter/exporter.go:211-225 | the first call gives each enabled server one running, up-to-date worker with that server's control; a later call changes nothing |
| PollerWorkers.Poller.ApplyConfig | internal/exporter/exporter.go:233-290 | keeps: worker keys are the enabled IDs, each worker runs, holds its ID's control and is up to date; controls survive while their ID stays; wanted workers stay the same objects, changed ones get exactly the new configuration, unchanged ones keep every field; the others are cancelled and have returned; new controls are automatic |
| PollerWorkers.Poller.ReconcileLoop | internal/exporter/exporter.go:263-277 | every field of every running worker after the loop, the workers that stay, and the list of those retired; it writes no worker outside the map |
| PollerWorkers.Poller.RetiredApart | internal/exporter/exporter.go:263-287 | while retired goroutines still run no worker of the map has the ID of one of them |
| PollerWorkers.Poller.StartMissing | internal/exporter/exporter.go:278-283 | afterwards every enabled server has an up-to-date worker, old ones untouched |
| PollerWorkers.OneLiveWorkerEach | internal/exporter/exporter.go:211-302 | between calls no server ID has two goroutines that have not returned, and with a live context exactly one runs for each enabled server |
| UpdateChannel.QueueAlone | internal/exporter/exporter.go:304-315 | with nothing in between, the three operations leave exactly the new configuration in the channel, full or empty before |
| UpdateChannel.SenderNeverBlocks | internal/exporter/exporter.go:304-315 | whatever the worker does in between, the final plain send finds the channel empty |
| UpdateChannel.SendEnds | internal/exporter/exporter.go:304-315 | a call of queueServerUpdate is over after at most three channel operations |
| UpdateChannel.LatestConfigWins | internal/exporter/exporter.go:304-333 | between calls of ApplyConfig the newest of queued, in hand and in use is the current configuration |
| UpdateChannel.SettledOnCurrent | internal/exporter/exporter.go:317-363 | a live worker with nothing left to take up uses the current configuration |
| UpdateChannel.NeverGoesBack | internal/exporter/exporter.go:329-333 | every update a worker adopts is newer than the one it used |
| UpdateChannel.OnlyOvertakenAreDropped | internal/exporter/exporter.go:310-313 | a drained update is never the newest |
| UpdateChannel.OnlyChangesAreSent | internal/exporter/exporter.go:274-276 | a worker is only sent a configuration that differs from the one before |
| UpdateChannel.ConfiguredIsCurrent | internal/exporter/exporter.go:233-276 | what is handed over is the current configuration from then on, and nothing else changes it |
| NodeNames.MergeNodeNames | internal/exporter/exporter.go:443-457 | the strictly sorted union of both lists |
| NodeNames.StrictlySortedUnique | internal/exporter/exporter.go:443-457 | a strictly sorted list is determined by its members, so the merge does not depend on map order |
| NodeNames.LessMeans | internal/exporter/exporter.go:455 | names are ordered by their first difference, a front part before the whole |
| Confirmation.ConfirmationScopeFor | internal/exporter/exporter.go:598-620 | exactly the failed nodes, and those with more processes waiting than their schedulers times the multiple (64-bit), are in scope; a full retry is asked for exactly when an error names neither; every error asks for something |
| Confirmation.ConfirmationSchedule | internal/exporter/exporter.go:415-429 | the fast pass, then the failure pass, unless the latter's delay is shorter; everything in the scope is looked at, at its delay, and nothing else |
| Confirmation.SortPassesStable | internal/exporter/exporter.go:427-439 | the sort orders by delay, keeps every pass and keeps the order of equal delays |
| Confirmation.AddFailureConfirmation | internal/exporter/exporter.go:431-441 | merges into the first failure pass ahead, or adds one and sorts what is ahead |
| Confirmation.AddedTargets | internal/exporter/exporter.go:431-441 | the passes ahead target exactly the nodes they did before and the new ones, and no earlier pass changes |
| Confirmation.Confirm | internal/exporter/exporter.go:388-408 | terminates although it extends its schedule: at most three passes, two when the fast delay is not the longer; cut short or not, the one fast pass has its place and the others look only at nodes that failed at the start or in it; unless cancelled, the exact number of passes, the host, the full retry and every overloaded node the scope names are looked at after the fast delay, and every failed node known at the start or found by the fast pass is targeted by a later failure pass |
| NodeStatus.ApplySelectedConfirmation | internal/exporter/exporter.go:622-722 | node errors are the old ones minus recovered targets plus failed targets, others untouched; FailedNodes is their number; Nodes moves by one for each change and stops at zero; healthy exactly when no node error, host error or collection error remains; times and duration; a server without status gets none; the result goes to memory and file |
| NodeStatus.ErrorOfNode | internal/exporter/exporter.go:638-684 | what becomes of one node: not asked about, answered in full or by its short name, last reported failure, not heard of with or without an error of the collection |
| NodeStatus.TotalConserved | internal/exporter/exporter.go:662-684 | good plus failed nodes never become fewer and are conserved if and only if no target newly fails at a zero count, in particular whenever the old count covers the newly failing targets |
| NodeStatus.TotalNotConserved | internal/exporter/exporter.go:680-683 | with no nodes and no errors, one newly failing target makes the total one |
| NodeTotals.Collect | internal/exporter/exporter.go:483-562 | a full collection replaces the status: failures by name, or the collection's error for every known node when none is named; no node counted on an error; state, host error, times; memory and file |
| NodeTotals.RoundConserves | internal/exporter/exporter.go:376-408 | over a full collection and all passes of its confirmation good plus failed nodes stay the number of the last full collection, if a collector returns no node with an error and a run-queue pass reports failures under the names it was asked for |
| NodeTotals.RenamedNodeCountedTwice | internal/exporter/exporter.go:388-408 | a round in which a busy node answers under another name and fails: the total goes 1, 1, 2 |
| StatusStore.Store.SnapshotLocked | internal/runtime/status.go:75-98 | the snapshot is Capture of memory |
| StatusStore.CaptureMeans | internal/runtime/status.go:75-98 | a snapshot copies memory; it is starting exactly without servers, healthy exactly with all healthy, down exactly with none healthy or degraded, and degraded otherwise |
| StatusStore.Store.Apply | internal/runtime/status.go:42-67 | undisturbed, an update stores its status and a delete removes its server, every other server stays; exactly that memory is written if there is a file, and only the write can fail |
| StatusStore.FileNeverGoesBack | internal/runtime/status.go:42-67 | at any two moments of a run both file contents are versions of the one history of memory and the later version is no smaller |
| StatusStore.ReturnedMeansWritten | internal/runtime/status.go:42-67 | when an update or delete has returned without error the file holds its change or something newer |
| StatusStore.FileShowsOperation | internal/runtime/status.go:42-67 | once an update or delete has returned without error and no later one asked for something else on its server, the file holds that status, or does not hold the server |
| StatusStore.QuietFileEqualsMemory | internal/runtime/status.go:42-73 | when nothing is in flight the last attempt had the newest memory, and if it succeeded the file equals memory |
| StatusStore.OwnVersion | internal/runtime/status.go:42-62 | the version a thread waits for is memory right after its own operation |
| HotReload.HotReloader.Scan | internal/config/hotreload.go:119-156 | one scan of the mutable reloader, for every outcome of the read and the parse |
| HotReload.AgreesWithReparsing | internal/config/hotreload.go:61-156 | with an injective digest that is never the zero value, after every history of good, bad, unreadable and reverted files the active configuration is what parsing each time would leave |
| HotReload.StatusMatchesActive | internal/config/hotreload.go:66-171 | Version is one plus the accepted reloads, and the server summary and ignored nodes describe the active configuration |
| HotReload.ScanMeans | internal/config/hotreload.go:119-156 | after any history: a read error is reported and nothing else changes, seen content changes nothing, unseen invalid content is reported with the parser's words and nothing comes into force, unseen valid content comes into force without error |
| HotReload.GoodScanError | internal/config/hotreload.go:122-151 | after any history, a scan of valid content leaves an error standing if and only if a read failed while that content was the last one seen, with nothing but failures and the same content in between |
| HotReload.ErrorOutlivesGoodScan | internal/config/hotreload.go:119-132 | a read error followed by the unchanged file leaves the error standing |
| HotReload.CollisionMissesReload | internal/config/hotreload.go:127-135 | two valid contents with the same digest: the reload is missed, so the digest hypothesis is needed |
| ProcessIndex.BuildIndex | internal/sshprobe/probe.go:246-258 | the map answers for every name as the one-name account of the loop does |
| ProcessIndex.LookupIsSearch | internal/sshprobe/probe.go:246-258 | the index agrees with linear search if and only if the name is not shadowed, and a shadowed name is not found |
| ProcessIndex.HostedNamesResolve | internal/sshprobe/probe.go:246-258 | with a host part in every node name a full name gives its last process, and a short name resolves only if all its processes share one node name |
| ProcessIndex.FullNameFound | internal/sshprobe/probe.go:246-275 | a name with a host part is found only as a process of exactly that name |
| ProcessIndex.ShadowedWitness | internal/sshprobe/probe.go:250-255 | nodes "a" and then "a@h": linear search finds "a", the index does not |
| ProcessIndex.SelectBeamProcesses | internal/sshprobe/probe.go:259-275 | each requested name once and in order, found or missing, by linear search when every node name has a host part |
| ProcessIndex.SelectionPartitions | internal/sshprobe/probe.go:259-275 | found and missing partition the request |
| ProcessIndex.SelectionInOrder | internal/sshprobe/probe.go:259-275 | found and missing follow the order of the request |
| ShellQuote.QuotedRoundTrip | internal/sshprobe/probe.go:942-944 | reading the space-joined quoted arguments by the shell's quoting rules returns the list, for any contents, empty strings included |
| ShellQuote.QuotedInWord | internal/sshprobe/probe.go:942-944 | a quoted value after other text of a word adds exactly its own characters to that word |
| ShellQuote.QuoteText | internal/sshprobe/probe.go:942-944 | single quotes around the value, each single quote in it written as a quote, a double-quoted quote and a quote, nothing else changed |
| Conversation.BuildConversationQuestion | grafana/plugins/erlang-monitor-controls-app/src/code-logic.js:312-336 | the builder with its backward loop gives Question |
| Conversation.FitsExactlyWhenFixedPartsFit | grafana/plugins/erlang-monitor-controls-app/src/code-logic.js:318-335 | with history the question is within maxLength if and only if prefix and suffix alone are |
| Conversation.PageQuestionFits | grafana/plugins/erlang-monitor-controls-app/src/code-logic.js:312-336 | a question of at most 4000 characters with the default limit always fits, with or without history |
| Conversation.TooLongForTen | grafana/plugins/erlang-monitor-controls-app/src/code-logic.js:319-335 | one turn and a limit of ten: the result is longer than ten |
| Conversation.ShortHistoryShownInFull | grafana/plugins/erlang-monitor-controls-app/src/code-logic.js:318-335 | when the last six turns are within their caps and fit with three characters to spare, the question is the opening, each label and whole text joined by blank lines, and the current question |
| Conversation.NewestTurnsThenCurrent | grafana/plugins/erlang-monitor-controls-app/src/code-logic.js:307-335 | in general each of the newest turns is shown in the room left to it, whole or cut exactly to that room or its cap and marked; an overshoot of at most five characters goes from the front of the oldest |
| Conversation.RelevantAre | grafana/plugins/erlang-monitor-controls-app/src/code-logic.js:315-317 | the history is exactly the user's and assistant's turns that say something, in order |
| Conversation.WithoutHistory | grafana/plugins/erlang-monitor-controls-app/src/code-logic.js:313-318 | without such turns the question is the current one, cut to the limit |
| Conversation.TrimmedSplits | grafana/plugins/erlang-monitor-controls-app/src/code-logic.js:307-309 | trimming takes the white space at both ends and nothing else |
| Conversation.LeftOutOnlyWhenFull | grafana/plugins/erlang-monitor-controls-app/src/code-logic.js:323-332 | a recent turn is left out only when its label would already fill what the newer ones left |
| TailFitting.SelectPieces | grafana/plugins/erlang-monitor-controls-app/src/code-logic.js:323-332 | the backward loop collects what the recursive account does |
| TailFitting.Overshoot | grafana/plugins/erlang-monitor-controls-app/src/code-logic.js:307-332 | the pieces exceed the budget by at most five characters, and then the oldest alone is longer than that |

## Left out

- Task creation checks, random task IDs, the task snapshot, and the reaper's timing: a task starts valid, and the reaper may remove it at any time.
- Model, shell and SSH calls: their results are inputs; their own timeouts are part of those inputs.
- The regular-expression block lists, the mgectl allowlist and the skill rules: uninterpreted validators of the request and the loaded skills.
- JSON encoding of tool results and arguments: results are values, decoding is an arbitrary function.
- Event payloads beyond their kind and identifying fields, timestamps, logging and metrics.
- Strings are sequences of characters where Go works on bytes; the lexers test ASCII characters only, and the byte order of UTF-8 is the order of its characters.
- PollerWorkers.Poller.ApplyConfig: requires distinct server IDs, which configuration validation enforces (internal/config/config.go:244); calls come one after the other, as from the reload loop; the deletion of a retired server's metrics and status is left out.
- PollerWorkers.Worker.Queue: runs its three channel operations undisturbed; UpdateChannel interleaves them with the worker's receives.
- The worker's timer, its auto mode, wake and manual requests: a worker may receive, adopt or stop at any time.
- Confirmation.Confirm: delays are numbers that order the passes; elapsed time is the oracle that says whether a wait was cut short.
- Durations and counters are unbounded integers, except the 64-bit product in the overload test.
- NodeStatus.ApplySelectedConfirmation: leaves out all gauges; the moments it reads the clock are inputs.
- The tracking of known node names: a collection is given those known when it reports.
- NodeTotals.RoundConserves: what a collector promises is a hypothesis on its results; dialling, discovery and probing of nodes are left out.
- StatusStore.Store.WriteFile: the temporary file and its rename are one step that succeeds or leaves the old file; directory creation is part of it.
- The time of the last change in a snapshot.
- HotReload.StatusMatchesActive: a scan is one step; between the return of apply and the second lock (internal/config/hotreload.go:139-143) a reader sees the new configuration in force with the old summary.
- HotReload: start-up with an unreadable file (no reloader is created), the ticker, check times, and a missing apply function.
- ApprovalExempt.IsApprovalExemptCommand: case folding and the mgectl analysis allowlist are arbitrary functions.
- ProcessIndex.SelectBeamProcesses: a process is its PID and node name; discovery and expected-node checks are left out.
- ShellQuote: unquoted special characters make the reader refuse the text, as expansions are not plain words.
- Conversation.BuildConversationQuestion: characters stand for UTF-16 units, so a cut inside a surrogate pair is not represented; maxLength is not negative; turns whose content is not text are not represented.
- Alert delivery and rendering with its glob matching of node names (internal/dingtalk): no result above reads them.
- CPU and network rates, which compare two counter samples: the counters are part of the gauges left out above.
- Configuration defaults and field validation: a parse result is arbitrary in HotReload, and only the uniqueness of server IDs is used.
- The HTTP handlers and the web pages other than the conversation builder: they call the operations modelled here.
- OpsLoop.RunTask: one thread at a time and no deadline; the interleaving with watcher, cancellation and reaper is in OpsProtocol.
