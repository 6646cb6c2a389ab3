# Verified model of the app-server client, daemon and analytics core

This Dafny project models the parts of the repository whose correctness depends on long runs and on
interleaving, and proves what those parts promise for every input, every run and every schedule.
`dafny verify dfyconfig.toml` checks all of it.

| files | what they model |
|---|---|
| `Reducer.dfy`, `AnalyticsFacts.dfy` | the analytics reducer as a transition function over its seven tables |
| `ReducerTurns.dfy`, `ReducerJoin.dfy`, `ReducerCounters.dfy`, `ReducerReviews.dfy` | what every run of the reducer keeps: which facts a turn depends on, the join of its facts, its counters and reviews |
| `ReducerOutputs.dfy` | what each fact pushes and leaves, written out from the tables, and where every approval request and item start has gone |
| `ReducerObject.dfy` | the reducer as the mutable object it is, each method proved equal to the transition function, with the history it has ingested |
| `AcceptedLines.dfy` | the unified-diff line counter, with an independent printer of structured diffs |
| `AnalyticsClient.dfy` | batching of analytics events and the bounded dedupe sets |
| `EventForwarder.dfy` | the in-process event forwarder and its worker over a bounded channel |
| `RemoteClient.dfy`, `RemoteClientRuns.dfy`, `RemoteClientObject.dfy` | the remote client: handshake, worker, event stream |
| `Daemon.dfy`, `DaemonRuns.dfy` | the daemon's lifecycle operations under the operation lock, with the updater |
| `DaemonAlone.dfy` | what each operation does when nothing else moves and every call works |
| `SchemaFixtures.dfy`, `SchemaOrder.dfy`, `Ordering.dfy` | JSON canonicalisation for schema fixtures and the order it sorts into |
| `JsonText.dfy`, `JsonPretty.dfy`, `JsonReader.dfy` | compact and indented JSON text, and a reader for the round trip |
| `Common.dfy`, `WhiteSpace.dfy` | options, sequence helpers, trimming and words |

How the pieces are modelled:

- A component that updates variables in place is a class whose methods are proved equal to a transition
  function. A run is a sequence of steps of that function, and the main results are about all runs.
- Clocks, the git remote hash, write results and probe results are inputs of the step that uses them.
- Where two tasks share state, a step is one atomic action of one of them, so a run is any schedule.
- Payload fields that are only copied are kept as strings. SHA-1 is symbolic: a digest is the pair of
  domain and text it was computed from. `char::is_alphanumeric` is a parameter.
- A remote command is known by its ticket, its position among the dequeued commands; the ticket stands
  for the one-shot channel its reply goes to. `writes` records attempted writes.

What the proofs found:

- Forwarder: the documentation of `forward_in_process_event` says a dropped server request is always
  rejected. The code does not reject a request that meets a gone receiver (`RequestLostUnanswered` gives
  the runs). `RequestLostIff` is the guard of that step, and `EveryRequestDisposedIff` says that a run
  keeps the promise if and only if none of its steps is under that guard.
- Forwarder: the documentation lists the lossless tier without `ThreadSettingsUpdated` and says the
  remote transport uses the same classification. The code includes that notification, and the remote
  worker does not classify at all because its channel is unbounded. The model follows the code.
- Daemon: a change of the remote-control flag saves the flag before it stops the server. If the
  operation ends between the two, a server with the old flag keeps running, and repeating the command
  reports success without repairing it (`FailedStopDisagrees`, `RetryDoesNotRepair`). `SettingsAgreement`
  and `InterruptionBreaks` give the exact condition; `ReportedChangesAgree` says which outcomes repair it.
- Diff parser: a path is kept exactly when it does not end in white space (`PathKeptIff`), a path that git
  prints as a C string is kept with its quotes and escapes (a case of `ParseRendered`), and patches
  that follow each other without a `diff --git ` line are miscounted by exactly one line each way once
  the first has a hunk (`NameLinesNeedGitHeader`).

## Model

| member | source | states |
|---|---|---|
| ReducerJoin.OrderIndependence | codex-rs/analytics/src/reducer.rs:606-653 | for every order of the start response, resolved config, profile and completion of a turn, with token usage, diffs, start notice, errors, tool ends and steers of the turn in between and any foreign facts, exactly one turn event is pushed, by the last of the four; its content depends on the four and on the other facts of the turn that took effect, and not on where the four fall |
| ReducerJoin.JoinedRun | codex-rs/analytics/src/reducer.rs:1435-1487 | after any part of such a run the turn's entry is the pieces seen so far laid over what its other facts made of it, and the events have been pushed exactly if all four are in |
| ReducerJoin.ExtraStep | codex-rs/analytics/src/reducer.rs:1070-1185 | another fact of the turn commutes with the pieces: it changes the entry the same way whichever of them are in, and pushes nothing about the turn |
| ReducerJoin.RenderedDiffReported | codex-rs/analytics/src/reducer.rs:2352-2380 | the accepted-lines event of a turn whose last diff git has printed carries the lines its hunks add and the lines they delete, and there is none if both are zero |
| ReducerTurns.NonInterference | codex-rs/analytics/src/reducer.rs:1070-1185 | two runs that differ only in notifications and custom facts of other turns push the same events about a turn, from any state |
| ReducerTurns.ErasedRun | codex-rs/analytics/src/reducer.rs:606-653 | deleting the facts of other turns from a run changes neither a turn's entry nor the tables it reads nor its events |
| ReducerTurns.OtherTurnUntouched | codex-rs/analytics/src/reducer.rs:381-497 | a fact leaves the entry of every turn it does not write alone and pushes no event about it |
| ReducerTurns.StepsRegistry | codex-rs/analytics/src/reducer.rs:381-497 | requests, connections and threads evolve by themselves: no turn, item or review fact reaches them; a sub-agent thread keeps its own connection and metadata and otherwise takes its parent's connection |
| ReducerTurns.TurnEventStep | codex-rs/analytics/src/reducer.rs:1435-1487 | an event about a turn uses up the connection that one matched start response put on its entry |
| ReducerTurns.AtMostOncePerStart | codex-rs/analytics/src/reducer.rs:793-808 | in every run, turn events about t never outnumber the start responses for t that matched a pending request, even when late facts recreate the entry |
| ReducerTurns.AtMostOncePerRequest | codex-rs/analytics/src/reducer.rs:575-604 | from the empty reducer, turn events never outnumber the turn start requests ingested |
| ReducerCounters.EntryCountsHistory | codex-rs/analytics/src/reducer.rs:356-378 | in every reachable state a turn's tool counters and steer count are the counts over the run since its entry was created, per kind and in total |
| ReducerCounters.TurnEventCountsHistory | codex-rs/analytics/src/reducer.rs:2382-2509 | a turn event reports those counts: the total equals the sum of the seven kinds and the number of tracked completions |
| ReducerCounters.TurnEventNeedsEntry | codex-rs/analytics/src/reducer.rs:1435-1487 | no single fact completes a turn that had no entry |
| ReducerCounters.StepCounts | codex-rs/analytics/src/reducer.rs:1302-1325 | one fact changes a turn's counters only by a tracked completion or an accepted steer, and an event carries the counters from before it |
| ReducerReviews.SummariesRefineHistory | codex-rs/analytics/src/reducer.rs:1416-1433 | in every reachable state an item's summary is the summary of its reviews since they were last cleared: counts per reviewer, last outcome, whether any asked for more |
| ReducerReviews.ToolEventReportsReviews | codex-rs/analytics/src/reducer.rs:1951-1989 | a tool event reports exactly those reviews: how many, by whom, the outcome the last one stands for, whether any asked for more; and clears them |
| ReducerReviews.StepSummary | codex-rs/analytics/src/reducer.rs:1368-1433 | a fact changes an item's summary only by completing a review of it or by ending the item |
| ReducerReviews.ItemReviewsOnly | codex-rs/analytics/src/reducer.rs:1572-1583 | permission and network reviews are never counted for an item, and an item's reviews carry its thread and turn |
| ReducerReviews.ReviewersPartition | codex-rs/analytics/src/reducer.rs:1416-1433 | guardian and user reviews add up to all reviews |
| ReducerOutputs.StepPending | codex-rs/analytics/src/reducer.rs:819-1018 | pending reviews are opened by approval requests and settled by answers and aborts, and by nothing else; the review opened says what was asked |
| ReducerOutputs.ReviewsConserved | codex-rs/analytics/src/reducer.rs:819-1018 | in every run, the approval requests that opened a review are exactly those reported by a review event, those still pending, those replaced under the same id and those settled while their thread had no registered connection |
| ReducerOutputs.ItemsConserved | codex-rs/analytics/src/reducer.rs:1070-1185 | in every run, the starts of an item are exactly those reported by a tool event, the one outstanding, those replaced by another start and those taken out by an end that could not be reported |
| ReducerReviews.ReachableContexts | codex-rs/analytics/src/reducer.rs:524-550 | in every reachable state each thread has metadata and the connection it records is initialised, however it was inherited |
| ReducerReviews.LookupFailsOnlyWithoutConnection | codex-rs/analytics/src/reducer.rs:1489-1525 | so a context lookup fails exactly when the thread is unknown or has no connection yet |
| ReducerOutputs.StepPushes | codex-rs/analytics/src/reducer.rs:381-497 | in every state every fact pushes exactly the events written out for it and no others: a settled review, an ended item, a steer, a completed turn, a thread, a compaction, a guardian review or the payloads given, each with its content, if its context is registered, and nothing otherwise |
| ReducerOutputs.StepLeavesEntry | codex-rs/analytics/src/reducer.rs:606-653 | what every fact leaves of every turn's entry: the entry with the fact in it, and none once the turn has been reported |
| ReducerOutputs.AnswerPushes | codex-rs/analytics/src/reducer.rs:935-1018 | an answer or abort pushes one review event, with the review, the user as reviewer, the status and resolution the answer stands for and its time, if the review is pending and its thread registered, and nothing otherwise |
| ReducerOutputs.GuardianPushes | codex-rs/analytics/src/reducer.rs:1368-1414 | a guardian notice pushes one review event if it is terminal, its times are not negative and its thread is registered, and nothing otherwise |
| ReducerOutputs.UserReviewsPushed | codex-rs/analytics/src/reducer.rs:1368-1414 | the user review events a fact pushes are one if it settles a review whose thread is registered, and none otherwise |
| ReducerOutputs.ItemEventsPushed | codex-rs/analytics/src/reducer.rs:1070-1185 | the tool events a fact pushes for a key are one if it ends that item with a known start, turn and context, a final status and a time, and none otherwise |
| ReducerOutputs.StepStarts | codex-rs/analytics/src/reducer.rs:1070-1185 | the start time of an item is the latest one given, until the item ends |
| ReducerOutputs.UserReviewIdMeans | codex-rs/analytics/src/reducer.rs:1995-1997 | a user review is named after its request: the text, or the decimal digits of the number |
| ReducerOutputs.ChainInherits | codex-rs/analytics/src/reducer.rs:524-550 | however long a chain of sub-agents, each started by the one before, all of them have the connection of the thread the chain started from |
| ReducerObject.AnalyticsReducer.constructor | codex-rs/analytics/src/reducer.rs:381-497 | a new reducer is empty and has no history |
| ReducerObject.AnalyticsReducer.Ingest | codex-rs/analytics/src/reducer.rs:381-497 | the object is always the state reached by the facts ingested, so the results about runs are about it, and the events returned are the last ones of that run |
| ReducerObject.AnalyticsReducer.Dispatch | codex-rs/analytics/src/reducer.rs:381-497 | ingesting a fact takes exactly one step of the transition function |
| ReducerObject.AnalyticsReducer.IngestRequest | codex-rs/analytics/src/reducer.rs:575-604 | records a start or steer request under its key |
| ReducerObject.AnalyticsReducer.IngestResponse | codex-rs/analytics/src/reducer.rs:759-817 | takes the pending request out whichever kind it is, then opens the thread, joins the turn or counts the steer |
| ReducerObject.AnalyticsReducer.IngestErrorResponse | codex-rs/analytics/src/reducer.rs:1020-1068 | takes the pending request out and reports a rejected steer |
| ReducerObject.AnalyticsReducer.EmitTurnSteerEvent | codex-rs/analytics/src/reducer.rs:1327-1366 | a steer event is pushed exactly when its connection and thread metadata are known |
| ReducerObject.AnalyticsReducer.MaybeEmitTurnEvent | codex-rs/analytics/src/reducer.rs:1435-1487 | checking the pieces one at a time emits exactly when the join is complete, and removes the entry |
| ReducerObject.AnalyticsReducer.IngestServerRequest | codex-rs/analytics/src/reducer.rs:819-933 | an approval request opens a review unless its start time is negative |
| ReducerObject.AnalyticsReducer.SettleReview | codex-rs/analytics/src/reducer.rs:935-1018 | an answer consumes its pending review and takes the step that `AnswerPushes` is about |
| ReducerObject.AnalyticsReducer.EmitReviewEvent | codex-rs/analytics/src/reducer.rs:1368-1414 | records the review on its item and pushes its event as `StepPushes` says |
| ReducerObject.AnalyticsReducer.RecordItemReviewSummary | codex-rs/analytics/src/reducer.rs:1416-1433 | the summary after one more review |
| ReducerObject.AnalyticsReducer.ThreadContextOrWarn | codex-rs/analytics/src/reducer.rs:1489-1525 | the context of a thread or what is missing from it |
| ReducerObject.AnalyticsReducer.IngestNotification | codex-rs/analytics/src/reducer.rs:1070-1185 | item, guardian and turn notifications |
| ReducerObject.AnalyticsReducer.IngestItemCompleted | codex-rs/analytics/src/reducer.rs:1070-1185 | counts a tracked item, takes its start out, pushes its event and clears its reviews |
| ReducerObject.AnalyticsReducer.IngestCustom | codex-rs/analytics/src/reducer.rs:606-653 | custom facts |
| ReducerObject.AnalyticsReducer.IngestTurnResolvedConfig | codex-rs/analytics/src/reducer.rs:606-619 | fills in the config, its thread and image count, and tries the join |
| ReducerObject.AnalyticsReducer.IngestTurnTokenUsage | codex-rs/analytics/src/reducer.rs:621-631 | fills in the usage and its thread, and tries the join |
| ReducerObject.AnalyticsReducer.IngestTurnProfile | codex-rs/analytics/src/reducer.rs:633-642 | fills in the profile and tries the join |
| ReducerObject.AnalyticsReducer.IngestTurnCodexError | codex-rs/analytics/src/reducer.rs:644-653 | fills in the error, and the thread if none is known, and does not try the join |
| ReducerObject.AnalyticsReducer.IngestSubAgentThreadStarted | codex-rs/analytics/src/reducer.rs:524-550 | a sub-agent thread inherits its parent's connection unless it has one, and its first metadata stays |
| AcceptedLines.ParseRendered | codex-rs/analytics/src/accepted_lines.rs:30-83 | for every well-formed list of files and hunks, parsing its printed diff gives back the structure's counts and, in order, the fingerprints: the digest of the file's path and that of the line's words, for the lines that are long enough and not only punctuation; even for body lines that look like headers |
| AcceptedLines.ParseDistributes | codex-rs/analytics/src/accepted_lines.rs:30-83 | the summary of two texts joined at a `diff --git ` line is the sum of their summaries |
| AcceptedLines.NameLinesNeedGitHeader | codex-rs/analytics/src/accepted_lines.rs:39-62 | two patches printed without that line are counted right exactly when the first has no hunk; otherwise one added and one deleted line too many |
| AcceptedLines.PathKeptIff | codex-rs/analytics/src/accepted_lines.rs:143-155 | a printed path is recovered exactly when it does not end in white space |
| AcceptedLines.DiffPathMeans | codex-rs/analytics/src/accepted_lines.rs:143-155 | of a trimmed path one prefix `a/` or `b/` is taken off, and `/dev/null` is no path |
| AcceptedLines.ParseIgnoresCr | codex-rs/analytics/src/accepted_lines.rs:39-76 | a carriage return at the end of a line changes nothing |
| AcceptedLines.CountsIgnoreAlphabet | codex-rs/analytics/src/reducer.rs:2352-2380 | the counts an event carries do not depend on which characters count as alphanumeric |
| AcceptedLines.NormalizeIdempotent | codex-rs/analytics/src/accepted_lines.rs:157-169 | a normalised line is its own normal form |
| AcceptedLines.Utf8LenMeans | codex-rs/analytics/src/accepted_lines.rs:157-169 | the length that is compared counts the bytes of the characters, one to four each |
| WhiteSpace.WordsKeepText | codex-rs/analytics/src/accepted_lines.rs:157-169 | splitting a line into words loses nothing but the white space |
| WhiteSpace.TrimEndMeans | codex-rs/analytics/src/accepted_lines.rs:143-155 | trimming takes off all of the white space at the end and nothing else |
| WhiteSpace.TrimStartMeans | codex-rs/analytics/src/accepted_lines.rs:143-155 | the same at the start |
| AcceptedLines.AcceptedLineFingerprintsFromUnifiedDiff | codex-rs/analytics/src/accepted_lines.rs:30-83 | the loop computes the summary those results are about |
| AcceptedLines.ParseOneLine | codex-rs/analytics/src/accepted_lines.rs:39-76 | the loop body advances the parser by one line |
| AnalyticsClient.TrackEventRequestBatches | codex-rs/analytics/src/client.rs:427-448 | the batches concatenate to the input, isolate exactly the fingerprint events and leave no two neighbours that could be one |
| AnalyticsClient.TightIsLeast | codex-rs/analytics/src/client.rs:427-448 | such a split is the unique one of least size |
| AnalyticsClient.DedupeBound | codex-rs/analytics/src/client.rs:86-117 | the set never exceeds 4096 keys, and with T acceptances a key is accepted at most 1 + (T - 1) / 4096 times |
| AnalyticsClient.DedupeInvariant | codex-rs/analytics/src/client.rs:86-117 | acceptances are 4096 per clearing plus the keys held, and a key is accepted at most once per clearing |
| AnalyticsClient.DedupeExactUntilFull | codex-rs/analytics/src/client.rs:86-117 | until the set is first cleared, a key is accepted exactly once |
| AnalyticsClient.AnalyticsEventsQueue.ShouldEnqueueAppUsed | codex-rs/analytics/src/client.rs:86-103 | an app without connector is always enqueued; otherwise exactly when its key is new, after clearing a full set |
| AnalyticsClient.AnalyticsEventsQueue.ShouldEnqueuePluginUsed | codex-rs/analytics/src/client.rs:105-117 | the same for plugins |
| EventForwarder.GapAccounting | codex-rs/app-server-client/src/lib.rs:207-273 | for every schedule, delivered events plus marker sums plus the skip counter account for everything forwarded, and each delivered event stands at the index that what precedes it accounts for, short of counter saturation |
| EventForwarder.LosslessTier | codex-rs/app-server-client/src/lib.rs:151-186 | for every capacity and schedule, with the stream enabled, the notifications of the seven must-arrive kinds that were delivered are exactly those offered, in order; everything delivered is a subsequence of the input; the consumer has received a prefix |
| EventForwarder.BestEffortDeliveredIff | codex-rs/app-server-client/src/lib.rs:207-273 | a best-effort event is delivered if and only if there is room for it and for the lag marker due before it; otherwise it is counted as skipped, and answered with -32001 if it is a request |
| EventForwarder.MustArriveWaits | codex-rs/app-server-client/src/lib.rs:207-273 | a must-arrive event is sent behind the marker that is due as soon as there is room, and waits until then |
| EventForwarder.RequestsConserved | codex-rs/app-server-client/src/lib.rs:551-598 | every request offered is delivered or failed back, once, and nothing else, while the stream is enabled and nothing is in hand |
| EventForwarder.EveryRequestDisposedIff | codex-rs/app-server-client/src/lib.rs:196-273 | in every run, every request offered is delivered, failed back or in hand if and only if no step met a gone receiver with a request; so it holds as long as the receiver is open |
| EventForwarder.RequestLostIff | codex-rs/app-server-client/src/lib.rs:216-271 | a step loses a request exactly if the receiver is gone and the request is in hand, or is taken while a lag marker is due and is not an auth-token refresh |
| EventForwarder.RequestLostUnanswered | codex-rs/app-server-client/src/lib.rs:263-271 | any client request taken after the receiver is dropped is neither delivered nor answered |
| EventForwarder.RequestDisposition | codex-rs/app-server-client/src/lib.rs:551-598 | a request is delivered if and only if it is not failed, with -32001 if it was dropped; auth-token refreshes are always failed with -32000 and never delivered |
| EventForwarder.DropEndsForwarding | codex-rs/app-server-client/src/lib.rs:763-774 | after the receiver is dropped at most one more event reaches the forwarder and the event branch goes off |
| EventForwarder.DisabledForGood | codex-rs/app-server-client/src/lib.rs:551-598 | once off, the event branch stays off in every continuation |
| EventForwarder.InProcessWorker.constructor | codex-rs/app-server-client/src/lib.rs:495-501 | an empty open channel and a zero counter |
| EventForwarder.InProcessWorker.OnRuntimeEvent | codex-rs/app-server-client/src/lib.rs:551-598 | one runtime event, up to the first channel operation, is one step of the model |
| EventForwarder.InProcessWorker.ResumeSend | codex-rs/app-server-client/src/lib.rs:216-271 | one channel operation of the forwarder is one step; a blocked send changes nothing |
| EventForwarder.InProcessWorker.NextEvent | codex-rs/app-server-client/src/lib.rs:755-757 | the consumer takes the oldest slot |
| EventForwarder.InProcessWorker.DropEventReceiver | codex-rs/app-server-client/src/lib.rs:763-774 | shutdown closes the channel |
| RemoteClientRuns.ExactlyOneReply | codex-rs/app-server-client/src/remote.rs:208-468 | in every run a command gets at most one reply, and exactly one once the worker has left; an answer is the first one bearing the request's id since its registration; a request is refused as a duplicate if and only if an accepted request of its id was unanswered; any other failure means that the worker left before an answer came, and is the error it left with, except for the one request whose own write error it left for |
| RemoteClientRuns.DisconnectionMatchesFailures | codex-rs/app-server-client/src/remote.rs:459-467 | when the worker leaves with an error, the last event is a disconnection with that error's message, and every remaining waiter is failed with that error; the request whose write failed gets its write error, which the message quotes |
| RemoteClient.ProvenanceStep | codex-rs/app-server-client/src/remote.rs:314-325 | every step keeps: waiters are unanswered, and every answer given is the first one since registration |
| RemoteClient.TicketsStep | codex-rs/app-server-client/src/remote.rs:209-253 | every step keeps: a pending request waits under its own id without a reply, every other ticket has exactly one |
| RemoteClientRuns.EventsRun | codex-rs/app-server-client/src/remote.rs:326-457 | in every run the consumer sees the decodable notifications and requests in order, then one disconnection carrying the exit error's message if there is one; a consumer that left early has a prefix |
| RemoteClientRuns.WireRun | codex-rs/app-server-client/src/remote.rs:332-380 | in every run each non-duplicate command is written once, in order, as the message of its kind with its own id and body, and each undecodable request is refused once with -32601 under its id, in order |
| RemoteClientRuns.LeavesExactlyWhen | codex-rs/app-server-client/src/remote.rs:209-457 | the worker leaves on a message that ends the connection, on a request or refusal that could not be written, on an event nobody can receive, on shutdown and when its commands are gone, and in no other step; with an error exactly in the first two cases, the one that says so |
| RemoteClientObject.InitializeRemoteConnection | codex-rs/app-server-client/src/remote.rs:798-933 | the first deciding message decides, whatever came before; everything before it became an event or was refused, in order; initialize is written first and initialized last, exactly on success; the server version is the one the accepting response names |
| RemoteClientObject.VersionRecovered | codex-rs/app-server-client/src/remote.rs:835-842 | a user agent of the form name/version gives that version, whatever follows it after white space |
| RemoteClientObject.ConnectWithStream | codex-rs/app-server-client/src/remote.rs:187-206 | there is a client exactly if the handshake succeeded, and it starts with the handshake's events, its version and a fresh worker |
| RemoteClientObject.AwaitInitialize | codex-rs/app-server-client/src/remote.rs:824-915 | the loop stops at the first deciding message with the decoded events and the refusals of what came before; it is accepted exactly on the response to initialize, and given up with the error that the message calls for |
| RemoteClientObject.Judge | codex-rs/app-server-client/src/remote.rs:824-915 | a message is waited out, accepted or given up on, each exactly for the messages listed, and given up on with the error listed |
| RemoteClientObject.NoVersionIff | codex-rs/app-server-client/src/remote.rs:835-842 | there is no version exactly if the user agent has no slash or only white space after the first one |
| RemoteClientObject.WholeStream | codex-rs/app-server-client/src/remote.rs:603-608 | however reading and work interleave, what next_event has yielded followed by what is left is the decoded messages from the start of the handshake to the end of the connection and then the disconnection; nothing is lost, doubled or reordered across the handshake boundary |
| RemoteClientObject.RemoteWorker.constructor | codex-rs/app-server-client/src/remote.rs:206-212 | a fresh worker |
| RemoteClientObject.RemoteWorker.Advance | codex-rs/app-server-client/src/remote.rs:213-457 | one turn of the worker's loop is one step of the model |
| RemoteClientObject.RemoteWorker.OnCommand | codex-rs/app-server-client/src/remote.rs:215-310 | the command arm of the loop |
| RemoteClientObject.RemoteWorker.TakeRequest | codex-rs/app-server-client/src/remote.rs:221-253 | registers and writes a request, or refuses it, or disconnects when the write fails |
| RemoteClientObject.RemoteWorker.OnMessage | codex-rs/app-server-client/src/remote.rs:311-456 | the message arm of the loop |
| RemoteClientObject.RemoteWorker.ResolvePending | codex-rs/app-server-client/src/remote.rs:315-325 | an answer goes to its waiter or is ignored |
| RemoteClientObject.RemoteWorker.Leave | codex-rs/app-server-client/src/remote.rs:235-252 | announces the disconnection and drains |
| RemoteClientObject.RemoteWorker.DeliverEvent | codex-rs/app-server-client/src/remote.rs:942-952 | an event nobody can receive ends the worker |
| RemoteClientObject.RemoteWorker.DrainPending | codex-rs/app-server-client/src/remote.rs:459-467 | every waiter gets the error the worker leaves with |
| RemoteClientObject.AnswerWaiters | codex-rs/app-server-client/src/remote.rs:459-467 | draining the table gives each waiter the exit error once and nobody else anything |
| RemoteClientObject.AnswerTable | codex-rs/app-server-client/src/remote.rs:465-467 | the loop over the table does so in whatever order it takes the waiters out |
| RemoteClientObject.RemoteAppServerClient.constructor | codex-rs/app-server-client/src/remote.rs:470-476 | a client with these handshake events and a fresh worker |
| RemoteClientObject.RemoteAppServerClient.NextEvent | codex-rs/app-server-client/src/remote.rs:603-608 | takes the oldest event, the handshake's first and then the worker's |
| Daemon.OnlyTheHolderActs | codex-rs/app-server-daemon/src/lib.rs:700-713 | under any interleaving only the process holding the operation lock saves settings, starts or stops the server or starts the updater |
| Daemon.ExclusiveRun | codex-rs/app-server-daemon/src/lib.rs:791-830 | in every run the processes inside an operation are exactly the holder of the lock |
| DaemonRuns.SettingsAgreement | codex-rs/app-server-daemon/src/lib.rs:525-614 | in every run in which no operation ends between saving a flag and stopping the old server, a running managed server has the saved flag whenever the lock is free |
| DaemonRuns.InterruptionBreaks | codex-rs/app-server-daemon/src/lib.rs:555-595 | an operation killed or failing there keeps the agreement if and only if the old server is dead already, dies in the stop that is reported as failed, or has the flag being bootstrapped |
| DaemonRuns.FailedStopDisagrees | codex-rs/app-server-daemon/src/lib.rs:555-562 | a change of the flag whose stop fails ends with the new flag saved and the old server running |
| DaemonRuns.RetryDoesNotRepair | codex-rs/app-server-daemon/src/lib.rs:541-553 | the same change tried again reports that it is in force and changes nothing |
| DaemonRuns.ReportedChangesAgree | codex-rs/app-server-daemon/src/lib.rs:276-433 | an operation that reports having started, restarted, set or bootstrapped leaves agreement, whatever it found |
| DaemonRuns.EveryHoldAccounted | codex-rs/app-server-daemon/src/lib.rs:276-614 | in every run, what happened under each hold of the lock is a legal trace of the operation invoked, stage by stage, with the versions it read, and calls for the outcome reported |
| DaemonRuns.VersionsDecide | codex-rs/app-server-daemon/src/lib.rs:359-402 | in every run the versions read in a hold of the updater decide how it ends: with its executable unchanged it is not ready if and only if the server did not answer, current if and only if both versions were read and are equal, and restarts only after different ones; with its executable changed it always goes on to the stop |
| DaemonAlone.OperationAlone | codex-rs/app-server-daemon/src/lib.rs:276-614 | an operation invoked while the lock is free, alone and with every call working, does exactly what is written out for it from the settings, the managed server, a foreign server, the updater and the versions, reports that outcome and releases the lock |
| DaemonAlone.FailedCallEnds | codex-rs/app-server-daemon/src/lib.rs:276-614 | a call that fails ends the operation at once with nothing more done than the part of a failed save, stop or updater start that may have happened |
| DaemonRuns.EnsureEnables | codex-rs/app-server-daemon/src/lib.rs:491-508 | in every run, ensuring remote control leaves the flag saved as enabled whenever it succeeds |
| DaemonRuns.ReexecOnlyAfterRestart | codex-rs/app-server-daemon/src/update_loop.rs:91-154 | the updater replaces itself only at the end of a hold in which it found a changed executable, read the versions, stopped the server, launched it from that executable and saw it ready, and did nothing else |
| DaemonRuns.ForeignServerUntouched | codex-rs/app-server-daemon/src/lib.rs:311-433 | while an unmanaged server answers and none of ours runs, no operation in any interleaving stops it, starts another or touches settings, and each that ends has given way |
| DaemonRuns.SoundRun | codex-rs/app-server-daemon/src/lib.rs:276-433 | in every run the flag and the absence of a server that the lock holder relies on hold |
| DaemonRuns.FreshWorld | codex-rs/app-server-daemon/src/lib.rs:250-274 | a machine on which nothing has run satisfies the hypotheses of these results |
| SchemaFixtures.CompleteInvariant | codex-rs/app-server-protocol/src/schema_fixtures.rs:152-208 | two values have the same canonical form if and only if they are equal up to key order and recursive permutation of arrays whose every element is a scalar or an object with a textual `$ref` or `title` |
| SchemaOrder.CanonIsTheAscendingOne | codex-rs/app-server-protocol/src/schema_fixtures.rs:152-208 | the canonical form is the one equivalent value that ascends: keys in code-point order, and reorderable items by kind, by reference or title with `$ref` before `title`, and then by text |
| SchemaFixtures.SortKeyIff | codex-rs/app-server-protocol/src/schema_fixtures.rs:210-227 | an element has a sort key if and only if it is a scalar or an object with a textual `$ref` or `title` |
| SchemaFixtures.FixturesMatchIff | codex-rs/app-server-protocol/src/schema_fixtures.rs:124-134 | the same for the indented texts of the canonical forms, which is what fixtures are compared by |
| SchemaFixtures.EquivalenceRelation | codex-rs/app-server-protocol/src/schema_fixtures.rs:152-208 | that relation is an equivalence |
| SchemaFixtures.CanonIdempotent | codex-rs/app-server-protocol/src/schema_fixtures.rs:152-208 | a canonical form is its own and is equivalent to its value |
| SchemaFixtures.ArrangePermutes | codex-rs/app-server-protocol/src/schema_fixtures.rs:176-196 | canonicalising an array keeps its elements as a multiset |
| SchemaFixtures.CanonKeepsSortKey | codex-rs/app-server-protocol/src/schema_fixtures.rs:210-227 | an element has the same sort key before and after canonicalisation |
| SchemaFixtures.CanonWellFormed | codex-rs/app-server-protocol/src/schema_fixtures.rs:152-208 | canonicalisation keeps object keys unique and numbers printable |
| SchemaFixtures.SortThenCanon | codex-rs/app-server-protocol/src/schema_fixtures.rs:197-205 | object entries can be sorted before or after their children are canonicalised |
| SchemaFixtures.CanonicalizeJson | codex-rs/app-server-protocol/src/schema_fixtures.rs:152-208 | the recursive procedure computes that canonical form |
| SchemaFixtures.SortItems | codex-rs/app-server-protocol/src/schema_fixtures.rs:177-196 | the loop over the items sorts by key and text, or gives up and keeps the order as soon as one item has no key |
| JsonText.CompactInjective | codex-rs/app-server-protocol/src/schema_fixtures.rs:183-184 | the compact text used as a tie-breaker determines its value |
| JsonReader.RoundTrip | codex-rs/app-server-protocol/src/schema_fixtures.rs:183-184 | reading the compact text of a value with a reader after RFC 8259 gives the value back and leaves nothing |
| JsonReader.ReadQuoted | codex-rs/app-server-protocol/src/schema_fixtures.rs:183-184 | a quoted string, with its escapes, is read back whatever follows it |
| JsonPretty.PrettyInjective | codex-rs/app-server-protocol/src/schema_fixtures.rs:131-132 | the indented text determines its value |
| JsonPretty.PrettySqueezes | codex-rs/app-server-protocol/src/schema_fixtures.rs:131-132 | the indented text without the layout outside strings is the compact text |

## Left out

- Connection code, TLS, HTTP sending, auth headers and timeouts: only their success or failure enters, as an input.
- The detached request tasks of the in-process worker and its other commands: they share no state with the event branch.
- Requests still queued when the remote worker leaves: their senders see a closed channel, outside the worker.
- InitializeRemoteConnection: looking the user agent up in the response's JSON is a parameter.
- InitializeRemoteConnection: a time limit that fires while a refusal is being written counts as that write failing.
- RemoteAppServerClient.NextEvent: does not wait; with nothing to read it gives `None` at once, as the source does once the worker is gone.
- EntryCountsHistory: counters are unbounded, so wrap-around of the machine integers is not modelled.
- GapAccounting: past the maximum of the skip counter the uncounted skips are a separate term, as the counter saturates.
- The daemon is modelled on values, as a state machine, because what matters is what happens between its awaits; its polling loops for the lock and for readiness are one step each, and output formatting is dropped.
- The pid backend is reduced to its contract; pid files, process start times and its own reservation lock are not modelled.
- The update loop's download and install step is an environment step, and the updater's stop signal is a process death.
- CompleteInvariant: numbers are compared by their text, so numerically equal numbers with different texts are different.
- Event payload fields that are copied, enum-to-string tables and hashes: settled by reading one line each.
- One-shot analytics facts are one case of the reducer, because they join with nothing.
- agent-graph-store, agent-identity, remote_control_client, schema file collection and the TypeScript export: thin or foreign code.
