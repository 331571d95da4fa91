# Codex protocols and transformations, verified

A Dafny model of the parts of the Codex repository that hold state or transform data, with
proofs about whole runs and all inputs.

- **In-process event forwarding** (`InProcessEvents`, `EventAccounts`, `InProcessClient`). The
  worker, the bounded channel and the consumer are interleaved steps. The books kept beside
  them say which events each lag marker stands for.
- **Remote JSON-RPC client** (`RemoteWorker`, `RemoteClient`, `RemoteCorrelation`). The worker's
  loop body and the handshake are imperative; callers, wire and consumer interleave with them.
- **Analytics reducer** (`AnalyticsFacts`, `AnalyticsReducer`, and the theorems in
  `ReducerIsolation`, `TurnEvents`, `TurnCounters`, `ReviewHistory`). A fact decodes to one of
  sixteen operations on seven maps; the class mirrors the reducer's methods, and `FactHistory`
  tells what the maps hold from the history alone.
- **Schema canonicaliser** (`StringOrder`, `Permutations`, `JsonText`, `SchemaFixtures`).
- **Daemon lifecycle** (`Daemon`, `DaemonRuns`, `DaemonOutcomes`). An operation is a program
  that takes the lock, decides on a list of steps, takes them and gives the lock back; steps of
  several processes interleave with crashes, kills and installs, and every step may fail.
- **Smaller algorithms**: the diff scanner (`AcceptedLines`), dedupe and batching
  (`AnalyticsClient`), the lint wrapper's arguments (`WrapperArgs`), and version normalising
  (`RuntimeVersion`).

The network, processes, files, clocks and hashes are inputs: a write or a step comes back with
success or failure, a deadline has passed or has not, and a fact carries the clock and repository
readings made while it is handled. Identifiers are only compared.

Where the code falls short of what its documentation says, the code is modelled and the exact
condition proved. The daemon's README says that enabling or disabling remote control restarts a
running server so that the setting takes effect; the setting is saved first, and
`DaemonOutcomes` gives exactly when the server is left without it, and that repeating the command
does not help. The updater takes the version of whichever server answers the socket for that of the
managed server; `DaemonOutcomes` gives exactly when its report that the server is current is true.

## Model

| member | source | states |
|---|---|---|
| `InProcessEvents.Forwarder.ForwardInProcessEvent` | codex-rs/app-server-client/src/lib.rs:207-273 | one call of the forwarder, send by send: its new books are `Forwarded` of the old ones, and the channel grows by the marker and the event exactly when those sends succeed |
| `InProcessEvents.Forwarder.HandleEvent` | codex-rs/app-server-client/src/lib.rs:551-597 | token refreshes are failed on the spot with -32000, everything else is forwarded, and a closed channel turns forwarding off |
| `InProcessClient.AttemptsAreOneForward` | codex-rs/app-server-client/src/lib.rs:207-273 | the interleaved send attempts of the worker, with anything happening between them, are one call of the forwarder |
| `InProcessClient.GapAccounting` | codex-rs/app-server-client/src/lib.rs:207-273 | in every interleaving, replacing each lag marker of the enqueued stream by the events dropped there, then adding the drops still counted, the event in hand and the one lost to a closed channel, gives back the source stream; the counter is the number of drops, up to saturation |
| `InProcessClient.NoUnreportedGap` | codex-rs/app-server-client/src/lib.rs:207-273 | up to any queued entry, the stream accounts for an unbroken start of the source: no event passes an unreported gap |
| `InProcessClient.LosslessComplete` | codex-rs/app-server-client/src/lib.rs:151-273 | the lossless events arrive complete and in order |
| `InProcessClient.RequestsAccountedFor` | codex-rs/app-server-client/src/lib.rs:551-597 | each server request pulled is queued once, failed once, in hand, or (receiver gone) the one lost, never two of these; token refreshes are all failed and never queued; the queue never exceeds max(1, capacity) |
| `InProcessClient.RequestLostAfterClose` | codex-rs/app-server-client/src/lib.rs:245-247 | with the receiver gone a request in the worker's hand is neither queued nor failed, so the open receiver is needed |
| `InProcessClient.ShutdownBounded` | codex-rs/app-server-client/src/lib.rs:499-601 | once the receiver is dropped and a shutdown queued, the worker takes at most as many steps as there are commands ahead, token refreshes left and one more event, and then has left its loop |
| `InProcessClient.ShutdownProgress` | codex-rs/app-server-client/src/lib.rs:763-795 | the same from every reachable state, with the worker never stuck on a send |
| `EventAccounts.LosslessKept` | codex-rs/app-server-client/src/lib.rs:151-205 | a log whose gaps hold only best-effort events shows the lossless events it expands to |
| `RemoteWorker.WorkerTask.HandleCommand` | codex-rs/app-server-client/src/remote.rs:214-311 | one client command: duplicate ids refused, a request registered before it is written and taken back when the write fails, exit on shutdown |
| `RemoteWorker.WorkerTask.HandleFrame` | codex-rs/app-server-client/src/remote.rs:312-453 | one frame off the wire: replies settle their waiter, recognised messages are delivered, unknown requests refused with -32601, the exit paths |
| `RemoteWorker.WorkerTask.DrainPending` | codex-rs/app-server-client/src/remote.rs:459-467 | every waiter still pending is told the exit error and none stays pending |
| `RemoteWorker.Drain` | codex-rs/app-server-client/src/remote.rs:459-467 | the drain tells exactly the pending waiters, in whatever order the map yields them |
| `RemoteWorker.InitializeRemoteConnection` | codex-rs/app-server-client/src/remote.rs:798-933 | the handshake loop connects at the first initialize response, with every recognised event before it buffered in wire order, every unknown request before it refused once, and `initialized` written last; otherwise it gave up at a frame it had gone on to, with the error that frame, that write or the deadline calls for |
| `RemoteWorker.ConnectsOrGivesUp` | codex-rs/app-server-client/src/remote.rs:798-933 | connecting and giving up exclude each other, so the handshake connects exactly when it can |
| `RemoteWorker.OneErrorToGiveUpWith` | codex-rs/app-server-client/src/remote.rs:826-921 | and otherwise there is only one error it can give up with |
| `RemoteClient.EveryRequestOneOutcome` | codex-rs/app-server-client/src/remote.rs:209-253 | in every run each submitted request is queued, pending or told its one outcome, an outcome is never told again or changed, and when the worker is gone every request has been told |
| `RemoteCorrelation.RepliesReachTheirWaiters` | codex-rs/app-server-client/src/remote.rs:316-325 | if the server answers each request it received at most once (section 5 of the JSON-RPC 2.0 specification), every reply settles the waiter that sent the request it answers, whatever duplicates were refused and however the id was reused |
| `RemoteCorrelation.WireOrderSurvives` | codex-rs/app-server-client/src/remote.rs:326-453 | the consumer reads the recognised messages in wire order across the handshake and after it, then at most one `Disconnected`, always last; unknown requests are refused in order, all but possibly the one the worker went with; `initialized` precedes every request |
| `RemoteCorrelation.EveryUnknownRequestRefused` | codex-rs/app-server-client/src/remote.rs:341-372 | unless the write of a refusal fails or an abort cuts it off, every unknown request read is refused with -32601, once each and in order |
| `AnalyticsReducer.Reducer.Ingest` | codex-rs/analytics/src/reducer.rs:377-490 | one fact: the seven maps and the events put out are those of the operation the fact decodes to |
| `AnalyticsReducer.Reducer.MaybeEmitTurnEvent` | codex-rs/analytics/src/reducer.rs:1505-1556 | a complete turn with known connection and thread is reported and forgotten; otherwise nothing changes |
| `AnalyticsReducer.Reducer.IngestTurnPatch` | codex-rs/analytics/src/reducer.rs:599-671 | config, usage, error, start, diff and completion each set their own fields of a turn made on demand; an error keeps a thread already known |
| `AnalyticsReducer.Reducer.IngestTurnStartResponse` | codex-rs/analytics/src/reducer.rs:811-838 | the pending request is removed before its kind is looked at; a matching one sets connection, thread and image count |
| `AnalyticsReducer.Reducer.IngestTurnSteerResponse` | codex-rs/analytics/src/reducer.rs:1372-1395 | a matched steer is counted on the accepted turn, if that is known, and reported |
| `AnalyticsReducer.Reducer.IngestErrorResponse` | codex-rs/analytics/src/reducer.rs:1050-1098 | an error takes the pending request away and reports a rejected steer |
| `AnalyticsReducer.Reducer.IngestItemCompleted` | codex-rs/analytics/src/reducer.rs:1123-1172 | the tool is counted first; the start time is used up; the summary is used up when the context is known, event or not |
| `AnalyticsReducer.Reducer.EmitReviewEvent` | codex-rs/analytics/src/reducer.rs:1438-1484 | a ruling is recorded on its item before the context is looked for |
| `AnalyticsReducer.Reducer.RecordItemReviewSummary` | codex-rs/analytics/src/reducer.rs:1486-1503 | one more review, by the reviewer who ruled, with the outcome replaced and the flags joined |
| `AnalyticsReducer.Reducer.IngestServerResponse` | codex-rs/analytics/src/reducer.rs:965-1048 | an answer takes its pending review away and rules on it; without one nothing happens |
| `AnalyticsReducer.Reducer.EmitThreadInitialized` | codex-rs/analytics/src/reducer.rs:1259-1306 | a thread opened on a known connection is stored and reported |
| `AnalyticsReducer.Reducer.IngestSubagentThreadStarted` | codex-rs/analytics/src/reducer.rs:517-543 | a subagent thread keeps what is known of it and takes its parent's connection if it has none |
| `AnalyticsReducer.Reducer.ContextOrWarn` | codex-rs/analytics/src/reducer.rs:1558-1595 | the context of a thread: its own connection, if known, and its metadata |
| `ReviewHistory.ToolEventSpansItem` | codex-rs/analytics/src/reducer.rs:1137-1168 | every tool event runs from the time its item was last started, by history, until it completed, and its duration is what lies between, none if the clock went back |
| `AnalyticsReducer.NegativeTimesReportNothing` | codex-rs/analytics/src/reducer.rs:1107-1148 | a fact with a negative time reports nothing and leaves reviews alone; only the completion of an item still counts |
| `ReducerIsolation.StreamsDoNotInterfere` | codex-rs/analytics/src/reducer.rs:131-140 | two streams of facts that share no connection, thread, parent thread, turn or server request id: in every interleaving the events one causes are exactly those it causes alone |
| `ReducerIsolation.Inside` | codex-rs/analytics/src/reducer.rs:377-490 | an operation whose ids are all owned puts out the same events in two states that agree on what is owned, and keeps them agreeing |
| `ReducerIsolation.Outside` | codex-rs/analytics/src/reducer.rs:377-490 | an operation whose ids are all foreign leaves what is owned alone |
| `ReducerIsolation.SharedRequestIdInterferes` | codex-rs/analytics/src/reducer.rs:138 | pending reviews are kept by request id alone: from the empty reducer, two streams that share nothing but that id, and one of them loses an event that it causes alone |
| `TurnEvents.ReportedOnceAtLastPart` | codex-rs/analytics/src/reducer.rs:1505-1556 | connection and thread known and the start request pending: with start response, config and completion coming at most once each, in any order, amid bystanders, the turn is reported exactly once when all three have come and not before, with the agreed thread and image count, the config and completion that came, and, unless it was initialised anew, the connection's client |
| `TurnEvents.ReportedNoMoreThanParts` | codex-rs/analytics/src/reducer.rs:1219-1254 | over any run a turn is reported no more often than it completes, its config is resolved, or its start is matched |
| `TurnEvents.StartReports` | codex-rs/analytics/src/reducer.rs:811-838 | a start response leaves the turn with what the request says, or reports that and forgets it |
| `TurnEvents.PatchReports` | codex-rs/analytics/src/reducer.rs:599-624 | a change of the turn leaves it changed, or reports the changed state and forgets it |
| `TurnCounters.TurnCountersEqualHistory` | codex-rs/analytics/src/reducer.rs:352-374 | in every reachable state a turn's counters are the tally of the tracked items completed, and the steers accepted, while the turn was live since it was last reported, all told from the operations and turn events so far; the total is the sum of the seven kinds |
| `TurnCounters.TurnEventCarriesHistory` | codex-rs/analytics/src/reducer.rs:2527-2535 | every turn event carries that tally |
| `TurnCounters.CounterAgreesWithTracking` | codex-rs/analytics/src/reducer.rs:1620-1639 | the counter and the tracked-item test agree on every variant |
| `ReviewHistory.SummariesEqualHistory` | codex-rs/analytics/src/reducer.rs:1486-1503 | in every reachable state an item's summary is the digest (counts by reviewer, last outcome, flags asked for by any) of the rulings since the item was last completed, told from the operations and turn events so far; and reviews are guardian plus user |
| `ReviewHistory.ToolEventCarriesHistory` | codex-rs/analytics/src/reducer.rs:1123-1172 | every tool event carries the digest of its item |
| `ReviewHistory.PendingIsHistory` | codex-rs/analytics/src/reducer.rs:849-963 | a request waits for the last review opened under it, unless that has been resolved |
| `ReviewHistory.ResolvedAtMostOnce` | codex-rs/analytics/src/reducer.rs:965-1048 | between two answers that each resolve a review under one request id, a review was opened under it |
| `ReviewHistory.ResolvedNoMoreThanOpened` | codex-rs/analytics/src/reducer.rs:965-1048 | over any run, resolutions under a request id never outnumber the reviews opened under it |
| `FactHistory.LiveIsHistory` | codex-rs/analytics/src/reducer.rs:1505-1556 | a turn has a state exactly when one was made, by a matched start or by news of the turn, and the turn has not been reported since |
| `FactHistory.RequestIsHistory` | codex-rs/analytics/src/reducer.rs:568-597 | a request waits for a reply exactly if it was asked and not replied to since, by a reply of whatever kind |
| `FactHistory.StartIsHistory` | codex-rs/analytics/src/reducer.rs:1107-1145 | an item has a start time exactly if it was started and not completed since with its turn live |
| `FactHistory.ThreadIsHistory` | codex-rs/analytics/src/reducer.rs:517-543 | what is known of a thread is its last opening on a connected connection, or else its first spawning with the connection its parent then had |
| `SchemaFixtures.CanonicalDecidesEquivalence` | codex-rs/app-server-protocol/src/schema_fixtures.rs:152-227 | two documents have the same canonical form exactly when they differ by member order and by permuting, at any depth, arrays whose elements all have a sort key |
| `SchemaFixtures.CanonicalizeJson` | codex-rs/app-server-protocol/src/schema_fixtures.rs:152-208 | the recursion with its key vector, in-place sort and map insertion computes the canonical form |
| `SchemaFixtures.SortKeyed` | codex-rs/app-server-protocol/src/schema_fixtures.rs:175-195 | an array is sorted, by key and then by compact text, exactly if every element has a key |
| `SchemaFixtures.CanonicalizeEntries` | codex-rs/app-server-protocol/src/schema_fixtures.rs:198-204 | entries are inserted in key order with canonical values |
| `SchemaFixtures.CanonicalizeAll` | codex-rs/app-server-protocol/src/schema_fixtures.rs:174 | every item is replaced by its canonical form, in order |
| `SchemaFixtures.CanonicalIsTheNormalForm` | codex-rs/app-server-protocol/src/schema_fixtures.rs:152-208 | the canonical form is the one equivalent document in normal form |
| `SchemaFixtures.CanonicalIdempotent` | codex-rs/app-server-protocol/src/schema_fixtures.rs:152-208 | canonicalising twice changes nothing |
| `SchemaFixtures.CanonicalKeepsSortKey` | codex-rs/app-server-protocol/src/schema_fixtures.rs:210-227 | canonicalising keeps every sort key |
| `SchemaFixtures.CanonicalValid` | codex-rs/app-server-protocol/src/schema_fixtures.rs:152-208 | canonicalising keeps a document well formed |
| `SchemaFixtures.EquivalenceLaws` | codex-rs/app-server-protocol/src/schema_fixtures.rs:152-208 | the equivalence is reflexive, symmetric and transitive |
| `JsonText.PrintInjective` | codex-rs/app-server-protocol/src/schema_fixtures.rs:180 | the compact text used as tie-breaker (section 2 of RFC 8259) tells different documents apart |
| `StringOrder.SortIgnoresOrder` | codex-rs/app-server-protocol/src/schema_fixtures.rs:186-193 | the stable sort of decisive ranks does not depend on the order of its input |
| `Daemon.Lifecycle.StartLocked` | codex-rs/app-server-daemon/src/lib.rs:294-330 | starting: an answering or running server is left, otherwise one is started with the saved setting |
| `Daemon.Lifecycle.RestartLocked` | codex-rs/app-server-daemon/src/lib.rs:332-357 | restarting: refused for a foreign server; the running one is stopped and one started with the saved setting |
| `Daemon.Lifecycle.StopLocked` | codex-rs/app-server-daemon/src/lib.rs:405-433 | stopping: a foreign server is refused |
| `Daemon.Lifecycle.SetRemoteControlLocked` | codex-rs/app-server-daemon/src/lib.rs:525-572 | the setting is saved first, then a running server checked, stopped and started; the world left behind by a failure at any step |
| `Daemon.Lifecycle.BootstrapLocked` | codex-rs/app-server-daemon/src/lib.rs:574-614 | save, stop, start, replace the updater, in this order, with a failure at any step |
| `Daemon.Lifecycle.TryRestartIfRunning` | codex-rs/app-server-daemon/src/lib.rs:371-403 | with the lock taken: the restart of a running server with the given binary, going by the version of whichever server answers the socket, and the re-exec |
| `Daemon.Lifecycle.EnsureRemoteControlStartedLocked` | codex-rs/app-server-daemon/src/lib.rs:491-508 | bootstraps without an updater; otherwise enables, then starts from the settings as they are by then |
| `Daemon.Decision` | codex-rs/app-server-daemon/src/lib.rs:791-805 | a server is left alone exactly when it answers with the managed version, or does not answer and the restart is not forced |
| `Daemon.UpdaterRefreshesServerFirst` | codex-rs/app-server-daemon/src/update_loop.rs:129-141 | an updater that is the managed binary never re-execs; another restarts a running server whatever it answers, and re-execs exactly after that |
| `DaemonRuns.OnlyTheLockHolderActs` | codex-rs/app-server-daemon/src/lib.rs:276-403 | in every run of programs that take the lock, wait for it or report it busy, and give it back as steps of their own, no step changes settings, server or updater or replaces a process before the lock is taken or after it is given back; so these are changed only by the process holding the lock, crashes of the server and deaths of the updater apart |
| `DaemonRuns.PlansArePlain` | codex-rs/app-server-daemon/src/lib.rs:294-614 | no plan touches the lock: the plan that ensures remote control only makes further decisions, and every other has neither decisions nor lock steps |
| `DaemonRuns.SettingsAgreeWhenFree` | codex-rs/app-server-daemon/src/lib.rs:525-614 | however operations, crashes, kills and installs interleave, if no process gives up between its save and its stop, a running managed server has the saved setting whenever the lock is free |
| `DaemonOutcomes.SetRemoteControlAgreesIff` | codex-rs/app-server-daemon/src/lib.rs:555-560 | changing the setting leaves the server without it exactly when the server runs, the setting changes and is saved, and then the binary is missing, or looking for it or the stop fails |
| `DaemonOutcomes.BootstrapAgreesIff` | codex-rs/app-server-daemon/src/lib.rs:587-594 | the same for bootstrap: exactly when it saves a different setting and cannot stop the running server |
| `DaemonOutcomes.EnsuredAgreesIff` | codex-rs/app-server-daemon/src/lib.rs:491-508 | ensuring remote control takes them apart exactly when it saves the setting for a server running without it and then, with an updater, misses the binary or fails to look for it or to stop the server, or, without one, fails to stop the server |
| `DaemonOutcomes.OthersAgree` | codex-rs/app-server-daemon/src/lib.rs:294-433 | start, restart, stop and the updater's refresh never take setting and server apart, however they fail |
| `DaemonOutcomes.RetryDoesNotMend` | codex-rs/app-server-daemon/src/lib.rs:541-553 | asking for the same setting again leaves a server without it as it is |
| `DaemonOutcomes.RestartMends` | codex-rs/app-server-daemon/src/lib.rs:332-357 | a restart that goes through brings them together |
| `DaemonOutcomes.AlreadyEnabledWithoutIt` | codex-rs/app-server-daemon/src/lib.rs:541-553 | a concrete case: enabled, reported as already enabled, and the server does not have it |
| `DaemonOutcomes.CurrentTrueIff` | codex-rs/app-server-daemon/src/client.rs:45-61 | that is true of the managed server exactly when it answered itself, or another server of its version did |
| `DaemonOutcomes.CurrentByAnotherServer` | codex-rs/app-server-daemon/src/lib.rs:371-380 | a concrete case: the managed server is "1", another answers "2", and "2" is reported as running |
| `DaemonOutcomes.ReportsAreTrue` | codex-rs/app-server-daemon/src/lib.rs:360-403 | in every run, when the updater reports a restart or re-execs, a managed server then running is of the version of the binary the updater was given, and it re-execs only in an operation that started the server again; when it reports the server current, that is so exactly if it did not go by another server of another version |
| `AcceptedLines.AcceptedLineFingerprintsFromUnifiedDiff` | codex-rs/analytics/src/accepted_lines.rs:30-83 | the scanner over its five variables computes the summary of the text |
| `AcceptedLines.ScannerInvertsPrinter` | codex-rs/analytics/src/accepted_lines.rs:30-83 | scanning the printed form of any structured diff (POSIX `diff`, "Diff -u or -U Output Format") gives its added and deleted counts and the ordered fingerprints of its effective added lines, even where changed lines look like headers |
| `AcceptedLines.SummariesAdd` | codex-rs/analytics/src/accepted_lines.rs:40-44 | the summary of two diffs one after the other is the sum of their summaries when the first ends its last line and the second starts a file |
| `AcceptedLines.TargetRead` | codex-rs/analytics/src/accepted_lines.rs:143-155 | the path read back from a printed target line is the target exactly when that does not end in whitespace; a deleted file gives no path |
| `AcceptedLines.SummaryCounts` | codex-rs/analytics/src/accepted_lines.rs:60-75 | the counts do not depend on the hash or on the character tables |
| `AnalyticsClient.AnalyticsEventsQueue.ShouldEnqueueAppUsed` | codex-rs/analytics/src/client.rs:85-101 | without a connector always admitted; otherwise the full set is cleared and the key admitted if new |
| `AnalyticsClient.AnalyticsEventsQueue.ShouldEnqueuePluginUsed` | codex-rs/analytics/src/client.rs:103-116 | the full set is cleared and the key admitted if new |
| `AnalyticsClient.BoundedDedupe` | codex-rs/analytics/src/client.rs:85-116 | over any sequence of calls the set never exceeds 4096 keys, and with N calls admitted no key was admitted more than ceil(N / 4096) times |
| `AnalyticsClient.TrackEventRequestBatches` | codex-rs/analytics/src/client.rs:420-441 | the batches are a coarsest split: they concatenate to the input, none is empty, isolated events are alone, no two neighbours are both ordinary |
| `AnalyticsClient.CoarsestSplitUnique` | codex-rs/analytics/src/client.rs:420-441 | there is only one such split |
| `WrapperArgs.ParseWrapperArgs` | tools/argument-comment-lint/wrapper_common.py:55-104 | the loop computes the parse of the whole argument list |
| `WrapperArgs.ReadLintArg` | tools/argument-comment-lint/wrapper_common.py:73-102 | one argument before the separator, taken as a value or as a flag |
| `WrapperArgs.ReadCargoArg` | tools/argument-comment-lint/wrapper_common.py:61-67 | one argument after it |
| `WrapperArgs.BuildFinalArgs` | tools/argument-comment-lint/wrapper_common.py:107-122 | the defaults that are missing, the lint arguments, and the cargo arguments behind a separator |
| `WrapperArgs.RewriteIdempotent` | tools/argument-comment-lint/wrapper_common.py:55-122 | rewriting the rewritten arguments changes nothing exactly when the manifest path is not `--` or one was given |
| `WrapperArgs.RewriteGrows` | tools/argument-comment-lint/wrapper_common.py:107-122 | with `--` as the path and none given, rewriting again gives something else |
| `WrapperArgs.ParseJoined` | tools/argument-comment-lint/wrapper_common.py:55-104 | parsing lint and cargo arguments joined by a separator gives both back |
| `RuntimeVersion.TagRoundTrip` | sdk/python/_runtime_setup.py:329-354 | normalising the release tag gives the normalised version back exactly when the version, stripped and without its prefix, does not end in `-alph-alpha` or `--rc`, an optional dot, and digits |
| `RuntimeVersion.UndashedUnlessRedashed` | sdk/python/_runtime_setup.py:336-338 | the three substitutions leave a dashed pre-release ending behind exactly on those versions |
| `RuntimeVersion.PackageVersionRoundTrip` | sdk/python/_runtime_setup.py:329-354 | so always for dotted digits with an optional a, b or rc number (PEP 440, "Pre-releases"), for which the release form is also a fixed point |
| `RuntimeVersion.ReleaseFixedPoint` | sdk/python/_runtime_setup.py:342-350 | the release form is its own release form exactly when the normalised version is one that normalising leaves alone |
| `RuntimeVersion.RoundTripCanFail` | sdk/python/_runtime_setup.py:329-339 | a concrete version whose tag normalises to something else |
| `RuntimeVersion.ReleaseCanShift` | sdk/python/_runtime_setup.py:342-350 | versions such as `vv1` whose release form has another release form |

## Left out

- Websocket, TLS, Unix sockets, HTTP, process and file calls: they are steps that succeed or fail.
- Wall-clock timeouts and polling: a deadline is an input, and waiting for a server is one step. An updater that finds the lock busy reports that, and its next attempt is a new operation.
- Partly written settings files: a save happens or does not.
- The pid file's own reservation protocol: starting and stopping the backend are single steps.
- Event payloads that are copied through (models, sandbox policies, token details, tool-specific fields, subject names) and the image count of a request's input: each is one value of the fact.
- Kinds of standalone facts (skills, apps, hooks, plugins): their events need no reducer state and are one kind here.
- Compaction and guardian facts: both are an event about a thread with its context, and are one operation here.
- `usize` and `u64` counters of the reducer: unbounded here; the forwarder's saturating counter is modelled with its width.
- SHA-1 fingerprints and Unicode's alphanumeric test: parameters of the scanner.
- Paths that git prints in C-style quotes: the printer that the scanner is proved against prints paths as they are, and a path ending in whitespace is fingerprinted without it.
- Number values in JSON: a number is its printed token, so numbers are equal when their text is.
- The agent graph store, experimental API gates, attestation, tracing, packaging and build scripts: thin wrappers or plumbing.
- ReducerIsolation.StreamsDoNotInterfere: is about events, not about the warnings that are logged when context is missing.
