# AI Fuel in Dafny: the session runtime, its stores and its queues

This project models the parts of AI Fuel whose correctness depends on interleaving,
recovery or exact text formats, and proves what they keep over every run.

| file | what it models |
|---|---|
| `SessionLog.dfy` | the durable Session Event Log and the state one runtime shares under its `inner` lock; each critical section as a function and as a method of a mutable `Runtime` |
| `SessionProtocol.dfy` | pumps, subscribes, `session.create`, `session.close`, startup continuation, checkpoint restore and shutdown as atomic steps in any interleaving; the inductive invariant |
| `SessionSubscribe.dfy`, `SessionClose.dfy` | what a subscriber's channel carries; what closes leave in the log |
| `Dispatch.dfy`, `Json.dfy` | the recorded receipt of a mutating command and idempotent retries |
| `Ownership.dfy` | owner ids, live-owner counting, the liveness rule, and claims by compare-and-swap for any number of runtimes and processes over one database |
| `RunHistory.dfy`, `Paging.dfy` | repair of orphaned runs, the payload budget, stored pages |
| `EventQueue.dfy`, `Sse.dfy` | byte credits without a lock, one receiver handed between streams, and the event-stream framing against a reader of section 9.2.6 of the WHATWG HTML Living Standard |
| `AgentSetup.dfy`, `SetupProtocol.dfy` | setup of the registration in an MCP host's config: plan, execution and recovery for an arbitrary adapter; the same as atomic file steps with crashes and user edits anywhere |
| `CodexRefresh.dfy` | the single-flight OAuth refresh (section 6 of RFC 6749) and its write-back |
| `Launcher.dfy` | the bounded event buffer, paged reads, and the consuming loop |
| `Webhooks.dfy`, `WebhookEdges.dfy` | the quota edge detector and what each endpoint is told over a series of reports |
| `Admin.dfy`, `Text.dfy` | HMAC (section 2 of RFC 2104), PBKDF2 (section 5.2 of RFC 8018), and the password record |
| `Ranking.dfy`, `StableSort.dfy` | quota evidence and the two sorts behind automatic routing |
| `Prelude.dfy` | options, results, sums, filters |

Objects that the source updates in place are classes whose methods are proved to make
exactly the transition a function describes; the theorems are about those functions,
run in any order. Tables are maps, a lock acquisition or a single store write is one
step, and process liveness, clocks, provider answers and write outcomes are parameters.

## Where the code and its documentation disagree

The model follows the code; each of these has a lemma with the input or the trace.

- Session ids repeat. Every adapter of a process counts its sessions from 0, one adapter is
  built for each command-line provider, and ids name only adapter kind, process and count;
  `session.create` checks nothing, keeps the row's status, re-stamps its owner and replaces
  the live entry. So two runtimes on stores of their own can drive one session
  (`Ownership.RepeatedIdDoubleDrives`); in one runtime a fact can follow an authored close
  (`SessionClose.CreateFollowsClose`, `SessionClose.LeftoverPumpFollowsClose`), two closes
  can stand side by side (`SessionClose.LiveIdClosesTwice`), and a subscriber silently stops
  hearing its session (`SessionSubscribe.SecondCreateIsMissed`). The theorems carry the
  exact guards.
- A status other than `closed` recorded after a close makes the session's row open again,
  so two `session.closed` facts can end up in one log
  (`SessionClose.StatusAfterCloseReopens`). Between any two closes there is always such a
  status or a new creation (`SessionClose.ClosesAreSeparated`), and a close of an idle
  session adds one exactly after such a status (`SessionClose.CloseOfIdleSession`).
- Shutdown marks and creations are written without being delivered, so a subscriber misses
  exactly those (`SessionSubscribe.SubscriberSeesContiguousRun`); a subscribe between a checkpoint
  restore's append and its broadcast receives the fact twice
  (`SessionSubscribe.RestoreDeliversTwice`).
- A replay cursor of 2^63 or more wraps to a negative number and replays from the
  first event (`SessionLog.EventsAfterSuffix`); the stored-run reader has the same cast but
  guards it (`RunHistory.CursorsStayHonest`).
- The per-run payload budget is documented in bytes and read back in characters, so
  exactly the appends of `RunHistory.OverrunIsExact` pass it
  (`RunHistory.BudgetCountsCharacters` is one case).
- Two runtimes opened on one store share an owner id, and can then both drive a session
  (`Ownership.DoubleDriveIsReachable`), exactly when a pending claim expects that id
  (`Ownership.SingleDriver`, `Ownership.UnguardedReopenDoubleDrives`).
- A dry run over a pending journal reports that recovery is needed, while the real run
  recovers and goes on (`AgentSetup.DryRunPredicts`).
- Setup adopts a config that a user typed by hand if it has the digest of the one an
  interrupted run had planned, and may later remove it (`SetupProtocol.TypedTwinIsRemoved`);
  nothing else it did not write is ever replaced
  (`SetupProtocol.OnlyClaimedEntriesAreReplaced`).
- A malformed command record is never replaced, so every delivery of that command
  executes (`Dispatch.MalformedRecordAlwaysReruns`).
- The refresh lock is the adapter's own: a file another program writes during an
  exchange is overwritten unless the exchange fails (`CodexRefresh.OutsideWriteIsLost`);
  a granted exchange whose caller is cancelled spends the grant without recording it
  (`CodexRefresh.GrantSpentAgain`).
- Webhook endpoints with equal thresholds share one mark, so exactly the first hears of
  its edges (`WebhookEdges.EndpointIsToldItsEdges`, `WebhookEdges.LaterTwinIsNeverTold`);
  a `|` in an account name makes different windows share one
  (`WebhookEdges.BarsCollide`), in a window name it does no harm
  (`WebhookEdges.KeyIdentifies`).
- Providers without headroom are documented to keep report order when routed; they do
  exactly when no exhausted one stands after an unmeasured one
  (`Ranking.BareKeepReportOrder`), which happens (`Ranking.ExhaustedOvertakesUnmeasured`).

## Model

| member | source | states |
|---|---|---|
| SessionLog.Runtime.AppendEvent | crates/aifuel-app/src/run_store/session_log/append.rs:30-167 | the maximum found by scanning gives the next sequence number; the stored row is the scrubbed kind and the session row follows the fact; the returned event keeps the full kind |
| SessionLog.RowFollowsFact | crates/aifuel-app/src/run_store/session_log/append.rs:114-151 | a status or a close sets the row, any other fact leaves it, and only a creation makes one, idle |
| SessionLog.Runtime.BroadcastEvent | crates/aifuel-runtime/src/pump.rs:234-243 | exactly the subscribers of the live session that have a channel get the event, each once, at the end |
| SessionLog.Runtime.AppendAndBroadcast | crates/aifuel-runtime/src/pump.rs:217-230 | append and delivery are one transition; a failed append changes nothing |
| SessionLog.Runtime.DrainOne | crates/aifuel-runtime/src/pump.rs:70-139 | one drain iteration as one transition; what it records and where it goes on are the next two rows |
| SessionLog.DrainRecords | crates/aifuel-runtime/src/pump.rs:75-117 | a drain records every fact but `session.created`, the skipped startup `idle` and a close of a session gone or marked closed: one scrubbed event at the end of that log alone, the full event once to each subscriber, an approval answer under its registered consumer; nothing when the write fails |
| SessionLog.DrainGoesOn | crates/aifuel-runtime/src/pump.rs:66-139 | which entry is marked closed, which registration is used up, when the skip is spent, and that follow-ups start exactly after a completed run of a live session, with that entry's access and monitoring |
| SessionLog.Runtime.SendAll | crates/aifuel-runtime/src/commands.rs:238-242 | replayed events reach the channel in order, nothing else changes |
| SessionLog.Runtime.ReplayPage | crates/aifuel-app/src/run_store/session_log/replay.rs:28-63 | the paging loop yields the bounded prefix of what follows the cursor and flags truncation |
| SessionLog.Runtime.SubscribeConsumer | crates/aifuel-runtime/src/commands.rs:218-245 | replay and registration are one transition; on a contiguous log the channel gets exactly the log from the stream base on and no other channel changes, live or not; a log that cannot be read leaves only the opened channel |
| SessionLog.SubscribeSends | crates/aifuel-runtime/src/commands.rs:218-242 | the same of the transition: what a subscribe sends does not depend on the session being live |
| SessionLog.Runtime.CloseSession | crates/aifuel-runtime/src/commands.rs:289-363 | with the pump silent: exactly when the close fact is written, the entry and the pending attributions gone either way, nothing else changed, and a written close leaves the row closed |
| SessionLog.TakenSessionIsSilent | crates/aifuel-runtime/src/commands.rs:294-302 | once `session.close` took the session, nothing recorded for it reaches a consumer, the adapter's own close is dropped and its answers are attributed to nobody; other sessions are as before |
| SessionLog.EventsAfterSuffix | crates/aifuel-app/src/run_store/session_log/replay.rs:37-41 | on a contiguous log a cursor selects exactly a suffix, the whole log when the 64-bit cast makes it negative |
| SessionLog.ReplayIsPrefix | crates/aifuel-app/src/run_store/session_log/replay.rs:24-63 | a replay is the whole suffix exactly when it is not marked truncated, is marked so exactly when the suffix passes the count bound or, beyond one event, the byte bound, is never empty while events follow, and stays within both bounds |
| SessionLog.AppendDurable | crates/aifuel-app/src/run_store/session_log/append.rs:79-99 | appends keep a log numbered 1, 2, 3, ... and its rows scrubbed |
| SessionLog.StoredTwice | crates/aifuel-app/src/run_store/session_log/append.rs:60-75 | scrubbing a stored row changes nothing, so a replayed fact equals its row |
| SessionLog.ScrubForgetsAnswers | crates/aifuel-app/src/run_store/session_log/append.rs:55-75 | two answers of the same shape leave the same durable row: no answer material is kept |
| SessionLog.ScrubKeepsTheRest | crates/aifuel-app/src/run_store/session_log/append.rs:55-75 | every fact but an approval answer is stored as it is; an answer keeps its request, its consumer, its form, a chosen option and the names of answered questions, and nothing typed |
| Paging.TakePage | crates/aifuel-app/src/run_store/session_log/replay.rs:42-57 | the loop takes exactly one page and says whether items are left |
| Paging.PageUnique | crates/aifuel-app/src/run_store/session_log/replay.rs:45-57 | stopping at the first item that does not fit determines the page |
| SessionProtocol.StepWrites | crates/aifuel-runtime/src/pump.rs:70-139 | every step of pumps, creates, continuations, closes, restores and shutdown records at most the one fact named by `Written`: no other log grows, and a row changes by what that fact projects or appears when a create gets an unknown id |
| SessionProtocol.RunKeepsInv | crates/aifuel-runtime/src/pump.rs:59-243 | after every interleaving, session ids repeating or not: logs are numbered and scrubbed, every live entry, pump thread and command has a row, and each row is the status of its log's last close or status fact |
| SessionProtocol.CreatedSessionIsLive | crates/aifuel-runtime/src/commands.rs:118-188 | from every state a create that nothing fails leaves one fact, a row kept or idle, one draining thread and a live entry with the access asked for and that thread's handle |
| SessionProtocol.FailedCreateIsNotLive | crates/aifuel-runtime/src/commands.rs:136-167 | a create that fails at its fact or its pump leaves no entry and no thread |
| SessionProtocol.FollowUpsRecord | crates/aifuel-runtime/src/pump.rs:155-213 | after a completed run, first the checkpoint of that run and then the quota are appended and delivered, each at most once, and the pump drains again |
| SessionProtocol.MarkedAndRestorable | crates/aifuel-app/src/run_store/session_log/append.rs:174-199 | shutdown marks exactly the three in-flight statuses, and exactly idle and interrupted sessions can be restored |
| SessionProtocol.InterruptedSessionContinues | crates/aifuel-runtime/src/runtime.rs:343-392 | from every state with an in-flight session nothing here drives, its shutdown mark and its continuation are two facts of its log and leave it working and live |
| SessionProtocol.SessionContinues | crates/aifuel-runtime/src/runtime.rs:349-392 | a continuation ends with one fact, a working row, a thread that skips the startup `idle`, and an entry without subscribers at least privilege |
| SessionProtocol.FailedSpawnIsInterrupted | crates/aifuel-runtime/src/runtime.rs:390-404 | one whose pump cannot start records that it fell through |
| SessionProtocol.FirstAnswerIsNamed | crates/aifuel-runtime/src/commands.rs:423-444 | the first consumer registered for a request stays the one, and only it can withdraw |
| SessionSubscribe.SubscribeReplays | crates/aifuel-runtime/src/commands.rs:218-245 | for every durable log, live or not, a subscribe delivers exactly the log from its base on; it changes no log, row or other entry, and leaves the consumer following exactly a live session |
| SessionSubscribe.RestoreReachesFollower | crates/aifuel-runtime/src/checkpoints.rs:311-318 | a restore left alone is appended and reaches a subscriber once |
| SessionSubscribe.SubscriberSeesContiguousRun | crates/aifuel-runtime/src/commands.rs:218-268 | over every interleaving, what the channel carries from the subscribe on is exactly the contiguous log from the base (after the cursor, or after the head when truncated) if and only if no fact was written silently: no shutdown mark, and no `session.created` of a further create that got the same id |
| SessionSubscribe.SubscriptionEnds | crates/aifuel-runtime/src/commands.rs:168-181 | once `session.close` takes the session, or the entry of a further create of the same id replaces its entry, the consumer hears nothing of the session over every interleaving until it subscribes again |
| SessionSubscribe.SecondCreateIsMissed | crates/aifuel-runtime/src/commands.rs:118-188 | from every state in which a consumer follows a session, a further create of the id leaves the session live, two more facts in its log, and the channel as it was |
| SessionSubscribe.RestoreDeliversTwice | crates/aifuel-runtime/src/checkpoints.rs:311-318 | from every state that can restore a live session's checkpoint, a trace in which a subscriber receives the restore fact twice |
| SessionClose.AppendKeepsSeparation | crates/aifuel-app/src/run_store/session_log/append.rs:45-108 | closes stay separated under every append but that of a close on a tail that is closed already |
| SessionClose.StepKeepsCloses | crates/aifuel-runtime/src/pump.rs:85-96 | every step keeps closes separated and the mark of live entries in step with their logs, unless a create gets the id of a live, open session |
| SessionClose.ClosesAreSeparated | crates/aifuel-runtime/src/pump.rs:85-96 | over every interleaving from any store earlier runtimes left, the row is the status of the log's last close or status fact; and where no create gets the id of a live session not marked closed, any two closes have a status other than `closed`, or a new creation, between them |
| SessionClose.LiveIdClosesTwice | crates/aifuel-runtime/src/commands.rs:118-188 | from every state in which a create gets the id of such a session, a run follows that leaves two closes side by side |
| SessionClose.CloseOfIdleSession | crates/aifuel-runtime/src/commands.rs:321-337 | a `session.close` of a session that is not live writes a further close if and only if the last close or status fact of its log, if any, is a status other than `closed`; the row ends closed either way |
| SessionClose.CheckFollowsLog | crates/aifuel-runtime/src/commands.rs:321-329 | with pumps free to run around it, reading the row refuses the close exactly when the log's last close or status fact says closed |
| SessionClose.CloseOfLiveSession | crates/aifuel-runtime/src/commands.rs:294-320 | a `session.close` whose pump has nothing left ends the entry, its thread and its attributions, and adds the close exactly when the adapter had not closed it itself |
| SessionClose.RefusedStopIsNoClose | crates/aifuel-runtime/src/commands.rs:304-306 | an adapter that refuses to stop loses its entry but not its pump, and nothing is recorded |
| SessionClose.StatusAfterCloseReopens | crates/aifuel-app/src/run_store/session_log/append.rs:135-146 | from every state with a live, open session, an adapter close, a later status and two ordinary closes leave two more closes in the log |
| SessionClose.NothingFollowsAuthoredClose | crates/aifuel-runtime/src/commands.rs:303-320 | once `session.close` stopped the adapter, joined the session's only pump and authored the close, that close is the last fact of the log after every continuation in which the id is not created again |
| SessionClose.JoinedPumpWasTheOnlyOne | crates/aifuel-runtime/src/commands.rs:308-312 | over every run in which each create of the id was the first to get it, the pump that `session.close` joins was the session's only one |
| SessionClose.LeftoverPumpFollowsClose | crates/aifuel-runtime/src/pump.rs:120-129 | from every state with a second thread of the session at that close, a continuation records a fact after it |
| SessionClose.ReplacedPumpOutlivesClose | crates/aifuel-runtime/src/commands.rs:168-181 | from every state with a live session and a free command, a create of its id and a close lead to such a state |
| SessionClose.CreateFollowsClose | crates/aifuel-runtime/src/commands.rs:118-148 | from every state at that close, a create of the id puts `session.created` after it |
| Dispatch.RecordRoundTrip | crates/aifuel-runtime/src/dispatch.rs:148-200 | decoding a recorded receipt undoes encoding it if and only if it carries no snapshot, and otherwise loses only the snapshot |
| Dispatch.RecordHolds | crates/aifuel-runtime/src/dispatch.rs:148-160 | each field of a record by name, and which are absent |
| Dispatch.BareRecordReads | crates/aifuel-runtime/src/dispatch.rs:179-200 | a record with id and flag alone reads as sequence 0 without ids, or as the provider error without message |
| Dispatch.Dispatcher.Dispatch | crates/aifuel-runtime/src/dispatch.rs:208-241 | the dispatch method: recall, execute or panic, insert-or-ignore, with the record table failing on read or write |
| Dispatch.MutatingCommandsRunOnce | crates/aifuel-runtime/src/dispatch.rs:167-240 | for the seven mutating operations by name, under one id: the first delivery executes and is recorded, the second changes nothing and returns the same outcome |
| Dispatch.ReadCommandsAlwaysRun | crates/aifuel-runtime/src/dispatch.rs:167-175 | for the four attach and read operations by name: every delivery executes and records nothing |
| Dispatch.UnrecordedCommandsRun | crates/aifuel-runtime/src/dispatch.rs:208-240 | a record that is missing, unreadable or malformed never blocks a command, and is not replaced |
| Dispatch.AnsweredSays | crates/aifuel-runtime/src/dispatch.rs:113-135 | what a client is told for each way a command can end, a panic included |
| Dispatch.StepRecords | crates/aifuel-app/src/run_store/commands.rs:19-46 | a delivered mutating command leaves a record that decodes to its answer, and no record ever changes |
| Dispatch.RepeatsChangeNothing | crates/aifuel-runtime/src/dispatch.rs:208-241 | for every sequence of commands and outside changes, deleting every repeat of a mutating id leaves the same world and records |
| Dispatch.RepeatAnswersFirst | crates/aifuel-runtime/src/dispatch.rs:163-200 | each repeat answers exactly the first outcome and changes nothing, whatever happened in between |
| Dispatch.MalformedRecordAlwaysReruns | crates/aifuel-runtime/src/dispatch.rs:214-220 | with a record that cannot be decoded, n deliveries execute n times and the record stays |
| Ownership.OwnerIdInjective | crates/aifuel-app/src/run_store.rs:173-178 | an owner id's text determines process, stamp and sequence |
| Ownership.OwnerIdNamesPid | crates/aifuel-app/src/run_store.rs:204-216 | reading an owner id gives back its process id |
| Ownership.OwnerRegistry.Register | crates/aifuel-app/src/run_store.rs:188-197 | the live map counts exactly the held guards, with no zero entry |
| Ownership.OwnerRegistry.Release | crates/aifuel-app/src/run_store.rs:72-82 | dropping a guard removes one registration, the last one the id |
| Ownership.OwnerRegistry.SessionOwnerDead | crates/aifuel-app/src/run_store.rs:204-217 | the liveness rule, against the guards still held; the next row says what it is |
| Ownership.DeadExactly | crates/aifuel-app/src/run_store.rs:204-217 | a row without owner is dead; an owner id of this process exactly when nobody here holds it, of another process exactly when that process is gone, and never when its process id is 0 or past 32 bits |
| Ownership.OrphanIsResumed | crates/aifuel-runtime/src/runtime.rs:257-392 | from every state with such a session, a run of any runtime ends with it driving the session |
| Ownership.CrashIsRecovered | crates/aifuel-runtime/src/runtime.rs:209-392 | when the process of a session's driver dies, every runtime of another process can end up driving it |
| Ownership.SessionTable.Claim | crates/aifuel-app/src/run_store/session_log/agent_sessions.rs:56-66 | the claim lands if and only if the observed owner is still there, and changes that row alone |
| Ownership.SessionTable.Sweep | crates/aifuel-runtime/src/runtime.rs:257-312 | the sweep claims exactly the interrupted, resumable candidates with a cursor whose owner is unchanged, field by field, and no other row moves |
| Ownership.DeadMeansGone | crates/aifuel-app/src/run_store.rs:199-217 | an owner one process judges dead is registered by no runtime of any process |
| Ownership.ClaimStealsNothing | crates/aifuel-runtime/src/runtime.rs:299-312 | a landing claim takes its session from no runtime that holds or drives it |
| Ownership.SingleDriver | crates/aifuel-runtime/src/runtime.rs:209-406 | over every interleaving of opens on own or shared stores, sweeps, claims, creates, starts, closes, drops, crashes and pid reuse: no session has two drivers and a driven row names its driver's registered id, as long as no create gets an id that another runtime holds or drives, and no store is opened again while a pending claim expects its owner |
| Ownership.RecordDoubleDrives | crates/aifuel-app/src/run_store/session_log/agent_sessions.rs:140-202 | recording an id and attaching it leaves another runtime driving the session as well if and only if it was driving it before: the upsert re-stamps the owner unconditionally |
| Ownership.UnguardedRecordDoubleDrives | crates/aifuel-app/src/run_store/session_log/agent_sessions.rs:20-49 | from every state in which a create gets an id another runtime holds or drives, a run follows that ends with two drivers |
| Ownership.RepeatedIdDoubleDrives | crates/aifuel-providers/src/cli_adapter/adapter.rs:149-150 | from every database at rest, two runtimes of one process on stores of their own both end up driving any id their adapters both mint |
| Ownership.UnguardedReopenDoubleDrives | crates/aifuel-runtime/src/runtime.rs:189-220 | from every state in which a store is opened again while a pending claim expects its owner, a run that is guarded from there on ends with two drivers |
| Ownership.ReusedOwnerDoubleDrives | crates/aifuel-runtime/src/runtime.rs:189-220 | if an owner id a pending sweep expects is registered by a second runtime, a run follows in which two runtimes drive one session |
| Ownership.DoubleDriveIsReachable | crates/aifuel-runtime/src/runtime.rs:189-406 | from every database at rest, for every process id and new session, steps that end with two runtimes driving it, the second opened on an earlier runtime's store |
| RunHistory.RunStore.ReconcileOrphanedRuns | crates/aifuel-app/src/run_store.rs:591-632 | the owner-by-owner loop repairs exactly the orphans and their streams |
| RunHistory.RunStore.CloseStreams | crates/aifuel-app/src/run_store.rs:615-629 | each listed stream gets the terminal event it lacked |
| RunHistory.RepairIsComplete | crates/aifuel-app/src/run_store.rs:587-632 | after a repair no orphan is left, each repaired stream holds a terminal event, and a second repair changes nothing |
| RunHistory.RepairTouchesOnlyOrphans | crates/aifuel-app/src/run_store.rs:591-632 | a stream changes exactly when it is an orphan's without terminal event, by one event at maximum plus one; other runs are untouched |
| RunHistory.RepairFailsOrphans | crates/aifuel-app/src/run_store.rs:591-630 | run by run: exactly a run that is not over, not of this process and of one that is gone ends failed with the reason, status and time, and everything else of it and every other run stays; the four terminal states and events by name |
| RunHistory.RunStore.AppendEvent | crates/aifuel-app/src/run_store.rs:303-345 | the row lands with or without payload as retention and budget decide, a budget that cannot be read allowing none; a stored sequence wins |
| RunHistory.AppendIsExact | crates/aifuel-app/src/run_store.rs:315-352 | an append adds nothing under a stored sequence, else exactly the event, with its payload if and only if it is retained and the budget can be read and allows it |
| RunHistory.WidthIsShortest | crates/aifuel-app/src/run_store.rs:328-336 | payload bytes are counted in the shortest form of section 3 of RFC 3629 |
| RunHistory.AppendKeepsBudget | crates/aifuel-app/src/run_store.rs:328-345 | retained characters stay within the budget, the scan stays ordered, no row is lost or rewritten |
| RunHistory.OverrunIsExact | crates/aifuel-app/src/run_store.rs:328-345 | an append takes the retained bytes past the budget if and only if its row is new and its payload is let in by the character count although the bytes do not fit |
| RunHistory.AsciiStaysWithinBudget | crates/aifuel-app/src/run_store.rs:328-345 | over ASCII rows no append does |
| RunHistory.BudgetCountsCharacters | crates/aifuel-app/src/run_store.rs:337-344 | two appends that do |
| RunHistory.RunStore.StoredEvents | crates/aifuel-app/src/run_store.rs:521-577 | visibility and the paging loop give one page, the newest sequence and whether more follows |
| RunHistory.ServedRuns | crates/aifuel-app/src/run_store.rs:521-552 | exactly a known run that is over, of this process or of one that is gone, is served |
| RunHistory.PageProgress | crates/aifuel-app/src/run_store.rs:553-571 | a page is a prefix of what follows the cursor, non-empty when anything does, one event or within the byte bound, which one more event would pass; it names the newest sequence, and its last sequence continues exactly after it |
| RunHistory.WalkIsComplete | crates/aifuel-app/src/run_store.rs:518-577 | following pages to the end terminates and concatenates to exactly the events after the cursor |
| RunHistory.CursorsStayHonest | crates/aifuel-app/src/run_management/observation.rs:129-174 | every 64-bit cursor is refused exactly when past the newest event, and otherwise answered with events after it |
| RunHistory.FirstReadStartsAtFirst | crates/aifuel-app/src/run_management/observation.rs:129-174 | a read without cursor starts at the first event and is never refused |
| EventQueue.CreditsAreConserved | crates/aifuel-mcp/src/http.rs:68-128 | over every interleaving of pushes, reads and a close, accepted bytes never pass a non-zero capacity, and with no push in progress the counter is exactly those bytes |
| EventQueue.FramesInOrder | crates/aifuel-mcp/src/http.rs:85-172 | at most one stream holds the receiver; accepted frames are taken frames followed by the backlog, in order; a stream loses at most its last frame; one that ends by disconnection leaves nothing |
| EventQueue.Queue.Enqueue | crates/aifuel-mcp/src/http.rs:104-123 | an uninterrupted push is refused without trace or is last in the channel |
| EventQueue.EnqueueIsAPush | crates/aifuel-mcp/src/http.rs:104-123 | that push is three atomic steps of the concurrent queue |
| EventQueue.Queue.StreamEvents | crates/aifuel-mcp/src/http.rs:157-171 | for every outcome of its writes: the chunks are the backlog's frames in order and then keep-alives, one for each successful write while the queue is open; a stream ends unbroken only with its script or, on a closed queue, with the backlog; the first failed write breaks it and loses at most the frame in hand; nothing else leaves the queue |
| EventQueue.Queue.CloseAndDrain | crates/aifuel-mcp/src/http.rs:126-171 | after a close, a stream whose writes all succeed delivers exactly the backlog; otherwise what is delivered, at most one lost frame and the rest are the backlog |
| EventQueue.NewQueueIsOpen | crates/aifuel-mcp/src/http.rs:93-123 | a new queue takes its first frame unless it passes a non-zero capacity |
| EventQueue.ClosedQueueRefuses | crates/aifuel-mcp/src/http.rs:104-128 | a queue can be closed in any state, after which a push in any stage is refused and what is queued stays |
| EventQueue.AttachTakesReceiver | crates/aifuel-mcp/src/http.rs:130-156 | exactly the stream that finds the receiver takes it; another is turned away without trace |
| EventQueue.FrontIsWritten | crates/aifuel-mcp/src/http.rs:157-171 | a waiting stream takes the front frame, returns its credit and writes it; a broken write hands the receiver back with the rest queued |
| EventQueue.StreamDrains | crates/aifuel-mcp/src/http.rs:157-171 | from every state, a waiting stream whose writes succeed delivers the whole backlog in order and returns all its credit |
| EventQueue.IdleStreamBeatsOrEnds | crates/aifuel-mcp/src/http.rs:160-171 | with nothing queued it writes a keep-alive and waits on, or on a closed queue ends and hands the receiver back |
| Sse.SseFrame | crates/aifuel-mcp/src/http.rs:174-183 | the one-pass buffer is one data line per line of the payload and a blank line |
| Sse.FramingRoundTrip | crates/aifuel-mcp/src/http.rs:157-183 | interpreting the written stream, keep-alive comments anywhere, yields exactly the payloads in order if and only if none holds a carriage return |
| AgentSetup.RecoveryIsFinal | crates/aifuel-app/src/agent_mcp_setup/recovery.rs:44-108 | recovery leaves config and backup alone, is over in one go, and changes the receipt only to an entry the config holds under the digest journaled for it |
| AgentSetup.SetupFacade.Commit | crates/aifuel-app/src/agent_mcp_setup.rs:218-240 | backup, journal, replacement and finalization as one undisturbed transition |
| AgentSetup.SetupFacade.RunSetup | crates/aifuel-app/src/agent_mcp_setup.rs:80-102 | the whole call, with each planning, recovery and finalization error |
| AgentSetup.SetupDecides | crates/aifuel-app/src/agent_mcp_setup.rs:104-195 | from settled files, the files and the answer of one setup, by what the config holds, what the receipt owns and what the adapter writes and reads back: configured, conflicting, edited, applied, updated, or the adapter's errors |
| AgentSetup.RemovalDecides | crates/aifuel-app/src/agent_mcp_setup.rs:104-160 | the same of one removal: missing, stale receipt, unowned, edited, vanished, removed, or the adapter's errors |
| AgentSetup.RecoveryDecides | crates/aifuel-app/src/agent_mcp_setup/recovery.rs:44-108 | from a readable pending journal, a call goes on from the recovered files exactly when the backup holds the base and the config fits the target, the base, or an owned or absent entry; otherwise it is a conflict that changes nothing |
| AgentSetup.UnreadableStateIsRefused | crates/aifuel-app/src/agent_mcp_setup.rs:80-130 | journals, receipts or configs that cannot be read, or are another host's, stop every call unchanged with the error that names them |
| AgentSetup.CommitTakesOwnership | crates/aifuel-app/src/agent_mcp_setup/recovery.rs:110-135 | for any adapter and digest, a verified plan ends with the config written, the receipt owning the entry and no journal |
| AgentSetup.PlannedEntryIsVerified | crates/aifuel-app/src/agent_mcp_setup.rs:288-303 | a planned config was seen to hold the expected entry, even with a wrong writer |
| AgentSetup.DryRunPredicts | crates/aifuel-app/src/agent_mcp_setup.rs:80-92 | from any files a dry run changes nothing, and it reports exactly the action or error of the real run if and only if no readable journal is pending |
| AgentSetup.SecondRunIsIdle | crates/aifuel-app/src/agent_mcp_setup.rs:104-195 | after any successful real run from any files, the same call reports nothing to do and writes nothing |
| SetupProtocol.OnlyClaimedEntriesAreReplaced | crates/aifuel-app/src/agent_mcp_setup.rs:104-286 | over every run of setups, removals, crashes and user edits, an overwritten or removed entry is one AI Fuel journaled, and it wrote it itself or the user typed a config with the digest of a target journaled for that entry; the receipt holds such entries only |
| SetupProtocol.OwnershipSurvivesCrashes | crates/aifuel-app/src/agent_mcp_setup/recovery.rs:44-108 | after a replacement, until the user touches the file, receipt or journal claims the written entry, and recovery from any later point succeeds and owns it if and only if no pending journal names another entry for that config's digest |
| SetupProtocol.TypedTwinIsRemoved | crates/aifuel-app/src/agent_mcp_setup/recovery.rs:58-91 | for every adapter that can plan and remove, a trace in which an entry AI Fuel never wrote is adopted and removed |
| SetupProtocol.UndisturbedRunIsRun | crates/aifuel-app/src/agent_mcp_setup.rs:80-102 | the atomic steps of an undisturbed run leave exactly the files and report exactly the action or error of the facade's call |
| CodexRefresh.CodexAdapter.WriteRefreshed | crates/aifuel-providers/src/codex_oauth.rs:566-597 | the fields inserted one by one make the rotated file, and a failed write leaves the old one |
| CodexRefresh.CodexAdapter.RefreshFile | crates/aifuel-providers/src/codex_oauth.rs:258-328 | one locked refresh with every refusal and failure |
| CodexRefresh.ReplyMovesToItsFields | crates/aifuel-providers/src/codex_oauth.rs:258-328 | the endpoint is asked exactly when the token expires within 60 seconds and there is a refresh token; then each token the reply names is in the file under its own name, the others stay, and the file is stamped; any other reply or a failed write is an error and changes nothing |
| CodexRefresh.CredentialsAreTheFields | crates/aifuel-providers/src/codex_oauth.rs:456-490 | the credentials are the four fields of the file, empty texts counting as none |
| CodexRefresh.MissingPartIsNamed | crates/aifuel-providers/src/codex_oauth.rs:436-490 | each file that yields no credentials is refused with the part it lacks |
| CodexRefresh.UndisturbedTaskIsRefresh | crates/aifuel-providers/src/codex_oauth.rs:258-328 | a caller nobody interferes with gets the file and the answer of one locked refresh |
| CodexRefresh.RotationReadsBack | crates/aifuel-providers/src/codex_oauth.rs:456-490 | a file that yields credentials can be rewritten and reads back as the refreshed credentials |
| CodexRefresh.RefreshAgreesWithFile | crates/aifuel-providers/src/codex_oauth.rs:248-328 | returned credentials are those the file then holds, a failed refresh leaves it unchanged, it is written only when it was expired, and the two shape errors of the writer cannot occur |
| CodexRefresh.UnrelatedFieldsKept | crates/aifuel-providers/src/codex_oauth.rs:561-597 | every field outside the rotated set rides through |
| CodexRefresh.GrantSpentOnce | crates/aifuel-providers/src/codex_oauth.rs:258-271 | for any number of callers in any interleaving, the endpoint spends at most one grant while its token set lasts, and afterwards callers are answered from the file, given that a granted exchange is read and written |
| CodexRefresh.GrantSpentAgain | crates/aifuel-providers/src/codex_oauth.rs:288-321 | after a granted exchange the next caller posts the refresh token again if and only if that exchange was abandoned after its grant, its answer could not be read or its write failed, or the new token is within the margin already |
| CodexRefresh.OutsideWriteIsLost | crates/aifuel-providers/src/codex_oauth.rs:258-321 | a file another program puts in place during an exchange survives if and only if the exchange is not granted, its write fails, or it is the very file written |
| Launcher.EventBuffer.Push | crates/aifuel-app/src/run_management/records.rs:202-228 | the eviction loop drops exactly the oldest events needed, flags the gap, and keeps the buffer numbered and within its bytes |
| Launcher.EvictionIsMinimal | crates/aifuel-app/src/run_management/records.rs:202-228 | with the last evicted event put back the new one would not fit |
| Launcher.EventBuffer.ReadEvents | crates/aifuel-app/src/run_management/observation.rs:20-75 | one page after the cursor, its next cursor and its gap flag; a cursor newer than everything retained is refused |
| Launcher.GapMeansLoss | crates/aifuel-app/src/run_management/observation.rs:41-68 | a page says that events are lost exactly when the buffer does not hold all that was produced |
| Launcher.RefusedCursorIsAhead | crates/aifuel-app/src/run_management/observation.rs:26-40 | a cursor is refused exactly when it is past everything produced |
| Launcher.Consumer.ConsumeEvents | crates/aifuel/src/launcher.rs:118-184 | the nested loops show the pages up to the one that ends the walk, and succeed exactly if some page has no next cursor |
| Launcher.NothingAfterLastPage | crates/aifuel/src/launcher.rs:118-184 | nothing of a later page is shown |
| Launcher.EachEventShownOnce | crates/aifuel/src/launcher.rs:118-184 | for any pages over all calls, shown sequence numbers strictly increase and a gap notice stands only where one was jumped |
| Launcher.PageIsSlice | crates/aifuel-app/src/run_management/observation.rs:41-68 | a page of the buffer is a contiguous slice of everything produced, as long as the byte bound allows and no longer, and its cursor says whether that is all |
| Launcher.RetainedEventsAreShown | crates/aifuel/src/launcher.rs:118-184 | for any interleaving of production, eviction and reads, no read is refused, every jump is announced right before the event after it and nothing else is, and a read that ends its walk has shown every event still retained |
| Launcher.CallIsReads | crates/aifuel/src/launcher.rs:128-183 | reads interleaved with production show what one call shows for the same pages |
| Launcher.WrittenIsTheRecords | crates/aifuel/src/launcher.rs:136-177 | the two writers hold exactly the rendering of what was shown, and the fallback flag is set exactly when an output event was |
| Webhooks.WebhookNotifier.Deliver | crates/aifuel-app/src/webhooks.rs:77-137 | the three nested loops and the save |
| Webhooks.AnchorIsLongest | crates/aifuel-app/src/webhooks.rs:90-95 | the anchor is the longest period among the provider's windows |
| WebhookEdges.ReloadingChangesNothing | crates/aifuel-app/src/webhooks.rs:271-311 | reloading the saved state between reports queues exactly what one pass over all of them queues |
| WebhookEdges.QueuedIsMeasured | crates/aifuel-app/src/webhooks.rs:77-137 | every payload tells of one measured window of an answering provider: its names and measure, the endpoint's threshold and a subscribed kind, a crossing exactly when the measure reaches it, authoritative exactly when no window of the provider has a longer period; saving has no part in it |
| WebhookEdges.EndpointIsToldItsEdges | crates/aifuel-app/src/webhooks.rs:77-143 | an endpoint whose threshold no earlier one has is told exactly the edges over the reports that measured the window, filtered by its subscription |
| WebhookEdges.EdgesAlternate | crates/aifuel-app/src/webhooks.rs:112-116 | edges alternate, beginning with a crossing when the window starts below |
| WebhookEdges.LaterTwinIsNeverTold | crates/aifuel-app/src/webhooks.rs:100-111 | an endpoint whose threshold an earlier one has never hears of any edge |
| WebhookEdges.KeyIdentifies | crates/aifuel-app/src/webhooks.rs:464-472 | with bar-free accounts, and whatever the windows are called, two keys agree if and only if window and threshold text do |
| WebhookEdges.BarsCollide | crates/aifuel-app/src/webhooks.rs:464-472 | every account with a bar shares its key with a window of another account |
| Admin.HmacSha256 | crates/aifuel/src/admin.rs:254-270 | the padded block in place and two passes are HMAC |
| Admin.HmacPads | crates/aifuel/src/admin.rs:254-270 | HMAC byte by byte: which bytes fill the block, and the two pads |
| Admin.Pbkdf2Sha256 | crates/aifuel/src/admin.rs:240-252 | the mutable XOR loop is one-block PBKDF2 for every iteration count |
| Admin.Pbkdf2Iterates | crates/aifuel/src/admin.rs:240-252 | no iteration counts as one, which is a pass over salt and block index; each further one adds the pass over the last |
| Admin.HexText | crates/aifuel/src/admin.rs:282-288 | two lower-case digits a byte |
| Admin.HexRoundTrip | crates/aifuel/src/admin.rs:282-299 | reading hexadecimal text undoes writing it and the text holds no separator |
| Admin.GatheredZero | crates/aifuel/src/admin.rs:274-280 | the gathered differences are zero if and only if the digests are equal |
| Admin.RecordVerifies | crates/aifuel/src/admin.rs:133-153 | a record over any salt, count and key accepts exactly the passwords whose derived key has that key's digest, so it accepts its own |
| Admin.OnlyRecordsVerify | crates/aifuel/src/admin.rs:133-153 | a text that is not four parts of the right version, number and hexadecimal digits verifies nothing |
| Admin.VerifiesByStore | crates/aifuel/src/admin.rs:64-77 | before a password is stored exactly the environment's is accepted, none while the store is damaged or of another version |
| Admin.AdminStore.SetPassword | crates/aifuel/src/admin.rs:78-92 | an accepted password verifies afterwards whatever the environment says; a short one, or a failed write, changes nothing |
| Text.RenderInverse | crates/aifuel/src/admin.rs:89 | reading a number's digits undoes writing it in any base up to sixteen |
| Text.ParseInverse | crates/aifuel/src/admin.rs:147 | a decimal rendering parses back exactly when it fits 32 bits |
| Ranking.NewWindowIsNormal | crates/aifuel-core/src/lib.rs:344-366 | one known side fills in the other, both lie in 0 to 100, two measured sides are only clamped |
| Ranking.ClampIsNearest | crates/aifuel-core/src/lib.rs:344-366 | a measure moves to the nearest point of 0 to 100 |
| Ranking.SoonestIsSoonest | crates/aifuel-core/src/lib.rs:429-446 | a provider's reset is the soonest among its windows, missing only if all are |
| Ranking.RemainingIsPercentOrUnknown | crates/aifuel-core/src/lib.rs:448-457 | the ranked allowance is a percentage, or -1 exactly when no window was measured |
| Ranking.RemainingIsFirstKnown | crates/aifuel-core/src/lib.rs:448-457 | it is the allowance of the first window that knows one |
| Ranking.ReportPrefersHeadroom | crates/aifuel-core/src/status.rs:269-280 | the report is a permutation with headroom first and, in each group, the sooner reset first |
| Ranking.ReportKeepsTies | crates/aifuel-core/src/status.rs:269-280 | and providers equal in both keep collection order |
| Ranking.RoutePrefersHeadroom | crates/aifuel-core/src/status.rs:418-438 | routing after reporting is a permutation with headroom first, more of it first, and the sooner reset first among equals |
| Ranking.TiesKeepCollectionOrder | crates/aifuel-core/src/status.rs:269-280 | full ties keep collection order through both sorts |
| Ranking.BareKeepReportOrder | crates/aifuel-core/src/status.rs:410-438 | over a fresh report, the providers without headroom stay in report order if and only if none of them stands after one with less left, that is, no exhausted one after an unmeasured one |
| Ranking.ExhaustedOvertakesUnmeasured | crates/aifuel-core/src/status.rs:410-438 | two that were not |
| StableSort.SortIsStable | crates/aifuel-core/src/status.rs:269-280 | the sort is ordered and keeps every group of ties in its order |
| StableSort.StableSortIsUnique | crates/aifuel-core/src/status.rs:418-437 | no other result is ordered and stable, so any stable sort computes it |
| StableSort.PartKeepsOrder | crates/aifuel-core/src/status.rs:418-437 | a stable sort leaves a part of its input in order exactly when that part was in order |

## Left out

- SessionSubscribe.SubscriberSeesContiguousRun: covers one subscription until it ends (`SubscriptionEnds`), the consumer subscribes to the session again, or a checkpoint of it is restored.
- SessionLog.Runtime.AppendEvent: the session row keeps its status only; the model and effort a run start records and the owner a creation refreshes are not modelled.
- SessionClose.ClosesAreSeparated: for commands handled one at a time, as the bridge loop serves them; two overlapping `session.close` commands can both author a close.
- SessionProtocol.RunKeepsInv: pumps outliving a dropped runtime, and a consumer taking its receiver, are not steps.
- Dispatch.RepeatsChangeNothing: for a record table that can be read and written; `Dispatcher.Dispatch` covers one whose reads or writes fail.
- Dispatch.RecordRoundTrip: records are JSON values; printing and parsing JSON text is not part of this model.
- Ownership.SingleDriver: holds under its two guards only, which the code does not check; `UnguardedRecordDoubleDrives` and `UnguardedReopenDoubleDrives` show that neither can go.
- SessionClose.NothingFollowsAuthoredClose: likewise for a create of the same id and a second pump of the session.
- EventQueue.CreditsAreConserved: the counter does not wrap at the machine word, and the receiver is never dropped, so a send fails only after a close.
- SetupProtocol.OnlyClaimedEntriesAreReplaced: file replacement is a compare-and-swap on the contents read; permission bits, symbolic links and a change between the last check and the rename are not modelled.
- SetupProtocol.OwnershipSurvivesCrashes: AI Fuel's own receipt, journal and backup files are changed by setup runs only.
- CodexRefresh.GrantSpentOnce: no other program writes the file, a granted exchange is neither abandoned nor unreadable and is written, and its token stays outside the margin for the period considered; `GrantSpentAgain` shows what each exception does.
- Launcher.RetainedEventsAreShown: sequence numbers do not saturate at the 64-bit maximum, and a cursor is the sequence it encodes rather than its text.
- WebhookEdges.EndpointIsToldItsEdges: for accounts without a bar (`BarsCollide` shows why) and successful saves.
- Admin.RecordVerifies: SHA-256 is any function to 32 bytes, so rejection of other passwords is not claimed.
- Ranking.RoutePrefersHeadroom: quota values are reals, so comparisons with a NaN are not modelled; the final projection to provider keys is left out.
- Attribution of overlapping approval answers: a losing answer can be stamped or can withdraw the winner's registration, so nothing is claimed about `answered_by`.
- Git plumbing behind checkpoints, the run manager's workers, credential discovery, provider network calls and quota collectors.
- The managed-grant refresh through the credential store, and the choice of OAuth client id.
- Dashboard, command-line parsing, MCP method tables, HTTP request handling and approval transport.
