# Verified model of tee-relay-client

tee-relay-client collects `TeeInstructionsSent` events from an indexer database, routes each one to a
processor, signs it once per destination TEE and delivers it. This project models that pipeline in Dafny
and proves what survives retries, in-place mutation of shared instruction objects, and arbitrary
interleavings.

| files | part of the relay |
|---|---|
| `Terms`, `Sequences` | symbolic vocabulary (hashes, signatures, ciphertexts, documents are terms) and sequence idioms |
| `Instructions` | the instruction object, deduplication, per-TEE signing, re-assembly in the sender |
| `FdcHandler`, `Transparency` | `Handle` as a method on the shared object, its atomic steps, one attempt in isolation |
| `Relay`, `RelayInvariant`, `RelayTheorems`, `RelayOutcomes`, `RelayRestores`, `RelayTermination`, `RelayProgress` | the concurrent machine: processors, queues, retries, channel, sender goroutines; invariant, whole-run theorems, termination, progress and winding down |
| `Backup`, `BackupTheorems` | data-provider and direct key restores |
| `FdcTables`, `Identifier`, `Verifier`, `Post` | routing tables, 64-byte identifiers, verifier protocol, HTTP retry loop and error text |
| `Collector`, `Damper`, `Health`, `Router` | cursor loop, rate-limited logging, probes, fate of every log |
| `Pipeline` | bounded channels and shutdown |
| `EndToEnd` | startup, and the composition from the indexer's chain to the TEEs |

How the pieces fit: `FdcHandler.Advance` is one uninterruptible step of a processor on an instruction.
The imperative `Handle`, `WrapHandle`, `ProcessPlain` and `Backup.Process` are proved to be runs of these
steps; `Relay` interleaves the same steps of any number of processors with queue, timer and sender steps.
Every failure point is answered by an oracle, so a theorem over all answers covers verifier errors, RETRY,
hash failures, signer failures, wrong signature counts, panics and cancellation in any order.

The symbolic terms carry no axioms. A signature names the key and the hash it covers, a ciphertext its
recipient and plaintext. Equality of terms stands for equality of digests.

Where code and comments disagree, the code is modelled:

- `internal/router/processors/fdc_verifier.go:53` says a response body is nonempty iff the status is
  VERIFIED; `validateResponse` (144-163) ignores the body of the other verdicts. `Verifier.BodyIffVerified`
  states exactly when the comment holds.
- `Base.Sign` (`internal/router/instructions/instructions.go:115-130`) does not check the number of
  signatures, and the sender indexes them. Both signers of the repository return one per hash; an outside
  implementation of the exported interface that does not makes the sender panic
  (`Instructions.UncheckedSignerPanicsSender`). The whole-run theorems about deliveries exclude `Other`.
- `internal/post/post.go:28` says terminal statuses must still surface their error. An attempt the retry
  budget abandons in flight does not surface it, even when it completes in time to be counted
  (`Post.AbandonedTerminalErrorIsLost`).

## Model

| member | source | states |
|---|---|---|
| EndToEnd.ChainToTees | internal/client/client.go:76-92 | Collector, router and relay composed: if the indexer never goes back, no batch was cut off, the relay accepted what was handed over in any order and came to rest uncancelled, then its items are exactly the admissible logs of the chain in (start, cursor], one for each, and each is completed: sent once to each of its TEEs, closed, or dropped, an FDC one with the reason |
| EndToEnd.ChainReachesTees | internal/client/client.go:76-92 | And it can always get there: from every uncancelled state that accepted those logs, whatever failed so far, some run of its own steps leads to that outcome |
| EndToEnd.Start | internal/client/client.go:31-73 | Startup succeeds iff the flat checks, the queue checks, the database connection, the signer, in cosigner mode its identification, and the routing tables are all in order; the configuration is then the one the theorems about the relay assume, and a cosigner filters by the address of the key its signer identifies with |
| EndToEnd.EntersExactly | internal/router/processors/fdc.go:89-109 | A log becomes an instruction iff the filter lets its event pass and its operation is FDC2 PROVE with a request some configured verifier serves, or one of the other accepted pairs |
| RelayTheorems.RetriesAreTransparent | internal/router/processors/fdc_handler.go:86-147 | Over every run: whatever failed, panicked or was cancelled in earlier attempts, an emitted FDC instruction is a function of its event and of the one VERIFIED body it consumed, and an emitted plain one is its parsed event under its signatures |
| RelayTheorems.RetriesEqualOneAttempt | internal/router/processors/fdc_handler.go:68-147 | Over every honest run: for each emitted FDC instruction there is a failure-free attempt, answered by the verifier with the body consumed, and that one Handle of the freshly parsed event emits exactly the object that was emitted |
| Transparency.CleanAttempt | internal/router/processors/fdc_handler.go:68-147 | One failure-free run of Handle on a parsed instruction emits the event's data with the body, a message that is the key's signature over the chain-bound relay digest of the FDC message (request, body, event's cosigners and threshold, block time), never over the bare message, and one signature per TEE over the instruction with that TEE's id |
| Transparency.StaleFieldsIrrelevant | internal/router/processors/fdc_handler.go:86-139 | Two objects that differ only in a stale AdditionalVariableMessage or stale Signatures end an attempt alike, and identical if emitted |
| FdcHandler.Handle | internal/router/processors/fdc_handler.go:68-147 | The field-by-field method on the shared object leaves it, returns and sends exactly as the run of atomic steps the concurrent machine interleaves, for every answer at every failure point |
| FdcHandler.WrapHandle | internal/router/processors/fdc_queue.go:64-88 | A panic in Handle becomes an error of the attempt: the queue sees an error iff the attempt failed or panicked, and REJECTED is none |
| FdcHandler.SignAndSend | internal/router/processors/fdc_handler.go:136-146 | The common tail: sign all TEEs' hashes, then hand over the same object only after signing succeeded |
| FdcHandler.ProcessPlain | internal/router/processors/processor.go:42-58 | Without an out channel nothing changes; with one, the same tail as above |
| RelayTheorems.QueriesAreBounded | internal/router/processors/fdc_handler.go:90-116 | Over every run: attempts and queries at most the max_attempts configured for the item's queue, posts at most three times that; AdditionalFixedMessage is nonempty iff a VERIFIED answer was consumed and is its body; no query follows a VERIFIED one |
| RelayTheorems.LookupNeverFails | internal/router/processors/fdc_handler.go:69-84 | Every queued instruction decodes and finds its verifier on every attempt |
| RelayTheorems.Conservation | internal/router/processors/fdc_queue.go:59-123 | In every reachable state each accepted instruction is in exactly one of queued, waiting, in flight, on the channel, taken, closed, dropped, abandoned; nothing is emitted twice |
| RelayTheorems.EmittedIsFrozen | internal/router/processors/processor.go:42-58 | Over every continuation of every run: no step writes an emitted instruction and final places only grow |
| RelayTheorems.EmittedExactly | internal/router/processors/fdc_handler.go:86-147 | Over every honest run, written out field by field and hash by hash: an emitted instruction copies its event's fields and block time, lists its machines by first occurrence, holds the VERIFIED body and the relay-digest endorsement (FDC) or empty messages (plain), and a signature for each TEE |
| RelayTheorems.DeliveredExactly | internal/sender/sender.go:115-131 | Over every honest run: a delivered message has its origin event's fields, one of its machines' id and URL, the item's extra messages, and the key's signature over exactly that instruction on this chain |
| RelayTheorems.DeliveriesVerify | internal/sender/sender.go:43-60 | Every delivered message is re-assembled in bounds and carries a signature valid for exactly its data, TeeID and chain; each TEE of each taken instruction is owed exactly one message |
| RelayTheorems.OnlyAdmittedAccepted | internal/router/router.go:99-171 | An instruction exists only if its event passed the filter, on the processor of its operation pair (stated pair by pair), an FDC one on the queue of a configured entry with its request's type and source, and its TEEs are the event's machines by first occurrence |
| RelayTheorems.CosignerHandlesOnlyItsOwn | internal/router/filterer.go:36-38 | In cosigner mode, filtering by the own key: every instruction of every run names the relay's own signing address among its cosigners |
| RelayTheorems.DeliveriesAreCosigned | internal/sender/sender.go:43-60 | And so does every delivered message, which carries that cosigner's signature |
| RelayTheorems.EndorsementsCommit | internal/router/processors/fdc_handler.go:118-134 | Two FDC instructions emitted by any two honest relays that carry the same endorsement have the same key, chain, request, verified body, cosigners, threshold and block time |
| RelayOutcomes.EndsHaveReasons | internal/router/processors/fdc_handler.go:98-109 | Over every run: an FDC instruction is emitted only after VERIFIED, closed only on REJECTED, dropped only after exactly the configured max_attempts attempts, retried only below that, and abandoned only at shutdown |
| RelayOutcomes.VerdictDecides | internal/router/processors/fdc_handler.go:90-116 | VERIFIED stores the body and goes on to sign it; REJECTED closes the instruction; RETRY and every failed query put it up for another attempt, or drop it after the last one configured |
| RelayOutcomes.FailureDecides | internal/router/processors/fdc_handler.go:68-147 | Which steps of an attempt fail, answer by answer (panics, queries without a verdict, hashing errors, silent signers, any number of signatures but one for the response, cancellation), and that these and no others put an FDC instruction up for another attempt, or drop it after the last one configured |
| RelayInvariant.InvStep | internal/router/processors/fdc_queue.go:59-123 | The combined invariant (places, items, jobs, sender ledger, deliveries) is kept by every step |
| RelayInvariant.AdvanceOk | internal/router/processors/fdc_handler.go:68-147 | Each step keeps what the program point promises: what was queried, what the object remembers, which hashes are being signed |
| RelayTermination.RankStep | internal/router/processors/fdc_queue.go:98-122 | Every step other than accepting strictly lowers a measure of remaining attempts, steps and deliveries |
| RelayTermination.WorkIsBounded | internal/router/processors/fdc_queue.go:98-122 | From any state keeping the invariant, the steps of a run plus the measure at its end are at most the measure at its start plus what newly accepted instructions bring in |
| RelayTermination.RunsTerminate | README.md:374-378 | In every run the steps other than acceptances number at most what the accepted instructions bring in, plus one each for cancellation, the sender and every worker: retries cannot go on forever |
| RelayTheorems.WorkPerInstruction | README.md:374-378 | What one accepted instruction brings in: ten steps per attempt its queue is configured for, one per distinct machine, and seven |
| RelayProgress.NoDeadlock | internal/router/processors/fdc_queue.go:98-122 | In every reachable state that is not cancelled and has work left, some processor, timer, queue or sender step is enabled |
| RelayProgress.ComesToRest | internal/router/processors/fdc_queue.go:98-122 | From every reachable uncancelled state a bounded run of such steps ends with nothing queued, waiting, in flight, on the channel or unsent |
| RelayProgress.WindsDown | internal/sender/sender.go:36-38 | From every reachable cancelled state, with the sender and all workers gone or not, a bounded number of steps that need neither ends every processor, abandons every queue entry and sends every message already fanned out; what is on the channel stays there |
| RelayProgress.StopsOnlyWoundDown | internal/router/processors/fdc_queue.go:112-122 | A cancelled run that cannot go on has wound down, and the sender and every worker have left |
| RelayProgress.NoOvertaking | internal/router/processors/fdc_queue.go:20-32 | Over every continuation of every state keeping the invariant: while an instruction is queued, no later-stamped one of its queue gets an attempt, first or repeated, before it has one of its own or shutdown leaves it behind |
| RelayProgress.DispatchExactly | internal/router/processors/fdc_queue.go:20-32 | A worker can start on an instruction iff its queue still runs and none of its own queue carries an earlier stamp; other queues do not matter |
| Instructions.Base.Parse | internal/router/instructions/instructions.go:59-70 | Field by field the new object copies the event and the block time; its machines are the event's by first occurrence; both extra messages and the signatures are empty |
| Instructions.Base.EventToData | internal/router/instructions/instructions.go:77-93 | Field by field the data is reset to the event's, both extra messages empty, the machines deduplicated, the signatures kept |
| Instructions.Base.HashesForSigning | internal/router/instructions/instructions.go:98-112 | The j-th hash is that of the data with the j-th TEE's id, and the object is unchanged |
| Instructions.Base.Sign | internal/router/instructions/instructions.go:115-130 | Only a successful call changes the object, and only its signatures |
| Instructions.SignedMessagesVerify | internal/sender/sender.go:115-131 | Re-assembly matches signing index by index, and a signature fits no other key, chain, TEE or data |
| Instructions.PrepareSafeIff | internal/sender/sender.go:115-131 | The sender's goroutines are all in bounds iff there are at least as many signatures as TEEs |
| Instructions.UncheckedSignerPanicsSender | internal/router/instructions/instructions.go:123-127 | A concrete outside signer for which they are not |
| Deduplication.RemoveDuplicates | internal/router/instructions/instructions.go:133-144 | Each entry once, ordered by first occurrence |
| Deduplication.DedupListsFirstOccurrences | internal/router/instructions/instructions.go:133-144 | The recursive specification meets the declarative one |
| Deduplication.FirstOccurrencesUnique | internal/router/instructions/instructions.go:133-144 | The declarative specification has one solution |
| Deduplication.DedupOfConcat | internal/router/instructions/instructions.go:133-144 | Deduplication of a concatenation appends the new entries of the second list |
| Deduplication.DedupIdempotent | internal/router/instructions/instructions.go:133-144 | Deduplicating twice changes nothing |
| BackupTheorems.ProviderRestoreSound | internal/router/processors/backup.go:65-189 | Whatever the decryption service answers: one destination whose address is that of the request's key; request, response, blob and every decrypted split share one backup id and each split is signed by its wallet key; the ciphertext opens under the destination key only. If it decrypts honestly, to exactly the split at the signer's provider or admin index, or the pair |
| BackupTheorems.ProviderRestoreComplete | internal/router/processors/backup.go:256-326 | Every honest matching backup is forwarded iff the signer is an owner; nothing is sent, without error, iff it is in neither list |
| BackupTheorems.DirectAcceptsExactlySource | internal/router/processors/backup.go:331-435 | The accepted responses are precisely those the requested source TEE produces for this request on this chain, and the spliced message is its envelope |
| BackupTheorems.DirectBinding | internal/router/processors/backup.go:439-464 | One fetched response can be accepted for one chain and one request only |
| BackupTheorems.RestoreEmission | internal/router/processors/backup.go:175-188 | An emitted restore holds the validated messages, otherwise unchanged data, and a signature valid for its one destination |
| RelayRestores.EmittedRestoresAreSound | internal/router/processors/backup.go:51-60 | Over every honest run, whatever the outside answers each fetch: an emitted restore is its parsed event with the validated messages spliced in, signed, and sound as its own kind of restore |
| RelayRestores.ClosedRestoresHadNothingToSend | internal/router/processors/backup.go:154-160 | Over every run: a restore ends without error and without a message only for a data-provider restore whose backup is in order and names the signer in neither list |
| Backup.ConsistencyIsEquality | internal/router/processors/backup.go:214-249 | The field-by-field comparisons amount to equality of backup ids, with the destination tied to the request's key |
| Backup.PlaintextForTEE | internal/router/processors/backup.go:256-326 | Nothing iff the signer is in neither list; a text iff every list naming it yields a valid split of this wallet, and then provider before admin |
| Backup.PrepareProviderRestore | internal/router/processors/backup.go:65-175 | Ready to sign iff the declarative conditions hold, dropped without error iff only ownership is missing; never writes more than the extra messages |
| Backup.PrepareDirectRestore | internal/router/processors/backup.go:331-422 | Ready to sign iff result and envelope are the requested ones; the fixed message is then the validated data |
| Backup.Process | internal/router/processors/backup.go:51-60 | Dispatches to the two handlers and is one attempt of the machine's fetch, hash, sign and send steps |
| Collector.CursorConservation | internal/collector/collector.go:115-166 | For every run and block: windows that emit the block minus falls of the cursor across it equal [start < b <= cursor] - [cursor < b <= start] |
| Collector.ExactlyOnce | internal/collector/collector.go:127-166 | With a height that never decreases the batches together are the matching logs of (start, cursor], once and in order |
| Collector.CollectedExactly | internal/collector/collector.go:127-166 | In block numbers: under the same conditions a log of the chain is emitted as often as the chain holds it if start < block <= cursor, otherwise never, in the order of blocks |
| Collector.PollStep | internal/collector/collector.go:135-154 | A failed fetch of either kind moves nothing; otherwise the cursor goes to the indexer's height and the rows above the old cursor and up to it are emitted |
| Collector.QueryCount | internal/collector/collector.go:143-148 | The query returns exactly the rows with from < block <= to |
| Collector.HeightsAreKept | internal/collector/collector.go:143 | The conversion to int64 keeps heights below 2^63 and makes larger ones negative |
| Collector.AtLeastOnce | internal/collector/collector.go:127-166 | Without that assumption each such log is emitted once plus once per fall of the cursor across its block |
| Collector.EmittedPerWindow | internal/collector/collector.go:143-154 | A log is emitted exactly once per window that spans its block |
| Collector.Listen | internal/collector/collector.go:127-166 | The loop sends, in order, the nonempty window results of its history; cursor and health status are those of the history; failed fetches of either kind move nothing; a batch is lost only at cancellation |
| Collector.Tick | internal/collector/collector.go:135-154 | One iteration: cursor and logs advance iff both fetches succeed; the state fetch is reported to status and damper either way, and the log fetch to its own damper iff it was made |
| Collector.ListenerDelivers | internal/collector/collector.go:156-164 | What the router receives is a prefix of the exactly-once sequence, all of it unless cancelled in a send |
| Collector.WindowStartExact | internal/collector/collector.go:79-86 | max(0, index - interval) with no wrap-around below 2^63, and 0 above |
| Damper.Damper.Fail | internal/collector/damper.go:37-51 | The stateful code logs what a stateless function of the call history says |
| Damper.Damper.Ok | internal/collector/damper.go:54-60 | Likewise for a success |
| Damper.RateBound | internal/collector/damper.go:37-51 | A failing streak logs at least one and at most 1 + elapsed / summaryInterval Error lines |
| Damper.ReportsAreSpaced | internal/collector/damper.go:45-48 | Successive Error lines of a streak are at least summaryInterval apart |
| Damper.FailureLine | internal/collector/damper.go:37-51 | A streak's first failure is logged at Error; a later one at Error iff at least five minutes have passed since the last Error line's clock reading, else at Debug |
| Damper.SuccessLine | internal/collector/damper.go:54-60 | A success is logged, at Info, iff a failure came right before it |
| Damper.OneLinePerFailure | internal/collector/damper.go:37-60 | Every failure logs exactly one line, every recovered streak exactly one Info line, and nothing else is logged |
| Damper.LogGrows | internal/collector/damper.go:37-60 | The log of a run is the line of each call, in order |
| Health.Replay | internal/health/status.go:36-55 | After any run the status holds the latched start and the block and time of the last successful poll |
| Health.Status.Ready | internal/health/status.go:75-96 | Passes iff started, a block was seen and it is at most maxLag old (a block ahead of the clock counts as fresh, ages saturate, a negative lag never passes); says which of the first two is missing iff it is |
| Health.ReadyIff | internal/health/status.go:75-96 | Over runs: a probe passes iff the start was reported and the last polled block is fresh, for every lag |
| Health.ReplayAndProbe | internal/health/status.go:75-96 | The status object after a run answers a probe as that condition says |
| Health.FreshUntilLag | internal/health/status.go:90-95 | In seconds and nanoseconds: with the start reported, a probe passes iff the last polled block is at most maxLag old, or ahead of the clock; never for a negative lag |
| Health.StaleUntilNextPoll | internal/health/status.go:84-93 | However the run goes on without a successful poll, every probe later than maxLag after the last polled block fails |
| Health.NotReadyBeforeFirstPoll | internal/health/status.go:75-96 | Before any successful poll no probe passes |
| Health.StartupLatches | internal/health/status.go:58-71 | Startup never un-latches |
| Router.Ledger.Handle | internal/router/router.go:99-130 | Appends the log to exactly one of the six outcomes, the one its fate names |
| Router.Ledger.Run | internal/router/router.go:72-95 | After any batches the outcomes account for exactly the flattened batches, in order |
| Router.RouterConserves | internal/router/router.go:99-147 | Parse error, filtered, unroutable and the three processors partition every batch history |
| Router.FateExactly | internal/router/router.go:99-171 | From the event's own fields: what does not parse, what the filter stops (nothing for a data provider, for a cosigner exactly the events that do not list it), and of the rest which operation pair reaches which processor |
| Router.NewFilterer | internal/router/filterer.go:42-60 | Fails iff a cosigner's signer does not identify itself with a valid key; a cosigner filters by that key's address, a data provider not at all |
| FdcTables.NewFDCHandler | internal/router/processors/fdc_handler.go:31-65 | Succeeds iff every entry is acceptable and no two share an identifier; then tabulates the servers |
| FdcTables.FillQueueTable | internal/router/processors/fdc.go:48-61 | Succeeds iff names fit and queues are declared; then tabulates the queues |
| FdcTables.NewFDC | internal/router/processors/fdc.go:24-68 | Both tables come from the one configuration, success independent of iteration order |
| FdcTables.TableUnique | internal/router/processors/fdc.go:37-61 | A tabulation is unique, so the tables do not depend on map iteration order |
| FdcTables.TablesAgree | internal/router/processors/fdc.go:37-67 | Queue and verifier table have the same identifiers, each pair from the same entry |
| FdcTables.RequestGoesToEntry | internal/router/processors/fdc.go:89-109 | A request is put on the queue, and verified by the server, of the entry whose NUL-padded type and source it names, and is taken only if there is such an entry |
| FdcTables.AcceptedExactly | internal/router/processors/fdc_handler.go:39-62 | The entries accepted: type and source of 1 to 32 bytes, an acceptable server, and no request served by two entries |
| FdcTables.QueuesAsConfigured | internal/router/processors/fdc.go:44-46 | Each queue runs with its configured max_attempts and time_off, and reports its errors |
| FdcTables.AcceptedFindsVerifier | internal/router/processors/fdc.go:89-109 | Process accepts exactly the messages Handle finds a verifier for, on the queue of the same entry |
| FdcTables.DuplicateCheckIsOnPairs | internal/router/processors/fdc_handler.go:49-55 | For printable names the duplicate check on keys is the check on (type, source) |
| FdcTables.CheckQueues | pkg/config/config.go:159-172 | Passes iff every queue has max_attempts at least 1 and a positive time_off when it retries |
| Identifier.JoinAttTypeAndSourceID | pkg/config/config.go:293-309 | The first 32 bytes are the type filled with NULs, the last 32 the source; fails iff a name exceeds 32 bytes |
| Identifier.RoundTrip | internal/router/processors/fdc_handler.go:174-191 | Rendering undoes joining exactly for the printable pairs |
| Identifier.HalfRoundTripIff | internal/router/processors/fdc_handler.go:180-191 | A half renders as the name iff the name is printable ASCII |
| Identifier.HexRendering | internal/router/processors/fdc_handler.go:180-191 | Any other half renders as 0x and two lower-case hex digits a byte |
| Identifier.JoinCollidesIff | pkg/config/config.go:293-309 | Two pairs share an identifier iff they differ in trailing NULs only |
| Identifier.TextNeverCollidesWithHex | internal/router/processors/fdc_handler.go:180-191 | Whatever NULs the library trims, a half rendered as text and one rendered as hex never look alike |
| Identifier.RenderingInjective | internal/router/processors/fdc_handler.go:180-191 | If it trims the end only, no two halves render alike |
| Identifier.RenderAlikeIff | internal/router/processors/fdc_handler.go:180-191 | If it trims both ends, two different halves render alike exactly when they hold one printable name at different places |
| Identifier.ShiftedNamesCollide | internal/router/processors/fdc_handler.go:180-191 | A concrete pair that does |
| Verifier.VerdictIsKnown | internal/router/processors/fdc_handler.go:98-109 | Whatever server and network do, a query that returns has one of the three verdicts, VERIFIED only with a nonempty body within the size limit, and a bounded message: the default case is unreachable |
| Verifier.FirstAnswerDecides | internal/router/processors/fdc_verifier.go:121-163 | A first answer that decodes is returned iff it is RETRY, REJECTED, or VERIFIED with 1 to 102400 bytes, with status and body as sent and the message cut at 1024 bytes |
| Verifier.BodyIffVerified | internal/router/processors/fdc_verifier.go:50-55 | The comment "nonempty iff VERIFIED" holds exactly when the server left other bodies empty, with a counterexample |
| Verifier.Decoded.UnmarshalJSON | internal/router/processors/fdc_verifier.go:59-75 | null and absent bodies decode to empty, and nothing of the receiver's old contents survives |
| Verifier.TruncateText | internal/router/processors/fdc_verifier.go:166-172 | Keeps short texts and the first n bytes of long ones, within n + 3 bytes |
| Post.WithRetry | internal/post/post.go:27-75 | The loop with mutex-guarded counters refines the position of the first final outcome, including abandoned attempts that finish before or after the snapshot |
| Post.RetriesExactly | internal/post/post.go:110-119 | Status by status: after no response, 408, 429 or 500 to 599 the loop goes on; a decoded message is the answer after exactly that many posts, and any other status ends the loop with its own reason |
| Post.ExhaustsExactly | internal/post/post.go:58-69 | If every attempt meets one of those statuses, max posts are made and the last reason is the cause |
| Post.TextExactly | internal/post/post.go:77-106 | The returned text: the bare cause after one attempt, else the decimal count, the first error cut at 256 bytes, and the cause, all cut at 1024 bytes |
| Post.PostCount | internal/post/post.go:27-75 | At most MaxAttempts posts: exactly up to the first success or terminal status if the budget lasts until then, else up to the expiry with the attempt in flight; a success is returned iff the budget lasts |
| Post.HistoryIsRecorded | internal/post/post.go:61-72 | More than one counted attempt implies the first error is the recorded one |
| Post.LateCompletionIsInvisible | internal/post/post.go:63-65 | An attempt finishing after the snapshot changes nothing |
| Post.TerminalErrorSurvives | internal/post/post.go:49-69 | For every schedule: a terminal error that ends the loop is the answer's cause, up to 720 of its bytes in the capped text; if the budget runs out first the cause is the budget's |
| Post.TerminalErrorReturnedIff | internal/post/post.go:49-69 | The terminal error is the returned cause iff the budget outlasts its attempt (or its text is the budget's own) |
| Post.AbandonedTerminalErrorIsLost | internal/post/post.go:37-65 | A concrete schedule: a 404 of an abandoned attempt is posted, completed and counted, and its text is lost |
| Post.CauseSurvives | internal/post/post.go:77-106 | The text is at most maxErrLen + 3 bytes and the final cause begins before the cut, digits of the count included |
| Post.CauseSurvivesInt64 | internal/post/post.go:77-106 | For any 64-bit count at least 720 leading bytes of the cause survive |
| Pipeline.NobodyStuck | internal/client/client.go:76-97 | After cancellation every tracked goroutine has an enabled step of its own that brings it nearer its exit, whatever the channels hold |
| Pipeline.ShutdownReachable | internal/client/client.go:95-97 | From every cancelled state the state in which Wait returns is reachable in a bounded number of steps, all of them taken by tracked goroutines |
| Pipeline.ReportersNeverStuck | internal/router/processors/fdc_queue.go:98-110 | In every reachable uncancelled state, an error of a last attempt finds room in its queue's bounded Errors channel, or the queue's drain is alive and makes room now |
| Pipeline.ChannelsAreBounded | internal/client/client.go:76-92 | In every reachable state both channels hold at most 50 entries, and a send waits exactly while its channel holds 50 |
| Pipeline.ShutdownInevitable | internal/client/client.go:76-97 | Once the collector has left, every run is bounded and cannot stop before all tracked goroutines have left and all tasks ended |
| Pipeline.StepsRunOut | internal/router/router.go:72-95 | From then on every step lowers a measure over buffered batches, remaining events, attempts, buffered instructions and pending sends |
| Pipeline.CollectorLeavesCancelled | internal/collector/collector.go:127-133 | The collector leaves only after cancellation |

## Left out

- HTTP clients and servers, URL validation and building, TLS, the database, logging sinks, signal handling: each call is an oracle that may return any outcome, and only its outcome is modelled.
- keccak, secp256k1, ECIES, ABI and JSON byte formats: symbolic terms; a decoded document carries exactly its value, so unknown JSON members and alternative encodings of one value are not distinguished.
- The sources of go-flare-common and tee-node are not part of this model. Assumed of them: the queue serves the earliest stamp, re-adds the same object after a failed attempt and makes at most max_attempts attempts; a log query returns the rows of (From, To] in order; WalletBackup.Check guarantees one split per owner (its other checks are an arbitrary verdict); a split's signature is checked against the wallet key in its backup id; string conversion pads with NULs and refuses more than 32 bytes; Dequeue, and the report of a last error, return once their context is cancelled.
- Collector.Listen: does not model the wait for indexer sync and the first state fetch, which panics or returns before the loop starts; the ticker is one list entry per poll.
- Post.WithRetry: does not model delays, jitter and the wall-clock budget; the budget runs out at an arbitrary attempt, and the library's wrapping text is a fixed prefix.
- RelayTheorems.DeliveriesVerify: does not model the HTTP delivery and its three attempts; a delivery is the message handed to the transport.
- Pipeline.ShutdownInevitable: is not derived from the `Relay` machine; `Pipeline` models collector, router and both channels with instructions reduced to their number of TEEs, and `RelayProgress` proves winding down on the instructions themselves.
- Pipeline.NobodyStuck: does not model how long a call in progress takes; calls into the network, signer and database are steps that return.
- Backup.Process: does not model panics inside library calls before signing; the router's goroutine recovers them and the instruction ends there.
- Damper.Damper.Fail: does not model the wording of log lines, only level and time.
- Go's memory model, goroutine fairness, real-time liveness.
- Remaining configuration checks (URLs, header characters, environment address, chain id, health port) and SetOut: flat checks or assignments that add only easy members.
- pkg/client, cmd and the test signer: thin wrappers.
