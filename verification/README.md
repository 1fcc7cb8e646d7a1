# Knights: verified core

A Dafny model of the Knights chat and gateway servers' concurrency and storage core, with
machine-checked properties of it. Code the repository runs in place is modelled as classes and
methods proved against specification functions; protocols are state machines with one step per
critical section or remote call, and the main results hold in every run of them.

`dafny verify dfyconfig.toml` checks the whole project.

| files | models |
|---|---|
| `EventFields`, `EventRow`, `WbWorkerOps`, `WbWorker`, `WbReplayer`, `WbPipeline` | the write-behind worker, the dead-letter replayer, and both together over Redis and the database |
| `Utf8`, `Packet`, `GatewayHandshake` | the wire codec and the gateway's login handshake over arbitrary reads |
| `ClientSendQueue`, `BackendQueue` | the bounded send queues towards clients and towards a backend |
| `SessionDirectory` | sticky client-to-backend bindings kept in Redis and cached per gateway |
| `UdpBindCodec`, `UdpBind` | UDP bind tickets: wire format, signing string, state machine |
| `JsonText`, `ExtRollout`, `ExtStore`, `ExtDeployments`, `ExtScheduler`, `ExtLifecycle`, `ExtAdmin` | the admin tool's extension deployments: strategies, waves, precheck, store file, scheduler |
| `JobQueue`, `Dispatch`, `MemoryPool` | the shared job queue, message dispatch, the block pool |
| `Wrappers`, `Bounds`, `Decimal` | optional values; minima and integer sizes; decimal printing and parsing |

## What turned out false, and exactly when it holds

- No event is ever lost, for a given configuration and environment, exactly if inserts are never
  refused or neither escape exists: a dead-letter add that fails without an exception, or a drop
  under acknowledge-on-error (`NeverLosesExactly`). The shipped Redis client turns a failed add
  into a `false` that the worker ignores, so the default configuration has the first escape.
- A replayed row shows what the worker would have stored exactly if the event uses no metadata
  name and a repeated name begins and ends with the same value (`ReplayAgreesExactlyWhenClean`,
  `RepeatedNameDiffers`).
- A backend connection keeps its payloads in order in every run (`SoundRun`), but a standing
  connection has been sent everything from the first payload on exactly if no write had completed
  before it was made (`WholeStreamExactly`). A connect timeout that was already queued when its
  connect succeeded closes the new socket, and the payload just written to it is not sent again
  (`LateTimeoutSkips`).
- All answers for a client name one backend as long as its binding is not taken away and no claim or
  second reading for it is lost (`AnswersAgree`); each of the four disturbances alone can make
  answers differ (`ExpiryDivides`, `ReleaseDivides`, `LostClaimDivides`, `LostRereadDivides`).
- A bind ticket with nonce zero is never accepted (`FreshTicketBinds`).
- A deployment command, once accepted, started or ended, stays so exactly if no later start finds
  the store file unreadable or nothing written since (`StaysExactly`); saving and reloading is the
  identity exactly on tidy stores (`LoadSavedExactly`), and every reachable store is tidy
  (`ProperRun`).
- No run of the job queue can lose a wake-up exactly if the queue is unbounded; without blocking
  producers no wake-up is lost whatever the bound (`WakeUpsSafeExactly`, `NoLostWakeUp`).
- Dispatch counters balance exactly if no closure's turn came after its session had stopped
  (`CountersAgreeExactly`, `StoppedSessionUncounted`).
- The block pool stays partitioned through a run exactly if no accepted release names a block that
  is not out (`PartitionedExactly`, `DoubleReleaseShares`).
- The 64 KiB handshake buffer limit can never be reached: reads are at most 4 KiB and the leftover
  is smaller than one header and 32 KiB (`LeftoverIsSmall`, `GatewayConnection.OnRead`).

The write-behind documentation says the worker stores its buffer on shutdown; the code does not
flush after its loop ends, and the entries stay pending in the stream. The model follows the code.

## Model

| member | source | states |
|---|---|---|
| WbPipeline.NoLoss | tools/wb_worker/main.cpp:428-604 | in every interleaving of any number of workers and replayers with crashes, lost replies and doubtful commits, an event is un-acked in the main stream, stored, buried or in a pending dead-letter copy with its content, unless deleted from outside or given up by the worker |
| WbPipeline.NeverLosesExactly | tools/wb_worker/main.cpp:527-573 | no run loses an event if and only if the configuration and environment offer neither a vanishing dead-letter add nor a drop |
| WbPipeline.LosingRunLoses | tools/wb_worker/main.cpp:659-674 | in every environment at risk there is a concrete run after which an acked event is nowhere |
| WbPipeline.StoredOnceFaithfully | tools/wb_worker/main.cpp:606-652 | the one row of an event, whoever inserted it after whatever retries and re-adds, carries the type, time and payload of that event if its pairs are clean |
| WbPipeline.RowsPersist | tools/wb_dlq_replayer/main.cpp:214-244 | a stored row and a published event never change again |
| WbPipeline.FaithfulRun | tools/wb_dlq_replayer/main.cpp:264-298 | in every run each dead-letter and dead-stream copy carries an event that was published, and each row comes from one |
| WbPipeline.ConservedRun | tools/wb_dlq_replayer/main.cpp:182-308 | the inductive form of no loss: every acked event and every acked copy is superseded by a safe place |
| WbPipeline.RunsAreInterleavings | tools/wb_worker/main.cpp:486-604 | the runs of the pipeline machine are exactly the interleavings, with crashes anywhere, of logs the worker and replayer disciplines accept, over entries that exist |
| WbWorkerOps.AckAccounting | tools/wb_worker/main.cpp:495-573 | in every configuration an id is acked as done only after its row was in a transaction reported committed, or after a dead-letter add for it returned without throwing; aborted attempts justify nothing |
| WbWorkerOps.DropAccounting | tools/wb_worker/main.cpp:527-545 | a drop happens only under acknowledge-on-error, after the insert failed in the open transaction and, with a dead-letter stream, after the add threw in it |
| WbWorkerOps.SettledIsAccounted | tools/wb_worker/main.cpp:547-573 | whatever the worker holds ready to acknowledge has its justification in the log |
| WbWorker.EstimateEntryBytes | tools/wb_worker/main.cpp:153-159 | the loop's estimate is the id's length plus, per pair, both lengths and four |
| WbWorker.BuildRow | tools/wb_worker/main.cpp:606-650 | the pass over the pairs computes the last-wins row |
| WbWorker.Worker.Acknowledge | tools/wb_worker/main.cpp:314-325 | one acknowledgement is logged with its real and its reported effect, and only when the discipline permits it |
| WbWorker.Worker.HandleFailure | tools/wb_worker/main.cpp:527-545 | the branch for a failed insert logs a dead-letter add, a drop, or nothing, as the configuration says |
| WbWorker.Worker.ProcessEntry | tools/wb_worker/main.cpp:519-546 | one entry is staged, handled as failed, or finds the connection broken |
| WbWorker.Worker.AcknowledgeAll | tools/wb_worker/main.cpp:555-557 | after a commit the collected ids are acked in order |
| WbWorker.Worker.TryStore | tools/wb_worker/main.cpp:507-568 | one attempt is one transaction over the batch in order, acks only after a commit, and leaves none open |
| WbWorker.Worker.Flush | tools/wb_worker/main.cpp:486-604 | attempts follow each other until one commits or the retries are used up, the whole log obeys the discipline, the buffer ends empty |
| WbWorker.Worker.Absorb | tools/wb_worker/main.cpp:392-405 | flushed batches followed by the buffer are exactly the entries taken in, in order, each flushed batch having reached a threshold |
| WbWorker.Worker.ReclaimPending | tools/wb_worker/main.cpp:428-476 | reported deletions are acked first, claimed entries are batched like new ones |
| WbWorker.Worker.EnsureDbConnection | tools/wb_worker/main.cpp:247-276 | a connection is kept, or opened if that works; ready needs it open |
| WbWorker.Worker.TakeTurn | tools/wb_worker/main.cpp:359-413 | one turn takes in nothing without a connection, else what was reclaimed and read, in order |
| WbWorker.Worker.Loop | tools/wb_worker/main.cpp:349-426 | over any order of reconnects, reclaims, reads and timed flushes, flushed batches followed by the buffer are everything taken in, the log obeys the discipline and is about nothing else |
| WbWorker.FlushSpeaks | tools/wb_worker/main.cpp:486-604 | a flush logs nothing that is not about its batch |
| EventRow.CheckUuid | tools/wb_worker/main.cpp:136-151 | the scan accepts exactly the 36-character dashed hexadecimal form |
| EventRow.ReplayAgreesExactlyWhenClean | tools/wb_dlq_replayer/main.cpp:214-244 | a replayed copy shows the worker's type, time and payload if and only if the event's pairs are clean |
| EventRow.RepeatedNameDiffers | tools/wb_dlq_replayer/main.cpp:75-80 | an event with a repeated name, of which the worker stores the last value and a replay the first |
| EventRow.CleanLookupsAgree | tools/wb_dlq_replayer/main.cpp:75-80 | on clean pairs first-wins without metadata and last-wins are the same lookup |
| EventRow.AgreeingLookupsAreClean | tools/wb_worker/main.cpp:606-622 | if the two lookups agree the pairs are clean |
| EventFields.DlqCopyCarries | tools/wb_worker/main.cpp:659-674 | the worker's dead-letter copy carries the event it was made from |
| EventFields.RecopyCarries | tools/wb_dlq_replayer/main.cpp:264-298 | re-adding or burying a copy carries the same event on |
| EventFields.RetryCopyCounts | tools/wb_dlq_replayer/main.cpp:288-298 | a re-added copy reports the retry count written into it |
| EventFields.FirstWinsStrip | tools/wb_dlq_replayer/main.cpp:214-232 | what a copy shows of an event is the first-wins lookup without the metadata names |
| WbReplayer.ToMap | tools/wb_dlq_replayer/main.cpp:75-80 | emplacing pair after pair keeps the first value of every name |
| WbReplayer.BuildReplayRow | tools/wb_dlq_replayer/main.cpp:214-241 | the payload rebuilt from the lookup does not depend on the order it is visited in |
| WbReplayer.RetryDelay | tools/wb_dlq_replayer/main.cpp:280-288 | the loop yields base when base is at least 10000, else the smaller of 10000 and base times two to the retries |
| WbReplayer.Replayer.HandleFailure | tools/wb_dlq_replayer/main.cpp:246-308 | a copy is buried exactly if its retries are used up, else re-added, and acked only if that add was reported |
| WbReplayer.Replayer.ProcessEntry | tools/wb_dlq_replayer/main.cpp:182-212 | a copy is inserted and acked, handed to the failure branch, or left pending when the connection broke |
| WbReplayer.EntryTraceAccepted | tools/wb_dlq_replayer/main.cpp:182-308 | every trace the replayer leaves for a copy obeys its discipline, whatever it processed before |
| WbReplayer.LogAccepted | tools/wb_dlq_replayer/main.cpp:182-212 | so does its whole log, copy after copy |
| WbReplayer.EntryTraceOfStream | tools/wb_dlq_replayer/main.cpp:182-212 | processing a copy of the stream leaves a trace about that copy only |
| WbReplayer.Replayer.Loop | tools/wb_dlq_replayer/main.cpp:144-180 | over any reconnects and reads the log stays accepted, truthful and about copies the stream holds |
| WbReplayer.ReAddChainCounts | tools/wb_dlq_replayer/main.cpp:246-298 | along re-adds the original id stays fixed and the retry count rises by exactly one |
| WbReplayer.ReAddsBounded | tools/wb_dlq_replayer/main.cpp:246-262 | a copy that is re-added at all is re-added at most retry_max - 1 minus its initial count times, and is buried on its next failure exactly when it has been re-added that often or more, for every retry_max the tool accepts |
| Utf8.GatherContinuation | core/include/server/core/protocol/packet.hpp:103-158 | the inner loop gathers the announced continuation bytes into the code point or refuses |
| Utf8.IsValidUtf8 | core/include/server/core/protocol/packet.hpp:103-158 | the scan accepts exactly the strings made of well-formed characters |
| Utf8.ValidExactlyEncodings | core/include/server/core/protocol/packet.hpp:103-158 | a byte string passes if and only if it encodes a sequence of Unicode scalar values (section 3 of RFC 3629) |
| Packet.DecodeEncodedHeader | core/include/server/core/protocol/packet.hpp:83-100 | decoding an encoded header gives it back |
| Packet.EncodeDecodedHeader | core/include/server/core/protocol/packet.hpp:83-100 | re-encoding a decoded header gives the same fourteen bytes |
| Packet.ReadWrittenLp | core/include/server/core/protocol/packet.hpp:162-191 | a written string is read back, with what follows it, if and only if it fits the prefix and is valid UTF-8 |
| Packet.WriteReadLp | core/include/server/core/protocol/packet.hpp:162-191 | whatever is accepted as a string re-encodes to the bytes it was read from |
| Packet.ReadWritten64 | gateway/src/gateway_app.cpp:144-170 | a 64-bit value survives writing and reading |
| Packet.WriteRead64 | gateway/src/gateway_app.cpp:144-170 | eight bytes survive reading and writing |
| GatewayHandshake.Admit | gateway/src/gateway_connection.cpp:236-305 | an admitted client id is non-empty and not the guest name, and without anonymous access needs a token and a name |
| GatewayHandshake.PongMirrorsPing | gateway/src/gateway_connection.cpp:178-235 | the reply to a PING is a PONG with its payload, flags, sequence number and timestamp |
| GatewayHandshake.ParseExtends | gateway/src/gateway_connection.cpp:178-308 | cutting the stream anywhere and continuing gives the handshake on the whole stream |
| GatewayHandshake.ParseConsumesControlFrames | gateway/src/gateway_connection.cpp:178-235 | everything before the login frame is whole PING and PONG frames, each PING answered once in order |
| GatewayHandshake.LeftoverIsSmall | gateway/src/gateway_connection.cpp:178-200 | bytes kept between reads are fewer than one header and 32 KiB |
| GatewayHandshake.FeedAllIsParse | gateway/src/gateway_connection.cpp:116-141 | reading chunk by chunk equals parsing the concatenation |
| GatewayHandshake.CutsDoNotMatter | gateway/src/gateway_connection.cpp:116-308 | any two cuttings of the same bytes give the same verdict, replies and bytes for the backend |
| GatewayHandshake.GatewayConnection.TryFinishHandshake | gateway/src/gateway_connection.cpp:178-308 | the loop over buffered frames reaches the parse of the bytes received |
| GatewayHandshake.GatewayConnection.OnRead | gateway/src/gateway_connection.cpp:116-141 | each read keeps the connection equal to the parse of all bytes so far, and what the backend got is the stream from the login frame on |
| GatewayHandshake.GatewayConnection.OnDeadline | gateway/src/gateway_connection.cpp:154-176 | the handshake deadline stops exactly a connection that has not decided its login yet |
| GatewayHandshake.ServeReads | gateway/src/gateway_connection.cpp:116-176 | any sequence of reads and deadlines ends in the state the bytes delivered so far determine |
| ClientSendQueue.BudgetTests | core/include/server/core/net/queue_budget.hpp:7-16 | both forms of the budget test refuse exactly what would lift the total above a cap that is set, except for an empty payload on a queue already above it |
| ClientSendQueue.Connection.HandleSend | core/src/net/connection.cpp:90-115 | a payload is appended, or refused with a full stop exactly if it would exceed the cap, or ignored after a stop; byte count, order and the single write stay exact |
| ClientSendQueue.Connection.HandleWrite | core/src/net/connection.cpp:155-180 | a completion extends the written payloads in order, also when it arrives after the stop, and starts the next write |
| ClientSendQueue.Connection.StopOnStrand | core/src/net/connection.cpp:46-77 | the first stop clears queue and count, later ones change nothing |
| ClientSendQueue.Drive | core/src/net/connection.cpp:46-202 | after any sequence of sends, completions and stops the written payloads are a prefix of the accepted ones, within the cap |
| BackendQueue.SoundRun | gateway/src/gateway_app.cpp:351-535 | in every run, with failed resolves and connects, timeouts and connects that come too late included: completed writes followed by the queue are everything accepted in order, one write at a time and of the front, exact byte count within the cap |
| BackendQueue.NothingWrittenUnconnected | gateway/src/gateway_app.cpp:351-427 | in every run no write is even started before a connect has succeeded |
| BackendQueue.WholeStreamExactly | gateway/src/gateway_app.cpp:395-418 | a standing connection has been sent everything accepted but for the queue if and only if no write had completed before it was made |
| BackendQueue.TimelyStreamIsWhole | gateway/src/gateway_app.cpp:377-418 | without late timeouts every standing connection is sent every payload from the first on |
| BackendQueue.LateTimeoutSkips | gateway/src/gateway_app.cpp:476-496 | a run in which a timeout delivered just after its connect leaves the next connection without the first payload |
| BackendQueue.BackendConnection.Deliver | gateway/src/gateway_app.cpp:351-673 | each event delivered to its callback extends the object's own run by that step |
| BackendQueue.BackendConnection.AlwaysSound | gateway/src/gateway_app.cpp:351-673 | whatever was delivered, the object's queue is in order, exact and within the cap |
| BackendQueue.BackendConnection.SendPayload | gateway/src/gateway_app.cpp:498-535 | sending makes the machine's step, with the refusal above the cap |
| BackendQueue.BackendConnection.StartWrite | gateway/src/gateway_app.cpp:577-623 | starting a write makes the machine's step |
| BackendQueue.BackendConnection.OnWriteDone | gateway/src/gateway_app.cpp:577-623 | a completed write pops its payload and its bytes and goes on with the next |
| BackendQueue.BackendConnection.OnWriteFailed | gateway/src/gateway_app.cpp:595-610 | an aborted write changes nothing, any other failure closes |
| BackendQueue.BackendConnection.OnResolved | gateway/src/gateway_app.cpp:360-385 | a resolve starts timer and connect |
| BackendQueue.BackendConnection.OnConnect | gateway/src/gateway_app.cpp:386-425 | a connect starts on what was queued meanwhile, also after its timeout; a failed one asks for a retry |
| BackendQueue.BackendConnection.OnTimeout | gateway/src/gateway_app.cpp:476-496 | a timeout asks for a retry, also after its connect |
| BackendQueue.BackendConnection.OnRetryDue | gateway/src/gateway_app.cpp:463-474 | the retry timer starts the next attempt |
| BackendQueue.BackendConnection.OnAttemptFailed | gateway/src/gateway_app.cpp:429-496 | a failed attempt keeps the queue for the next one, or closes when the retries are used up |
| BackendQueue.BackendConnection.CloseNow | gateway/src/gateway_app.cpp:653-673 | closing clears everything |
| SessionDirectory.BindingMoves | server/src/storage/redis/client.cpp:356-395 | a binding only goes from absent to b, stays b, or goes from b to absent; a stale gateway never overwrites or deletes a newer one |
| SessionDirectory.RebindingNeedsGap | gateway/src/session_directory.cpp:62-124 | a client changes backends only after a moment in which it was bound to none |
| SessionDirectory.BindingStays | gateway/src/session_directory.cpp:62-124 | in every run a bound client stays bound to the same backend until its binding is taken away |
| SessionDirectory.AnswersAgree | gateway/src/session_directory.cpp:32-97 | in every run, with find, ensure and release calls of any number of gateways in progress at once and caches expiring: as long as the client's binding is not taken away, no claim of it is lost while it is unbound and no second reading is lost, any two answers for it name the backend in the store |
| SessionDirectory.ClaimsAnswered | gateway/src/session_directory.cpp:75-97 | under the same conditions no claim goes unanswered and none falls back on its own wish |
| SessionDirectory.ExpiryDivides | gateway/src/session_directory.cpp:79-86 | a run in which an expiry makes two answers differ |
| SessionDirectory.ReleaseDivides | gateway/src/session_directory.cpp:110-124 | a run in which a release makes two answers differ |
| SessionDirectory.LostClaimDivides | gateway/src/session_directory.cpp:94-96 | a run in which a claim lost on its way makes two answers differ |
| SessionDirectory.LostRereadDivides | gateway/src/session_directory.cpp:87-96 | a run in which the loser of a race, its second reading lost, answers differently |
| SessionDirectory.Cluster.Agreement | gateway/src/gateway_app.cpp:1555-1610 | so the answers the operations below have given for an undisturbed client are the same |
| SessionDirectory.Cluster.LookUp | gateway/src/session_directory.cpp:32-57 | the lookup in cache and store is the machine's, step by step, with every other call free to go on in between |
| SessionDirectory.Cluster.FindBackend | gateway/src/session_directory.cpp:32-57 | a find's answer is the answer of a call of the machine |
| SessionDirectory.Cluster.Claim | server/src/storage/redis/client.cpp:356-368 | the compare-and-set script binds an unbound client, and a lost request or reply looks like a taken key |
| SessionDirectory.Cluster.EnsureBackend | gateway/src/session_directory.cpp:62-97 | an ensure's answer is the answer of a call of the machine |
| SessionDirectory.Cluster.ReleaseBackend | gateway/src/session_directory.cpp:110-124 | a release is a call of the machine: cache first, then the store if the request arrives |
| UdpBindCodec.ParseEncodedRequest | gateway/src/gateway_app.cpp:1344-1377 | parsing an encoded request returns it if and only if its strings fit and are valid |
| UdpBindCodec.EncodeParsedRequest | tools/loadgen/session_client.cpp:935-943 | any accepted request bytes re-encode to themselves |
| UdpBindCodec.ParseEncodedResponse | gateway/src/gateway_app.cpp:1246-1281 | parsing an encoded response returns it if and only if its strings fit and are valid |
| UdpBindCodec.EncodeParsedResponse | tools/loadgen/session_client.cpp:163-189 | any accepted response bytes re-encode to themselves |
| UdpBindCodec.SigningInputInjective | gateway/src/gateway_app.cpp:183-189 | distinct session, nonce and expiry never share a signing string, even if the session contains bars |
| UdpBind.Gateway.MakeTicket | gateway/src/gateway_app.cpp:1283-1342 | a ticket is issued exactly for a known session with UDP and a token available, and resets the session's binding |
| UdpBind.Gateway.ApplyRetryBackoff | gateway/src/gateway_app.cpp:1404-1411 | a failure raises the capped count and sets the deadline of that one session |
| UdpBind.Gateway.Apply | gateway/src/gateway_app.cpp:1379-1478 | the first objection decides the answer and the new state of the one session |
| UdpBind.TicketWasIssued | gateway/src/gateway_app.cpp:1283-1342 | in every run a held ticket is the one its latest issue made |
| UdpBind.BoundByTicket | gateway/src/gateway_app.cpp:1379-1478 | in every run a session is bound only by a request that returned its latest ticket exactly, unexpired and outside the backoff window, from the bound endpoint |
| UdpBind.EndpointStays | gateway/src/gateway_app.cpp:1449-1458 | the endpoint stays fixed until a ticket is really issued or the session ends |
| UdpBind.TokenNamesTicket | gateway/src/gateway_app.cpp:1220-1229 | where the signature does not collide a token stands for one session, nonce and expiry |
| UdpBind.BackoffBounded | gateway/src/gateway_app.cpp:1404-1411 | failure count and deadline stay within the configured bounds |
| UdpBind.RefusalBacksOff | gateway/src/gateway_app.cpp:1413-1417 | after a refusal requests are turned away exactly until the backoff has passed |
| UdpBind.RetryDelayDoubles | gateway/src/gateway_app.cpp:1099-1105 | the delay starts at the base and doubles up to seven times and the cap |
| UdpBind.FreshTicketBinds | gateway/src/gateway_app.cpp:1419-1423 | a ticket returned at once binds if and only if nonce and expiry are not zero |
| JsonText.TrimAscii | tools/admin_app/main.cpp:274-284 | the two scans compute the trimmed string |
| JsonText.TrimOf | tools/admin_app/main.cpp:274-284 | trimming leaves no blank at either end and changes exactly the strings that have one |
| JsonText.ParseStringList | tools/admin_app/main.cpp:1723-1738 | the loop keeps the trimmed non-empty strings in order |
| JsonText.StringListOf | tools/admin_app/main.cpp:1723-1738 | a list survives writing and reading if and only if its entries are trimmed and non-empty |
| ExtRollout.ReadWaves | tools/admin_app/main.cpp:2037-2060 | waves are read exactly if each, as a 32-bit value, lies in 1 to 100 |
| ExtRollout.ParseRollout | tools/admin_app/main.cpp:2000-2078 | a strategy is accepted if and only if its type is known and its listed waves rise strictly to 100; defaults otherwise |
| ExtRollout.SortKeeps | tools/admin_app/main.cpp:2655-2658 | the targets are rearranged into order |
| ExtRollout.RunWaves | tools/admin_app/main.cpp:2673-2720 | the loop publishes the slices of the waves before the first failing one and stops exactly there |
| ExtRollout.SlicesArePrefix | tools/admin_app/main.cpp:2682-2720 | for any waves the published slices are consecutive and make a prefix of the targets |
| ExtRollout.SentIsPercentage | tools/admin_app/main.cpp:2682-2692 | after an accepted strategy's wave exactly its percentage of the targets, rounded up, has been sent |
| ExtRollout.RolloutOutcome | tools/admin_app/main.cpp:2673-2757 | completion sends every target exactly once, failure stops at a proper prefix |
| ExtStore.SaveStore | tools/admin_app/main.cpp:2279-2340 | the document holds every deployment once, in order of command id |
| ExtStore.LoadStore | tools/admin_app/main.cpp:2391-2552 | the loop reads entries in order, skipping those without a command id |
| ExtStore.DecodeEncoded | tools/admin_app/main.cpp:2300-2340 | a tidy record is read back field by field as it was written |
| ExtStore.DecodedIsTidy | tools/admin_app/main.cpp:2417-2546 | whatever the file holds, every record read is tidy |
| ExtStore.LoadSavedExactly | tools/admin_app/main.cpp:2391-2552 | saving and reading back is the identity if and only if the store is tidy |
| ExtDeployments.FindConflicts | tools/admin_app/main.cpp:2236-2268 | exactly the live deployments of other artifacts with the same stage, group and a common hook are found |
| ExtDeployments.Precheck | tools/admin_app/main.cpp:2195-2277 | a command passes if and only if nothing objects, with each objection reported |
| ExtScheduler.ProperRun | tools/admin_app/main.cpp:2236-2268 | in every run, with failing writes and restarts anywhere, no two live deployments of different artifacts share stage, group and hook, in memory or in the file |
| ExtScheduler.SubmitExclusive | tools/admin_app/main.cpp:3865-3943 | an accepted submission clashes with nothing |
| ExtLifecycle.ProgressRun | tools/admin_app/main.cpp:2591-2757 | with working storage commands only move forward and an ended record never changes, across restarts |
| ExtLifecycle.StartsOnce | tools/admin_app/main.cpp:2625-2653 | with working storage no command starts executing twice |
| ExtLifecycle.IdsNotReused | tools/admin_app/main.cpp:3867-3875 | with working storage a command id is accepted at most once |
| ExtLifecycle.StartsInWindow | tools/admin_app/main.cpp:2591-2650 | a due command starts if and only if it still waits and the poll's clock lies in run_at to run_at plus skew, a window past the 64-bit end never being open; otherwise it fails |
| ExtLifecycle.LostWriteStartsTwice | tools/admin_app/main.cpp:2648-2653 | a run with one lost write in which a command starts twice |
| ExtLifecycle.StaysExactly | tools/admin_app/main.cpp:2391-2552 | in any run with any storage failures, a command first accepted, started or ended stays so if and only if no later start finds the file unreadable or nothing written since |
| ExtLifecycle.AgainNeedsLoss | tools/admin_app/main.cpp:2625-2653 | a second start of a command, or a second acceptance of its id, has such a start in between |
| ExtLifecycle.EndUndoneNeedsLoss | tools/admin_app/main.cpp:2722-2757 | an ended record that later differs or is gone has such a start in between |
| ExtLifecycle.UnreadableFileForgets | tools/admin_app/main.cpp:2391-2408 | a run in which a completed command is forgotten and its id accepted again |
| ExtAdmin.Admin.AlwaysProper | tools/admin_app/main.cpp:2236-2268 | whatever operations were made on it, the object's deployments are tidy and exclusive, in memory and in the file |
| ExtAdmin.Admin.SubmitCommand | tools/admin_app/main.cpp:3838-3943 | a submission is accepted exactly if it is well timed, its id is new and it passes the precheck; it then adds that one record by an enabled step |
| ExtAdmin.Admin.CollectDue | tools/admin_app/main.cpp:2591-2616 | the loop collects exactly the due commands |
| ExtAdmin.MarkStart | tools/admin_app/main.cpp:2634-2651 | a command taken up is marked executing, or failed exactly if it is too late |
| ExtAdmin.MarkEnd | tools/admin_app/main.cpp:2660-2757 | an ended execution shows its status, reason, counts and issue, and nothing the command claims has changed |
| ExtAdmin.Admin.BeginExecution | tools/admin_app/main.cpp:2625-2653 | the first critical section is an enabled step, and tells whether the command started |
| ExtAdmin.Admin.FinishExecution | tools/admin_app/main.cpp:2722-2757 | how the execution ended is recorded in that one record by an enabled step |
| ExtAdmin.Admin.Execute | tools/admin_app/main.cpp:2625-2757 | with submissions from other threads in between: outcome, record, published slices and rollback belong together, and every other command is as before |
| ExtAdmin.Admin.ProcessQueue | tools/admin_app/main.cpp:2591-2623 | after a poll nothing that was due when it began still waits, and no other command that was there has changed |
| ExtAdmin.Admin.Save | tools/admin_app/main.cpp:2279-2340 | a save that works leaves a document of the current deployments |
| ExtAdmin.Admin.Start | tools/admin_app/main.cpp:2391-2552 | a start has what the file yields, or nothing |
| ExtAdmin.ExecutionMeaning | tools/admin_app/main.cpp:2722-2757 | for accepted strategies a completed execution sent every target once, a failed one a proper prefix, and a rollback names exactly that prefix |
| JobQueue.Queue.TryAdd | core/src/concurrent/job_queue.cpp:52-73 | a job is queued unless null, stopping or full |
| JobQueue.Queue.Add | core/src/concurrent/job_queue.cpp:23-50 | one pass of the blocking push queues, refuses after a stop, or waits |
| JobQueue.Queue.Take | core/src/concurrent/job_queue.cpp:75-94 | one pass of pop takes the oldest job, reports the end only when stopped and empty, or waits |
| JobQueue.Queue.Close | core/src/concurrent/job_queue.cpp:96-103 | stopping is recorded and everybody will be notified |
| JobQueue.OrderlyRun | core/src/concurrent/job_queue.cpp:23-103 | in every run, blocking producers included, jobs leave in the order they came, the bound holds, and after a stop nobody waits without a pending notify-all |
| JobQueue.Queue.AlwaysOrderly | core/src/concurrent/job_queue.cpp:23-103 | whatever its threads did, the object keeps that |
| JobQueue.NoLostWakeUp | core/src/concurrent/job_queue.cpp:52-94 | without blocking producers, whenever a consumer waits the queued jobs are at most the woken consumers plus pending notifies |
| JobQueue.RestMeansIdle | core/src/concurrent/job_queue.cpp:75-103 | a queue at rest with a waiting consumer is empty and not stopped |
| JobQueue.BlockingLosesWakeUp | core/src/concurrent/job_queue.cpp:34-50 | with any bound one blocking producer can absorb every notification, and the queue comes to rest with work and a waiting consumer |
| JobQueue.WakeUpsSafeExactly | core/src/concurrent/job_queue.cpp:23-94 | no run at all can lose a wake-up if and only if the queue is unbounded |
| Dispatch.Dispatcher.Handle | core/src/net/dispatcher.cpp:131-231 | a message makes the machine's arrival step, and is unknown exactly if unregistered |
| Dispatch.Dispatcher.WorkerPosts | core/src/net/dispatcher.cpp:218-224 | a worker's closure goes to the session's strand or is recorded as a reject |
| Dispatch.Dispatcher.StrandRuns | core/src/net/session.cpp:119-124 | a strand starts the handler unless the session has stopped |
| Dispatch.Dispatcher.AlwaysConserved | core/src/net/dispatcher.cpp:131-231 | whatever was dispatched, the object's calls are accounted for and only allowed messages have started |
| Dispatch.CallsConserved | core/src/net/dispatcher.cpp:131-231 | in every run, for every kind of task, calls are started, rejected, dropped or waiting, and only messages whose transport and state were right at dispatch reach a handler |
| Dispatch.CountersAgreeExactly | core/src/net/session.cpp:106-126 | at any point of any run, per place, calls equal started plus rejected plus waiting if and only if no closure's turn has come after its session stopped |
| Dispatch.StoppedSessionUncounted | core/src/net/session.cpp:106-126 | a run with one such closure, counted as a call and as nothing else |
| MemoryPool.Pool.constructor | core/src/memory/memory_pool.cpp:14-29 | a new pool has every block free once |
| MemoryPool.Pool.Acquire | core/src/memory/memory_pool.cpp:33-45 | the top of the free stack is handed out, null if there is none |
| MemoryPool.Pool.Release | core/src/memory/memory_pool.cpp:47-74 | a pointer is put back exactly if it passes the checks |
| MemoryPool.AcquireFailsExactly | core/src/memory/memory_pool.cpp:33-45 | while partitioned, acquiring fails if and only if every block is out |
| MemoryPool.AcquiredIsFresh | core/src/memory/memory_pool.cpp:24-27 | a block handed out lies in the chunk and overlaps none that is out |
| MemoryPool.PartitionedExactly | core/src/memory/memory_pool.cpp:47-74 | through a whole run free and outstanding blocks partition the chunk if and only if no accepted release names a block that is not out |
| MemoryPool.DoubleReleaseShares | core/src/memory/memory_pool.cpp:47-74 | a run in which a double release makes two acquirers share a block |

## Left out

- Redis, PostgreSQL, HMAC, the JSON text format and the network: remote calls are atomic steps with arbitrary outcomes, the signature is a function, a JSON document is a value.
- Clocks, nonces and publish outcomes are parameters; nothing is assumed about clocks. The three seconds of the handshake deadline and other durations are events that may come at any time.
- WbWorker.Worker.Loop: clocks and backoff sleeps; a due reclaim or flush may come in any turn.
- EventRow.ReplayAgreesExactlyWhenClean: compares type, time and payload only; the worker blanks malformed UUID columns, the replayer passes them on.
- WbReplayer.ReAddChainCounts: the overflow of a retry count read as the largest int is undefined in the source and not modelled; retry_max below 1000 is what the tool accepts.
- SessionDirectory.AnswersAgree: a gateway without Redis, and refresh_backend, which writes the cache unasked; keys are client ids, the prefix being the same for all gateways.
- BackendQueue.SoundRun: the event loop itself; that a closed socket reports its pending operations before the retry timer fires is taken from its being one thread with retry delays of at least ten milliseconds.
- ExtRollout.SentIsPercentage: the percentage is computed in integers; the source's doubles round up to the same number below 2^45 targets.
- ExtStore.SaveStore: the temporary file, backup and renames; a save happens or does not.
- ExtAdmin.Admin.SubmitCommand: takes the command and the artifact as the request and manifest parsers leave them, trimmed and with an accepted strategy.
- ExtScheduler.ProperRun: commands and artifacts are taken as the request and manifest parsers leave them, that is trimmed, with an accepted strategy.
- JobQueue.Queue: metrics; liveness beyond lost wake-ups.
- Dispatch.CallsConserved: exceptions thrown by handlers, which are caught and counted after the start.
- The opcode tables, RUDP engine, abuse guard, circuit breakers and token buckets: policy tables and header-only helpers.
- HTTP routes, metrics text, load generator scenarios and the GUI client: request plumbing, formatting and user interface.
- Chat rooms, storage repositories and instance selection: they would add members without harder properties.
