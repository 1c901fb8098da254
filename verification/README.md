# Agents IM, verified core

A Dafny model of the state-carrying core of the Agents IM backend and of a few algorithms beside it, with
proofs of what that code is relied on for:

- the three id generators (`RoutedFlake`, the legacy `Snowflake`, account ids): uniqueness and order over
  whole runs, recovery of every field, disjoint fleets;
- the two presence stores: the Redis store refines a map from (user, connection) to metadata, and answers
  like the in-memory store over every run;
- the Kafka consumer loop: at-least-once delivery under crashes, handler failures and lost commit replies;
- the asynchronous observability sink: conservation of events under every interleaving, and drain on close;
- the browser's WebSocket client: heartbeats, backoff, closing, and at most one live socket;
- deploy-change detection, sandbox object names and output limits, and audit redaction.

Code that updates objects or runs loops is modelled by classes and methods. Each method is proved against a
specification function, and the theorems are about runs of those functions. Where the code does not have a
property that its documentation or design suggests, the model keeps the code, and a lemma states exactly
when the property holds.

| module | models |
|---|---|
| `BitFields`, `GoText` | 64-bit shifts, masks and unions as arithmetic; the parts of Go's `strings` and `strconv` in use |
| `Ticker` | the clock and sequence machine the three generators share |
| `RoutedFlake`, `Snowflake`, `AccountId`, `MachineNumber` | `pkg/idgen` |
| `Presence`, `MemoryStore`, `RedisStore` | `pkg/presence` |
| `PresenceRefinement`, `PresenceAgreement` | the Redis store against the map, and the two stores against each other |
| `KafkaConsumer` | `pkg/messaging/kafka.go` |
| `AsyncSink` | `pkg/llmobs/async.go` |
| `WebSocketClient` | `web/src/api/websocketClient.ts` |
| `PosixPath`, `DeployDetect`, `DeploySafety` | `scripts/detect-deploy-changes.py` |
| `SandboxExec` | `pkg/pythonexec/k8s_executor.go` |
| `AuditRedaction` | `pkg/agentaudit/audit.go` |

## Where the code and its documentation part

- An overflow error rewinds the sequence without moving `lastMs` (pkg/idgen/routedflake.go:148-158), so a
  clock that comes back can mint an id again: `RoutedFlake.ReissueIff`, `AccountId.ReissueIff`.
- The width check of `NewRoutedFlake` adds two `uint` values, so huge widths wrap past it; the generator then
  rejects every hint: `RoutedFlake.ConfigureAccepts`.
- An ordinal is documented as a purely numeric suffix, but a leading plus sign is accepted:
  `MachineNumber.OrdinalAccepts`, `MachineNumber.PlusSignAccepted`.
- At the very instant of expiry the memory store accepts a heartbeat and the Redis store does not
  (pkg/presence/memory.go:51, pkg/presence/redis.go:86): `PresenceAgreement.StoresAgreeIff`,
  `PresenceAgreement.HeartbeatDiffersIff`, with the run `PresenceAgreement.RevivalPartsStores`.
- EXPIRE counts whole seconds, so a ttl above one second with a fraction loses connections early (1.5
  seconds: `PresenceAgreement.FractionalTtl`), and a shorter later ttl shortens the user's shared keys. The
  exact terms are `PresenceAgreement.TtlsIff` for any set of ttls, `PresenceAgreement.FixedTtlIff` for one,
  and `PresenceAgreement.TtlWindowIff` for whole seconds: the longest at most twice the shortest.
- Another user can unregister a connection id it does not own, because the Redis key has no user part:
  `PresenceAgreement.ForeignUnregister` is a run, and `PresenceRefinement.UnregisterIff` says exactly when
  an unregistration does no harm.
- The comment on `Run` (pkg/messaging/kafka.go:111-113) says a failed batch is polled again; the code
  retries the batch in place. A poll that reports an error and carries records loses them:
  `KafkaConsumer.SkipIff`.
- `Close` is documented to stop accepting events (pkg/llmobs/async.go:75); `Observe` goes on accepting, and
  such events are never exported: `AsyncSink.AcceptedAfterClose`. An event observed after `done` is lost
  exactly when there is room and the worker has left: `AsyncSink.LostIff`.
- A request id factory that returns the empty string defeats the check for a pending heartbeat:
  `WebSocketClient.SecondHeartbeatIff`.
- `connect()` while a reconnect is due, or while a socket is still closing, can lead to two live sockets:
  `WebSocketClient.OneLiveIff`.
- On the devops branch the detector promises not to touch the running system; a manual dispatch returns
  before that override: `DeploySafety.LabRollsOutIff`.

## Model

| member | source | states |
|---|---|---|
| `Ticker.WaitNextMillis` | pkg/idgen/routedflake.go:179-187 | the loop returns the first reading later than the current one, or reports that none came |
| `Ticker.TakeTurn` | pkg/idgen/routedflake.go:135-160 | the body with masks is the arithmetic step on every sound state and reading, and keeps the state sound |
| `Ticker.StepForward` | pkg/idgen/routedflake.go:135-160 | a mint lies strictly past the state and becomes the state; an overflow only rewinds the sequence; every other call never moves back |
| `Ticker.ReadingMints` | pkg/idgen/routedflake.go:142-165 | on a sound state a reading in range that is not behind mints: sequence 0 in a new millisecond, the next number while there is one, then sequence 0 at the first reading past the current millisecond |
| `Ticker.ReadingRefused` | pkg/idgen/routedflake.go:136-158 | a reading behind, before the epoch or past the range is refused for that reason, and the last millisecond stays |
| `Ticker.EveryCallMints` | pkg/idgen/routedflake.go:127-187 | over every run whose clock stays in range, never runs backwards and ends every wait, every call mints, at its first reading or at the one that ends its wait |
| `Ticker.RunIncreases` | pkg/idgen/routedflake.go:127-166 | over every run without overflow, under any clock, the minted (tick, sequence) pairs strictly increase |
| `Ticker.RunFills` | pkg/idgen/routedflake.go:142-150 | every sequence number up to the current one was minted in the current millisecond |
| `Ticker.RewindsIff` | pkg/idgen/routedflake.go:142-158 | on sound states, the guard on state and clock readings under which a call overflows and loses a positive sequence is exact |
| `Ticker.RangeNeverOverflows` | pkg/idgen/routedflake.go:152-158 | a run whose readings fit the timestamp field never overflows |
| `Ticker.RewindRepeats` | pkg/idgen/routedflake.go:148-158 | under that guard, a reading at the last millisecond then mints an old pair again |
| `RoutedFlake.ConfigureAccepts` | pkg/idgen/routedflake.go:96-123 | accepted exactly when the widths fit or their sum wraps; in the first case the layout is the intended one, in the second no hint is accepted |
| `RoutedFlake.NewRoutedFlake` | pkg/idgen/routedflake.go:96-123 | a fresh generator at its start state exactly for those configurations, the error otherwise |
| `RoutedFlake.PackIsOr` | pkg/idgen/routedflake.go:161-164 | for every width pair the shifted and united fields are the arithmetic id |
| `RoutedFlake.PackBounds` | pkg/idgen/routedflake.go:161-164 | an id lies in its tick's window and below 2^63 |
| `RoutedFlake.Generator.Next` | pkg/idgen/routedflake.go:127-166 | one call: the shared step on the generator's state, and the id or error it gives |
| `RoutedFlake.Generator.Assemble` | pkg/idgen/routedflake.go:161-164 | the bit operations on the generator's own layout give the arithmetic id |
| `RoutedFlake.FieldsRecovered` | pkg/idgen/routedflake.go:62-72 | tick, hint, machine and sequence are each read back by shift and mask, and the gap is zero |
| `RoutedFlake.MachineRecovered` | pkg/idgen/routedflake.go:114-119 | any machine width that still fits reads the same machine id |
| `RoutedFlake.HintRecovered` | pkg/idgen/routedflake.go:114-119 | any hint width that still fits reads the hint moved up by the extra bits |
| `RoutedFlake.WideningKeepsFields` | pkg/idgen/routedflake.go:114-119 | both fields may be widened at once with that effect |
| `RoutedFlake.RunUnique` | pkg/idgen/routedflake.go:127-187 | over every run whose clock readings fit 41 bits, with any hints and any backward jumps, ids are pairwise distinct, and increase whenever the tick advances or the hint is the same |
| `RoutedFlake.UniqueUntilOverflow` | pkg/idgen/routedflake.go:127-187 | the same over every run on which no call failed with an overflow, whatever was read |
| `RoutedFlake.NextAnswers` | pkg/idgen/routedflake.go:127-166 | one call in figures: the id for a new millisecond, for the next of 1024 in the same one, or the error past 2^41 ms, before the epoch, or while waiting |
| `RoutedFlake.EveryRequestMints` | pkg/idgen/routedflake.go:127-166 | with such a clock a call gets an id exactly when its hint fits, and the id carries that hint, this machine and that time |
| `RoutedFlake.RewindReissues` | pkg/idgen/routedflake.go:148-158 | a first reading past the range, with a positive sequence to lose, lets a later call mint an old id |
| `RoutedFlake.ReissueIff` | pkg/idgen/routedflake.go:142-158 | after one call on a run without overflow, some continuation mints an old id exactly when the call's reading is past the range, at once or after waiting out an exhausted sequence, while the sequence is positive |
| `RoutedFlake.FleetDisjoint` | pkg/idgen/routedflake.go:96-166 | two generators with distinct machine ids never mint a common id, under any clocks and hints, if each hint width plus the other's machine width fits |
| `RoutedFlake.FleetIff` | pkg/idgen/routedflake.go:96-166 | for each pair of valid width pairs that condition is exact |
| `MachineNumber.OrdinalRoundTrip` | pkg/idgen/routedflake.go:238-251 | the ordinal is read back from every name `base-n` |
| `MachineNumber.OrdinalAccepts` | pkg/idgen/routedflake.go:238-251 | a name is accepted exactly when its last part is digits, with an optional plus sign, below 2^63 |
| `MachineNumber.LettersRejected` | pkg/idgen/routedflake.go:238-251 | any other character in the last part, such as a pod hash has, rejects the name |
| `MachineNumber.PlusSignAccepted` | pkg/idgen/routedflake.go:238-251 | a name whose last part is `+3` gives 3 |
| `MachineNumber.ResolveOrder` | pkg/idgen/routedflake.go:205-228 | a number results exactly from the explicit value, which then decides alone, or else from the pod's ordinal, or else from the host's |
| `MachineNumber.ResolvedIsOrdinal` | pkg/idgen/routedflake.go:205-228 | a resolved number is never negative |
| `Snowflake.PackIsOr` | pkg/idgen/snowflake.go:73-75 | the signed shift, united and reinterpreted as uint64, keeps the low 42 bits of the elapsed time |
| `Snowflake.CollideIff` | pkg/idgen/snowflake.go:73-75 | two ids are equal exactly when node and sequence are and the times agree modulo 2^42 |
| `Snowflake.SignBit` | pkg/idgen/snowflake.go:73-75 | the sign bit is set exactly from 2^41 ms on |
| `Snowflake.NewSnowflake` | pkg/idgen/snowflake.go:31-40 | a fresh generator exactly for node ids from 0 to 1023 |
| `Snowflake.Generator.Next` | pkg/idgen/snowflake.go:50-76 | one call: the shared step without an upper time limit, and the id or error |
| `Snowflake.NeverOverflows` | pkg/idgen/snowflake.go:50-76 | no run reports a time overflow |
| `Snowflake.RunIncreasing` | pkg/idgen/snowflake.go:50-76 | over every run below 2^42 ms, ids strictly increase as uint64, across the sign bit |
| `Snowflake.NextAnswers` | pkg/idgen/snowflake.go:50-76 | one call in figures: 4096 ids a millisecond and no last one |
| `Snowflake.EveryCallGetsId` | pkg/idgen/snowflake.go:50-86 | with such a clock every call gets an id |
| `Snowflake.WrapRepeats` | pkg/idgen/snowflake.go:73-75 | two mints exactly 2^42 ms apart give the same id |
| `AccountId.PackIsOr` | pkg/idgen/account.go:149-153 | the united fields are the arithmetic id |
| `AccountId.FacetRecovered` | pkg/idgen/account.go:80-83 | a minted id is below 2^63 and decodes to its facet |
| `AccountId.ZeroId` | pkg/idgen/account.go:85-100 | id 0 is minted exactly by machine 0 for an agent in the first tick with sequence 0 |
| `AccountId.TextOfId` | pkg/idgen/account.go:93-99 | printing and parsing any int64: the text is an agent's exactly when the number is positive and an agent's |
| `AccountId.NewAccountIDGenerator` | pkg/idgen/account.go:110-115 | a fresh generator exactly for machine ids from 0 to 511 |
| `AccountId.Generator.Next` | pkg/idgen/account.go:118-154 | one call: the shared step on the generator's state, and the id or error |
| `AccountId.RunFacets` | pkg/idgen/account.go:80-163 | over every run each id decodes to the requested facet, and its text is an agent's exactly when the facet is and the id is not 0 |
| `AccountId.RunUnique` | pkg/idgen/account.go:118-154 | over every run whose clock readings fit 41 bits, whatever the facets, ids are pairwise distinct |
| `AccountId.NextAnswers` | pkg/idgen/account.go:118-154 | one call in figures, as for routed ids |
| `AccountId.EveryRequestMints` | pkg/idgen/account.go:118-154 | with such a clock a call gets an id exactly when it asks for an agent or a human |
| `AccountId.ReissueIff` | pkg/idgen/account.go:131-146 | one more call lets an old id be minted again exactly under the same guard as for routed ids |
| `Presence.Normalize` | pkg/presence/store.go:61-63 | metadata is accepted exactly when user and connection are not blank and the ttl is positive |
| `Presence.NormalizedFields` | pkg/presence/store.go:64-81 | names are trimmed, instance and gateway stand in for each other when blank, an unset time becomes the instant and a set one stays, the expiry is one ttl away, the rest is untouched |
| `Presence.NormalizedAgain` | pkg/presence/store.go:60-82 | normalizing again only moves the expiry |
| `Presence.HeartbeatRecords` | pkg/presence/memory.go:49-59 | a heartbeat succeeds exactly for a live entry, then records its instant and the new expiry in that entry, keeps its other fields and all other entries, and otherwise changes nothing |
| `Presence.RegistrationRecords` | pkg/presence/memory.go:22-37 | a registration succeeds exactly for a named connection and a positive ttl, then stores the normalized metadata under its names and keeps all other entries |
| `Presence.UnregistrationForgets` | pkg/presence/memory.go:62-78 | an unregistration removes that entry and no other |
| `Presence.ListingShows` | pkg/presence/memory.go:80-119 | a listing shows exactly the user's unexpired entries in strictly increasing order, and the user is online exactly when there is one |
| `Presence.SortById` | pkg/presence/memory.go:107-109 | the sorted list holds exactly the given connections, strictly increasing by id |
| `Presence.ListingUnique` | pkg/presence/memory.go:107-109 | such a list is unique, so map iteration order never shows |
| `MemoryStore.StepKeepsTidy` | pkg/presence/memory.go:22-119 | no operation leaves a user with an empty connection map, and entries stay under their own names |
| `MemoryStore.Store.RegisterConnection` | pkg/presence/memory.go:22-37 | the new table and reply, keeping the invariant |
| `MemoryStore.Store.Heartbeat` | pkg/presence/memory.go:39-60 | the new table and reply; an entry is refreshed up to and including its expiry instant |
| `MemoryStore.Store.UnregisterConnection` | pkg/presence/memory.go:62-78 | the new table and reply; the user's map goes with its last entry |
| `MemoryStore.Store.Sweep` | pkg/presence/memory.go:94-102 | the loop keeps exactly the unexpired entries and lists each once |
| `MemoryStore.Store.ListUserConnections` | pkg/presence/memory.go:80-111 | the sorted listing of the unexpired entries, and the swept table |
| `MemoryStore.Store.IsUserOnline` | pkg/presence/memory.go:113-119 | online exactly when an entry is unexpired |
| `RedisStore.NormalizedIsWellFormed` | pkg/presence/store.go:60-82 | normalized metadata survives the hash encoding |
| `RedisStore.HashRoundTrip` | pkg/presence/redis.go:216-262 | decoding the hash of normalized metadata gives it back, decimal times included |
| `RedisStore.KeysNeverClash` | pkg/presence/redis.go:197-207 | keys of different kinds never coincide, and within a kind they determine the id |
| `RedisStore.Store.RegisterConnection` | pkg/presence/redis.go:57-72 | the new server state and reply, with hash and set expiring after whole seconds and the online key to the millisecond |
| `RedisStore.Store.Heartbeat` | pkg/presence/redis.go:74-101 | the new server state and reply, with the three checks on the stored hash |
| `RedisStore.Store.Fetch` | pkg/presence/redis.go:81-88 | one hash is read and accepted only if it decodes, is the user's and has not expired |
| `RedisStore.Store.Split` | pkg/presence/redis.go:141-157 | the loop separates the members into live metadata, each once, and stale ids |
| `RedisStore.Store.UnregisterConnection` | pkg/presence/redis.go:103-125 | the new server state and reply, with the user's keys removed when nothing is left |
| `RedisStore.Store.ListUserConnections` | pkg/presence/redis.go:127-179 | the sorted live listing, and the cleaned server |
| `RedisStore.Store.IsUserOnline` | pkg/presence/redis.go:181-187 | online exactly when a connection is live |
| `RedisStore.ListingCleans` | pkg/presence/redis.go:159-173 | a listing leaves exactly the ids it read in the set, deletes the other hashes, and deletes the online key when it read none; other users' keys stay |
| `RedisStore.UnregistrationCleans` | pkg/presence/redis.go:110-124 | an unregistration deletes hash and membership, and with the last live connection the user's keys |
| `PresenceRefinement.ReadAgrees` | pkg/presence/redis.go:81-88 | under the invariant a read finds exactly the unexpired entry of the map |
| `PresenceRefinement.LiveAgrees` | pkg/presence/redis.go:141-157 | under the invariant the live members are exactly the map's live entries |
| `PresenceRefinement.CleanKeeps` | pkg/presence/redis.go:159-173 | clean-up never removes a live connection |
| `PresenceRefinement.PublishKeeps` | pkg/presence/redis.go:64-71 | with ttls that suit whole seconds, a registration or heartbeat keeps hashes and shared keys readable for as long as every live connection |
| `PresenceRefinement.StepRefines` | pkg/presence/redis.go:57-187 | with such ttls each call answers like the map and keeps the invariant; an unregistration may be anyone's if it does no harm |
| `PresenceRefinement.UnregisterIff` | pkg/presence/redis.go:103-125 | on every related state, an unregistration leaves every other live connection readable, and every listing right, exactly when it is refused, the owner's, or of an id that is not live |
| `PresenceRefinement.RedisRefines` | pkg/presence/redis.go:57-187 | over every legal run with such ttls all replies equal those of the map from (user, connection) to metadata |
| `PresenceRefinement.OnlineFollows` | pkg/presence/redis.go:67-69 | unless some ttl is below half a second, ttls that suit the set also suit the online key |
| `PresenceRefinement.KeysOutliveConnections` | pkg/presence/redis.go:64-71 | after any legal run with such ttls a live connection has its hash and is in its user's set, both still readable, and so is the online key if it lasts as long |
| `PresenceAgreement.MemoryRefinesIff` | pkg/presence/memory.go:22-119 | on every run with a non-decreasing clock the memory store answers like the map exactly when no heartbeat hits a stored connection at its expiry instant |
| `PresenceAgreement.StoresAgreeIff` | pkg/presence/memory.go:22-119 | over every legal run with suitable ttls both stores give the same replies and the same sorted lists exactly when no heartbeat does that |
| `PresenceAgreement.RevivalPartsStores` | pkg/presence/memory.go:51-53 | a registration and a heartbeat at its expiry are a legal run on which the stores part |
| `PresenceAgreement.HeartbeatDiffersIff` | pkg/presence/memory.go:51-53 | from related states the two stores answer a heartbeat differently exactly for an entry the memory store holds at its expiry instant |
| `PresenceAgreement.HeartbeatShown` | pkg/presence/redis.go:90-100 | after a heartbeat that succeeds, the listings of both stores show the connection until the new expiry, with this instant as its last heartbeat, the new expiry and its other fields as before |
| `PresenceAgreement.RegistrationShown` | pkg/presence/redis.go:57-72 | a registration is shown by both stores until it expires, with its normalized metadata |
| `PresenceAgreement.EarlyHash` | pkg/presence/redis.go:65-66 | when EXPIRE drops part of a ttl, the listing loses the connection before it expires |
| `PresenceAgreement.EarlySet` | pkg/presence/redis.go:67-68 | when a second registration's shared keys expire first, the listing loses the first connection |
| `PresenceAgreement.TtlsIff` | pkg/presence/redis.go:57-187 | for any set of ttls the Redis store refines the map on every legal run that uses them exactly when each hash lasts as long as its connection and each refreshed set as long as any |
| `PresenceAgreement.TtlWindowIff` | pkg/presence/redis.go:209-214 | with the whole-second ttls between lo and hi it does exactly when hi is at most twice lo |
| `PresenceAgreement.FixedTtlIff` | pkg/presence/store.go:53-58 | with one fixed ttl it does exactly when the ttl is below a second or whole seconds, give or take the instant of expiry itself |
| `PresenceAgreement.FractionalTtl` | pkg/presence/redis.go:65-66 | with 1.5 seconds a listing after 1.4 seconds has lost the connection |
| `PresenceAgreement.ForeignUnregister` | pkg/presence/redis.go:103-125 | after another user unregisters the id, the owner's listing no longer shows the live connection |
| `KafkaConsumer.StepSafe` | pkg/messaging/kafka.go:118-177 | every step but a dropping poll keeps: all offsets below the committed one were in a handled batch; the committed offset never decreases |
| `KafkaConsumer.RunSafe` | pkg/messaging/kafka.go:114-178 | the same over every run with crashes, restarts, handler failures and commits that take effect yet report an error |
| `KafkaConsumer.RunTight` | pkg/messaging/kafka.go:114-178 | if failed polls carry no records, every poll starts at the committed offset, the batches of a process follow one another without gap or overlap, and at most the last one is uncommitted |
| `KafkaConsumer.StartTight` | pkg/messaging/kafka.go:100-103 | a consumer that begins at the earliest record meets the invariant |
| `KafkaConsumer.PollLeads` | pkg/messaging/kafka.go:118-144 | exactly when a poll ends the loop and how, which batch it hands to the handler, and that anything else polls again |
| `KafkaConsumer.HandlerLeads` | pkg/messaging/kafka.go:149-161 | a handler call ends the loop exactly when it failed and was cancelled or its sleep cut short; a success records the batch once; any other failure leaves the same batch with the handler and all else alone |
| `KafkaConsumer.CommitLeads` | pkg/messaging/kafka.go:162-176 | the same for a commit, which may have landed although it failed |
| `KafkaConsumer.RestartResumes` | pkg/messaging/kafka.go:100-104 | a new process polls from the committed offset |
| `KafkaConsumer.HandledInTheEnd` | pkg/messaging/kafka.go:149-161 | after any number of failures and one success the same batch is to be committed and was handled once |
| `KafkaConsumer.CommittedInTheEnd` | pkg/messaging/kafka.go:162-176 | after any number of failed commits, landed or not, and one success the batch is committed and the loop polls |
| `KafkaConsumer.BatchCompletes` | pkg/messaging/kafka.go:118-177 | a poll with records, then failing and finally succeeding handler calls and commits: exactly those records are handled once and committed, and the loop polls from their end |
| `KafkaConsumer.SkipIff` | pkg/messaging/kafka.go:135-140 | from a safe state a step makes it possible that a record is committed past and never handled exactly when it is a failed poll that carries an unhandled record |
| `KafkaConsumer.Consumer.Run` | pkg/messaging/kafka.go:114-178 | the nested loops run the state machine on every script of outcomes |
| `KafkaConsumer.Consumer.Poll` | pkg/messaging/kafka.go:118-144 | one poll with its five exits is one step |
| `KafkaConsumer.Consumer.RetryHandler` | pkg/messaging/kafka.go:149-161 | the loop retries the same batch until it is handled or the consumer stops |
| `KafkaConsumer.Consumer.RetryCommit` | pkg/messaging/kafka.go:162-176 | the loop retries the commit of that batch until it succeeds or the consumer stops |
| `KafkaConsumer.ExecIsRun` | pkg/messaging/kafka.go:114-178 | a script of one session is a run of the protocol, so the safety results apply to the loops |
| `AsyncSink.StepInv` | pkg/llmobs/async.go:60-99 | every action keeps: accepted is exported, then in flight, then queued, in order; each observation is accepted or counted as dropped; the queue is within capacity. What was exported or accepted stays |
| `AsyncSink.RunInv` | pkg/llmobs/async.go:60-99 | the same over every interleaving of producers, worker and close |
| `AsyncSink.CloseDrains` | pkg/llmobs/async.go:77-99 | when close returns, exactly the events accepted before the worker left were exported, once and in order, among them all accepted before `done` was closed |
| `AsyncSink.ExitIsFinal` | pkg/llmobs/async.go:82-99 | after the worker has left nothing more is exported |
| `AsyncSink.AcceptedAfterClose` | pkg/llmobs/async.go:75-80 | an event observed after close with room in the queue is accepted, not counted as dropped, and never exported |
| `AsyncSink.LostIff` | pkg/llmobs/async.go:60-99 | once `done` is closed, an observed event is not counted and yet exported on no continuation exactly when there is room and the worker has left |
| `AsyncSink.ExportedUnlessLeft` | pkg/llmobs/async.go:75-99 | an event accepted after `done` but before close returns is exported, after all before it, on some continuation |
| `AsyncSink.Drain` | pkg/llmobs/async.go:88-96 | from any state after `done` the worker alone can export everything accepted and leave |
| `AsyncSink.DrainProgress` | pkg/llmobs/async.go:88-96 | after `done` the worker always has a move until it leaves, and each move lessens the work left |
| `AsyncSink.ObserveIff` | pkg/llmobs/async.go:60-70 | in every state an event is counted as dropped exactly when the queue is full, and otherwise joins the end of the queue |
| `AsyncSink.ObservedIsExported` | pkg/llmobs/async.go:60-99 | an event observed with room before `done` is exported, in its place, on every run on which close returns |
| `AsyncSink.WorkProgress` | pkg/llmobs/async.go:84-87 | before `done`, too, a worker with something to export has a move, and each lessens the work left |
| `AsyncSink.CatchUp` | pkg/llmobs/async.go:84-87 | left alone before `done`, the worker exports everything accepted |
| `AsyncSink.CloseTakesEffect` | pkg/llmobs/async.go:77-80 | closing `done` takes effect once and moves nothing else |
| `AsyncSink.CloseCanReturn` | pkg/llmobs/async.go:77-99 | from any state before the worker has left close can return, with everything accepted exported |
| `AsyncSink.Sink.constructor` | pkg/llmobs/async.go:37-55 | an empty queue of the given size, or 1024 when it is not positive |
| `AsyncSink.Sink.Observe` | pkg/llmobs/async.go:60-70 | one non-blocking observation is one step; it reports a full queue exactly when the queue is full, then counts one drop, and otherwise enqueues the event |
| `AsyncSink.Sink.CloseDone` | pkg/llmobs/async.go:77-80 | closing `done`, any number of times, is one step |
| `AsyncSink.Sink.WorkerTurn` | pkg/llmobs/async.go:82-99 | a turn is an enabled worker step, or there is none |
| `WebSocketClient.StepHeartbeat` | web/src/api/websocketClient.ts:236-298 | every call, socket event and timer keeps: a heartbeat is pending exactly when the remembered ack timer is armed, which is the only one, and then the interval runs |
| `WebSocketClient.RunHeartbeat` | web/src/api/websocketClient.ts:236-298 | the same in every reachable state, with at most one heartbeat unanswered, if request ids are not empty |
| `WebSocketClient.SecondHeartbeatIff` | web/src/api/websocketClient.ts:254-277 | the next interval adds a second unanswered heartbeat exactly when the first id was empty |
| `WebSocketClient.AckTimeoutGivesUp` | web/src/api/websocketClient.ts:272-291 | the ack timer of a pending heartbeat leaves the open socket closing, nothing pending or armed, other sockets and the backoff as they were |
| `WebSocketClient.OverdueGivesUp` | web/src/api/websocketClient.ts:258-261 | so does the next interval with that heartbeat pending |
| `WebSocketClient.IntervalSends` | web/src/api/websocketClient.ts:254-277 | otherwise an open socket sends one heartbeat with an ack timer of its own, and no other socket does anything |
| `WebSocketClient.AckClears` | web/src/api/websocketClient.ts:279-285 | the pending heartbeat's ack ends its wait and keeps the interval; no other frame touches the heartbeat |
| `WebSocketClient.FrameCloses` | web/src/api/websocketClient.ts:198-234 | a frame closes the client and disarms a reconnect exactly when it signals an auth failure |
| `WebSocketClient.OpenStarts` | web/src/api/websocketClient.ts:109-114 | an open resets the backoff and arms the interval exactly when it is positive |
| `WebSocketClient.CloseSchedules` | web/src/api/websocketClient.ts:122-132 | a close schedules a reconnect exactly when not closed, reconnecting is on and it was no auth failure, with one more attempt, the current delay reported and then doubled up to the maximum |
| `WebSocketClient.ConnectCreates` | web/src/api/websocketClient.ts:103-135 | connect makes a socket exactly when the current one is not live |
| `WebSocketClient.ReconnectReplaces` | web/src/api/websocketClient.ts:159-165 | the reconnect timer makes one unless closed |
| `WebSocketClient.CloseEnds` | web/src/api/websocketClient.ts:145-151 | close leaves no timer armed, forgets the socket and closes it if it is live |
| `WebSocketClient.DeadConnectionReplaced` | web/src/api/websocketClient.ts:122-168 | an unanswered heartbeat, the close it causes and the timer that schedules end in a new current socket |
| `WebSocketClient.StepBackoff` | web/src/api/websocketClient.ts:109-168 | every event keeps the delay and the reports in line with the attempts since the last open |
| `WebSocketClient.BackoffClosed` | web/src/api/websocketClient.ts:166-167 | capped doubling is the capped power of two |
| `WebSocketClient.RunReports` | web/src/api/websocketClient.ts:109-168 | after every run the k-th reconnect since the last open reported attempt k and delay min(base·2^(k-1), max), exactly when k > 1 or base does not exceed max |
| `WebSocketClient.ClosedForGood` | web/src/api/websocketClient.ts:122-234 | once closed, always closed, and on every run there are at most as many new sockets as calls of `connect()` |
| `WebSocketClient.ClosingIsFinal` | web/src/api/websocketClient.ts:145-151 | `close()` and an auth failure in an ack or event bring this about from every reachable state; without `connect()` there is no new socket |
| `WebSocketClient.RunOneLive` | web/src/api/websocketClient.ts:103-168 | at most one socket is live on every run in which `connect()` is called only when closed, with a live socket, or with a finished one and no reconnect due |
| `WebSocketClient.OneLiveIff` | web/src/api/websocketClient.ts:103-168 | with reconnecting on, a call of `connect()` keeps at most one live socket on every later run exactly when it is made then |
| `WebSocketClient.MessageWebSocketClient.constructor` | web/src/api/websocketClient.ts:88-101 | the start state, which meets all invariants |
| `WebSocketClient.MessageWebSocketClient.Connect` | web/src/api/websocketClient.ts:103-135 | does nothing while the current socket is connecting or open; otherwise makes a new current socket and touches nothing else |
| `WebSocketClient.MessageWebSocketClient.Close` | web/src/api/websocketClient.ts:145-151 | closed for good with no timer armed, the current socket closing and forgotten |
| `WebSocketClient.MessageWebSocketClient.OnSocketOpen` | web/src/api/websocketClient.ts:109-114 | backoff back to the base delay and attempt 0, heartbeat restarted with nothing pending |
| `WebSocketClient.MessageWebSocketClient.OnSocketClose` | web/src/api/websocketClient.ts:122-132 | heartbeat stopped, and a reconnect scheduled exactly when not closed, reconnecting is on and it was no auth failure |
| `WebSocketClient.MessageWebSocketClient.ScheduleReconnectNow` | web/src/api/websocketClient.ts:153-168 | one timer armed in place of any other, the next attempt reported with the current delay, the delay doubled up to the maximum |
| `WebSocketClient.MessageWebSocketClient.OnReconnectTimerFires` | web/src/api/websocketClient.ts:159-165 | a new socket replaces the current one, whatever its state, unless closed |
| `WebSocketClient.MessageWebSocketClient.StartHeartbeatNow` | web/src/api/websocketClient.ts:236-243 | nothing pending, and the interval armed exactly when it is positive |
| `WebSocketClient.MessageWebSocketClient.StopHeartbeatNow` | web/src/api/websocketClient.ts:245-252 | no interval, no remembered ack timer, nothing pending |
| `WebSocketClient.MessageWebSocketClient.OnInterval` | web/src/api/websocketClient.ts:254-277 | sends one heartbeat with its own ack timer, gives up on a pending one, or does nothing without an open socket |
| `WebSocketClient.MessageWebSocketClient.OnAckTimerFires` | web/src/api/websocketClient.ts:272-276 | gives up exactly when the timer's own heartbeat is still pending |
| `WebSocketClient.MessageWebSocketClient.OnHeartbeatTimeout` | web/src/api/websocketClient.ts:287-291 | heartbeat stopped and the current socket closing; sockets and backoff otherwise unchanged |
| `WebSocketClient.MessageWebSocketClient.OnAck` | web/src/api/websocketClient.ts:279-285 | only the ack of the pending heartbeat clears it and its timer |
| `WebSocketClient.MessageWebSocketClient.OnMessage` | web/src/api/websocketClient.ts:198-234 | acks and events take effect by kind; an auth failure closes and disarms the reconnect timer; malformed and other frames change nothing |
| `PosixPath.NormalizePath` | scripts/detect-deploy-changes.py:132-136 | the loop that strips `./` leaves the normal form of the path unchanged |
| `PosixPath.SameFormIff` | scripts/detect-deploy-changes.py:132-136 | two spellings have one normal form exactly when root and names agree |
| `PosixPath.PosixIdempotent` | scripts/detect-deploy-changes.py:132-136 | normalising twice is normalising once |
| `PosixPath.AlreadyNormal` | scripts/detect-deploy-changes.py:132-136 | a path of a root and clean names is left as it is |
| `PosixPath.ThreeSlashes` | scripts/detect-deploy-changes.py:132-136 | more than two leading slashes become one |
| `PosixPath.DotDropped` | scripts/detect-deploy-changes.py:132-136 | a leading `./` makes no difference |
| `PosixPath.ParentDropsLast` | scripts/detect-deploy-changes.py:227 | the parent keeps all names but the last |
| `DeployDetect.DeploySelection.AddBackends` | scripts/detect-deploy-changes.py:98-109 | the loop joins the backends into three sets |
| `DeployDetect.DeploySelection.AddRollouts` | scripts/detect-deploy-changes.py:115-126 | the loop joins the rollouts, and the restarts when asked |
| `DeployDetect.DeploySelection.AddGoImportDependents` | scripts/detect-deploy-changes.py:215-241 | handled exactly when the rule decides; then all importers are joined, otherwise nothing is |
| `DeployDetect.DeploySelection.ClassifyPath` | scripts/detect-deploy-changes.py:244-258 | the selection is joined with the single path's selection |
| `DeployDetect.DeploySelection.ClassifyDeployPath` | scripts/detect-deploy-changes.py:260-326 | the same for scripts, manifests and configuration |
| `DeployDetect.DeploySelection.ClassifySourcePath` | scripts/detect-deploy-changes.py:328-354 | the same for the web client and the services |
| `DeployDetect.DeploySelection.ClassifyRest` | scripts/detect-deploy-changes.py:356-402 | the remaining branches, the proto and lookup ones included, amount to four: a dot path selects nothing, the admin service its two parts, a migration every backend with the flag, anything else every backend |
| `DeployDetect.Detect` | scripts/detect-deploy-changes.py:440-475 | the outputs for every event, ref and path list |
| `DeployDetect.UnionLaws` | scripts/detect-deploy-changes.py:90-129 | joining selections is associative, commutative and idempotent, with the empty selection as unit |
| `DeploySafety.SelectIs` | scripts/detect-deploy-changes.py:461-462 | the selection for a path list is exactly the union of the single-path selections |
| `DeploySafety.SameChanges` | scripts/detect-deploy-changes.py:440-475 | outputs depend only on the set of normal forms, for every event and ref: order, repetition and spelling do not matter |
| `DeploySafety.MainIsSane` | scripts/detect-deploy-changes.py:413-464 | on main every built or restarted service is rolled out, none is both, a migration builds every backend, and a deploy is required exactly when something is rolled out |
| `DeploySafety.OrderedElems` | scripts/detect-deploy-changes.py:405-406 | an output list holds exactly the selected registered names |
| `DeploySafety.OrderedSplit` | scripts/detect-deploy-changes.py:405-406 | and keeps the registry's order |
| `DeploySafety.OrderedDistinct` | scripts/detect-deploy-changes.py:405-406 | and repeats nothing when the registry does not |
| `DeploySafety.NothingLost` | scripts/detect-deploy-changes.py:413-437 | with a complete registry nothing selected is lost, a build is required exactly when there is an image, and a config-only deploy has none |
| `DeploySafety.MigrationIff` | scripts/detect-deploy-changes.py:392-395 | a migration is required exactly when some path is one and neither the documentation nor the Go rule claims it |
| `DeploySafety.QuietIff` | scripts/detect-deploy-changes.py:244-402 | a push to main deploys nothing exactly when every path is documentation, an unimported or test Go file, or developer and verification material |
| `DeploySafety.WebIff` | scripts/detect-deploy-changes.py:328-330 | the web image is built exactly when an unclaimed path under `web/` changed |
| `DeploySafety.ImportersBuilt` | scripts/detect-deploy-changes.py:215-241 | whatever else changed, every backend that imports a changed package is built |
| `DeploySafety.ImportersExactly` | scripts/detect-deploy-changes.py:215-241 | when only such files changed, no other image is built |
| `DeploySafety.TestsSelectNothing` | scripts/detect-deploy-changes.py:224-225 | a Go test file selects nothing |
| `DeploySafety.OwnConfiguration` | scripts/detect-deploy-changes.py:303-326 | a registered service's configuration file, in either directory, rolls out and restarts that service alone and builds nothing |
| `DeploySafety.OwnService` | scripts/detect-deploy-changes.py:337-354 | a path under `service/<domain>/<kind>/` that the import graph does not settle builds exactly that service when it is known, every backend otherwise |
| `DeploySafety.FlatDirectories` | scripts/detect-deploy-changes.py:332-335 | the three flat service directories build their one service |
| `DeploySafety.AdminFile` | scripts/detect-deploy-changes.py:384-387 | a file directly in the admin directory builds both admin services |
| `DeploySafety.UnknownConfiguration` | scripts/detect-deploy-changes.py:166-170 | the configuration of an unregistered service restarts everything |
| `DeploySafety.ObservabilityManifests` | scripts/detect-deploy-changes.py:311-314 | each observability manifest restarts what it configures |
| `DeploySafety.AppliedWithoutRestart` | scripts/detect-deploy-changes.py:315-318 | the manifests that take effect when applied roll one service out without a restart |
| `DeploySafety.OtherManifests` | scripts/detect-deploy-changes.py:319-320 | any other manifest restarts everything |
| `DeploySafety.CanaryRestarts` | scripts/detect-deploy-changes.py:248-276 | the runbook and each deploy script restart one service and build nothing |
| `DeploySafety.DocsSelectNothing` | scripts/detect-deploy-changes.py:139-141 | what lies under docs or ends in `.md`, the runbook excepted, selects nothing |
| `DeploySafety.LocalSelectsNothing` | scripts/detect-deploy-changes.py:278-309 | each developer script and everything for verification selects nothing |
| `DeploySafety.FailSafe` | scripts/detect-deploy-changes.py:401-402 | a path that no rule owns builds every backend |
| `DeploySafety.DispatchBuildsAll` | scripts/detect-deploy-changes.py:446-450 | a manual dispatch builds and rolls out every backend and the web client and requires a migration |
| `DeploySafety.RestartsAddUpIff` | scripts/detect-deploy-changes.py:417-420 | restarts of two change sets add up exactly when neither builds what the other restarts |
| `DeploySafety.LabRollsOutIff` | scripts/detect-deploy-changes.py:446-475 | the devops branch rolls out nothing exactly when the event is not a manual dispatch |
| `DeploySafety.LabBuilds` | scripts/detect-deploy-changes.py:452-475 | it deploys what it builds, restarts nothing, and builds every backend when the build pipeline changed, otherwise main's images |
| `DeploySafety.OtherRefsInert` | scripts/detect-deploy-changes.py:443-444 | other refs build, roll out and migrate nothing |
| `DeploySafety.ShippedComplete` | scripts/services.json:1-35 | the shipped registry has every service the rules name |
| `SandboxExec.SanitizeDNSLabel` | pkg/pythonexec/k8s_executor.go:390-407 | the loop with its dash flag computes the specified text |
| `SandboxExec.SanitizedIsWords` | pkg/pythonexec/k8s_executor.go:390-407 | the result is the maximal runs of letters and digits, joined by single dashes |
| `SandboxExec.BaseOf` | pkg/pythonexec/k8s_executor.go:370-388 | a name is prefix, base and suffix; the base is the longest prefix of the sanitized id within the room left that ends in a letter or digit, and all of it when it fits |
| `SandboxExec.LabelIff` | pkg/pythonexec/k8s_executor.go:370-388 | for every run id the name is a DNS label exactly when the prefix is label text of 1 to 50 bytes that starts with a letter or digit |
| `SandboxExec.LabelValueIsLabel` | pkg/pythonexec/k8s_executor.go:409-418 | every run id gives a valid label value: `run` when nothing is left of it, all of it when it fits, else its longest prefix that ends in a letter or digit |
| `SandboxExec.LoweredRunes` | pkg/pythonexec/k8s_executor.go:391 | what is sanitized is the trimmed id, lower-cased rune by rune |
| `SandboxExec.EnforceOutputLimit` | pkg/pythonexec/k8s_executor.go:420-449 | the outputs together are the first `maxBytes` bytes of the inputs, each a prefix and filled in order, and the flag says whether anything was cut |
| `AuditRedaction.RedactAny` | pkg/agentaudit/audit.go:469-523 | the recursion and its loops compute the specified value, or fail with it |
| `AuditRedaction.RedactMap` | pkg/agentaudit/audit.go:525-535 | the same for objects, in any key order |
| `AuditRedaction.RedactedAt` | pkg/agentaudit/audit.go:469-535 | along every path: the same kind of node with the same keys or length when no key on it is sensitive, the marker at the first sensitive key, nothing below it |
| `AuditRedaction.FailsIff` | pkg/agentaudit/audit.go:512-521 | redaction fails exactly when a value that no sensitive key hides is not JSON |
| `AuditRedaction.SummaryRedacted` | pkg/agentaudit/audit.go:415-431 | both hold for every summary |
| `AuditRedaction.SensitiveIff` | pkg/agentaudit/audit.go:537-567 | a key is sensitive exactly when, trimmed, it somewhere spells one of the eleven words, in any case and with dashes or dots for underscores |
| `AuditRedaction.CloneShows` | pkg/agentaudit/audit.go:37-43 | a clone is empty when a visible value is not JSON, and otherwise the redacted summary |
| `AuditRedaction.FixedIffClean` | pkg/agentaudit/audit.go:469-535 | redaction leaves a value as it is exactly when it is plain JSON with nothing left to redact |
| `AuditRedaction.CloneTwiceIff` | pkg/agentaudit/audit.go:37-43 | a clone of a clone is the clone, for every summary, exactly when text redaction is idempotent |

## Left out

- Machine numbers hashed from the host name (pkg/idgen/account.go:192-208, pkg/idgen/snowflake.go:102-118): distinct machine ids are a hypothesis.
- Mutexes: each generator and store call is one atomic step; waiting for the next millisecond is a finite list of later readings, and a call that never sees one keeps the generator held.
- `NextString` of the generators other than account ids: the decimal form adds nothing to the id.
- Redis: pipelines are atomic and one clock, in milliseconds and not decreasing, is shared; whether a key can be read at the very millisecond it expires is left open and both answers are covered.
- PresenceRefinement.RedisRefines: assumes that a connection id is registered for one user only; ttls are whole milliseconds up to 146 years, beyond which doubling them overflows a duration.
- RedisStore.Store.RegisterConnection: the library's rule that EXPIRE takes whole seconds, at least one, and SET milliseconds where needed is not in the repository; it is taken as the client library documents it.
- Redis connection errors, `NewStore` and the configuration of the ttl.
- Kafka: one partition and one consumer, no rebalances; the producer and `EnsureTopics` only call the client library.
- KafkaConsumer.RunTight: assumes that a poll that reports an error carries no records, which the code relies on; SkipIff is the exact condition for losing one.
- AsyncSink: the exporter's own errors and timeout are not modelled; an exported event was handed to the wrapped sink once.
- WebSocket client: callbacks do not call back into the client and `send` does not throw; whether a frame or close reason signals an auth failure is an input; `buildUrl` and JSON parsing are not modelled.
- Deploy detection: `go list` is a parameter that may be absent per package or service; the shell and JSON quoting of the outputs is not modelled.
- Sandbox: the digest is any ten lower-case hex characters; policy validation, CPU quotas, job objects and log retrieval are not modelled; output is cut at a byte, also inside a character.
- Audit: the regular expressions and the digest of the text redactor are a parameter; the other normalisers only check fields.
- gRPC and generated code, service wiring, configuration loaders, the web pages, token and tracing packages: mappings and plumbing that would only add easy members.
