# Verified models of the event core, the provider streams and the text transformations

This project models the protocols and transformations that the rest of the system relies on, and proves what
they promise over every input, run or interleaving. `dafny verify dfyconfig.toml` checks all of it.

- **Durable events.** `EventStore` is the tables and the transaction methods, with statements that may fail;
  `EventService` says what Publish, Replay, ReplayAll, Claim and Remove do, and `Service` carries them out as an object.
  `EventOutcomes` says what each comes to in terms of the logs alone, `EventLog` proves the log invariant over runs,
  `StoredEvents` that rows decode and replay, `Replication` and `Convergence` what replaying histories leads to,
  `DurableTail` the delivery to subscribers under every interleaving.
- **The SQLite store.** `Writer` is the single-writer protocol, `Integrity` the checker, `Rebuild`, `RebuildEqualsLive` and
  `Fingerprint` the projection rebuild, `Migration` the catalog and its concurrent migrators.
- **Provider streams.** `Stream` is the validator and `StreamGrammar` the language it accepts; `Emitter`, `Compatible`,
  `CompatibleProofs` and `CompatibleTurn` are the adapter that turns wire chunks into events, `CompatibleTexts`,
  `CompatibleCalls` and `CompatibleFinish` what those events carry; `Retry` runs attempts.
- **Text and values.** `Json`, `JsonCodec`, `JsonProofs` and `JsonTexts` are the canonical JSON codec (RFC 8259), whose
  injectivity is what makes the byte comparison of replay meaningful; `Jsonc` strips comments and trailing commas;
  `Pointers` (RFC 6901), `ConfigMerge`, `ConfigOrigins`, `ConfigResolve` and `ConfigSources` merge configuration with
  provenance; `Tokens` and `StaticEval` evaluate static string expressions; `Identifier` packs identifiers.

Where the source works by changing state, a class or a method with a loop is proved against a specification
function, and the theorems are about that function. A failing or cancelled statement is an answer of an oracle, so
every contract covers every pattern of failures.

Findings, each proved:

- Decodable tool arguments are not quite enough for a turn to complete. Arguments nested to depth 100 decode, but
  inside the ToolCall event they sit one level deeper and the event is refused: `CompatibleTurn.DeepTurnFails` is a
  whole turn in which nothing else is wrong. The exact condition is part of `CompatibleTurn.Completes`.
- The comment on `Durable` (internal/event/service.go:381-383) says that no concurrent commit is lost. A row committed
  while a subscriber rests reaches it if and only if the commit notifies: `DurableTail.SeenExactlyWhenNotified`. A replay
  that does not publish is missed (`DurableTail.SilentCommitIsMissed`) until the next commit that notifies, which brings
  everything (`DurableTail.QuietMeansCaughtUp`).
- `stripTrailingCommas` is not idempotent on `,,]`; `Jsonc.IdempotentUnlessDoubled` gives the exact condition.
- Origins of a merged configuration are a superset of its leaves (`ConfigMerge.OnceEmptyKeepsItsOrigin`); which objects
  have an entry, exactly, is `ConfigMerge.ObjectsKeepAnEntry`.
- Identifiers lose their order after exactly 4096 in a millisecond, and where the 48 bits of the time part wrap:
  `Identifier.OrderedExactlyWithoutWrap`.

Conventions: a Go string that is valid UTF-8 is a sequence of Unicode scalar values, and its byte order is the order
of those values; `Fingerprint` spells out the UTF-8 bytes, and in `Jsonc` each character stands for a byte.
JSON strings are escaped as Go's encoder without HTML escaping does it. Sequence numbers and versions are a
64-bit subset type, so every sum is proved to stay in range. Projectors and commit hooks are arbitrary functions on
the cells of the projection tables that may refuse; they do not touch the event tables.

## Model

| member | source | states |
|---|---|---|
| `StreamGrammar.AcceptsExactlyTheGrammar` | internal/provider/stream.go:57-258 | an event list passes `ValidateStream` if and only if it satisfies a grammar stated without the automaton: each id spells Start Delta* End, a tool input with its optional call and outcome, or a bare call; steps alternate under equal indexes; nothing is open where a step or the stream finishes; exactly one terminal event, last |
| `StreamGrammar.PrefixTracks` | internal/provider/stream.go:57-124 | the events accepted so far are exactly the grammar's prefixes, and the validator's blocks, step and terminal flag are functions of them |
| `Stream.StreamValidator.Accept` | internal/provider/stream.go:57-124 | one event moves the validator as the transition function says, and any rejection leaves it terminal with its other fields untouched |
| `Stream.StreamValidator.EndStep` | internal/provider/stream.go:158-173 | a step finishes only when active, under its own index, with no block open |
| `Stream.StreamValidator.HasOpenBlock` | internal/provider/stream.go:251-258 | the loop over the block map finds an open block if and only if there is one |
| `Stream.StreamValidator.CallTool` | internal/provider/stream.go:218-236 | a call needs a fresh id, or a closed and uncalled input of the same name |
| `Stream.StreamValidator.EndTool` | internal/provider/stream.go:238-249 | a result needs a called, unfinished tool of the same name |
| `Stream.ValidateStream` | internal/provider/stream.go:136-144 | the method decides the validity of a whole list |
| `Emitter.EventEmitter.Emit` | internal/provider/adapter_helpers.go:68-98 | the emitter with its held-back StepStart, its started mark set before the first send, and a sink that may fail at any send |
| `Emitter.SinkSeesOnlyValidStreams` | internal/provider/adapter_helpers.go:68-98 | however emission ends, the sink holds a prefix of the events that the validator accepts; ending well in a terminal state it holds the whole valid stream |
| `Emitter.StartedExactly` | internal/provider/adapter_helpers.go:75-80 | a stream counts as started exactly when one of the events tried, the failing one included, is neither a StepStart nor a Finish |
| `Compatible.StreamState.HandleFrame` | internal/provider/compatible/chat.go:275-382 | a frame sends exactly its planned events, in order, up to the first emission error, and leaves the planned bookkeeping; what text the planned events carry is `CompatibleTexts.DeltasCarryTheFields` and `CompatibleCalls.FragmentsReachTheirCalls` |
| `Compatible.StreamState.HandleCall` | internal/provider/compatible/chat.go:336-376 | one tool call delta: late identity is filled in, fragments before the name are dropped, the input starts once |
| `Compatible.StreamState.Complete` | internal/provider/compatible/chat.go:384-447 | finishing closes text, reasoning and tools in sorted order and then the step and the stream, stopping at an incomplete tool |
| `Compatible.StreamState.HandleFrames` | internal/provider/compatible/chat.go:241 | the whole frame sequence, up to the first error |
| `CompatibleProofs.OpsSimulate` | internal/provider/compatible/chat.go:306-380 | the adapter simulates the validator: the events of a chunk are accepted if and only if identities stay trimmed, named and free of clashes, and then both states still correspond |
| `CompatibleProofs.DoneAccepted` | internal/provider/compatible/chat.go:384-447 | `[DONE]` completes the stream if and only if every tool is started with decodable arguments that fit, and usage and metadata encode |
| `CompatibleTurn.VisibleIndexesAreIdentities` | internal/provider/compatible/chat.go:306-334 | a choice index that is not blank and has no surrounding space makes valid text and reasoning block ids |
| `CompatibleTexts.DeltasCarryTheFields` | internal/provider/compatible/chat.go:306-334 | for every frame list and index, the TextDelta texts under text-index put together are the contents of the choices with that index in the chunks handled, in order, and the ReasoningDelta texts under reasoning-index their reasoning |
| `CompatibleCalls.FragmentsReachTheirCalls` | internal/provider/compatible/chat.go:336-376 | for every frame list, the ToolInputDelta texts under an id put together are the argument fragments of its key from its naming on, and inputs start for exactly the keys that got a name |
| `CompatibleFinish.DoneClosesEverything` | internal/provider/compatible/chat.go:384-447 | what a done marker adds, from the frames alone: the ends of all text blocks, of all reasoning blocks, then per key the end of its input and its call with the decoded arguments, then the finish with the last reason named, by a table of its own |
| `CompatibleFinish.ErrorEndsTheStream` | internal/provider/compatible/chat.go:297-302 | an error chunk adds one ProviderError to the events of the chunks before it, and nothing that follows adds another |
| `CompatibleTurn.CompletesExactly` | internal/provider/compatible/chat.go:233-447 | a turn ends without a protocol error in a valid complete stream if and only if: chunks, then a `[DONE]` that is ready or an error chunk without identity clashes, then only empty frames |
| `CompatibleTurn.ToolCallsCarryTheirDeltas` | internal/provider/compatible/chat.go:369-436 | in every complete turn each ToolCall input is the decoding of exactly the concatenated ToolInputDelta texts of its id before it, null when blank |
| `CompatibleTurn.TurnDelivers` | internal/provider/compatible/chat.go:233-254 | against a sink that takes everything, a complete turn delivers its whole stream without an emission error |
| `CompatibleTurn.DeepArgumentsAreRefused` | internal/provider/compatible/chat.go:426-436 | arguments nested to the decoder's limit decode, yet the ToolCall that carries them one level deeper is always refused |
| `CompatibleTurn.OneCallCompletes` | internal/provider/compatible/chat.go:336-436 | a turn of one chunk with a whole tool call and a done marker completes if and only if the arguments decode to a value that fits one level deeper |
| `CompatibleTurn.DeepTurnFails` | internal/provider/compatible/chat.go:426-436 | such a turn in which nothing else is wrong: the arguments decode, the adapter reports no error of its own, and the events are not a valid stream |
| `Retry.DelayIsCapped` | internal/provider/retry.go:138-154 | delays lie within 0..MaxDelay, equal min(Retry-After, MaxDelay), and without it min(Base*2^k, MaxDelay), doubling until the cap |
| `Retry.RetryableStatuses` | internal/provider/retry.go:173-180 | another attempt is worth it for 408, 409, 425, 429 and 500 to 504 except 501, and for no other status |
| `Retry.AttemptCompletesExactly` | internal/provider/compatible/chat.go:220-254 | against a sink that takes everything an attempt completes if and only if its stream is read to the end of a complete turn, or its rejection is a classified one |
| `Retry.RunTurn` | internal/provider/compatible/chat.go:220-254 | one attempt: unclassified failures reach no sink, classified ones become StepStart and ProviderError, a stream is read to its end or first error |
| `Retry.UnstartedAttempt` | internal/provider/adapter_helpers.go:68-98 | an attempt error whose stream did not start left the sink exactly as it was |
| `Retry.AttemptSendsItsOwnStream` | internal/provider/compatible/chat.go:220-254 | what an attempt adds to the sink is an accepted prefix of its own stream, and all of it when it succeeds |
| `Retry.RunWithRetry` | internal/provider/retry.go:86-136 | whatever the number of attempts, the sink is as if the last had been the only one; attempts are bounded, earlier ones failed retryably before starting, each delay is the policy's; a retryable failure that did not start ends the run only at the last attempt, and Cancelled only where a round was cancelled |
| `JsonProofs.RoundTrip` | internal/codec/json_value.go:18-201 | decode(encode(v)) is v with negative zeros written "0", for every valid value within the depth limit |
| `JsonTexts.NumberDecodes` | internal/codec/json_value.go:188-201 | a number decodes as its own text, unless it starts with a minus sign and has no digit from 1 to 9 before its exponent: then as 0 |
| `JsonTexts.RoundTripIsIdentity` | internal/codec/json_value.go:18-201 | decode(encode(v)) is v itself if and only if no number in v is such a negative zero |
| `JsonTexts.StringText` | internal/codec/json_value.go:178-186 | a string is written between quotes character by character, most characters as themselves |
| `JsonTexts.ControlEscape` | internal/codec/json_value.go:178-186 | a control character without a short escape is written as its code in lower-case digits |
| `JsonTexts.ArrayText` | internal/codec/json_value.go:136-145 | an array is the texts of its items, in order, with commas between them, in brackets |
| `JsonTexts.ObjectText` | internal/codec/json_value.go:146-172 | an object is its members with commas between them, in braces, each key once and in ascending order |
| `JsonProofs.EncodingInjective` | internal/codec/json_value.go:40-50 | two values have equal encodings if and only if they are equal up to negative zeros |
| `JsonProofs.Idempotent` | internal/codec/json_value.go:18-50 | any accepted text re-encodes to a text that decodes to the same value and re-encodes to itself |
| `JsonProofs.CanonicalTextsAreEncodings` | internal/codec/json_value.go:18-50 | a text equals its own re-encoding if and only if some value encodes to it |
| `JsonProofs.ParsedIsCanonical` | internal/codec/json_value.go:52-116 | what the token reader returns is valid, within the limit and already normalised |
| `JsonCodec.EncodeJSONValue` | internal/codec/json_value.go:40-50 | the recursive buffer writer computes the encoding, including its error cases; what that text is, `JsonTexts` says kind by kind |
| `JsonCodec.EncodeInto` | internal/codec/json_value.go:118-176 | writing at a depth succeeds if and only if the value fits there, and appends exactly its encoding |
| `JsonCodec.DecodeJSONValue` | internal/codec/json_value.go:18-38 | the token reader computes the decoding, trailing input and duplicate keys refused |
| `JsonCodec.Decoder.ReadValue` | internal/codec/json_value.go:52-116 | reading a value consumes exactly what the parser specification consumes |
| `EventStore.Connection.InsertEvent` | internal/store/sqlite/store.go:543-557 | a row is inserted if and only if it is canonical, its id and position are unused and its aggregate exists, or the storage failed |
| `EventStore.Connection.EventByID` | internal/store/sqlite/store.go:457-478 | finds whether an id is in use |
| `EventLog.DeletedKeepsLog` | internal/store/sqlite/store.go:559-571 | deleting an aggregate leaves neither its sequence row nor any of its events, every other aggregate as it was, and all logs whole |
| `EventStore.ValidateRow` | internal/store/sqlite/store.go:617-645 | decides whether a row has proper identities and canonical object bytes |
| `EventOutcomes.PublishExactly` | internal/event/service.go:431-535 | told by the log alone: a durable publication succeeds if and only if payload and metadata encode, the type may be bound, the id is unused, the log is not full and neither projector nor hook refuses; then the event is next in the log, exactly its row is added, the owner stays and exactly it is announced; otherwise tables and observers are as they were |
| `EventOutcomes.PublishLiveExactly` | internal/event/service.go:431-489 | a live publication is announced exactly when it is well formed and brings no hook, and touches no table |
| `EventOutcomes.ReplayExactly` | internal/event/service.go:541-672 | told by the log alone: the place of the row decides (held, next, gap or foreign); it is announced if and only if a row was added and `Publish` is set |
| `EventOutcomes.ReplayAllExactly` | internal/event/service.go:677-747 | a chunk goes ahead if and only if every entry is well formed, of the first one's aggregate and one position further, and no two definitions contradict each other or those bound; then all are bound, and otherwise nothing changes |
| `EventOutcomes.BindsExactly` | internal/event/service.go:779-801 | definitions are bound together if and only if they agree, and then exactly they are added |
| `EventOutcomes.ClaimExactly` | internal/event/service.go:333-360 | a claim gives an existing aggregate its new owner and changes nothing else |
| `EventOutcomes.RemoveExactly` | internal/event/service.go:363-379 | a removal takes the aggregate's sequence row and all its events, and nothing else |
| `ServiceObject.Service.BindDefinitions` | internal/event/service.go:779-801 | all definitions of a chunk become bound or none does |
| `ServiceObject.Service.Publish` | internal/event/service.go:431-535 | does what the publication specification says, which is `EventOutcomes.PublishExactly`, or leaves tables and observers alone after a storage failure; definitions stay bound |
| `ServiceObject.Service.Replay` | internal/event/service.go:541-672 | does what the replay specification says, which is `EventOutcomes.ReplayExactly`: stale and equal is a no-op that may bring the first owner, foreign is skipped, a gap or divergence is refused |
| `ServiceObject.Service.ReplayAll` | internal/event/service.go:677-747 | checks the whole chunk and binds all its definitions first; a storage failure then leaves what replaying some first entries leaves, from where a retry reaches the full outcome |
| `ServiceObject.Service.Claim` | internal/event/service.go:333-360 | changes the owner of an existing aggregate and nothing else |
| `ServiceObject.Service.Remove` | internal/event/service.go:363-379 | removes one aggregate and nothing else |
| `EventLog.ReachableLogs` | internal/event/service.go:343-378 | after every run of commands and failed writes each log holds exactly 0..latest, ids are unique and rows canonical |
| `EventLog.EveryRunKeepsLog` | internal/event/service.go:484-664 | the log invariant is kept by every run from any state that has it; all sequence sums are proved to fit 64 bits |
| `EventLog.AggregateOverRun` | internal/event/service.go:484-664 | in a run that neither claims nor removes an aggregate its rows stay, it only grows, and an owner once there stays |
| `EventLog.NextKeepsLog` | internal/event/service.go:343-664 | the same for one step that ends anywhere |
| `StoredEvents.RowRoundTrip` | internal/event/service.go:937-959 | a recorded row decodes to the event it recorded, up to its metadata, and would be accepted again under its definition |
| `StoredEvents.VersionedTypeSplits` | internal/event/service.go:45-50 | the last dot of a versioned type separates its name from its version |
| `StoredEvents.ReachableRowsReplay` | internal/event/service.go:937-959 | every row of a reachable store decodes and can be replayed under the definition bound to its type |
| `Replication.RetryReachesTheSameState` | internal/event/service.go:674-747 | a chunk that stopped after any entry can be replayed whole: state, notifications and result are those it would have had |
| `Replication.SettledStays` | internal/event/service.go:595-664 | a row that was replayed stays a no-op while other rows of its aggregate are replayed |
| `Convergence.ReplicationConverges` | internal/event/service.go:595-747 | replaying a store's decoded history into a store with a compatible log, owner, ids and bindings yields byte for byte the longer log, up to the first new row that a projector of the target refuses, and ends well exactly when there is none; no other log changes; with `Publish` the rows that were new are announced, in order, and without it nothing is |
| `Convergence.PageMerges` | internal/event/service.go:595-664 | the same for any page of the history that starts at or before the end of the target's log, whatever the projectors refuse, announcements included |
| `Convergence.ForeignChunkChangesNothing` | internal/event/service.go:607-631 | a chunk for an aggregate with a foreign owner changes no table and notifies no one |
| `Convergence.DivergentChunkIsRefused` | internal/event/service.go:611-620 | a chunk with an entry that differs from the log ends in an error and adds no row |
| `DurableTail.EveryRunDeliversInOrder` | internal/event/service.go:885-935 | under every interleaving of commits, notifications, wakes, reads and deliveries the delivered events are exactly those between start and cursor, and an idle subscriber behind an announced row has a wake pending or a notification owed |
| `DurableTail.QuietMeansCaughtUp` | internal/event/service.go:403-427 | when the last commit notified and nothing is left to do, a subscriber has received everything, whatever earlier commits kept silent |
| `DurableTail.LeftAloneCatchesUp` | internal/event/service.go:892-935 | a subscriber that was woken or still reads, left to itself, always has a move until it rests, makes a bounded number of them, and has then received the whole log |
| `DurableTail.SeenExactlyWhenNotified` | internal/event/service.go:668-670 | a row committed while a subscriber rests before it has arrived, whenever that subscriber rests again, if and only if its commit notified; anything but another notifying commit may happen in between |
| `DurableTail.SilentCommitIsMissed` | internal/event/service.go:668-670 | such a run exists: a replay that does not publish leaves a row behind an idle subscriber with no wake pending and nothing owed |
| `DurableTail.ServiceLogsGrow` | internal/event/service.go:484-664 | the logs that the service writes are what a tail assumes: decodable, contiguous and append-only |
| `DurableTail.Tail.Drain` | internal/event/service.go:892-921 | the reading loop terminates and emits exactly the decoded rows in order; it ends well only after a read that left nothing unread, and gives up only for a failed read, an over-long batch or a cancelled delivery |
| `DurableTail.History.Page` | internal/store/sqlite/store.go:347-391 | the loop over the rows after the cursor collects one contiguous slice of the log, and fails exactly when the read fails or the limit is too long |
| `DurableTail.PageContinues` | internal/store/sqlite/store.go:347-391 | a page holds the rows right after the cursor, at most the limit, and is short only at the end of the log |
| `RebuildEqualsLive.RebuildEqualsLive` | internal/store/sqlite/rebuild.go:112-150 | for every run without Remove and a projector of stored fields that commutes across aggregates, folding the log by aggregate and sequence gives the live projection |
| `RebuildEqualsLive.TracesDecideTheFold` | internal/store/sqlite/rebuild.go:112-150 | two orders with the same rows per aggregate fold to the same projection |
| `RebuildEqualsLive.RunTells` | internal/event/service.go:509-513 | after every step of a run the live projection is the fold of the rows in commit order: each step's history holds every log and only extends the one before |
| `RebuildEqualsLive.RebuildingReachableChangesNothing` | internal/store/sqlite/rebuild.go:102-178 | rebuilding a store that the service maintained finds it sound and replaces the projection by itself |
| `Rebuild.RebuildProjection` | internal/store/sqlite/rebuild.go:48-179 | returns a summary only with the new projection committed; on any failure what is committed is unchanged |
| `Rebuild.RebuildsExactly` | internal/store/sqlite/rebuild.go:102-178 | a rebuild succeeds if and only if the name is proper, the tables are sound, every row is valid and projected in turn from the fresh shadow, and no callback refuses; only the projection changes, to what the swap leaves |
| `Rebuild.ProjectRows` | internal/store/sqlite/rebuild.go:119-157 | the row loop folds the projector and computes counts, maximum and hashed bytes; runs of aggregates are the distinct aggregates |
| `Rebuild.MaximumIsLargest` | internal/store/sqlite/rebuild.go:141-143 | the summary's maximum is the largest sequence, or -1 |
| `Fingerprint.FingerprintInjective` | internal/store/sqlite/rebuild.go:247-262 | the bytes fed to the hasher determine the list of events |
| `Fingerprint.RowCut` | internal/store/sqlite/rebuild.go:247-262 | a row's framed bytes can be read back in front of anything |
| `Fingerprint.RowLayout` | internal/store/sqlite/rebuild.go:247-262 | a row is read back as id, aggregate, sequence, type and data in this order, lengths and sequence as big-endian 64-bit words, the sequence in two's complement |
| `Fingerprint.Hasher.WriteEvent` | internal/store/sqlite/rebuild.go:247-255 | the hasher is fed length-prefixed fields and the sequence as a big-endian word |
| `Integrity.RangeTestIsExact` | internal/store/sqlite/integrity.go:280-302 | minimum 0, maximum and count test passes if and only if the sequences are exactly 0..latest |
| `Integrity.CheckIntegrity` | internal/store/sqlite/integrity.go:129-144 | the report is healthy if and only if the tables are sound, and names exactly the offending rows and aggregates |
| `Integrity.CollectSequences` | internal/store/sqlite/integrity.go:244-310 | both queries together name every aggregate whose sequence row does not hold |
| `Integrity.ReachableTablesAreSound` | internal/store/sqlite/integrity.go:205-302 | every state the event service can reach passes the check |
| `Integrity.SoundTablesAreLogs` | internal/store/sqlite/integrity.go:205-302 | the log invariant holds if and only if tables of valid, uniquely identified rows are sound |
| `Writer.EveryRunIsSafe` | internal/store/sqlite/store.go:261-345 | over all interleavings of Write, rebuild and Close: token free and not broken means autocommit, an open transaction belongs to the token holder, a write succeeds if and only if its COMMIT took effect |
| `Writer.NothingRunsAfterBroken` | internal/store/sqlite/store.go:274-290 | no statement runs once the store is broken or its connection freed, and BEGIN only meets autocommit |
| `Writer.CloseFreesWhenIdle` | internal/store/sqlite/store.go:393-420 | once the connection is freed no operation holds the token, ever |
| `Writer.LateWritesFail` | internal/store/sqlite/store.go:271-276 | a write that enters after closing or breaking fails whatever happens in between |
| `Writer.OperationsAreShort` | internal/store/sqlite/store.go:261-345 | under every interleaving an operation takes at most ten steps |
| `Writer.NeverStuck` | internal/store/sqlite/store.go:261-276 | no deadlock: an operation that is not over can step, or another one holds the token and can step, or the store is closed for good and its wait ends in failure |
| `Writer.AloneIsWrite` | internal/store/sqlite/store.go:261-345 | the step relation and the single operation agree: a write that meets nobody commits, breaks the store and returns the token exactly as `Store.Write` says |
| `Writer.MoveKeeps` | internal/store/sqlite/rebuild.go:64-100 | every single step keeps the writer invariant |
| `Writer.Store.RollBack` | internal/store/sqlite/store.go:332-345 | a clean-up succeeds if and only if ROLLBACK works, or there was nothing left to end and a probe transaction begins and ends |
| `Writer.Store.Write` | internal/store/sqlite/store.go:261-325 | succeeds if and only if it is admitted and BEGIN, callback and COMMIT go well; the store breaks if and only if a failed write could not prove autocommit; the token is always returned |
| `Migration.PlanAcceptsExactlyPrefixes` | internal/store/sqlite/migration.go:347-367 | a plan exists if and only if the applied rows are a prefix of the catalog, and is the rest of it |
| `Migration.PlanRefuses` | internal/store/sqlite/migration.go:347-367 | a refused database has a first row that differs from the catalog: a checksum error under the same id, a downgrade otherwise, rows beyond the catalog included |
| `Migration.ValidatedIsACatalog` | internal/store/sqlite/migration.go:416-444 | a validated catalog has well-formed, strictly increasing ids and filled checksums |
| `Migration.ValidatesExactly` | internal/store/sqlite/migration.go:416-444 | a catalog is accepted, checksums filled in, if and only if it is not empty and every script is proper; a refusal is about the first script that is not, and a checksum error only where nothing else is wrong |
| `Migration.ValidateMigrationCatalog` | internal/store/sqlite/migration.go:416-444 | accepts exactly the catalogs without a faulty script, reporting the first fault |
| `Migration.PlanMigrations` | internal/store/sqlite/migration.go:347-367 | computes the plan or the first mismatch |
| `Migration.EveryRunAppliesAPrefix` | internal/store/sqlite/migration.go:219-302 | for any number of migrators and failures the table is a prefix of the catalog, each script ran exactly once in order, committed counts sum to the rows added, and a migrator that returned well saw the catalog complete |
| `Migration.RetryCompletes` | internal/store/sqlite/migration.go:372-414 | a migrator that meets no failure never returns an error, and after one move for each migration and two more has ended well with the whole catalog applied, whatever others did and however they failed |
| `Migration.ApplyMigrations` | internal/store/sqlite/migration.go:372-414 | a migrator on its own: the count is what the prefix grew by, with or without an error; without one the catalog is complete, and a valid catalog meets one only when a statement fails |
| `Migration.Backend.ApplyMigration` | internal/store/sqlite/migration.go:219-302 | BEGIN, lookup, script, row and COMMIT as statements that may each fail: script and row are committed together, or the database is as it was |
| `StaticEval.EvaluatesExactlyTheDerivable` | internal/baseline/typescript_semantic.go:512-590 | from no name visited, evaluation yields s if and only if the expression has a finite derivation to s, on every environment, cyclic ones included |
| `StaticEval.Complete` | internal/baseline/typescript_semantic.go:537-548 | the cycle guard never refuses an expression that has a derivation |
| `StaticEval.Sound` | internal/baseline/typescript_semantic.go:512-590 | every value evaluated has a derivation, whatever is being visited |
| `StaticEval.Deterministic` | internal/baseline/typescript_semantic.go:512-549 | an expression has at most one value |
| `StaticEval.Evaluator.EvaluateStatic` | internal/baseline/typescript_semantic.go:512-549 | terminates, leaves the visiting set as it found it, and computes the specified value |
| `Tokens.MatchIsFirstBalance` | internal/baseline/typescript_semantic.go:321-338 | the match of a bracket is the first place where the brackets balance, -1 if there is none |
| `Tokens.MatchToken` | internal/baseline/typescript_semantic.go:321-338 | the scanning loop computes that match |
| `Tokens.PiecesSplit` | internal/baseline/typescript_semantic.go:340-367 | the pieces, put together with the separators between them, are the tokens; no piece holds a separator outside brackets, and brackets are closed at every cut |
| `Tokens.OnlySplit` | internal/baseline/typescript_semantic.go:340-367 | no other list of pieces has these properties |
| `Tokens.TrimLeaves` | internal/baseline/typescript_semantic.go:369-383 | trimming takes off separators on both sides, then every trailing as const, then every pair of parentheses around all that is left, and nothing else |
| `Tokens.NameIsAsWritten` | internal/baseline/typescript_semantic.go:592-605 | a name is found exactly in identifiers with dots between them, and is those tokens as written |
| `Tokens.SplitTopLevel` | internal/baseline/typescript_semantic.go:340-367 | the splitting loop computes the trimmed pieces |
| `Tokens.TrimTokens` | internal/baseline/typescript_semantic.go:369-383 | the four trimming loops compute the trimmed tokens |
| `Tokens.DottedName` | internal/baseline/typescript_semantic.go:592-605 | accepts exactly identifiers joined by dots |
| `Jsonc.StripComments` | internal/config/value.go:33-90 | the in-place loop computes the stripped text, failing exactly on an unterminated block comment |
| `Jsonc.StrippedBytes` | internal/config/value.go:33-90 | length and newlines stay, bytes of strings are untouched, every other byte is kept or blanked |
| `Jsonc.StrippedTwice` | internal/config/value.go:33-90 | stripping comments is idempotent |
| `Jsonc.StrippingKeepsTokens` | internal/config/value.go:33-90 | the stripped text lexed as plain JSON has the tokens of the input lexed with comments |
| `Jsonc.StripTrailingCommas` | internal/config/value.go:92-124 | the in-place loop blanks exactly the commas outside strings whose next visible byte closes |
| `Jsonc.TrailingCommasDropped` | internal/config/value.go:92-124 | on tokens: exactly the commas right before a closing token disappear |
| `Jsonc.IdempotentUnlessDoubled` | internal/config/value.go:92-124 | a second pass changes nothing if and only if no trailing comma stands right behind another comma |
| `Jsonc.DoubledExample` | internal/config/value.go:92-124 | `,,]` loses one comma at each pass |
| `Pointers.PointerInjective` | internal/config/value.go:302-305 | distinct key paths have distinct pointers |
| `Pointers.PointerReadsBack` | internal/config/value.go:302-305 | a pointer read as RFC 6901, section 4, says gives back its path |
| `Pointers.UnderIsPrefix` | internal/config/value.go:294-300 | the string test of `clearOrigins` selects exactly the paths at or under the given one |
| `ConfigMerge.Provenance` | internal/config/value.go:232-292 | every scalar or array of the merged value has as origin the last layer that defines its path, and that layer's value, joined instructions apart |
| `ConfigMerge.Survives` | internal/config/value.go:232-267 | conversely, a leaf of a layer is in the merged value when no later layer defines its path or puts anything but objects above it |
| `ConfigMerge.NoDanglingOrigins` | internal/config/value.go:284-300 | every origin points at a part that exists and that its layer defines |
| `ConfigMerge.ObjectsKeepAnEntry` | internal/config/value.go:284-292 | the entries beside those of the leaves, exactly: an object below the root has one if and only if it was empty when a layer put it there and has been an object ever since; the entry names that layer |
| `ConfigMerge.OnceEmptyKeepsItsOrigin` | internal/config/value.go:284-292 | such an object exists: empty in one layer and filled by the next |
| `ConfigMerge.InstructionsJoin` | internal/config/value.go:247-282 | one instructions list stays as it is; several become the distinct items of all, in order of first appearance |
| `ConfigOrigins.Origins.MergeValues` | internal/config/value.go:232-267 | the merge over a mutable map of pointers, keys in any order, computes the merged value and every path's new origin |
| `ConfigOrigins.Origins.Clear` | internal/config/value.go:294-300 | removes the entries at or under a path and no other |
| `ConfigOrigins.Origins.Set` | internal/config/value.go:284-292 | records a source at the leaves and empty objects of a value |
| `ConfigResolve.OrderedIsStable` | internal/config/config.go:100-103 | sources are in order of precedence and keep their order within each |
| `ConfigResolve.Resolve` | internal/config/config.go:99-171 | the loop yields the merged layers with their references and every path's origin, or the first error in order; which source wins is `ConfigSources.ResolvedProvenance` |
| `ConfigSources.ResolvesExactly` | internal/config/config.go:99-171 | a resolution succeeds if and only if every source loads, its kind is one of the nine and its id is neither empty nor another one's |
| `ConfigSources.ResolvedProvenance` | internal/config/config.go:99-171 | each leaf of a resolved configuration has the value and the origin of one of the sources as given; every other source that has something there is of a kind earlier in the list of kinds, or of the same kind and given earlier; theme, keybinds and tui are gone |
| `ConfigSources.LeavesSurvive` | internal/config/config.go:99-171 | a leaf of a source is in the resolved configuration when every source that follows it in that order is silent about it |
| `ConfigSources.RanksArePrecedences` | internal/config/config.go:300-323 | the list of kinds, from Remote to ManagedPreference, orders them as the precedence numbers do, and no other kind has one |
| `ConfigResolve.Manager.Reload` | internal/config/config.go:272-289 | the generation advances only with a successful resolution; the snapshot, its origins included, is what the last success resolved |
| `Identifier.OrderedExactlyWhenKeepingUp` | internal/domain/id.go:144-177 | with a clock that never goes back, inside one window of the 48 bits wherever it lies, time parts strictly increase, and complemented ones decrease, if and only if no burst exceeds 4096 identifiers per millisecond that then passes |
| `Identifier.OrderedExactlyWithoutWrap` | internal/domain/id.go:144-177 | for a run shorter than the window the order holds if and only if it keeps up and does not cross from one window into the next |
| `Identifier.FourThousandKeepUp` | internal/domain/id.go:155-160 | at most 4096 identifiers in a millisecond always keep up |
| `Identifier.OneMoreCollides` | internal/domain/id.go:159-163 | the bound is tight: the 4097th identifier of a millisecond equals the first of the next |
| `Identifier.HexOrder` | internal/domain/id.go:164-166 | hexadecimal digits of one length compare as their numbers |
| `Identifier.Generator.Create` | internal/domain/id.go:144-177 | the clock and counter state after each call, and the identifier made from it |

## Left out

- SQL text, driver error codes, pragmas, data source names, backups and directory syncs: statements are operations on maps that may fail; deletion of an aggregate cascades to its events and (aggregate, sequence) and id are unique, as the schema declares.
- SHA-256 and the catalog checksum: the bytes fed to the hash are modelled, the digest of a migration is a parameter.
- Invalid UTF-8 input to the JSON and configuration decoders, which both refuse before anything else.
- Request projection, HTTP, credentials, line framing of server-sent events, and the OpenAI and Anthropic adapters; a frame is what the adapter reads from it.
- Metadata, usage and tool results inside stream events: whether they encode is a flag of the event, since they take no part in ordering.
- A sink error that itself wraps an attempt error, which `errors.As` would find inside an adapter error.
- Live subscriptions, listeners and their panics: only the list of notified events is modelled, in the order one service object hands them on.
- The location of an event envelope, which is copied and never looked at.
- `DurableTail.EveryRunDeliversInOrder`: removal of the aggregate while it is tailed is not a step, because the cursor would then promise nothing.
- `RebuildEqualsLive.RebuildEqualsLive`: the projectors are registered before the run and hooks leave the projection alone.
- `Rebuild.RebuildProjection`: the hash value and the shadow tables that remain after a swap.
- `Integrity.CheckIntegrity`: `PRAGMA quick_check` and column types, and the database's `json()`, which is a parameter assumed to leave canonical objects as they are.
- `Writer.Store.Write`: a single uncontended operation; the interleavings are in the step relation of the same module.
- `Migration.EveryRunAppliesAPrefix`: one ApplyMigration is one atomic step, which `Migration.Backend.ApplyMigration` proves of its statements when nobody else writes in between, as its immediate transaction makes sure; a COMMIT that reports failure commits nothing.
- `ConfigResolve.Resolve`: reading, `{env:}` and `{file:}` substitution, parsing and the table of allowed top-level keys are summed up in a source's load; cancellation between sources is left out.
- `Tokens.SplitTopLevel`: template tokens carry their parts; scanning source text into tokens, comments inside template holes included, is not part of this model.
- Typed codecs for messages, permissions, questions and cursors, and everything around git, worktrees, processes, telemetry and the command line: copying and plumbing with little to prove.
