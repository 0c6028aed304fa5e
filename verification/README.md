# yikv: a verified model of its hard parts

yikv is a key-value store served over RPC, filled by a parallel import pipeline or by Kafka streams, and
hot-reloaded table by table. Its requests travel as FlatBuffers. This project models the parts of the
repository whose correctness rests on arguments across functions and threads, and proves those arguments.

`dafny verify dfyconfig.toml` checks everything.

## How the model is laid out

**FlatBuffers codec.** `Bytes` and `Wire` are the scalars and the accessors of `table.h`. `VectorDownward` is
the buffer that grows down while its scratch stack grows up, on a real array. `Builder` is the class
`FlatBufferBuilder` over it; every one of its methods is proved equal to the step of the same name in
`BuilderSpec`, a function from one builder state to the next. `Layout` says what it means for bytes to hold a
string, vector or table; `BuilderInv`, `BuilderTables` and `BuilderRuns` prove that every call, in every
well-nested sequence, keeps every finished object readable as it was written, through growth, padding and
popped duplicate vtables. `Verifier` is the verifier as functions whose reads outside the buffer are a
`Fault`, `VerifierMethods` the same as the class that counts depth and tables and loops over vectors;
`VerifierSound` and `VerifierExact` say what it means for any bytes that they pass.
`Accepted`, `ReadsBack` and `Finished` close the triangle of builder, verifier and accessors; `BuilderCalls`
carries it over to whole sequences of calls on a builder object; `FieldRuns` is about single fields over whole
runs, `Requests` about the RPC messages, and `RequestBytes` writes one of them out, byte by byte.

**Hot reload.** `Registry` is a state machine: any number of threads inside `LoadTable` and `ReloadTable`, each
lock section and each foreign call one step that works, fails or throws, with the exit the code takes each
time, next to requests that acquire, copy and release handles. An index that is opened gets a generation, so
that a slot is named by the index it serves. `RegistryInv`, `RegistrySteps` and `RegistryOpens` hold the
invariant, `RegistrySafe`, `RegistryConsumers`, `RegistryOutcomes`, `RegistryNames` and
`RegistryProgress` the results, `RegistryRuns` two runs.

**Import.** `Import` is the state machine of claiming workers, bounded queue, writer and main thread, with the
two wait sets and spurious wake-ups; `ImportInv`, `ImportRuns`, `ImportEnds`, `ImportQueue` and `ImportErrors`
hold the invariant and the results, `KvWrite` the writer's chunked loops; `ImportRows` joins the two, so that a write fails exactly if its
batch cannot be written. `Mysql` is the MySQL source, `BucketBits` the sizing of a new index.

**Stream ingest and Kafka.** `Ingest` and `IngestOps` are the document operations, imperative and as functions
on a map from keys to documents; `Replay` is about applying messages again, wholly or in part, and
`ReplayLimits` about where that goes wrong. `Kafka` holds the loops of the consumer and of catch-up;
`KafkaCrashes` is the state machine of both over their offset file, in any order and with stops, errors, failed
saves and crashes, and counts what is taken up; `KafkaStores` says what is in the store then. `Handlers` is the
RPC side.

**Small codecs.** `Utf8`, and FlexBuffers in four modules: `Flex` chooses widths and writes vectors, `FlexTree`
reads, `FlexMaps` sorts and looks keys up, `FlexBuilder` is the builder.

Integers are unbounded in Dafny. Where the source's width matters it is written out: 16-bit vtable sizes and
32-bit offsets that wrap, `size_t` subtraction modulo 2^64, 64-bit clamping of parsed integers.

## What came out

The results to start from are `Finished.FinishedRun`, `VerifierSound.VerifierSoundness` and
`VerifierExact.VerifierExactly` for the codec, `RegistrySafe.CloseIsSafe`, `RegistryProgress.AlwaysServed` and
`RegistryConsumers.LiveConsumer` for hot reload, `ImportEnds.AlwaysEnds`, `ImportErrors.ErrorsAreReported` and
`ImportRows.EveryRowOnce` for the import, `KafkaCrashes.TimesTaken` and `KafkaStores.RewindsDoNotShow` for
streams, `Handlers.HandlePutBatch` for requests, `Utf8.DecodesExactly` and `FlexBuilder.Builder.Finish` for the
small codecs.

These properties turned out not to hold everywhere, and the model says exactly where they do:

- `FieldIndexToOffset` lets index 32765 through, whose slot 65534 makes the 16-bit vtable size wrap to zero. A
  slot works if and only if it is at most 65532 (`FieldRuns.SlotsThatFit`, `FieldRuns.LastIndexBreaks`).
- `ensure_space` asserts on the size before the new bytes, so any last write that is too long passes the limit;
  it is kept if and only if that write fits (`VectorDownward.LimitKept`, `VectorDownward.PushPastLimit`).
- The verifier's alignment check looks at the length of a vector, not at its elements: elements of eight bytes
  pass unaligned if and only if the length does not lie between two places for them
  (`VerifierExact.ElementsAligned`, `VerifierExact.MisalignedElementPasses`).
- `ToTypedVector` accepts keys, strings and booleans for vectors of fixed length, but the type it gives them is
  read back as something else; only numbers survive (`FlexTree.FixedTypes`).
- FlexBuffers `Clear` keeps `has_duplicate_keys_` (`FlexBuilder.Builder.Clear`).
- `CopyDocFromSchema` loses boolean arrays, and nothing else (`Ingest.CopyPreserves`).
- The consumer's header says a `_ts` member counts if the schema has such a field; the code always skips `_op`
  and `_ts`. The code is followed: with a primary key of such a name a new document is filed under the key its
  message names if and only if that is the default (`IngestOps.NewFiledUnderPk`, `IngestOps.ControlKeyMisfiles`).
- In a table keyed by `_ts`, replay is safe if and only if no key but the default one has a document
  (`ReplayLimits.TsReplayExactly`): an upsert and a deletion of any other one, as RPCs put them, leave a document
  behind that was never there (`ReplayLimits.TsReplayFails`, `ReplayLimits.ControlKeyReplay`). In a table keyed
  by `_op`, where operation and key are one text, it is safe in all stores that puts and messages lead to
  (`ReplayLimits.OpReplay`). In both it is safe as long as no such key is both removed and written.
- Replaying an applied UPSERT is harmless if and only if it appends to no array or did not come to lie under the
  key it names (`ReplayLimits.UpsertReplay`).
- A message can be cut off anywhere and applied again if it holds no UPSERT that is applied and appends, and
  disturbs the key of no INSERT that throws when there is something to insert (`Replay.CrashReplay`). Such an
  UPSERT breaks it by itself (`ReplayLimits.UnsafeShows`). Such an INSERT is skipped while its key exists but
  throws once a later DELETE has removed it, and the rest of the message is lost
  (`ReplayLimits.ThrowingInsertLoses`).
- Catch-up is to start at the first message not older than the watermark. It does if and only if there is one or
  the log is empty; with nothing newer it starts over at the first message of all, although its header speaks of
  the high watermark (`Kafka.CatchupStartsRight`). The code is followed.
- A consumer repeats no more than the one message in flight, as long as it can write its offset; catch-up saves
  at its end, and what it took up since its start is repeated if it dies (`KafkaCrashes.WhatIsLost`).
- Rewinding is harmless as long as every session starts at or before the message the last one ended at
  (`KafkaStores.RewindsDoNotShow`); past it there always are messages for which it is not
  (`KafkaStores.OutOfLineShows`). A consumer starts in line unless a catch-up run died before it was back at the
  saved offset (`KafkaCrashes.EndsInLine`); then it finds nothing to do, and the store stays behind
  (`KafkaStores.DeadCatchupShows`).
- RPC puts can fill a table if and only if its key is a boolean, an integer or a string; tables keyed by bytes
  take messages, but no puts (`Handlers.PutsByKeyType`). A row read back can be put again if and only if the
  table has no array of booleans or bytes (`Handlers.PutBackAccepted`).
- A 64-bit integer column of a MySQL source is clamped silently when its text is out of range; a 32-bit one is
  refused (`Mysql.IntegersKept`).
- `ReloadTable("a/b")` for an unknown name opens `"b"`, since `LoadTable` takes the file name of the path; a
  load registers the name it was asked for if and only if that has no slash (`RegistryNames.RegistersLeaf`,
  `RegistryRuns.PathOpensLeaf`).
- An exception out of `BuildSlotAfterOpen`, where a consumer's thread is started, or out of the last
  `CloseIndex` leaves a DB key open with no call under way. A table at rest has just its live key open if and
  only if this has not happened since the other one was last closed (`RegistrySafe.OneKeyAtRest`,
  `RegistrySafe.LeftIs`, `RegistrySafe.BuildThrows`, `RegistryRuns.ThrowLeavesBoth`).

## Model

| member | source | states |
|---|---|---|
| `Bytes.DecodeEncode` | deps/include/flatbuffers/base.h:424-449 | a little-endian scalar that fits its width reads back |
| `Bytes.EncodeDecode` | deps/include/flatbuffers/base.h:424-449 | any bytes are the encoding of the scalar they read as |
| `Bytes.EncodedByte` | deps/include/flatbuffers/base.h:416-436 | byte `i` of a scalar is its value shifted right by `i` bytes, so that the least significant one comes first |
| `Wire.ScalarBytes` | deps/include/flatbuffers/base.h:416-428 | a scalar is read exactly where all its bytes are in the buffer, as the first plus 256 times the second and so on |
| `Wire.ElemAt` | deps/include/flatbuffers/vector.h:175-178 | element `i` of a vector lies `i` widths into its data |
| `Bytes.PaddingBytes` | deps/include/flatbuffers/base.h:458-460 | the padding aligns and is smaller than the alignment |
| `Bytes.PaddingIsLeast` | deps/include/flatbuffers/base.h:458-460 | no smaller padding aligns |
| `VectorDownward.ReallocateDownward` | deps/include/flatbuffers/allocator.h:41-63 | both ends in use are copied, each to its own end of the larger allocation |
| `VectorDownward.Vector.Reallocate` | deps/include/flatbuffers/vector_downward.h:269-284 | growth leaves the data and the scratch contents as they were and makes the room asked for; the buffer grows by half at least, to a multiple of its alignment, and not further |
| `VectorDownward.Vector.EnsureSpace` | deps/include/flatbuffers/vector_downward.h:141-148 | afterwards there is room, and neither sequence has changed |
| `VectorDownward.Vector.MakeSpace` | deps/include/flatbuffers/vector_downward.h:150-157 | room in front of the data; bytes keep their offset from the end |
| `VectorDownward.Vector.Push` | deps/include/flatbuffers/vector_downward.h:195-203 | new bytes in front of the old data, scratch untouched, let through as the assertion on the size before says |
| `VectorDownward.Vector.Fill` | deps/include/flatbuffers/vector_downward.h:213-216 | zeros in front of the old data, scratch untouched |
| `VectorDownward.Vector.Pop` | deps/include/flatbuffers/vector_downward.h:224-227 | the front bytes go, the rest and the scratch stay |
| `VectorDownward.Vector.ScratchPush` | deps/include/flatbuffers/vector_downward.h:205-209 | new bytes on top of the scratch, data untouched even if the buffer grows |
| `VectorDownward.Vector.ScratchPop` | deps/include/flatbuffers/vector_downward.h:229-229 | the top of the scratch goes, data untouched |
| `VectorDownward.LimitKept` | deps/include/flatbuffers/vector_downward.h:141-148 | over any number of writes, the limit is kept if and only if the last write fits, which the assertion does not look at |
| `VectorDownward.PushPastLimit` | deps/include/flatbuffers/vector_downward.h:141-157 | whatever the limit, a first push longer than it is let through and passes it |
| `Builder.FlatBufferBuilder.PushElement` | deps/include/flatbuffers/flatbuffer_builder.h:309-314 | the element in front, aligned as specified, the least significant byte first |
| `Builder.FlatBufferBuilder.AddElement` | deps/include/flatbuffers/flatbuffer_builder.h:332-336 | the bytes, the scratch pad and the fields change as the specified step says, a default being elided unless forced; what is written lies in front, the least significant byte first |
| `Builder.FlatBufferBuilder.AddOffset` | deps/include/flatbuffers/flatbuffer_builder.h:342-345 | as specified, a null reference adding nothing |
| `Builder.FlatBufferBuilder.WriteVTable` | deps/include/flatbuffers/flatbuffer_builder.h:417-450 | the loop over the scratch pad writes the specified vtable in front of the data |
| `Builder.FlatBufferBuilder.FindVTable` | deps/include/flatbuffers/flatbuffer_builder.h:452-468 | finds a recorded vtable with the same bytes if and only if there is one |
| `Builder.FlatBufferBuilder.EndTable` | deps/include/flatbuffers/flatbuffer_builder.h:417-483 | ends the table as specified, referring to an equal older vtable and popping the new one if there is one, and returns where the table is |
| `Builder.FlatBufferBuilder.CreateString` | deps/include/flatbuffers/flatbuffer_builder.h:1374-1379 | length, characters, terminator and padding as specified |
| `Builder.FlatBufferBuilder.CreateVector` | deps/include/flatbuffers/flatbuffer_builder.h:737-761 | elements and length as specified |
| `Builder.FlatBufferBuilder.CreateVectorOfOffsets` | deps/include/flatbuffers/flatbuffer_builder.h:785-789 | references to the targets and their number as specified |
| `Builder.FlatBufferBuilder.CreateVectorOfStrings` | deps/include/flatbuffers/flatbuffer_builder.h:876-897 | the offsets kept on the scratch pad end up, in order, as the references |
| `Builder.FlatBufferBuilder.CreateSharedString` | deps/include/flatbuffers/flatbuffer_builder.h:603-622 | a string known already is popped again and its older offset returned |
| `Builder.FlatBufferBuilder.Finish` | deps/include/flatbuffers/flatbuffer_builder.h:1257-1282 | pads for the root offset and writes it as specified |
| `Builder.FlatBufferBuilder.Clear` | deps/include/flatbuffers/flatbuffer_builder.h:167-175 | the state of a new builder, but for the settings and the memory kept |
| `BuilderInv.AlignKeeps` | deps/include/flatbuffers/flatbuffer_builder.h:288-291 | aligned afterwards, nothing added if it was, everything older readable |
| `BuilderInv.PreAlignKeeps` | deps/include/flatbuffers/flatbuffer_builder.h:515-521 | aligned once `len` more bytes are written, nothing added if it would be anyway |
| `BuilderInv.PushElementKeeps` | deps/include/flatbuffers/flatbuffer_builder.h:309-314 | the element reads back at the front, aligned, and on aligned data without padding in between |
| `BuilderInv.StartVectorKeeps` | deps/include/flatbuffers/flatbuffer_builder.h:676-683 | once the elements are written, both the length and the elements are aligned, so no padding separates them |
| `BuilderInv.CreateStringKeeps` | deps/include/flatbuffers/flatbuffer_builder.h:1374-1379 | the string reads back and everything older still does |
| `BuilderInv.CreateVectorKeeps` | deps/include/flatbuffers/flatbuffer_builder.h:737-761 | the vector reads back, length next to elements, and everything older still does |
| `BuilderInv.CreateVectorOfOffsetsKeeps` | deps/include/flatbuffers/flatbuffer_builder.h:785-789 | every reference leads to its target, and everything older still reads back |
| `BuilderTables.EndTableKeeps` | deps/include/flatbuffers/flatbuffer_builder.h:417-483 | the table reads back with exactly the fields set, whichever vtable it uses, and everything older still does |
| `BuilderTables.EndTableShares` | deps/include/flatbuffers/flatbuffer_builder.h:452-475 | with sharing on, a vtable with the same bytes is used again and none written; otherwise a new one is written and recorded |
| `BuilderRuns.CreateVectorOfStringsKeeps` | deps/include/flatbuffers/flatbuffer_builder.h:876-897 | the vector leads to the strings given, in their order |
| `BuilderRuns.CreateSharedStringKeeps` | deps/include/flatbuffers/flatbuffer_builder.h:603-622 | the offset given out reads as the string, and a known string adds no bytes |
| `BuilderRuns.StepKeeps` | deps/include/flatbuffers/flatbuffer_builder.h:288-1282 | every call keeps every object written before it readable as it was written |
| `BuilderRuns.ObjectsSurvive` | deps/include/flatbuffers/flatbuffer_builder.h:417-483 | over any run, an object reads at the end as it did when it was finished |
| `BuilderRuns.FinishKeeps` | deps/include/flatbuffers/flatbuffer_builder.h:1257-1282 | the root is found, and the total size is a multiple of every alignment used |
| `FieldRuns.ScalarRoundTrip` | deps/include/flatbuffers/table.h:35-48 | in any run, a scalar set once reads back as set, stored or elided, from the end of its table on |
| `FieldRuns.StoredUnlessDefault` | deps/include/flatbuffers/flatbuffer_builder.h:332-336 | in any run, a scalar takes room in its table if and only if it is not the default or defaults are forced |
| `FieldRuns.ReferenceRoundTrip` | deps/include/flatbuffers/table.h:50-60 | in any run, a reference leads to its object, and a null one to the null pointer |
| `FieldRuns.SlotsThatFit` | deps/include/flatbuffers/flatbuffer_builder.h:44-51 | a table with a field in a slot the assertion allows can be ended if and only if the slot is at most 65532 |
| `FieldRuns.LastIndexBreaks` | deps/include/flatbuffers/flatbuffer_builder.h:417-431 | the last index the assertion allows makes the vtable size wrap |
| `VerifierMethods.Verifier.VerifyOffset` | deps/include/flatbuffers/verifier.h:256-269 | reads inside the buffer only; a non-zero answer leads inside the buffer |
| `VerifierMethods.Verifier.VerifyVectorOfStrings` | deps/include/flatbuffers/verifier.h:159-167 | the loop answers as the specification does |
| `VerifierMethods.Verifier.VerifyTableStart` | deps/include/flatbuffers/verifier.h:181-196 | answers and counts as the specification does |
| `VerifierMethods.Verifier.VerifyVectorOfTables` | deps/include/flatbuffers/verifier.h:169-178 | the loop answers and counts as the specification does, at the same depth before and after |
| `VerifierMethods.Verifier.VerifyBuffer` | deps/include/flatbuffers/verifier.h:198-221 | it says yes to exactly the good buffers within the two limits; then every accessor of the schema stays inside the buffer, and every required field is there |
| `VerifierSound.TableStartSound` | deps/include/flatbuffers/verifier.h:181-196 | once it passes, the wrapped-around vtable address is the accessor's and every field offset can be read |
| `VerifierSound.StringSound` | deps/include/flatbuffers/verifier.h:132-156 | once it passes, all characters and the terminator are inside the buffer |
| `VerifierSound.TableSound` | deps/include/flatbuffers/verifier.h:106-196 | for any schema and any bytes, a table that passes can be read completely |
| `VerifierSound.VerifierSoundness` | deps/include/flatbuffers/verifier.h:143-221 | for arbitrary bytes, verification reads inside the buffer only, and once it passes so does every accessor |
| `VerifierExact.TableExactly` | deps/include/flatbuffers/verifier.h:100-196 | for any schema and any bytes, the answer and the counters, from a description of good tables without counters, wrap-around or order of checks and from the tree that is read |
| `VerifierExact.VerifierExactly` | deps/include/flatbuffers/table.h:128-155 | for arbitrary bytes, a buffer passes if and only if it is good and its tree within both limits; then every required field of every table in it is there |
| `VerifierExact.ElementsAligned` | deps/include/flatbuffers/verifier.h:141-157 | of a vector that passes aligned, the elements are aligned if and only if they have up to four bytes or its length lies between two of eight |
| `VerifierExact.MisalignedElementPasses` | deps/include/flatbuffers/verifier.h:141-157 | a buffer that passes with alignment asked for, and has an unaligned element of eight bytes |
| `ReadsBack.TableReads` | deps/include/flatbuffers/table.h:29-60 | reading a table through its schema gives the tree that was written |
| `Accepted.TablePasses` | deps/include/flatbuffers/verifier.h:181-196 | on what was built, the verifier's answer depends on depth and number of tables alone |
| `Finished.FinishSealed` | deps/include/flatbuffers/flatbuffer_builder.h:1257-1282 | a finished buffer is aligned from its start as well as from its end and leads to its root |
| `Finished.SealedAccepted` | deps/include/flatbuffers/verifier.h:198-221 | a sealed buffer is accepted if and only if depth and number of tables are within the limits |
| `Finished.FinishedRun` | deps/include/flatbuffers/verifier.h:181-221 | after any run of calls that ends in Finish, the verifier accepts up to its limits and the reader gets back the tree that was written |
| `BuilderCalls.PerformAll` | deps/include/flatbuffers/flatbuffer_builder.h:288-1282 | a sequence of calls on a builder object ends in the state of the run of the same calls, its memory holding those bytes |
| `BuilderCalls.BuildBuffer` | deps/include/flatbuffers/verifier.h:181-221 | what a client builds and finishes on a new builder passes the verifier up to its limits and reads back as the tree that was written |
| `Requests.MessageSound` | proto/yikv_server.fbs:19-86 | whatever bytes come in for an RPC message, the verifier stays inside them, and so do all accessors once it passes |
| `Requests.RequiredFieldThere` | proto/yikv_server.fbs:39-74 | whatever bytes come in, a get, put or batch put request that passes has its key, row or rows |
| `Requests.MessagePasses` | proto/yikv_server.fbs:19-86 | a message that was built passes if and only if its tables are not too many, since they are never more than three deep |
| `RequestBytes.GetRequestBytes` | proto/yikv_server.fbs:39-42 | the 28 bytes the calls for the request to get "hi" write, which pass and read back |
| `RegistryInv.KeysDisjoint` | src/yikv_server/table_registry.cc:31-67 | two tables never share a DB key |
| `RegistrySafe.EventKeeps` | src/yikv_server/table_registry.cc:117-282 | every step of every thread, whether its foreign call works, fails or throws, keeps the invariant |
| `RegistryOpens.LoadRegisters` | src/yikv_server/table_registry.cc:149-160 | registering a freshly opened table keeps the invariant, and the table cannot be there already |
| `RegistryOpens.ReloadSwaps` | src/yikv_server/table_registry.cc:253-259 | the swap keeps the invariant |
| `RegistrySafe.CloseIsSafe` | src/yikv_server/table_registry.cc:178-282 | in every interleaving, no close hits an index that is live, pinned or used by a consumer |
| `RegistrySafe.PinnedStaysOpen` | src/yikv_server/table_registry.cc:167-176 | a request's index is open from Acquire to Release |
| `RegistrySafe.OpenKeys` | src/yikv_server/table_registry.cc:204-282 | the live key is open, the other one exactly while a reload has both or an exception has left it open, and no third one ever |
| `RegistrySafe.OneKeyAtRest` | src/yikv_server/table_registry.cc:204-282 | without a reload exactly the key named by the flag is open, if and only if no exception has left the other one open |
| `RegistrySafe.NoStrayKeys` | src/yikv_server/table_registry.cc:117-163 | a key of no registered table is open if and only if it is the one being loaded or an exception has left it open |
| `RegistrySafe.SecondLooks` | src/yikv_server/table_registry.cc:149-237 | LoadTable's second duplicate check never hits, ReloadTable's second look-up always does, and the close before opening finds exactly what an exception left |
| `RegistrySafe.LeftIs` | src/yikv_server/table_registry.cc:143-282 | which keys exceptions have left open: those of such an exit, until they are closed again or registered |
| `RegistrySafe.NothingIsLeft` | src/yikv_server/table_registry.cc:117-282 | without such an exit there are none, over any run |
| `RegistrySafe.BuildThrows` | src/yikv_server/table_registry.cc:243-248 | the exit that leaves two keys of a table open at rest |
| `RegistryConsumers.EventKept` | src/yikv_server/table_registry.cc:69-282 | every step of every thread keeps the account of slots built, of those with a consumer configured, and of those stopped |
| `RegistryConsumers.ConsumersRun` | src/yikv_server/table_registry.cc:88-109 | over every run, a consumer runs if and only if its slot was built with one configured and neither its own reload nor a load that dropped the slot has stopped it |
| `RegistryConsumers.LiveConsumer` | src/yikv_server/table_registry.cc:149-160 | at every point of every run, the live slot of a table has its consumer running, for this table, if and only if one was configured |
| `RegistryConsumers.BothConsumers` | src/yikv_server/table_registry.cc:246-263 | so has the slot a load or a reload is about to put in place, and the one a reload has not yet stopped |
| `RegistryNames.LeafIsLast` | src/yikv_server/table_registry.cc:117-119 | the file name of a path is what comes after its last slash, and all of it if there is none |
| `RegistryNames.RegistersLeaf` | src/yikv_server/table_registry.cc:117-163 | a load registers the file name of what it was asked for, and so that very name if and only if there is no slash in it |
| `RegistryNames.RegisteredNames` | src/yikv_server/table_registry.cc:117-126 | no table is ever registered under an empty name, a path, or the name of a hidden or staging directory |
| `RegistryNames.TurnedAway` | src/yikv_server/table_registry.cc:117-126 | a load is turned away exactly for such a name or one already registered |
| `RegistryRuns.PathOpensLeaf` | src/yikv_server/table_registry.cc:178-195 | the run in which reloading the unknown "a/b" hot-opens "b" |
| `RegistryRuns.ThrowLeavesBoth` | src/yikv_server/table_registry.cc:178-251 | a run from the start in which a consumer cannot be started and both keys of a table stay open |
| `RegistryProgress.OnlySwaps` | src/yikv_server/table_registry.cc:178-282 | no step but the swap changes the live slot or the flag of a table |
| `RegistryProgress.SwapsForward` | src/yikv_server/table_registry.cc:253-259 | a swap is made under the reload lock, to a newer generation, and flips the flag |
| `RegistryProgress.FailedReload` | src/yikv_server/table_registry.cc:178-251 | a reload that never swaps leaves the table as it found it, whatever others do |
| `RegistryOutcomes.FailedCallGivesUp` | src/yikv_server/table_registry.cc:128-251 | once a foreign call has failed or thrown, the call that made it changes no table any more, at most closes what it has opened, and ends |
| `RegistryOutcomes.WorkingCallGoesOn` | src/yikv_server/table_registry.cc:128-259 | as long as foreign calls work, a call goes on phase by phase until it publishes the slot it has built |
| `RegistryOutcomes.UnknownTable` | src/yikv_server/table_registry.cc:178-195 | a reload of an unknown table becomes a load exactly if there is a directory of that name and it is no staging one |
| `RegistryProgress.AlwaysServed` | src/yikv_server/table_registry.cc:167-176 | once registered, Acquire always succeeds, on an open index, with generations that never go down |
| `RegistryProgress.RetiredIsNotLive` | src/yikv_server/table_registry.cc:253-270 | no Acquire hands out the slot being drained |
| `RegistryProgress.PinsShrink` | src/yikv_server/table_registry.cc:253-270 | the pins of the slot being drained never grow unless a client copies its own handle |
| `RegistryProgress.WaitsForPins` | src/yikv_server/table_registry.cc:265-270 | the drain ends if and only if no request is left on the old slot |
| `RegistryProgress.EveryStepDown` | src/yikv_server/table_registry.cc:117-282 | every step brings its call nearer to its end |
| `RegistryProgress.NoDeadlock` | src/yikv_server/table_registry.cc:117-282 | while a call is under way some thread can move, or a request still holds a slot being drained |
| `RegistryProgress.RunsAreShort` | src/yikv_server/table_registry.cc:117-282 | steps and releases cannot go on for ever, whatever the outcomes |
| `RegistryProgress.StuckIsDone` | src/yikv_server/table_registry.cc:117-282 | where neither a step nor a release is possible no call is under way |
| `RegistryProgress.AllCallsEnd` | src/yikv_server/table_registry.cc:117-282 | from any reachable state all calls come to their end once requests release what they hold |
| `ImportRuns.RunKeeps` | src/indexer/queue/parsed_batch_queue.cc:7-37 | the invariant of workers, queue, writer and main thread over all runs |
| `ImportEnds.ExactlyOnce` | src/indexer/source/file/file_source.cc:200-270 | an import without error has written each file's batches once and in order |
| `ImportEnds.WrittenOnce` | src/indexer/source/file/file_source.cc:200-270 | every batch of every file is written exactly once, and nothing else |
| `ImportEnds.FirstErrorWins` | src/indexer/queue/parsed_batch_queue.h:22-32 | the error reported is the first one set |
| `ImportEnds.NoLostWakeUp` | src/indexer/queue/parsed_batch_queue.cc:7-37 | a thread in a wait set has reason to wait, on both condition variables |
| `ImportEnds.NoDeadlock` | src/import_pipeline_main.cc:623-632 | until the main thread has finished, some thread can step |
| `ImportEnds.EveryStepDescends` | src/indexer/queue/parsed_batch_queue.cc:7-37 | every step that is not a spurious wake-up brings the import nearer to its end |
| `ImportEnds.AlwaysEnds` | src/import_pipeline_main.cc:623-632 | from any reachable state the import runs to its end, whatever the outcomes of reads and writes |
| `ImportQueue.QueuedIsWritten` | src/indexer/queue/parsed_batch_queue.cc:7-37 | whatever errors the workers meet, if writes work exactly what was queued is written, in that order |
| `ImportErrors.ErrorsAreReported` | src/indexer/source/file/file_source.cc:79-115 | an import ends with an error if and only if opening, reading, validating or writing has failed in it |
| `ImportErrors.FailedQueuesNothing` | src/indexer/source/file/file_source.cc:94-113 | a worker whose call has failed queues nothing from then on, not even the batch it has just read |
| `ImportErrors.SizesKept` | src/indexer/queue/parsed_batch_queue.cc:5-13 | as many workers as asked for, never more batches queued than asked for, and a worker waits only when that many are |
| `KvWrite.ProcessBatch` | src/indexer/worker/kv_write_worker.cc:66-134 | a batch is put whole, or exactly its chunks before the first bad row: a key is in the store if it was before or is the non-empty key of a row whose key cell is not null, with the document of the last such row; rows with a null or empty key are counted |
| `KvWrite.RunKvWriteLoop` | src/indexer/worker/kv_write_worker.cc:136-154 | the same of all rows of all batches, in order; imported plus skipped rows are all rows |
| `KvWrite.RowsAccounted` | src/indexer/worker/kv_write_worker.cc:83-130 | every good row is imported or skipped, never both |
| `KvWrite.Loaded` | src/indexer/worker/kv_write_worker.cc:87-130 | what puts of the rows not skipped leave in the store, said of the rows themselves |
| `KvWrite.SkippedAreKeyless` | src/indexer/worker/kv_write_worker.cc:87-120 | the skip counter counts exactly the rows with a null or empty key |
| `ImportRows.OneOutcome` | src/indexer/worker/kv_write_worker.cc:136-154 | a write has one outcome, the one its batch decides |
| `ImportRows.EveryRowOnce` | src/indexer/worker/kv_write_worker.cc:66-154 | whatever the interleaving, an import that ends without an error has written each file's batches in order and has every non-empty key of an input row whose key cell is not null in the store, with the document of the last such row written, and no other key it did not have; one counter counts the rows with a null or empty key, the other one all others |
| `BucketBits.BucketBitsForRows` | src/import_pipeline_main.cc:158-167 | the fewest bits, up to 28, that hold the rows |
| `Mysql.MapColumns` | src/indexer/source/sql/mysql_wire_source.cc:67-90 | each field gets the one column of its name, or the first field with none or several is reported |
| `Mysql.SameNameIs` | src/indexer/source/sql/mysql_wire_source.cc:24-32 | two names are the same if and only if they are letter by letter, in whatever case |
| `Mysql.IntegersKept` | src/indexer/source/sql/mysql_wire_source.cc:106-123 | a 32-bit cell is its number or refused; a 64-bit one is its number if and only if that fits |
| `Mysql.NumeralReads` | src/indexer/source/sql/mysql_wire_source.cc:106-123 | spaces, a sign and a decimal spell the number of the decimal with that sign |
| `Mysql.NumeralIs` | src/indexer/source/sql/mysql_wire_source.cc:106-123 | and nothing else spells a number |
| `Mysql.IntegersRead` | src/indexer/source/sql/mysql_wire_source.cc:106-123 | the text of every integer spells it |
| `Mysql.BooleansKept` | src/indexer/source/sql/mysql_wire_source.cc:92-104 | a boolean cell is a number, true unless zero, or one of two words in whatever case, or refused |
| `Mysql.OthersKept` | src/indexer/source/sql/mysql_wire_source.cc:125-167 | a null cell is null whatever its type, a text is kept, a float is what the C library reads |
| `Mysql.MysqlWireSource.FetchLoop` | src/indexer/source/sql/mysql_wire_source.cc:354-392 | without an error all rows are delivered in order, in full batches but for the last; with one, whole batches up to the failing row |
| `Mysql.MysqlWireSource.ProduceLoop` | src/indexer/source/sql/mysql_wire_source.cc:250-392 | one worker leads, all others do nothing; an error aborts the queue |
| `Ingest.CopyDocFromSchema` | src/yikv_server/stream/json_stream_ingest.cc:21-88 | the copy shows what the original shows, without boolean arrays |
| `Ingest.CopyPreserves` | src/yikv_server/stream/json_stream_ingest.cc:21-88 | the copy is exact if and only if no boolean array holds something |
| `Ingest.MergeOneField` | src/yikv_server/stream/json_stream_ingest.cc:90-149 | overwrites the scalar or appends to the array it names and leaves every other field alone |
| `Ingest.MergeMeans` | src/yikv_server/stream/json_stream_ingest.cc:90-149 | null leaves the field alone, a scalar takes the place of the old one, the elements of an array are added behind the old ones, each converted; when merging is rejected and when it throws |
| `Ingest.MergeJsonIntoDoc` | src/yikv_server/stream/json_stream_ingest.cc:151-160 | the members one by one up to the first that fails |
| `Ingest.ControlsIgnored` | src/yikv_server/stream/json_stream_ingest.cc:151-160 | members `_op` and `_ts` change no document |
| `IngestOps.FiledUnderPk` | src/yikv_server/stream/json_stream_ingest.cc:151-193 | a merged document is filed under the key its message names, if and only if the key field has no control name or the document had that key before |
| `IngestOps.NewFiledUnderPk` | src/yikv_server/stream/json_stream_ingest.cc:151-221 | a new document is filed under the key named if and only if the key field has no control name or the key is the default |
| `IngestOps.ControlKeyMisfiles` | src/yikv_server/stream/json_stream_ingest.cc:151-160 | a message whose document is filed under the empty key instead |
| `IngestOps.ApplyUpsertMerge` | src/yikv_server/stream/json_stream_ingest.cc:210-221 | the index changes as the keyed-map specification says |
| `IngestOps.ApplyStreamJsonObject` | src/yikv_server/stream/json_stream_ingest.cc:240-255 | the operation named is applied to the index as specified, an unknown one rejected |
| `IngestOps.OnlyItsKey` | src/yikv_server/stream/json_stream_ingest.cc:195-255 | a message not applied changes nothing, an applied one only its key |
| `IngestOps.TouchesPk` | src/yikv_server/stream/json_stream_ingest.cc:195-255 | which is the key the message names, unless the key field has a control name |
| `IngestOps.UpsertMeaning` | src/yikv_server/stream/json_stream_ingest.cc:210-221 | the old or an empty document, named scalars overwritten, arrays appended to, every other field unchanged |
| `IngestOps.OperationIs` | src/yikv_server/stream/json_stream_ingest.cc:240-255 | a message asks for an operation if and only if its `_op` is the name of it, in whatever case |
| `IngestOps.OperationsMean` | src/yikv_server/stream/json_stream_ingest.cc:195-255 | a deletion removes the key and nothing else, an insertion is rejected if it is there and otherwise makes a new document, an unknown operation is rejected |
| `IngestOps.KeyNamed` | src/yikv_server/stream/json_stream_ingest.cc:162-193 | when a message names a key, when it is rejected and when it throws |
| `IngestOps.DigitsStandFor` | src/yikv_server/stream/json_stream_ingest.cc:178-184 | the text of a number is the decimal that stands for it, without leading zeros |
| `IngestOps.KeyTextsApart` | src/yikv_server/stream/json_stream_ingest.cc:178-189 | values of one type have the same key text if and only if they are the same |
| `IngestOps.KeysApart` | src/yikv_server/stream/json_stream_ingest.cc:195-255 | messages touch the same document if and only if their converted keys are the same, unless the key field has a control name |
| `Replay.CrashReplay` | src/yikv_server/kafka/kafka_source.cc:114-154 | any prefix of a message of safe objects, then the whole of it, equals the whole of it once, if it disturbs the key of no insert that throws; where the key field has a control name, if documents lie under their own keys and none but the default is both removed and written |
| `Replay.TwiceIsOnce` | src/yikv_server/kafka/kafka_source.cc:114-154 | for one key, applying the same messages again changes nothing |
| `Replay.Absorbs` | src/yikv_server/kafka/kafka_import_catchup.cc:155-241 | a message applied now and once more on the way from an earlier one does not change what that way leads to |
| `ReplayLimits.UpsertReplay` | src/yikv_server/stream/json_stream_ingest.cc:210-221 | replaying an applied upsert changes nothing if and only if it appends to no array or its document lies under another key |
| `ReplayLimits.UnsafeShows` | src/yikv_server/stream/json_stream_ingest.cc:195-221 | for every object that is not safe there is a store of one document in which a crash right after it and a replay show |
| `ReplayLimits.ThrowingInsertLoses` | src/yikv_server/stream/json_stream_ingest.cc:195-208 | unless the key is `_op`, for every throwing insert, a message whose replay after a crash loses an upsert |
| `ReplayLimits.KeyOnlyMakes` | src/yikv_server/stream/json_stream_ingest.cc:210-221 | the one document of those stores is what an upsert of the key alone makes, with an ordinary key field |
| `ReplayLimits.PutMakes` | src/yikv_server/db/handlers.cc:288-321 | and what an RPC put makes, with any key field of a type RPCs support |
| `ReplayLimits.OrdinaryReplay` | src/yikv_server/kafka/kafka_source.cc:114-154 | with an ordinary key field, safe messages can be cut off and applied again in any store |
| `ReplayLimits.OpReplay` | src/yikv_server/stream/json_stream_ingest.cc:162-255 | in tables keyed by `_op` all safe objects can, throwing inserts or not, if documents lie under their own keys and the JSON library keeps strings |
| `ReplayLimits.DefaultReplay` | src/yikv_server/stream/json_stream_ingest.cc:162-255 | and in tables keyed by `_ts`, while only the default key has a document |
| `ReplayLimits.TsReplayExactly` | src/yikv_server/stream/json_stream_ingest.cc:151-255 | in such a table they always can if and only if no other key has one |
| `ReplayLimits.TsReplayFails` | src/yikv_server/stream/json_stream_ingest.cc:151-255 | for every such table, store and other key with a document, its upsert and its deletion leave one under the default key when replayed |
| `ReplayLimits.ControlKeyReplay` | src/yikv_server/stream/json_stream_ingest.cc:151-160 | such a table, document and messages, the document put by an RPC |
| `ReplayLimits.OwnKeysKept` | src/yikv_server/stream/json_stream_ingest.cc:195-238 | puts and messages leave every document under its own key |
| `Kafka.ApplyPayload` | src/yikv_server/kafka/kafka_source.cc:133-151 | the objects of a payload in order, all else in it skipped, an exception ending the message |
| `Replay.EveryObject` | src/yikv_server/kafka/kafka_source.cc:133-146 | the objects of an array are all its elements that are objects, in their order |
| `Kafka.KafkaSource.ConsumeLoop` | src/yikv_server/kafka/kafka_source.cc:114-154 | every message applied, and the last one's offset saved |
| `Kafka.RunCatchup` | src/yikv_server/kafka/kafka_import_catchup.cc:155-241 | what was consumed is applied and its last offset saved; it goes on until an error, too many idle polls, the silence asked for behind the end of the partition, or its deadline, and only the last two save |
| `Kafka.SilenceCounts` | src/yikv_server/kafka/kafka_import_catchup.cc:167-203 | the silence counter is the number of empty polls behind the end of the partition since the last message |
| `Kafka.IdleCounts` | src/yikv_server/kafka/kafka_import_catchup.cc:167-186 | the idle counter is the number of empty polls since the last message, until the end of the partition is seen |
| `Kafka.ResumesAfter` | src/yikv_server/kafka/kafka_source.cc:52-68 | the offset saved after a message makes the next session start with the message after it |
| `Kafka.CatchupHandsOver` | src/yikv_server/kafka/kafka_import_catchup.cc:155-241 | the consumer takes over at the first message catch-up did not process, even if it processed none |
| `Kafka.CatchupStartsRight` | src/yikv_server/kafka/kafka_import_catchup.cc:100-128 | catch-up starts at the first message not older than the watermark if and only if there is one or the log is empty |
| `KafkaCrashes.NoGaps` | src/yikv_server/kafka/kafka_source.cc:72-162 | over all runs of consumers a message is taken up once if it is finished, once for each time it was lost in flight, and once if it is in flight; never after a later one, as long as offsets can be written |
| `KafkaCrashes.TimesTaken` | src/yikv_server/kafka/kafka_import_catchup.cc:92-241 | over all runs of catch-up and consumers, how often each message has been taken up: once up to the saved offset, so that none is passed over, and once for each time it was lost, saved earlier, or is in hand |
| `KafkaCrashes.WhatIsLost` | src/yikv_server/kafka/kafka_import_catchup.cc:155-241 | what is lost: all that was taken up since the last save of a session that ends without one |
| `KafkaCrashes.WhatIsEarlier` | src/yikv_server/kafka/kafka_import_catchup.cc:221-241 | what was saved earlier: all up to the saved offset, when a catch-up run saves its own |
| `KafkaCrashes.EndsInLine` | src/yikv_server/kafka/kafka_import_catchup.cc:155-241 | a session ends short of the saved offset if and only if it is a catch-up run that dies before it is back there |
| `KafkaStores.RewindsDoNotShow` | src/yikv_server/kafka/kafka_import_catchup.cc:92-241 | over all runs of catch-up and consumers that each start at or before where the last one ended, the store is that of one uninterrupted session, for all tables and stores in which the messages can be replayed |
| `KafkaStores.CrashesDoNotShow` | src/yikv_server/kafka/kafka_source.cc:72-162 | so it is once consumers have finished all messages, however often they stopped, crashed or could not save |
| `KafkaStores.OutOfLineShows` | src/yikv_server/kafka/kafka_source.cc:52-60 | wherever a session ended, and wherever past it the next one starts, there are messages for which the store is wrong |
| `KafkaStores.DeadCatchupShows` | src/yikv_server/kafka/kafka_import_catchup.cc:155-241 | a run in which catch-up dies, the next consumer has nothing left to do, and a document is missing |
| `Handlers.ApplyRowToDoc` | src/yikv_server/db/handlers.cc:55-121 | the columns applied in order, refused if one is unknown or of a wrong type |
| `Handlers.BuildRow` | src/yikv_server/db/handlers.cc:138-223 | one column per field, holding what the document shows |
| `Handlers.RowRoundTrip` | src/yikv_server/db/handlers.cc:55-223 | for distinct field ids, the row built holds the values written, booleans as 0 or 1, and defaults elsewhere, for all value types |
| `Handlers.TypeTags` | src/yikv_server/db/handlers.cc:32-53 | the tag each type of field is sent with, scalar or array, and that a column is accepted with this one alone |
| `Handlers.MissingReads` | src/yikv_server/db/handlers.cc:55-121 | what was not put, or put without a payload, reads as zero, the empty string or the empty array |
| `Handlers.PutBackAccepted` | src/yikv_server/db/handlers.cc:32-53 | a row built is accepted again if and only if the table has no array of booleans or bytes |
| `Handlers.PutBack` | src/yikv_server/db/handlers.cc:55-223 | and then it makes the same document |
| `Handlers.HandlePut` | src/yikv_server/db/handlers.cc:288-321 | a put stores the row's document under its key or leaves the store alone |
| `Handlers.HandlePutBatch` | src/yikv_server/db/handlers.cc:325-371 | the store unchanged, or the in-order fold of the single puts; it succeeds if and only if every row would |
| `Handlers.HandleGet` | src/yikv_server/db/handlers.cc:248-284 | a row if and only if the key is there, holding what the document shows |
| `Handlers.HandleBatchGet` | src/yikv_server/db/handlers.cc:375-407 | as many rows as keys, each what a single get gives |
| `Handlers.PutThenGet` | src/yikv_server/db/handlers.cc:248-321 | what was put is what the next get of its key builds its row from, other keys unchanged |
| `Handlers.PutsApart` | src/yikv_server/db/handlers.cc:123-134 | documents put with different keys are both there afterwards, each under its own; with the same key the second is in the place of the first |
| `Handlers.PutsByKeyType` | src/yikv_server/db/handlers.cc:123-134 | some put is accepted if and only if the key field is declared, as a boolean, an integer or a string |
| `Utf8.ToUTF8` | deps/include/flatbuffers/util.h:499-520 | the shortest of the encodings that fit |
| `Utf8.FromUTF8` | deps/include/flatbuffers/util.h:527-568 | the code point decoded or an error, never past the terminator |
| `Utf8.EncodedBytes` | deps/include/flatbuffers/util.h:499-520 | the encodings byte by byte, up to four bytes as the table of RFC 3629, section 3, has them, and the two longer ones |
| `Utf8.DecodesEncoded` | deps/include/flatbuffers/util.h:499-568 | every code point up to 0x10FFFF but the surrogates comes back, whatever follows |
| `Utf8.EncodesDecoded` | deps/include/flatbuffers/util.h:499-568 | what is accepted is the encoding of the result, and as long as what was consumed |
| `Utf8.DecodesExactly` | deps/include/flatbuffers/util.h:527-568 | the decoder accepts exactly the encodings of RFC 3629, sections 3 and 4 |
| `Flex.WidthU` | deps/include/flatbuffers/flexbuffers.h:188-198 | the least width the number fits in |
| `Flex.WidthI` | deps/include/flatbuffers/flexbuffers.h:200-203 | the least width the signed number fits in as two's complement |
| `Flex.OffsetWidth` | deps/include/flatbuffers/flexbuffers.h:1520-1547 | a width is always found, the least that holds the offset where it would be written |
| `Flex.EnoughThere` | deps/include/flatbuffers/flexbuffers.h:1520-1547 | a reference that fits where it was measured fits at any larger width at or before that place |
| `Flex.VectorWidth` | deps/include/flatbuffers/flexbuffers.h:1601-1634 | the width chosen holds the length, the keys' offset and every element where it will be |
| `Flex.WrittenReads` | deps/include/flatbuffers/flexbuffers.h:1453-1457 | what is written where it fits reads back, so no offset is truncated |
| `Flex.CreateVector` | deps/include/flatbuffers/flexbuffers.h:1601-1657 | every element, type, the length and the keys' offset read back |
| `FlexTree.FixedTypes` | deps/include/flatbuffers/flexbuffers.h:91-126 | a fixed-length vector type gives back element type and length if and only if it is one of numbers |
| `FlexTree.ReadsStays` | deps/include/flatbuffers/flexbuffers.h:340-600 | whatever is appended later, a value reads as before |
| `FlexTree.ReadsOne` | deps/include/flatbuffers/flexbuffers.h:340-600 | a value reads as one tree at most |
| `FlexTree.PackedWidth` | deps/include/flatbuffers/flexbuffers.h:862-864 | the lower two bits of a packed type are the logarithm of the width, that of the vector for a number in a wider one |
| `FlexMaps.Sort` | deps/include/flatbuffers/flexbuffers.h:1187-1209 | the entries in the order of their keys, none lost, and a flag if and only if two share a key |
| `FlexMaps.CmpIsDictionary` | deps/include/flatbuffers/flexbuffers.h:1187-1209 | one key is before another if and only if they agree up to where it ends or has the smaller byte |
| `FlexMaps.AnySortNotes` | deps/include/flatbuffers/flexbuffers.h:1187-1209 | whatever comparisons a sort makes, if they determine the order, one of them is equal exactly if two entries share a key |
| `FlexMaps.Lookup` | deps/include/flatbuffers/flexbuffers.h:896-919 | finds a key if and only if the map has it, and then the value of an entry with that key |
| `FlexMaps.FoundWasGiven` | deps/include/flatbuffers/flexbuffers.h:1169-1222 | the value found is one that was given for the key, and without duplicate keys the one |
| `FlexBuilder.Builder.PushKey` | deps/include/flatbuffers/flexbuffers.h:1068-1084 | a key known already is not written again, and reads back either way |
| `FlexBuilder.Builder.PushString` | deps/include/flatbuffers/flexbuffers.h:1089-1106 | the string reads back; with sharing on, one known already is not written again |
| `FlexBuilder.Builder.EndVector` | deps/include/flatbuffers/flexbuffers.h:1161-1167 | the values since the start become one that reads as the vector of their trees, all others unchanged |
| `FlexBuilder.Builder.EndMap` | deps/include/flatbuffers/flexbuffers.h:1169-1218 | keys and values become one that reads as the map of these entries, duplicates noted exactly |
| `FlexBuilder.Builder.Finish` | deps/include/flatbuffers/flexbuffers.h:1398-1414 | the accessors, started at the root, find the tree that was built |

## Left out

- `Builder.FlatBufferBuilder.EndTable`: requires a scratch pad below 2^32 bytes and a buffer below the maximum, where the source's casts would lose bits.
- `BuilderCalls.PerformAll`: fields, vtables and string vectors are written strictly below the maximal size, as the assertion on the scratch pad demands, with the scratch pad below 2^32 bytes.
- `BuilderRuns.StepKeeps`: covers fields set at most once per table and values that fit their type, as the generated code provides; a field set twice is not modelled.
- `VectorDownward.Vector.Push`: requires the size to stay below 2^32; the source lets the last push pass its limit.
- `Kafka.RunCatchup`: the deadline is the end of the list of polls, and writing the two files does not fail.
- `Replay.CrashReplay`: for safe objects and undisturbed inserts only, since it is false of the others (`ReplayLimits.UnsafeShows`, `ReplayLimits.ThrowingInsertLoses`); memory exhaustion is no exception here.
- `KafkaStores.RewindsDoNotShow`: for logs of such messages; offset files are written whole or not at all, the log only grows, and messages deleted by the broker are not modelled.
- `Kafka.KafkaSource.ConsumeLoop`: saving the offset does not fail in the loop; a save that fails is an event of `KafkaCrashes`.
- `Mysql.MysqlWireSource.FetchLoop`: models the one leader with its own queue end; the writer's error shows as the row before which the loop stops, and queue waiting is in the import's state machine.
- `FlexBuilder.Builder.EndVector`: vectors of fixed length are restricted to numbers, because other types do not read back (`FlexTree.FixedTypes`).
- `FlexMaps.Sort`: `std::sort` is taken to be an insertion sort with the source's comparison (`FlexMaps.AnySortNotes` is about any), `std::bsearch` a plain binary search, `strcmp` a function.
- `Flex.VectorWidth`: for stack values other than floats.
- `Flex.WrittenReads`: for values other than floats.
- `Flex.CreateVector`: for stack values other than floats.
- `BucketBits.BucketBitsForRows`: for at most 2^63 rows; beyond that the source's loop does not end.
- `Handlers.BatchUpsert`: a batch put is taken to be a fold of single puts, as the import's `KvWrite.KVIndex.BatchPut` is; the engine's own code is not part of this model.
- FlatBuffers: the 64-bit builder, structs, unions, file identifiers, size prefixes, nested buffers, forced vector alignment beyond eight bytes, and in-place mutation of fields.
- FlexBuffers: floats, blobs, indirect and scalar vectors, string conversion, and the FlexBuffers verifier, whose key check stops at the first non-zero byte.
- The yikv engine (`KVIndex`, `Doc`, `DB`, arena): an abstract map from keys to documents; a failed open registers nothing.
- Sockets, RPC adapters, Kafka and MySQL clients, Arrow readers, file system calls: only their outcomes, chosen freely.
- `TableRegistry::ForEach` and the destructor: they take references without pinning and have no caller here.
- A second Kafka consumer for the same table during a reload, which writes without the RPC handlers' lock.
- Branches for null schemas, and `BuildSlotAfterOpen`'s null check of an index it has used already.
- Floating-point values are opaque bits; timings, logging, progress reports and metrics are not modelled.
