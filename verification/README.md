# Verification of the streaming engines, the Lua codec and the class registry

This project models the parts of the repository whose correctness is not visible
from one function at a time and proves properties of them in Dafny.
`dafny verify dfyconfig.toml` checks everything.

| file | models |
|---|---|
| `common.dfy` | messages, statuses, small helpers |
| `bidi_stream.dfy`, `bidi_outcomes.dfy`, `bidi_tags.dfy`, `bidi_program.dfy` | `ClientAsyncReaderWriterImpl` and the destructor of its wrapper: its steps and laws, what it tells the user, its tags, its methods |
| `server_writer.dfy`, `server_writer_threads.dfy` | `ServerWriterImpl`, sequentially and with interleaved writers |
| `client_writer.dfy`, `client_outcomes.dfy` | `ClientAsyncWriterImpl` with a callback that may call it again, and what it tells the user |
| `server_read_chain.dfy`, `client_read_chain.dfy`, `client_read_outcomes.dfy` | the two self-renewing read chains |
| `completion_queue.dfy`, `server_accept.dfy` | ownership of completion-queue tags, and accepting calls |
| `codec_values.dfy`, `codec_scalars.dfy`, `codec_encode.dfy`, `codec_merge.dfy`, `codec_reference.dfy`, `codec_order.dfy`, `codec_decode.dfy`, `codec_program.dfy` | `MessageSetter` and `MsgToTbl` |
| `class_registry.dfy`, `class_lookup.dfy`, `class_access.dfy`, `class_program.dfy` | metatables of C++ classes: registration, member access, type check |
| `stack_traceback.dfy` | stack depth search and traceback |

**How the engines are modelled.** Each object is a class with the fields of the
source; its public methods and completion handlers are atomic because each holds
the mutex throughout. What gRPC decides is a parameter: whether a batch is
taken (`ok`, `starts`), how it completes, what a user callback returns. A batch
that was taken completes at most once, in any order relative to other calls. The
ghost history `h` records what was accepted, started, completed and called back.
Every method is proved to compute a step function and to keep an invariant; the
theorems named `...OfEveryRun` follow for every finite sequence of steps from the
initial state. Asserts of the source appear as asserts or as preconditions that
every caller meets. In `server_writer_threads.dfy` the threads inside `Write` have program counters,
because `Write` locks more than once. The error texts of the source are the
constructors of `Details`.

**Tags.** `completion_queue.dfy` follows every tag from `new` to `delete`. A starter
that is refused still owns its tag until it deletes it. The methods of all five
engines allocate, start and delete their tags explicitly on such a queue, and each
ensures that the queue is what its `StartBatch` calls make of it. The lemmas
`StepStartsItsAttempts` say that what gRPC took is what the log of the engine shows, and
`TagsOfEveryRun` that in every run the live tags are the batches in flight and all
others were freed once. The theorems look at the part of the queue that belongs to one stream.

**What the user is told.** The invariants say when a callback runs; the modules named
`...Outcomes` say with what. They define, from the calls and completions alone, the
error or end that each step of a run means, and prove that the one report of a run is
the first of these, with the response message where there is one. `CloseStatusOfEveryRun`
is the server's side of it: the client gets the status of the first close.

**Re-entrance.** The mutexes of the client objects are recursive. The close
callback of the client writer carries a tree of calls that it makes. The message
callback of the bidirectional stream is a phase of its own (`inCallback`) in
which the same thread may make any public call. Its return needs a stream that is
still OK, which the source asserts; `NestedCallsKeepOkIff` says exactly which
calls keep it so, and `FailedNestedWriteBreaksOnRead` shows what happens otherwise. The
only public call of the client reader does nothing once it was started.

**Three facts about the code worth knowing.** `CallbackIsLostIff`: if reading ends
first and `CloseWriting` finds an empty queue, the stream is over and the status
callback is never called; no other step does that, and `StatusCallbackCanBeLost` is a run.
`PopFindsMessageIff` with `PopCanFindNothing`: when the next message fails to start,
`TryToWriteNext` pops a queue that `SendMsg` has just cleared; the model takes what is
meant, clear and stop. `HalfCloseFollowsInitIff` with `HalfCloseWithoutInit`:
`CloseWriting` does not initialise the stream, so a stream closed before it is used
half-closes without init metadata.

**The codec.** Message types, messages and Lua tables are finite trees; a schema
maps type names to fields and may be recursive. The order in which Lua walks a
table and the length it reports for a table with holes are parameters, chosen
freely for every table. On unambiguous tables the walk of the source is proved
equal to a reference without any order, and `OrderDoesNotMatterIff` says that these, and
the tables that are refused, are exactly those for which the order does not
matter. Integers keep their C++ widths: 32-bit values and the length of a repeated
field wrap, and 64-bit unsigned ones travel as Lua integers modulo 2^64. Which Lua
values a scalar field takes, and as what, is a relation of its own (`TakenAs`) that
the conversions are proved to meet.

**The class registry.** Tables live at addresses in a map and hold the links of the
source; nothing in the representation makes the class and const chains parallel,
the invariant does. Registrations may come in any order and number, provided each
type is registered once and a super class before its subclasses. `IsA` speaks of
the declared hierarchy only.

## Model

| member | source | states |
|---|---|---|
| BidiStream.WritingSideOfEveryRun | lua-grpc/core/client/impl/client_async_reader_writer_impl.cpp:34-219 | in every run, with any failing starts: at most one message batch in flight; while the status is OK one is in flight exactly if the queue is non-empty; batches are well ordered; messages start in the order accepted; a half-close means every accepted message completed successfully before |
| BidiStream.ScanSeesAll | lua-grpc/core/client/impl/client_async_reader_writer_impl.cpp:150-219 | the recogniser the invariant uses accepts a batch log exactly if, by positions, both init batches precede every message and read, only messages and reads repeat, and no message follows the half-close |
| BidiStream.StepKeepsInv | lua-grpc/core/client/impl/client_async_reader_writer_impl.cpp:34-245 | every public call and completion keeps the whole invariant, for every outcome of the batches it starts |
| BidiStream.NothingAcceptedAfterCloseWriting | lua-grpc/core/client/impl/client_async_reader_writer_impl.cpp:41-53 | after CloseWriting no later step of any run accepts a message |
| BidiStream.ErrorStopsTheStream | lua-grpc/core/client/impl/client_async_reader_writer_impl.cpp:86-148 | after an error the rest of the run starts no batch, accepts no message and does not call the status callback, and the status stays an error |
| BidiStream.StatusCallbackOfEveryRun | lua-grpc/core/client/impl/client_async_reader_writer_impl.cpp:105-130 | the status callback runs at most once; every error has run it; with OK only when both directions ended; it is still pending after both ended with OK exactly if writing was ended last, by CloseWriting |
| BidiOutcomes.ReportOfEveryRun | lua-grpc/core/client/impl/client_async_reader_writer_impl.cpp:34-246 | in every run the status callback is told exactly the first of the errors and normal ends of the run, as that error or OK, and nothing else |
| BidiOutcomes.StepReports | lua-grpc/core/client/impl/client_async_reader_writer_impl.cpp:34-246 | every call and completion on a stream that is OK: the error it meets, if any, becomes the status and is what a pending callback is told; the end of the second direction is reported with OK; nothing else is reported |
| BidiOutcomes.FailedStepReports | lua-grpc/core/client/impl/client_async_reader_writer_impl.cpp:74-84 | after an error nothing is reported, and only SetErrorStatus replaces the status |
| BidiStream.CallbackIsLostIff | lua-grpc/core/client/impl/client_async_reader_writer_impl.cpp:50-62 | of all steps only a CloseWriting that starts its half-close, finds writing not yet closing, an empty queue and reading already ended leaves both directions ended with the callback still pending |
| BidiStream.StatusCallbackCanBeLost | lua-grpc/core/client/impl/client_async_reader_writer_impl.cpp:50-62 | a run in which reading ends, CloseWriting half-closes, nothing is in flight and the status callback was never called |
| BidiStream.QuiescenceOfEveryRun | lua-grpc/core/client/impl/client_async_reader_writer_impl.cpp:28-32 | with nothing in flight both destructor asserts hold exactly if the stream failed or ReadEach and CloseWriting were called |
| BidiStream.DestructorAsserts | lua-grpc/core/client/impl/client_async_reader_writer_impl_wrapper.cpp:23-25 | any run that contains ReadEach and CloseWriting, in any order, meets the destructor asserts whenever nothing is in flight |
| BidiStream.DeliveryOfEveryRun | lua-grpc/core/client/impl/client_async_reader_writer_impl.cpp:113-148 | at most one read in flight; with a message callback the i-th message delivered is that of the i-th completed read, and only the last read may deliver none |
| BidiOutcomes.DeliveriesOfEveryRun | lua-grpc/core/client/impl/client_async_reader_writer_impl.cpp:113-148 | in every run the message callback got exactly the messages of the reads completed while it was set and the stream OK, in order |
| BidiOutcomes.StepDelivers | lua-grpc/core/client/impl/client_async_reader_writer_impl.cpp:64-148 | a step delivers the message of the read it completes and no other; only the first ReadEach of a stream still OK sets the callback; only Write accepts |
| BidiOutcomes.CallbackIsOfFirstReadEach | lua-grpc/core/client/impl/client_async_reader_writer_impl.cpp:64-72 | later ReadEach calls never change the callback |
| BidiOutcomes.WriteAnswers | lua-grpc/core/client/impl/client_async_reader_writer_impl.cpp:34-48 | Write returns true exactly if the stream is OK after initialising, writing is not closing, and a message is waiting or the batch was taken; and exactly then the message is accepted |
| BidiStream.NestedCallsKeepOkIff | lua-grpc/core/client/impl/client_async_reader_writer_impl.cpp:139-147 | the calls that a message callback makes, however many, leave the stream OK, so that the assert of ReadNext holds when it returns, exactly if each is harmless in the state it finds: Write and CloseWriting if the queue is non-empty or writing is closing or their batch starts, ReadEach always, SetErrorStatus never |
| BidiStream.FailedNestedWriteBreaksOnRead | lua-grpc/core/client/impl/client_async_reader_writer_impl.cpp:139-147 | a run in which a Write inside the message callback fails to start and OnRead then starts a read on a failed stream |
| BidiStream.HalfCloseFollowsInitIff | lua-grpc/core/client/impl/client_async_reader_writer_impl.cpp:50-62 | CloseWriting half-closes without initialising the stream: the init batches were started exactly if an earlier call initialised it |
| BidiStream.HalfCloseWithoutInit | lua-grpc/core/client/impl/client_async_reader_writer_impl.cpp:50-62 | a run from the start whose only batch is the half-close |
| BidiStream.InitStartsBoth | lua-grpc/core/client/impl/client_async_reader_writer_impl.cpp:150-169 | the first call on a stream starts both init batches, in order, exactly if both starts succeed, and only then leaves it OK; on any OK stream both are in the log afterwards |
| BidiStream.OnSentFindsMessage | lua-grpc/core/client/impl/client_async_reader_writer_impl.cpp:86-89 | a message in flight implies what OnSent asserts about the queue, so its completion is never held back |
| BidiStream.StepStartsItsAttempts | lua-grpc/core/client/impl/client_async_reader_writer_impl.cpp:150-219 | every step appends to the log, and counts as in flight, exactly those of its StartBatch calls that gRPC took |
| BidiTags.TagsOfEveryRun | lua-grpc/core/client/impl/client_async_reader_writer_impl.cpp:150-219 | in every run, for every outcome of every start: no starter is left with a refused tag; gRPC took exactly the batches in the log; the live message and read tags are those in flight; every tag that is not live, refused ones included, was freed exactly once |
| BidiProgram.ReaderWriter.Write | lua-grpc/core/client/impl/client_async_reader_writer_impl.cpp:34-48 | result and new state are the specified ones; the invariant is kept; the assert at line 38 holds |
| BidiProgram.ReaderWriter.CloseWriting | lua-grpc/core/client/impl/client_async_reader_writer_impl.cpp:50-62 | new state as specified; invariant kept; the asserts at 59 and 61 hold |
| BidiProgram.ReaderWriter.ReadEach | lua-grpc/core/client/impl/client_async_reader_writer_impl.cpp:64-72 | new state as specified; invariant kept; only the first call counts |
| BidiProgram.ReaderWriter.SetErrorStatus | lua-grpc/core/client/impl/client_async_reader_writer_impl.cpp:74-84 | a first error ends the stream, a later one only replaces the status |
| BidiProgram.ReaderWriter.OnSent | lua-grpc/core/client/impl/client_async_reader_writer_impl.cpp:86-111 | new state as specified; invariant kept; the asserts at 88, 92 and 108 hold |
| BidiProgram.ReaderWriter.OnRead | lua-grpc/core/client/impl/client_async_reader_writer_impl.cpp:113-148 | new state as specified up to the message callback; the asserts at 116 and 118 hold |
| BidiProgram.ReaderWriter.CallbackReturns | lua-grpc/core/client/impl/client_async_reader_writer_impl.cpp:140-147 | the rest of OnRead once the message callback has returned its verdict |
| BidiProgram.ReaderWriter.SendNext | lua-grpc/core/client/impl/client_async_reader_writer_impl.cpp:171-190 | starts the front message or ends the stream; both of its asserts are preconditions its callers meet |
| BidiProgram.ReaderWriter.ReadNext | lua-grpc/core/client/impl/client_async_reader_writer_impl.cpp:192-204 | starts a read or ends the stream |
| BidiProgram.ReaderWriter.SendHalfClose | lua-grpc/core/client/impl/client_async_reader_writer_impl.cpp:206-219 | ends writing and half-closes; its asserts are preconditions its callers meet |
| BidiProgram.ReaderWriter.EndOnErrorStatus | lua-grpc/core/client/impl/client_async_reader_writer_impl.cpp:228-238 | sets the error, calls the status callback, then ends both directions |
| BidiProgram.Wrapper.Destroy | lua-grpc/core/client/impl/client_async_reader_writer_impl_wrapper.cpp:23-25 | the wrapper closes writing when it is destroyed |
| ServerWriter.WireGrammarOfEveryRun | lua-grpc/core/server/impl/server_writer_impl.cpp:49-152 | in every run the started batches follow the Responses rule of gRPC over HTTP/2; they are complete exactly if the stream closed without a failed start; at most one message in flight and none once closed |
| ServerWriter.PhaseIsGrammar | lua-grpc/core/server/impl/cqtag/server_writer_write_cqtag.cpp:11-20 | the recogniser the invariant uses accepts a batch log exactly if, by positions, init metadata is in the first batch only and a status batch is the last |
| ServerWriter.ConservationOfEveryRun | lua-grpc/core/server/impl/server_writer_impl.cpp:49-152 | accepted messages are the started ones followed by the queue until a start fails; then the started ones are a prefix; the queue is empty when closed or not sending |
| ServerWriter.OneBatchAtATime | lua-grpc/core/server/impl/server_writer_impl.cpp:80-152 | a step starts at most one batch, none once closed, and a status only with no message in flight |
| ServerWriter.CloseDrains | lua-grpc/core/server/impl/server_writer_impl.cpp:74-127 | after the first close nothing is accepted, the queue only shrinks, every completion makes progress, and after at most queue + 1 completions the stream is closed; without a failed start the status follows every accepted message |
| ServerWriter.CloseStatusOfEveryRun | lua-grpc/core/server/impl/server_writer_impl.cpp:80-127 | whatever waits and whatever is called after the first close, a stream that ends closed without a refused start has sent the status that close gave |
| ServerWriter.AsyncWriteAnswers | lua-grpc/core/server/impl/server_writer_impl.cpp:49-62 | AsyncWrite returns true exactly if the stream is not closing and a message is in flight or the batch was taken; exactly then the message is accepted |
| ServerWriter.OnlyRefusalsFail | lua-grpc/core/server/impl/server_writer_impl.cpp:114-152 | messages are dropped exactly in a step that tries a batch and is refused, which starts nothing |
| ServerWriter.ClosingStep | lua-grpc/core/server/impl/server_writer_impl.cpp:80-112 | after a close a completion strictly lowers queue + in flight and no other step raises it |
| ServerWriter.PopFindsMessageIff | lua-grpc/core/server/impl/server_writer_impl.cpp:98-100 | the pop after SendMsg finds a message exactly if the batch was started |
| ServerWriter.PopCanFindNothing | lua-grpc/core/server/impl/server_writer_impl.cpp:98-100 | a run from the start after which the next message fails to start and leaves nothing to pop |
| ServerWriter.StepStartsItsAttempts | lua-grpc/core/server/impl/server_writer_impl.cpp:114-152 | every step appends to the log exactly those of its StartBatch calls that gRPC took |
| ServerWriter.TagsOfEveryRun | lua-grpc/core/server/impl/server_writer_impl.cpp:114-152 | in every run: gRPC took exactly the batches in the log; the live message tags are those in flight; every other tag, refused ones included, was freed exactly once |
| ServerWriter.Writer.Write | lua-grpc/core/server/impl/server_writer_impl.cpp:24-48 | new state as that of AsyncWrite; the queue grows past the high mark only by a caller that then waits |
| ServerWriter.Writer.AsyncWrite | lua-grpc/core/server/impl/server_writer_impl.cpp:49-62 | result and new state as specified; invariant kept; the assert at 60 holds |
| ServerWriter.Writer.AsyncClose | lua-grpc/core/server/impl/server_writer_impl.cpp:80-90 | new state as specified; the given status is kept unless an earlier close or failure came first; invariant kept; the assert at 88 holds |
| ServerWriter.Writer.TryToWriteNext | lua-grpc/core/server/impl/server_writer_impl.cpp:92-112 | new state as specified; invariant kept; the asserts at 101 and 111 hold |
| ServerWriter.Writer.SendMsg | lua-grpc/core/server/impl/server_writer_impl.cpp:129-152 | starts a message batch, with init metadata in the first, or closes and clears the queue |
| ServerWriter.Writer.SendStatus | lua-grpc/core/server/impl/cqtag/server_writer_send_status_cqtag.h:28-37 | starts the status batch, with init metadata if none was sent, and closes |
| WriterThreads.QueueIsBounded | lua-grpc/core/server/impl/server_writer_impl.cpp:24-62 | with any number of threads calling Write and any interleaving of its critical sections, completions and closes, the queue never exceeds high mark + 2 * threads - 1 (the number of threads if the mark is 0) |
| WriterThreads.BoundIsReached | lua-grpc/core/server/impl/server_writer_impl.cpp:24-62 | for every number of threads and every mark some interleaving reaches that bound |
| WriterThreads.StepKeepsBounded | lua-grpc/core/server/impl/server_writer_impl.cpp:24-47 | queue length plus the credits of the threads never exceeds the bound |
| WriterThreads.ThreadsRunTheWriter | lua-grpc/core/server/impl/server_writer_impl.cpp:24-112 | however threads interleave, the stream beneath them goes through a run of its own steps, so what holds in every run of the writer holds with threads |
| WriterThreads.WriteWaitsIff | lua-grpc/core/server/impl/server_writer_impl.cpp:24-47 | a Write goes on to wait only if it saw a high queue and its message was taken, and waits until it sees the queue empty |
| ClientWriter.CloseCallbackOfEveryRun | lua-grpc/core/client/impl/client_async_writer_impl.cpp:51-145 | in every run, whatever the callback calls again: at most one report; exactly one once nothing is in flight after a Close with a callback; with OK only if every accepted message was sent successfully before the one closing batch |
| ClientOutcomes.ReportOfEveryRun | lua-grpc/core/client/impl/client_async_writer_impl.cpp:51-145 | in every run the status of the stream is its first error or what the call ended with, and the callback, if asked for, is told that status, with the response message of a call that ended well and an empty one otherwise |
| ClientOutcomes.StepReports | lua-grpc/core/client/impl/client_async_writer_impl.cpp:38-145 | every call and completion: the status it leaves and the report it makes, whatever the callback calls |
| ClientOutcomes.WriteAnswers | lua-grpc/core/client/impl/client_async_writer_impl.cpp:38-49 | Write returns true exactly if the stream is OK and not closing and a message is waiting or the batch was taken; exactly then the message is accepted |
| ClientWriter.BatchOrderOfEveryRun | lua-grpc/core/client/impl/client_async_writer_impl.cpp:38-110 | batches are init metadata, accepted messages in order, one closing batch; at most one in flight; a closing batch means every accepted message was sent successfully |
| ClientWriter.PhaseIsOrder | lua-grpc/core/client/impl/client_async_writer_impl.cpp:18-29 | the recogniser the invariant uses accepts a batch log exactly if, by positions, init metadata comes first and the closing batch last |
| ClientWriter.CallsAfterCloseAreInert | lua-grpc/core/client/impl/client_async_writer_impl.cpp:38-64 | once closing, Write and Close change nothing however deeply calls and callbacks nest |
| ClientWriter.CallbackIsHarmless | lua-grpc/core/client/impl/client_async_writer_impl.cpp:119-124 | whatever the close callback calls, firing it only reports and resets it |
| ClientWriter.CloseEndsAccepting | lua-grpc/core/client/impl/client_async_writer_impl.cpp:38-55 | after the first Close or an error no later step accepts a message, and which callback was asked for is settled |
| ClientWriter.OnSentFindsMessage | lua-grpc/core/client/impl/client_async_writer_impl.cpp:66-70 | a message in flight implies what OnSent asserts about the queue |
| ClientWriter.StepStartsItsAttempts | lua-grpc/core/client/impl/client_async_writer_impl.cpp:92-167 | every step, whatever its callback calls, appends to the log exactly those of its StartBatch calls that gRPC took |
| ClientWriter.TagsOfEveryRun | lua-grpc/core/client/impl/client_async_writer_impl.cpp:92-167 | in every run: gRPC took exactly the batches in the log; the live message and closing tags are those in flight; every other tag, refused ones included, was freed exactly once |
| ClientWriter.AsyncWriter.Write | lua-grpc/core/client/impl/client_async_writer_impl.cpp:38-49 | result and new state as specified; invariant kept |
| ClientWriter.AsyncWriter.Close | lua-grpc/core/client/impl/client_async_writer_impl.cpp:51-64 | new state as specified; invariant kept; later calls do nothing |
| ClientWriter.AsyncWriter.OnSent | lua-grpc/core/client/impl/client_async_writer_impl.cpp:66-89 | new state as specified; invariant kept; the branch at 71-74 is dead |
| ClientWriter.AsyncWriter.OnClosed | lua-grpc/core/client/impl/client_async_writer_impl.cpp:127-145 | a pending callback is told the status of the response and the response message, or the final status of the call if that is an error; invariant kept; the branch at 130-133 is dead |
| ClientWriter.AsyncWriter.CallCloseCb | lua-grpc/core/client/impl/client_async_writer_impl.cpp:119-124 | the callback runs its own calls while it is still set and is reset afterwards |
| ClientWriter.AsyncWriter.SendNext | lua-grpc/core/client/impl/client_async_writer_impl.cpp:147-167 | starts the front message, or records the error and reports it if closing |
| ClientWriter.AsyncWriter.SendHalfClose | lua-grpc/core/client/impl/client_async_writer_impl.cpp:92-110 | starts the closing batch once, or records and reports the error |
| ServerReading.TraceOfEveryRun | lua-grpc/core/server/impl/cqtag/server_reader_cqtag.h:56-90 | in every run: at most one read in flight; the callbacks match Msg* Error? End; End comes exactly when the chain is over, without Error exactly if the last read met the end of the stream; the i-th message delivered is that of the i-th read |
| ServerReading.CallbacksOfEveryRun | lua-grpc/core/server/impl/cqtag/server_reader_cqtag.h:56-90 | in every run the callbacks are the messages of the reads, then End alone after the end of the stream, or the error of the last read and End |
| ServerReading.StepKeepsInv | lua-grpc/core/server/impl/cqtag/server_reader_cqtag.h:56-90 | every step keeps the log equal to the messages of the completed reads followed by the ending that the last read calls for |
| ServerReading.DeliveriesAt | lua-grpc/core/server/impl/cqtag/server_reader_cqtag.h:70-79 | when every read but the last goes on, the i-th delivery is the message of the i-th read |
| ServerReading.StepStartsItsAttempts | lua-grpc/core/server/impl/cqtag/server_reader_cqtag.h:56-90 | every step counts as in flight exactly those of its reads that gRPC took, less the one that completed; what was taken has completed or is in flight |
| ServerReading.TagsOfEveryRun | lua-grpc/core/server/impl/cqtag/server_reader_cqtag.h:56-90 | in every run: the live read tags are the reads in flight; gRPC took as many as completed or are in flight; every other tag, refused ones included, was freed exactly once |
| ServerReading.Reader.Start | lua-grpc/core/server/server_reader.cpp:16-26 | the first read is in flight, or OnError and OnEnd were called |
| ServerReading.ReaderTag.DoComplete | lua-grpc/core/server/impl/cqtag/server_reader_cqtag.h:56-83 | new log as specified; invariant kept |
| ServerReading.ReaderTag.EndOnError | lua-grpc/core/server/impl/cqtag/server_reader_cqtag.h:85-90 | OnError, then OnEnd |
| ClientReading.TraceOfEveryRun | lua-grpc/core/client/impl/client_async_reader_impl.cpp:30-120 | in every run: at most one batch of the chain in flight; the i-th message delivered is that of the i-th read; a status callback, if given, runs exactly once, last, when nothing is in flight any more, although a second tag holds a copy of it |
| ClientReadOutcomes.ReportOfEveryRun | lua-grpc/core/client/impl/client_async_reader_impl.cpp:30-120 | in every run the stream is over exactly after a verdict, which is the final status or the error that happened, and the status callback is told exactly that verdict |
| ClientReadOutcomes.StepCalls | lua-grpc/core/client/impl/client_async_reader_impl.cpp:30-120 | every step makes exactly these callbacks: the message of the read it completes, then the verdict it concludes with |
| ClientReadOutcomes.BatchesOfEveryRun | lua-grpc/core/client/impl/client_async_reader_impl.cpp:30-85 | in every run the batches are the request, one read for each that completed or is in flight, and the final status once the end was seen |
| ClientReading.OkMeansEndOfStream | lua-grpc/core/client/impl/cqtag/client_reader_async_recv_status_cqtag.h:34-41 | OK is reported only after a read met the end of the stream |
| ClientReading.OnReadAsserts | lua-grpc/core/client/impl/client_async_reader_impl.cpp:55-58 | whenever a read can complete the reader was started and has no error |
| ClientReading.StepStartsItsAttempts | lua-grpc/core/client/impl/client_async_reader_impl.cpp:30-85 | every step appends to the log, and counts as in flight, exactly those of its StartBatch calls that gRPC took |
| ClientReading.TagsOfEveryRun | lua-grpc/core/client/impl/client_async_reader_impl.cpp:30-120 | in every run: gRPC took exactly the batches in the log; the live read and final-status tags are those in flight; every other tag, refused ones included, was freed exactly once |
| ClientReading.AsyncReader.Start | lua-grpc/core/client/impl/client_async_reader_impl.cpp:30-41 | new state as specified; invariant kept; later calls do nothing |
| ClientReading.AsyncReader.OnRead | lua-grpc/core/client/impl/client_async_reader_impl.cpp:55-85 | new state as specified; invariant kept; the asserts at 57-58 hold |
| ClientReading.AsyncReader.RecvFinalStatus | lua-grpc/core/client/impl/client_async_reader_impl.cpp:43-53 | the reader keeps its callback and status; a started tag adds a copy of the callback, a refused one is freed and the callback, if any, gets one error |
| ClientReading.RecvStatusTag.DoComplete | lua-grpc/core/client/impl/cqtag/client_reader_async_recv_status_cqtag.h:34-41 | the copied callback gets the final status, or an error |
| CompletionQueues.OwnershipOfEveryRun | lua-grpc/core/common/impl/do_next_completion.cpp:15-58 | in every interleaving of starters, handlers and pumps: a tag is freed exactly once if it is not live and not at all if it is; its handler ran exactly once if gRPC gave it back and never otherwise; no step touches a freed tag |
| CompletionQueues.NothingLeaks | lua-grpc/core/common/impl/do_next_completion.cpp:15-58 | when nothing is being started, in flight or being completed, the frees are all tags, each once |
| CompletionQueues.TurnFacts | lua-grpc/core/common/impl/do_next_completion.cpp:15-35 | a turn of the pump or a call, with any StartBatch calls and answers, leaves no tag with a starter, frees the tag it completed, and changes the live tags of any kind by those taken and that one |
| CompletionQueues.TurnIsARun | lua-grpc/core/common/impl/do_next_completion.cpp:15-35 | such a turn is one of those interleavings |
| CompletionQueues.CompletionQueue.DoNextCompletion | lua-grpc/core/common/impl/do_next_completion.cpp:15-35 | completes one tag and frees it, whatever its handler starts; changes nothing on timeout or shutdown; false exactly on shutdown; the invariant is kept |
| ServerAccept.AcceptsOfEveryRun | lua-grpc/core/server/server.cpp:97-140 | in every run a method has a request exactly if it was registered with a handle when the server started; then exactly one, pending whenever no accept handler runs |
| ServerAccept.ServesWhatWasRegistered | lua-grpc/core/server/server.cpp:47-140 | in every run in which the server starts, a method has exactly one request exactly if the last registration of its service before the start gave it that handle; otherwise none |
| ServerAccept.ShutdownOfEveryRun | lua-grpc/core/server/server.cpp:86-111 | a started server that is shut down stays so; one that was not started cannot be shut down |
| ServerAccept.LateRegistrationIsIgnored | lua-grpc/core/server/server.cpp:47-66 | once the server has started, no registration and nothing else changes which methods have a request |
| ServerAccept.RenewServes | lua-grpc/core/server/impl/cqtag/server_method_call_cqtag.cpp:43-58 | replacing a completed accept request keeps exactly one request for every method served |
| ServerAccept.OtherStepsServe | lua-grpc/core/common/impl/do_next_completion.cpp:15-58 | no other step changes which methods have a request |
| ServerAccept.PumpKeepsInv | lua-grpc/core/common/impl/do_next_completion.cpp:37-58 | one turn of the pump, whatever the handler starts, keeps one request for each served method |
| ServerAccept.PumpIsARun | lua-grpc/core/common/impl/do_next_completion.cpp:37-58 | a turn of the pump is a run of the server that takes the tag, handles it and frees it last |
| ServerAccept.AllMethodsAre | lua-grpc/core/server/server.cpp:124-140 | the requests made at the start are those of all registered methods with a handle, each once, in any order of the map |
| ServerAccept.Server.RegisterService | lua-grpc/core/server/server.cpp:47-60 | the entry of that name is replaced by the service and its handles |
| ServerAccept.Server.ShutdownInternal | lua-grpc/core/server/server.cpp:86-95 | only a started server shuts down, once; requests and registrations stay as they are |
| ServerAccept.Server.Run | lua-grpc/core/server/server.cpp:97-111 | starts the server once, does nothing after shutdown, and otherwise completes the tag the queue has, if any; the invariant is kept |
| ServerAccept.Server.DoTryNextCompletion | lua-grpc/core/common/impl/do_next_completion.cpp:37-58 | the handler runs and the tag is freed; an accept tag is replaced by a request for the same method even if it failed |
| ServerAccept.Server.RequestMethodsCalls | lua-grpc/core/server/server.cpp:124-129 | one request for every method of every service that has a handle |
| ServerAccept.Server.RequestServiceMethodsCalls | lua-grpc/core/server/server.cpp:131-140 | one request for every method of one service that has a handle |
| CodecDecode.SetMsgAfterToTbl | lua-grpc/pb/MessageSetter.cpp:34-248 | for every schema and every well-formed message, filling a new message from its table gives the message back, in whatever order Lua iterates |
| CodecDecode.RoundTrip | lua-grpc/pb/MsgToTbl.cpp:26-181 | the same for the order-free reference: nested, repeated, map, enum and oneof fields |
| CodecValues.PullAfterPush | lua-intf/LuaIntf/impl/LuaType.h:78-116 | every scalar of its kind survives the trip through a Lua value, 64-bit unsigned ones through the signed wrap |
| CodecScalars.ScalarField | lua-grpc/pb/MessageSetter.cpp:34-102 | a singular scalar field holds x after SetField exactly if the Lua value is taken as x: numbers and strings read as Lua reads them, integers kept in range and congruent modulo the width, enum strings by name and else as numbers, anything but nil and false true; any other value is refused |
| CodecScalars.ScalarOfMessage | lua-grpc/pb/MessageSetter.cpp:34-118 | the same for every scalar of a table given to SetMsg, in any order and into any message |
| CodecScalars.UntakenScalarIsRefused | lua-grpc/pb/MessageSetter.cpp:34-118 | a table with a scalar its field does not take is refused as a whole |
| CodecScalars.WhichShapesAreTaken | lua-intf/LuaIntf/impl/LuaType.h:78-240 | which shapes of Lua value each kind takes: integers every kind; numbers and strings also by integer kinds if they read as integers; nil, booleans, tables and the rest only bool |
| CodecScalars.ElementIsTakenAs | lua-grpc/pb/MessageSetter.cpp:163-230 | elements and map values are taken alike, a hole as nil |
| CodecScalars.MapKeyIsTakenAs | lua-grpc/pb/MessageSetter.cpp:214-230 | and so are the keys of map fields |
| CodecScalars.PushIsShownAs | lua-intf/LuaIntf/impl/LuaType.h:78-240 | integers are shown congruent modulo 2^64, floats widened, anything else as it is |
| CodecScalars.NewMessageShows | lua-grpc/pb/MsgToTbl.cpp:26-57 | a new message shows zeros, empty strings, false and empty tables, no unset oneof member and no unset sub-message |
| CodecReference.SetMsgIsEncode | lua-grpc/pb/MessageSetter.cpp:104-118 | on unambiguous tables the walk in any order, into any message, computes the order-free meaning of the table, failure included |
| CodecMerge.GivenField | lua-grpc/pb/MessageSetter.cpp:34-160 | in any order: new elements follow the old ones, new entries override old ones of the same key, a sub-message is filled in place, a scalar is replaced |
| CodecMerge.UngivenField | lua-grpc/pb/MessageSetter.cpp:34-118 | in any order: a field that is not given stays as it was, unless another member of its oneof is given, which clears it |
| CodecOrder.OrderDoesNotMatterIff | lua-grpc/pb/MessageSetter.cpp:104-230 | for every table, type and old message: all orders give the same result exactly if the table is refused or unambiguous, that is, nowhere in it are two members of one oneof given, or map keys that convert alike with values that convert differently |
| CodecOrder.SetMsgSucceedsIff | lua-grpc/pb/MessageSetter.cpp:104-248 | a table is accepted, in any order and into any message, exactly if every string key names a field whose value converts |
| CodecOrder.LastOneofMemberWins | lua-grpc/pb/MessageSetter.cpp:104-118 | in any order, table and old message, the member of a oneof visited last is kept and every other member of it is cleared |
| CodecOrder.LastKeyGivesTheValue | lua-grpc/pb/MessageSetter.cpp:146-160 | of the keys of a map field that convert alike the one visited last gives the value |
| CodecOrder.DistinguishMsg | lua-grpc/pb/MessageSetter.cpp:104-230 | every accepted ambiguous table has two orders that give two messages |
| CodecDecode.EncodeIsWellFormed | lua-grpc/pb/MessageSetter.cpp:34-248 | filling a new message from an unambiguous table gives a well-formed message |
| CodecDecode.EncodeFreshFields | lua-grpc/pb/MessageSetter.cpp:104-118 | a new message filled from a table holds exactly the given fields, converted, and the defaults of the others |
| CodecDecode.NormalIsIdempotent | lua-grpc/pb/MsgToTbl.cpp:26-57 | decoding after encoding is an idempotent normaliser of tables |
| CodecDecode.NormalFields | lua-grpc/pb/MsgToTbl.cpp:33-56 | the normal form has the given fields and those with a default, no other key; given ones are normalised, the others are the default |
| CodecDecode.NormalSingular | lua-grpc/pb/MessageSetter.cpp:234-248 | a singular value is converted; an enum name becomes its number |
| CodecDecode.NormalRepeated | lua-grpc/pb/MessageSetter.cpp:137-144 | a repeated field becomes the sequence from 1 to the length Lua reports, cut to an int, element by element, a hole being read as nil |
| CodecDecode.NormalMap | lua-grpc/pb/MessageSetter.cpp:146-160 | a map field keeps one entry for each converted key, with the normalised value |
| CodecProgram.MessageSetter.SetMsg | lua-grpc/pb/MessageSetter.cpp:104-118 | the loop over the table computes the specified message or fails with it |
| CodecProgram.MessageSetter.SetField | lua-grpc/pb/MessageSetter.cpp:34-102 | one field: shape, kind, oneof and failure as in the specification that CodecScalars.ScalarField and CodecMerge.GivenField are about |
| CodecProgram.MessageSetter.SetRepeatedField | lua-grpc/pb/MessageSetter.cpp:120-144 | the loop appends one element for each index up to the length, which is cut to an int |
| CodecProgram.MessageSetter.SetRepeatedMapField | lua-grpc/pb/MessageSetter.cpp:146-160 | the loop adds one entry for each key; a later equal key replaces |
| CodecProgram.MessageSetter.AddToRepeatedField | lua-grpc/pb/MessageSetter.cpp:163-230 | one new element or map value; a sub-message starts fresh |
| CodecProgram.MsgToTbl.ToTbl | lua-grpc/pb/MsgToTbl.cpp:26-57 | the two loops compute the specified table |
| CodecProgram.MsgToTbl.PlainFields | lua-grpc/pb/MsgToTbl.cpp:33-45 | the first loop writes the fields outside oneofs and collects the oneofs |
| CodecProgram.MsgToTbl.OneofFields | lua-grpc/pb/MsgToTbl.cpp:47-54 | the second loop writes the set member of each oneof |
| CodecProgram.MsgToTbl.GetField | lua-grpc/pb/MsgToTbl.cpp:59-109 | the value of one field; nil exactly for an unset sub-message |
| CodecProgram.MsgToTbl.GetRepeatedField | lua-grpc/pb/MsgToTbl.cpp:112-123 | the elements at 1 .. n |
| CodecProgram.MsgToTbl.GetMapField | lua-grpc/pb/MsgToTbl.cpp:125-135 | one entry for each key of the map field |
| ClassRegistry.StepKeepsInv | lua-intf/LuaIntf/src/CppBindClass.cpp:272-406 | every registration keeps the invariant: each registered class has its three tables, linked side by side to those of its declared super class, which are older; the class and const tables have equal member, getter and setter names, and the const one holds only const functions or error functions |
| ClassRegistry.BuildKeepsInv | lua-intf/LuaIntf/src/CppBindClass.cpp:272-331 | a new class leaves the tables of all others as they were |
| ClassRegistry.LinkKeepsInv | lua-intf/LuaIntf/src/CppBindClass.cpp:333-345 | linking a new class to an older one keeps the invariant |
| ClassRegistry.FillKeepsInv | lua-intf/LuaIntf/src/CppBindClass.cpp:347-406 | every entry set by the setMember and setStatic functions keeps the invariant |
| ClassLookup.FindIsMostDerived | lua-intf/LuaIntf/src/CppBindClass.cpp:64-134 | member access finds what the first class on the declared way up offers, and misses only what none of them offers |
| ClassAccess.ReadingFinds | lua-intf/LuaIntf/src/CppBindClass.cpp:57-134 | reading, in terms of the tables: a member hides the indexer, the indexer answers numbers and hides the getter, a getter answers its name, and a class with none of them passes on to its super class |
| ClassAccess.WritingFinds | lua-intf/LuaIntf/src/CppBindClass.cpp:161-256 | writing: the indexer answers numbers and hides the setter, a setter answers its name, anything else is passed on |
| ClassAccess.FunctionIsFound | lua-intf/LuaIntf/src/CppBindClass.cpp:394-406 | after setMemberFunction every object of the class finds the function, a const one only if it is const and else the error function |
| ClassAccess.GetterIsFound | lua-intf/LuaIntf/src/CppBindClass.cpp:363-372 | after setMemberGetter an object finds the getter for its own constness, unless a member or indexer hides it |
| ClassAccess.SetterIsFound | lua-intf/LuaIntf/src/CppBindClass.cpp:374-382 | after setMemberSetter an object finds the setter, a const one the error function |
| ClassAccess.ReadOnlyIsFound | lua-intf/LuaIntf/src/CppBindClass.cpp:384-392 | after setMemberReadOnly every object finds the error function |
| ClassAccess.IndexerIsFound | lua-intf/LuaIntf/src/CppBindClass.cpp:394-406 | an indexer registered as a member function answers every number |
| ClassAccess.StaticIsFound | lua-intf/LuaIntf/src/CppBindClass.cpp:347-361 | after setStaticGetter, setStaticSetter and setStaticReadOnly the class finds them |
| ClassAccess.OtherNamesStay | lua-intf/LuaIntf/src/CppBindClass.cpp:347-406 | a registration changes no lookup of another name from any table |
| ClassAccess.OtherClassesStay | lua-intf/LuaIntf/src/CppBindClass.cpp:347-406 | a registration changes no lookup for a class that is not the registered one or a descendant |
| ClassAccess.NewClassFinds | lua-intf/LuaIntf/src/CppBindClass.cpp:272-331 | objects of a new class find the class under its key and nothing else |
| ClassAccess.DerivedClassInherits | lua-intf/LuaIntf/src/CppBindClass.cpp:333-345 | objects of a new derived class find everything else exactly as objects of the super class do |
| ClassAccess.NewStaticsInherit | lua-intf/LuaIntf/src/CppBindClass.cpp:333-345 | and its static side what that of the super class finds |
| ClassLookup.SameLevel | lua-intf/LuaIntf/src/CppBindClass.cpp:34-256 | a const object resolves every key at the same class as another object: to the same entry where that is const, to an error function where it is not |
| ClassLookup.ConstFindIsSafe | lua-intf/LuaIntf/src/CppBindClass.cpp:139-256 | a const object never finds a non-const member function, and no property setter |
| ClassLookup.TypeCheckOfEveryRun | lua-intf/LuaIntf/src/CppObject.cpp:60-145 | after any registrations getObject accepts an object exactly if its class is the requested one or a descendant and a const object is not asked for as non-const; an exact request exactly if class and constness agree; the chains end |
| ClassLookup.CheckIsIsA | lua-intf/LuaIntf/src/CppObject.cpp:106-142 | the same for any state that meets the invariant |
| ClassLookup.OtherVerdicts | lua-intf/LuaIntf/src/CppObject.cpp:60-105 | no userdata of this library, or a class never registered, are told apart from a mismatch |
| ClassLookup.ReachesIsIsA | lua-intf/LuaIntf/src/CppObject.cpp:106-142 | walking the links from one table reaches another exactly if the sides agree and the declared hierarchy says is-a |
| ClassLookup.FoundFunctionsAcceptTheObject | lua-intf/LuaIntf/src/CppBindClass.cpp:394-406 | whatever member function or indexer an object finds accepts the object, const or not; an accessor accepts it unless the object is const and the accessor is not |
| ClassLookup.OnlyConstFunctionsRun | lua-intf/LuaIntf/src/CppBindClass.cpp:363-406 | after any registrations: what a const object finds accepts it exactly if it is const, and no setter is found |
| ClassLookup.LinksDescend | lua-intf/LuaIntf/src/CppObject.cpp:122-140 | every link leads to an older table, so the loops end |
| ClassProgram.Registry.BuildMetaTable | lua-intf/LuaIntf/src/CppBindClass.cpp:272-331 | new state as specified; an existing name gives the class that has it |
| ClassProgram.Registry.ExtendMetaTable | lua-intf/LuaIntf/src/CppBindClass.cpp:333-345 | new state as specified; invariant kept |
| ClassProgram.Registry.SetMemberFunction | lua-intf/LuaIntf/src/CppBindClass.cpp:394-406 | both tables updated as specified; invariant kept |
| ClassProgram.Registry.SetMemberGetter | lua-intf/LuaIntf/src/CppBindClass.cpp:363-372 | both tables updated as specified; invariant kept |
| ClassProgram.Registry.SetMemberSetter | lua-intf/LuaIntf/src/CppBindClass.cpp:374-382 | both tables updated as specified; invariant kept |
| ClassProgram.Registry.SetMemberReadOnly | lua-intf/LuaIntf/src/CppBindClass.cpp:384-392 | both tables updated as specified; invariant kept |
| ClassProgram.Registry.SetStaticGetter | lua-intf/LuaIntf/src/CppBindClass.cpp:347-350 | the static table updated as specified; invariant kept |
| ClassProgram.Registry.SetStaticSetter | lua-intf/LuaIntf/src/CppBindClass.cpp:352-355 | the static table updated as specified; invariant kept |
| ClassProgram.Registry.SetStaticReadOnly | lua-intf/LuaIntf/src/CppBindClass.cpp:357-361 | the static table updated as specified; invariant kept |
| ClassProgram.Registry.Index | lua-intf/LuaIntf/src/CppBindClass.cpp:34-137 | the loop ends and finds what the specification finds |
| ClassProgram.Registry.NewIndex | lua-intf/LuaIntf/src/CppBindClass.cpp:139-256 | the loop ends and finds what the specification finds |
| ClassProgram.Registry.GetObject | lua-intf/LuaIntf/src/CppObject.cpp:60-145 | the loop ends with the specified verdict |
| StackTraceback.CountLevels | lua-intf/LuaIntf/src/LuaCompat.cpp:338-357 | for every depth from 1 doubling and bisection return the last valid level; no number either loop computes exceeds 3 * depth + 1, so an int does not overflow up to 0x2AAAAAAA levels |
| StackTraceback.Traceback | lua-intf/LuaIntf/src/LuaCompat.cpp:416-443 | the loop ends and prints the specified lines |
| StackTraceback.LevelsIncrease | lua-intf/LuaIntf/src/LuaCompat.cpp:425-441 | every printed level exists and levels strictly increase |
| StackTraceback.WhichLevels | lua-intf/LuaIntf/src/LuaCompat.cpp:425-441 | started at a level up to 11 of a stack deeper than 23, exactly the levels up to 10 and the last 11 are printed, with one marker; otherwise all, with none |
| StackTraceback.LineByLine | lua-intf/LuaIntf/src/LuaCompat.cpp:425-441 | line by line: levels up to 10, the marker directly after them, then the last 11 levels; without elision consecutive levels |
| StackTraceback.FramesAreBounded | lua-intf/LuaIntf/src/LuaCompat.cpp:416-443 | at most 23 frames are printed exactly if the start is at most 11 or at most 23 levels are left |

## Left out

- The gRPC C core, protobuf serialisation, sockets, credentials and thread start-up: foreign code; batches, requests and completions are the environment's choices.
- The Lua binding glue, `CbWrapper`, the Lua files and `Net.cpp`: thin forwarding.
- Synchronous client readers and writers, `ServerReplierImpl`, `string_ref`, timeouts, operation counts: easy members.
- `CppInvoke`, `CppArg`, `LuaRef` and `LuaTableIterator` registry slots, Qt mapping: C++ type machinery and resource handles.
- The completions of the two init batches and of the half-close batch have no handler of their own; they are steps of the tag models only.
- BidiProgram.ReaderWriter.CallbackReturns: requires what the source asserts, a stream that is still OK; what follows a failed assert, and a status callback that calls the stream again, are not modelled.
- ServerWriter.Writer.TryToWriteNext: the pop of a cleared queue after a failed start is modelled as no pop.
- WriterThreads.QueueIsBounded: the high mark is fixed during a run, and threads write only through Write.
- The spin loops of SyncWrite and SyncClose are program counters or progress lemmas; fairness of the scheduler, hence that SyncWrite returns while others keep writing, is not modelled.
- ServerReading.Reader.Start: one chain for each reader; a second Start of the same reader is not modelled.
- ServerAccept.AcceptsOfEveryRun: assumes that gRPC grants every accept request, also after a shutdown.
- The shutdown notification, whose tag is the server itself; `Run` no longer pumps once the server is shut down.
- Memory is freed by number: a tag is its batch; the metadata and byte buffers it owns are not modelled.
- CodecDecode.SetMsgAfterToTbl: messages with implicit presence of scalars, unique map keys and map values present; proto2 presence outside oneofs is not modelled.
- CodecProgram.MessageSetter.SetMsg: what a message holds after an exception half-way is not stated.
- CodecProgram.MessageSetter.SetRepeatedField: the loop counter itself does not overflow after 2^31 - 1 elements.
- Doubles and floats are opaque, with one law: a float survives being widened. Lua's conversions between numbers and strings are parameters. Lua before 5.3 is not modelled.
- ClassRegistry.StepKeepsInv: names that metatables reserve for themselves (`___getters`, `___super`, `__gc` and the like) are kept apart from member names, while in Lua they share one table.
- Meta functions, constructors and factories, which are plain entries of the static or class tables; `LUAINTF_EXTRA_LUA_FIELDS` (off by default) and automatic downcasts.
- ClassProgram.Registry.GetObject: every userdata is one of this library; a foreign userdata with a metatable of its own is not modelled.
- How a printed frame looks (source name, line, function name) in the traceback.
