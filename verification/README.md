# zero-postgres: a model of its protocol core, with proofs

zero-postgres is a PostgreSQL client library written in Rust. This project models the parts of it
whose correctness is not local to one function: the connection flags and the asynchronous pipeline,
the sans-I/O state machines, both NUMERIC decoders, and the byte layer. It states, for every input
and every run, what those parts promise.

## How the model is built

**The server** (`Server.dfy`, `Exchange.dfy`). A client sends *units*: one queued execution, one
Sync, one simple query, and so on. A PostgreSQL server answers each unit as the "Message Flow"
section of the Frontend/Backend Protocol chapter allows. An automaton (`Start`, `Next`, `Reply`)
says which message sequences are whole replies: asynchronous messages may come anywhere and an error
may come at any point before ReadyForQuery. After an error the server skips to the next Sync, and
after a fatal error it is gone (`Mode`, `Conforms`, `Chain`). The n-th reply is an arbitrary
conforming function of the unit and the mode, so every theorem holds for every such server.

**The wire** (`Server.Wire`). Every write and every read is an await. A schedule decides what
becomes of each one: it proceeds, it fails with an I/O error, or the future is never resumed
(`Dropped`: cancelled, forgotten, or unwound by a panic). An interrupted write delivers an arbitrary
number of its units and cuts the next one, to which the server may answer anything. A handler
callback may fail or panic as well. The schedule and the handlers' verdicts are arbitrary, so "for
all schedules" covers cancellation at every await point.

**Drivers and pipeline** (`Connection.dfy`, `PipelineQueue.dfy`, `Pipeline.dfy`, `Plan.dfy`, `PipelineScope.dfy`,
`LostSync.dfy`, `StaleTicket.dfy`, `UnfinishedFlush.dfy`, `ForgottenAbort.dfy`, `Session.dfy`,
`Transactions.dfy`).
`Conn` and `Pipeline` are classes with the fields of the Rust structs. `Conn.InStep` says that
nothing the server sent is unread, that it is executing, and that the cached transaction status is
the one it last reported. `Conn.Valid` says that a connection that calls itself usable is in step.
`Pipeline.Coupled` links the queue, the counters, `aborted`, the unsent buffer and the unread stream.
A ticket carries the connection and the execution it was issued for (`conn`, `tag`), which the source
does not keep, so that a claim can be compared with what its ticket was meant for. Most pipeline
operations are specified from any state at all: from one that fits the stream (`Valid`), from one left
behind by parameters that did not encode (`Spoiled`), and from one that fits nothing any more (`Lost`).
`Session.Run` performs any sequence of calls, and `PipelineScopes.InPipeline` is `Conn::pipeline` with
any closure. As long as the connection can go on, the client's side of a pipeline (its queue, its
counters, its tickets, what is unsent and what is owed) follows from the calls alone: `Plans.Planned`
computes it for the deeds of a closure, and `Sessions.Foreseen` for the calls of a run. What these
results assume and promise is said in terms of them, so a caller can tell it before the first call.
The tokio and the compio code are twins, and the tokio lines are the ones cited.

**State machines** (`ExtendedQuery.dfy`, `SimpleQuery.dfy`, `Batch.dfy`, `BatchPrepare.dfy`,
`Portals.dfy`, `Startup.dfy`, `Scram.dfy`). Each machine is a class with the source's states. A
machine is driven over whole reply streams of unbounded length.

**Numbers and bytes** (`Numeric.dfy`, `NumericValue.dfy`, `Decimal.dfy`, `Codec.dfy`,
`BufferedStream.dfy`, `Params.dfy`, `Frontend.dfy`). The printing loops, the Horner accumulation,
the back-patching writer and the compacting reader are imperative methods. They are proved against
functions whose meaning is proved separately.

## Main results

- **No desynchronisation.** After any run, whatever was interrupted, a connection whose `is_broken()` is
  false has no response to bytes already sent left unread, and its transaction status is what the last
  status byte of the server says (`Sessions.Session.Run`, `Connection.Conn.Query` and its siblings). Two
  calls are not made in such a run, and a caller can tell both beforehand: a claim that steals a Sync,
  and a flush behind parameters that did not encode. A closure may make them, and goes on after them:
  afterwards a connection that calls itself usable is in step iff its deeds, folded by `Planned`, make
  neither (`PipelineScopes.InPipeline`).
- **Failure is sticky.** Once a connection is broken with no scope left to complete it, it stays so,
  sends no byte, and refuses every call that would (`Sessions.Session.Run`).
- **Claims match executions.** Whenever the connection can go on after a claim in its turn, the handler
  heard exactly the rows, with their columns, and the end the server sent for the first execution in the
  queue, and "pipeline aborted" is reported exactly for executions the server skipped. An interrupted
  claim told a prefix of that. That execution is the one the ticket was issued for iff this handle
  handed the ticket out since its last cleanup and the pending count is the number of executions in the
  queue (`Pipelining.Pipeline.ClaimWithHandler`, `Pipelining.Pipeline.OwnIff`). Over whole closures and
  runs, which claims tell of their executions follows from the deeds or calls (`Plans.Promised`,
  `Sessions.Recordings`). They are all recorded, with their tickets and results, if the connection can
  go on, and no others ever are (`PipelineScopes.InPipeline`, `Sessions.Session.Run`).
- **Aborts mirror the server.** At any point of any run, a pipeline whose last cleanup, if any, did not
  leave `is_broken()` true is aborted iff the server skips what is read next
  (`Pipelining.Pipeline.AbortMirrors`, `Sessions.Session.Run`).
- **Cleanup recovers, and exactly when.** Undisturbed, it leaves the connection usable iff the last
  thing it waits for is a Sync and no Sync is answered with an error (`Pipelining.Pipeline.Cleanup`).
  For a closure whose parameters encode and that claims in turn, that is a condition on its deeds
  (`PipelineScopes.InPipeline`), and the closure of the documentation, for any number of executions,
  meets it: all its claims are answered, each with its own execution (`PipelineScopes.TypicalClosure`).
- **Undisturbed work succeeds.** Every driver, and every orderly closure, also has the converse: if no
  await is interrupted, no handler fails and the server does not fail, then the connection is usable
  afterwards. Refusing all work is therefore not an implementation of these contracts.
- **Callbacks.** An extended execution makes a start, the rows in order and an end, or an end alone, or
  a prefix of these; it is complete if there was no error. A row carries the columns last described
  before it. A simple query makes whole results, for any message sequence at all.
- **A batch is an atomic prefix** of whole chunks of its own statement and parameter sets, however it
  ends, outside an explicit transaction (`Connection.Conn.ExecBatch`).
- **Batch prepare is positional**: statement i is what reply i describes, and no statement number is
  issued twice over any run.
- **NUMERIC text is exact**: on the bytes a server sends for a canonical number (`Numerics.Sent`), it
  denotes the sum of digit i times 10000 to the power (weight - i). The two decoders agree on a
  canonical number that has a decimal iff its digits fit 128 bits.
- **The buffered reader refines the plain one**, for all ways of splitting the stream.
- **Round trips** of framing, Parse, Bind (iff there is a target type for each parameter) and parameter
  blocks. Encoding fails iff a value is out of range.
- **SCRAM** completes and is mutual, with a server that knows the client by its messages alone. Startup
  that chose SASL finishes only after the server was verified, and startup that requires TLS finishes
  only over it.

## Where the code does less than one might expect

- **An aborted claim pops the queue front unseen** (src/tokio/pipeline/mod.rs:391-400). If the
  caller queued a Sync of its own there, the Sync is lost. `Steals` says when, and a caller can check
  it. Any other claim keeps the invariant, and after a stealing one *no* reading of the queue fits the
  stream (`Lost`): exactly one ReadyForQuery more is to come than Syncs are queued, and no later call
  lowers that number while the server lives. The damage shows at the cleanup. Whenever it leaves the
  connection usable, and the server is alive, a response is unread: "no desynchronisation" fails
  (`LostSync.Derail`). `LostSync.LoseSync` is a concrete run: failing execution, flush, claim, sync,
  execution, claim, cleanup. It ends with `is_broken()` false and responses unread.
- **A ticket is only a number** (src/pipeline.rs:9-15), a copy that outlives what it was issued for, and
  a cleanup counts from zero again (src/tokio/pipeline/mod.rs:157-159). `StaleTickets.ClaimStale` is a
  run of two executions, with a cleanup between them, or on two pipelines one after the other: claimed
  with the first ticket, the second execution yields its own rows with the first one's columns. Nothing
  fails, and the claim is a success. On an aborted pipeline with nothing queued, a stale ticket counts
  a claim that no execution answers for. `pending_count` is then below zero, where the source subtracts
  unsigned numbers, and the next ticket handed out is not the next in turn (`StaleTickets.Overclaim`).
- **Cleanup forgets that the server is skipping.** Cleanup sends a Sync when none is queued, rather
  than when the last entry is not one (src/tokio/pipeline/mod.rs:134-139). When its last entry is a
  flushed execution, the connection stays unusable (`EndsAtSync`). When that execution also failed,
  `aborted` is reset while the server still skips (`Forgotten`). This happens iff the cleanup left
  `is_broken()` true and the server skipping, so a caller can tell. If such a handle is used again,
  a later cleanup meets a ReadyForQuery where it expects a reply, and fails
  (`ForgottenAbort.ForgetAbort`). A claim after exec and flush does not come to an end, although nothing
  disturbs it and the server lives (`ForgottenAbort.ClaimForgotten`).
- **An error that answers a Sync leaves the exchange open** (src/tokio/pipeline/mod.rs:321-359), even a
  recoverable one, such as that of a deferred constraint: the ReadyForQuery behind it is not read. The
  claim or the cleanup that meets it leaves the connection unusable. Undisturbed, that is the only error
  of the server's with this effect, and the contracts say so: `LeadClean` for a claim, `CleanFrom` for a
  cleanup and a closure.
- **Parameters that do not encode inside a pipeline** use up a ticket number and leave half a message
  in the write buffer (src/tokio/pipeline/mod.rs:217-262). Cleanup then leaves the connection usable iff
  nothing was queued and nothing owed. Otherwise it sends the half message with its Sync, and the server
  ends the session (`PipelineScopes.InPipeline`). Whatever else is called on the handle before, as
  long as no Sync is stolen, the connection is in step if it calls itself usable, with one exception. If
  the half message is flushed behind a Sync, a cleanup sends nothing, reads up to the answer of that Sync,
  and the connection calls itself usable with its session over (`UnfinishedFlush.FlushUnfinished`).
- **Some recoverable server errors leave an exchange unfinished.** An error inside `prepare_batch`,
  `lowlevel_bind`, or a portal's bind, execute or close makes the connection unusable, although the
  error itself is not fatal. The contracts say so (`r.Done? <==> !IsBroken()`).
- **An empty query fetched through a portal** is reported as a library bug and breaks the connection
  (src/tokio/conn.rs:1080-1149).
- **A Bind whose parameters do not encode** stays in the write buffer as an unfinished message with
  length zero. One whose parameters and target types differ in number is written whole all the same, with
  the values of the shorter list and the count of the parameters (`Frontend.WriteBind`). With fewer
  parameters than types, a server takes the next format for the number of values, so it reads one value at
  most (`Frontend.BindTooFew`); with more, it takes the number of values for a format
  (`Frontend.BindTooMany`).
- **A cancelled `fill_buf` loses the read buffer** (src/compio/stream.rs:90-115), and with it the
  capacity to read: no read of a byte or of a message ever succeeds again
  (`BufferedStreams.BufferedStream.ReadU8`, `BufferedStreams.BufferedStream.ReadMessage`).
- **`Decimal::from_binary` accumulates in 128 bits.** A build that checks its arithmetic panics beyond
  that; one that does not wraps around, and decodes 2^128 + 1 as 1 (`Decimals.WrapsAround`). What is
  decoded is the number iff its digits fit (`Decimals.MeansIff`). It reads digits without a sign, takes
  infinities for numbers, and panics on a mantissa beyond 96 bits rather than failing.
- **A negative number of NUMERIC digits** is cast to a huge one, and the allocation panics
  (src/conversion/numeric_util.rs:26-64).

## Model

| member | source | states |
|---|---|---|
| Server.NoRows | src/tokio/pipeline/mod.rs:511-568 | Binding, Sync and a statement without columns are answered without rows. |
| Server.DeadForEver | src/tokio/conn.rs:236-270 | After a fatal error the server answers nothing more. |
| Server.Wire.WriteAll | src/tokio/pipeline/mod.rs:271-287 | However a write is interrupted, the server got a prefix of its units and answered them one by one, and perhaps half of the next; it got all of them if the call succeeded. |
| Server.Wire.WriteUnfinished | src/tokio/pipeline/mod.rs:242-262 | A buffer that ends in half a message ends the session: the server answers the units before it, with not one ReadyForQuery more, and is gone. |
| Server.Wire.ReadMessage | src/sync/stream.rs:73-90 | A read yields the first unread message, or fails or is abandoned with nothing consumed; if nothing interrupts it and something is unread, it succeeds. |
| Server.StatusByByte | src/protocol/types.rs:61-68 | The status last reported is InTransaction iff the last status byte is 'T', Failed iff it is 'E', and idle otherwise. |
| Exchange.IsExchange | src/state/extended.rs:424-465 | The answers to any plain units and the Sync behind them form one stream, with errors possible anywhere, that ends at ReadyForQuery or with the server gone. |
| Exchange.JustQuery | src/state/simple_query.rs:173-208 | The answer to a simple query is an exchange of its own. |
| Exchange.Skips | src/tokio/pipeline/mod.rs:351-359 | A skipping server answers any number of units with nothing and the Sync with ReadyForQuery. |
| Exchange.ErrorIff | src/state/extended.rs:360-386 | An exchange ends with an error iff an error message was in it, and with one that breaks the connection only if something fatal was sent. |
| Exchange.ErrorIs | src/state/extended.rs:360-386 | The error an exchange ends with is the last one in it. |
| Machines.Recorder.Call | src/state/extended.rs:305-359 | A handler sees every callback once, in order, and may refuse any of them. |
| Machines.OnePrefix | src/state/extended.rs:305-359 | A prefix of start, rows, end is still such a prefix, so interruption at any callback keeps the shape. |
| Machines.ResultMessages | src/state/extended.rs:277-400 | The messages that make up results are the RowDescriptions, DataRows and CommandCompletes of a stream. |
| Machines.CallsTell | src/state/extended.rs:277-400 | Whatever else is in a stream, the callbacks tell its results one by one: a start for each RowDescription, each row with the columns last described before it, an end with its tag. |
| Machines.LearnsStatement | src/state/extended.rs:235-275 | Of a whole reply without an error, a statement learns the types of the ParameterDescription and the columns of the RowDescription, or that there are none. |
| ExtendedQueries.CallShape | src/state/extended.rs:211-385 | For every exchange of an execution the callbacks are start, rows in order, end, or an end alone, or a prefix; they carry exactly the rows sent; without an error they are complete. |
| ExtendedQueries.RowCalls | src/state/extended.rs:305-359 | From the first row phase on, callbacks are the rows sent, then perhaps one end. |
| ExtendedQueries.RowsComplete | src/state/extended.rs:305-359 | Without an error and an empty query the last callback is the end. |
| ExtendedQueries.ExtendedQuery.constructor | src/state/extended.rs:100-210 | A fresh machine remembers its operation, has written exactly that operation and a Sync, and, for a prepare, holds a blank statement with its number. |
| ExtendedQueries.ExtendedQuery.HandleParse | src/state/extended.rs:211-234 | ParseComplete leads a prepare to the description and raw SQL to the bind. |
| ExtendedQueries.ExtendedQuery.HandleDescribe | src/state/extended.rs:235-252 | The parameter types are recorded as sent. |
| ExtendedQueries.ExtendedQuery.HandleRowDesc | src/state/extended.rs:253-277 | The columns are recorded as sent, or none for NoData. |
| ExtendedQueries.ExtendedQuery.HandleBind | src/state/extended.rs:278-304 | BindComplete moves on without a callback. |
| ExtendedQueries.ExtendedQuery.HandleRows | src/state/extended.rs:305-359 | Each message of a result makes exactly the callback it stands for, and the terminal ones end the result. |
| ExtendedQueries.ExtendedQuery.HandleReady | src/state/extended.rs:360-386 | ReadyForQuery finishes with its status and raises the pending error, if any. |
| ExtendedQueries.MovesOn | src/state/extended.rs:211-386 | In each phase only the messages its handler accepts are allowed, and each leads where the machine goes. |
| ExtendedQueries.ExtendedQuery.Handle | src/state/extended.rs:424-465 | A message that is neither asynchronous nor an error is handled by the state it meets, with exactly its callback, and the machine follows the server. |
| ExtendedQueries.ExtendedQuery.Step | src/state/extended.rs:424-465 | On every allowed message the machine follows the server, makes the callbacks the message stands for, and finishes on ReadyForQuery alone with the last error. |
| ExtendedQueries.ExtendedQuery.Advance | src/state/extended.rs:424-465 | Over a whole exchange: it stops only at its last message, with that status, all callbacks made, the statement learned, and an error iff one occurred. |
| SimpleQueries.SimpleQuery.HandleResponse | src/state/simple_query.rs:47-86 | Between two results: a start, an end alone, an empty query or the finish; anything else fails. |
| SimpleQueries.SimpleQuery.HandleRows | src/state/simple_query.rs:87-117 | Inside a result: its rows and its end; anything else fails. |
| SimpleQueries.SimpleQuery.HandleReady | src/state/simple_query.rs:118-135 | Only ReadyForQuery finishes, raising the pending error. |
| SimpleQueries.SimpleQuery.Step | src/state/simple_query.rs:173-208 | Whatever is sent, callbacks stay whole results or a prefix, and success comes on ReadyForQuery alone; on allowed messages the machine follows the server. |
| SimpleQueries.SimpleQuery.Advance | src/state/simple_query.rs:173-208 | Over a whole exchange: it stops only at its last message, with that status, all callbacks made, and an error iff one occurred. |
| SimpleQueries.SimpleQuery.Replay | src/state/simple_query.rs:47-134 | For any message sequence, conforming or not: the callbacks are repetitions of (start, rows, end) or (end), or a prefix, and the first ReadyForQuery is the only successful stop. |
| SimpleQueries.WalkOn | src/state/simple_query.rs:47-134 | One more callback extends a sequence of results iff it fits where the handler is. |
| Batches.Batch.Step | src/state/extended.rs:657-742 | The chunk machine follows the server through Parse and every Bind and Execute and keeps the last error until ReadyForQuery. |
| Batches.Batch.Advance | src/state/extended.rs:657-742 | Over a whole chunk: it stops only at ReadyForQuery, with that status, and with an error iff one occurred. |
| Batches.ChunkSucceeds | src/tokio/conn.rs:776-833 | A chunk without an error makes all of its parameter sets durable, once and in order, at its Sync. |
| Batches.ChunkFails | src/tokio/conn.rs:776-833 | A chunk with an error makes none of them durable. |
| Batches.NotYet | src/tokio/conn.rs:836-868 | Nothing of a chunk whose Sync was not received takes effect. |
| Batches.ChunkOutcome | src/tokio/conn.rs:836-868 | However a chunk ends, all of it or nothing took effect; all of it iff it was received whole and met no error. |
| Batches.Batched | src/tokio/conn.rs:789-833 | A batch sends, for each chunk, the Parse of its own text if it is raw SQL, each of its parameter sets with its own statement, and one Sync. |
| Batches.BatchedOn | src/tokio/conn.rs:789-833 | What was sent of one more chunk continues what was sent before, in the order of the batch. |
| BatchPrepares.BatchPrepare.constructor | src/state/batch_prepare.rs:41-68 | For every query, in order, one Parse and Describe with its text and its own statement name, numbered consecutively from the start, and one Sync at the end. |
| BatchPrepares.BatchPrepare.Step | src/state/batch_prepare.rs:79-143 | Each message fills what it says into the current statement, the cursor advances with each description, and an error is raised at once. |
| BatchPrepares.BatchPrepare.Advance | src/state/batch_prepare.rs:79-143 | Over a whole exchange: success comes only at ReadyForQuery with every slot filled, and failure only for a server error. |
| BatchPrepares.FilledInOrder | src/state/batch_prepare.rs:79-143 | For any number of queries, with asynchronous messages anywhere, statement i holds exactly what the i-th reply said. |
| BatchPrepares.DescribedInOrder | src/state/batch_prepare.rs:79-143 | Without an error statement i is what reply i describes, for any number of statements. |
| BatchPrepares.FirstPrepared | src/state/batch_prepare.rs:79-143 | In an exchange without an error the first query's reply comes first and whole, and the rest is the exchange of the other queries. |
| BatchPrepares.Consecutive | src/state/batch_prepare.rs:41-68 | Statement i has number start plus i. |
| Portals.Binding.Step | src/state/extended.rs:558-620 | Binding follows the server to BindComplete and raises an error at once, as no Sync follows. |
| Portals.FetchShape | src/tokio/conn.rs:1080-1149 | The callbacks of one fetch are one result, or the part that fits the row limit, with exactly the rows sent. |
| Portals.Deliver | src/tokio/conn.rs:1080-1149 | Each message of a fetch makes its callback; CommandComplete and PortalSuspended end it and say whether rows are left; any other is an error. |
| Connection.AreOneResult | src/tokio/conn.rs:601-637 | Callbacks interrupted anywhere are a prefix of one result; uninterrupted they tell each RowDescription, DataRow and CommandComplete sent, in order, each row with the columns last described before it, and are complete without an error. |
| Connection.PreparedAsDescribed | src/tokio/conn.rs:488-594 | A statement prepared without an error has the types and columns the server described. |
| Connection.Conn.constructor | src/tokio/conn.rs:77-153 | A new connection is usable and in step with its server. |
| Connection.Conn.BeginExchange | src/tokio/conn.rs:259-263 | An exchange starts iff none is open and nothing is broken; from then on the connection is unusable. |
| Connection.Conn.FinishExtended | src/tokio/conn.rs:351-399 | The driver's loop finishes the exchange only at ReadyForQuery with nothing unread, the status reported there, all callbacks made and the error of the exchange; undisturbed, it always gets there. |
| Connection.Conn.DriveExtended | src/tokio/conn.rs:351-399 | The whole drive of an extended machine: in step if ready, every callback a prefix of what the server said, and ready if undisturbed. |
| Connection.Conn.FinishSimple | src/tokio/conn.rs:351-399 | The same loop for a simple query, with whole results whatever happens. |
| Connection.Conn.DriveSimple | src/tokio/conn.rs:351-399 | The whole drive of a simple query: in step if ready, and ready if undisturbed. |
| Connection.Conn.Query | src/tokio/conn.rs:402-418 | If usable afterwards: exactly this text was sent, the handler has exactly the results sent, each row with the columns last described before it, and the call fails iff the server reported an error; on a broken connection nothing happens. |
| Connection.Conn.Exec | src/tokio/conn.rs:601-637 | Raw SQL is sent with its text and these parameters, a statement with its name and these parameters, and one Sync behind it: its handler sees one result or a prefix; if usable afterwards, exactly the rows sent with the columns described, and an error iff the server reported one; parameters that do not encode send nothing. |
| Connection.Conn.Prepare | src/tokio/conn.rs:488-594 | This text, with these types, under a fresh name, is prepared; the types are those of the ParameterDescription sent, and the columns those of the RowDescription, or none if NoData was sent; it fails on a usable connection iff the server reported an error. |
| Connection.Conn.CloseStatement | src/tokio/conn.rs:871-893 | If usable afterwards, exactly this statement's name was sent to be closed and answered up to ReadyForQuery, and the call fails iff the server reported an error. |
| Connection.Conn.FinishPrepares | src/tokio/conn.rs:539-574 | The loop finishes the exchange iff it succeeds, with every statement filled. |
| Connection.Conn.PrepareBatchInner | src/tokio/conn.rs:539-574 | On success statement i has the parameter types and the columns that reply i describes; otherwise the exchange stays open. |
| Connection.Conn.PrepareBatch | src/tokio/conn.rs:521-537 | Statement i has number i past the last one used, and the parameter types and columns the i-th reply describes; the numbers are used up even on failure; the connection stays usable iff the call succeeds. |
| Connection.Conn.FinishBatch | src/tokio/conn.rs:836-868 | The loop for a chunk finishes the exchange iff it saw ReadyForQuery, and then with the error of the exchange. |
| Connection.Conn.WriteChunk | src/tokio/conn.rs:776-833 | A chunk is written iff all of its parameter sets encode, as Parse (if needed), one Bind and Execute per set, in order, and a Sync. |
| Connection.Conn.DriveBatch | src/tokio/conn.rs:836-868 | One chunk sent and driven: ready iff it ended with success or a server error. |
| Connection.Conn.RunChunk | src/tokio/conn.rs:776-833 | One chunk after others: what was sent continues the batch of this text and these parameter sets; afterwards all of the chunk or nothing of it was added to what is durable, and nothing if it failed with an encoding or server error. |
| Connection.Conn.ExecBatchInner | src/tokio/conn.rs:776-833 | The loop over chunks: what was sent is a beginning of the batch, all of it on success, and what is durable is exactly the first k chunks. |
| Connection.Conn.ExecBatch | src/tokio/conn.rs:758-774 | However it ends, what was sent is a beginning of this statement with these parameter sets, chunk by chunk, all of it on success; exactly the first k chunks of max(chunk size, 1) took effect, once and in order: all on success, those before the failing chunk on an encoding or server error. Undisturbed, it succeeds iff every parameter set encodes and the server reports no error. |
| Connection.Conn.LowlevelFlush | src/tokio/conn.rs:896-908 | One write, no answer consumed; usable iff it succeeded. |
| Connection.Conn.FinishSync | src/tokio/conn.rs:927-972 | Waiting for ReadyForQuery keeps an error until it came; a fatal error breaks the connection at once. |
| Connection.Conn.LowlevelSyncInner | src/tokio/conn.rs:927-972 | A Sync within a scope: ready only after its ReadyForQuery, with the error on the way, if any. |
| Connection.Conn.LowlevelSync | src/tokio/conn.rs:916-926 | A Sync: usable afterwards only if its ReadyForQuery was read, and failing iff the server reported an error. |
| Connection.Conn.DriveBinding | src/tokio/conn.rs:1000-1049 | This source with these parameters is bound to this portal: ready afterwards iff every completion came; an error leaves the exchange unfinished. |
| Connection.Conn.FinishBinding | src/tokio/conn.rs:1000-1049 | The loop after a bind finishes the exchange iff it succeeds, at BindComplete, with nothing unread; undisturbed, it succeeds unless the server reports an error. |
| Connection.Conn.LowlevelBind | src/tokio/conn.rs:982-999 | The same for a public bind of a statement, with exactly these names and parameters; parameters that do not encode send nothing. |
| Connection.Conn.FinishFetch | src/tokio/conn.rs:1080-1149 | Reading a fetch finishes the exchange iff it succeeds, with every row delivered and the right answer to whether rows are left. |
| Connection.Conn.LowlevelExecuteInner | src/tokio/conn.rs:1080-1149 | A fetch within a scope: one result with exactly the rows sent, and rows are left iff the portal was suspended. |
| Connection.Conn.LowlevelExecute | src/tokio/conn.rs:1064-1079 | The same for a public execute of this portal with this row limit, the columns with the rows; usable afterwards iff it succeeded. |
| Connection.Conn.LowlevelClosePortalInner | src/tokio/conn.rs:1284-1322 | Ready afterwards iff CloseComplete came. |
| Connection.Conn.LowlevelClosePortal | src/tokio/conn.rs:1273-1283 | Closing this portal: usable afterwards iff it succeeded. |
| Connection.Conn.PortalExec | src/tokio/unnamed_portal.rs:21-34 | A handle's fetch appends exactly its rows to those delivered before. |
| Connection.Conn.RunClosure | src/tokio/conn.rs:1202-1270 | Whatever the closure does, if the exchange can go on then the server was asked exactly its fetches and every row was delivered in order. |
| Connection.Conn.ClosureStep | src/tokio/conn.rs:1202-1270 | One step of the closure: a fetch that lets the exchange go on was asked of the server as given, with every row delivered; a failed one leaves the exchange open, whether its error is propagated or not. |
| Connection.Conn.ExecPortalInner | src/tokio/conn.rs:1202-1270 | The scope closes iff the Sync behind the closure came to its end, even when the closure failed. |
| Connection.Conn.ExecPortal | src/tokio/conn.rs:1182-1201 | If usable afterwards: this source with these parameters was bound, the closure's fetches and one Sync were served, the handler has every row in order, and success means the closure completed without a server error. |
| Connection.Conn.CreateNamedPortal | src/tokio/conn.rs:281-327 | Binding this source and these parameters to a portal of this name: usable afterwards iff it succeeded. |
| PipelineQueue.Pushed | src/tokio/pipeline/mod.rs:217-240 | Queuing an execution keeps queue, tickets, buffer and stream linked. |
| PipelineQueue.Flushed | src/tokio/pipeline/mod.rs:271-287 | Sending the buffer turns unsent executions into owed replies, in order. |
| PipelineQueue.Synced | src/tokio/pipeline/mod.rs:305-318 | Sending the buffer and a Sync does so too, and owes one more ReadyForQuery. |
| PipelineQueue.Popped | src/tokio/pipeline/mod.rs:377-422 | Reading the first owed reply whole and popping one expectation keeps everything linked. |
| PipelineQueue.Counted | src/tokio/pipeline/mod.rs:646-648 | Tickets issued minus tickets claimed are the executions in the queue. |
| PipelineQueue.Balanced | src/tokio/pipeline/mod.rs:351-359 | While the server lives, the unread stream owes exactly one ReadyForQuery per queued Sync. |
| PipelineQueue.UnitReadys | src/tokio/pipeline/mod.rs:321-349 | A server that stays alive answers a Sync, and nothing else in a pipeline, with one ReadyForQuery. |
| PipelineQueue.AtMostBalanced | src/tokio/pipeline/mod.rs:321-349 | Alive or not, it never sends more ReadyForQuery than there are Syncs. |
| PipelineQueue.SyncOwed | src/tokio/pipeline/mod.rs:305-318 | Executions sent with one Sync are owed one ReadyForQuery, whatever else is unread. |
| PipelineQueue.OutOfStep | src/tokio/pipeline/mod.rs:391-400 | A stream with one ReadyForQuery too many fits no reading of the queue. |
| PipelineQueue.SkippingStream | src/tokio/pipeline/mod.rs:391-400 | A server that skips says nothing but asynchronous messages before ReadyForQuery or its end. |
| PipelineQueue.SkipAsync | src/tokio/pipeline/mod.rs:609-631 | Passing over asynchronous messages loses nothing of a reply. |
| PipelineQueue.HearsRows | src/tokio/pipeline/mod.rs:570-607 | What a claim tells its handler holds exactly the rows of the reply, in order. |
| PipelineQueue.HearsReply | src/tokio/pipeline/mod.rs:468-607 | Of a whole reply a claim hears the rows in order and an end iff the reply ends with one; each row carries the columns of the RowDescription in that reply (raw SQL) or those of the ticket. |
| Pipelining.Pipeline.constructor | src/tokio/pipeline/mod.rs:92-108 | A pipeline over a usable connection starts empty; over any other it makes the failure permanent. |
| Pipelining.Pipeline.PendingIsQueued | src/tokio/pipeline/mod.rs:646-648 | While the connection can continue, the pending count is the number of executions in the queue iff the next number in turn is that of the first of them. |
| Pipelining.Pipeline.OwnIff | src/pipeline.rs:11-17 | A ticket in its turn gets the execution it was issued for iff this handle handed it out since its last cleanup and the pending count is the number of executions in the queue. |
| Pipelining.Pipeline.Drop | src/tokio/pipeline/mod.rs:73-79 | Dropping a handle: the connection was read up to date, or it fails for good. |
| Pipelining.Pipeline.Abandoned | src/tokio/pipeline/mod.rs:69-79 | Forgetting a pipeline without its destructor is safe: the connection is in step if it calls itself usable. |
| Pipelining.Pipeline.Exec | src/tokio/pipeline/mod.rs:217-264 | The next ticket, for exactly one execution queued and buffered with its number. If the parameters do not encode, the number is used up, nothing is queued, and the handle can be used on: whatever was out of balance stays so, and a connection that calls itself usable is in step. |
| Pipelining.Pipeline.RefuseExec | src/tokio/pipeline/mod.rs:217-262 | Parameters that do not encode: a number is used up, half a message is in the buffer, and the rest of the state is as it was. |
| Pipelining.Pipeline.AcceptExec | src/tokio/pipeline/mod.rs:217-262 | One execution behind all others in queue and buffer, or behind half a message, where nobody reads it. |
| Pipelining.Pipeline.AbortMirrors | src/tokio/pipeline/mod.rs:391-421 | While the connection can continue, the pipeline is aborted iff the server skips what is read next, on every handle whose last cleanup did not leave the connection unusable. |
| Pipelining.Pipeline.Transmit | src/tokio/pipeline/mod.rs:271-318 | The buffer is one exchange of an open scope: sent whole and in order iff the connection can go on; undisturbed, it is. |
| Pipelining.Pipeline.SyncUnfinished | src/tokio/pipeline/mod.rs:305-318 | A Sync behind half a message: the session is over, and one Sync more is queued than will ever be answered. |
| Pipelining.Pipeline.TransmitHalf | src/tokio/pipeline/mod.rs:271-318 | A buffer that ends in half a message: the units before it are answered, with not one ReadyForQuery, and the session is over. |
| Pipelining.Pipeline.Flush | src/tokio/pipeline/mod.rs:271-287 | The buffer is sent, in order, without a new expectation; an interruption makes the connection unusable; undisturbed, it succeeds. From any state the balance of answers and Syncs stays; half a message in the buffer ends the session. |
| Pipelining.Pipeline.SyncInner | src/tokio/pipeline/mod.rs:305-318 | The buffer and a Sync are sent and one Sync expected; the balance of answers to come and Syncs queued is unchanged, whatever the state before, while the server lives. |
| Pipelining.Pipeline.Sync | src/tokio/pipeline/mod.rs:294-304 | The same for a caller, who gets an error on a connection that cannot continue. |
| Pipelining.Pipeline.NextMessage | src/tokio/pipeline/mod.rs:609-631 | The next message that is not asynchronous is read, and nothing else; undisturbed, it is found if there is one. |
| Pipelining.Pipeline.ReadNextMessage | src/tokio/pipeline/mod.rs:609-631 | The next message that is not asynchronous; an error aborts, or breaks the connection if it is fatal, and was the end of the reply. |
| Pipelining.Pipeline.ConsumeReadyForQuery | src/tokio/pipeline/mod.rs:321-349 | A Sync's whole reply is read, its status cached, and the scope is pending iff something is still expected. Undisturbed, that succeeds iff no error is in the reply; an error ends the call with the ReadyForQuery behind it unread. |
| Pipelining.Pipeline.ConsumePendingSyncs | src/tokio/pipeline/mod.rs:351-359 | Exactly the Syncs at the front are consumed, each ends the aborted state, the queue stays coupled to the stream, and the balance of answers and Syncs is unchanged in any state. Undisturbed, that succeeds iff none of them is answered with an error. |
| Pipelining.Pipeline.TakeFrontSync | src/tokio/pipeline/mod.rs:351-359 | One Sync, its reply and the aborted state go together, and the server executes again; undisturbed, iff the Sync is not answered with an error. |
| Pipelining.Pipeline.ClaimRowsLoop | src/tokio/pipeline/mod.rs:570-607 | Rows up to the terminal message are heard exactly, with their columns, and if interrupted a prefix of them; a skipped execution yields neither success nor a recoverable error. |
| Pipelining.Pipeline.ClaimRowsInner | src/tokio/pipeline/mod.rs:511-568 | With columns from the server: exactly the rows, with the columns of the RowDescription, and the end of the reply are heard, or a prefix. |
| Pipelining.Pipeline.ClaimParseBindExecInner | src/tokio/pipeline/mod.rs:468-489 | Raw SQL: its reply is read whole and heard exactly, with the columns the server described, on success and on a server error. |
| Pipelining.Pipeline.ClaimBindExecInner | src/tokio/pipeline/mod.rs:491-509 | A prepared statement: the same, with the columns its ticket knows. |
| Pipelining.Pipeline.ClaimReply | src/tokio/pipeline/mod.rs:402-421 | The reply of an execution of either kind: heard whole with the right result if the claim can go on, else a prefix. |
| Pipelining.Pipeline.ClaimAborted | src/tokio/pipeline/mod.rs:391-400 | For an execution the server skipped, popping the front unseen is right, and with nothing queued it changes nothing but the count; with a Sync at the front, no reading of the queue fits the stream afterwards, and one answer more is to come than there are Syncs queued. |
| Pipelining.Pipeline.ClaimExecution | src/tokio/pipeline/mod.rs:402-409 | The execution at the front is executed and not skipped, its tag is the first one queued, and the result is what the server answered; from any state, no ReadyForQuery is read. |
| Pipelining.Pipeline.ClaimFront | src/tokio/pipeline/mod.rs:402-421 | A claim outside the aborted state: rows and result of the execution at the front, or a prefix of the rows; the Syncs behind it consumed, and aborted iff it failed and no Sync followed; with nothing queued, or a Sync at the front, the exchange stays open. Undisturbed, the connection can go on iff no Sync behind it is answered with an error. |
| Pipelining.Pipeline.SendRest | src/tokio/pipeline/mod.rs:384-389 | What is unsent goes out with a Sync before a claim; the queue a claim meets is fully sent; half a message ends the session. |
| Pipelining.Pipeline.ClaimSent | src/tokio/pipeline/mod.rs:391-422 | A claim once everything is sent, aborted or not: the execution at the front, heard exactly or as a prefix, reported aborted iff the server skipped it. The balance of answers and Syncs changes, by one, iff a Sync was stolen, in any state. |
| Pipelining.Pipeline.ClaimLogged | src/tokio/pipeline/mod.rs:391-422 | The same in terms of what the server received: which of its units was claimed, and that no Sync passed over was answered with an error. |
| Pipelining.Pipeline.ClaimInTurn | src/tokio/pipeline/mod.rs:384-422 | The same with what is unsent sent first, and for handles whose parameters did not encode: they keep to a connection that is in step if usable. |
| Pipelining.Pipeline.ClaimWithHandler | src/tokio/pipeline/mod.rs:377-425 | Out-of-order tickets change nothing. A claim in its turn gives the handler what the server sent for the first execution queued (a prefix if interrupted): of a whole reply its rows in order, each with the columns of its RowDescription (raw SQL) or those of the ticket (a prepared statement), and an end with its tag iff the reply ends with CommandComplete; it fails with the error of the reply iff that ends with one. It reports "aborted" iff the server skipped the execution, and keeps the invariant unless it steals a Sync; that execution is the ticket's own iff the ticket is current and nothing shifted the numbers. Undisturbed, the connection can go on iff no Sync behind it is answered with an error. In any state, the answers to come exceed the Syncs queued by one more iff a Sync was stolen. |
| Pipelining.Pipeline.DrainExecution | src/tokio/pipeline/mod.rs:162-187 | Draining reads one reply whole, whether success or error. |
| Pipelining.Pipeline.DrainFrontExecution | src/tokio/pipeline/mod.rs:162-187 | Draining the execution at the front reads its own reply whole; undisturbed, it fails iff the server is silently skipping that execution. |
| Pipelining.Pipeline.DrainAll | src/tokio/pipeline/mod.rs:146-156 | Undisturbed, every expectation is drained unless the first is an execution the server is silently skipping or a Sync is answered with an error. |
| Pipelining.Pipeline.DrainScope | src/tokio/pipeline/mod.rs:140-160 | Once everything is sent, draining leaves a queue that ended at a Sync usable and any other unusable, keeps the balance of answers and Syncs in any state, and counts tickets from zero. Undisturbed, it comes to its end iff no Sync is answered with an error and no forgotten skip is at the front. |
| Pipelining.Pipeline.Restart | src/tokio/pipeline/mod.rs:157-159 | Counting tickets again: both counters are zero, none of the tickets handed out so far is current, and the invariant is kept; the aborted state is forgotten iff the server still skips, and only with the scope still pending. |
| Pipelining.Pipeline.CloseQueue | src/tokio/pipeline/mod.rs:134-139 | What is unsent is sent, and a Sync if none is queued; the queue ends at a Sync iff it did or one was sent. |
| Pipelining.Pipeline.ClearIdle | src/tokio/pipeline/mod.rs:130-133 | With nothing queued and nothing owed the buffer is forgotten, half a message too, and the state fits the stream. |
| Pipelining.Pipeline.CleanupScope | src/tokio/pipeline/mod.rs:134-160 | With something queued or owed: sent, drained, and counted from zero, as for the whole cleanup. |
| Pipelining.Pipeline.Cleanup | src/tokio/pipeline/mod.rs:126-160 | The invariant is kept whatever happens. Undisturbed, the connection is usable afterwards iff the last thing waited for is a Sync and no Sync is answered with an error, on every handle whose last cleanup left it usable (and on any handle, iff no forgotten skip is at the front either); the skip is forgotten iff the server still skips. If there was anything to do and the connection can go on, both counters are zero and tickets count from the next execution. What was out of balance stays so; half a message in the buffer costs the connection iff something is queued or owed. |
| Plans.NoneStolen | src/tokio/pipeline/mod.rs:384-400 | A closure that leaves the Syncs to the pipeline, and whose parameters encode, steals none. |
| Plans.NoneFlushed | src/tokio/pipeline/mod.rs:217-287 | A closure whose parameters encode flushes no half message. |
| Plans.OrderlyTells | src/tokio/conn.rs:1354-1363 | An orderly closure promises to tell of the first tickets handed out, each once and in order, as many as it has claims. |
| Plans.TypicalIsOrderly | src/tokio/pipeline/mod.rs:196-216 | Any executions, one Sync and their claims in order are orderly, end at a Sync, steal none, and promise to tell of every ticket. |
| LostSync.RefusingConforms | src/tokio/pipeline/mod.rs:391-400 | A server that refuses every statement obeys the protocol. |
| LostSync.Derail | src/tokio/pipeline/mod.rs:126-160 | Any claim that steals a Sync and a cleanup: a connection left usable with its server alive has a response unread and is out of step; it is left usable whenever the cleanup comes to its end and what was queued behind the lost Sync ends at a Sync, and always if undisturbed and the lost Sync is followed by executions and one Sync. |
| LostSync.LoseSync | src/tokio/pipeline/mod.rs:391-400 | A run of public calls against it, never disturbed: afterwards the connection calls itself usable, with responses unread. |
| StaleTickets.RunOne | src/tokio/pipeline/mod.rs:126-160 | After an execution, Sync and cleanup nothing is left but the ticket, which is genuine and not current. |
| StaleTickets.ClaimStale | src/tokio/pipeline/mod.rs:157-159 | A run of public calls, never disturbed: a ticket kept over a cleanup, or claimed on the next pipeline, succeeds with the rows of another execution and the columns of its own. |
| StaleTickets.Overclaim | src/tokio/pipeline/mod.rs:646-648 | A run of public calls: on an aborted pipeline a ticket from before a cleanup is claimed with nothing queued; the invariant holds, the pending count is below the executions queued, and the next ticket is not the next in turn. |
| UnfinishedFlush.FlushUnfinished | src/tokio/pipeline/mod.rs:271-287 | A run of public calls, never disturbed: a flush behind parameters that did not encode and a cleanup leave the connection calling itself usable with its session over. |
| ForgottenAbort.FlushBehindSync | src/tokio/pipeline/mod.rs:271-287 | A Sync and an execution flushed behind it leave the server skipping while both are still expected, with everything coupled. |
| ForgottenAbort.CleanupForgets | src/tokio/pipeline/mod.rs:126-160 | The cleanup after that, never disturbed, leaves the handle reusable, the connection unusable, and the pipeline not aborted while the server skips. |
| ForgottenAbort.ForgetAbort | src/tokio/pipeline/mod.rs:126-160 | An execution and a second cleanup after that, never disturbed, fail for good, with the server alive. |
| ForgottenAbort.FlushForgotten | src/tokio/pipeline/mod.rs:271-287 | An execution flushed on such a handle is in the queue, and the server skips it. |
| ForgottenAbort.ClaimForgotten | src/tokio/pipeline/mod.rs:402-422 | An execution flushed after that and claimed, never disturbed: the claim does not come to an end, with the server alive. |
| PipelineScopes.ClaimOne | src/tokio/pipeline/mod.rs:377-425 | A claim inside a closure, with a ticket of its own or any other: the pipeline is where the plan says if the connection can go on, and then a claim is recorded iff the plan says that it tells of its execution; it tells the rows, columns, end and error of what the server answered to the execution that ticket was issued for, sent in this closure. |
| PipelineScopes.ExecOn | src/tokio/pipeline/mod.rs:217-264 | Queuing leads where planned, from any state, and hands out the planned ticket iff the parameters encode. |
| PipelineScopes.SendOn | src/tokio/pipeline/mod.rs:271-318 | Flush and Sync lead where planned, from any state, and undisturbed they succeed. |
| PipelineScopes.ClaimViewed | src/tokio/pipeline/mod.rs:377-425 | A claim in its turn that the connection survives took the front of what was queued, whatever that was: where queue, buffer, scope and counters are afterwards, and that the balance of answers and Syncs rose by one iff a Sync was taken. |
| PipelineScopes.CleanOn | src/tokio/pipeline/mod.rs:126-160 | A cleanup by hand leads to an empty queue with tickets counted from zero, owing something iff it did not end at a Sync; with nothing to do it only forgets the buffer. |
| PipelineScopes.ClaimAny | src/tokio/pipeline/mod.rs:377-425 | A claim with any ticket on any pipeline, one that lost its stream too: where it leads the plan, and that it told of the execution of that number while the numbers are not shifted; a Sync at the front is taken only by an aborted pipeline. |
| PipelineScopes.ClaimSmoothly | src/tokio/pipeline/mod.rs:377-425 | In a closure where nothing went wrong, a claim in turn keeps it so: if the connection cannot go on, a Sync was answered with an error. |
| PipelineScopes.Perform | src/tokio/conn.rs:1354-1363 | Any sequence of pipeline calls, all of them performed: as long as the connection can go on, queue, counters, tickets and buffer are those planned, and the claims recorded are exactly those the deeds promise, each told by the server; otherwise a prefix of them. |
| PipelineScopes.Close | src/tokio/conn.rs:1354-1363 | Cleanup and drop, wherever the plan leads: a usable connection is in step iff no Sync was stolen and no half message flushed, and then it was idle or its queue ended at a Sync; after undisturbed orderly deeds it is usable iff the planned queue ends at a Sync and no Sync was answered with an error, and after giving up at parameters that do not encode iff nothing is queued or owed. |
| PipelineScopes.InPipeline | src/tokio/conn.rs:1354-1363 | Any closure with a pipeline, performed to its end and however interrupted, in terms of its deeds: if usable afterwards, exactly the promised claims are recorded, each with the rows, columns, end and error the server answered to its execution, every execution took a number, and the connection is in step iff the deeds steal no Sync and flush no half message. Undisturbed and orderly, it is usable iff the planned queue ends at a Sync and no Sync is answered with an error; giving up at parameters that do not encode, iff nothing is queued or owed. |
| PipelineScopes.TypicalClosure | src/tokio/pipeline/mod.rs:196-216 | The documented use, undisturbed, for any executions: queue, Sync, and claim in order. The connection stays usable iff the Sync is answered without an error, and then every claim is answered, the i-th with the i-th execution. |
| Sessions.Session.InStepWhenUsable | src/tokio/conn.rs:236-270 | Even while a pipeline is alive, a connection that calls itself usable is in step with its server. |
| Sessions.Session.IsMirrored | src/tokio/pipeline/mod.rs:391-421 | At any point of a run, a live pipeline is aborted iff the server skips what is read next, unless its last cleanup left the connection unusable or its parameters did not encode. |
| Sessions.Session.Numbered | src/tokio/conn.rs:488-574 | Preparing issues only statement numbers above all earlier ones. |
| Sessions.Session.ClaimCall | src/tokio/pipeline/mod.rs:377-425 | A claim is recorded, with its ticket and its result, iff the connection can go on, the live pipeline handed the ticket out since its last cleanup, it was in turn, and the numbers are not shifted; what it told is what the server answered to the execution of that ticket. |
| Sessions.Session.QueueCall | src/tokio/pipeline/mod.rs:217-264 | The ticket handed out is remembered; parameters that do not encode shift the numbers. |
| Sessions.Session.CleanupCall | src/tokio/pipeline/mod.rs:126-160 | A cleanup forgets the tickets handed out and counts from zero, unless there was nothing to do. |
| Sessions.DistinctNames | src/state/extended.rs:47-49 | Different numbers make different statement names on the wire. |
| Sessions.Session.Step | src/tokio/conn.rs:236-270 | Any one call keeps the invariant; while the connection can go on, the live pipeline is where the call leads, and exactly a claim that tells of its execution is recorded, with its result; a stuck connection stays stuck, does no I/O and refuses the call. |
| Sessions.Session.Run | src/tokio/conn.rs:236-270 | Any run: in step if usable, with the cached status InTransaction iff the last status byte the server sent is 'T' and Failed iff it is 'E', a live pipeline's aborted state the server's, no statement number twice, the server's log only grows, and failure is sticky with no byte sent. If the connection can go on at its end, queue, counters and tickets of the live pipeline are those the calls lead to, and the claims recorded are exactly those the calls say, with their tickets and results, each told by the server; otherwise a prefix of them. |
| Transactions.QueryDrop | src/tokio/conn.rs:419-425 | One statement with its results discarded: if usable, exactly it was sent, and the call fails iff the server reported an error. |
| Transactions.Transaction | src/tokio/conn.rs:1374-1406 | Refused while a transaction is open (for a usable connection: iff the last status byte sent is 'T' or 'E'), with nothing sent; otherwise BEGIN, the closure, and COMMIT (on success) or ROLLBACK iff the last status byte is then 'T' or 'E'; only COMMIT's error replaces the closure's result. |
| Numerics.FormatsFour | src/conversion/numeric_util.rs:22-157 | The printer's four-character format is exactly four digits for every group. |
| Numerics.SentIsDecoded | src/conversion/numeric_util.rs:22-66 | The bytes a server sends for an encoding, each field two bytes with the high one first, are decoded as that encoding. |
| Numerics.FractionIs | src/conversion/numeric_util.rs:22-157 | What was printed of the groups, padded with zeros, is the fraction to the display scale. |
| Numerics.PushUpTo | src/conversion/numeric_util.rs:79-157 | Never more than the display scale's digits are written, and those are the first ones. |
| Numerics.PadFraction | src/conversion/numeric_util.rs:79-157 | Padding reaches exactly the display scale. |
| Numerics.PrintBelowOne | src/conversion/numeric_util.rs:79-157 | A number below one prints as 0, the point and its fraction. |
| Numerics.PrintWhole | src/conversion/numeric_util.rs:79-157 | The whole part, with zeros for groups that were not sent. |
| Numerics.PrintFraction | src/conversion/numeric_util.rs:79-157 | The fraction behind a whole part, cut and padded to the display scale. |
| Numerics.PrintFinite | src/conversion/numeric_util.rs:22-157 | Any canonical number with digits prints as specified, sign included. |
| Numerics.NumericToString | src/conversion/numeric_util.rs:22-157 | The bytes a server sends for canonical digits, header and digits high byte first, print as specified; NaN and the infinities by name, short input is an error, and a negative number of digits panics. |
| NumericValues.HornerIsSum | src/conversion/numeric_util.rs:22-157 | Shifting digits together, scaled by the exponent, is the sum of digit i times 10000 to the power (weight - i), for any prefix of the digits. |
| NumericValues.EncodedIs | src/conversion/numeric_util.rs:22-157 | So the encoded number is the signed digits as one integer, scaled by the exponent. |
| NumericValues.SameIsEqual | src/conversion/numeric_util.rs:22-157 | Two scaled integers are one real number iff one is the other shifted. |
| NumericValues.TailIsZero | src/conversion/numeric_util.rs:22-157 | Past the display scale only zeros are left out. |
| NumericValues.ReadsBack | src/conversion/numeric_util.rs:22-157 | Sign, digits and fraction of a printed text are read back as they were. |
| NumericValues.PrintedValue | src/conversion/numeric_util.rs:22-157 | The printed digits are the encoded number times ten to the display scale. |
| NumericValues.PrintedIsExact | src/conversion/numeric_util.rs:22-157 | Every canonical encoding's text reads back as a number with exactly dscale fraction digits that equals sign times the sum of digit i times 10000 to the power (weight - i). |
| Decimals.Accumulate | src/conversion/decimal.rs:40-127 | The Horner loop computes the base-10000 number in 128 bits: a checked build stops iff the whole number does not fit, another one wraps it around. |
| Decimals.ScaleUp | src/conversion/decimal.rs:40-127 | Multiplying by ten step by step succeeds iff the whole product is representable. |
| Decimals.RoundsToNearest | src/conversion/decimal.rs:121-124 | Rounding leaves a number alone that has no more places, and otherwise takes the nearest one that has, of two the even one. |
| Decimals.RoundingIsExact | src/conversion/decimal.rs:40-127 | Rounding a canonical number to its display scale drops nothing but zeros: the real number is unchanged. |
| Decimals.TooSmall | src/conversion/decimal.rs:86-126 | No mantissa of 96 bits, scaled and rounded in any way, is a number whose digits exceed 128 bits. |
| Decimals.MeansIff | src/conversion/decimal.rs:86-126 | What is decoded from canonical digits is the encoded number iff the digits fit 128 bits. |
| Decimals.WrapsAround | src/conversion/decimal.rs:86-89 | A build that does not check its arithmetic decodes 2^128 + 1 as 1. |
| Decimals.ToDecimal | src/conversion/decimal.rs:40-127 | It succeeds iff the accumulated mantissa fits unrounded at its scale, panics iff that mantissa exceeds 96 bits, and yields it rounded to the display scale. |
| Decimals.FromBinary | src/conversion/decimal.rs:40-127 | The same from bytes, for checked and unchecked builds, with every error case (wrong type, short header, NaN, missing digits, negative count); of the bytes a server sends for a canonical number the decimal is that number iff its digits fit 128 bits; it has no more places than a positive display scale. |
| Decimals.DecodeDigits | src/conversion/decimal.rs:72-127 | The same once all digits are there. |
| Decimals.DecodersAgree | src/conversion/decimal.rs:40-127 | Whatever decimal means a canonical encoding is the real number its printed text denotes. |
| Decimals.DecodeBoth | src/conversion/decimal.rs:40-127 | On the bytes a server sends for a canonical number: the text denotes it, and whenever there is a decimal, both are one number iff the digits fit 128 bits. |
| Codec.FramingRoundTrip | src/protocol/codec.rs:168-233 | Any sequence of messages is read back as the same types and payloads, with nothing left over. |
| Codec.BigEndian | src/protocol/codec.rs:139-142 | A length is its four bytes, the highest first. |
| Codec.MessageBuilder.constructor | src/protocol/codec.rs:175-182 | A message starts behind what is in the buffer, with room for its length. |
| Codec.MessageBuilder.WriteBytes | src/protocol/codec.rs:220-224 | The payload grows by these bytes and nothing before it changes. |
| Codec.MessageBuilder.WriteCstr | src/protocol/codec.rs:225-229 | The payload grows by the string and its terminator. |
| Codec.MessageBuilder.Finish | src/protocol/codec.rs:230-233 | Back-patching the length alters no earlier message and frames this one; longer than 32 bits it wraps around. |
| Codec.WriteMessages | src/protocol/codec.rs:168-233 | Any sequence of messages written one after the other is what a reader reads. |
| BufferedStreams.PlainStream.ReadMessage | src/sync/stream.rs:73-90 | The plain reader delivers the first message of the stream and leaves the rest, iff there is one and the socket holds. |
| BufferedStreams.BufferedStream.constructor | src/compio/stream.rs:36-44 | Nothing consumed, nothing buffered, the whole stream ahead. |
| BufferedStreams.BufferedStream.CopyWithin | src/compio/stream.rs:90-115 | The overlapping copy moves every byte of the range and reads none it has overwritten. |
| BufferedStreams.BufferedStream.Compact | src/compio/stream.rs:90-115 | Moving the unconsumed bytes to the front in place changes none of them. |
| BufferedStreams.BufferedStream.FillBuf | src/compio/stream.rs:90-115 | One more read, however short, keeps consumed, buffered and unread bytes the original stream, and buffers more unless it fails; a cancelled one loses what was buffered and all room to read into, so that no later one succeeds. |
| BufferedStreams.BufferedStream.Ensure | src/compio/stream.rs:116-121 | It terminates by the shrinking shortfall, consumes nothing, and, unless a read was cancelled, succeeds iff enough bytes are ahead. |
| BufferedStreams.BufferedStream.ReadU8 | src/compio/stream.rs:125-134 | The first byte ahead, iff there is one; after a cancelled read, never. |
| BufferedStreams.BufferedStream.ReadPayload | src/compio/stream.rs:137-176 | A payload split between buffer and socket is joined in order. |
| BufferedStreams.BufferedStream.ReadMessage | src/compio/stream.rs:137-176 | The same specification as the plain reader's, for every way the socket splits its bytes; after a cancelled read, no message is ever delivered. |
| BufferedStreams.ReadBoth | src/compio/stream.rs:137-176 | On one stream, split in any two ways, both readers deliver the same messages: all of them. |
| Params.TwosRoundTrip | src/conversion/primitives.rs:204-230 | A value that fits is what its two's-complement bytes mean. |
| Params.BytesBack | src/conversion/primitives.rs:174-199 | Bytes are the two's complement of the value they mean. |
| Params.BytesAt | src/conversion/primitives.rs:204-230 | Each byte is the digit of the value in base 256 at its place, the highest first. |
| Params.TwosHigh | src/conversion/primitives.rs:204-230 | The same for the two's complement of any integer. |
| Params.CastsFit | src/conversion/primitives.rs:86-379 | No unchecked cast ever truncates: where the encoder does not check, every value of the source type fits. |
| Params.Encode | src/conversion/primitives.rs:86-379 | INT2, INT4 and INT8 take two, four and eight bytes behind their length, high byte first in two's complement; encoding fails iff the value is outside its target type or the target is no integer type; NULL always encodes, as the length -1; a failure writes nothing. |
| Params.EncodeAll | src/conversion/mod.rs:189-205 | A list encodes iff each value fits the target it is paired with; what has no partner in the other list is left out. |
| Params.DataRowIter.Next | src/protocol/backend/query.rs:195-216 | The next item, NULL for length -1, and the end on a length that exceeds what is left. |
| Params.I64FromBinary | src/conversion/primitives.rs:174-199 | It succeeds iff the type is an integer type and the length its width, and the value is the one whose bytes these are. |
| Params.BlockRoundTrip | src/conversion/mod.rs:134-148 | As many items come back as went in, NULLs in their places, every value itself. |
| Params.SendAndReceive | src/protocol/backend/query.rs:195-216 | Encoder and iterator composed: success iff all paired values fit, and then the same values. |
| Frontend.WriteParse | src/protocol/frontend/extended.rs:13-24 | One whole Parse message behind what was in the buffer. |
| Frontend.ParseRoundTrip | src/protocol/frontend/extended.rs:13-24 | A server reads the name, the text and the parameter types from it. |
| Frontend.WriteBind | src/protocol/frontend/extended.rs:36-80 | One whole Bind message iff every parameter that has a target type encodes, whatever the two numbers are; otherwise an unfinished one with length zero. |
| Frontend.BindRoundTrip | src/protocol/frontend/extended.rs:36-80 | With one target type for each parameter, a server reads the names, one format per parameter (text for NUMERIC, binary for all else), the parameters themselves, and one result format, binary. |
| Frontend.BindCut | src/protocol/frontend/extended.rs:36-80 | A server cuts the names off, and reads as many formats as there are parameters, whatever the number of target types. |
| Frontend.BindTooFew | src/protocol/frontend/extended.rs:36-80 | With fewer parameters than target types a server reads that many of the formats, and where the number of values should be the next one: one value at most. |
| Frontend.BindTooMany | src/protocol/frontend/extended.rs:36-80 | With more parameters than target types it reads all the formats, and then the number of parameters as one more. |
| Frontend.WriteEmpty | src/protocol/frontend/extended.rs:149-163 | Sync and Flush are a type byte and the length four. |
| Scram.SplitFirst | src/protocol/frontend/auth.rs:143-228 | A field without a comma is split off as it is. |
| Scram.OpeningIsRead | src/protocol/frontend/auth.rs:131-139 | A server reads the client's nonce, and an empty user, in its first message. |
| Scram.ScramClient.constructor | src/protocol/frontend/auth.rs:88-100 | A client without channel binding, with nothing computed. |
| Scram.ScramClient.ParseServerFirst | src/protocol/frontend/auth.rs:143-228 | The last nonce, salt and iteration count of the message count. |
| Scram.ScramClient.ProcessServerFirst | src/protocol/frontend/auth.rs:143-228 | The challenge is answered iff it has a salt, iterations and a nonce extending the client's; the answer proves the client key for this conversation. |
| Scram.ScramClient.VerifyServerFinal | src/protocol/frontend/auth.rs:239-280 | The server is accepted iff it signed this conversation with the server key. |
| Scram.NumberParses | src/protocol/frontend/auth.rs:143-228 | An iteration count is read back iff it has 32 bits, with a plus sign or without. |
| Scram.HonestChallenge | src/protocol/frontend/auth.rs:143-228 | An honest server's challenge is understood as meant. |
| Scram.HonestVerdict | src/protocol/frontend/auth.rs:143-228 | A server that knows the client by its messages alone recovers the client key from an honest proof and accepts it. |
| Scram.HonestExchange | src/protocol/frontend/auth.rs:131-280 | The server reads the nonce in the client's first message and extends it; both sides compute the same AuthMessage and each accepts the other. |
| Startup.ConnectionMachine.constructor | src/state/connection.rs:50-61 | A fresh machine has chosen and verified nothing. |
| Startup.ConnectionMachine.HandleInitial | src/state/connection.rs:77-102 | TLS is asked for unless disabled or unavailable; requiring it without support fails. |
| Startup.ConnectionMachine.HandleSslResponse | src/state/connection.rs:104-127 | 'S' leads to the handshake, 'N' to plain text unless TLS is required; anything else fails. |
| Startup.ConnectionMachine.HandleTlsHandshakeComplete | src/state/connection.rs:129-134 | After the handshake the startup message goes out, secured. |
| Startup.ConnectionMachine.HandleAuthMessage | src/state/connection.rs:155-241 | Each request is answered with the password it asks for, SASL is chosen iff SCRAM-SHA-256 is offered and a password is there, and every other request fails. |
| Startup.ConnectionMachine.HandleSaslMessage | src/state/connection.rs:244-289 | A challenge is answered iff it is answerable; the final message is accepted iff the server is genuine. |
| Startup.ConnectionMachine.HandleAuthResult | src/state/connection.rs:297-311 | Only AuthenticationOk leads on. |
| Startup.ConnectionMachine.HandleReadyMessage | src/state/connection.rs:317-344 | Key, parameters and the final status are kept as sent; anything else fails. |
| Startup.ConnectionMachine.StepSilently | src/state/connection.rs:383-432 | A step that needs no message writes what its state owes, in an order that comes to a read or an error, never to the end. |
| Startup.ConnectionMachine.Step | src/state/connection.rs:383-432 | The invariant is kept: startup ends on ReadyForQuery alone, never unverified after SASL, never plain when TLS is required; notices are passed on and errors raised in every reading state. |
| Startup.ConnectionMachine.Run | src/state/connection.rs:383-432 | Whatever a server sends, a run that chose SASL finishes only after the server was verified, and one that requires TLS only over it. |
| Startup.HearParameters | src/state/connection.rs:317-344 | Any number of parameters arrive in order. |
| Startup.HonestLogin | src/state/connection.rs:155-315 | An honest server, with TLS or without, that challenges the client with the nonce it read in the client's first message gets to AuthenticationSASLFinal and is accepted. |
| Startup.HonestStartup | src/state/connection.rs:208-344 | An honest exchange as in section 3 of RFC 5802 drives startup to its end, with key, parameters and status byte as sent; the server judges the client by the two messages it wrote. |

## Left out

- Pipelining.Pipeline.Exec: after parameters that do not encode, what later claims on that handle tell is not promised; that the connection is in step if usable is.
- Pipelining.Pipeline.RefuseExec: the whole Parse that raw SQL leaves in the buffer before its Bind fails to encode (src/tokio/pipeline/mod.rs:242-250) is not a unit of its own; what a server answers to it is part of the arbitrary last words of the session that the half message ends.
- Pipelining.Pipeline.Flush: the model's server answers at once, so the difference between output held back and output forced by Flush is not visible; an undisturbed claim therefore does not depend on it.
- Connection.Conn.constructor: the loop that drives the startup machine over the socket is not modelled, and the status it hands over is Idle; `Startup.dfy` models the machine.
- Sessions.Session.Run: a claim that steals a Sync of the caller's own, and a flush behind parameters that did not encode, are not made in a run; `PipelineScopes.InPipeline`, `LostSync.Derail` and `UnfinishedFlush.FlushUnfinished` say what they cost.
- PipelineScopes.Perform: what claims tell once the numbers are shifted (a stolen Sync, parameters that did not encode, a claim of nothing) is not recorded; `Pipelining.Pipeline.ClaimWithHandler` says it call by call while the state fits the stream.
- A ticket's `conn` and `tag`, and `Conn.tickets`, which lists the numbers handed out, are not in the source and decide nothing.
- Startup.ConnectionMachine.HandleAuthMessage: the MD5 hash is an uninterpreted function.
- Numerics.NumericToString: what is printed of digits that are not canonical, which no server sends, is not promised, only that something is.
- BufferedStreams.BufferedStream.FillBuf: that the runtime appends behind the buffer's length is assumed, as a comment in the source says.
- Encoded parameters are told apart by a number in the protocol model, and executions queued in a pipeline by their tag; `Frontend.dfy` models the bytes of Parse and Bind.
- The `pipeline` and `exec_portal` closures are sequences of calls; other effects of a closure are its own.
- The handler for asynchronous messages: a panic inside it is the interruption of the await behind it.
- The width of the statement counter (64 bits); overflow is unreachable in practice. A machine word has 64 bits.
- Message payloads that do not parse: server messages are taken as well-formed.
- `sync::Conn` and the synchronous pipeline, which have no exchange flags.
- SCRAM with channel binding; SHA-256, HMAC, PBKDF2, base64 and the random nonce are abstract.
- Floating-point conversions, and dates, times and UUIDs, which are library calls.
- Sockets, TLS, Unix-socket upgrade, connection and buffer pools, COPY, derive macros and tuple parameters, which would add only easy members.
