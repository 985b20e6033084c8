# A verified model of the HTTP server

The repository is a small HTTP server in C++. One main thread scans for connections to close, selects,
accepts, and schedules runnables; any number of pool workers read requests and write responses. They share
a table of connection descriptors, a pool queue, a done queue and two owning lists, and nothing keeps them
apart but short mutexes and the boolean `_access_lock` of each descriptor. This project models that server
in Dafny and proves what holds in every state of every run of it; and below it the handler allocator, the
HTTP-date parser and printer, the request reader, the response writer and the command processor.

`dafny verify dfyconfig.toml` checks everything.

## How it is arranged

* `Common`, `Decimal`: look-ups in sequences; `std::to_string` and `std::stoi`.
* `HandlerAllocator`, `HandlerReuse`, `ConnectionTable`: the round-robin search for a connection handler in
  a cyclic space of integers without -1, its histories, and the table as a class.
* `DateTime`, `DateRoundTrip`, `DateSpellings`, `DateExact`: tokens, field orders, parsing and printing of
  dates, with the parser proved against a relation between a string and its one outcome; what is accepted
  and printed, with the names and numbers spelled out.
* `HttpMessages`, `RequestReader`, `MessageRoundTrip`: requests and responses as values; the reader over a
  `DataBuffer` with a cursor, proved equal to a function on the unread data; what it makes of printed
  requests and responses.
* `Html`, `CommandProcessor`, `ResponseExact`: the HTML builder, the response and the processor as classes;
  what the processor's responses are like, and what is sent, to the letter.
* `ServerState`, `ServerSteps`: the shared state with its operations, and the system of atomic steps: a
  program counter for the main thread, a phase for each worker. A run is any sequence of enabled steps.
* `ServerInvariant`, `ServerWorkers`, `ServerMain`: the invariant, and that each step keeps it.
* `ServerAlways`: what holds of every run, whatever the application and however handlers are granted again:
  ownership, the table, and which crashes never happen.
* `ServerTheorems`: mutual exclusion, closing and the ends of runs.
* `ServerService`: what the main loop does for the connections while the workers run: who is closed, who is
  served, what is erased, and exactly when the process dies.
* `ServerRefinement`, `ServerProgress`: the refinement of a sequential description; the measure of the work
  left, and the states of a connection.
* `ServerRuns`, `ServerDisturbed`: concrete runs that go wrong, and exactly when there are any.
* `ServerLoops`, `Server`: the server as a class whose methods change its fields; what an iteration and a
  worker's turn come to when nothing interferes, and that this is a run of the atomic steps.
* `HttpApplication`: the theorems about the server, with the reader, processor and writer put in.

## The two versions of the scan

`TestConnectionNeedsClose` looks at the state of a connection and not at its lock. A write runnable sets
`CNeedClose` before it unlocks, so the main thread may close the connection in between. `Config.guarded`
selects the scan as written (`false`) or one that also asks for the lock to be free (`true`). Every theorem
about runs covers both. As written, `OnFinishedCanThrow` gives a run that ends in the exception of
`OnFinished`, `OnlyFinishingWritersLoseDescriptors` shows that no other runnable can lose its descriptor, and
`ClosingStrandsIffLocked` says exactly which closings lead there. With the guard, `GuardedCloseSafety` and
`CrashesExplained` show that it cannot happen.

As written, the handler of a closed connection may also be granted again before that late `OnFinished`. If it
then finds the new connection unlocked, nothing happens. If it finds it locked, it takes the lock away from
the new connection's runnable: call the run disturbed (`ForeignUnlock`, `Undisturbed`). `MutualExclusion`
proves that a run keeps exclusion if and only if it is undisturbed. Ownership, the agreement of the table and
the absence of three kinds of crash hold of all runs (`ServerAlways`); the theorems that rest on exclusion
are about the undisturbed ones. These are all runs with the guard (`GuardedUndisturbed`), and all runs in
which the handler counter has not gone once around its 2^32 - 1 values (`FirstRoundRun`). Later it can
happen: for every space of three or more handlers and any positive number of workers there is a run in which
exclusion fails, a connection is read by two runnables and two responses are sent on it; with fewer handlers
or no worker there is none (`ExclusionBreaksIff`, `ServesTwiceIff`).

The theorems other than those of `ServerAlways` are about applications whose responses always ask for their
connection to be closed (`AlwaysCloses`), as those of the command processor do (`HttpAlwaysCloses`).

Serial numbers of grants, the record of what happened on each grant (`Grant`) and the count of advances of
the handler counter are not in the source; no step branches on them.

## Model

| member | source | states |
|---|---|---|
| HttpApplication.EveryConnectionAnswered | server/code/HttpWorkerRunnables.cpp:20-67 | In every state of every undisturbed run (all runs with the guarded scan), for any number of workers and any interleaving, the state after a crash included: a connection was read at most once, at most 2048 characters, and was sent either nothing or exactly one `Generate` of `ProcessRequest` applied to the request parsed from that one buffer; a closed connection was answered |
| HttpApplication.EveryAnswerReads | server/code/HttpWorkerRunnables.cpp:54-58 | Whatever an undisturbed run sent on a connection is, to the server's own reader, an HTTP/1.1 message with the status and status text due to the request received, whose body has the announced length and is followed by two NULs |
| HttpApplication.EveryAnswerExact | server/code/httpCommandProcessor.cpp:19-69 | Whatever an undisturbed run sent on a connection is, to the letter, the message due to the request received: the status line, `Content-Length`, `Content-Type` and `Date`, a blank line, the page, two NULs |
| HttpApplication.OnlyPlainFilesStop | server/code/httpCommandProcessor.cpp:47-52 | Any step, in any state, that ends the process for want of a response does so on a GET for an existing plain file |
| HttpApplication.HttpServerCanFail | server/code/server.cpp:46-58 | The HTTP server as written, with `int` handlers and any positive number of workers, has a run in which `OnFinished` throws, a run to a live state without mutual exclusion, and a run that reads one connection twice and sends two responses on it |
| HttpApplication.HttpAlwaysCloses | server/code/httpThings.cpp:14-35 | Every response of the processor asks for the connection to be closed, so `CDataSending` is never set |
| ServerRefinement.RunRefines | server/code/server.cpp:44-125 | Each step of an undisturbed run is a step, or none, of a sequential description in which connections are opened, and each is read once and then answered once |
| ServerRefinement.WireExact | server/code/HttpWorkerRunnables.cpp:54-58 | In every state of every undisturbed run (all runs with the guarded scan), however it ends, what was sent on each connection is exactly what that description sends |
| ServerRefinement.StepRefines | server/code/HttpWorkerRunnables.cpp:20-67 | The step relation of that refinement from any state that satisfies the invariant |
| ServerTheorems.MutualExclusion | server/code/httpServer.cpp:36-79 | A run keeps mutual exclusion in all its states (a locked connection has exactly one active runnable and an unlocked one none) if and only if no `OnFinished` in it finds another grant's descriptor, locked; with the guarded scan none ever does |
| ServerAlways.OwnershipConserved | server/code/server.cpp:181-233 | In every state of every run, of any application and with either scan, crashed states included: the two owning lists hold, once each, exactly the runnables that are unpushed, queued, with a worker, done or being erased; so nothing in hand is ever erased, and "Runner was not found" is never thrown |
| ServerTheorems.CrashesExplained | server/code/server.cpp:212-233 | No run, disturbed or not, ends in "Runner was not found", an invalid handler or the send-data assertion, and its last step shows the cause of any other end; an undisturbed run ends only for want of handlers, for want of a response to a request that was read, or (scan as written) in `OnFinished` after an early close; the guarded scan never loses a descriptor or a request |
| ServerAlways.TableAgreement | server/code/server.cpp:44-100 | In every state of every run, of any application and with either scan: the polled connections and the listening socket are, once each, the keys of the table, every handler still to be served in the iteration is in the table, and none of the main thread's look-ups fails |
| ServerAlways.NeverSendsData | server/code/HttpWorkerRunnables.cpp:60-72 | In every run, disturbed or not, of an application that always closes, `CDataSending` is never set, no send-data runnable is created, and its `assert(false)` is never reached |
| ServerTheorems.GuardedCloseSafety | server/code/serverRunnable.cpp:13-31 | With a close scan that also asks for the access lock to be free, every active runnable finds the descriptor of its own grant in every run |
| ServerTheorems.OnlyFinishingWritersLoseDescriptors | server/code/HttpWorkerRunnables.cpp:60-66 | As written, in every undisturbed run, an active runnable without its descriptor is a write runnable between setting `CNeedClose` and `OnFinished`; its handler has no descriptor or that of a later grant |
| ServerTheorems.ClosingStrandsIffLocked | server/code/server.cpp:55-57 | Closing a connection dooms the `OnFinished` of its runnable to throw if and only if the connection's `_access_lock` is set at that moment, in every undisturbed run |
| ServerTheorems.RunInv | server/code/server.cpp:44-125 | As long as no lock is taken away from another grant, regrants or not, the invariant holds and the end of a run is explained by its last step |
| ServerTheorems.StepInv | server/code/server.cpp:44-125 | Every step of the main thread and of each worker, except one that takes another grant's lock away, keeps the invariant or is an explained end |
| ServerTheorems.InitialInv | server/code/server.cpp:23-42 | The state after start-up satisfies the invariant; the listening socket gets handler 1 |
| ServerTheorems.GuardedUndisturbed | server/code/httpServer.cpp:234-237 | With the guarded scan no run is disturbed: every `OnFinished` unlocks its own grant |
| ServerProgress.ConnectionLife | server/code/httpServer.cpp:148-185 | In every undisturbed run a connection's state follows `CNone`, `CNeedRequest`, `CNeedResponse`, `CNeedClose` without going back, and the runnables scheduled on any connection, closed or not, are a prefix of read, write |
| ServerProgress.StepWork | server/code/thread_things/threadPool.cpp:12-33 | Each schedule, push, pop, run, unlock, push-done, erase and close step lowers a natural measure; only an accept raises it, by at most 19 |
| ServerProgress.WorkBetween | server/code/server.cpp:102-116 | Between any two states of an undisturbed run the work done is bounded by the measure and 19 steps per accept, so it ends once accepts stop |
| ServerProgress.WorkBounded | server/code/server.cpp:102-116 | A whole undisturbed run does at most 19 working steps for each accepted connection |
| ServerProgress.TwoRunnablesEach | server/code/httpServer.cpp:223-227 | The runnables ever created in an undisturbed run are at most twice the accepted connections |
| ServerProgress.LockedGoesOn | server/code/server.cpp:102-116 | In every live state of an undisturbed run with a worker, a locked connection has its runnable still with the main thread, or some worker has a step to take: the work never stops with a connection locked |
| ServerProgress.MainGoesOn | server/code/server.cpp:44-125 | In every live state the main thread has a step to take |
| ServerService.ReadyAreServed | server/code/server.cpp:67-94 | From `select` to the scheduling, whatever the workers do meanwhile, the main thread comes to every connection ready for reading or for writing; one that then waits for its request to be read, or for its response, ends up locked with exactly one new runnable of its grant, a read or a write runnable respectively |
| ServerService.DueAreClosed | server/code/server.cpp:46-58 | In every run, from the beginning of the scan to `select`, the scan looks at every connection, and exactly those are closed that are then in `CNeedClose` (with the guard: and not locked) |
| ServerService.DoneAreErased | server/code/server.cpp:212-233 | In every run, from the draining of the done queue to the loop head, exactly the runnables that were in the queue are erased, whatever the workers do meanwhile |
| ServerService.LoopOrder | server/code/server.cpp:44-116 | The main thread goes through scan, closing, `select`, events for reading and then for writing, scheduling, draining and erasing in this order, each to its end, and no worker moves it |
| ServerService.EndsExactly | server/code/server.cpp:150-233 | For every step in every state: whether it ends the process, and by which exception, assertion or dead pointer |
| ServerProgress.FirstRoundRun | server/code/connection/functions.cpp:42-45 | While the handler counter has not gone once around, no run is disturbed, so every theorem about undisturbed runs holds of the server as written |
| ServerRuns.OnFinishedCanThrow | server/code/serverRunnable.cpp:23-31 | For every processor that answers some request, a concrete run of the server as written ends in the exception of `OnFinished` |
| ServerDisturbed.RegrantBreaksExclusion | server/code/connection/functions.cpp:29-67 | For every handler space with three or more handlers, so for `int`, a run of the server as written grants handlers until the counter comes round, and a late `OnFinished` then unlocks another connection while its runnable is active |
| ServerDisturbed.ExclusionBreaksIff | server/code/connection/functions.cpp:29-67 | For every number of workers: some run of the server as written breaks mutual exclusion, in a live state, if and only if there are three or more valid handlers and a worker |
| ServerDisturbed.ServesTwiceIff | server/code/httpServer.cpp:36-57 | Under the same condition, exactly, some run reads a connection twice, some run sends two responses on one, and some run does both, which the sequential description never does |
| ServerDisturbed.OnFinishedThrowsIff | server/code/serverRunnable.cpp:23-31 | For every handler space: some run of the server as written ends in a missing descriptor if and only if there is a worker |
| ServerDisturbed.ReachablePadded | server/code/thread_things/threadPool.cpp:36-50 | Whatever a server can reach, it can reach with more workers, which wait |
| ServerLoops.IterationIsRun | server/code/server.cpp:44-116 | An iteration of the main loop that no worker interferes with is a run of the atomic steps, to the same state or the same exception |
| ServerLoops.EventsHandled | server/code/httpServer.cpp:36-79 | Of the connections there are, exactly those that are ready, unlocked and in a state with something to do are locked and given one runnable, of the kind their state asks for; the others keep their descriptor and get none |
| ServerLoops.TurnIsRun | server/code/thread_things/threadPool.cpp:16-30 | A worker's turn (pop, run, call back) that nothing interrupts is a run of its atomic steps, to the same state or the same exception |
| Server.HttpServer.Iterate | server/code/server.cpp:44-116 | The new shared state and the exception, if any, are those of one iteration: close, poll, serve, schedule, splice, erase |
| Server.HttpServer.CloseFinished | server/code/server.cpp:46-58 | Exactly the connections of the scan that are in `CNeedClose` (with the guard: and not locked) leave the table, and the others keep their descriptors |
| Server.HttpServer.CloseConnection | server/code/server.cpp:150-162 | The handler leaves the polled list and the table; an unknown one leaves the table unchanged |
| Server.HttpServer.AcceptNewConnection | server/code/connection/functions.cpp:217-244 | A connection on a fresh handler is registered and polled; without the listening socket or a free handler it is an error |
| Server.HttpServer.OnConnect | server/code/httpServer.cpp:25-34 | The connection needs a request; an unknown handler is an exception and changes nothing |
| Server.HttpServer.OnRead | server/code/httpServer.cpp:36-57 | An unlocked connection gets the runnable its state asks for; a locked or unknown one is left alone |
| Server.HttpServer.OnWrite | server/code/httpServer.cpp:59-79 | As `OnRead` |
| Server.HttpServer.Schedule | server/code/httpServer.cpp:223-227 | The runnable is created, its connection locked, and it is kept for the pool |
| Server.HttpServer.ServeEvents | server/code/server.cpp:67-94 | All handlers ready for reading, and then those ready for writing, are served in order, up to an exception; exactly the ready ones are given what their state asks for |
| Server.HttpServer.TestPolled | server/code/connection/functions.cpp:343-359 | The look-up before `select` succeeds if and only if every polled handler is in the table |
| Server.HttpServer.ScheduleExecution | server/code/server.cpp:105-111 | All runnables are queued for the pool, in order, and nothing else changes |
| Server.HttpServer.MarkRunnersStatusToInProgress | server/code/server.cpp:181-185 | The runnables move to the front of those in process |
| Server.HttpServer.EraseCompletedRunners | server/code/server.cpp:212-233 | The done queue is emptied and each of its runnables erased once; one that is not owned is reported, exactly when there is one |
| Server.HttpServer.RunReadRequest | server/code/HttpWorkerRunnables.cpp:20-36 | The bytes are received, the parsed request stored and the state set to `CNeedResponse`; without a descriptor it is an exception |
| Server.HttpServer.RunWriteResponse | server/code/HttpWorkerRunnables.cpp:39-67 | The generated response is sent and the state set by whether the connection is to be closed; each of the three exceptions where the source has it, and then nothing changed |
| Server.HttpServer.MarkRunnerStatusToDone | server/code/server.cpp:199-210 | The connection is unlocked and the runnable put on the done queue; without a descriptor neither happens |
| Server.HttpServer.WorkerTurn | server/code/thread_things/threadPool.cpp:16-30 | The first task is popped, run and called back; an empty queue changes nothing |
| Server.QueueSafe.Push | server/code/thread_things/queueSafe.cpp:19-33 | The item goes to the back |
| Server.QueueSafe.TryPop | server/code/thread_things/queueSafe.cpp:43-55 | The front item is taken, or the empty queue reported |
| Server.QueueSafe.PopAll | server/code/thread_things/queueSafe.cpp:35-41 | All items are handed over and the queue is left empty |
| HandlerReuse.NoEarlyReuse | server/code/connection/functions.cpp:29-79 | For any interleaving of generate and release calls, two grants of a handler are a positive multiple of a full cycle of counter advances apart, and in between every other valid handler had its turn: granted, or in use, or the point at which a search gave up |
| HandlerReuse.RunTicks | server/code/connection/functions.cpp:40-56 | Every advance of the counter in any history ends as granted, in use, or back at the start, each with its reason |
| HandlerReuse.ApplyExactly | server/code/connection/functions.cpp:29-79 | A request passes only handlers in use and takes the first free one, or fails with all others in use; a release frees its handler |
| HandlerAllocator.GeneratedInvalid | server/code/connection/functions.cpp:37-64 | `CONNECTION_HANDLER_INVALID` is returned if and only if every valid handler other than the one the counter stands at is in use |
| HandlerAllocator.Generated | server/code/connection/functions.cpp:37-66 | A returned handler is valid and not in use |
| HandlerAllocator.SearchFrom | server/code/connection/functions.cpp:40-56 | The search stops at the first free handler or after a full cycle, and all handlers it passed are in use |
| HandlerAllocator.Covers | server/code/connection/functions.cpp:42-45 | Within one cycle the counter comes to every valid handler |
| HandlerAllocator.SameHandler | server/code/connection/functions.cpp:42-45 | The counter is at the same handler after two numbers of advances if and only if they are congruent modulo the number of valid handlers, -1 being skipped |
| HandlerAllocator.IntHandlers | server/code/connection/functions.cpp:25-45 | The handlers of `int` are its values but -1; the counter starts at 0, goes upwards, from the largest to the smallest value, and from -2 to 0 |
| ConnectionTable.Table.GenerateConnectionHandler | server/code/connection/functions.cpp:29-67 | It terminates; the counter is never -1 afterwards; the result is invalid if and only if all handlers but the counter's are in use, and otherwise a free one that now has a fresh descriptor |
| ConnectionTable.Table.SearchFreeHandler | server/code/connection/functions.cpp:37-56 | The loop ends after the number of advances of the specification, found or not |
| ConnectionTable.Table.ReleaseConnectionHandler | server/code/connection/functions.cpp:69-79 | The descriptor goes; the counter and the others stay; an unknown or invalid handler changes nothing |
| ConnectionTable.Table.GetConnectionDescriptor | server/code/connection/functions.cpp:90-105 | The descriptor if and only if the handler is in the table |
| DateRoundTrip.DateRoundTripIff | server/code/utils/dateTime.cpp:144-293 | A printed date is parsed back to all seven fields if and only if its day is not negative, hour, minute and second are in range and its year is from 100 to the largest `int` |
| DateRoundTrip.ParsedNormalForm | server/code/utils/dateTime.cpp:193-226 | Every accepted date can be printed if and only if its month is at most 11, and what is printed is parsed to the same fields |
| DateRoundTrip.ParseIsUnique | server/code/utils/dateTime.cpp:144-279 | A string has one outcome: the specification of the parser determines its result, success or error |
| DateRoundTrip.PrintedTokens | server/code/utils/dateTime.cpp:281-293 | The tokens of a printed date are the eight expected words, whatever the numbers |
| DateRoundTrip.TokensAround | server/code/utils/dateTime.cpp:76-102 | Tokenizing splits at every separator |
| DateExact.AcceptedExactly | server/code/utils/dateTime.cpp:144-279 | A string is accepted as a date exactly if it has seven or eight tokens and each stands for its field: the day by its short or long English name, the month by its name or a number, two-digit years from 2000 on and others counted from 1900, in the asctime order if the second token is a month and else in the other one |
| DateExact.RejectedExactly | server/code/utils/dateTime.cpp:152-155 | A string is rejected exactly with the number of its tokens, if not seven or eight, and else with the first token in field order that stands for no value of its field |
| DateExact.PrintedExactly | server/code/utils/dateTime.cpp:281-293 | The printed text, with the literal names and the year counted from 1900 |
| DateExact.PrintedExample | server/code/utils/dateTime.cpp:285 | The date printed in the format the source gives as its example |
| DateExact.PrintsImfFixdateIff | server/code/utils/dateTime.cpp:285-292 | What is printed is an IMF-fixdate (section 7.1.1.1 of RFC 7231) if and only if day, hour, minute and second have two digits each |
| DateSpellings.SpellingsAgree | server/code/utils/dateTime.cpp:107-131 | For years 2000 to 2099 the IMF-fixdate, RFC 850 and asctime spellings (section 7.1.1.1 of RFC 7231) of a date all have that date as their only outcome |
| DateSpellings.ImfParses | server/code/utils/dateTime.cpp:107-131 | IMF-fixdate is parsed to its date, for any year from 100 |
| DateSpellings.AsctimeParses | server/code/utils/dateTime.cpp:107-131 | The asctime form is parsed to its date, for any year from 100 |
| DateSpellings.Rfc850ParsesIff | server/code/utils/dateTime.cpp:222-223 | The RFC 850 form is parsed to its date if and only if the year is from 2000 to 2099 |
| DateSpellings.NumericMonthUnchecked | server/code/utils/dateTime.cpp:200-209 | A numeric month of any size is accepted as it stands, and the result can be printed if and only if it is at most 11 |
| DateTime.TokenizeDateString | server/code/utils/dateTime.cpp:76-102 | The tokens are the maximal runs of letters and digits |
| DateTime.DetectTimeStandard | server/code/utils/dateTime.cpp:117-131 | The asctime order is chosen if and only if the second token is the name of a month |
| DateTime.StringToTimeT | server/code/utils/dateTime.cpp:144-279 | The parsed date agrees with all seven tokens in the detected order, or the error names the number of tokens or the first token that is not a value of its field |
| DateTime.ParseFields | server/code/utils/dateTime.cpp:165-276 | The loop over the fields: agreement with each token, or the first bad one |
| DateTime.TimeTToString | server/code/utils/dateTime.cpp:281-293 | Printing succeeds if and only if the weekday and the month have names |
| Decimal.StoiOfPrinted | server/code/utils/dateTime.cpp:289-292 | Parsing a printed number gives the number if and only if it fits an `int` |
| Decimal.StoiExact | server/code/utils/dateTime.cpp:182-189 | A token is taken for the number it begins with, whatever zeros come before and characters after, if that is at most 2147483647, and otherwise for none |
| Decimal.PrintedDigits | server/code/utils/dateTime.cpp:287-292 | Numbers are printed in decimal digits, the most significant first |
| MessageRoundTrip.OthersExact | server/code/httpServer.cpp:98-108 | On every buffer, with `ls` the lines after the request line and `k` the first that is empty or a lone CR, `other` is `ls[1..k]` inclusive: as written, the first header line is dropped and the terminating line kept; what is unread is what comes after line `k` |
| MessageRoundTrip.RequestRoundTrip | server/code/httpServer.cpp:88-140 | A printed request line with any positive numbers of spaces, header lines, a blank line and a body is read back exactly, and the cursor is left at the body (section 3.1.1 of RFC 7230) |
| MessageRoundTrip.RequestRecoveredIff | server/code/httpServer.cpp:134-139 | The three parts and the body of any printed request are recovered if and only if the protocol does not begin with a space and the path is not empty, or path and protocol are both empty and what follows up to the next line feed is blank |
| MessageRoundTrip.ResponseReadBack | server/code/httpThings.cpp:37-60 | Reading a generated response with content and LF-free header values yields protocol, status code and text, and leaves exactly the content and two NULs unread |
| MessageRoundTrip.OperationsKeepWellFormed | server/code/httpThings.cpp:14-65 | The operations on a response keep its protocol, the status text that goes with its status, the known header names and the wish to close |
| RequestReader.LinesAre | server/code/httpServer.cpp:111-134 | The lines are LF-free and joined they are the data, completed by a line feed if need be |
| RequestReader.ReadRequest | server/code/httpServer.cpp:84-109 | It terminates on every buffer; the request and the unread rest are those of the specification |
| RequestReader.ReadHeaderLines | server/code/httpServer.cpp:98-108 | The loop over header lines terminates and stores the lines of the specification |
| RequestReader.ReadDataChunk | server/code/httpServer.cpp:111-140 | The piece up to the delimiter, a line feed or the end; the delimiter is consumed, and after a space all further spaces |
| RequestReader.ChunkExact | server/code/httpServer.cpp:120-139 | A piece ends before the first delimiter or line feed or at the end of the data; what ended it is dropped and, after a space, exactly the further spaces |
| RequestReader.SkipBlanks | server/code/httpServer.cpp:136-139 | All spaces at the cursor are consumed, and nothing else |
| RequestReader.CopyPiece | server/code/httpServer.cpp:120-132 | The piece before the delimiter, a line feed or the end is copied, and the cursor left at what ends it |
| RequestReader.DataBuffer.PeekByte | server/code/utils/dataBuffer.cpp:23-30 | The next byte within bounds, or none; the cursor stays |
| RequestReader.DataBuffer.ReadByte | server/code/utils/dataBuffer.cpp:32-39 | As peek, and the cursor moves by one unless at the end |
| CommandProcessor.ProcessedIsGood | server/code/httpCommandProcessor.cpp:19-92 | For every request and file-system answer: the processor returns unless the path is a plain file's; the status is the one due; the content is not empty and `Content-Length` is the decimal form of its length (section 3.3.2 of RFC 7230) |
| CommandProcessor.ProcessedReadBack | server/code/httpCommandProcessor.cpp:19-92 | A processor's response, read back from its bytes, shows its status, and behind the blank line as many characters as announced, and two NULs |
| ResponseExact.ProcessedExactly | server/code/httpCommandProcessor.cpp:19-92 | For every request and file-system answer: status, text, page and the three headers of the response, literally; a folder's page lists its files in order |
| ResponseExact.SentExactly | server/code/httpThings.cpp:37-60 | The bytes sent for a request: status line, `Content-Length` with the length of the page, `Content-Type: text/html`, `Date` with the printed time, a blank line, the page, two NULs |
| ResponseExact.DateHeaderParses | server/code/httpCommandProcessor.cpp:65-66 | The `Date` header of a response is parsed back to the time it was made, and to nothing else |
| ResponseExact.GenerateExactly | server/code/httpThings.cpp:37-60 | The bytes of any response, with or without content and whichever headers are set |
| ResponseExact.StatusTexts | server/code/httpThings.h:57-97 | The text of each of the eight known status codes, and "Error" for any other |
| ResponseExact.PushExactly | server/code/httpThings.h:99-103 | Setting a header sets the one of its name and nothing else |
| CommandProcessor.HttpResponse.constructor | server/code/httpThings.cpp:10-12 | A new response is the default page of status 200 |
| CommandProcessor.HttpResponse.SetStatus | server/code/httpThings.cpp:14-35 | Status, text, default page, its type and its length are set; other headers stay |
| CommandProcessor.HttpResponse.AddHeader | server/code/httpThings.cpp:62-65 | One header is set and nothing else |
| CommandProcessor.HttpResponse.GenerateBytes | server/code/httpThings.cpp:37-60 | Status line, header lines in the map's order, blank line and content if there is any, two NULs |
| CommandProcessor.HttpCommandProcessor.Process | server/code/httpCommandProcessor.cpp:19-69 | The response of the specification, or no return exactly for a plain file |
| CommandProcessor.HttpCommandProcessor.FolderContent | server/code/httpCommandProcessor.cpp:71-92 | The response holds a page that lists the files in order, for any number of files, with its type and length |
| CommandProcessor.HtmlWrapper.GenerateHtml | server/code/utils/htmlWrapper.cpp:51-60 | The page around everything appended so far |
| CommandProcessor.HtmlWrapper.PushListItem | server/code/utils/htmlWrapper.cpp:31-35 | One list item is appended |
| CommandProcessor.HtmlWrapper.PushHeader | server/code/utils/htmlWrapper.cpp:37-44 | One heading of the given level is appended |

## Where the code and its intent differ

The model follows the code.

* `ReadRequest` reads the next line before it stores one, so `other` lacks the first header line and ends
  with the blank one (`OthersExact`).
* An empty path is not recovered, except by accident: the reader skips all spaces after the method
  (`RequestRecoveredIff`).
* Numeric months count from 0 and are not range-checked (`NumericMonthUnchecked`).
* A two-digit year is always taken for one from 2000 on, so the RFC 850 form of earlier years is misread
  (`Rfc850ParsesIff`).
* Printed numbers are not padded with zeros, so a printed date need not be an IMF-fixdate
  (`PrintsImfFixdateIff`).
* A request for a plain file ends in `assert(false)`; this is the crash `NoResponse` (`OnlyPlainFilesStop`).
* The handler search gives up without looking at the handler the counter stands at (`GeneratedInvalid`).
* Overflow of the handler counter is undefined in C++. The explicit skip of -1 shows that it is meant to
  wrap around, and the model does, in a space of handlers that is a parameter.

## Left out

* Sockets, `select`, `errno` and partial sends: readiness is any ascending choice of the polled handlers, a
  read any string of at most 2048 characters, a send a record of the bytes; all of them succeed.
* The connections reported for exceptions are only logged in the source.
* `DataBuffer`'s default constructor leaves the position unset; an empty read is an empty buffer here.
* Pointers into the table: a descriptor is a value, and each assignment through a pointer is a step that
  looks the handler up. The socket read from a released descriptor in `CloseConnection`, and the memory
  model of `_access_lock`, are not part of this model.
- HttpApplication.EveryConnectionAnswered: stated of undisturbed runs, because a disturbed one can read a
  connection twice and send two responses on it (`ServesTwiceIff`).
- HttpApplication.EveryAnswerReads: likewise.
- ServerRefinement.RunRefines: likewise.
- ServerRefinement.WireExact: likewise.
- ServerTheorems.OnlyFinishingWritersLoseDescriptors: stated of undisturbed runs, as it rests on exclusion.
- ServerTheorems.ClosingStrandsIffLocked: likewise.
- ServerProgress.ConnectionLife: likewise.
- ServerProgress.WorkBetween: likewise.
- ServerProgress.WorkBounded: likewise.
- ServerProgress.TwoRunnablesEach: likewise.
- ServerService.ReadyAreServed: likewise.
- HttpApplication.EveryAnswerExact: likewise.
- ServerProgress.LockedGoesOn: likewise; it says that a step can be taken, not that the scheduler of the
  threads lets it be taken.
- ServerTheorems.RunInv: likewise.
- ServerTheorems.StepInv: stated of all steps but the one that takes another grant's lock, which breaks the
  invariant (`SnatchingBreaks`).
- ServerLoops.IterationIsRun: covers an iteration that no worker interferes with, as its method is one
  uninterrupted call; all interleavings are covered by the theorems over the atomic steps.
- ServerLoops.TurnIsRun: likewise for a worker's turn.
- CommandProcessor.HttpCommandProcessor.Process: the file system and the clock are arguments; what they
  answer is arbitrary, but the time of day has a weekday and a month.
* Steps are sequentially consistent. One step covers what touches one descriptor or one thread's data only:
  receiving and parsing, and in `OnRead` and `OnWrite`, after the test of the lock, the choice of a runnable,
  the locking and the `push_back`.
* Shutdown, `Stop`, joining of threads, the default pool and `Pop_WithWait`: runs end before the close signal
  is acted on, and a worker's wait for a task is that it takes no step.
* `DataProvider` and reading of files, the logger, signals, program arguments and the example `main`.
* Texts of exceptions; bytes are characters, and sizes are unbounded.
* The ordered map of headers is a map that is printed in the order of its three possible names.
