# zbroker, verified

zbroker moves documents between a MongoDB collection and TCP clients. A reader
thread pages through the collection and feeds a bounded blocking queue; the
single io thread drains it with a retrying batch pop and answers in
length-prefixed frames. A mirror path carries updates the other way, and a
reference-counted processor table starts and joins the threads. This project
models that pipeline in Dafny and proves what it guarantees, over every
interleaving and every run.

| file | part of the system |
|---|---|
| `Seqs.dfy`, `Arith.dfy` | sequence vocabulary, facts about products |
| `Monitor.dfy` | the bounded queue for one producer and one consumer: atomic sections, their invariant, the class |
| `ManyThreads.dfy` | the same monitor shared by any number of threads, with or without spurious wakeups |
| `Pager.dfy` | the paginating query and its closed form |
| `BatchPop.dfy` | the retrying consumer loop |
| `ReadMachine.dfy` | the read path as a transition system |
| `ReadInvariants.dfy`, `ReadEnumeration.dfy`, `ReadShutdown.dfy` | what each of its steps keeps |
| `ReadTheorems.dfy`, `ReadOrder.dfy`, `ReadRequests.dfy`, `ReadPops.dfy` | its properties over whole runs |
| `WriteMachine.dfy`, `WriteTheorems.dfy` | the write path |
| `Lifecycle.dfy`, `LifecycleTheorems.dfy` | connections, processor table, reference counts |
| `BrokerState.dfy` | the broker object: init, open, close, rewind, query |
| `Reopening.dfy` | from the options of an OPEN to the read path it starts |
| `Packet.dfy`, `Stream.dfy`, `RubyClient.dfy` | framing on both sides of the wire |

How the concurrent parts are modelled. Every critical section of the queue
monitor is one atomic step, and so is every access to a shared flag or to the
cursor. A thread inside a wait is asleep, signalled, or expired (its timed wait
has run out but it has not re-entered the monitor yet). `broker::query` is split
in three: the cursor is read, the database answers from the collection as it
stands, the cursor is stored. The collection may be replaced by any other
between any two steps. Logs carried by the states (pages fetched, documents
popped, updates applied, ...) are read by no step. A document is represented by
its `_id`, the only part of it the broker inspects; time is a step that may or
may not happen; a database connection attempt succeeds or fails by a parameter.

Where the code and its tests or intentions differ, the model follows the code:

- A batch push empties the vector from its back, so each page is delivered in
  reverse. `test/broker_test.cc` expects the newest document last;
  `ReadOrder.PairReversed` is a run that delivers it first, and
  `ReadOrder.OrderKeptByConfigIff` says order is kept exactly for page size 1.
- A rewind that falls inside a query with documents is overwritten when that
  query stores its cursor: `ReadTheorems.RewindCanBeLost`, with the exact
  condition in `ReadTheorems.RewindTakesEffectIff`.
- A push wakes one waiting consumer however many documents it brings; with
  several consumers one can be left asleep beside a non-empty queue:
  `ManyThreads.NobodyStrandedIff`. The server has one.
- `skip` is applied again on every page; `Pager.FetchedIff` says which documents
  are therefore never fetched.
- A wait that has expired still has to re-enter the monitor, and an update
  accepted in that window is lost at shutdown:
  `WriteTheorems.AcceptedUpdateCanBeLost`. `WriteTheorems.DrainDecidedAtExit` has
  the exact condition, on the state in which `term` sets the exit flag.
- A read timeout of 0 waits for ever, so `term` can hang:
  `ReadTheorems.DeadlockFreeIff`. A queue size of 0 makes `pop` read the front of
  an empty deque: `ReadTheorems.FaultFreeIff`, `WriteTheorems.FaultFreeIff`.
- CLOSE followed by a disconnect releases two references:
  `LifecycleTheorems.DoubleCloseTearsDown`. `NeverTornDownIff` says exactly when
  a broker stays up under its live connections, `RefcountExactIff` when the
  count is exact.
- Options that `broker::init` complains about, or a database that is down, make
  OPEN throw out of the io loop; `Lifecycle` has this as a crash too.
- The server never unpacks the id of a request, so a connection whose first
  command is not OPEN looks up the empty id and trips the assertion in the
  processor's constructor; `Lifecycle` has this as a crash.
- The Ruby client does not pad a short packet id (`RubyClient.RequestHonestIff`)
  and takes whatever its first receive returns for a whole header
  (`RubyClient.ReplyReceivedIff`).

## Model

| member | source | states |
|---|---|---|
| Monitor.FillConserves | src/sized_queue.cc:49-52 | the drain loop loses and duplicates nothing: queue plus reversed rest is unchanged, it stops only when the vector is empty or the queue full, respects the limit, and moves at least one element when it can |
| Monitor.PushKeepsSoundIff | src/sized_queue.cc:43-55 | entering a batch push keeps the one-producer one-consumer invariant if and only if the batch is non-empty or no consumer sleeps |
| Monitor.PushResumeSound | src/sized_queue.cc:47-54 | a signalled producer finds room, makes progress and keeps the invariant |
| Monitor.PopSound | src/sized_queue.cc:18-29 | from a sound monitor neither entering nor resuming a pop meets an empty front, and the invariant is kept |
| Monitor.SizedQueue.Drain | src/sized_queue.cc:49-52 | the in-place loop computes Fill of the old queue and vector |
| Monitor.SizedQueue.Push | src/sized_queue.cc:43-54 | push(vector&) up to its wait or to its end is the section PushEnter |
| Monitor.SizedQueue.PushResume | src/sized_queue.cc:47-54 | push(vector&) after its wait is the section PushBody |
| Monitor.SizedQueue.PushOne | src/sized_queue.cc:31-40 | push(item) blocks exactly on a full queue and otherwise agrees with a batch of one |
| Monitor.SizedQueue.PushOneResume | src/sized_queue.cc:36-40 | after its wait push(item) appends without testing the limit; it agrees with the batch push only if there is room |
| Monitor.SizedQueue.Pop | src/sized_queue.cc:18-28 | pop up to its wait or to its end is the section PopEnter, and keeps a sound monitor sound |
| Monitor.SizedQueue.PopResume | src/sized_queue.cc:23-28 | pop after its wait takes the oldest element and keeps a sound monitor sound |
| Monitor.SizedQueue.SetSize | src/sized_queue.hpp:43-45 | only the limit changes |
| Monitor.SizedQueue.Clear | src/sized_queue.hpp:51-54 | only the contents change |
| ManyThreads.BatchPushBounded | src/sized_queue.cc:43-55 | for every limit, number of threads and pattern of spurious wakeups, batch pushes never exceed the limit in any reachable state |
| ManyThreads.FirstInFirstOut | src/sized_queue.cc:18-55 | with any number of threads a step leaves the contents alone, removes the front, or adds at the back the item of a push or a reversed tail of its batch |
| ManyThreads.IfSufficesIff | src/sized_queue.cc:18-29 | no reachable pop takes from an empty queue if and only if the limit is positive, there is one consumer and no spurious wakeup |
| ManyThreads.SinglePushBoundedIff | src/sized_queue.cc:31-41 | push(item) keeps the limit in all reachable states if and only if the limit is positive, there is one producer and no spurious wakeup |
| ManyThreads.NobodyStrandedIff | src/sized_queue.cc:43-55 | no consumer is ever left asleep beside a non-empty queue that no woken consumer is coming to if and only if pushes are single, the limit is at most 1 or there is one consumer |
| ManyThreads.StrandedConsumer | src/sized_queue.cc:49-53 | the run that leaves one asleep |
| ManyThreads.ZeroLimitPop | src/sized_queue.cc:45-48 | with limit 0 a producer wakes the consumer on an empty queue |
| ManyThreads.ZeroLimitPush | src/sized_queue.cc:21-23 | with limit 0 a consumer lets the waiting push(item) exceed the limit |
| ManyThreads.StolenItem | src/sized_queue.cc:21-25 | a run in which a second consumer takes the item a signalled one was promised |
| ManyThreads.StolenRoom | src/sized_queue.cc:34-38 | a run in which a second producer takes the room a signalled one was promised |
| Pager.SelectIsSuffix | src/broker.cc:156-168 | on an ascending collection the `$gt` condition selects a suffix |
| Pager.PageWithoutSkip | src/broker.cc:181-209 | with skip 0 a page is ascending, beyond the cursor, gap-free up to the stored cursor, and empty only when nothing lies beyond |
| Pager.PageClosedForm | src/broker.cc:186-209 | on a fixed collection page k is the slice from k*(skip+limit)+skip to (k+1)*(skip+limit), clipped |
| Pager.FetchedIff | src/broker.cc:189 | a document is ever fetched if and only if its index modulo skip+limit is at least skip |
| Pager.WholeCollection | src/broker.cc:186-209 | with skip 0 exactly the first ceil(n/limit) pages are non-empty and they concatenate to the collection |
| BatchPop.Run | src/broker.cc:226-252 | the do/while loop: documents are the arrivals in order, attempts and documents are bounded, failure exactly when the last pop timed out, success after an unbroken batch |
| BatchPop.Attempt | src/broker.cc:232-238 | one attempt: it ends at its first timeout or after a full unbroken batch, keeping every document it popped |
| BatchPop.BoundedStep | src/broker.cc:231-250 | every outcome of a pop keeps the bounds on attempts and documents |
| BatchPop.PlayedKeeps | src/broker.cc:231-250 | while the call runs its documents are exactly the arrivals so far |
| BatchPop.NoMoreItemIff | src/asio_processor.cc:66-80 | do_read answers NoMoreItem if and only if nothing was popped |
| ReadTheorems.QueueIsSafe | src/sized_queue.cc:4-55 | in every reachable state of the read path the queue keeps its bound, a signalled thread finds its condition true, the two threads never wait for each other, and a READ is never stuck |
| ReadTheorems.FaultFreeIff | src/sized_queue.cc:18-29 | the front of an empty queue is reachable if and only if the capacity is 0 |
| ReadTheorems.HeldUpIff | src/sized_queue.cc:18-55 | until it returns the reader is held up exactly when asleep without a timeout, and then on a full queue; the io thread exactly when asleep without a timeout, and then on an empty queue, or in the join |
| ReadTheorems.UntimedNeverExpires | src/sized_queue.cc:4-15 | in every reachable state only a wait with a timeout has run out |
| ReadTheorems.NothingLost | src/broker.cc:256-273 | replies sent, pops in flight, queue and the reader's reversed rest concatenate to the reversed pages fetched, in every reachable state |
| ReadTheorems.StreamGrows | src/broker.cc:253-274 | along every run what is already on its way is only ever extended at the end |
| ReadOrder.OrderKeptIff | src/sized_queue.cc:49-52 | on every run without rewinds documents leave in _id order if and only if no page held two documents |
| ReadOrder.OrderKeptByConfigIff | test/broker_test.cc:167-176 | documents leave in _id order on every run without rewinds if and only if the page size is 1 |
| ReadOrder.PairReversed | test/broker_test.cc:167-176 | a run whose first two documents leave newest first |
| ReadOrder.FetchedIncrease | src/broker.cc:156-209 | with skip 0 the ids fetched in any stretch of a run without rewinds strictly increase across all its pages, whatever happens to the collection |
| ReadTheorems.PassIncreases | src/broker.cc:156-209 | with skip 0 ids fetched since the last query from scratch strictly increase in every reachable state |
| ReadTheorems.PassIsComplete | src/broker.cc:181-209 | when a pass meets an empty page, every document present throughout the pass has been fetched in it exactly once, whatever changed meanwhile |
| ReadTheorems.ReachEndMeans | src/broker.cc:258-265 | when the end flag is up between two queries the pass is complete, each lasting document fetched once, and all that was fetched is delivered, being popped or queued |
| ReadTheorems.EndFlagIsLatest | src/broker.cc:258-265 | on every run from every state the end flag is what the most recent rewind or returned query left: up exactly after a query with an empty page |
| ReadTheorems.CursorIsLatest | src/broker.cc:150-209 | on every run from every state the cursor has the value left by the most recent rewind or store of a page with documents |
| ReadTheorems.CursorAfter | src/broker.cc:204-209 | after a rewind the cursor is empty, after the store of documents it is the last id of the page, until the next such event |
| ReadTheorems.OverwrittenIff | src/broker.cc:204-209 | a rewind is overwritten if and only if the one query under way at the time has, or then gets, an answer with documents |
| ReadTheorems.RewindTakesEffectIff | src/broker.cc:150-209 | the first query after a rewind starts from scratch if and only if the query under way at the rewind, if any, has or gets an empty answer; documents already fetched still come first, and the end flag stays down until a query has returned |
| ReadTheorems.RewindCanBeLost | src/broker.cc:204-209 | a run in which the cursor is set again after the rewind, for every configuration |
| ReadTheorems.RestartsAtSmallest | src/broker.cc:160-166 | a query from scratch returns the smallest ids |
| ReadTheorems.TermJoins | src/asio_processor.cc:4-16 | after set_exit the reader completes the push it is in and no other, both threads take at most 12+3*retries steps in any interleaving, the joined reader is never asleep on a full queue, and a run can stop only with the reader joined |
| ReadTheorems.DeadlockFreeIff | src/asio_processor.cc:5-13 | no reachable state of term is stuck if and only if the read timeout is positive |
| ReadTheorems.UntimedTermHangs | src/sized_queue.cc:12-14 | the run in which term waits for ever |
| ReadPops.TermTakesFront | src/asio_processor.cc:8-11 | term on a non-empty queue discards exactly its oldest document, whatever happens meanwhile |
| ReadPops.TermWaits | src/asio_processor.cc:8-11 | on an empty queue with the end flag down term joins only after discarding one document or after retries+1 waits that ran out |
| ReadPops.TermSkipsPop | src/asio_processor.cc:8-13 | on an empty queue with the end flag up term pops nothing and waits for nothing, whatever the read timeout, and the run can stop only with the reader joined |
| ReadRequests.ReadIsAnswered | src/asio_processor.cc:66-80 | with a positive timeout the io thread is never held up in a READ and answers it within (retries+1)*3*limit+3 of its own steps |
| ReadPops.ReadOutcome | src/asio_processor.cc:66-80 | on every run a READ ends either with a timeout after exactly retries earlier ones, or with limit documents in a row since its last timeout; the reply is exactly the documents popped since the request, NoMoreItem if none |
| Reopening.ReadRetriesOnce | src/broker.cc:226-252 | under the options of any OPEN a READ gives up at its second timeout, never the first, or ends with limit documents in a row |
| ReadRequests.FixedCollection | src/broker.cc:253-265 | in every interleaving over an unchanged collection without rewinds the k-th page fetched is the closed form |
| WriteTheorems.AppliedOnceInOrder | src/broker.cc:282-309 | in every run updates applied, in application, queued and still held concatenate to the reversed WRITE batches; the counter is the number applied |
| WriteTheorems.WriteQueuesAll | src/asio_processor.cc:89-102 | when do_write has returned all its documents are queued or beyond, each batch reversed |
| WriteTheorems.WriteLoopProgress | src/asio_processor.cc:97-99 | every returning push shortens the vector, and the updater is awake whenever do_write sleeps |
| WriteTheorems.WriteIsAnswered | src/asio_processor.cc:89-102 | a WRITE is answered within 3*docs+1 steps of its io thread, a step is always possible until then, and a sleep on a full queue is over after at most two steps of the updater |
| WriteTheorems.SleepIsShort | src/sized_queue.cc:45-48 | while do_write sleeps on a full queue the updater can take at most one step without waking it |
| WriteTheorems.DrainDecidedAtExit | src/asio_processor.cc:17-25 | every accepted update is applied before update returns if and only if, when term sets the exit flag, the updater's wait is not expired or nothing is queued; otherwise exactly what is queued then is lost |
| WriteTheorems.DrainedIff | src/broker.cc:298-306 | update returns only after set_exit, and what it leaves is what was queued after the expiry of its last wait |
| WriteTheorems.FaultFreeIff | src/broker.cc:287-290 | the updater takes from an empty queue on some run if and only if the capacity is 0 |
| WriteTheorems.PromptRunsDrain | src/broker.cc:282-309 | if an expired wait throws before any other step, every accepted update is applied and counted before update returns |
| WriteTheorems.AcceptedUpdateCanBeLost | src/sized_queue.cc:9-11 | the run that loses an accepted update |
| WriteTheorems.TermJoins | src/asio_processor.cc:17-25 | after set_exit at most 4*queued+5 steps remain and the run can stop only, and does stop, with the updater joined |
| Lifecycle.Server.constructor | src/asio_handler.hpp:70-72 | an empty table with count 0 |
| Lifecycle.Server.FindProcessor | src/asio_handler.hpp:73-86 | find inserts a new processor exactly when the id is unknown and the count stays the size of the table |
| Lifecycle.Server.OpenFor | src/asio_processor.cc:27-48 | connects the broker of the purpose if needed and takes a reference; throws on an invalid purpose, and for a broker not yet connected on unacceptable options or a database that is down |
| Lifecycle.Server.CloseFor | src/asio_processor.cc:49-58 | releases one reference; the last one tears the brokers down |
| Lifecycle.Server.HandleRequest | src/asio_handler.cc:13-39 | one request is one step of the transition system, crashes included |
| Lifecycle.Server.HandleDisconnect | src/asio_handler.cc:70-73 | a failed header read closes the processor once and forgets it |
| LifecycleTheorems.RefcountBounded | src/asio_processor.cc:27-58 | on every run the server survives, a reference count never exceeds the live connections that opened the processor |
| LifecycleTheorems.RefcountExactIff | src/asio_processor.cc:49-58 | the counts equal the live holders throughout a run if and only if it contains no CLOSE |
| LifecycleTheorems.CrashIffMisuse | src/asio_processor.cc:111-135 | on every surviving run, with CLOSE or without, a live opened connection has its broker if and only if its processor is referenced, and a request crashes the server if and only if it is a misuse: not opened, wrong or invalid purpose, unknown, no reference left, or a first OPEN whose options or database fail |
| LifecycleTheorems.CrashWithoutClose | src/asio_processor.cc:120-127 | without CLOSE every live opened connection has its broker and a crash is always a mistake the client can see in its own request or in who is connected |
| LifecycleTheorems.NeverTornDownIff | src/asio_processor.cc:49-58 | throughout a surviving run every live connection that opened a processor has its broker connected if and only if the live holders always outnumber the CLOSE requests sent to it so far |
| LifecycleTheorems.DoubleCloseTearsDown | src/asio_processor.cc:116-118 | CLOSE then disconnect takes the broker from under another live reader, whose next READ trips the assertion |
| BrokerState.Broker.constructor | src/broker.cc:5-38 | the state of a new broker |
| BrokerState.Broker.Close | src/broker.cc:17-38 | status flags, statistics, cursor and numeric settings are back to 0 or 1 as listed; names, options and the queue survive |
| BrokerState.Broker.FillDefaults | src/broker.cc:77-91 | the defaults for missing parameters |
| BrokerState.Broker.Init | src/broker.cc:43-94 | does nothing when initialised; else raises an argument error if and only if host, database or collection is empty or the port missing, naming the first of them with queue and status untouched, or configures from the options with limit 1000, skip 0, five pages of queue (in 32 bits) and timeout 1 as defaults |
| BrokerState.Broker.Open | src/broker.cc:110-123 | on a closed broker the outcome is an argument error exactly for the first name or port missing, success yields exactly the state described by the options alone; an initialised one keeps its old options |
| BrokerState.Broker.Reopen | src/asio_processor.cc:49-58 | close followed by open succeeds or fails by the new options only and forgets everything before |
| Reopening.OpensAtInit | src/broker.cc:110-123 | a freshly opened broker is the initial state of the read path for its options |
| Reopening.ReopenAtInit | src/asio_processor.cc:49-58 | close then open puts any broker back at the initial state of the read path for the new options |
| Reopening.OptionsDecide | src/broker.cc:77-93 | undefined behaviour is unreachable if and only if the effective queue_size is not 0; then term is free of deadlock if and only if read_timeout is not 0, with skip 0 order is kept if and only if limit is 1, and pushes of the reader never time out |
| BrokerState.Broker.Rewind | src/broker.cc:150-154 | clears the cursor and the end flag, nothing else |
| BrokerState.Broker.Query | src/broker.cc:169-224 | the loop caches exactly the page and stores its last id when there is one |
| Packet.DecimalParses | src/request_packet.cc:8-9 | printing a size and parsing its digits are inverse |
| Packet.HeaderParses | src/request_packet.hpp:32-35 | a padded header parses to its number, and is 16 characters wide if and only if the number is below 10^16 |
| Packet.FrameHonestIff | src/request_packet.cc:3-19 | the receiver reads from a packed header the number of bytes that follow if and only if the id fits 32 characters and the size fits an int |
| Packet.PackLayout | src/request_packet.cc:14-18 | where header, id and body lie in a packed frame |
| Packet.OutPacket.PackData | src/request_packet.cc:3-19 | builds the frame, pads the stored id, and packing again gives the same bytes |
| Packet.PackIdempotent | src/request_packet.cc:11-12 | packing with an already padded id gives the same bytes |
| Packet.CStrStops | src/request_packet.cc:11-12 | what a packed id shows of an id is the part before its first NUL |
| Packet.InPacket.Unpack | src/request_packet.hpp:91-100 | in bounds exactly when the frame holds a header, an id and the bytes it announces; then header, length, id and raw bytes are those of the frame |
| Packet.RoundTrip | src/request_packet.hpp:58-73 | unpacking a packed packet gives back the body and the padded id |
| Packet.EveryReplyDecodable | src/asio_processor.cc:178-188 | every reply announces its own length in 16 characters, carries the padded id in the next 32, then the content if it is shorter than 10485760 and the code 504 otherwise |
| Stream.ReadFrame | src/asio_handler.cc:58-68 | one turn: a complete frame, an incomplete one, or a negative length |
| Stream.ReadLoop | src/asio_handler.cc:58-97 | the header/body loop computes the frames of the stream |
| Stream.NegativeBreaks | src/asio_handler.cc:58-68 | a header that spells any negative int ends the stream, whatever follows |
| Stream.ReadingResumes | src/asio_handler.cc:85-93 | reading may stop at any cut of the stream and resume with what comes next |
| Stream.StreamDecodes | src/asio_handler.cc:58-68 | the loop recovers exactly the packets sent, whatever follows them |
| Stream.UniquelyDecodable | src/request_packet.cc:3-19 | equal byte streams carry equal packet sequences |
| RubyClient.RubyPacket.SetPacketId | rb/lib/zbroker/packet.rb:24-29 | refuses longer ids and keeps shorter ones unpadded |
| RubyClient.RubyPacket.Data | rb/lib/zbroker/packet.rb:16-19 | header computed once, then id and body |
| RubyClient.RubyPacket.DecodeHeader | rb/lib/zbroker/packet.rb:33-36 | splits received bytes into id and body |
| RubyClient.RequestHonestIff | rb/lib/zbroker/packet.rb:24-39 | a request announces what follows it if and only if its id has 32 bytes and its size fits an int, and then is the frame the server would pack |
| RubyClient.RecvPacket | rb/lib/zbroker/proxy.rb:49-66 | the loop ends and assembles the announced bytes, independently of how they are divided into chunks |
| RubyClient.RecvReply | rb/lib/zbroker/proxy.rb:49-66 | the loop run on a server frame with anything after it returns its id and body if and only if the first receive can return 16 bytes, and then consumes exactly the frame |
| RubyClient.ReplyReceivedIff | rb/lib/zbroker/proxy.rb:49-66 | a server frame is assembled exactly, and splits into its id and body, if and only if the 16 header bytes arrived in one piece |

## Left out

- MongoDB driver, BSON and JSON, MD5: documents are opaque, a query is one atomic answer, the hash of the options is injective.
- Failing database operations: an exception from a query or an update, or from parsing an update, leaves its thread and is not modelled.
- `m_querying` and `m_con_query` in `batch_pop`: a finite delay without effect on the documents.
- Clock time: a timeout is a step that may happen in any timed wait; sleeps are steps.
- Limit 0, negative limits or skips, conditions that mention `_id`, projections that drop it, and descending sort: outside what the cursor assumes.
- Document text: the read path carries `_id` values; the text travels with its id.
- Monitor.Channel: it has one waiting place per side, as in the server; more threads are the subject of ManyThreads, which does not model timeouts.
- Lifecycle.Server.HandleRequest: what READ, WRITE and REWIND do to the queue is the subject of the read and write machines, not of this method.
- BrokerState.Broker.Query: runs as one call against one collection; its interleaving with rewinds and changes is in ReadMachine.
- BrokerState.Broker.Open: the connection string and log lines are not kept.
- Packet.InPacket.Unpack: what the original finds beyond the bytes it was given is not modelled; out of bounds nothing is promised.
- Packet.FrameHonestIff: for ids longer than 255 characters the original overflows its 256-character buffer, and the bytes described for them are what an unbounded sprintf would print.
- Stream.ReadLoop: mid-body read errors throw out of the server and end the model's stream; a body handed on as a C string would stop at a NUL, which is not modelled.
- RubyClient.RecvPacket: Ruby's `to_i` also skips underscores, which no header contains.
- The zmq client, the stub request handler, colour output and configuration files: presentation or unused.
