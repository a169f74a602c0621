# A verified model of the pub/sub radio simulator

The repository is a small C11/pthreads message system. A producer drops raw telemetry and
alerts on a bounded ingest queue, a pool of workers numbers each item and publishes it on one
of two topics, and subscribers (an in-process consumer and one socket client at a time) take
their own copies from their own bounded queues. The client first negotiates a protocol version,
then receives JSON lines and may send commands that change the producer's interval or inject
alerts. This project models that behaviour in Dafny 4.11 and proves properties of it.

`dafny verify dfyconfig.toml` checks everything; all files are self-contained.

| file | what it holds |
|---|---|
| Basics | `Option` and a counting helper |
| RingBuffer | the ring of `head`, `tail`, `size` as a value |
| MsgQueue | `msg_queue_t` as a class over an array, proved against its abstract contents |
| Monitor, QueueTheorems | the queue's mutex and two condition variables as a step machine over any number of threads; wakeups, order, shutdown |
| Registry, PubSub | the topic table as a list of entries refining a map; the same table as a class over arrays; the fan-out loop |
| Messages, System | message records; the whole process as one step machine (producer, workers, consumer, transport, command listener, `main`) |
| Lifetimes, Ownership, Routing, Sequence, SystemTheorems, Printable, Origin, Production, Publishing | its invariants and what they give over every interleaving |
| Completion, Shutdown | a measure of the work left after a shutdown request, and how the shutdown ends |
| Drain, Polls, Leftovers | what a shutdown leaves behind in `main`'s three queues, exactly |
| LostRuns | two complete runs that lose something, and one that never completes |
| Locks | who holds and wants which mutex |
| Decimal, Wire, Versions, Handshake, Command, Session | printing and parsing numbers, socket reads and writes, the handshake, the commands, one connection's input |
| Records, Feed, Pacing | JSON lines, the loop that feeds a client, the sliced sleep |

How the C program is represented:

- A condition-variable signal wakes any non-empty set of the threads parked there (POSIX lets
  `pthread_cond_signal` wake more than one), and any parked thread may wake spuriously. A thread
  can be overtaken between any two program points; only the mutex protects the ring.
- In the whole-process machine a step is one critical section or one private action, a publish
  holds the registry lock over many steps, and `malloc` may fail at every clone, at every queue
  the transport creates and at every payload the producer makes. Whatever the program must never do
  (use of a destroyed queue, control or context, a double free, a read of a payload that is not live, a cast to the
  wrong record) sets a `fault` flag, and the theorem is that no reachable state has it set.
- The peer is an arbitrary incoming byte stream together with arbitrary scripts of what every
  `write`, `read` and `poll` returns: partial writes, interruptions, time-outs, failures.
- What only the client can bring about (connecting, completing its handshake line, reading on when a
  write is stuck, sending a command, hanging up) are actions of their own; everything else the process
  does by itself. While the transport thread sits in the handshake, or in a write that found the
  socket full, it has no step of its own.
- In the whole-process machine a client can trigger exactly the alerts that `CommandsKeepStation`
  lets a command line produce, and a timestamp is any 64-bit number.
- Clock values, the shutdown request and message timestamps are parameters.

Statements one might expect that are false of the code, each with a concrete counterexample and
the exact condition under which the code does meet it:

- "Queues are drained" at shutdown (README.md:118-119 of the repository). An enqueue that finds
  room is accepted even after shutdown, and `try_enqueue` never looks at the flag, so an item
  accepted after the last worker has left is abandoned; a message published after the consumer has
  left stays in the consumer's queue; and the consumer looks for an alert only once per telemetry
  message. `LateEnqueueIsStranded` is a run of one queue. For the whole program
  `ShutdownCanLoseAnItem` and `PublishedMessageCanBeLost` are complete runs that lose something,
  `IngestDrainedIff`, `TelemetryLeftIff` and `AlertsLeftIff` say queue by queue what is left, and
  `NothingLeftIff` is the exact condition for all three of `main`'s queues together. (A connection's
  own queues are abandoned with whatever the client did not fetch; that is the design.)
- "Everything is joined before the process exits" (README.md:118-119 of the repository). The
  handshake's read and the writes to the client block without looking at the shutdown flag, so a
  client that connects and says nothing, or stops reading, holds `main` in the join for ever:
  `SilentClientHangs` is such a run. `StuckIff` says exactly in which states the process cannot go on
  by itself, `CompletesAloneIff` exactly from which states it can complete the shutdown without the
  client. With the client's help it always can (`ShutdownCanComplete`), and every run after the request
  is bounded by the work there was plus a fixed amount per command (`ShutdownIsBounded`), so only a
  client that never stops sending delays it without bound (`FloodDelays`).
- Topic names are unique. `pubsub_publish` has no length check although `pubsub_subscribe` has
  one: `LongTopicDuplicates`, `PublishKeepsNamesIff`.
- `SET_INTERVAL n` sets the interval to n. The conversion to 32 bits is unchecked:
  `LargeIntervalWraps`, `SetIntervalExactIff`.
- Sequence numbers are unique. They are exactly as long as at most 2^32 have been handed out:
  `DistinctIff` for the counter, `StampsDistinctIff` for every run.
- Alerts reach the client in bounded time. A waiting alert gets through exactly when some pass of the
  serving loop finds backlog and new telemetry used up: `AlertWaitsIff`. With new telemetry before
  every pass it waits for ever (`AlertsStarve`); without new arrivals `QuietFeed` gives the order.

Where the code and its own comments differ, the code is followed: no NACK is sent when the
client's line cannot be read (c/include/handshake.h:34-36 says otherwise), and the producer stops
for good when an alert finds the ingest queue full (c/src/main.c:113-116).

## Model

| member | source | states |
|---|---|---|
| `RingBuffer.PutAppends` | c/src/msg_queue.c:114-118 | Writing at `tail` and advancing it modulo the capacity appends to the contents read from `head`, and keeps the ring valid, also when it wraps or becomes full |
| `RingBuffer.PopRemoves` | c/src/msg_queue.c:173-179 | Reading at `head` and advancing it removes exactly the oldest item; the ring stays valid, also when it becomes empty |
| `MsgQueues.MsgQueue.constructor` | c/src/msg_queue.c:35-79 | A new queue is empty, open, and has the requested capacity, or 1024 for capacity 0 |
| `MsgQueues.MsgQueue.TryEnqueue` | c/src/msg_queue.c:127-150 | Succeeds exactly when the queue is not full, whatever the shutdown flag says; then exactly this item is appended, otherwise nothing changes |
| `MsgQueues.MsgQueue.TryDequeue` | c/src/msg_queue.c:188-213 | Returns and removes the oldest item, or nothing exactly when the queue is empty |
| `MsgQueues.MsgQueue.Size` | c/src/msg_queue.c:215-225 | The number of stored items |
| `MsgQueues.MsgQueue.Clear` | c/src/msg_queue.c:243-262 | Leaves the queue empty and valid, with capacity and shutdown flag as they were |
| `MsgQueues.MsgQueue.Shutdown` | c/src/msg_queue.c:227-241 | Sets the flag and nothing else |
| `MsgQueues.MsgQueue.Enqueue` | c/src/msg_queue.c:93-125 | With arbitrary activity of other threads during each wait: appends to whatever the queue holds when the wait ends, refuses only a full queue that is shutting down, and goes on waiting only while the queue is full and open |
| `MsgQueues.MsgQueue.Dequeue` | c/src/msg_queue.c:152-186 | Dually: takes the oldest item of whatever is there when the wait ends, refuses only an empty queue that is shutting down |
| `Monitor.StepKeepsInv` | c/src/msg_queue.c:93-262 | Every step of every thread keeps mutual exclusion, the facts known at each program point, coverage of sleepers by awake threads, evacuation after shutdown, and the FIFO equation |
| `Monitor.RunKeepsInv` | c/src/msg_queue.c:93-262 | So does every run |
| `QueueTheorems.ReachableInv` | c/src/msg_queue.c:35-79 | The invariant holds in every state reachable from a fresh queue |
| `QueueTheorems.NoLostWakeup` | c/src/msg_queue.c:93-262 | In every reachable state with the mutex free, if anybody sleeps on a condition variable, the items (free slots) are at most as many as the threads woken and on their way to use them |
| `QueueTheorems.OnlyStarvationBlocks` | c/src/msg_queue.c:105-107 | If no thread in the queue can move, all of them are asleep on one side, for something that really is missing, and the queue is not shut down |
| `QueueTheorems.WokenDequeuerTakes` | c/src/msg_queue.c:152-186 | If an item and a sleeping dequeuer coexist, some woken dequeuer obtains the oldest item with three steps of its own |
| `QueueTheorems.WokenEnqueuerPuts` | c/src/msg_queue.c:93-125 | Dually, if a free slot and a sleeping enqueuer coexist, some woken enqueuer stores its item behind the others with three steps of its own |
| `QueueTheorems.WholeRunFifo` | c/src/msg_queue.c:7-25 | Over any interleaving, the items accepted are the items handed out or cleared, in the same order, followed by the ring's contents; the ring is valid throughout |
| `QueueTheorems.ShutdownWakesAll` | c/src/msg_queue.c:227-241 | When shutdown has returned, nobody sleeps on either condition variable |
| `QueueTheorems.NobodySleepsAgain` | c/src/msg_queue.c:105-107 | Nor ever again |
| `QueueTheorems.RefusalReasons` | c/src/msg_queue.c:109-112 | Each operation reports failure only when full or empty, the blocking ones only when also shutting down |
| `QueueTheorems.SizeBalance` | c/src/msg_queue.c:118-179 | Without a clear, the size changes by puts minus takes over any run |
| `QueueTheorems.DrainsInOrder` | c/src/msg_queue.c:152-186 | Without further puts, at most as many items are taken as were stored, and what is left is the stored sequence without that many oldest items |
| `QueueTheorems.ShutdownDrains` | c/src/worker_pool.c:37-41 | If nothing is put any more and a dequeue has reported the end, everything ever accepted has been handed out, in order, each once |
| `QueueTheorems.WorkerStops` | c/src/worker_pool.c:37-41 | Without further puts, a worker's dequeue loop returns from at most as many calls as there are items left, plus one that tells it to stop (plus one already holding an item) |
| `QueueTheorems.LeftBehindIff` | c/src/msg_queue.c:109-118 | After a dequeue has been told to stop the queue ends empty exactly when later puts and takes balance |
| `QueueTheorems.LateEnqueueIsStranded` | c/src/msg_queue.c:109-118 | A concrete run in which an enqueue after shutdown is accepted and its item stays behind |
| `Registry.SwapRemoveExact` | c/src/pubsub.c:120-127 | Swap-with-last removal takes out exactly the one queue and keeps the list free of duplicates |
| `Registry.SubscribeSound` | c/src/pubsub.c:75-105 | Subscribing keeps the bounds, duplicate-free lists and distinct names |
| `Registry.UnsubscribeSound` | c/src/pubsub.c:107-132 | So does unsubscribing |
| `Registry.PublishKeepsNamesIff` | c/src/pubsub.c:32-47 | Creating a topic for a publish keeps names distinct exactly when a topic of 32 or more characters does not truncate to a name already there |
| `Registry.LongTopicDuplicates` | c/src/pubsub.c:134-142 | Two publishes to one 32-character topic create two entries with one name |
| `Registry.CreatedRefines` | c/src/pubsub.c:32-47 | Creating an entry is adding an empty set under that name to the map, as long as there are fewer than 8 topics |
| `Registry.SubscribeRefines` | c/src/pubsub.c:75-105 | Result code and new table are those of adding the queue to the topic's set, with at most 8 topics and 16 subscribers; a repeated subscribe changes nothing |
| `Registry.UnsubscribeRefines` | c/src/pubsub.c:107-132 | Result code and new table are those of removing the queue from the topic's set |
| `Registry.RequestRefines` | c/src/pubsub.c:75-174 | Every single request refines the map |
| `Registry.RegistryRefinesMap` | c/src/pubsub.c:21-174 | Every sequence of subscribe, unsubscribe and publish requests gives the same result codes on the list as on a map from names to sets, and ends in the list's map |
| `Registry.SubscribeMeans` | c/src/pubsub.c:75-105 | On the map: success exactly for names under 32 characters with the queue already there, or room among 16 subscribers or 8 topics; then this queue listens to this topic and nobody else's part changes; failure changes nothing |
| `Registry.UnsubscribeMeans` | c/src/pubsub.c:107-132 | Success exactly for a queue that listens; afterwards it alone no longer does |
| `Registry.PublishMeans` | c/src/pubsub.c:134-142 | Publishing makes a topic known while there are fewer than 8 and changes no subscription |
| `PubSub.Context.constructor` | c/src/pubsub.c:49-63 | A new context has no topics |
| `PubSub.Context.FindTopic` | c/src/pubsub.c:21-29 | The loop finds the first entry of that name, or reports none |
| `PubSub.Context.FindOrCreateTopic` | c/src/pubsub.c:32-47 | The arrays afterwards hold the list with a truncated new entry appended, or the same list when the topic is known or the table full |
| `PubSub.Context.FindSubscriber` | c/src/pubsub.c:88-93 | The position of the queue in the topic's row, or the count exactly when it is absent |
| `PubSub.Context.Subscribe` | c/src/pubsub.c:75-105 | The arrays do what the list does, including every error code and the null cases |
| `PubSub.Context.Unsubscribe` | c/src/pubsub.c:107-132 | The same for removal |
| `PubSub.Duplicate` | c/src/pubsub.c:153-161 | An equal copy of exactly the payload's length in newly allocated memory, or nothing exactly when memory was needed and missing |
| `PubSub.Offer` | c/src/pubsub.c:149-169 | One subscriber is served exactly when it has room and memory; then exactly one equal copy is appended, otherwise its queue is untouched; what stays allocated is exactly the copy handed over, so the clone for a full queue is freed |
| `PubSub.FanOut` | c/src/pubsub.c:149-169 | The loop serves each subscriber in that way, independently of the others; no two of them are handed the same buffer; the newly allocated memory is exactly their buffers; the result is the number of queues that could be served |
| `PubSub.FanOutLoop` | c/src/pubsub.c:148-169 | The loop itself, with the count of served subscribers |
| `PubSub.LedgerStep` | c/src/pubsub.c:153-161 | A clone that was not allocated before belongs to nobody else |
| `PubSub.CountIsSize` | c/src/pubsub.c:148-173 | The number counted is the size of the set of queues that could be served, so the order of the list plays no part |
| `PubSub.Context.Publish` | c/src/pubsub.c:134-174 | Returns the number of subscribers with room and memory; each gets at its end one equal copy in a buffer of its own, shared with nobody; every other queue keeps its state; nothing else stays allocated; a missing argument changes nothing |
| `PubSub.Context.PublishAmong` | c/src/pubsub.c:134-174 | Publishing keeps every queue concerned usable and creates the topic as on the list |
| `PubSub.Context.Handle` | c/src/pubsub.c:75-174 | One request of any kind on the arrays: the list's code and the list's table |
| `PubSub.Context.HandleAll` | c/src/pubsub.c:75-174 | Any sequence of requests on the arrays gives the return codes and the final subscriptions of the same sequence on a map from topics to sets of queues |
| `Lifetimes.StepLife` | c/src/transport.c:147-207 | Every step keeps: registered queues alive and registered once, a queue unsubscribed before it is destroyed, every thread gone before what it uses, the registry lock with a publishing worker |
| `Ownership.StepBalanced` | c/src/pubsub.c:149-169 | Every step keeps, for each payload, the number of hands, slots, frees and abandonments equal to one if allocated, else zero |
| `Ownership.StepOwn` | c/src/worker_pool.c:37-82 | Every step keeps the multiset of placed payloads equal to the set of allocated ones |
| `Routing.StepTypes` | c/src/worker_pool.c:43-75 | Every step keeps each stored or held payload the record its tag, its queue's topic and its holder's cast say |
| `Sequence.DistinctIff` | c/src/worker_pool.c:24-32 | The first n numbers of the 32-bit counter are distinct exactly when n is at most 2^32 |
| `Sequence.StepSeq` | c/src/worker_pool.c:44-70 | Every step keeps: numbers in flight distinct, no queue history with a repeat, a number never yet seen by a subscriber still to be visited |
| `SystemTheorems.StepSafe` | c/src/main.c:242-264 | From a state with the invariants no step faults |
| `SystemTheorems.StepInv` | c/src/main.c:55-153 | Every step of every thread keeps all invariants together |
| `SystemTheorems.NoFaultEver` | c/src/main.c:155-268 | No interleaving uses a destroyed queue, control or context, frees twice, touches a freed payload or casts to the wrong record |
| `SystemTheorems.RegistryNeverDangles` | c/src/transport.c:147-207 | In every reachable state every registered queue exists, is not destroyed and is registered under one topic only |
| `SystemTheorems.RoutingIsTyped` | c/src/main.c:136-150 | In every reachable state ingest items carry the tag of their record, telemetry subscribers hold only telemetry messages, alert subscribers only alert messages |
| `SystemTheorems.EveryPayloadInOnePlace` | c/src/transport.c:84-102 | In every reachable state held, queued, freed and abandoned payloads together are the allocated ones, each once, and the counts add up |
| `SystemTheorems.NoRepeatedSequence` | c/src/worker_pool.c:24-32 | Until 2^32 numbers are issued, no subscriber queue's history contains one twice, whatever the interleaving of workers |
| `Sequence.StepStamped` | c/src/worker_pool.c:24-32 | Every step keeps the record of numbers handed out equal to the first ones of the counter, in order |
| `SystemTheorems.StampsDistinctIff` | c/src/worker_pool.c:44-70 | In every run as many numbers have been handed out as items were stamped, the k-th of them is k modulo 2^32, and they are all different exactly when there are at most 2^32 |
| `Printable.StepBodies` | c/src/worker_pool.c:44-70 | Every step keeps every payload within its field widths and every alert code well formed |
| `Printable.ConnectionIsPrintable` | c/src/transport.c:79-103 | In every reachable state a connection's two queues hold printable telemetry and printable alerts, which is what serving a client relies on |
| `Printable.ClientRecordsFit` | c/src/transport.c:98-100 | In every run each message about to be written formats to one line of fewer than 256 bytes |
| `Origin.StepOrigin` | c/src/worker_pool.c:43-75 | Every step keeps: each raw item accepted once and numbered at most once, every message made from a numbered raw item |
| `Origin.MessagesHaveOrigins` | c/src/worker_pool.c:43-75 | In every reachable state each message in a subscriber's queue has its number and its timestamp from one stamping, and battery and signal strength, or code and antenna, unchanged from the raw item that the ingest queue accepted and that stamping was for |
| `Origin.NumbersNameItems` | c/src/worker_pool.c:24-32 | Different numbers belong to different accepted items, and up to 2^32 equal numbers to equal ones |
| `Production.StepProduction` | c/src/main.c:55-121 | Every step of every thread keeps: what the producer got into the ingest queue is, tick by tick, what the tick number says, and nothing else |
| `Production.ProducerItems` | c/src/main.c:55-121 | In every run the items the producer got accepted are in order of their ticks, a sample of tick n carries battery 100 - n mod 101 and signal -40 - n mod 50 (n taken modulo 2^32), and exactly every fifth tick's sample is followed by its alert, `ANTENNA_UNPLUGGED` and `BATTERY_LOW` in turn, on antenna 1 + n mod 2 |
| `Publishing.DeliverGives` | c/src/pubsub.c:163-167 | A delivery appends the copy, with the message's number and its topic's tag, exactly to a subscriber with room; a full one keeps its items and the copy is freed; no other queue changes |
| `Publishing.PassedAreSettled` | c/src/pubsub.c:148-169 | Over any stretch of a run, each subscriber a publishing worker has passed was settled: it got the message at some step, or was full or without memory at that step |
| `Publishing.PublishServesAll` | c/src/pubsub.c:134-174 | In every run, whatever the interleaving, when a publish is over every subscriber of the topic has been settled in that way, and the list of subscribers did not change meanwhile |
| `Completion.StepReady` | c/src/main.c:242-264 | Every step keeps the shutdown flags in line with `main`'s position, every publishing worker within the list it walks, and the lists within their bound |
| `Completion.StepWorks` | c/src/main.c:242-264 | After the request every step of every thread uses up work, whatever the schedule, except that a command adds a bounded amount |
| `Shutdown.ShutdownIsBounded` | c/src/main.c:242-264 | Every run after the request is at most as long as the work there was plus a fixed amount per command received |
| `Shutdown.FloodDelays` | c/src/command.c:29-41 | The commands have to be counted: a listener that always finds something to read goes on for any number of steps |
| `Shutdown.StuckIff` | c/src/handshake.c:43-64 | In a reachable state of a shutdown before its end no step of the process itself is possible if and only if `main` joins a transport thread that sits in the handshake or in a write and the listener has returned |
| `Shutdown.CompletesAloneIff` | c/src/transport.c:53-69 | From a reachable state after the request the process can complete the shutdown without the client if and only if the transport thread is in neither call |
| `Shutdown.ShutdownCanComplete` | c/src/main.c:242-264 | From every reachable state after the request some continuation, in which the client does no more than finish the calls that wait for it, joins every thread, destroys everything and ends `main` |
| `Drain.IngestDrainedIff` | c/src/main.c:252-262 | When `main` is about to destroy the ingest queue, it is empty exactly when some worker returned after the last item had been accepted |
| `Polls.FoundAllIff` | c/src/main.c:134-152 | Looking once per telemetry message finds every alert exactly when each alert is followed by enough looks for itself and those after it |
| `Leftovers.StepBook` | c/src/main.c:134-152 | Every step keeps the consumer's books: one look at the alerts per telemetry message, what was accepted is taken or still queued |
| `Leftovers.TelemetryLeftIff` | c/src/main.c:254-258 | When `main` is about to destroy the consumer's telemetry queue, it holds exactly as many messages as were delivered after the consumer had returned; none if and only if none was |
| `Leftovers.AlertsLeftIff` | c/src/main.c:254-259 | When `main` is about to destroy the consumer's alerts queue, it holds the alerts no look found; there were as many looks as telemetry messages taken; none is left if and only if every alert was followed by enough looks |
| `Leftovers.LeavesAreLost` | c/src/msg_queue.c:81-91 | What a destroy finds in a queue of `main`'s is abandoned, item for item |
| `Leftovers.StepClean` | c/src/main.c:258-262 | A step abandons something exactly when it breaks the condition for the queues destroyed so far |
| `Leftovers.NothingLeftIff` | c/src/main.c:242-264 | A complete run abandons nothing in `main`'s three queues if and only if some worker returned after the last item was accepted, the consumer returned after the last telemetry message was delivered to it, and every alert delivered to it was followed by enough looks |
| `LostRuns.ShutdownCanLoseAnItem` | c/src/main.c:242-264 | A complete run from start to exit in which an accepted item is neither processed nor freed |
| `LostRuns.PublishedMessageCanBeLost` | c/src/main.c:242-264 | A complete run in which the ingest queue is drained by a worker that returns last, and a published message is still abandoned |
| `LostRuns.SilentClientHangs` | c/src/handshake.c:146-150 | A run from start, with a client that connects and says nothing, in which the shutdown gets as far as the join of the transport thread and no thread can move again |
| `Locks.OrderedAcquisition` | c/src/pubsub.c:139-172 | A thread only wants a lock of higher rank than those it holds, and holds nothing while parked on a condition variable |
| `Locks.NoLockCycle` | c/src/msg_queue.c:98-107 | No reachable state has threads waiting for each other's mutexes in a circle of any length |
| `Locks.SomeHolderCanRun` | c/src/pubsub.c:139-172 | Whenever a thread is blocked at a mutex, its owner, or the owner of what that one waits for, can proceed |
| `Decimal.DigitsValue` | c/src/handshake.c:73-74 | Reading printed digits back gives the number |
| `Decimal.PrintLengths` | c/src/transport.c:37-49 | Unsigned 32-bit numbers print in at most 10 characters, signed ones in 11, 64-bit ones in 20 |
| `Decimal.StrtolPrint` | c/src/handshake.c:101-105 | strtol reads back any printed long and stops right after it, whatever non-digit follows |
| `Decimal.DigitsPositional` | c/src/handshake.c:73-74 | Printed numbers are in positional decimal notation without leading zeros |
| `Decimal.ValuePositional` | c/src/handshake.c:101-105 | So is the value read from digits |
| `Decimal.PrintSign` | c/src/transport.c:37-49 | A negative number prints as a minus sign and its absolute value, any other without a sign |
| `Decimal.SpaceChars` | c/src/command.c:80 | White space is exactly the six characters of the C locale |
| `Decimal.ClampMeans` | c/src/command.c:68 | Numbers beyond 64 bits become the nearest 64-bit number, others stay |
| `Decimal.StrtolReads` | c/src/handshake.c:101-105 | White space, one sign and all the digits are taken, with the value clamped to 64 bits, whatever non-digit follows |
| `Decimal.StrtolNothing` | c/src/handshake.c:101-104 | Where no digit follows white space and a sign, nothing is taken |
| `Wire.Snprintf` | c/src/handshake.c:73-74 | Writes in bounds as much of the text as fits before a NUL, and returns the length of all of it |
| `Wire.Socket.WriteAll` | c/src/handshake.c:21-37 | True exactly when the write script lets every byte out, and then exactly the buffer was sent; otherwise a strict prefix of it |
| `Wire.Socket.ReadLine` | c/src/handshake.c:43-64 | True exactly when a line of at most 126 characters gets through before a failure; then exactly that line and its newline are consumed; otherwise only part of the first line |
| `Wire.Socket.ReadCommandLine` | c/src/command.c:25-64 | The same with every byte gated by poll, time-outs, stop requests and hang-ups |
| `Wire.WriteRetries` | c/src/handshake.c:25-29 | An interrupted write, wherever it comes, changes nothing about whether the buffer gets out |
| `Wire.WriteFails` | c/src/handshake.c:25-34 | A buffer not out before the first failed or empty write never gets out |
| `Wire.WriteCounts` | c/src/handshake.c:21-37 | Non-empty partial writes get the buffer out exactly when they add up to its length |
| `Wire.WriteLeaves` | c/src/handshake.c:21-37 | Success uses up exactly the shortest beginning of the write script that gets the buffer out |
| `Wire.ReadRetries` | c/src/handshake.c:48-51 | An interrupted read, wherever it comes, changes nothing |
| `Wire.ReadFails` | c/src/handshake.c:48-53 | Nothing after the first failed read counts |
| `Wire.ReadCounts` | c/src/handshake.c:43-64 | Every successful read brings one byte |
| `Wire.PollRetries` | c/src/command.c:29-54 | An interrupted poll, an interrupted read and a time-out without a stop request, wherever they come, change nothing |
| `Wire.PollEnds` | c/src/command.c:29-55 | Nothing counts after the first failed poll, failed read, hang-up or time-out with a stop request |
| `Wire.PollCounts` | c/src/command.c:25-64 | Every readable byte before that counts once |
| `Wire.LineArrivesIff` | c/src/handshake.c:43-64 | A line gets through exactly when it has at most 126 characters and it and its newline are within the bytes that do; text without a newline never does |
| `Wire.ReadTakesFirst` | c/src/handshake.c:56-59 | A successful read takes exactly the first line off the stream's split on newlines |
| `Wire.HeardIsPrefix` | c/src/command.c:133-135 | The lines read one after the other are an initial part of the stream's lines, each of at most 126 characters |
| `Wire.HeardAll` | c/src/command.c:133-135 | And all of them when every byte gets through and none is longer |
| `Wire.HeardNext` | c/src/command.c:133-135 | Listening goes on after a line that got through and stops for good at one that did not |
| `Versions.ToInt` | c/src/handshake.c:105 | The conversion from long gives the int congruent to it modulo 2^32 |
| `Versions.JoinedSnoc` | c/src/handshake.c:72-75 | Appending one more version to the printed list adds a comma (if not the first) and its digits |
| `Versions.ParseItem` | c/src/handshake.c:96-114 | A list item is white space, a sign and digits, clamped to 64 bits and cut to 32; a comma leads to the next item, the end of the text ends the list |
| `Versions.ParseJunk` | c/src/handshake.c:96-114 | Anything but a comma after the digits, or an item without digits, spoils the whole list |
| `Versions.ClientPrefix` | c/src/handshake.c:84-94 | Only what follows the exact words of the client's greeting is parsed; without them, or with nothing after them, there is no list |
| `Versions.VersionListRoundTrip` | c/src/handshake.c:84-115 | Parsing a printed non-empty list of ints gives the same list |
| `Versions.ListIsLong` | c/src/handshake.c:96-114 | A list of k versions needs at least 2k - 1 characters |
| `Versions.CapacityNeverFires` | c/src/handshake.c:152-154 | Any line `read_line` can deliver yields at most 52 versions, so the capacity of 128 makes no difference |
| `Versions.ParseClientVersions` | c/src/handshake.c:84-115 | The loop terminates on every line and computes the specified list, empty on any mismatch |
| `Versions.ParseVersions` | c/src/handshake.c:95-114 | Its inner part: number, optional comma, end or failure, with the capacity check |
| `Versions.HighestCommonVersion` | c/src/handshake.c:119-130 | The nested loops return the largest positive version in both lists, or 0 when there is none |
| `Versions.HighestCommonUnique` | c/src/handshake.c:119-130 | That number depends only on which versions are common: order and repetitions play no part |
| `Handshake.FormatHello` | c/src/handshake.c:68-75 | Over any version list: stays in the buffer, and either the buffer holds the whole line or the line is too long |
| `Handshake.SendHello` | c/src/handshake.c:68-80 | Succeeds exactly when the line fits and is written out; only ever sends a prefix of the exact untruncated line, and nothing of one that does not fit |
| `Handshake.Connection.SendNack` | c/src/handshake.c:132-136 | The whole NACK line exactly when the writes succeed, otherwise a strict prefix of it |
| `Handshake.Connection.SendAck` | c/src/handshake.c:168-173 | The ACK line always fits; it is sent whole exactly when the writes succeed |
| `Handshake.Connection.Choose` | c/src/handshake.c:152-166 | A malformed or empty offer and one without a common version both give 0, any other the highest common version |
| `Handshake.Connection.Perform` | c/src/handshake.c:138-178 | True exactly when the negotiated version ends nonzero; then it is the highest common version and the whole ACK went out; in every other case exactly which lines were sent and consumed, with no NACK unless a line was read |
| `Handshake.OutcomeUnique` | c/src/handshake.c:138-178 | Writes, input and the client's line determine the outcome |
| `Handshake.OnlyVersionOne` | c/src/handshake.c:10-12 | With the server's own list the result is 1 if the client offers 1, else 0 |
| `Handshake.AckReads` | c/src/handshake.c:168-173 | After the words of the acknowledgement a client reads exactly the version, up to the newline that ends the line |
| `Handshake.HelloReads` | c/src/handshake.c:68-80 | Between the words of the greeting and its newline a client reads exactly the server's list |
| `Handshake.ShippedLines` | c/src/handshake.c:68-173 | The three lines of the server with its own list, letter by letter |
| `Handshake.OfferedIs` | c/src/handshake.c:152-154 | A client's printed list is the offer, also when a NUL and anything else follows |
| `Handshake.ShippedExchange` | c/src/handshake.c:138-178 | With the server's own list and working writes: a line offering 1 gets greeting and acknowledgement and is served version 1, any other line gets greeting and refusal |
| `Command.RadioControl.constructor` | c/src/radio_control.c:10-27 | An initial interval of 0 means 1000 ms |
| `Command.RadioControl.Get` | c/src/radio_control.c:37-42 | The interval, always in 1..2^32-1 |
| `Command.RadioControl.Set` | c/src/radio_control.c:44-51 | 0 is ignored, anything else stored |
| `Command.ApplySetInterval` | c/src/command.c:66-75 | The interval becomes the argument modulo 2^32 unless that is 0 or the argument is malformed or not positive |
| `Command.ApplyTriggerAlert` | c/src/command.c:77-108 | A well-formed argument appends exactly that alert if there is memory for it and the ingest queue has room; otherwise nothing changes |
| `Command.ApplyCommand` | c/src/command.c:110-127 | Dispatch on the word before the first space; unknown or space-free lines change nothing |
| `Command.EffectsAreSound` | c/src/command.c:77-108 | Whatever the line, an interval is below 2^32, a code has 1 to 31 characters of the line and no white space, an antenna is below 2^32 |
| `Command.CommandsKeepStation` | c/src/command.c:110-127 | After any sequence of lines, whatever other threads do to the queue in between, the interval is in 1..2^32-1, the queue within its capacity, and everything in it was there before, came from another thread, or is a well-formed NUL-free alert |
| `Command.CommandsOnlyAppend` | c/src/command.c:110-127 | With no other thread at the queue, what it held stays in front, untouched, and everything added behind it is a well-formed NUL-free alert |
| `Command.SetIntervalExactIff` | c/src/command.c:66-75 | The interval becomes exactly the requested long if and only if that is positive and below 2^32 |
| `Command.LargeIntervalWraps` | c/src/command.c:73 | 4294967297 ms becomes 1 ms |
| `Command.TriggerExactIff` | c/src/command.c:77-95 | A command line naming a code and an antenna, read up to its first NUL as the program reads it, means exactly that alert if and only if the code has 1 to 31 characters, none of them white space or NUL |
| `Command.UnknownIgnored` | c/src/command.c:110-127 | A line without a space, or with any first word but the two commands, means nothing |
| `Command.IntervalMeans` | c/src/command.c:66-75 | SET_INTERVAL means its first number, clamped to 64 bits, modulo 2^32 if positive, and nothing otherwise |
| `Command.IntervalMissing` | c/src/command.c:68-71 | SET_INTERVAL without a number means nothing |
| `Command.ScanReads` | c/src/command.c:80-82 | The antenna is white space, a sign and digits, modulo 2^32 |
| `Command.ScanNothing` | c/src/command.c:80-82 | Without digits there is no antenna |
| `Command.AlertMeans` | c/src/command.c:77-95 | TRIGGER_ALERT means its first word, cut after 31 characters, with the number that follows, and nothing without that number |
| `Command.AlertMissing` | c/src/command.c:80-82 | TRIGGER_ALERT without a word means nothing |
| `Command.IntervalApplied` | c/src/command.c:66-75 | The effect of a SET_INTERVAL line on interval and queue, for every number |
| `Command.AlertApplied` | c/src/command.c:77-108 | The effect of a TRIGGER_ALERT line: exactly that alert at the end of the queue with room and memory, otherwise nothing |
| `Session.Listen` | c/src/command.c:129-143 | The listener acts on exactly the lines heard, in order, whatever other threads do to the ingest queue in between, and then clears the peer flag |
| `Session.Handle` | c/src/command.c:133-135 | One line: other threads' turn at the queue, then the command's effect |
| `Session.Serve` | c/src/transport.c:134-176 | Handshake then listener on one stream: the handshake line followed by the commands acted on is an initial part of the stream's lines, so nothing pipelined after HELLO is lost, split or merged |
| `Records.RecordFits` | c/src/transport.c:37-49 | Every message formats to fewer than 256 bytes, so the size check drops none |
| `Records.RecordIsOneLine` | c/src/transport.c:37-49 | With exactly one newline, at the end |
| `Records.RecordShows` | c/src/transport.c:37-49 | Under the keys seq and ts a reader finds the sequence number and the timestamp |
| `Records.RecordType` | c/src/transport.c:37-49 | After schema version 1 a reader finds the type, telemetry or alert |
| `Records.TelemetryShows` | c/src/transport.c:37-42 | Under battery_pct and rssi_dbm a reader of a telemetry record finds those two fields |
| `Records.AlertShows` | c/src/transport.c:44-49 | Under code, between the quotes, and antenna a reader of an alert record finds those two fields |
| `Records.RecordText` | c/src/transport.c:37-49 | And nothing else: the whole text of both records |
| `Records.RecordInjective` | c/src/transport.c:37-49 | Whatever follows it, a record determines its message, field by field, and where it ends, also when a code contains quotes or commas |
| `Records.StreamInjective` | c/src/transport.c:98-100 | Equal output streams carry equal message sequences |
| `Records.ClientReadsWholeRecords` | c/src/transport.c:98-100 | The lines of a stream cut off in the middle of a record are exactly those of the complete records |
| `Feed.Next` | c/src/transport.c:84-97 | Two looks with arrivals before each: the oldest telemetry message if the first look finds one, else the oldest alert if the second does, else nothing |
| `Feed.SendRecord` | c/src/transport.c:98-100 | The whole record exactly when the writes succeed, otherwise a strict prefix |
| `Feed.FittingMeans` | c/src/transport.c:84-97 | Of what workers publish before a look, the first items enter the queue, and none is refused while there is room |
| `Feed.ServeClient` | c/src/transport.c:79-103 | While workers keep publishing before and between the looks of every pass: every message taken is written whole and in order as long as the client lives, the last one cut short exactly when the write script fails on it; the loop ends only for its three reasons |
| `Feed.FeedConserves` | c/src/transport.c:79-103 | For each queue, what was there plus what came in is what was served plus what is left, in order |
| `Feed.QuietFeed` | c/src/transport.c:84-97 | Without arrivals n passes serve the first n of the telemetry backlog followed by the alerts |
| `Feed.AlertWaitsIff` | c/src/transport.c:84-97 | A waiting alert stays unserved over a sequence of passes if and only if at every pass the telemetry there at the start and come in by its first look is at least as much as the passes so far |
| `Feed.AlertsStarve` | c/src/transport.c:84-97 | In particular no alert is ever served while every pass is preceded by new telemetry |
| `Feed.ClientView` | c/src/transport.c:79-103 | After the earlier lines, the client reads one JSON text per message served; a message cut short is not a line |
| `Pacing.ProducerSleep` | c/src/main.c:41-53 | Terminates without overflow and sleeps until exactly the specified time |
| `Pacing.WakesSoon` | c/src/main.c:41-53 | That time is the full interval, or a multiple of 100 ms less than 100 ms after a shutdown request |

## Left out

- Socket setup, accept, bind, unlink and close (c/src/transport.c:214-287): calls into the operating system.
- Signal masking and sigwait: one "shutdown requested" step of `main`.
- Logging, including the read of an alert's code after it has been queued (c/src/command.c:107).
- Failure to create a thread or a mutex, failure of the allocations in `main`, and `main`'s early returns; allocation failure in publish, in the producer, in a command and in the transport's queues is modelled.
- QueueTheorems.LeftBehindIff: a balance of puts and takes, not a condition on the schedule; the condition on the schedule is `Leftovers.NothingLeftIff`.
- MsgQueues.MsgQueue.constructor: allocation and mutex or condition variable initialisation succeed; the transport's handling of a failed create is in System.
- JSON validity in the sense of RFC 8259: alert codes are not escaped, so it does not hold; unique decoding is proved instead.
- Fairness: that a thread that can move eventually does; `ShutdownIsBounded` and `StuckIff` say what holds under it.
- Features that are only planned (second schema, protobuf framing, message pool).
- System: the registry is restricted to the two topics the program uses; the general table is in Registry and PubSub. The bytes of the handshake and of the socket traffic are not repeated there, and a handshake counts as one call that waits for the client until the client's line is in or the client is gone.
- Handshake: the `client_conn_t` fields other than the version, and `snprintf` reporting an encoding error.
- Command: `sscanf`'s `%u` is undefined by C11 for numbers that do not fit; the model takes the value of strtoul cut to 32 bits.
- Pacing.ProducerSleep: `nanosleep` always sleeps its full time; an early return on a signal is not modelled.
- Feed.ServeClient: the 10 ms pause of an idle pass is not modelled, and payloads are values (their release is in Ownership).
- PubSub.Context.Publish: a payload of length 0 is shared, as in the source; no caller sends one.
- Messages: padding bytes and the numeric values of the item tags.
