# Verified models of the semaphore crate, the message queues, the line reader and the checksum server

The repository is a set of exercises in inter-process communication. Four of its parts carry protocols
or algorithms that are hard to get right; this project models them and proves what they are for.
`dafny verify dfyconfig.toml` checks everything.

**The crate** (`semaphores-pr/`). Producers fill the slots of a crate in shared memory one at a time; the
producer that fills the last slot wakes one consumer, which drains the whole batch and gives the permits
back. `PosixCrate.dfy` has one program point per semaphore operation or statement on the shared memory, any
number of processes, and logs of what was put in and taken out. The POSIX consumer posts permits while it
is still draining, so the invariant (`PosixCrateInvariant.dfy`) is a balance: free permits, permits in
producers' hands and counted items make the capacity plus the permits already posted.
`PosixCrateRefinement.dfy` shows that every interleaving is a run of a simple batch buffer,
`PosixCrateProgress.dfy` how long a run can go without completing a drain and for which capacities the
programs run for ever, `CrateWaits.dfy` exactly when each process has to wait, `PosixCrateText.dfy` what a
consumer prints of a slot. `SysVCrate.dfy` is the System V
version, whose semaphores are taken in atomic groups, with the proof that each of its runs is a run of the
POSIX version and that it runs for ever for the same capacities. `PosixCrateMemory.dfy` and
`SysVCrateMemory.dfy` are the same programs as classes that update the memory in place; each step is proved
to be the step of the model.

**The message queues** (`msgq/`). `MQueue.dfy` models `send` and `recv` over flat bytes, one semaphore
operation, `memcpy` or index update at a time; `MQueueFifo.dfy` proves that the queue is a FIFO for any
number of callers. `TokenProtocol.dfy` has the producer and consumer loops, which pass tokens around, over
abstract queues: with one token the number of steps alone decides the state, and batches come out whole and
in order. `TokenLimits.dfy` says with how many tokens and which batch sizes the loops run for ever, and
`TokenBatches.dfy` with how many the batches stay whole; the two ways in which they do with several tokens are
a crate queue no larger than a batch (`NarrowCrate.dfy`), and one in which no batch is ever completed
(`SlowBatches.dfy`). `TokenSystem.dfy` puts the loops on top of three
shared-memory queues with every message printed into and scanned from its 30 bytes;
`TokenSystemLink.dfy` and `TokenSystemRuns.dfy` prove that every run of this whole system, with any number of
tokens and of calls under way, from the first `init` message on, is a run of the protocol, that it gets stuck
exactly when the protocol does, and that with one token nothing ever blocks except a wait for a message at
the top of a loop. `KernelQueues.dfy` proves that one typed System V queue and three POSIX priority queues do
step by step what plain queues do, and `SharedRoom.dfy` with how many tokens the single queue, whose room
the three kinds of message share, runs for ever. `MQueueMemory.dfy` and `TokenMachines.dfy` are the programs
with state updated in place.

**The line readers** (`readline/`). `LineSpec.dfy` says what a call to the buffered reader and what a call to
the byte-at-a-time reader returns, for a stream of bytes and timeouts, and exactly when the two agree.
`LineReader.dfy` has both readers as they run, on arrays and on a descriptor that delivers arbitrary chunks,
the main program's loop, and the table of inner buffers.

**The checksum line** (`readline/producer.cpp`, `socksrv/`). `Checksum.dfy` has the printing loops, which
write at computed offsets, and the checking loop, which scans with `%d%n` (section 7.21.6.2 of ISO C11, in
`Numerals.dfy`), and follows a line from the printer through any chunking to the checker. `MplexServer.dfy`
has the list of clients of the multiplexed server, the one buffer that all their requests go through, and its
answers.

A schedule is a sequence of process ids; a run steps the named processes one after the other. A step is
taken, blocked, or a fault (an index out of a table, a copy out of the shared memory, a text too long for
its buffer).

## What the proofs found in the code

- No crate process waits longer than it has to: a producer at the top of its loop waits exactly while counted
  items and permits in hand use up the capacity and the permits given back, a consumer exactly while there is no
  full crate that nobody has taken over, and for the memory one waits exactly while somebody is inside
  (`PosixCrateWaits.WaitsExactlyWhen`; with the grouped semaphores of System V exactly while the crate is full,
  or not full, or somebody is inside, `VWaitsExactlyWhen`).
- With one token the whole output is determined by who takes which step: line n is "(pid): name" with name number
  n modulo the capacity, the pid is that of the process that took one given step of the protocol, and the printing
  process the one that took another (`WhoPutWhoTook`, `LinesPrinted`).
- The names table has nine entries and the crate's capacity is an argument: some schedule indexes past the
  table exactly when the capacity is above nine (`FaultsExactlyAboveNine`), and producers and consumers can
  go on for ever exactly for capacities 1 to 9 (`RunsOnExactlyWhen`, `VRunsOnExactlyWhen`).
- Slots are zeroed only when the crate is made and the copied text has no NUL, so a slot shows its item's
  text and nothing else exactly when no earlier item in that slot came from a process with a longer id
  (`ShownWholeExactlyWhen`). All items of all runs are shown whole exactly when the process ids of all
  producers have the same number of digits (`AlwaysWholeExactlyWhen`); `TailLeftBehind` has "(100) one" and
  "(7) one" become "(7) onene". A slot always holds a NUL.
- With n tokens the protocol runs for ever exactly when n * (capacity - 1) is less than the size of the crate
  queue (`TokenLimits.RunsOnExactlyWhen`, for the whole system `SystemRunsOnExactlyWhen`); with the program's
  sizes, 5 and 5, that is exactly one token (`ExactlyOneToken`), however many processes are started with
  "init". In the single typed queue the messages share one room, and n tokens need room for more than
  n * capacity messages, and, when there are fewer consumers than tokens, for more than
  (n - consumers) * (capacity + 1) (`TypedQueueRefinement.RunsOnExactlyWhen`).
- Whether the loops run for ever or come to a halt, batches are delivered whole, each by one reader, in every
  run exactly when there is at most one token, or batches are of one item, or the crate queue has less room
  than a batch and one more item, or, with more tokens than producers, than a batch and capacity - 1 items for
  each token that no producer can hold (`WholeExactlyWhen`). With the program's sizes they always are.
- The two line readers agree on a call exactly when the line, with its newline, is shorter than the buffer
  (`AgreeExactlyWhen`), and on all calls exactly when all lines are (`CallsAgreeExactlyWhen`). On a line that
  fills the buffer `readline_tout` takes its bytes but delivers only those saved before the last refill: of
  128 bytes that come at once and then the end of the file the main program prints nothing
  (`LostAtTheBoundary`, `NothingPrinted`).
- A timeout in the middle of a line makes both readers drop what they have read of it. The calls of the
  byte-at-a-time reader keep every byte of a stream exactly when each pause comes between lines or next to
  another pause; overlong lines cost it nothing (`SimpleKeepsAllExactlyWhen`). Those of the buffered reader do
  exactly when, besides, every line is shorter than the buffer (`KeepsAllExactlyWhen`), and the main program
  prints an input whole exactly when, besides, it holds no NUL (`PrintsAllExactlyWhen`).
- In `readline_tout` the terminating NUL goes to `copied + offset`. It leaves the caller's buffer exactly when
  the inner buffer already holds a whole line that the caller's buffer can take and that ends at or behind
  position `count` of the inner buffer (`StrayTerminator`); with the 128-byte buffer of the main program this
  happens (`StrayTerminatorHappens`). The line itself is never damaged.
- The checker's sums fit an `int` exactly when twice the true sum, plus one for a falsified line, does
  (`NoOverflow`).
- A request is judged by what it says, and not by an uninitialised variable, exactly when it starts with a
  number (`DecidedExactlyWhen`); "hello" is answered OK when the variable happens to hold 0
  (`HelloIsUndecided`). The early `return -1` without `close` in `read_data_from_client` cannot be reached.
- All clients of the multiplexed server share one static buffer, which is not cleared when a client leaves with
  "close", and clients send no NUL. A request is read alone exactly when it brings a NUL, fills the buffer, or
  ends where the text left behind does (`ReadAloneExactlyWhen`); a right checksum line that does not is answered
  OK exactly when no number follows it, or what follows makes another right one (`LineAfterClose`). After
  "close 7" the line "1 2 3" is answered ERR (`TailOfAnother`).
- In the multiplexed server a client accepted in a pass is examined in the same pass although `poll` has
  not filled in its flag; `Pass` holds for either value.

## Model

| member | source | states |
|---|---|---|
| PosixCrateInvariant.ProducerBalanced | semaphores-pr/producer.cpp:56-72 | Every producer step keeps the balance of permits, mutex and consumer semaphore, whatever the other processes hold. |
| PosixCrateInvariant.ConsumerBalanced | semaphores-pr/producer.cpp:74-86 | So does every consumer step, although permits are posted inside the drain and before the reset. |
| PosixCrateInvariant.FilledAt | semaphores-pr/producer.cpp:62-65 | A producer about to write sees a crate that is not full; a consumer awakened or draining sees a full one. |
| PosixCrateInvariant.LoggedStep | semaphores-pr/producer.cpp:61-84 | Every step keeps slots and logs in agreement: delivered is a prefix of produced, the slots hold the rest, the k-th item has index k modulo the capacity. |
| PosixCrateInvariant.InvInitial | semaphores-pr/crate.cpp:37-59 | The values the crate is created with (0, 1 and capacity) satisfy the invariant, for any set of processes. |
| PosixCrateInvariant.InvRun | semaphores-pr/producer.cpp:56-86 | The invariant holds after every schedule of any number of processes. |
| PosixCrateRefinement.Refines | semaphores-pr/producer.cpp:56-86 | Every step of every process is a step of the batch buffer (put, open a full batch, take the oldest, close an empty one) or invisible. |
| PosixCrateRefinement.RunRefines | semaphores-pr/producer.cpp:56-86 | Every run is a run of the batch buffer between the corresponding states. |
| PosixCrateRefinement.DeliveredInOrder | semaphores-pr/producer.cpp:56-86 | After every run: the delivered items followed by the slots not yet drained are the produced items, in order; state never exceeds the capacity. |
| PosixCrateSafety.NoFaultRun | semaphores-pr/producer.cpp:62-63 | With at most nine slots no schedule indexes past a table. |
| PosixCrateSafety.FaultsExactlyAboveNine | semaphores-pr/producer.cpp:24-63 | Some schedule indexes past a table if and only if the capacity exceeds the nine names. |
| PosixCrateSafety.OneInside | semaphores-pr/producer.cpp:60-70 | Never two processes between the wait and the post on the memory semaphore. |
| PosixCrateSafety.NeverStuck | semaphores-pr/producer.cpp:56-86 | In every state with the invariant, a producer and a consumer, some process can step. |
| PosixCrateSafety.NoDeadlock | semaphores-pr/consumer.cpp:42-54 | No schedule leads a crate with a producer and a consumer into a deadlock; the consumer of the producer program and the stand-alone one take the same steps. |
| PosixCrateProgress.LeftDecreases | semaphores-pr/producer.cpp:56-86 | A measure strictly decreases on every step but the one that completes a drain. |
| PosixCrateProgress.LeftBound | semaphores-pr/producer.cpp:56-86 | The measure is at most 17 * capacity + 7 in every reachable state, for any number of processes. |
| PosixCrateProgress.DrainCompletes | semaphores-pr/producer.cpp:78-84 | Every run longer than that completes a drain, however it is scheduled. |
| PosixCrateProgress.DeliveriesKeepPace | semaphores-pr/producer.cpp:78-84 | A run of k * (17 * capacity + 8) steps delivers at least k whole batches. |
| PosixCrateProgress.RunsOnExactlyWhen | semaphores-pr/crate.cpp:21-59 | With a producer and a consumer, every schedule can be continued if and only if the capacity is between 1 and 9. |
| PosixCrateWaits.WaitsExactlyWhen | semaphores-pr/producer.cpp:56-86 | In every reachable crate and for every process: at each of the four semaphore waits the exact condition, on the items and the other processes, for being blocked; nobody is blocked anywhere else; and the table of names is overrun exactly by a write into a tenth slot. |
| PosixCrateWaits.OutsideWaits | semaphores-pr/producer.cpp:56-75 | With everybody at the top of the loop a producer waits exactly for a full crate, and a consumer exactly for one that is not. |
| SysVCrateWaits.VWaitsExactlyWhen | semaphores-pr/vproducer.cpp:57-85 | The System V producer waits exactly when the crate is full or somebody is inside, the consumer exactly when it is not full or somebody is inside, and nobody anywhere else. |
| PosixCrateText.DepositUses | semaphores-pr/producer.cpp:62-63 | The copy writes the text and leaves the bytes behind it; the slot then shows the text alone if and only if no byte of a longer one is left. |
| PosixCrateText.TextRun | semaphores-pr/producer.cpp:56-86 | In every run each slot is used exactly as far as the longest text put into it so far. |
| PosixCrateText.ShownWholeExactlyWhen | semaphores-pr/producer.cpp:62-80 | From zeroed memory, in every run, an item shows its text and nothing else if and only if no earlier item in its slot came from a process with a longer id; a slot always holds a NUL. |
| PosixCrateText.ShortAfterLong | semaphores-pr/producer.cpp:62-80 | For any two producers with ids of different lengths and a consumer, a schedule after which the shorter text is not shown whole. |
| PosixCrateText.AlwaysWholeExactlyWhen | semaphores-pr/crate.cpp:36-38 | In all runs all items are shown whole if and only if the ids of all producers have the same number of digits. |
| PosixCrateText.TailLeftBehind | semaphores-pr/producer.cpp:62-63 | "(100) one" and then "(7) one" in one slot is read as "(7) onene". |
| PosixCrateText.TagTextScans | semaphores-pr/producer.cpp:62 | Behind its first character the text of an item scans to the producer's id, and it ends in the item's name. |
| PosixCrateText.TwoTexts | semaphores-pr/producer.cpp:24-62 | Such texts are "(100) one", "(7) five" and "(100) nine". |
| CrateTypes.DepositIs | semaphores-pr/producer.cpp:63 | Byte by byte: a slot of 20 bytes takes the text as far as it goes, cut at 20 bytes, and keeps what was behind it. |
| PosixCrateMemory.MakeAndRun | semaphores-pr/crate.cpp:36-59 | On a crate as its creation leaves it, whatever schedule runs in place and as far as it can: every item put in shows its text and nothing else exactly when no longer one was in its slot before. |
| SysVCrateText.VShownWholeExactlyWhen | semaphores-pr/vproducer.cpp:59-80 | The same condition for every run of the System V crate from zeroed slots. |
| PosixCrateMemory.SharedCrate.constructor | semaphores-pr/crate.cpp:36-59 | Creating the crate gives the initial state of the model with every byte of every slot a NUL, and with the invariant when the capacity is not 0. |
| PosixCrateMemory.SharedCrate.Step | semaphores-pr/producer.cpp:54-87 | A process stepping in place changes the shared state exactly as the model says, waits or faults exactly then; WaitsExactlyWhen says when that is. |
| PosixCrateMemory.SharedCrate.ProducerStep | semaphores-pr/producer.cpp:56-72 | The producer loop, statement by statement, in place. |
| PosixCrateMemory.SharedCrate.WriteSlot | semaphores-pr/producer.cpp:62-63 | Only the first free slot changes; past the end of a table nothing does. |
| PosixCrateMemory.SharedCrate.ConsumerStep | semaphores-pr/consumer.cpp:42-54 | The consumer loop, statement by statement, in place. |
| PosixCrateMemory.SharedCrate.Execute | semaphores-pr/producer.cpp:56-86 | Running a schedule in place is the run of the model as far as it can go, and keeps the invariant. |
| SysVSimulation.ProducerMatches | semaphores-pr/vproducer.cpp:57-71 | On the crate alone, each System V producer step is one POSIX step, or two for the grouped wait. |
| SysVSimulation.DrainMatches | semaphores-pr/vproducer.cpp:77-81 | Reading a slot without posting is reading and posting, when the permits owed are added to the permits. |
| SysVSimulation.ConsumerMatches | semaphores-pr/vproducer.cpp:73-85 | Grouped wait, reset and grouped return match POSIX steps in the same way. |
| SysVSimulation.Simulates | semaphores-pr/vproducer.cpp:44-85 | One System V step is simulated by its word of POSIX steps of the same process, other processes present. |
| SysVSimulation.RunSimulated | semaphores-pr/vproducer.cpp:44-85 | Every System V run is simulated by a POSIX run of at most twice the length. |
| SysVSimulation.SameSlotsAndLogs | semaphores-pr/vproducer.cpp:44-85 | With the same slots, state, logs, mutex and consumer semaphore, and at least as many permits. |
| SysVSimulation.VNoDeadlock | semaphores-pr/vproducer.cpp:54-86 | For capacities 1 to 9 no schedule deadlocks the System V crate or indexes past a table. |
| SysVSimulation.VDeliveriesKeepPace | semaphores-pr/vproducer.cpp:77-84 | The System V crate delivers at least a batch every 17 * capacity + 8 steps. |
| SysVSimulation.VDeliveredInOrder | semaphores-pr/vproducer.cpp:57-84 | The System V crate delivers in order what is produced. |
| SysVLimits.VRunsOnExactlyWhen | semaphores-pr/vcrate.cpp:21-65 | With a producer and a consumer, every schedule can be continued if and only if the capacity is between 1 and 9. |
| SysVCrateMemory.PairOfOperations | semaphores-pr/vproducer.cpp:48-50 | A grouped operation on two semaphores happens as a whole or not at all. |
| SysVCrateMemory.SingleOperation | semaphores-pr/vproducer.cpp:45-50 | An operation waits for as many permits as it takes, or, when it is 0, for a semaphore of 0, and adds what it says. |
| SysVCrateMemory.SharedVCrate.constructor | semaphores-pr/vcrate.cpp:46-65 | Creating the crate and setting the semaphores to 0, 1 and capacity gives the initial state, with every byte of every slot a NUL. |
| SysVCrateMemory.SharedVCrate.Operate | semaphores-pr/vproducer.cpp:59-84 | semop() applied one operation after the other is atomic, the whole result or no change; an operation of 0 waits for a semaphore of 0. |
| SysVCrateMemory.SharedVCrate.Group | semaphores-pr/vproducer.cpp:48-50 | The three grouped operations of the program, and the program point after them. |
| SysVCrateMemory.SharedVCrate.Step | semaphores-pr/vproducer.cpp:55-87 | A process stepping in place does what the System V model says. |
| SysVCrateMemory.SharedVCrate.ProducerStep | semaphores-pr/vproducer.cpp:57-71 | The producer loop in place. |
| SysVCrateMemory.SharedVCrate.ConsumerStep | semaphores-pr/vproducer.cpp:73-85 | The consumer loop in place. |
| RingBuffer.OverwriteSlot | msgq/custom_queue.cpp:111 | A memcpy into one slot makes it the message and leaves every other slot as it was. |
| RingBuffer.CopyKeepsOrder | msgq/custom_queue.cpp:111 | With room in the ring the memcpy of send stays inside the shared memory and damages no unread message. |
| RingBuffer.AdvanceRear | msgq/custom_queue.cpp:112 | Advancing rear modulo cap appends the message. |
| RingBuffer.CopyReadsOldest | msgq/custom_queue.cpp:121 | The memcpy of recv reads the oldest message. |
| RingBuffer.AdvanceFront | msgq/custom_queue.cpp:122 | Advancing front modulo cap removes it. |
| MQueueFifo.CallProceeds | msgq/custom_queue.cpp:107-125 | A call never faults, and waits only for a free slot, a message or the mutex. |
| MQueueFifo.CallStep | msgq/custom_queue.cpp:107-125 | A call never faults, finds a free slot when it sends and a message when it receives, and changes the contents only when it advances an index, then by exactly its message. |
| MQueueFifo.WaitsExactlyWhen | msgq/custom_queue.cpp:107-125 | A send waits exactly when messages, reserved slots and slots not yet released fill the ring, a receive exactly when every message is claimed or not yet announced, either for the mutex exactly when a call is inside; a call can begin at any time. |
| MQueueFifo.QuietRing | msgq/custom_queue.cpp:107-125 | With no call under way the semaphores are exactly the numbers of free slots and of messages, and the mutex is free. |
| MQueueFifo.OneInside | msgq/custom_queue.cpp:109-123 | Never two calls between the wait and the post on the mutex. |
| MQueueFifo.InvInitial | msgq/custom_queue.cpp:58-95 | The values set by init_queue (cap, 0, 1 and two zero indices) satisfy the invariant. |
| MQueueFifo.InvRun | msgq/custom_queue.cpp:107-125 | The invariant holds after every schedule of any number of senders and receivers. |
| MQueueFifo.FifoUnderAllInterleavings | msgq/custom_queue.cpp:107-125 | In every run received is a prefix of sent, the ring holds exactly the difference, rear and front are the counts modulo cap, no memcpy leaves the memory, and permits plus calls in flight make cap. |
| MQueueMemory.SharedQueue.constructor | msgq/custom_queue.cpp:58-95 | A queue that did not exist starts empty with cap free slots. |
| MQueueMemory.SharedQueue.Step | msgq/custom_queue.cpp:107-125 | One step of a call, in place on the array of bytes, is the step of the model. |
| MQueueMemory.SharedQueue.CopyIn | msgq/custom_queue.cpp:111 | The memcpy of send on the array. |
| MQueueMemory.SharedQueue.SendStep | msgq/custom_queue.cpp:107-116 | The other steps of send. |
| MQueueMemory.SharedQueue.RecvStep | msgq/custom_queue.cpp:118-125 | The steps of recv. |
| MQueueMemory.SharedQueue.Send | msgq/custom_queue.cpp:107-116 | An undisturbed send to a queue with room appends its message. |
| MQueueMemory.SharedQueue.Recv | msgq/custom_queue.cpp:118-125 | An undisturbed recv from a queue with a message takes the oldest and changes no byte. |
| TokenPhases.AtStep | msgq/custom_queue.cpp:168-203 | Whichever process steps, the protocol moves to the next of 4 * capacity + 2 stages. |
| TokenPhases.StepsDecide | msgq/custom_queue.cpp:160-203 | The number of steps alone decides where the token is, with which index, what the crate holds and how many items are delivered; deliveries are batches 0 to capacity - 1, each read by one consumer. |
| TokenPhases.WhoPutWhoTook | msgq/custom_queue.cpp:172-198 | In every run with one token the n-th item delivered has index n modulo the capacity and the id of the process that took step (4 * capacity + 2) * (n / capacity) + 3 * (n % capacity) + 1, and was read by the one that took step (4 * capacity + 2) * (n / capacity) + 3 * capacity + 1 + n % capacity. |
| TokenPhases.OnlyIdleBlocks | msgq/custom_queue.cpp:172-201 | Only a process at the top of its loop ever blocks, and only for a message that is not there; nothing indexes past the names. |
| TokenPhases.NoDeadlock | msgq/custom_queue.cpp:168-203 | With a producer and a consumer no schedule deadlocks or faults. |
| TokenLimits.StepConserves | msgq/custom_queue.cpp:168-203 | With any number of initial messages, no step creates or loses a token, and each item in the crate belongs to one token. |
| TokenLimits.SomeoneMoves | msgq/custom_queue.cpp:168-203 | When the crate queue has room for the unfinished batches of all tokens, some process can step. |
| TokenLimits.Stops | msgq/custom_queue.cpp:172-185 | When it has not, one producer alone can bring everyone to a halt, by putting in an item for each token in turn; others may still have to send their initial message. |
| TokenLimits.TooManyStarters | msgq/custom_queue.cpp:160-203 | With more processes started with "init" than a queue has slots, and batches of at least two items, some schedule brings everyone to a halt. |
| TokenLimits.RunsOnExactlyWhen | msgq/custom_queue.cpp:134-203 | With n initial messages every schedule can be continued if and only if n is at least 1, a batch has 1 to 8 items, and n * (capacity - 1) is less than the size of the crate queue. |
| TokenLimits.ExactlyOneToken | msgq/custom_queue.cpp:136-166 | With a batch of at least two items that fills the crate queue, as in the program, exactly one process may be started with "init": with any other number some schedule cannot be continued. |
| TokenLimits.RunsOnFromStart | msgq/custom_queue.cpp:157-203 | The same condition when the initial messages are still to be sent by the processes started with "init", any number of them, while others may already wait. |
| TokenBatches.Mixes | msgq/custom_queue.cpp:168-203 | With several tokens, batches of at least two items and the room named in WholeExactlyWhen, a schedule after which the deliveries are not in whole batches. |
| TokenBatches.WholeExactlyWhen | msgq/custom_queue.cpp:160-203 | From n initial messages, deliveries come in batches 0 to capacity - 1 with one reader each, in every run, if and only if n is at most 1, or a batch is one item, or the queue size is less than capacity + 1, or, with more tokens than producers, less than capacity + (n - producers) * (capacity - 1). |
| NarrowCrate.WholeInNarrowCrate | msgq/custom_queue.cpp:168-203 | With a crate queue no larger than a batch deliveries come in whole batches in every run, for any number of tokens. |
| SlowBatches.NothingDelivered | msgq/custom_queue.cpp:168-203 | With at least as many tokens as producers, and a crate queue of at most capacity - 1 items for each token beyond all producers but one, no item is ever delivered. |
| TokenText.TokenTextScans | msgq/custom_queue.cpp:173-184 | Scanning "%d %d" takes back what printing it wrote. |
| TokenText.ItemTextScans | msgq/custom_queue.cpp:175 | Behind its first character the text of an item scans to the producer's id, and it ends in "): " and the item's name. |
| TokenText.SomeTexts | msgq/custom_queue.cpp:130-200 | Such texts are "(1234): jedna", "(7): osm", "5 0" and "5". |
| TokenText.PrintedBufferCarries | msgq/custom_queue.cpp:163-200 | Every message of the protocol fits its 30 bytes, whatever the buffer held before, and the buffer's C string is then its text (ItemTextScans and TokenTextScans say which). |
| TokenText.ReceivedIsSent | msgq/custom_queue.cpp:173-193 | A receiver scans capacity and index back from the bytes exactly as they were sent. |
| TokenSystemLink.OverrunsExactlyWhen | msgq/custom_queue.cpp:163-200 | Printing a message goes wrong exactly when there is no such name or the text with its NUL is longer than 30 bytes. |
| TokenSystemLink.SendTakesEffect | msgq/custom_queue.cpp:112 | When a send advances rear, the protocol takes the same step on plain queues, whatever else is under way. |
| TokenSystemLink.ReceiveTakesEffect | msgq/custom_queue.cpp:122 | When a receive advances front, the protocol takes the same step, and the bytes in hand are the text of what it received. |
| TokenSystemLink.ReturnStep | msgq/custom_queue.cpp:172-201 | A process that returns from a call prints its next message into 30 bytes, or scans what it received, and is where the protocol already is. |
| TokenSystemLink.Refines | msgq/custom_queue.cpp:107-203 | Each semaphore operation, memcpy or index update of each process is a protocol step or invisible, never a fault; what a consumer has printed, with an item in hand, is what was delivered to it. |
| TokenSystemRefinement.RunRefines | msgq/custom_queue.cpp:107-203 | Every run of the whole system, with any number of tokens, is a run of the token protocol over plain queues. |
| TokenSystemRefinement.StuckTogether | msgq/custom_queue.cpp:107-203 | Where no process of the whole system can step, none of the protocol can. |
| TokenSystemRefinement.RunsThrough | msgq/custom_queue.cpp:107-125 | A call that can go on, with all others at rest, runs through to its return and stands for one protocol step. |
| TokenSystemRefinement.Replays | msgq/custom_queue.cpp:107-203 | Every run of the protocol is a run of the whole system, one uninterrupted call after the other. |
| TokenSystemRefinement.SameFate | msgq/custom_queue.cpp:107-203 | Every schedule of the whole system can be continued if and only if every schedule of the protocol can. |
| TokenSystemRefinement.StartLinked | msgq/custom_queue.cpp:58-166 | Fresh queues, with some processes about to send the initial message and the others at the top of their loops, stand for the start of the protocol; the initial sends interleave with everything else. |
| TokenSystemRefinement.Begins | msgq/custom_queue.cpp:58-166 | Whichever processes are started with "init", there is such a beginning of the whole system. |
| TokenSystemRefinement.SystemRunsOnExactlyWhen | msgq/custom_queue.cpp:107-203 | With n processes started with "init", also more than a queue has slots, every schedule of the whole system can be continued if and only if n is at least 1 and n * (capacity - 1) is less than the size of the crate queue. |
| OneTokenSystem.Alone | msgq/custom_queue.cpp:107-203 | With one token no two processes are ever inside a call, past its first wait. |
| OneTokenSystem.WaitsAtTop | msgq/custom_queue.cpp:107-203 | With one token a process that cannot step is at the top of its loop and waits for a message. |
| OneTokenSystem.NothingElseBlocks | msgq/custom_queue.cpp:107-203 | In every run with one token no wait for a free slot, for a mutex or for an item blocks, on any of the three queues, the steps of the protocol are steps of the schedule in the same order, and the lines are printed in the order of delivery, but for one that may be in hand. |
| OneTokenSystem.LinesPrinted | msgq/custom_queue.cpp:172-198 | In every run with one token line n is "(pid): name" with name number n modulo the capacity, the id of the process that put the item in, printed by the one that took it out, both given as steps of the protocol. |
| TokenSystemMemory.Machine.constructor | msgq/custom_queue.cpp:139-159 | Three fresh queues of the given capacity for 30-byte messages, apart in memory. |
| TokenSystemMemory.Machine.CallStep | msgq/custom_queue.cpp:107-125 | A step inside a call changes its queue only. |
| TokenSystemMemory.Machine.Step | msgq/custom_queue.cpp:168-203 | A process stepping in place does what the whole-system model says, down to the line it prints, which LinesPrinted spells out; a fault changes neither processes nor output. |
| TypedQueueRefinement.SendAppends | msgq/v_msgq.cpp:79-93 | A send appends to the sequence of its type and changes no other. |
| TypedQueueRefinement.ReceiveRemoves | msgq/v_msgq.cpp:67-108 | A typed receive removes the head of the sequence of its type, leaves the others alone, and waits exactly when it is empty. |
| TypedQueueRefinement.WaitsExactlyWhen | msgq/v_msgq.cpp:63-116 | Every process waits exactly when the queue is full, or holds no message of the type asked for. |
| TypedQueueRefinement.AtMostOneMore | msgq/v_msgq.cpp:49-115 | The queue never holds more than capacity + 1 messages. |
| TypedQueueRefinement.SameStep | msgq/v_msgq.cpp:63-116 | Each step on the typed queue is the same step on three queues, blocked or faulting exactly together. |
| TypedQueueRefinement.SameRun | msgq/v_msgq.cpp:63-116 | So is each run, and the typed queue stays within capacity + 1. |
| TypedQueueRefinement.NoDeadlock | msgq/v_msgq.cpp:63-116 | With one token, a producer and a consumer no schedule deadlocks or faults. |
| TypedQueueRefinement.SharedStep | msgq/v_msgq.cpp:63-116 | Whatever the queue holds, each step on it is the same step on three queues that share its room. |
| SharedRoom.SomeoneMoves | msgq/v_msgq.cpp:63-116 | With room for the messages that may pile up some process can step. |
| SharedRoom.PilesUp | msgq/v_msgq.cpp:66-94 | With room for no more than capacity messages for every token the producers fill the queue and nobody can step. |
| SharedRoom.PilesUpBehindConsumers | msgq/v_msgq.cpp:66-115 | With more tokens than consumers, and no more than capacity + 1 messages of room for each of the others, the consumers are left with tokens they cannot return. |
| SharedRoom.RunsOnExactlyWhen | msgq/v_msgq.cpp:31-116 | The exact condition on tokens, batch size, consumers and room, over three queues that share it. |
| TypedQueue.RoomInBytes | msgq/v_msgq.cpp:79-93 | The kernel's limit in bytes is a limit on the number of messages, all being 30 bytes long. |
| TypedQueueRefinement.RunsOnExactlyWhen | msgq/v_msgq.cpp:31-116 | With n initial messages every schedule can be continued if and only if n is at least 1, a batch has 1 to 8 items, and the queue has room for more than n * capacity messages and, with fewer consumers than tokens, for more than (n - consumers) * (capacity + 1). |
| TypedQueueMemory.Machine.MsgSnd | msgq/v_msgq.cpp:79-93 | msgsnd() in place, limited in bytes: appended, or not at all when the queue is full. |
| TypedQueueMemory.Machine.MsgRcv | msgq/v_msgq.cpp:67-108 | msgrcv() in place: the oldest of the type is taken out. |
| TypedQueueMemory.Machine.Step | msgq/v_msgq.cpp:63-116 | A process stepping in place does what the model says; after a fault only a message that could not be read is gone. |
| PriorityQueuesRefinement.OldestIsBest | msgq/main.cpp:73-109 | Among equal priorities "oldest of the highest priority" is the head of the queue. |
| PriorityQueuesRefinement.BestIs | msgq/main.cpp:73-109 | The message received has the highest priority of all and a higher one than every older message. |
| PriorityQueuesRefinement.PriorityPassedOn | msgq/main.cpp:73-94 | Whatever the priorities are, an item goes into the crate with that of the token received for it, and the token goes on with priority 1. |
| PriorityQueuesRefinement.SameStep | msgq/main.cpp:69-116 | Reading priorities back and reusing them keeps all of them 1, and each step is the same step on plain queues. |
| PriorityQueuesRefinement.SameRun | msgq/main.cpp:69-116 | So is each run, for queues of any size. |
| PriorityQueuesRefinement.NoDeadlock | msgq/main.cpp:69-116 | With one token, a producer and a consumer no schedule deadlocks or faults, and all priorities stay 1. |
| PriorityQueuesRefinement.RunsOnExactlyWhen | msgq/main.cpp:31-116 | With n initial messages every schedule can be continued if and only if n is at least 1, a batch has 1 to 8 items, and n * (capacity - 1) is less than the size of a queue. |
| PriorityQueuesMemory.Machine.MqSend | msgq/main.cpp:82-94 | mq_send() in place with the priority given. |
| PriorityQueuesMemory.Machine.MqReceive | msgq/main.cpp:73-109 | mq_receive() in place: oldest of the highest priority, and that priority. |
| PriorityQueuesMemory.Machine.Step | msgq/main.cpp:69-116 | A process stepping in place does what the model says; after a fault only a message that could not be read is gone. |
| LineSpec.OneCall | readline/main.cpp:79-125 | On a line shorter than the buffer both readers take and deliver the same bytes; an unterminated last line differs in the sign of the result. |
| LineSpec.OverlongLine | readline/producer.cpp:22-38 | On an overlong line the byte-at-a-time reader takes exactly as many bytes as the buffer holds, and perhaps a timeout after them. |
| LineSpec.AgreeExactlyWhen | readline/main.cpp:117-120 | The two readers agree on a call, in what they take and in what they deliver, if and only if the line is shorter than the buffer. |
| LineSpec.LostAtTheBoundary | readline/main.cpp:117-120 | Of exactly a buffer of bytes that arrive at once, and then the end of the file, the buffered reader delivers nothing, the byte-at-a-time reader all. |
| LineSpec.SameCalls | readline/main.cpp:31-126 | Any number of calls in a row agree call by call, for any bytes and timeouts, when every line is shorter than the buffer. |
| LineSpec.CallsAgreeExactlyWhen | readline/main.cpp:31-126 | Calls in a row agree, however many, if and only if every line is shorter than the buffer. |
| LineSpec.NothingLost | readline/main.cpp:31-126 | Without timeouts, and with every line shorter than the buffer, the lines delivered by any number of calls are the bytes of the stream, in order, none lost. |
| LineSpec.SessionTakesAll | readline/main.cpp:130-152 | Whatever timeouts and overlong lines there are, calls until the end of file take every byte exactly once, in order. |
| LineSpec.FastResultTells | readline/main.cpp:79-125 | What the caller learns from a result: a positive one is the length of the line delivered, 0 the end of the file, -1 with ETIME a timeout after the bytes taken, and with EAGAIN minus the number of bytes taken of a line that fills the buffer or is not ended. |
| LineSpec.ByteResultTells | readline/producer.cpp:22-38 | The byte-at-a-time reader returns the number of bytes delivered, which end in a newline, fill the buffer or end the file, or -1 with ETIME. |
| LineSpec.KeepsAllExactlyWhen | readline/main.cpp:84-120 | For every stream, the calls that are not late keep every byte if and only if every line is shorter than the buffer and each pause comes between lines or next to another pause. |
| LineSpec.SimpleKeepsAllExactlyWhen | readline/producer.cpp:22-38 | For every stream, the calls of the byte-at-a-time reader that are not late keep every byte if and only if each pause comes between lines or next to another pause, however long the lines are. |
| LineSpec.PauseDropsBytes | readline/main.cpp:91-95 | Of "ab", a pause, "c" and a newline both readers keep only the last two bytes. |
| Descriptors.Descriptor.Select | readline/producer.cpp:23-27 | select() as an event: false exactly at a pause longer than the timeout. |
| Descriptors.Descriptor.Read | readline/main.cpp:70 | read() delivers a non-empty piece of what is to come, to where it was asked to, all that it was asked for or a whole chunk, and 0 exactly at the end of file, for ever. |
| ByteReader.ReadLineSelect | readline/producer.cpp:14-39 | The byte-at-a-time loop on an array returns what its specification says and touches no byte behind the line. |
| BufferedReader.ReadMore | readline/main.cpp:84-108 | The refill in mid-line saves the pending part of the line, and tells a timeout and the end of file apart; what is saved is what the chunks read so far have brought. |
| BufferedReader.NextByte | readline/main.cpp:110-114 | One byte moves from the inner buffer to the line; pending bytes plus line stay the stream. |
| BufferedReader.OneTurn | readline/main.cpp:82-115 | One turn of the loop keeps line length = copied + offset - starting offset, and what has been copied is what the chunks before the last refill brought. |
| BufferedReader.TakeLine | readline/main.cpp:79-115 | The loop ends with the line, a full buffer, a timeout or the end of file, in the state each needs. |
| BufferedReader.Deliver | readline/main.cpp:122-124 | The rest of the line is copied and the terminator lands behind it, possibly behind the caller's buffer. |
| BufferedReader.Finish | readline/main.cpp:117-125 | Result, errno and buffer of each way out are those of the specification. |
| BufferedReader.FirstFill | readline/main.cpp:63-77 | The first read of a descriptor, or a timeout before it. |
| BufferedReader.ReadlineTout | readline/main.cpp:45-126 | A call returns what the specification says: the line, or, of one that fills the buffer, exactly the bytes that the chunks before the last refill brought, followed by zeros; inner buffer plus unread input are the stream after it; at most one byte behind the buffer changes, and it is said which. The offset in the inner buffer after it is given by OffsetAfter. |
| BufferedReader.AfterFill | readline/main.cpp:79-125 | The part of the call after the first read, with the same results. |
| BufferedReader.StrayTerminator | readline/main.cpp:124 | The terminator leaves the caller's buffer if and only if, before the call, the inner buffer holds a whole line that fits the caller's buffer and ends at or behind position count; never when count exceeds 128. |
| BufferedReader.StrayTerminatorHappens | readline/main.cpp:132-136 | A 128-byte chunk with two lines makes it happen with the buffer of main: the first call leaves the inner buffer at offset 1, and the terminator of the second goes to index 128. |
| BufferedReader.FdBufferPair.constructor | readline/main.cpp:52-58 | A new pair has offset -1, nothing pending and a zeroed buffer. |
| BufferedReader.FdBufferPair.Reset | readline/main.cpp:16-20 | reset() leaves nothing pending and zeroes the buffer. |
| ReaderMain.PrintLines | readline/main.cpp:130-152 | The main loop ends exactly at the end of the input, with every byte taken, however the input is chunked, and prints what the calls of the session deliver. |
| ReaderMain.PrintLine | readline/main.cpp:136-151 | One turn of the main loop is one call of the session on what is pending and unread, with as many bytes saved as the chunks to come say, and the loop is left exactly at the end of the input. |
| ReaderMain.PrintsAllExactlyWhen | readline/main.cpp:134-152 | For every input, the main program prints all of it if and only if it holds no NUL, every line is shorter than 128 bytes, and no pause falls into a line. |
| ReaderMain.NothingPrinted | readline/main.cpp:136-145 | Of 128 bytes without a newline, and then the end of the file, nothing is printed. |
| ReaderTable.Table.Find | readline/main.cpp:39-44 | The position of the first pair for a descriptor, or the number of pairs. |
| ReaderTable.Table.PairFor | readline/main.cpp:39-58 | Each descriptor has one pair, made when it is first asked for; nothing that is pending changes. |
| ReaderTable.Table.Readline | readline/main.cpp:31-126 | Over the open descriptors of the process, a call for one reads on in its stream, buffered and unread, and leaves the streams of all others as they are. |
| Numerals.ScanDecimal | readline/producer.cpp:106 | Scanning "%d%n" takes back what "%d" printed, and how many characters. |
| Numerals.ScanNumber | readline/producer.cpp:106 | A text that starts with white space, perhaps a sign, and digits scans to that number, negative exactly behind a minus sign, with all of the digits used. |
| Numerals.ScansOnlyNumbers | readline/producer.cpp:106 | No other text scans. |
| Numerals.ScanSigned | socksrv/socket_srv_mplex.cpp:267 | "-" and "+" in front of a printed number give its negative and itself. |
| Numerals.SpacesAre | readline/producer.cpp:106 | White space is the blank and the five control characters from tab to carriage return. |
| Numerals.ScanAdvances | readline/producer.cpp:106-112 | A successful scan reads at least one character, so the loop ends and the break is never taken. |
| ChecksumText.LineParses | readline/producer.cpp:64-82 | The printed line parses back to the process id, the digits and the claimed sum. |
| ChecksumText.LineOneTwoThree | readline/producer.cpp:64-82 | The line for id 1, digit 2 and sum 3 is "1 2 3" and a newline. |
| ChecksumText.AcceptedExactlyWhenRight | readline/producer.cpp:102-117 | The check accepts a printed line if and only if the claimed sum is right. |
| ChecksumText.LineFits | readline/producer.cpp:55-81 | The line with up to 29 digits has at most 81 characters. |
| ChecksumText.SumsStayInRange | readline/producer.cpp:107 | No running sum of the checker overflows if and only if the total does not. |
| ChecksumText.NoOverflow | readline/producer.cpp:102-114 | For a producer's line that is so if and only if twice the sum, and the falsification, fit an int. |
| ChecksumLoops.LengthOf | readline/producer.cpp:57-63 | The do-while loop counts the characters that "%d" prints. |
| Numerals.SprintfLeaves | readline/producer.cpp:71 | sprintf writes the text and a NUL at its offset and changes no other byte. |
| ChecksumLoops.PutDigits | readline/producer.cpp:67-72 | Writing at computed offsets builds one contiguous text, and sums the digits. |
| ChecksumLoops.ProducerLine | readline/producer.cpp:55-82 | The buffer then holds exactly the checksum line, with a falsified sum when asked to. |
| ChecksumLoops.ClientLine | socksrv/socket_cl.cpp:182-199 | The same with the offset that sprintf returned; every odd round is falsified. |
| ChecksumLoops.Check | readline/producer.cpp:102-115 | The scanning loop ends on every text and compares the last number with the sum of the others over the longest parsable prefix. |
| ChecksumPipe.ConsumerRound | readline/producer.cpp:95-119 | One round of the consumer reads one line off the stream and judges it. |
| ChecksumPipe.LineThroughPipe | readline/producer.cpp:55-119 | Through either reader a producer's line arrives whole and is accepted if and only if it was not falsified. |
| MplexServer.Server.constructor | socksrv/socket_srv_mplex.cpp:157-166 | Standard input and the listening socket are the first two entries, and the static buffer is clear. |
| MplexServer.Server.ReadDataFromClient | socksrv/socket_srv_mplex.cpp:241-285 | -1 if and only if the descriptor has been closed, as EndsExactlyWhen says; otherwise 0, also after a failed read, and one verdict is answered, on the bytes read and what an earlier request has left behind them. The buffer is cleared by an answer and by nothing else. |
| MplexServer.EndsExactlyWhen | socksrv/socket_srv_mplex.cpp:243-261 | A call closes the descriptor exactly at the end of the file, after a failed read with a request to close left behind, or on a request to close, which one of five bytes or more is by its first five bytes alone. |
| MplexServer.ClosingTexts | socksrv/socket_srv_mplex.cpp:256 | The texts that ask to close are exactly those whose first five characters are, position by position, a letter of "close" or of "CLOSE". |
| MplexServer.NumbersAreAnswered | socksrv/socket_srv_mplex.cpp:256-284 | No text that starts with a number asks to close. |
| MplexServer.ClearAnswersLine | socksrv/socket_srv_mplex.cpp:256-284 | From a clear buffer every checksum line is answered, OK exactly when the claimed sum is right, and the buffer is clear again. |
| MplexServer.Server.Read | socksrv/socket_srv_mplex.cpp:242-243 | read() puts its bytes at the start of the static buffer and leaves the rest of it. |
| MplexServer.Server.Accept | socksrv/socket_srv_mplex.cpp:199-223 | The accepted descriptor is appended. |
| MplexServer.Server.ServeOne | socksrv/socket_srv_mplex.cpp:225-233 | The first ready client from index 2 on is served: closed and its entry alone erased, or answered and no entry changed; when none is ready nothing changes at all. |
| MplexServer.ServesFirst | socksrv/socket_srv_mplex.cpp:225-233 | For the first ready client, closed or answered and nobody else: its entry goes exactly when it is closed, and the entries at all other positions stay. |
| MplexServer.ServesNobody | socksrv/socket_srv_mplex.cpp:225-233 | With nobody ready a pass closes, answers and erases nothing. |
| MplexServer.Server.Pass | socksrv/socket_srv_mplex.cpp:172-235 | After every pass the entries from index 2 on are distinct and are exactly the accepted descriptors not yet closed, and the static buffer is clear or holds a request to close. |
| MplexServer.EraseKeeps | socksrv/socket_srv_mplex.cpp:228-230 | Erasing an entry takes its descriptor, and no other, out of the list. |
| MplexServer.ReadAloneExactlyWhen | socksrv/socket_srv_mplex.cpp:241-260 | Whatever has been read before, a request is seen alone if and only if it brings a NUL, fills the buffer, or the byte behind it is a NUL. |
| MplexServer.ClearReadsAlone | socksrv/socket_srv_mplex.cpp:283 | After an answer the next request is seen alone. |
| MplexServer.LineAfterClose | socksrv/socket_srv_mplex.cpp:254-277 | The numbers of a checksum line are followed by those left behind it; with a right sum it is answered OK if and only if there are none or all together add up again. |
| MplexServer.TailOfAnother | socksrv/socket_srv_mplex.cpp:254-277 | After a client that left with "close 7" the right line "1 2 3" is answered ERR. |
| MplexServer.VerdictIsChecksum | socksrv/socket_srv_mplex.cpp:263-276 | A request that starts with a number is answered OK if and only if its last number is the sum of the others. |
| MplexServer.DecidedExactlyWhen | socksrv/socket_srv_mplex.cpp:263-276 | The answer does not depend on the uninitialised variable if and only if the request starts with a number. |
| MplexServer.HelloIsUndecided | socksrv/socket_srv_mplex.cpp:263-276 | "hello" is answered OK if and only if the variable holds 0. |

## Left out

- Plumbing: creating, opening and mapping shared memory, semaphores, queues, pipes and sockets, their error returns, argument parsing and logging. The values set at creation are the initial states.
- Start-up races in `init_queue`: a process that finds `sem_full` but not yet the other two semaphores.
- Raw addresses: `semptr + sizeof(sem_t)`, the mapping lengths, and the stride of `char *data[...]` in the crate. Semaphores and slots are named cells.
- Machine integers: the largest semaphore value, the conversion of the capacity to `short` in `vproducer.cpp`, the wrap-around of `uint` and of scanned numbers. Sums that could overflow an `int` are bounded in `NoOverflow`; scanned numbers have any size.
- The 128-byte text buffer of the crate's producers; what is printed of a slot is stated for process ids of at most ten digits.
- Real time: `sleep` does nothing, `select` and `poll` are events, and a timeout is not shared out among the calls to `select`.
- `read` errors, and the first `select` failing.
- The reset of `readline_tout` with a null buffer, which comes after a `memset` of that buffer.
- BufferedReader.ReadlineTout: the memory behind the caller's buffer is taken to reach further than the inner buffer's 128 bytes, so that the stray terminator is a write that the model can show.
- ReaderMain.PrintLines: says that the session is one with some number of bytes saved in each call; which number that is, `ReaderMain.PrintLine` states for each turn of the loop.
- ChecksumLoops.Check: takes the C string as a value; the buffer behind the NUL plays no part.
- TokenSystemRefinement.SystemRunsOnExactlyWhen: for batches of 1 to 8 items, in batches of one item for no more tokens than a queue has slots, and for process ids of at most ten digits; for other batch sizes the loss of progress is proved for the protocol over plain queues (`TokenLimits.RunsOnExactlyWhen`).
- PosixCrateSafety.NoDeadlock: freedom from deadlock, not from starvation; no fairness is assumed or claimed. `PosixCrateProgress.RunsOnExactlyWhen` has the exact capacities.
- SysVSimulation.VNoDeadlock: the same; `SysVLimits.VRunsOnExactlyWhen` has the exact capacities.
- TokenBatches.WholeExactlyWhen: for batches of 1 to 8 items, with the initial messages already in the queue.
- MplexServer.Server.ReadDataFromClient: a text that fills all 512 bytes of the buffer ends there, where the source reads on; what a read brings is given from outside, TCP framing is not modelled, and an answer counts as sent also when the write fails.
- MplexServer.Server.Pass: the server's `quit` on standard input is not modelled.
- ChecksumPipe.ConsumerRound: ends the text at 512 bytes when a full line leaves no NUL, where the source reads on.
- ReaderTable.Table.Readline: the set of open descriptors is fixed; a descriptor closed and used again is not modelled.
- SysVCrateMemory.SharedVCrate.constructor: zeroes every slot, where the source clears 20 * capacity bytes of fresh shared memory.
- Starvation in the multiplexed server, which serves only the first ready client of a pass.
- `socket_srv.cpp` and `socket_srv_thread.cpp`, which repeat the checker, and the client's forwarding of standard input.
- `cv1-fork`, `signals`, `pipe-redirect-pr2` and `pipe-threads-cv2`: process, signal and pipe demonstrations.
