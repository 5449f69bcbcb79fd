# RIDE hasher: a verified model

RIDE watches file opens with an eBPF hook, queues an event per accepted file, and lets a pool of
processor threads open, read and hash those files over io_uring, print a line per file and report
the hash to a remote verifier over QUIC. This project models the chain from "event arrives" to
"hash is on the wire" in Dafny and proves what holds over every run of it.

| module | part of the system |
|---|---|
| `Words`, `SpscRing`, `EvLoop` | the two io_uring rings with 32-bit wrapping counters: the concurrent protocol, and the loop's shared arrays and counters in place |
| `Requests`, `Runtime` | request objects, and each callback of a processor thread as a function on its memory |
| `Processor` | a thread in place: the slab array with its intrusive free list, and the callbacks submitting to the ring of `EvLoop`; set-up reaches the initial state of `HashSystem` |
| `Scripts`, `ThreadLoop` | the completion loop in place, batch after batch, with the kernel posting between and during the batches: memory and both rings go through the states of a run of `HashSystem` |
| `HashSystem` | one thread and the kernel as a state machine: the kernel takes SQEs, completes them in any order with any admissible result, and the loop dispatches callbacks |
| `Ownership`, `FileState`, `KernelSteps`, `FileSteps`, `LoopSteps`, `HashRuns` | the invariant of that machine and that each step keeps it |
| `HashTheorems` | the results about every run |
| `Verdicts`, `RequestHistory` | when a thread stops; what it has ever asked of the kernel and was told |
| `Submissions`, `RingBound` | what each callback submits; up to which slab size no submission is refused, for two kernels that differ in when they publish the head of the submission ring |
| `Burst`, `RingOverflow`, `BatchOverflow` | runs of the whole system that lose the poll just beyond those sizes, so that they are exact |
| `EventQueue` | the locked work queue, its producer with round-robin eventfds, and any number of consumers |
| `QuicSlot`, `Expiry` | the QUIC stream slot, its flush loop, whole runs of reports, and the timer's arithmetic |
| `OutputLine`, `WatchPath` | the printed line; the watch-path filter |
| `WholeSystem` | producer, queue, all threads with their kernel rings, and all connections as one state machine; each part of a run of it is a run of that part |
| `Joints`, `EndToEnd` | in every run of the whole the parts fit together; from accepted event to bytes on the wire |

## What the environment is assumed to do

- The kernel consumes SQEs in order, writes no CQE slot between the published head and tail, and
  gives each non-multishot SQE exactly one CQE. Only the queue poll is multishot; an error, or a
  CQE without the "more" flag, ends it.
- A load of the SQ head may return any published value not older than the last one loaded. How soon
  the kernel publishes its head after taking SQEs is left open in all machines. Only the results
  about a full ring (`RingBound`, `RingOverflow`, `BatchOverflow`) ask for it, as a hypothesis on the
  run: either the head that covers an SQE is published before its CQE can be reaped (`Prompt`), or
  SQEs are taken in batches and the head is published at the end of each (`Batched`).
- A poll completes repeatedly only if it asked for that, and only for events it asked for. A timeout
  update succeeds only if it names the user_data of a timeout in the kernel. An open that is not
  read-only, or not relative to the working directory, could change or mistake the file: the model
  counts it as a fault, and no run has one.
- In `SpscRing` and `ThreadLoop` a completion is posted only where its ring has room past the
  published head; `HashSystem` does not ask for it. The kernel's own list of overflowing completions
  is not modelled.
- An open yields an error or a descriptor not in use. A read yields an error, 0 exactly at end of
  file, or any non-empty prefix of what remains that fits the buffer. File contents do not change.
- The hash is an arbitrary function of all the bytes fed to it.
- `strdup` returns an address that is not live. `path_len` is the length of the stored path.
- The QUIC library accepts a prefix of the bytes offered, at least one byte when it asks for more,
  and has finitely many packets to send. These match ordered STREAM data and FIN in sections 2.2
  and 19.8 of RFC 9000.

## What turned out differently from what one would expect

- `-c` admits up to 256 slab slots, but the submission ring has 128 entries and every caller
  ignores `EV_FULL`. The limit is exact for both kernels. With a prompt one no run loses a submission
  if and only if there are at most 125 slots (`RingOverflow.NeverFullIff`); it is 125 and not 124
  because `conn_req` is never outstanding together with `recv_req` or `timer_req`. With one that
  publishes its head once per batch it is 61 (`BatchOverflow.NeverFullBatchedIff`), because a batch of
  SQEs whose completions are all reaped can stand in front of as many new ones. Beyond the limit a
  burst of 126 events, or of 123, loses the queue poll, and nothing re-arms it.
- `verifier_quic_get_slot` takes over slot 0 even when it still holds unsent bytes. Those bytes
  then travel on the next file's stream. `QuicSlot.RefusedFlushMisattributes` shows it, and
  `QuicSlot.StreamsExactIffDrained` says exactly when streams and files correspond: all streams but
  the last, if and only if every report found the slot drained; the last, if it is drained now.
- A drained slot is not enough for the next report to fit. After a packet that could not be sent the
  slot is not reset, and the next report starts behind the bytes already sent
  (`QuicSlot.DrainedMayNotFit`). Every report fits if and only if at most 97 of the 256 bytes are in
  use (`QuicSlot.EveryReportFitsIff`).
- Watching `/` stores `//`, which accepts nothing (`WatchPath.RootIsTheException`). A negative path
  length passes the comparison with an unsigned length (`WatchPath.NegativeLength`). A directory
  path of 127 bytes is reported as too long and then used; the filter still works for it.
- The QUIC timer is never updated. verifier_flush_egress names the verifier as the timeout to change,
  where the kernel looks for the timer's user_data, the address of `timer_req`. Every update fails
  (`RequestHistory.UpdatesNeverLand`), and the timer keeps the deadline of its first arming.
- A file hashed before the connection exists reaches the verifier without a connection. The model
  stops there in the status `NoConnection`; an empty free list stops it in the status `Exited`.

## Model

| member | source | states |
|---|---|---|
| `SpscRing.RunIsFifo` | src/ev.c:77-136 | Over every interleaving of producer and consumer with stale loads and counters past 2^32, the consumer has received a prefix of what was sent, at most the ring's size is outstanding, and every outstanding entry is intact in the slot its masked counter selects |
| `SpscRing.StepRefinesFifo` | src/ev.c:77-136 | Each step is a step of an unbounded FIFO: a publish appends one entry, a read removes the front one, every other step leaves the queue alone |
| `SpscRing.FillKeeps` | src/ev.c:111-126 | The wrapped full check is true exactly when the ring holds as many entries as it has slots relative to the loaded head, and filling never overwrites an unconsumed entry |
| `SpscRing.BatchLength` | src/ev.c:158-182 | A batch loop with the kernel appending meanwhile ends after exactly (tail - head) mod 2^32 reads, no more than the ring's size, having received everything up to the loaded tail |
| `EvLoop.Loop.constructor` | src/ev.c:26-63 | Fresh rings of 128 and 256 entries satisfy the loop's invariant with nothing sent |
| `EvLoop.Loop.IouReq` | src/ev.c:103-136 | Returns EV_FULL exactly when the ring is full for the loaded head; otherwise an entry equal to the request in every field is the next one sent; either way the call is a run of the concurrent protocol |
| `EvLoop.Loop.Release` | src/ev.c:181-182 | Publishing the head releases exactly the completions between the old head and the loaded tail, (tail - head) mod 2^32 of them and no more than the ring holds |
| `EvLoop.Loop.CqeAt` | src/ev.c:163-164 | Whatever the kernel has posted since the tail was loaded, the k-th value of the wrapping counter selects the k-th completion of the batch |
| `EvLoop.NoEarlyEnd` | src/ev.c:158-163 | The counter meets the loaded tail only after the last completion of the batch, across 2^32 |
| `EventQueue.BufferIsFifo` | src/queue.c:30-72 | The circular buffer is a FIFO of capacity 8191 across index wrap-around: full and empty tests are exact, adding appends, consuming removes the front |
| `EventQueue.Queue.constructor` | src/queue.c:25-28 | The queue starts empty |
| `EventQueue.Queue.Add` | src/queue.c:30-43 | Appends the event and returns 0, or returns 1 and changes nothing exactly when 8191 events are queued |
| `EventQueue.Queue.ConsumeTry` | src/queue.c:47-72 | Exits exactly when the eventfd read fails otherwise than for want of a token; EAGAIN exactly without a token; with one, spends it and returns the oldest event, or 1 when there is none |
| `EventQueue.RunConserves` | src/queue.c:30-72 | Over every run with any number of consumers: events handed out followed by those queued are the accepted ones in order; tokens plus pending notifications equal queued items plus drops less empty returns; no queued item lacks a token; an empty return implies an earlier drop |
| `EventQueue.RunBalances` | src/ride.c:100-110 | After n events, dropped ones included, thread j of k was notified exactly ceil((n - j) / k) times, so notification counts never differ by more than one |
| `Processor.Proc.constructor` | src/processor.c:46-72 | After the setup loop the links form one acyclic list of all slots in order, each slot has its own buffer, none is in flight, and the rings are empty |
| `Processor.Proc.Start` | src/processor.c:73-77 | Submitting the poll and the socket request leads to the initial state of the runs below |
| `Processor.Proc.Submit` | src/ev.c:103-136 | A submission on the wrapped counters, its result ignored, refuses exactly when 128 entries are outstanding for the loaded head, otherwise publishes the request field by field, and is the submission step of the runs below |
| `Processor.Proc.GetReq` | src/processor.c:87-118 | Pops the most recently freed slot, keeping the links a list without repeats; exits on an empty list; faults if the slot is marked in flight |
| `Processor.Proc.FreeReq` | src/processor.c:120-132 | Pushes a slot that is off the list, keeping the links a list without repeats |
| `Runtime.SlabInOrder` | src/processor.c:66-73 | After the setup loop the slots are listed in order, each idle with its own buffer |
| `Runtime.SlotsAreReused` | src/processor.c:87-132 | The slab is a stack: the slot given back last is handed out next, and nothing but that slot has changed |
| `Processor.Proc.OnFileRead` | src/processor.c:156-190 | The three branches of the read callback in place: give up, finish, or continue at the next offset; equal to the step the run results are about |
| `Processor.Proc.OnFileOpen` | src/processor.c:192-222 | The open callback in place: start reading at offset 0 with a fresh hasher, or free path and slot |
| `Processor.Proc.OnQueueEvent` | src/processor.c:224-274 | The queue callback in place, including re-arming, fatal errors, and opening the empty path when there was no token |
| `Processor.Proc.FlushEgress` | src/verifier.c:61-96 | Arms the timer once, afterwards spends a slab slot on each update; the thread exits if and only if the flush failed, or the timer is armed and no slot is free |
| `ThreadLoop.RunBatch` | src/ev.c:158-182 | One pass of the loop in place, with the kernel posting before every turn: the completions between the published head and the loaded tail are dispatched to their callbacks, oldest first and once each, and released in one store unless a callback exits; memory and both rings end as those steps of the state machine leave them |
| `ThreadLoop.RunLoop` | src/ev.c:146-184 | Any number of such passes in place, from any state of the invariant and for whatever kernel and environment may do before and during them, end in the state the steps lead to, which satisfies the invariant |
| `ThreadLoop.RunThread` | src/processor.c:298-303 | Set-up and any number of passes: the thread's memory and rings are those of a state the machine reaches from its start, so the results below hold of the code in place |
| `Scripts.LoopIsRun` | src/ev.c:146-184 | The steps of any sequence of batches, kernel steps interleaved, form one run of the state machine |
| `Scripts.TraceTurns` | src/ev.c:163-178 | From every state of the invariant each turn of a batch finds what it needs in place: kernel steps do not fault, the reaped completion names a live request, and a slab slot it names is off the free list |
| `HashTheorems.StepKeeps` | src/processor.c:156-274 | Every step of the kernel or of a callback keeps the whole invariant of ownership, file data and emitted lines |
| `HashTheorems.OwnershipPartition` | src/processor.c:87-132 | Between callbacks of any run each slab slot is in exactly one of free list, submission ring, kernel, completion ring, lost; in_flight is set exactly off the free list; the list has no repeats and its counter is its length; each slot keeps its own buffer; the in_flight assertion never fires and nothing is freed or closed twice |
| `HashTheorems.AtMostOneInFlight` | src/processor.c:156-274 | No request object ever has two unfinished SQEs or two unreaped final completions |
| `HashTheorems.HashesAreWholeFile` | src/processor.c:156-190 | However completions interleave and reads split, every line printed or sent is a job's own path with the hash of that file's whole content, and no job is reported twice |
| `HashTheorems.HasherInStep` | src/processor.c:156-222 | A slot that is reading has fed its hasher exactly the first `off` bytes of its own file |
| `HashTheorems.JobsAccounted` | src/processor.c:156-274 | Every file taken up is held by exactly one slot, reported by exactly one line, or failed to open or read |
| `HashTheorems.ResourceBalance` | src/processor.c:156-269 | Live duplicated paths are exactly those of slots opening or reading, live descriptors exactly those such slots hold, each with a single owner |
| `HashTheorems.KernelNeverDangles` | src/processor.c:192-269 | In every run the path, descriptor and buffer an SQE in the kernel refers to are alive and its own slot's, and opens are read-only, so every result the kernel's contract allows can occur, and no step of the kernel is excluded by the memory it would touch |
| `HashTheorems.LoopNeverStuck` | src/ev.c:163-178 | Every completion in the ring names a live request with a callback, and can be served whatever that callback observes, an SQ head as old as the last one loaded included |
| `Verdicts.StopsExactlyWhen` | src/processor.c:156-274 | In every run, for each callback, the exact condition on the completion and on what it observes under which serving it exits, or stops for want of a connection; otherwise the thread goes on |
| `RequestHistory.EveryEntry` | src/processor.c:209-289 | Every entry ever published, in every run, has one of the forms written out with the kernel's constants: the poll is multishot for EPOLLIN and EPOLLEXCLUSIVE, an open is read-only and from the working directory, a read goes to the slot's own buffer, and so on for each object |
| `RequestHistory.SocketIsUsed` | src/verifier.c:130-199 | In every run there is one socket request, and every connect and every read of the connection uses the descriptor its completion returned |
| `RequestHistory.UpdatesNeverLand` | src/verifier.c:75-83 | In every run each completion is for the object of its SQE, and every completion of a timeout update is an error |
| `Submissions.CallbackAppends` | src/processor.c:156-274 | With room for them, a callback publishes exactly the requests listed for its case, in order, and loses none |
| `RingBound.Occupancy` | src/ev.c:108-115 | When objects are about to be submitted, the entries not known to be consumed and the new ones together are at most the slab size plus 3 with a prompt kernel, and twice the slab size plus 6 with a batching one |
| `RingBound.NeverFull` | src/ev.c:113-115 | With at most 125 slots and a prompt kernel, or at most 61 and any batching kernel, no run ever has a submission refused |
| `RingBound.PartitionWithinBound` | src/processor.c:87-132 | Within those sizes the partition has no lost part, and the queue poll is always in a ring or in the kernel |
| `RingOverflow.Overflow` | src/processor.c:224-274 | With more than 125 slots there is, for any file, a run of the whole system with a prompt kernel, within the completion ring's size, in which the queue accepts 126 events for the file and hands them all out, and after which the poll is lost while the thread keeps running |
| `RingOverflow.NeverFullIff` | src/ev.c:113-115 | With a prompt kernel no run loses a submission if and only if the slab has at most 125 slots |
| `BatchOverflow.LateOverflow` | src/processor.c:224-274 | With more than 61 slots there is, for any file, a run of the whole system with a kernel that publishes its head once per batch, in which 123 events are accepted and handed out and the poll is then lost while the thread keeps running |
| `BatchOverflow.NeverFullBatchedIff` | src/ev.c:113-115 | Over all batching kernels no run loses a submission if and only if the slab has at most 61 slots |
| `QuicSlot.Flush` | src/verifier_quic.h:94-155 | The unbounded loop terminates for every conforming library, keeps every stream's ledger of bytes, touches only the current stream, and empties the slot when it ends idle with nothing unsent |
| `QuicSlot.FlushFollows` | src/verifier_quic.h:111-155 | For every conforming library the loop makes one call per offer, each offer is the one before less what was taken, it goes on exactly after WRITE_MORE or a packet that was sent, and its ending is the meaning of the last answer |
| `QuicSlot.AcceptKeeps` | src/verifier_quic.h:110-152 | Accepting any non-empty part of the offer moves exactly those bytes from slot to stream, in order |
| `QuicSlot.PreparedKeeps` | src/verifier_quic.h:61-92 | The reset branch discards no unsent byte |
| `QuicSlot.OneStreamPerFile` | src/verifier.c:203-211 | From a drained slot the new stream and the slot together hold hash then path; the stream is exactly that and finished if and only if the flush drained; other streams are untouched |
| `QuicSlot.RefusedFlushMisattributes` | src/verifier_quic.h:202-218 | When one flush is refused and the next accepted, the second stream carries both files and the first nothing |
| `QuicSlot.RunConserves` | src/verifier_quic.h:61-155 | Over every run and every library: the bytes on all streams in opening order, then the unsent ones, are the reported payloads, none lost, repeated or reordered |
| `QuicSlot.StreamsExactIffDrained` | src/verifier_quic.h:202-227 | Over every run: all streams but the last carry exactly their own file's payload if and only if every report found nwrite == datalen, which the code does not ask; given that they are finished, and the last stream is exact and finished if and only if the slot is drained now |
| `QuicSlot.GuardIsRecorded` | src/verifier_quic.h:202-218 | Over every run the leftovers recorded at the openings are all empty exactly when that guard held at each report |
| `QuicSlot.EveryReportFitsIff` | src/verifier_quic.h:220-227 | Every hash and path below 128 bytes fits the slot if and only if at most 97 bytes of it are in use |
| `QuicSlot.DrainedMayNotFit` | src/verifier_quic.h:146-151 | After a packet that could not be sent the slot is drained but not reset: n bytes fit if and only if they fit behind those already sent |
| `QuicSlot.DrainedRunsFit` | src/verifier.c:203-211 | As long as calls end idle with nothing unsent, every report finds the slot drained and the next one fits, whatever its path |
| `QuicSlot.PayloadDecodes` | src/verifier.c:203-211 | A received stream determines hash and path |
| `QuicSlot.Verifier.SlotWritev` | src/verifier_quic.h:220-227 | Appends in place after the existing data, changing nothing else in the buffer, exactly when the bytes fit; otherwise reports that the copy would run past the buffer |
| `QuicSlot.Verifier.FlushOut` | src/verifier_quic.h:94-155 | The loop in place ends in the state and with the outcome of the flush function, after that conversation with the library; -1 exactly when the last call was answered with an error |
| `QuicSlot.Verifier.VerifyHash` | src/verifier.c:203-211 | Succeeds exactly when a stream was opened and the report fits; then taking the slot, both appends and the flush in place are one report step of the runs above |
| `Expiry.Arm` | src/verifier.c:61-72 | For all 64-bit times, exits exactly when the flush failed or the timeout is at least 2^63 ns; otherwise the timespec is normalised and denotes the timeout |
| `OutputLine.PrintHash` | src/processor.c:134-149 | For every path under 128 bytes the line with its terminator stays within the 512-byte buffer, and a reader of its text finds the processor, the request, the path and the hash |
| `OutputLine.LineReads` | src/processor.c:134-149 | Whatever characters the path holds, the number after "processor", the number after "req_id", the text of "file" and the 64 digits of "hash" are those the line was printed for |
| `OutputLine.HexDecodes` | src/processor.c:143-147 | The hex digits decode back to the hash |
| `OutputLine.LineDecodes` | src/processor.c:134-149 | A line determines processor, request, path and hash, whatever characters the path holds |
| `WatchPath.InWatchPath` | src/ride.bpf.c:28-51 | The index loop decides the prefix test with its unsigned length comparison |
| `WatchPath.Normalise` | src/ride.c:140-162 | The buffer holds the canonical path, followed by a slash for directories; refused exactly beyond 127 bytes |
| `WatchPath.SlashPrefix` | src/ride.bpf.c:46-49 | A path followed by a slash is a byte prefix exactly of its strict descendants by component |
| `WatchPath.DirectoryWatch` | src/ride.bpf.c:28-51 | A directory watch accepts exactly the strict descendants, except that the root accepts nothing |
| `WatchPath.FileWatch` | src/ride.bpf.c:28-51 | A file watch accepts exactly the watched path |
| `WatchPath.RootIsTheException` | src/ride.c:155-158 | A directory watch means "the strict descendants" for every file if and only if the directory is not the root |
| `WatchPath.NegativeLength` | src/ride.bpf.c:36-37 | With a negative length a path is accepted if and only if the watch is a directory and the buffer starts with it |
| `WholeSystem.QueueRun` | src/queue.c:30-72 | In every run of the whole the queue makes a run of its own machine, so its order, token and balance results hold there |
| `WholeSystem.ProcessorReaches` | src/processor.c:156-274 | In every run of the whole each processor makes a run with its kernel, so the ownership, hashing and resource results hold there for every thread |
| `WholeSystem.ConnectionRun` | src/verifier.c:203-211 | In every run of the whole each connection makes a run of reports and flushes, so the byte and stream results hold there |
| `WholeSystem.FlushDecides` | src/verifier.c:61-96 | In every run of the whole a thread that received from its connection, or just made it, exits if and only if the transport reported an error to the flush, the timeout does not fit a signed 64-bit number, or the timer is armed and no slot is free |
| `Joints.EveryRunJoined` | src/processor.c:241-261 | In every run of the whole, a running processor has opened exactly the paths the queue handed to it, in order, and a stopped one a prefix; and the streams of its connection were opened for its verifier calls, in order, with their hash and path |
| `EndToEnd.EveryOpenHasItsEvent` | src/processor.c:241-261 | In every run each file opened for an event belongs to a definite event that was accepted and handed to that thread |
| `EndToEnd.EveryEventIsOpened` | src/processor.c:241-274 | In every run each event handed to a thread still running has its own job there: in hand in a slot, reported by a line, or failed to open or read |
| `EndToEnd.LineTellsEvent` | src/processor.c:134-190 | In every run each line is the path of an accepted event with the hash of that file's whole content |
| `EndToEnd.LinesTellDifferentEvents` | src/processor.c:134-190 | In every run two lines, of one thread or of two, are about different accepted events: none is reported twice |
| `EndToEnd.StreamTellsEvent` | src/verifier.c:203-211 | In every run a stream opened over a drained slot carries, finished, exactly the hash of the whole content of one accepted event's file followed by its path, if and only if the slot was drained again before its next use or by now; it then decodes to nothing else |
| `EndToEnd.WireConserves` | src/verifier_quic.h:61-155 | In every run, drained or not, the bytes on a thread's streams followed by the unsent ones are the hashes and paths of its lines in order |

## Left out

- src/client.c, an older client that is not built, and the Go server under verifier/, which only prints what it receives.
- Ring mapping, socket and address set-up, TLS, certificates, logging, command-line parsing, signals and thread joining.
- Liveness: whether every token is eventually seen, and whether a lost poll could be noticed.
- Files changing while they are read.
- A weak memory model: a load may return an older published value, nothing beyond that.
- The NEED_WAKEUP call into the kernel after a publish, which changes no modelled state.
- What happens after a stream could not be opened or a report did not fit the slot, which the code does not handle: the model marks the link broken and follows that thread no further.
- The three unused hash_req_slots: the code only ever uses slot 0.
- The hook's checks of process, file type and file system before the path test.
- ThreadLoop.RunLoop: kernel steps fall between the dispatched callbacks, not inside one; `SpscRing.RunIsFifo` covers the finer interleaving of the rings.
- Processor.Proc.FlushEgress: takes the outcome of the flush as a flag; `WholeSystem.FlushDecides` says exactly what it is.
- EventQueue.RunBalances: the round-robin counter is unbounded, where the source's `int` overflows after 2^31 events.
- EndToEnd.LineTellsEvent: supposes that no file has the empty path, which a thread without a token opens; the other results about lines and streams inherit this.
- WholeSystem.ProcessorReaches: a thread that exits stops alone, where in the source it ends the process; that only adds runs.
- OutputLine.PrintHash: the write to standard output itself and its short-write message.
