# gnet in Dafny

A model, with proofs, of the parts of gnet (an event-driven networking engine in Go) whose
correctness does not follow from reading one function: the lock-free task queue and the poller's
wake-up protocol, the byte buffers, the two directions of a TCP connection, the length-field
codec, the event loop's bookkeeping, and the size-class slice pool.

`dafny verify dfyconfig.toml` checks the whole project (Dafny 4.11).

## How it is modelled

- **Concurrency** (`LockFreeQueue`, `QueueRuns`, `QueueAlone`, `Poller*`): transition systems. One call of
  `Exec`, `ProducerStep` or `PollerStep` is one atomic load, compare-and-swap, add, store or
  system call of one goroutine; a schedule is any list of such steps, so a lemma about every
  schedule is about every interleaving. Fields marked *history* only record what happened. The
  node heap never reuses addresses, as the garbage collector guarantees for nodes still referenced.
- **Buffers, connections, event loop** (`Ring`, `LinkedList`, `Elastic`, `Inbound`, `Outbound`,
  `EventLoop`): classes with the source's fields. `Contents()` or `Stream()` is the byte sequence
  an object stands for and the contracts speak about that. The `conn` struct is split into its
  inbound and its outbound side because no operation touches both. Go's `copy` is `CopyIn`.
- **Kernel and user callbacks**: `Socket.Handle` answers every documented result of `write`,
  `writev`, `epoll_ctl` and `close` nondeterministically, and counts calls and answers in a history
  field `log`. Contracts that depend on what the kernel did ("unless a write failed", "unless the
  poller refused") speak about that history, never about what an operation reports. Beyond the
  documentation of the calls it is assumed that an error-free `writev` of at least one byte takes
  at least one byte, that a vector of more than 1024 slices is refused (EINVAL), and that a closed
  descriptor answers with an error. Handlers are arbitrary
  lists of calls and arbitrary returned actions. The eventfd is a counter; reading it is assumed
  to succeed when it is readable.
- **Runs of the event loop** (`EventLoopRuns`): a run is summed up by its trace, which shows every
  connection (`Snap`: the flag, both directions, and the kernel's side with its history) before
  and after every task. `RunTasks` proves that the loop's run is such a trace; the theorems are
  about all traces.
- **Integers** are unbounded, except the queue's 32-bit `length`, which wraps as
  `atomic.AddInt32` does, the bit tricks of `toolkit`, and the truncated 32-bit length field.

Results that the source's own documentation does not tell:

- `IsEmpty` of the queue can answer true while tasks are queued; the wake-up protocol survives
  that, because the producer in question has yet to try the flag (`PollerWakeup.NoLostWakeup`).
- If the eventfd write of a producer fails with anything but EAGAIN, the flag stays 1 without a
  permit behind it and no task ever runs again (`PollerWakeup.WriteErrorIsFatal`, `PollerWakeup.StallHappens`).
- Data that `OnOpen` returns and the kernel does not take at once is never watched for
  writability, because the descriptor is added to epoll twice (`Outbound.Channel.Open`), and every
  later write queues up behind it (`Outbound.Channel.WriteUnattended`).
- `conn.Writev` of more than 1024 slices on an idle connection closes it, because only the event
  loop's own writes are cut at `iovMax` (`Outbound.Tried`).
- A write of no bytes that the kernel answers with EAGAIN makes the poller watch for writability
  with nothing to write; no other write does (`Outbound.Tried`, `Traffic.Calm`).
- A frame at or over 10 MB blocks its connection for good: nothing behind it is ever decoded
  (`Codec.OverCapBlocks`).
- `WriteByte` on a full ring of 4096 bytes or more panics (`Ring.Buffer.WriteByte`).
- Length fields wider than 4 bytes carry the empty message only (`Codec.RoundTrip`); a width of 0
  panics on fewer than four bytes (`Codec.Decode`).
- `CeilToPowerOfTwo` and `FloorToPowerOfTwo` do what their comments say if and only if the argument
  is at least 2 (`Toolkit.CeilIsLeastPowerOfTwo`, `Toolkit.FloorIsGreatestPowerOfTwo`).

## Model

| member | source | states |
|---|---|---|
| QueueRuns.Linearizable | internal/queue/lock_free_queue.go:104-153 | For any threads and any schedule of Enqueue and Dequeue steps, the link, take and saw-empty events form a legal history of a sequential FIFO queue, and every call of every thread is answered by exactly its own event inside the call: nil only if the queue was empty when head.next was loaded |
| QueueRuns.DequeuedIsPrefixOfLinked | internal/queue/lock_free_queue.go:104-153 | In every interleaving the tasks in link order are the tasks in head-swing order followed by what is queued: FIFO, none twice, none lost |
| QueueRuns.MemorySafe | internal/queue/lock_free_queue.go:107-151 | No thread ever dereferences nil, head never passes tail, tail lags behind the last node by at most one |
| QueueRuns.LengthAccounting | internal/queue/lock_free_queue.go:113-116 | At every step the 32-bit length is the number of queued tasks, minus the enqueuers between link and increment, plus the dequeuers between head swing and decrement |
| QueueRuns.WrongEmptyNeedsCallInFlight | internal/queue/lock_free_queue.go:156-158 | IsEmpty answering true on a non-empty queue of fewer than 2^32 tasks with no dequeue in flight means an enqueuer is between link and increment |
| QueueRuns.EmptyCanBeWrong | internal/queue/lock_free_queue.go:156-158 | A concrete run in which IsEmpty is true while one task is queued |
| QueueAlone.EveryCallReturns | internal/queue/lock_free_queue.go:104-153 | From every reachable state, a thread anywhere inside Enqueue or Dequeue that moves alone returns in exactly the number of steps the state tells, at most 15, with the answer the state tells |
| QueueAlone.IdleCallAlone | internal/queue/lock_free_queue.go:104-153 | From every reachable state, whatever other threads are in the middle of, an idle thread's Dequeue that moves alone returns the first task, or nil exactly if there is none, and its Enqueue adds the task at the end and leaves the tail at the last node, in at most 13 steps |
| QueueAlone.StepIsProgress | internal/queue/lock_free_queue.go:106-151 | Each step of a call is one step less to go and does not change what the answer will be; a helping step helps |
| QueueRuns.TurnKeepsInv | internal/queue/lock_free_queue.go:104-153 | Every step of every thread keeps the chain, the counters, the history and what each other thread knows about its local pointers |
| LockFreeQueue.StepKeeps | internal/queue/lock_free_queue.go:104-153 | One atomic step of Enqueue or Dequeue, in any state the invariant allows, keeps the invariant and disturbs other threads only in the ways they tolerate |
| LockFreeQueue.StableUnderOthers | internal/queue/lock_free_queue.go:104-153 | What a thread has loaded stays true for its purposes under any step of any other thread |
| LockFreeQueue.LinkKeeps | internal/queue/lock_free_queue.go:112-115 | A successful link appends exactly the enqueuer's own node and task at the end of the chain |
| LockFreeQueue.TakeKeeps | internal/queue/lock_free_queue.go:144-149 | A successful head swing removes exactly the first queued task and returns its value |
| LockFreeQueue.ReplayIsFifo | internal/queue/lock_free_queue.go:15-16 | In any legal history tasks taken followed by tasks held are the tasks linked |
| PollerWakeup.NoLostWakeup | internal/netpoll/epoll_default_poller.go:98-207 | In every run without a failed producer write: if a task is queued and the poller is about to wait with doChores false, then the eventfd is readable, or a producer that linked its task has yet to try the flag, or has set it and not yet written |
| PollerWakeup.PermitConservation | internal/netpoll/epoll_default_poller.go:98-207 | In every run wakeupCall equals the number of producers about to write plus the eventfd counter plus the poller's own permit plus a permit lost in a failed write, and is 0 or 1; so the eventfd never exceeds 1 |
| PollerWakeup.WriteErrorIsFatal | internal/netpoll/epoll_default_poller.go:102-107 | In every run: once the eventfd write of a producer that won the flag fails, the flag stays 1, the eventfd stays 0 and no job runs any more |
| PollerWakeup.FailedWriteStallsForever | internal/netpoll/epoll_default_poller.go:118-123 | The same from any state the protocol can be in after a failed write, for every continuation |
| PollerWakeup.StallHappens | internal/netpoll/epoll_default_poller.go:98-124 | It happens: from every initial state, one undisturbed Trigger or UrgentTrigger reaches the write with its task queued, and if that write fails the task never runs, whatever follows |
| PollerWakeup.EmptyAnswerIsAnnounced | internal/netpoll/epoll_default_poller.go:199-200 | If IsEmpty answers true for a queue with tasks while the poller checks it, some producer has linked and will still try the flag |
| PollerWakeup.NextKeepsProtocol | internal/netpoll/epoll_default_poller.go:98-207 | Every action of a producer, of the poller or of the task pool keeps the queues' invariants, the permits and the announcements |
| PollerDispatch.JobsRunInOrder | internal/netpoll/epoll_default_poller.go:173-198 | In every run, per queue, the jobs that ran are a prefix of the jobs that Trigger was called with, in link order, although Task objects are recycled; every job taken has run except the one in hand |
| PollerDispatch.RoundsAreOrdered | internal/netpoll/epoll_default_poller.go:175-198 | In every round of every run, low-priority jobs run only after the urgent queue answered nil, and at most 256 of them |
| PollerRounds.RoundsAreComplete | internal/netpoll/epoll_default_poller.go:173-199 | In every run, before the poller clears the flag, its Dequeue has answered nil on the urgent queue since the round began, and on the low-priority queue it has answered nil or 256 of its jobs ran |
| PollerAlone.WakeUpServes | internal/netpoll/epoll_default_poller.go:130-210 | From every reachable state in which the poller waits, the eventfd is readable and nobody is inside Trigger, the poller alone runs every urgent job and up to 256 others in a number of steps bounded by those jobs, waits again, and is signalled again exactly if jobs are left |
| PollerAlone.TriggerIsServed | internal/netpoll/epoll_default_poller.go:98-210 | From every initial state, after one undisturbed Trigger or UrgentTrigger whose write succeeds the poller alone runs exactly that job within 52 steps and waits again with the flag and the eventfd 0 |
| PollerDispatch.PendingTasksAreExclusive | internal/queue/queue.go:30-39 | In every run a queued Task object is not pooled, not in another slot of either queue, not with a producer before or inside Enqueue, and not with the poller between its head swing and PutTask |
| PollerDispatch.PooledTasksAreCleared | internal/queue/queue.go:35-39 | In every run a Task object in the pool holds on to no function and no argument |
| PollerTasks.NextKeepsLedger | internal/queue/queue.go:30-39 | Getting, filling, linking, taking, running and recycling Task objects keeps every object in one place and every queued object with the job it was submitted with |
| Ring.Buffer.Write | pkg/buffer/ring/ring_buffer.go:216-250 | Appends exactly p across wrap-around, full and growth; keeps the size exactly if p fits, otherwise takes the capacity that grow chooses; a grown size is at most max(1024, twice the bytes held) |
| Ring.Buffer.Read | pkg/buffer/ring/ring_buffer.go:150-191 | Moves the first min(len, buffered) bytes into the slice, touches nothing else of it, ErrIsEmpty exactly for a non-empty slice on an empty ring |
| Ring.Buffer.ReadByte | pkg/buffer/ring/ring_buffer.go:194-208 | Returns the first byte and keeps the rest, or ErrIsEmpty |
| Ring.Buffer.Discard | pkg/buffer/ring/ring_buffer.go:125-137 | Drops exactly min(n, buffered) bytes from the front |
| Ring.Buffer.Peek | pkg/buffer/ring/ring_buffer.go:70-103 | The two pieces joined are the first n bytes, or all of them |
| Ring.Buffer.PeekAll | pkg/buffer/ring/ring_buffer.go:106-122 | The two pieces joined are all bytes |
| Ring.Buffer.Bytes | pkg/buffer/ring/ring_buffer.go:316-339 | A copy of exactly the buffered bytes |
| Ring.Buffer.Buffered | pkg/buffer/ring/ring_buffer.go:269-282 | The number of buffered bytes, full and empty told apart |
| Ring.Buffer.Available | pkg/buffer/ring/ring_buffer.go:295-308 | Size minus the number of buffered bytes |
| Ring.Buffer.Reset | pkg/buffer/ring/ring_buffer.go:481-484 | Empties the ring and keeps its storage |
| Ring.Buffer.Grow | pkg/buffer/ring/ring_buffer.go:486-521 | New storage of the chosen capacity with the same contents, valid exactly if the data is smaller than it |
| Ring.Buffer.WriteByte | pkg/buffer/ring/ring_buffer.go:253-266 | Appends the byte if and only if the ring is not a full one of 4096 bytes or more; in that case the source panics |
| Ring.ChooseCap | pkg/buffer/ring/ring_buffer.go:486-509 | The growth loop ends and computes GrownCap |
| Ring.GrownCap | pkg/buffer/ring/ring_buffer.go:486-509 | The capacity is at least the one asked for and the old one, and when more than the old size is asked for at most max(1024, twice that) |
| Ring.GrowthIsGeometric | pkg/buffer/ring/ring_buffer.go:494-508 | A ring that has storage grows by at least a quarter of it |
| Ring.FirstCapacity | pkg/buffer/ring/ring_buffer.go:488-493 | The first storage is the least power of two that holds what is asked for, at least 1024 |
| Ring.WindowDrop | pkg/buffer/ring/ring_buffer.go:185-188 | Advancing r modulo size drops that many bytes, and r meets w exactly when all bytes are read |
| Fifo.RingRun | pkg/buffer/ring/ring_buffer.go:70-308 | For every list of Write, Read, ReadByte, Peek, Discard and Reset the answers and final contents are those of one byte sequence, and the capacity is at most max(initial, 1024, twice the peak) |
| LinkedList.Buffer.Read | pkg/buffer/linkedlist/linked_list_buffer.go:43-62 | Moves the first bytes of the concatenated chunks into the slice, a cut chunk going back in front; the chain stays well-formed |
| LinkedList.Buffer.Discard | pkg/buffer/linkedlist/linked_list_buffer.go:128-148 | Drops exactly min(n, bytes) bytes, a cut chunk going back in front |
| LinkedList.Buffer.PeekWithBytes | pkg/buffer/linkedlist/linked_list_buffer.go:104-125 | Non-empty slices that make up a prefix of the given slices followed by the list, reaching the asked number of bytes or all, with no slice more than needed |
| LinkedList.Buffer.Peek | pkg/buffer/linkedlist/linked_list_buffer.go:88-101 | The same without slices in front |
| LinkedList.Buffer.PushBack | pkg/buffer/linkedlist/linked_list_buffer.go:76-84 | Appends p; an empty p adds no chunk |
| LinkedList.Buffer.PushFront | pkg/buffer/linkedlist/linked_list_buffer.go:65-73 | Puts p in front |
| LinkedList.Buffer.Pop | pkg/buffer/linkedlist/linked_list_buffer.go:225-238 | Unlinks the first node and keeps tail, size and bytes right; nil for the empty list |
| LinkedList.Buffer.PushFrontNode | pkg/buffer/linkedlist/linked_list_buffer.go:241-254 | Links a node in front, keeping the chain acyclic and the counters right |
| LinkedList.Buffer.PushBackNode | pkg/buffer/linkedlist/linked_list_buffer.go:257-270 | Links a node at the end, keeping the chain acyclic and the counters right |
| LinkedList.Buffer.Reset | pkg/buffer/linkedlist/linked_list_buffer.go:213-222 | Leaves the empty list |
| Elastic.RingBuffer.Write | pkg/buffer/elastic/elastic_ring_buffer.go:107-112 | Appends p to a ring taken from the pool if there is none, of whatever size |
| Elastic.RingBuffer.Read | pkg/buffer/elastic/elastic_ring_buffer.go:82-89 | As on the ring; ErrIsEmpty without a ring; afterwards there is a ring exactly if bytes are left |
| Elastic.RingBuffer.Discard | pkg/buffer/elastic/elastic_ring_buffer.go:62-69 | As on the ring; afterwards there is a ring exactly if bytes are left |
| Elastic.RingBuffer.Relinquish | pkg/buffer/elastic/elastic_ring_buffer.go:45-50 | Gives the ring back if and only if it is empty |
| Elastic.Buffer.Write | pkg/buffer/elastic/elastic_ring_list_buffer.go:82-96 | Appends p to ring contents followed by list contents; exactly what fits goes to the ring and the rest to the list; a ring that has reached maxStaticBytes is not enlarged |
| Elastic.Buffer.Writev | pkg/buffer/elastic/elastic_ring_list_buffer.go:99-130 | Appends the concatenation, returns its length, fills the ring up to exactly maxStaticBytes or its size, cutting the slice that does not fit, and does not enlarge a ring that has reached maxStaticBytes |
| Elastic.Buffer.Read | pkg/buffer/elastic/elastic_ring_list_buffer.go:44-53 | Moves the first bytes into the slice, those of the ring before those of the list |
| Elastic.Buffer.Peek | pkg/buffer/elastic/elastic_ring_list_buffer.go:56-65 | Exactly the first n bytes if the ring holds n; otherwise slices that make up a prefix of at least min(n, buffered) bytes with no slice more than needed; the first one non-empty unless the buffer is empty |
| Elastic.Buffer.Discard | pkg/buffer/elastic/elastic_ring_list_buffer.go:68-79 | Drops exactly min(n, buffered) bytes, those of the ring first; a negative n, as after a failed write, drops nothing |
| Elastic.Buffer.Release | pkg/buffer/elastic/elastic_ring_list_buffer.go:171-174 | Leaves the buffer empty and its ring given back |
| Fifo.HybridRun | pkg/buffer/elastic/elastic_ring_list_buffer.go:44-130 | For every list of Write, Writev, Read, Peek, Discard and Reset the final contents and answers are those of one byte sequence (Peek shows a prefix of at least min(n, buffered) bytes), and no write of the run enlarges a ring that has reached maxStaticBytes |
| Inbound.Stream.Read | connection.go:261-275 | As on the one sequence inboundBuffer followed by buffer, taking from inboundBuffer first |
| Inbound.Stream.Next | connection.go:277-305 | Returns and consumes the first n bytes of the one sequence, all for n <= 0; ErrShortBuffer and nothing consumed if there are fewer |
| Inbound.Stream.Peek | connection.go:307-331 | The first n bytes of the one sequence, all for n <= 0; ErrShortBuffer if there are fewer |
| Inbound.Stream.Discard | connection.go:333-353 | Drops n bytes of the one sequence, everything for n <= 0 or n too large |
| Inbound.Stream.Stow | eventloop.go:138-140 | After the handler, inboundBuffer holds exactly what was not consumed |
| Traffic.OnRead | eventloop.go:117-141 | For every chunk and every list of calls by the handler, each answer is that of the same call on one contiguous sequence and inboundBuffer ends as the unconsumed rest |
| Traffic.InboundRun | eventloop.go:117-141 | Over every run of read events, bytes consumed followed by inboundBuffer are the bytes received, and all answers are those on one sequence |
| Outbound.Channel.Write | connection.go:144-169 | Whatever the kernel answers, bytes sent followed by bytes buffered grow by exactly data, or by nothing exactly if write answered an error other than EAGAIN; with output buffered no system call is made; otherwise the kernel is tried at once, and the poller is called exactly if something is left (or a write of no bytes answers EAGAIN); output stays attended unless the poller refused |
| Outbound.Channel.Writev | connection.go:171-209 | The same for a vector of slices, cut in the middle of any slice; a vector of more than 1024 slices is lost |
| Outbound.CutSlices | connection.go:195-205 | Finds the slice a short write stopped in; what is kept is exactly what was not sent |
| Outbound.Channel.Flush | eventloop.go:145-175 | Keeps the stream; one attempt of at most 1024 slices, which sends something unless the write took nothing; asks to close exactly on an error other than EAGAIN; the poller is called exactly if the buffer was emptied, and then it does not watch any more unless it refused |
| Outbound.Channel.Drain | eventloop.go:196-209 | The drain loop ends and keeps the stream; it stops at the first failed write, and if no write fails everything is sent; no vector is too long |
| Outbound.CutIsPrefix | eventloop.go:199-201 | Cutting the vector at iovMax leaves a prefix of the data, and never an all-empty vector |
| Outbound.Channel.Open | connection.go:130-142 | Greeting on an empty outbound buffer: the stream grows by the data; output is left unattended exactly if the kernel did not take all of it |
| Outbound.Channel.WriteUnattended | connection.go:144-151 | With unattended output, any further writes only queue up: nothing is sent and nothing is armed |
| Traffic.OutboundRun | connection.go:144-209 | Over every run of write, writev and writable events from any state: sent followed by buffered grows by exactly the bytes handed over while open; output stays attended unless the poller refused, and an empty buffer is not watched unless the poller did not stop or a write of no bytes met EAGAIN; the connection closes only when told or on an error other than EAGAIN; then sent is a prefix of the bytes handed over, and all of them unless a write failed while closing |
| EventLoop.Loop.CloseConn | eventloop.go:191-232 | Closing twice is closing once, down to system calls; an open connection is drained, unlisted and counted out, and everything it was handed is sent unless a write fails |
| EventLoop.Loop.Register | eventloop.go:88-95 | Closed and unlisted exactly if the poller rejects the descriptor; otherwise registered, listed under its descriptor, greeted and the handler's action obeyed as Open says |
| EventLoop.Loop.Open | eventloop.go:97-115 | Listed and counted; the stream grows by the greeting unless writing it fails for good; the action is obeyed exactly if the kernel took the whole greeting, otherwise the connection stays open and unwatched |
| EventLoop.Loop.Write | connection.go:144-169 | On any connection: an open one is closed exactly if the write fails for good, with everything accepted before sent, and otherwise its stream grows by data and its inbound side is unchanged; on a closed one the result is -1 and nothing is sent |
| EventLoop.Loop.Writev | connection.go:171-209 | The same for vectored writes |
| EventLoop.Loop.AsyncWrite | connection.go:216-227 | For an open connection as Write; for a closed one nothing changes at all and no system call is made |
| EventLoop.Loop.AsyncWritev | connection.go:234-245 | The same for vectored writes |
| EventLoop.Loop.Wake | eventloop.go:234-242 | A wake-up for a connection that is no longer listed changes nothing at all, also when its descriptor is in use again, whatever the handler would do; a listed one is handed exactly the handler's writes, loses exactly the inbound bytes its calls consume and gains none, and is closed exactly if the handler says so or a write fails for good; a handler's Shutdown is passed on |
| EventLoop.Loop.Read | eventloop.go:117-141 | EAGAIN changes nothing, EOF and errors close with a drain, data is served: the stream grows by the handler's writes, the handler's calls consume of what waits followed by the new bytes, and what they leave waits; a handler's Shutdown is passed on |
| EventLoop.Loop.Writable | connection_linux.go:34-38 | A writable event keeps the stream, makes an attempt if something is buffered, and closes exactly on an error other than EAGAIN |
| EventLoop.Chain | connection.go:144-209 | What one operation accounts for and what the next one does add up, also when the first closed the connection |
| EventLoopRuns.RunOn | connection.go:457-482 | One task for one connection does what the trace relation allows; a queued write, vectored write, wake or close for a closed connection leaves the loop and every object of the connection unchanged, without a system call |
| EventLoopRuns.RunTasks | eventloop.go:74-242 | Over every list of registrations, queued writes, vectored writes, wakes, closes, read and writable events: connCount, the size of the map and the number of open connections agree, the map holds exactly the open ones, and the run is a trace, so conservation and isolation hold of every connection |
| EventLoopRuns.Conservation | connection.go:144-245 | For every connection, trace and two moments: while open, sent followed by buffered grew by exactly the bytes that queued writes and handlers handed over, attended unless the poller refused and not watched without reason, and the inbound side is what the handlers' calls left; if closed, one task closed it because it asked to or a write failed for good, sent is a prefix of the bytes up to that task, all of them if no write failed in it, and nothing changed since |
| EventLoopRuns.InboundConservation | eventloop.go:117-141 | For every connection, trace and two moments at which it is open, with queued writes and wakes between the read events: the bytes consumed followed by inboundBuffer are the bytes that waited at first followed by those that arrived, unless a handler asked for a shutdown |
| EventLoopRuns.StaleTasksDoNothing | eventloop.go:234-237 | Whatever is still queued for a closed connection, no byte is sent, nothing is armed and no system call is made for it ever again, so a newer connection with its descriptor is not affected |
| EventLoopRuns.Birth | eventloop.go:88-115 | A new connection stays untouched until a registration under a descriptor not in use, which lists, greets or rejects it |
| Codec.Encode | codec.go:81-109 | Nothing exactly if a 1 to 3 byte field cannot hold the length; otherwise the length field in the configured byte order followed by the message |
| Codec.PutBytes | codec.go:165-175 | Writes the low bytes of the value in the given order and nothing else |
| Codec.FrameLengthIsValue | codec.go:143-163 | getFrameLength is the value of the field's bytes in the given order |
| Codec.Decode | codec.go:112-141 | On a connection: the first message if it is complete and below the cap, consuming exactly its frame; otherwise nil, consuming nothing; a field of width 0 panics exactly on fewer than four bytes |
| Codec.RoundTrip | codec.go:81-141 | A frame followed by anything decodes to its message if and only if the length fits the field (at most 4 bytes wide, or the message is empty) and the frame stays below 10485760 bytes |
| Codec.CarriedIsEncoded | codec.go:81-109 | Encode returns a frame for every message that RoundTrip says is carried |
| Codec.OverCapBlocks | codec.go:123-129 | A frame at or over the cap whose length is read right is never decoded, and neither is anything behind it, however much arrives |
| Codec.IncompleteConsumesNothing | codec.go:118-134 | Any proper prefix of a frame decodes to nothing and stays where it is |
| Codec.CutStream | codec.go:112-141 | A stream of frames cut off anywhere decodes to exactly the messages whose frames are complete, in order, and a proper part of the next frame waits |
| Codec.DrainInstalments | codec.go:112-141 | Decoding a stream in two instalments gives what decoding it at once gives, for every byte stream |
| Codec.ChunkingIsIrrelevant | codec.go:112-141 | However a stream is cut into read events, the same messages come out and the same bytes wait |
| Codec.EndToEnd | codec.go:81-141 | For any list of carried messages and any cut of their concatenated frames, decoding on each event returns exactly those messages in order, nothing left over |
| Codec.ServeEvents | eventloop.go:129-140 | On a real connection with ring buffer and read events: the messages and the leftover are those of decoding the whole stream at once |
| Codec.Receive | eventloop.go:129-140 | On a real connection, any cut of the frames of carried messages is received as exactly those messages |
| EndToEnd.Transfer | codec.go:81-141 | Sender to receiver: frames handed over in any mix of writes, any kernel answers, close at any point and any prefix delivered in any pieces; the receiver gets a prefix of the messages, namely those whose frames arrived in full, and all of them if everything arrived |
| Toolkit.CeilIsLeastPowerOfTwo | internal/toolkit/math.go:19-30 | The bit-filling code returns the least power of two from 2 on at or above n, for every n up to 2^62; the documented least power of two if and only if n is at least 2 |
| Toolkit.FloorIsGreatestPowerOfTwo | internal/toolkit/math.go:34-42 | A power of two not below any power of two at or below n, for every 64-bit n; itself at or below n, as documented, if and only if n is at least 2 |
| Toolkit.FillBitsFills | internal/toolkit/math.go:44-52 | Six shift-and-or lines turn any number of at most 64 bits into all ones of the same width |
| SlicePool.Pool.Get | pkg/pool/byteslice/byteslice.go:44-62 | A slice of the asked length that never reaches beyond its backing block, with the capacity of its class: either a new block with the buckets unchanged, or a cached one that leaves its bucket |
| SlicePool.Pool.Put | pkg/pool/byteslice/byteslice.go:65-76 | The pointer goes to the class i with 2^i <= cap < 2^(i+1), so every class keeps only blocks that are big enough |
| SlicePool.IndexIsSmallestClass | pkg/pool/byteslice/byteslice.go:78-80 | index(n) is the smallest class that holds n bytes |
| SlicePool.RunPool | pkg/pool/byteslice/byteslice.go:44-76 | Over every mix of Get, re-slicing and Put, each slice given back once: no live slice reaches beyond its block, no two live slices share a block, and none shares one with a bucket |

## Left out

- Sockets, address conversion, listeners, acceptors, clients, options, logging, load balancers and event-list resizing: plumbing or easy members.
- UDP, AddTCPConnector and engine shutdown signalling.
- The kqueue pollers and the `poll_opt` variant of the epoll poller.
- Liveness of the queue and of the poller under a scheduler that lets others move in between; completion is proved for a thread, and service for the poller, that moves alone.
- PollerWakeup.NoLostWakeup: assumes that no queue ever held 2^32 tasks, where the 32-bit length would wrap to 0.
- Outbound.Channel.Open: requires an empty outbound buffer; after writes made inside OnOpen the source's direct write would overtake them.
- EventLoop.Loop.Write: a handler that keeps a closed connection and writes to it directly gets an error here; if the descriptor is in use again, the source writes to its new owner. Queued writes are not affected.
- EventLoop.Loop.AsyncWrite: the callback that may follow a queued write is not modelled.
- EventLoop.Loop.Register: requires a new connection with a descriptor that no open connection uses, as the kernel guarantees, and a handler that does not write inside OnOpen; re-entry from OnClose is not modelled.
- Codec.Decode: negative widths of the length field are not modelled.
- Codec.Encode: encoder and decoder share one configuration.
- Ring.ChooseCap: does not model 63-bit overflow of the capacity; LeastPowerOfTwo stands for CeilToPowerOfTwo, which panics above 2^62.
- EventLoop.Loop.CloseConn: the errors of deleting and closing the descriptor are only reported by the source and not modelled.
- Inbound.Stream.Stow: buffer is left set, as in the source, so an OnTraffic made by wake sees the leftover twice; inbound conservation is stated for read events only.
- ReadFrom and WriteTo of all buffers and of the connection, and the ring's Rewind.
- Aliasing and lifetime of slices returned by Peek and Next, of pooled rings and of slices that are Put while still in use: data is modelled by value.
- SlicePool.Pool.Put: does not model that a slice is used after it was Put, or Put twice.
