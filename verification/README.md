# Graphite: a verified model of its master, transport and indexes

Graphite is a distributed simulator of multicore machines.  This project models, in Dafny, the parts
of it whose correctness is hardest to see, and proves what they promise.

| files | part of Graphite |
|---|---|
| `IntervalTree.dfy` | the interval index: an AVL tree with parent links and stored heights |
| `QueueHistory.dfy`, `QueueModelHistoryTree.dfy` | the contention model that books free time in that index |
| `Semaphore.dfy`, `RingBarrier.dfy`, `Mailbox.dfy`, `Framing.dfy` | the socket transport: futex semaphore, ring barrier, mailboxes, framing |
| `SyncObjects.dfy`, `FutexWords.dfy`, `Threads.dfy` | mutexes, condition variables, barriers, futex queues and words; the thread slots of a tile |
| `MasterControl.dfy` | the master control program as a step function over its messages |
| `McpInvariant.dfy`, `McpThreads.dfy`, `McpClients.dfy`, `McpRuns.dfy` | what every step keeps, clients included, and what holds over every run |
| `McpOrder.dfy`, `McpAnswers.dfy`, `McpReplies.dfy` | the order of grants, wake-ups and barrier answers, and who is answered with what, over every run |
| `McpObjects.dfy`, `McpHistory.dfy` | the numbers of new objects and threads, and what is kept of threads that have left, over every run |
| `Mcp.dfy` | the master as an object with handlers and loops, refining the step function |
| `BitVector.dfy` | the bit set with its sliced search |
| `Config.dfy`, `ConfigTree.dfy` | the configuration's text and tree |
| `Options.dfy` | a value that may be missing |
| `Partition.dfy` | tiles among processes, stack windows, heap and mapped blocks |

## How the model is made

- The interval tree is a class over node objects with the source's own fields.  A ghost map records
  every node's fields; the proofs about shape, order and balance are about that map, so they are
  about values.
- Concurrent code is a state machine: every access to a shared word or list is a step of its own, and
  theorems quantify over all runs.  FUTEX_WAIT compares with 0 and sleeps in one step, as futex(2)
  says, and may return for no reason; a socket send is one step.
- Each of the transport's sockets brings any sequence of fragments, empty ones for "nothing there yet".
- The master handles one message at a time, so a handler is one step.  The source's error stops are a
  flag `aborted`; a theorem says exactly which requests set it.  Handlers are written twice: as a
  function on the master's state, about which the run theorems speak, and as methods with the
  source's loops, proved to do what the function says; `Simulate` states the run theorems of the
  object itself.
- Clients are modelled with what they wait for and which mutexes they hold.  A reply that nobody
  waits for, or with another code than expected, breaks a client; no run breaks one (`McpAnswers.AlwaysAnswered`).
- A core keeps any number of thread slots, without yield and migration, which the source has switched
  off.  `resumed_tiles` of a barrier is a set of tiles.  A spawn may name tile 0 only while no slot
  there is idle, as is always so with one thread per core before the main thread leaves; it is then
  refused.
- Integers that wrap in the source wrap in the model where it matters: the interval tree's unsigned
  differences, packet lengths and tags, futex words, and the start of the dynamic segment.  A word of
  the application's memory that nobody has stored to is 0.

## Where the code does less than it says

- The interval search is first fit only if no interval touches its neighbour to the left below:
  `TreeShapes.FirstFitExactly` gives the exact condition.  The contention model keeps its intervals
  apart as long as requests take some time, so there the search is first fit.  A request for no time
  may leave two that touch (`QueueHistory.BookKeepsFree` has the exact condition); the callers ask
  for at least one unit (common/tile/memory_subsystem/performance_models/dram_perf_model.cc:92).
- A condition's waiter keeps a reference to its mutex whose assignment operator assigns nothing
  (common/misc/stable_iterator.h:19-22), so erasing the first waiter leaves the mutexes in place: a
  signal on waiters of different mutexes records the others with the wrong ones.  A broadcast erases
  nobody and serves any mixture.  In a run all records are right at every moment if and only if each
  signal met only waiters of one mutex (`McpRuns.WaitersRecordedExactly`); only the theorem about
  which mutexes clients hold, `McpRuns.ClientsServed`, is about such runs, all others about every run.
- The test of a join's thread id is against the size of the doubling table, not the ids issued
  (common/system/thread_manager.cc:452): an id that was not issued, but is inside the table, joins the
  main thread's slot, and an id stands for the thread it was issued to if and only if
  0 < id <= the number of ids issued (`McpRuns.JoinedAreAlive`; `McpHistory.TableSize` has the size).
- A message with an empty payload stops its receiver: all messages are recovered if and only if there
  is none (`Framing.AllRecovered`).
- Compare-and-requeue turns the queue, and counts past its end, when both futexes are the same one
  (`SyncObjects.RequeueCount`).
- The search for an idle slot leaves only its inner loop, so the highest slot index wins
  (`McpThreads.PickIdleOk`).
- A key name with a backslash, but no space or quote, is not read back as it was
  (`ConfigText.NameRoundTrip`), nor is a section whose name has a slash (`ConfigText.PathRoundTrip`);
  every other tree is (`ConfigTree.SaveAndLoad`).
- The lookup of a thread by its stack pointer does not take the process's lower limit off
  (pin/pin_config.cc:105): it is right only where that limit, counted in thread's stacks, vanishes
  (`Partition.ThreadMapsBack` has the exact condition).
- The check of `mmap` lets a length through that is greater than the start of the dynamic segment
  (`Partition.MmapFits`).

## Model

| member | source | states |
|---|---|---|
| `IntervalTrees.IntervalTree.UpdateParentPointer` | mit-carbon-Graphite-baecdec/common/misc/interval_tree.cc:80-87 | sets one node's parent link, and the root when there is no parent; no other field changes |
| `IntervalTrees.IntervalTree.UpdateChildPointer` | mit-carbon-Graphite-baecdec/common/misc/interval_tree.cc:50-78 | replaces one child link of a node and nothing else |
| `IntervalTrees.IntervalTree.PerformRotation` | mit-carbon-Graphite-baecdec/common/misc/interval_tree.cc:109-145 | a rotation keeps the nodes in order, links parents and children consistently, leaves both stored heights exact and the rest of the tree as it was |
| `IntervalTrees.IntervalTree.BalanceHeight` | mit-carbon-Graphite-baecdec/common/misc/interval_tree.cc:147-207 | a node whose sides differ by two, over balanced sides, becomes a balanced subtree with the same nodes in the same order, by one or two rotations |
| `IntervalTrees.IntervalTree.RebalanceAVLTree` | mit-carbon-Graphite-baecdec/common/misc/interval_tree.cc:209-242 | climbing until a stored height does not change leaves the whole tree balanced with every stored height exact and all nodes in order |
| `TreeShapes.LeftHeavyIsAvl` | mit-carbon-Graphite-baecdec/common/misc/interval_tree.cc:147-207 | which rotations make a left-heavy subtree balanced, and the height they give |
| `TreeShapes.RightHeavyIsAvl` | mit-carbon-Graphite-baecdec/common/misc/interval_tree.cc:147-207 | the same for a right-heavy subtree |
| `TreeShapes.RotatedInorder` | mit-carbon-Graphite-baecdec/common/misc/interval_tree.cc:109-145 | a rotation does not change the order of the nodes |
| `TreeShapes.SettledHeight` | mit-carbon-Graphite-baecdec/common/misc/interval_tree.cc:209-242 | where a height does not change, nothing above it is out of balance: the early stop is sound |
| `IntervalTrees.IntervalTree.FindMinKeyNode` | mit-carbon-Graphite-baecdec/common/misc/interval_tree.cc:256-263 | finds the first node in order of a subtree |
| `IntervalTrees.IntervalTree.Swap` | mit-carbon-Graphite-baecdec/common/misc/interval_tree.cc:244-254 | two nodes exchange key and interval |
| `IntervalTrees.IntervalTree.InsertInTree` | mit-carbon-Graphite-baecdec/common/misc/interval_tree.cc:273-309 | descends by key and hangs the node as a leaf at its place in the order, or reports an equal key and changes nothing |
| `IntervalTrees.IntervalTree.Insert` | mit-carbon-Graphite-baecdec/common/misc/interval_tree.cc:265-271 | the tree stays a balanced search tree with exact heights and consistent links, its entries are the old ones with the new one spliced in at one place, and the size grows by one; fails exactly on an equal key |
| `IntervalTrees.IntervalTree.RemoveFromTree` | mit-carbon-Graphite-baecdec/common/misc/interval_tree.cc:319-356 | takes a node out, by swapping with its successor when it has two children; the tree stays balanced and ordered without that entry |
| `IntervalTrees.IntervalTree.Remove` | mit-carbon-Graphite-baecdec/common/misc/interval_tree.cc:311-317 | the entries are the old ones without exactly the removed one, which the returned node carries, and the size shrinks by one |
| `IntervalTrees.IntervalTree.Search` | mit-carbon-Graphite-baecdec/common/misc/interval_tree.cc:358-363 | the search returns what the recursive descent computes, and changes nothing |
| `TreeShapes.SearchIsFirstFit` | mit-carbon-Graphite-baecdec/common/misc/interval_tree.cc:365-394 | on strictly separated intervals the descent, which skips parts of the tree, returns the first node in key order that can host the request, and none exactly when none can |
| `TreeShapes.FirstFitExactly` | mit-carbon-Graphite-baecdec/common/misc/interval_tree.cc:365-394 | for intervals that do not overlap, the search is first fit on every request if and only if no interval touches one that ends to the left below it |
| `TreeShapes.TouchingIsMissed` | mit-carbon-Graphite-baecdec/common/misc/interval_tree.cc:365-394 | where two intervals touch, a request on which the search is not first fit |
| `QueueModels.QueueModelHistoryTree.constructor` | mit-carbon-Graphite-baecdec/common/shared_models/queue_models/queue_model_history_tree.cc:12-33 | all time is free, one block is in the tree and the others in the pool |
| `QueueModels.QueueModelHistoryTree.AllocateNode` | mit-carbon-Graphite-baecdec/common/shared_models/queue_models/queue_model_history_tree.cc:145-158 | takes the last free block and initialises it |
| `QueueModels.QueueModelHistoryTree.BookIn` | mit-carbon-Graphite-baecdec/common/shared_models/queue_models/queue_model_history_tree.cc:72-107 | booking a request in an interval leaves of it what the five cases say, as one change of the list of free intervals, and returns the delay to its start |
| `QueueModels.QueueModelHistoryTree.Split` | mit-carbon-Graphite-baecdec/common/shared_models/queue_models/queue_model_history_tree.cc:77-84 | booking the middle of an interval puts a new block right after it and shortens it; no block is lost |
| `QueueModels.QueueModelHistoryTree.Prune` | mit-carbon-Graphite-baecdec/common/shared_models/queue_models/queue_model_history_tree.cc:49-55 | drops exactly the earliest interval when the tree has reached its limit, and nothing before |
| `QueueModels.QueueModelHistoryTree.BookFirstFit` | mit-carbon-Graphite-baecdec/common/shared_models/queue_models/queue_model_history_tree.cc:57-107 | books the request in the first interval in key order that can host it, found by the tree's search, or reports that none can and changes nothing |
| `QueueModels.QueueModelHistoryTree.ComputeQueueDelay` | mit-carbon-Graphite-baecdec/common/shared_models/queue_models/queue_model_history_tree.cc:42-121 | over tree and block pool, serves a request of any length exactly as the list of free intervals would by first fit, keeps the tree in order and the blocks conserved, and keeps the intervals apart unless it books no time at all |
| `QueueHistory.BookKeepsFree` | mit-carbon-Graphite-baecdec/common/shared_models/queue_models/queue_model_history_tree.cc:72-107 | a booking leaves the free intervals in order, long enough and strictly apart if and only if it takes some time or does not split the interval |
| `QueueHistory.NoTimeTouches` | mit-carbon-Graphite-baecdec/common/shared_models/queue_models/queue_model_history_tree.cc:77-84 | a request for no time inside a free interval leaves two intervals that touch |
| `QueueHistory.ServeKeepsFree` | mit-carbon-Graphite-baecdec/common/shared_models/queue_models/queue_model_history_tree.cc:42-121 | a request that takes some time, or books nothing, leaves the free intervals strictly apart, which is what the tree's search needs |
| `QueueHistory.BookedIsEarliest` | mit-carbon-Graphite-baecdec/common/shared_models/queue_models/queue_model_history_tree.cc:42-121 | a booking starts at the earliest time at or after the request that has room among the free intervals, or, when the list has grown to its limit, among all but the earliest of them |
| `QueueHistory.BookedTime` | mit-carbon-Graphite-baecdec/common/shared_models/queue_models/queue_model_history_tree.cc:72-107 | after a booking exactly that time is free which was free elsewhere, and of the booked interval what lies outside the window in a part no shorter than the least length |
| `QueueHistory.BookingsDisjoint` | mit-carbon-Graphite-baecdec/common/shared_models/queue_models/queue_model_history_tree.cc:42-121 | over any run of requests that take some time no two booked windows overlap |
| `QueueHistory.NeverOutOfRoom` | mit-carbon-Graphite-baecdec/common/shared_models/queue_models/queue_model_history_tree.cc:62-70 | over any run whose requests fit one behind the other after the start of the last free interval, the search never fails |
| `QueueHistory.OutcomeExactly` | mit-carbon-Graphite-baecdec/common/shared_models/queue_models/queue_model_history_tree.cc:49-107 | which of the three things happens to a request, and exactly when: left to the analytical model, booked, or without room, judged from all free intervals or from all but the earliest at the limit |
| `QueueHistory.UnbookedStay` | mit-carbon-Graphite-baecdec/common/shared_models/queue_models/queue_model_history_tree.cc:49-70 | a request that books nothing changes no interval, except for the earliest one dropped at the limit |
| `Semaphores.StepInv` | mit-carbon-Graphite-baecdec/common/misc/semaphore.cc:19-67 | every step of every thread keeps the link between count, waiting counter, futex word and the threads' positions |
| `Semaphores.NoLostWakeup` | mit-carbon-Graphite-baecdec/common/misc/semaphore.cc:19-67 | in every interleaving count = initial + signals + broadcasts - completed waits >= 0 and the waiting counter is exact; a sleeper implies that the count is at most the number of threads awake to take a unit or about to wake one; a count beyond the signals that have not set the word yet keeps a thread about to sleep awake; while the lock is free the former are the woken threads and the latter are none |
| `Semaphores.CallsCounted` | mit-carbon-Graphite-baecdec/common/misc/semaphore.cc:19-67 | in every interleaving each wait called has taken a unit or is still under way, and each signal and broadcast called has added one unit or is still under way |
| `Semaphores.RestIsServed` | mit-carbon-Graphite-baecdec/common/misc/semaphore.cc:19-67 | when no thread can move by itself, the lock is free, all threads are idle or asleep, and nobody sleeps beside a unit |
| `Semaphores.MoveDescends` | mit-carbon-Graphite-baecdec/common/misc/semaphore.cc:19-67 | each move of a thread that has called brings the system nearer to rest, in a well-founded order |
| `Semaphores.Settles` | mit-carbon-Graphite-baecdec/common/misc/semaphore.cc:19-67 | left alone, the threads come to rest, and then nobody sleeps while the count is positive |
| `Semaphores.ServedAtRest` | mit-carbon-Graphite-baecdec/common/misc/semaphore.cc:19-67 | when the threads have come to rest, exactly as many waits have returned as were called or as there were units, whichever is less, and the other callers sleep |
| `RingBarrier.StepInv` | mit-carbon-Graphite-baecdec/common/transport/socktransport.cc:287-317 | on every edge of the ring, messages under way plus units equal sends minus waits |
| `RingBarrier.NobodyLeavesEarly` | mit-carbon-Graphite-baecdec/common/transport/socktransport.cc:287-317 | for any number of processes and rounds, in every interleaving no process has left more rounds than any other has entered |
| `RingBarrier.NoDeadlock` | mit-carbon-Graphite-baecdec/common/transport/socktransport.cc:287-317 | once all have entered a round, some step is enabled until all have left it |
| `RingBarrier.StepDescends` | mit-carbon-Graphite-baecdec/common/transport/socktransport.cc:196-201 | every step other than a new entry lowers the work left |
| `RingBarrier.NothingLeftOver` | mit-carbon-Graphite-baecdec/common/transport/socktransport.cc:287-317 | when all have left the same round, no message and no unit is left |
| `RingBarrier.CallsCounted` | mit-carbon-Graphite-baecdec/common/transport/socktransport.cc:287-317 | in every interleaving each call of the barrier is a round entered |
| `RingBarrier.ReturnedAtRest` | mit-carbon-Graphite-baecdec/common/transport/socktransport.cc:287-317 | when nothing can go on, every process has returned from exactly as many calls as the process that called least often has made |
| `Mailboxes.NeverEmpty` | mit-carbon-Graphite-baecdec/common/transport/socktransport.cc:351-364 | the check for an empty list after waiting never fails |
| `Mailboxes.MailInOrder` | mit-carbon-Graphite-baecdec/common/transport/socktransport.cc:218-234 | in every interleaving list length = units + receivers not yet served + inserters not yet signalled, and messages leave in the order in which they went in |
| `Mailboxes.NobodyWaitsBesideMail` | mit-carbon-Graphite-baecdec/common/transport/socktransport.cc:351-385 | when no thread can go on, a receiver still waits only if every message has been received |
| `Mailboxes.CallsCounted` | mit-carbon-Graphite-baecdec/common/transport/socktransport.cc:218-234 | in every interleaving each message that a call inserts is in the list's history or still in hand, and each receive called has its message or is still under way |
| `Mailboxes.ServedAtRest` | mit-carbon-Graphite-baecdec/common/transport/socktransport.cc:218-385 | when no thread can go on, all messages given have gone in, and as many have come out, the first in order, as there were messages or receives, whichever is less |
| `Framing.Socket.Recv` | mit-carbon-Graphite-baecdec/common/transport/socktransport.cc:574-608 | whatever the fragments, a receive returns exactly the next bytes of the stream, or nothing, or does not return because too few come or none were asked for |
| `Framing.Socket.RecvMessage` | mit-carbon-Graphite-baecdec/common/transport/socktransport.cc:149-186 | takes exactly the first message off the stream, or finds none, or blocks because the stream holds no whole message with a payload |
| `Framing.SockTransport.ReceiveFrom` | mit-carbon-Graphite-baecdec/common/transport/socktransport.cc:153-205 | takes in one process's messages until none is there; what each list got and what is left of each stream still make up the streams |
| `Framing.SockTransport.UpdateBufferLists` | mit-carbon-Graphite-baecdec/common/transport/socktransport.cc:149-216 | a turn over the sockets of all processes keeps that, and takes something in if anything had come |
| `Framing.SockTransport.UpdateThread` | mit-carbon-Graphite-baecdec/common/transport/socktransport.cc:132-147 | for every fragmentation and timing on all sockets the lists get an interleaving of the messages of all streams; the thread runs on, and then has taken all, if and only if every message of every stream is in place, unless a stream holds something other than whole messages with a payload; it does not fail if the others are its own stop messages |
| `Framing.EncodeParts` | mit-carbon-Graphite-baecdec/common/transport/socktransport.cc:401-455 | a packet's length, tag and payload can be read off the bytes behind any prefix |
| `Framing.ParseStream` | mit-carbon-Graphite-baecdec/common/transport/socktransport.cc:149-216 | of a stream of messages the receiver gets all before the first empty payload |
| `Framing.AllRecovered` | mit-carbon-Graphite-baecdec/common/transport/socktransport.cc:149-216 | all messages are recovered if and only if no payload is empty |
| `Framing.NothingRemains` | mit-carbon-Graphite-baecdec/common/transport/socktransport.cc:401-455 | a stream of whole messages with a payload never blocks its receiver |
| `Framing.PartParsed` | mit-carbon-Graphite-baecdec/common/transport/socktransport.cc:149-216 | while only part of the stream has come, what was received is a prefix of what was sent |
| `Framing.EachGetsItsOwn` | mit-carbon-Graphite-baecdec/common/transport/socktransport.cc:188-234 | of the messages before the first that is not in place each list gets exactly the payloads with its tag in order, the last list those with the global tag, and each barrier message becomes one unit; nothing behind is delivered |
| `Framing.RunsExactly` | mit-carbon-Graphite-baecdec/common/transport/socktransport.cc:153-227 | the thread runs on if and only if every message is a barrier message from the process whose successor it is, or for one of its lists; it is told to stop if and only if the first other one is its own stop message, and fails otherwise |
| `SyncObjects.MutexFifo` | mit-carbon-Graphite-baecdec/common/system/sync_server.cc:27-57 | over any sequence of locks and unlocks, ownership is granted in the order of the requests, no waiter lost or repeated |
| `SyncObjects.ClaimsMove` | mit-carbon-Graphite-baecdec/common/system/sync_server.cc:27-57 | locking goes to the end of the line of owner and waiters, unlocking takes its first away |
| `SyncObjects.SignalledInOrder` | mit-carbon-Graphite-baecdec/common/system/sync_server.cc:76-100 | signals wake in order of arrival, but every woken waiter locks the mutex recorded at the front |
| `SyncObjects.RelocksItsOwn` | mit-carbon-Graphite-baecdec/common/system/sync_server.cc:76-100 | if a list of waiters is signalled empty, every waiter gets back the mutex it gave up if and only if all gave up the same one |
| `SyncObjects.RelocksAnother` | mit-carbon-Graphite-baecdec/common/system/sync_server.cc:76-100 | two waiters with different mutexes: the second is given the first one's |
| `SyncObjects.BarrierBatches` | mit-carbon-Graphite-baecdec/common/system/sync_server.cc:133-165 | a barrier of count n releases its callers only in batches of n consecutive arrivals, each with the batch's latest time, over any number of reuses |
| `SyncObjects.LatestIsMaximum` | mit-carbon-Graphite-baecdec/common/system/sync_server.cc:141-144 | the recorded time is the maximum of the batch's arrival times |
| `SyncObjects.RequeueMoves` | mit-carbon-Graphite-baecdec/common/system/syscall_server.cc:1089-1103 | requeueing moves the first min(n, length) waiters to the end of the other queue in order and leaves all others |
| `SyncObjects.RequeueTurns` | mit-carbon-Graphite-baecdec/common/system/syscall_server.cc:1089-1103 | requeueing onto the same futex turns the queue by that many places, counts past its end, and leaves all other queues |
| `SyncObjects.TurnedIs` | mit-carbon-Graphite-baecdec/common/system/syscall_server.cc:1089-1103 | turned by at most its length, a queue is its rest followed by its first part, in order |
| `SyncObjects.TurnedRound` | mit-carbon-Graphite-baecdec/common/system/syscall_server.cc:1089-1103 | a whole turn changes nothing |
| `SyncObjects.RequeueConserves` | mit-carbon-Graphite-baecdec/common/system/syscall_server.cc:1058-1111 | wake and requeue conserve the waiters in order and return how many were woken and moved |
| `SyncObjects.RequeueCount` | mit-carbon-Graphite-baecdec/common/system/syscall_server.cc:1058-1111 | the number returned is woken plus movable waiters if and only if the futexes differ, no waiter is left, or the queue is not turned past its end |
| `FutexWords.OperationsDecoded` | mit-carbon-Graphite-baecdec/common/system/syscall_server.cc:948-1040 | the new value and the comparison of a wake-op are what its encoded fields say: set, add modulo 2^32, or, and-not and xor bit by bit, and the six signed comparisons; exactly other codes are refused |
| `FutexWords.EveryWordEncodes` | mit-carbon-Graphite-baecdec/common/system/syscall_server.cc:950-953 | every 32-bit word encodes exactly one choice of operation, comparison and arguments |
| `Threads.IsCoreRunning` | mit-carbon-Graphite-baecdec/common/system/thread_manager.cc:991-1007 | returns the first running slot and tells whether there is a second |
| `Threads.GetIdleThread` | mit-carbon-Graphite-baecdec/common/system/thread_manager.cc:751-777 | returns the first idle slot or -1 |
| `Threads.RunningIsFirst` | mit-carbon-Graphite-baecdec/common/system/thread_manager.cc:991-1007 | in a tile in order at most one thread runs, the first in line, and the scan finds it |
| `Threads.StallOk` | mit-carbon-Graphite-baecdec/common/system/thread_manager.cc:779-809 | stalling the running thread keeps the tile in order and records it as stalled last |
| `Threads.ResumeOk` | mit-carbon-Graphite-baecdec/common/system/thread_manager.cc:811-838 | resuming the thread stalled last resumes the first in line |
| `Threads.ScheduleOk` | mit-carbon-Graphite-baecdec/common/system/thread_scheduler.cc:147-203 | a spawned thread takes its idle slot and the end of the line |
| `Threads.StartableIffEmpty` | mit-carbon-Graphite-baecdec/common/system/thread_scheduler.cc:173-182 | a core is free to start a thread exactly when its line is empty |
| `Threads.FinishOk` | mit-carbon-Graphite-baecdec/common/system/thread_scheduler.cc:102-145 | when the running thread leaves, the line loses its first, the slot is free and the next in line is new |
| `McpInvariant.BlockOk` | mit-carbon-Graphite-baecdec/common/system/sync_server.cc:27-40 | stalling a running thread and putting its core in a queue keeps every stalled core in exactly one place |
| `McpInvariant.UnblockOk` | mit-carbon-Graphite-baecdec/common/system/sync_server.cc:42-57 | taking a queue's first core out and resuming it does too |
| `McpInvariant.LockMutexOk` | mit-carbon-Graphite-baecdec/common/system/sync_server.cc:27-40 | locking grants at once or queues, and keeps the master's invariant |
| `McpInvariant.UnlockMutexOk` | mit-carbon-Graphite-baecdec/common/system/sync_server.cc:42-57 | unlocking passes the mutex to the first waiter, who was stalled there, and keeps the invariant |
| `McpInvariant.CondWaitOk` | mit-carbon-Graphite-baecdec/common/system/sync_server.cc:67-74 | a wait moves the core to the condition's list and passes the mutex on |
| `McpInvariant.SignalOk` | mit-carbon-Graphite-baecdec/common/system/sync_server.cc:76-100 | a signal moves the first waiter to owner or to the queue of the recorded mutex |
| `McpInvariant.BroadcastOk` | mit-carbon-Graphite-baecdec/common/system/sync_server.cc:102-119 | a broadcast does so for all waiters |
| `McpInvariant.BarrierWaitOk` | mit-carbon-Graphite-baecdec/common/system/sync_server.cc:133-165 | an arrival waits, or releases exactly the batch |
| `McpInvariant.WakeUpOk` | mit-carbon-Graphite-baecdec/common/system/syscall_server.cc:1113-1136 | a futex wake takes cores only from that futex's queue |
| `McpInvariant.MoveWaitersOk` | mit-carbon-Graphite-baecdec/common/system/syscall_server.cc:1089-1103 | requeueing keeps the same cores stalled |
| `McpThreads.StartThreadOk` | mit-carbon-Graphite-baecdec/common/system/thread_manager.cc:139-145 | the start report of a thread told to start keeps the invariant |
| `McpThreads.PickIdleOk` | mit-carbon-Graphite-baecdec/common/system/thread_manager.cc:293-313 | the search for a slot succeeds exactly when a tile other than 0 has an idle slot, and takes the highest slot index with one |
| `McpThreads.IdleAfterFirst` | mit-carbon-Graphite-baecdec/common/system/thread_manager.cc:299-312 | of the tiles with that slot idle the first in turn after the requester is taken |
| `McpThreads.PickSlotExactly` | mit-carbon-Graphite-baecdec/common/system/thread_manager.cc:293-320 | a slot is found if and only if the tile asked for, or, if none is, some tile other than 0, has an idle one; it is the first idle slot of that tile, or the one the search describes |
| `McpThreads.NewThreadIdOk` | mit-carbon-Graphite-baecdec/common/system/thread_manager.cc:594-618 | the id table, doubled when it is full, always has room for the next id and keeps the other entries |
| `McpThreads.SpawnOk` | mit-carbon-Graphite-baecdec/common/system/thread_manager.cc:278-338 | a spawn keeps the invariant |
| `McpThreads.ExitOk` | mit-carbon-Graphite-baecdec/common/system/thread_manager.cc:192-213 | an exit frees the slot, wakes whoever joins, starts the next in line, and keeps the invariant |
| `McpThreads.JoinOk` | mit-carbon-Graphite-baecdec/common/system/thread_manager.cc:446-481 | a join waits while the thread is in use and is answered at once when its slot is idle |
| `McpClients.LockClients` | mit-carbon-Graphite-baecdec/common/system/sync_client.cc:48-91 | a lock request is answered exactly when the client becomes owner, with the code it expects |
| `McpClients.UnlockClients` | mit-carbon-Graphite-baecdec/common/system/sync_client.cc:93-118 | an unlock is answered, and so is the next owner |
| `McpClients.CondWaitClients` | mit-carbon-Graphite-baecdec/common/system/sync_client.cc:143-186 | a wait gives the mutex up and is answered only when the client owns it again; the other waiters may have given up other mutexes |
| `McpClients.EraseExactly` | mit-carbon-Graphite-baecdec/common/system/sync_server.cc:76-100 | after a signal the waiters left are recorded with the mutexes they gave up if and only if all waiters gave up the same one |
| `McpClients.SignalClients` | mit-carbon-Graphite-baecdec/common/system/sync_server.cc:281-312 | a signal on waiters of one mutex answers the woken one only if it owns its mutex at once |
| `McpClients.BroadcastClients` | mit-carbon-Graphite-baecdec/common/system/sync_server.cc:314-344 | a broadcast answers exactly the waiters that own their mutex |
| `McpClients.BroadcastInOrder` | mit-carbon-Graphite-baecdec/common/system/sync_server.cc:102-119 | a broadcast appends to each mutex's line exactly the waiters recorded with it, in their order |
| `McpClients.GrantsCarryTime` | mit-carbon-Graphite-baecdec/common/system/sync_server.cc:185-344 | every grant of a mutex carries the time of the request that caused it |
| `McpClients.BarrierWaitClients` | mit-carbon-Graphite-baecdec/common/system/sync_client.cc:265-318 | a full barrier answers every client of the batch |
| `McpClients.BarrierReplies` | mit-carbon-Graphite-baecdec/common/system/sync_server.cc:357-383 | the last arrival answers the whole batch in order of arrival with its latest time, an earlier one nobody |
| `McpClients.WakeUpIsWake` | mit-carbon-Graphite-baecdec/common/system/syscall_server.cc:1113-1136 | waking one by one is waking the first min(n, length) of the queue |
| `McpClients.CmpRequeueConserves` | mit-carbon-Graphite-baecdec/common/system/syscall_server.cc:1058-1111 | compare-and-requeue is refused with EWOULDBLOCK and changes nothing if and only if the word is another than expected; otherwise it answers the first waiters, moves the next ones behind those of the other futex in order, or turns what is left if it is the same futex, leaves all others and returns how many it woke and moved |
| `McpClients.FutexWakeConserves` | mit-carbon-Graphite-baecdec/common/system/syscall_server.cc:935-946 | a wake answers the first waiters in order, leaves all others and returns how many it woke |
| `McpClients.WakeOpConserves` | mit-carbon-Graphite-baecdec/common/system/syscall_server.cc:948-1056 | for every encoded operation wake-op changes the word as the operation says and no other, wakes the first waiters of the first futex, and exactly when the comparison holds of the old word those then first at the second, which may be the same one, leaves all others in order and returns how many it woke; an unknown operation or comparison is refused |
| `McpClients.FutexWaitExactly` | mit-carbon-Graphite-baecdec/common/system/syscall_server.cc:873-903 | a wait is refused with EWOULDBLOCK if and only if the word is another than expected, and otherwise goes to the end of the queue unanswered |
| `McpClients.FutexWaitClients` | mit-carbon-Graphite-baecdec/common/system/syscall_server.cc:873-903 | a futex wait sleeps exactly when the word has the expected value |
| `McpRuns.SpawnClients` | mit-carbon-Graphite-baecdec/common/system/thread_manager.cc:397-417 | a spawn is answered with the new thread's slot and id |
| `McpRuns.SpawnGoes` | mit-carbon-Graphite-baecdec/common/system/thread_manager.cc:278-338 | an accepted spawn is answered once, with the next id and the slot that was asked for or that the search describes, and the id stands for that slot from then on |
| `McpRuns.ExitReplies` | mit-carbon-Graphite-baecdec/common/system/thread_manager.cc:192-213 | an exit tells whoever joins the thread the time of the exit, and the core the thread next in its line, or -1 |
| `McpRuns.JoinFrame` | mit-carbon-Graphite-baecdec/common/system/thread_manager.cc:473-480 | a join of a thread that has left is answered at once with the time at which its slot was left |
| `McpRuns.ExitClients` | mit-carbon-Graphite-baecdec/common/system/thread_manager.cc:192-213 | an exit answers the joiner, whose thread has left, and the core |
| `McpRuns.JoinerTold` | mit-carbon-Graphite-baecdec/common/system/thread_manager.cc:483-516 | whoever joins an issued thread is told only after that thread has left |
| `McpRuns.JoinClients` | mit-carbon-Graphite-baecdec/common/system/thread_manager.cc:446-481 | an accepted join waits or is answered at once, and then the thread has left |
| `McpRuns.ServerStepOk` | mit-carbon-Graphite-baecdec/common/system/mcp.cc:37-158 | every message the master accepts keeps its invariant |
| `McpRuns.AbortsIffRefused` | mit-carbon-Graphite-baecdec/common/system/mcp.cc:37-158 | the master stops with an error exactly on requests with bad indices, a release by a non-owner, a barrier of count 0, an unknown futex operation, a spawn without an idle slot, or a join of an id beyond the table or of a slot somebody joins already; no other check of it ever fails |
| `McpRuns.StepKeepsIds` | mit-carbon-Graphite-baecdec/common/system/thread_manager.cc:594-618 | an issued id stays the id of the slot its thread was spawned on |
| `McpRuns.ServerRunOk` | mit-carbon-Graphite-baecdec/common/system/mcp.cc:37-158 | the invariant holds and issued ids stay over any run |
| `McpRuns.StalledIffWaiting` | mit-carbon-Graphite-baecdec/common/system/sync_server.cc:27-165 | in every reachable state a thread is STALLED exactly when its core is in exactly one wait place, once, and a RUNNING thread's core is in none |
| `McpRuns.CoresInLine` | mit-carbon-Graphite-baecdec/common/system/thread_scheduler.cc:102-242 | in every reachable state a core's queue lists exactly its slots in use, only the first may run or be stalled, a stalled first is the one stalled last, and no two threads of a core run |
| `McpRuns.JoinedAreAlive` | mit-carbon-Graphite-baecdec/common/system/thread_manager.cc:446-516 | in every reachable state a joined slot is in use, issued ids are in range, an unexited thread's slot carries its id, and an id in the table that was not issued stands for the main thread's slot |
| `McpRuns.NobodyForgotten` | mit-carbon-Graphite-baecdec/common/system/sync_server.cc:42-165 | in every reachable state a mutex with waiters has an owner and no full barrier keeps anybody |
| `McpRuns.StepOk` | mit-carbon-Graphite-baecdec/common/system/sync_client.cc:48-318 | every accepted request of a client keeps clients and master in step |
| `McpRuns.SignalSpoils` | mit-carbon-Graphite-baecdec/common/system/sync_server.cc:281-312 | a signal that leaves the other waiters' records right met only waiters of one mutex |
| `McpRuns.WaitersRecordedExactly` | mit-carbon-Graphite-baecdec/common/system/sync_server.cc:76-119 | in any run all waiters are at every moment recorded with the mutexes they gave up if and only if every signal met only waiters of one mutex |
| `McpRuns.ClientsServed` | mit-carbon-Graphite-baecdec/common/system/sync_client.cc:48-318 | in every run whose signals meet only waiters of one mutex no client gets a reply it does not wait for or does not expect, the blocked clients are those that wait somewhere for what they asked, and a client holds a mutex from grant to release exactly while it is the recorded owner |
| `McpAnswers.AlwaysAnswered` | mit-carbon-Graphite-baecdec/common/system/sync_client.cc:48-318 | in every run, whatever its signals, no client gets a reply it does not wait for or with a code it does not expect, and the blocked clients are exactly those that wait in a queue |
| `McpReplies.AnsweredInTurn` | mit-carbon-Graphite-baecdec/common/system/sync_client.cc:48-318 | in every run the replies to a core answer its requests one by one, each once and with the code or result that fits; only a core that waits in a queue has asked once more than it has been told |
| `McpReplies.AcksComeLast` | mit-carbon-Graphite-baecdec/common/system/sync_server.cc:211-344 | the answer to an unlock, signal or broadcast comes last and without a time, after grants with the time of the request |
| `McpReplies.WokenGetZero` | mit-carbon-Graphite-baecdec/common/system/syscall_server.cc:1113-1136 | whoever a futex call wakes gets the result 0, and the caller its number last |
| `McpOrder.StepLawful` | mit-carbon-Graphite-baecdec/common/system/sync_server.cc:185-383 | every accepted request does to each mutex the operations it stands for, grants as they grant, tells exactly the new owners, and takes waiters and arrivals in order |
| `McpOrder.MutexesInOrder` | mit-carbon-Graphite-baecdec/common/system/sync_server.cc:27-119 | in every run each mutex is granted in the order in which lock requests and woken waiters claimed it, no claim lost or repeated, and the replies that tell owners are exactly the grants in their order |
| `McpOrder.ConditionsInOrder` | mit-carbon-Graphite-baecdec/common/system/sync_server.cc:67-119 | in every run the waiters of a condition are woken in the order in which they came, each once |
| `McpOrder.BarriersInBatches` | mit-carbon-Graphite-baecdec/common/system/sync_server.cc:133-165 | in every run a barrier of count n answers the run's arrivals only in whole batches of n consecutive ones, in order, each once, all with the latest time of the batch |
| `McpObjects.ObjectsNumbered` | mit-carbon-Graphite-baecdec/common/system/sync_server.cc:177-355 | in every run the k-th init of a mutex, condition or barrier is answered exactly once, with k counted from 0; there are as many objects as inits, and barriers have the counts asked for |
| `McpObjects.NumbersApart` | mit-carbon-Graphite-baecdec/common/system/sync_server.cc:177-355 | no two inits of one kind are answered alike |
| `McpObjects.NewObject` | mit-carbon-Graphite-baecdec/common/system/sync_server.cc:177-355 | a new object is free, with nobody waiting and the count asked for, and nothing else changes |
| `McpObjects.NumbersToMakers` | mit-carbon-Graphite-baecdec/common/system/sync_server.cc:177-355 | over any run the replies with an index are exactly the answers to inits |
| `McpHistory.SpawnsNumbered` | mit-carbon-Graphite-baecdec/common/system/thread_manager.cc:594-618 | in every run the n-th spawn is answered exactly once, with the id n and the slot that id stands for |
| `McpHistory.TableSize` | mit-carbon-Graphite-baecdec/common/system/thread_manager.cc:594-605 | in every run the id table has the least power of two above the number of spawns as its size |
| `McpHistory.ExitsRecorded` | mit-carbon-Graphite-baecdec/common/system/thread_manager.cc:192-213 | in every run each slot's recorded time, with which a later join is answered, is that of the last exit from it, and exactly the ids of threads that left are recorded as left |
| `McpProgram.Mcp.constructor` | mit-carbon-Graphite-baecdec/common/system/thread_manager.cc:20-70 | a new master is in the state from which the runs of the theorems start |
| `McpProgram.Mcp.HandleMutexLock` | mit-carbon-Graphite-baecdec/common/system/sync_server.cc:185-209 | tables, thread states and replies change as in the lock step |
| `McpProgram.Mcp.HandleMutexUnlock` | mit-carbon-Graphite-baecdec/common/system/sync_server.cc:211-240 | as in the unlock step |
| `McpProgram.Mcp.HandleCondWait` | mit-carbon-Graphite-baecdec/common/system/sync_server.cc:251-278 | as in the wait step |
| `McpProgram.Mcp.EraseFirst` | mit-carbon-Graphite-baecdec/common/system/sync_server.cc:81-82 | erasing a waiter shifts cores and times but not the mutex references |
| `McpProgram.Mcp.HandleCondSignal` | mit-carbon-Graphite-baecdec/common/system/sync_server.cc:281-312 | as in the signal step |
| `McpProgram.Mcp.Broadcast` | mit-carbon-Graphite-baecdec/common/system/sync_server.cc:102-119 | the loop over the waiters wakes them as the recursive specification does |
| `McpProgram.Mcp.HandleCondBroadcast` | mit-carbon-Graphite-baecdec/common/system/sync_server.cc:314-344 | as in the broadcast step: the waiters woken by the loop, and a reply to each new owner |
| `McpProgram.Mcp.ResumeOnce` | mit-carbon-Graphite-baecdec/common/system/sync_server.cc:149-161 | resuming each tile once is resuming every entry of the list |
| `McpProgram.Mcp.HandleBarrierWait` | mit-carbon-Graphite-baecdec/common/system/sync_server.cc:357-383 | as in the arrival step: each tile resumed once, a reply to each core of the batch |
| `McpProgram.Mcp.FutexWakeLoop` | mit-carbon-Graphite-baecdec/common/system/syscall_server.cc:1113-1136 | the wake loop wakes, counts and answers as specified |
| `McpProgram.Mcp.HandleFutexWait` | mit-carbon-Graphite-baecdec/common/system/syscall_server.cc:873-903 | as in the futex wait step |
| `McpProgram.Mcp.HandleFutexWake` | mit-carbon-Graphite-baecdec/common/system/syscall_server.cc:935-946 | as in the futex wake step |
| `McpProgram.Mcp.HandleFutexWakeOp` | mit-carbon-Graphite-baecdec/common/system/syscall_server.cc:948-1056 | as in the wake-op step, the word written before waking |
| `McpProgram.Mcp.RequeueLoop` | mit-carbon-Graphite-baecdec/common/system/syscall_server.cc:1086-1103 | the requeue loop moves waiters as specified |
| `McpProgram.Mcp.HandleFutexCmpRequeue` | mit-carbon-Graphite-baecdec/common/system/syscall_server.cc:1058-1111 | as in the compare-and-requeue step |
| `McpProgram.Mcp.FindIdleSlot` | mit-carbon-Graphite-baecdec/common/system/thread_manager.cc:293-313 | the nested loops, whose inner break leaves only the inner loop, find the specified slot |
| `McpProgram.Mcp.GetNewThreadId` | mit-carbon-Graphite-baecdec/common/system/thread_manager.cc:594-618 | the next id, the table doubled when full |
| `McpProgram.Mcp.ScheduleOn` | mit-carbon-Graphite-baecdec/common/system/thread_scheduler.cc:147-203 | the thread takes its slot and the end of the core's line, and is started if the line was empty |
| `McpProgram.Mcp.SpawnThread` | mit-carbon-Graphite-baecdec/common/system/thread_manager.cc:278-338 | as in the spawn step |
| `McpProgram.Mcp.OnThreadStart` | mit-carbon-Graphite-baecdec/common/system/thread_manager.cc:139-145 | as in the start step |
| `McpProgram.Mcp.WakeUpJoiner` | mit-carbon-Graphite-baecdec/common/system/thread_manager.cc:483-516 | the joiner, if any, is resumed and told |
| `McpProgram.Mcp.ScheduleNext` | mit-carbon-Graphite-baecdec/common/system/thread_scheduler.cc:102-145 | the scheduler's half of the exit step |
| `McpProgram.Mcp.OnThreadExit` | mit-carbon-Graphite-baecdec/common/system/thread_manager.cc:192-213 | as in the exit step |
| `McpProgram.Mcp.JoinThread` | mit-carbon-Graphite-baecdec/common/system/thread_manager.cc:446-481 | as in the join step |
| `McpProgram.Mcp.ProcessPacket` | mit-carbon-Graphite-baecdec/common/system/mcp.cc:37-158 | every message changes the master and sends replies exactly as the step function about which the run theorems speak; an accepted one keeps the invariant |
| `McpProgram.Mcp.Serve` | mit-carbon-Graphite-baecdec/common/system/mcp.cc:37-158 | serving any list of accepted messages is a run of the theorems, and sends exactly that run's replies |
| `McpProgram.Simulate` | mit-carbon-Graphite-baecdec/common/system/mcp.cc:17-158 | the object built and served so has its stalled threads in one wait place each, has granted mutexes, woken waiters and answered barriers in order, and has numbered objects and threads by their requests |
| `BitVectors.Scan` | mit-carbon-Graphite-baecdec/common/misc/bit_vector.cc:51-97 | scanning halves of halves and then bits finds the first set bit after a position |
| `BitVectors.BitVector.Reset` | mit-carbon-Graphite-baecdec/common/misc/bit_vector.cc:8-15 | empties the set |
| `BitVectors.BitVector.At` | mit-carbon-Graphite-baecdec/common/misc/bit_vector.cc:122-131 | tells membership |
| `BitVectors.BitVector.Set` | mit-carbon-Graphite-baecdec/common/misc/bit_vector.cc:133-146 | adds one element and keeps the size the set's cardinality |
| `BitVectors.BitVector.Clear` | mit-carbon-Graphite-baecdec/common/misc/bit_vector.cc:148-161 | removes one element and keeps the size the set's cardinality |
| `BitVectors.BitVector.Find` | mit-carbon-Graphite-baecdec/common/misc/bit_vector.cc:39-107 | returns the least element after the last one found, or -1, and remembers it |
| `BitVectors.BitVector.Enumerate` | mit-carbon-Graphite-baecdec/common/misc/bit_vector.cc:17-37 | repeated calls from a reset go through exactly the set in increasing order |
| `ConfigText.EscapeText` | mit-carbon-Graphite-baecdec/common/config/config_file.cpp:190-201 | the loop escapes as specified |
| `ConfigText.UnEscapeText` | mit-carbon-Graphite-baecdec/common/config/config_file.cpp:136-175 | the loop with its backslash flag unescapes as specified |
| `ConfigText.EscapeRoundTrip` | mit-carbon-Graphite-baecdec/common/config/config_file.cpp:136-201 | unescaping an escaped text returns it, with surrounding quotes or without |
| `ConfigText.ControlRoundTrip` | mit-carbon-Graphite-baecdec/common/config/config_file.cpp:136-175 | five letters behind a backslash stand for control characters and every other character for itself: a text written so is read back |
| `ConfigText.NameRoundTrip` | mit-carbon-Graphite-baecdec/common/config/config_file.cpp:332-341 | a saved key name is quoted if and only if it has a space or quote, and read back if and only if it then is or has no backslash; otherwise it comes back shorter |
| `ConfigText.NameChanges` | mit-carbon-Graphite-baecdec/common/config/config_file.cpp:332-341 | a name written as it is and read as another |
| `ConfigText.ValueRoundTrip` | mit-carbon-Graphite-baecdec/common/config/config_file.cpp:343-351 | a saved value is quoted if and only if it is no number, and read back |
| `ConfigText.PathRoundTrip` | mit-carbon-Graphite-baecdec/common/config/config.cpp:178-192 | splitting a section's full path returns its names if and only if none has a slash |
| `ConfigTree.Config.Load` | mit-carbon-Graphite-baecdec/common/config/config_file.cpp:205-285 | reading the records one by one builds the specified tree |
| `ConfigTree.LastSettingWins` | mit-carbon-Graphite-baecdec/common/config/config_file.cpp:205-285 | whatever the file, each key is what the last line that sets it says, in whichever record for its section, and what it was before if none does |
| `ConfigTree.TreeBack` | mit-carbon-Graphite-baecdec/common/config/config_file.cpp:320-365 | the records of a section and what is below it build the section with every key's name as it is read back |
| `ConfigTree.RebuiltExactly` | mit-carbon-Graphite-baecdec/common/config/config_file.cpp:320-365 | that section is the one saved if and only if all key names in it and below survive |
| `ConfigTree.SaveAndLoad` | mit-carbon-Graphite-baecdec/common/config/config_file.cpp:320-365 | a tree saved flat and rebuilt by path is the same tree if and only if no section's name has a slash and every key's name survives, for every treatment of case and every order of siblings |
| `Partition.ComputeProcessToTileMapping` | mit-carbon-Graphite-baecdec/common/misc/config.cc:220-227 | deals the tiles out in turn: every tile is in exactly one list, that of its number modulo the processes |
| `Partition.GenerateTileMap` | mit-carbon-Graphite-baecdec/common/misc/config.cc:154-195 | with the spawner of each process on the tile of its number behind the application's, and the master's tile last and with process 0, every tile is in exactly one process's list, the one the reverse map names |
| `Partition.GetIndexFromTileID` | mit-carbon-Graphite-baecdec/common/misc/config.cc:266-275 | returns the first index of a tile |
| `Partition.LookupsAreInverse` | mit-carbon-Graphite-baecdec/common/misc/config.cc:266-288 | index lookup and tile lookup undo each other, and a tile of another process has no index |
| `Partition.StackLimits` | mit-carbon-Graphite-baecdec/pin/pin_config.cc:39-68 | a process's stacks begin where those of the lower processes end |
| `Partition.WindowsDisjoint` | mit-carbon-Graphite-baecdec/pin/pin_config.cc:131-149 | the stack windows of all threads on all tiles of all processes are disjoint |
| `Partition.PointerMapsBack` | mit-carbon-Graphite-baecdec/pin/pin_config.cc:68-81 | a pointer into a local tile's stack is mapped back to that tile |
| `Partition.GetStackAttributes` | mit-carbon-Graphite-baecdec/pin/pin_config.cc:131-149 | the window of a thread on a local tile, refused if and only if the tile is not local |
| `Partition.WindowMapsBack` | mit-carbon-Graphite-baecdec/pin/pin_config.cc:68-81 | every pointer into a thread's window is mapped back to its tile |
| `Partition.ThreadMapsBack` | mit-carbon-Graphite-baecdec/pin/pin_config.cc:96-108 | a pointer into a thread's window is mapped back to that thread if and only if the whole thread's stacks from address 0 to the same place in the process's first stack are a multiple of 2^32 |
| `Partition.ThreadMistaken` | mit-carbon-Graphite-baecdec/pin/pin_config.cc:96-108 | with a stack base of at least one thread's stack, thread 0 of the first tile is taken for another |
| `Partition.VMManager.DoBrk` | mit-carbon-Graphite-baecdec/common/system/vm_manager.cc:50-72 | moves the end of the heap where it is asked to, or, exactly when the checks fail, nothing |
| `Partition.VMManager.DoMmap` | mit-carbon-Graphite-baecdec/common/system/vm_manager.cc:74-97 | moves the start of the dynamic segment down, in 64-bit arithmetic, or, exactly when the check fails, nothing |
| `Partition.GrantedExactly` | mit-carbon-Graphite-baecdec/common/system/vm_manager.cc:60-92 | the checks let through exactly what leaves heap, stacks and mapped blocks apart, unless a length wraps around |
| `Partition.MmapFits` | mit-carbon-Graphite-baecdec/common/system/vm_manager.cc:90-94 | a mapped block ends where the last one began if and only if its length is at most the dynamic segment's start |
| `Partition.MmapWraps` | mit-carbon-Graphite-baecdec/common/system/vm_manager.cc:90-94 | a longer block passes the check and lands above |
| `Partition.BlocksApart` | mit-carbon-Graphite-baecdec/common/system/vm_manager.cc:50-97 | over any run the mapped blocks are disjoint and above the stacks, and the heap ends where it was last put, below them |

## Left out

- Pin instrumentation, system calls other than futex, routine replacement, logging and files: input and output.
- Socket setup, connect and accept; `Socket::send` is one step that puts all bytes on the stream.
- Yield, migration, affinity and the round-robin scheduler: switched off in the source.
- The configuration's grammar and its number parsing; the model starts from the list of parsed records, and which values are numbers is a parameter.
- In-place update of configuration sections: the tree is a value that `Config` replaces; keys and subsections are found by normalised name as in the source.
- Checksums of packets, which are compiled out, and `query` of a mailbox.
- The delay of the analytical queue model, which is a parameter of `ComputeQueueDelay`; the utilization counters.
- The tiles of the thread spawners and of the master, whose one slot runs from the start and never changes.
- The thread spawner's list and the slave processes' half of a spawn; a thread told to start reports once, at any later time.
- Spawning onto tile 0 when it has an idle slot: after the main thread has left it, or beside it with several slots per core, which the source notes it cannot do.
- McpRuns.ClientsServed: covers the runs whose signals meet only waiters of one mutex; in all others, and only those, the source records a waiter with another mutex than it gave up (`McpRuns.WaitersRecordedExactly`).
- Fields of one tile that the source keeps in three vectors indexed by tile are grouped in one record per tile.
- Munmap, which the source ignores, and the flags of `mmap`, which it only checks.
- Real time: simulated times appear only where a reply carries one.
- QueueHistory.NeverOutOfRoom: is sufficient, not necessary, for a whole run, because earlier gaps may host a request too; `QueueHistory.OutcomeExactly` is exact for one request.
- Partition.PointerMapsBack: the pointer at the very end of a process's stacks, which the source lets through its range check, belongs to no tile and is not covered.
