# Verified models of the concurrent and protocol code

This project models the parts of the repository that hold real concurrent or protocol logic and
proves properties of them in Dafny 4.11. `dafny verify dfyconfig.toml` checks everything.

| component | source | files |
|---|---|---|
| semaphore ring queue | threadsynchronization/4.Sem_Ring/RingQueue.hpp | RingMachine, RingTheorems, RingQueue |
| thread pool | threadsynchronization/5.ThreadPool/ThreadPool.hpp | PoolMachine, PoolInvariants, PoolTheorems, PoolShutdown, PoolRunning, ThreadPool, Singleton |
| blocking bounded queue | threadsynchronization/3.Cond/BlockQueue.hpp (and 2.CP/BlockQueue.hpp) | MonitorMachine, MonitorTheorems, BlockQueue |
| process pool | 2ProcessPool/ProcessPool.hpp | FamilyMachine, ProcessPool |
| length-prefixed stream protocol | NetCal/Protocol.hpp | Wire, Stream, LockStep, Protocol |
| chat router | Socket/3.ChatServer/Route.hpp | Route |
| shared | | Tally (sums over thread tables), Fifo (the bounded queue both buffers refine), Modulo |

How a concurrent component is modelled. A state holds the object's fields, one program position per
thread, and a history (what was put, taken, pushed, run). `Enabled`/`Apply` are the steps; `Run`
says that a schedule, any sequence of steps of any threads, leads from one state to another. Theorems
are about every such schedule, for any number of threads. Beside each machine stands a class with
the source's fields whose methods carry out the same statements in place; its methods' contracts tie
the new fields to the machine's step; `Interleave` runs an arbitrary schedule on the object, and further
methods carry out whole calls, alone or with the other threads scheduled in any way.

Granularity. The ring queue and the thread pool are interleaved statement by statement, with every
read of an unlocked variable a step of its own. In the blocking queue all fields are guarded by one
mutex, so a step is a critical section, from getting the mutex to giving it up by waiting or
returning. Memory is sequentially consistent. A mutex is given to any thread that asks while it is
free; a condition signal wakes one waiting thread of the scheduler's choice if there is one; waiting
threads may also wake for no reason; `P` blocks while the semaphore is zero. In the process pool a
step is one turn of a loop of the parent or of a child, pipes have any positive capacity, and `read`
on an empty pipe blocks until no process holds a write end.

Results that differ from what one might expect of the code:

- The thread pool can accept a task and never run it. If an `Equeue` has read `_isrunning` as true
  and not got the mutex, `Stop` can clear the flag and the workers can leave before it pushes
  (`PoolShutdown.RacingEqueueLosesTask`). Whatever the state in which the flag is cleared, this can happen
  if and only if some `Equeue` is between its check and the mutex at that moment
  (`PoolShutdown.StopSafeExactly`); otherwise every task is run (`PoolShutdown.QuietStopRunsEverything`). One
  thread that makes all calls, as threadsynchronization/5.ThreadPool/Main.cc does, is never caught in this
  (`PoolShutdown.SoloRunsEverything`).
- `GetInstance` can return a pool that has not been started yet (`Singleton.ReturnedMayBeUnstarted`): exactly
  while a thread stands between lines 75 and 76, and never to a caller that went through the lock
  (`Singleton.OnePoolForAll`).
- `GetInstance(0)` makes a pool that accepts every task and runs none (`PoolShutdown.EmptyPoolRunsNothing`).
- The example program of the process pool goes on when `Create` fails. That is harmless as long as one child
  was made; if the first `pipe` or `fork` fails, or no process is asked for, `Select` indexes an empty vector
  (`ProcessPools.ProcessPool.CreateAndRun`).
- `Decode` inverts `Encode` exactly when the whole frame's length is within an `int`; a longer payload
  makes `stoi` throw, or leaves the frame in the buffer for good (`Wire.DecodeOfEncode`).
- A request the server cannot parse is skipped without a reply, so a client waiting for it waits for
  ever; that is the only way a conversation stops early (`LockStep.RepliesMatchRequests`).
- `BlockQueue::isFull` compares a `size_t` with an `int`: a negative capacity acts as a huge one. The
  model includes this; the ring queue's vector cannot be built with a negative size.

## Model

| member | source | states |
|---|---|---|
| Fifo.TakesFollowPuts | threadsynchronization/4.Sem_Ring/RingQueue.hpp:20-54 | any run of a bounded FIFO, whatever implements it, takes items in the order they were put and stays within its bound |
| RingTheorems.RingIsBoundedFifo | threadsynchronization/4.Sem_Ring/RingQueue.hpp:14-54 | for every capacity, thread set and statement-level schedule: takes are a prefix of puts, at most `cap` behind, the rest lies in the slots; the run is a run of one bounded FIFO |
| RingTheorems.StepRefinesFifo | threadsynchronization/4.Sem_Ring/RingQueue.hpp:20-54 | each single statement keeps the invariant and is at most one put or one take of the bounded FIFO |
| RingTheorems.RunRefinesFifo | threadsynchronization/4.Sem_Ring/RingQueue.hpp:20-54 | the same over whole schedules, with the histories of puts and takes |
| RingTheorems.EveryCallCounts | threadsynchronization/4.Sem_Ring/RingQueue.hpp:20-54 | from the schedule alone: what has been offered is what its calls of `Equeue` passed, every call of `Pop` has returned an item or is still inside, and every call takes exactly seven statements |
| RingTheorems.IdleMayCall | threadsynchronization/4.Sem_Ring/RingQueue.hpp:20-37 | a thread outside both calls can begin either, however full or empty the ring, and is then inside it with its item |
| RingTheorems.ItemsConserved | threadsynchronization/4.Sem_Ring/RingQueue.hpp:20-54 | the items passed by the calls of `Equeue` are, as a multiset, those being brought in, stored, being carried out and returned: none lost, duplicated or invented |
| RingTheorems.NeverFaults | threadsynchronization/4.Sem_Ring/RingQueue.hpp:28-50 | no reachable statement indexes outside the vector or divides by zero, capacity zero included |
| RingTheorems.SlotExclusion | threadsynchronization/4.Sem_Ring/RingQueue.hpp:25-51 | a producer at line 28 and a consumer at line 46 are at different slots and alone in their sections |
| RingTheorems.PermitsConserved | threadsynchronization/4.Sem_Ring/RingQueue.hpp:14-54 | both semaphores plus the permits held by threads always make `cap`; with a mutex free its index is the next item's slot |
| RingTheorems.StuckExactly | threadsynchronization/4.Sem_Ring/RingQueue.hpp:24-53 | nobody can move if and only if all wait for room in a full ring, or for items of an empty one (or the capacity is zero) |
| RingTheorems.NoDeadlock | threadsynchronization/4.Sem_Ring/RingQueue.hpp:24-53 | with capacity at least one, a producer and a consumer inside their calls never block each other for good |
| RingTheorems.RolesIndependent | threadsynchronization/4.Sem_Ring/RingQueue.hpp:24-53 | the consumers are stuck if and only if all of them wait for an item without a permit, whatever the producers do, and the other way round |
| RingMachine.InvKept | threadsynchronization/4.Sem_Ring/RingQueue.hpp:20-54 | permits, locks, indices, slot contents and item flow survive every statement of every thread |
| RingMachine.SlotsInUse | threadsynchronization/4.Sem_Ring/RingQueue.hpp:28-46 | the slot about to be written or read is that of the next put or take, and the latter holds the item put there |
| RingMachine.SlotsDiffer | threadsynchronization/4.Sem_Ring/RingQueue.hpp:32-50 | items less than `cap` apart never share a slot |
| RingMachine.RoomAndItems | threadsynchronization/4.Sem_Ring/RingQueue.hpp:24-53 | a producer holding a permit has room, a consumer holding one has an item |
| RingQueues.RingQueue.constructor | threadsynchronization/4.Sem_Ring/RingQueue.hpp:14-19 | the constructor establishes the initial state: all permits blank, none for data, both indices zero |
| RingQueues.RingQueue.ContinueEqueue | threadsynchronization/4.Sem_Ring/RingQueue.hpp:20-36 | the statements of `Equeue`, in place, are the machine's steps |
| RingQueues.RingQueue.ContinuePop | threadsynchronization/4.Sem_Ring/RingQueue.hpp:37-54 | the statements of `Pop`, in place, are the machine's steps |
| RingQueues.RingQueue.Equeue | threadsynchronization/4.Sem_Ring/RingQueue.hpp:20-36 | an uninterrupted call appends its item, is a run of eight machine steps, and comes back exactly if permit and mutex are free |
| RingQueues.RingQueue.Pop | threadsynchronization/4.Sem_Ring/RingQueue.hpp:37-54 | an uninterrupted call returns the oldest item not yet taken |
| RingQueues.RingQueue.Interleave | threadsynchronization/4.Sem_Ring/RingQueue.hpp:20-54 | any schedule carried out on the object keeps takes a prefix of puts, at most `cap` behind |
| RingQueues.RunIsAfter | threadsynchronization/4.Sem_Ring/RingQueue.hpp:20-54 | carrying out a possible schedule leads where the machine's run leads |
| PoolTheorems.FrontNeverEmpty | threadsynchronization/5.ThreadPool/ThreadPool.hpp:104-119 | in every run a worker that reaches `front()` finds a task, although the flag is read twice and written without the lock |
| PoolTheorems.OneInside | threadsynchronization/5.ThreadPool/ThreadPool.hpp:24-128 | at most one thread is inside the sections guarded by `_mutex` |
| PoolTheorems.StopWakesAll | threadsynchronization/5.ThreadPool/ThreadPool.hpp:22-30 | from the broadcast on, at no point of any run is a worker waiting or on its way to wait |
| PoolTheorems.StopWaitsForSleepers | threadsynchronization/5.ThreadPool/ThreadPool.hpp:81-117 | a worker between line 106 and its wait holds the mutex, and the caller that cleared the flag is still before its broadcast |
| PoolTheorems.StopReturnsSwept | threadsynchronization/5.ThreadPool/ThreadPool.hpp:81-88 | when a `Stop` that clears the flag has returned, the broadcast has been made and nobody waits on the condition |
| PoolTheorems.SleepersSeenByCallers | threadsynchronization/5.ThreadPool/ThreadPool.hpp:108-130 | inside the mutex a caller sees `_sleeprnum` equal to waiting plus woken threads |
| PoolTheorems.TasksAttended | threadsynchronization/5.ThreadPool/ThreadPool.hpp:124-133 | while the pool runs and no signal is pending, a waiting task has a worker that is neither asleep nor gone |
| PoolShutdown.StopTerminates | threadsynchronization/5.ThreadPool/ThreadPool.hpp:81-135 | with the flag cleared all threads together, callers included, take a bounded number of steps; a new call adds a fixed amount |
| PoolShutdown.StopProgresses | threadsynchronization/5.ThreadPool/ThreadPool.hpp:81-135 | the program comes to rest if and only if all workers have left and all calls have returned, `Join` among them |
| PoolShutdown.JoinReturnsLast | threadsynchronization/5.ThreadPool/ThreadPool.hpp:89-95 | when a `Join` has returned, all workers have left |
| PoolShutdown.RunningPoolRests | threadsynchronization/5.ThreadPool/ThreadPool.hpp:96-135 | a running pool comes to rest if and only if every worker waits and nobody is inside a call but a `Join`; the queue is then empty and every accepted task run, so signalling only when all count as asleep loses nothing |
| PoolRunning.RunningPoolGetsDone | threadsynchronization/5.ThreadPool/ThreadPool.hpp:96-135 | while the flag stays set the threads take a bounded number of steps between calls and wakeups for no reason, so a running pool reaches that rest and runs every accepted task without any `Stop` |
| PoolRunning.TasksAccounted | threadsynchronization/5.ThreadPool/ThreadPool.hpp:124-135 | from the schedule alone: every task passed to `Equeue` is with its caller, has been pushed, or was refused by a check that found the flag clear |
| PoolRunning.OutsideMayCall | threadsynchronization/5.ThreadPool/ThreadPool.hpp:81-135 | a caller outside can begin `Equeue`, `Stop` or `Join` in any state |
| PoolRunning.StartTerminates | threadsynchronization/5.ThreadPool/ThreadPool.hpp:51-61 | `Start` takes at most a step per thread and three more, and without a `Stop` the flag is set exactly from then on |
| PoolShutdown.EmptyPoolRunsNothing | threadsynchronization/5.ThreadPool/ThreadPool.hpp:39-66 | a pool built for no threads runs none of the tasks it accepts |
| PoolTheorems.AllTasksRunExceptLate | threadsynchronization/5.ThreadPool/ThreadPool.hpp:96-135 | with all workers gone, tasks were taken in order and run once each, and what remains is exactly what was pushed after the last worker left |
| PoolShutdown.AcceptedTasksRunExactly | threadsynchronization/5.ThreadPool/ThreadPool.hpp:81-135 | with the flag cleared and a worker left, every task for which `Equeue` returned true is sure to be run, and equally the queue is sure to end empty with everything pushed run, if and only if no `Equeue` is between line 126 and the mutex |
| PoolShutdown.StopSafeExactly | threadsynchronization/5.ThreadPool/ThreadPool.hpp:81-128 | the same two equivalences, on the state in which `Stop` is about to clear the flag of a running pool |
| PoolShutdown.QuietStopRunsEverything | threadsynchronization/5.ThreadPool/ThreadPool.hpp:81-135 | in that case everything pushed is taken in order and run once, also by a caller already holding the mutex, and the queue ends empty |
| PoolShutdown.GoneForGood | threadsynchronization/5.ThreadPool/ThreadPool.hpp:96-135 | what is in the queue when all workers have left is never run |
| PoolShutdown.SoloRunsEverything | threadsynchronization/5.ThreadPool/Main.cc:17-28 | with one calling thread, a run that has cleared the flag and come to rest has all workers gone, the queue empty, and every accepted task taken in order and run exactly once |
| PoolShutdown.RacingEqueueLosesTask | threadsynchronization/5.ThreadPool/ThreadPool.hpp:124-135 | a run in which `Equeue` returns true after the only worker has left, and no continuation of which runs the task |
| PoolInvariants.InvKept | threadsynchronization/5.ThreadPool/ThreadPool.hpp:22-135 | exclusion, sleep count, phases, what workers and callers rely on, and the history survive every step |
| PoolInvariants.WorkersKept | threadsynchronization/5.ThreadPool/ThreadPool.hpp:104-119 | what each worker has seen stays true until it acts on it, whoever moves |
| PoolInvariants.SignalAttends | threadsynchronization/5.ThreadPool/ThreadPool.hpp:129-131 | after the test of line 130 and its signal, some thread is not asleep |
| PoolInvariants.SweepsAll | threadsynchronization/5.ThreadPool/ThreadPool.hpp:22-30 | broadcasting only if `_sleeprnum > 0` leaves nobody asleep or about to sleep |
| ThreadPools.ThreadPool.constructor | threadsynchronization/5.ThreadPool/ThreadPool.hpp:39-50 | a new pool is not running, nobody asleep, no thread started |
| ThreadPools.ThreadPool.StartStatement | threadsynchronization/5.ThreadPool/ThreadPool.hpp:51-61 | the statements of `Start`, in place |
| ThreadPools.ThreadPool.HandlerStatement | threadsynchronization/5.ThreadPool/ThreadPool.hpp:96-123 | the statements of a worker, in place, are the machine's steps |
| ThreadPools.ThreadPool.EqueueStatement | threadsynchronization/5.ThreadPool/ThreadPool.hpp:124-135 | the statements of `Equeue`, in place; `accepted` records where it returns true |
| ThreadPools.ThreadPool.Equeue | threadsynchronization/5.ThreadPool/ThreadPool.hpp:124-135 | an undisturbed call returns false and changes nothing if the pool does not run; otherwise it appends its task, wakes one sleeper exactly if every thread counts as asleep and one is, returns true, and is a run of the machine |
| ThreadPools.ThreadPool.StopStatement | threadsynchronization/5.ThreadPool/ThreadPool.hpp:81-88 | the statements of `Stop` and of `WakeUpAllThread`, in place |
| ThreadPools.ThreadPool.RunUntilBack | threadsynchronization/5.ThreadPool/ThreadPool.hpp:81-135 | with the flag cleared, executing any possible step of any thread in any order, other callers beginning any finite list of calls meanwhile, terminates with the given caller back from its call |
| ThreadPools.ThreadPool.StopAndJoin | threadsynchronization/5.ThreadPool/ThreadPool.hpp:81-123 | `Stop` and then `Join` return with all workers gone, whatever the other threads do before lines 83 and 85 and afterwards, any finite number of new calls included; everything pushed has been run in order unless a caller was between line 126 and the mutex when the flag was cleared, which a lone caller never is |
| ThreadPools.ThreadPool.Interleave | threadsynchronization/5.ThreadPool/ThreadPool.hpp:51-135 | any schedule on the object keeps pushed = popped + queued, and with all workers gone everything popped has been run |
| ThreadPools.RunIsAfter | threadsynchronization/5.ThreadPool/ThreadPool.hpp:51-135 | carrying out a possible schedule leads where the machine's run leads |
| Singleton.OnePoolForAll | threadsynchronization/5.ThreadPool/ThreadPool.hpp:66-80 | for any callers and schedule at most one pool is built, started at most once, and returned to everybody; it has been started if and only if nobody is between lines 75 and 76, and always for a caller that went through the lock |
| Singleton.EveryCallReturns | threadsynchronization/5.ThreadPool/ThreadPool.hpp:66-80 | a call takes at most eight steps, and while somebody is inside one, somebody inside can go on |
| Singleton.ReturnedMayBeUnstarted | threadsynchronization/5.ThreadPool/ThreadPool.hpp:68-76 | a run in which a caller has the pool before it is started |
| MonitorTheorems.QueueIsBoundedFifo | threadsynchronization/3.Cond/BlockQueue.hpp:20-74 | for every schedule with overtaking and spurious wakeups: one bounded FIFO, never more than `_cap` items, pops a prefix of pushes, nothing that a call passed in lost |
| MonitorTheorems.EveryCallCounts | threadsynchronization/3.Cond/BlockQueue.hpp:35-74 | from the schedule alone: what has been offered is what its calls passed, every call of `pop` has taken an item or is still inside, and the sections are at most two per call and one per spurious wakeup |
| MonitorTheorems.ProducerSection | threadsynchronization/3.Cond/BlockQueue.hpp:35-55 | a producer that gets the mutex waits if and only if the queue holds `_cap` items, and otherwise its item is the last of the queue |
| MonitorTheorems.ConsumerSection | threadsynchronization/3.Cond/BlockQueue.hpp:56-74 | a consumer that gets the mutex waits if and only if the queue is empty, and otherwise takes its first item |
| MonitorTheorems.IdleMayCall | threadsynchronization/3.Cond/BlockQueue.hpp:35-57 | a thread outside both calls can begin either in any state |
| MonitorTheorems.CompetitorsMove | threadsynchronization/3.Cond/BlockQueue.hpp:35-74 | every thread that wants the mutex can have it next, newcomers as well as woken ones |
| MonitorTheorems.SleeperMayWake | threadsynchronization/3.Cond/BlockQueue.hpp:43-62 | a waiting thread may be woken for no reason at any time and then competes for the mutex |
| MonitorTheorems.NoLostWakeup | threadsynchronization/3.Cond/BlockQueue.hpp:35-74 | while a consumer waits the stored items are covered by woken consumers, while a producer waits the free places by woken producers; the counters are waiting plus woken |
| MonitorTheorems.AsleepExactly | threadsynchronization/3.Cond/BlockQueue.hpp:35-74 | nobody can go on if and only if everybody inside a call is asleep, and then consumers sleep over an empty queue, producers over a full one |
| MonitorTheorems.NoDeadlock | threadsynchronization/3.Cond/BlockQueue.hpp:35-74 | with any capacity but zero, threads of both roles are never all asleep |
| MonitorTheorems.RunRefinesFifo | threadsynchronization/3.Cond/BlockQueue.hpp:35-74 | schedules of critical sections refine the bounded FIFO |
| MonitorMachine.SignalCovers | threadsynchronization/3.Cond/BlockQueue.hpp:50-72 | one signal makes up for the one put or take that preceded it |
| MonitorMachine.InvKept | threadsynchronization/2.CP/BlockQueue.hpp:32-70 | counts, cover and order survive every critical section and wakeup; the raw pthread version has the same sections |
| BlockQueues.BlockQueue.constructor | threadsynchronization/3.Cond/BlockQueue.hpp:30-34 | a new queue is empty with nobody asleep |
| BlockQueues.BlockQueue.Equeue | threadsynchronization/3.Cond/BlockQueue.hpp:35-55 | the critical section of `Equeue`, in place: it waits if and only if the queue holds `_cap` items, and appends its item otherwise |
| BlockQueues.BlockQueue.Pop | threadsynchronization/3.Cond/BlockQueue.hpp:56-74 | the critical section of `pop`, in place; it returns the front unless the queue is empty |
| BlockQueues.BlockQueue.Interleave | threadsynchronization/3.Cond/BlockQueue.hpp:35-74 | any schedule on the object keeps pushes = pops + queue within capacity |
| BlockQueues.RunIsAfter | threadsynchronization/3.Cond/BlockQueue.hpp:35-74 | carrying out a possible schedule leads where the machine's run leads |
| FamilyMachine.EndOfFileNeedsLaterChildren | 2ProcessPool/ProcessPool.hpp:117-169 | child i can meet end-of-file exactly when the parent has closed its pipe and all later children have exited |
| FamilyMachine.ShutdownCompletes | 2ProcessPool/ProcessPool.hpp:84-188 | every schedule is bounded, and ends only with all children exited, each having executed exactly its share of the commands in order |
| FamilyMachine.SomebodyMoves | 2ProcessPool/ProcessPool.hpp:117-172 | until then, in every run, the parent or some child can go on, full pipes included |
| FamilyMachine.InvKept | 2ProcessPool/ProcessPool.hpp:84-183 | holders of write ends, exits, shares and plan survive every step |
| FamilyMachine.DispatchedAlive | 2ProcessPool/ProcessPool.hpp:29-33 | no command is written to a child that has exited |
| FamilyMachine.ParentStepsExactly | 2ProcessPool/ProcessPool.hpp:84-99 | the parent takes one turn per command and one per child in each of the two closing loops, neither more nor fewer |
| FamilyMachine.PipesFit | 2ProcessPool/ProcessPool.hpp:29-33 | no pipe ever holds more than its capacity |
| ProcessPools.DealIsEveryNth | 2ProcessPool/ProcessPool.hpp:77-83 | child i's share is the commands at positions i, i+n, i+2n, ... and no others |
| ProcessPools.LoadsDifferByOne | 2ProcessPool/ProcessPool.hpp:77-83 | after any number of dispatches the loads differ by at most one |
| ProcessPools.WindowHitsOnce | 2ProcessPool/ProcessPool.hpp:77-83 | n consecutive selections reach each channel exactly once |
| ProcessPools.PlumbedGrows | 2ProcessPool/ProcessPool.hpp:145-172 | one round of pipe, fork and the two closes adds a child that holds all earlier write ends, and alone reads its own pipe |
| ProcessPools.ProcessPool.Create | 2ProcessPool/ProcessPool.hpp:145-172 | the loop, with `pipe` or `fork` failing at any round, leaves exactly this plumbing for the children made, and a pipe without child to the parent alone; unless the first round failed, dealing can start |
| ProcessPools.ProcessPool.Select | 2ProcessPool/ProcessPool.hpp:77-83 | call k returns channel k mod n |
| ProcessPools.ProcessPool.Run | 2ProcessPool/ProcessPool.hpp:177-183 | the next command goes to the next child |
| ProcessPools.ProcessPool.StopStep | 2ProcessPool/ProcessPool.hpp:84-99 | the turns of the two closing loops, in place |
| ProcessPools.ProcessPool.Work | 2ProcessPool/ProcessPool.hpp:117-144 | one turn of a child's loop: execute, or exit at end-of-file |
| ProcessPools.ProcessPool.RunToEnd | 2ProcessPool/ProcessPool.hpp:177-188 | from any pool with a child, the rest of the program terminates under every scheduling with every share executed |
| ProcessPools.ProcessPool.CreateAndRun | 2ProcessPool/main.cpp:2-16 | the program, which ignores a failed `Create`, deals its commands to the children there are, and fails at the first dispatch if and only if there are none |
| Wire.DecodeOfEncode | NetCal/Protocol.hpp:140-167 | `Decode` of an encoded payload and any rest gives the payload and leaves the rest if and only if the frame length is within an int; otherwise it throws or asks for more |
| Wire.DecodeOfPart | NetCal/Protocol.hpp:148-162 | on every strict prefix of a frame `Decode` asks for more |
| Wire.StoiOfDecimal | NetCal/Protocol.hpp:142-156 | reading back a printed length gives it, or out of range |
| Wire.FindHeader | NetCal/Protocol.hpp:150-155 | the first separator is the header's, whatever the payload contains |
| Wire.FindFirst | NetCal/Protocol.hpp:150-152 | the search finds the first separator, and nothing exactly if there is none |
| Wire.EncodeParts | NetCal/Protocol.hpp:140-147 | a frame is the decimal length, CR LF, the payload, CR LF |
| Wire.DecimalShape | NetCal/Protocol.hpp:142-144 | the length is printed in base ten without leading zeros |
| Wire.StoiReads | NetCal/Protocol.hpp:155-157 | white space, sign and digits are read up to the first other character; no digit or no int is an exception |
| Wire.ThrowsExactly | NetCal/Protocol.hpp:148-157 | `Decode` throws exactly when what stands before the first separator is not read as an int |
| Wire.StandsStillExactly | NetCal/Protocol.hpp:158-166 | `Decode` succeeds and removes nothing exactly when the number read cancels the lengths of header and separators modulo 2^32 |
| Wire.NegativeLength | NetCal/Protocol.hpp:158-164 | a negative length takes the rest of the buffer for the package |
| Stream.ChunkingIndependence | NetCal/Protocol.hpp:168-226 | for every list of payloads, every unfinished frame after it and every split into reads, the server extracts exactly the list and keeps exactly the unfinished part |
| Stream.AllSplitsAgree | NetCal/Protocol.hpp:168-226 | two splits of one stream cannot be told apart, and leave an empty buffer |
| Stream.CutAnywhere | NetCal/Protocol.hpp:174-182 | wherever a stream of frames is cut, the front is whole frames and a proper part of one |
| Stream.DrainThen | NetCal/Protocol.hpp:181-213 | whole frames at the front of the buffer are extracted whatever follows them |
| Stream.DrainBroken | NetCal/Protocol.hpp:181-213 | after the frames before it, a header that is no int ends the extraction with an exception, and one that makes `Decode` stand still makes the loop endless |
| Stream.ServeInTwo | NetCal/Protocol.hpp:168-226 | reading on after some chunks starts from exactly what they left in the buffer |
| Stream.CStringIs | NetCal/Socket.hpp:112-123 | a read appends what comes before its first NUL |
| Stream.ReceiveExactly | NetCal/Protocol.hpp:227-267 | the client decides by the first read after which a package is whole or the header is broken, and finds the server gone exactly if there is no such read |
| Stream.ReceivePart | NetCal/Protocol.hpp:227-267 | if the server closes before a whole frame has arrived, the client finds it gone and keeps what has |
| Stream.ReceiveReply | NetCal/Protocol.hpp:227-267 | the client gets the one reply coming, however split, and leaves an empty buffer |
| LockStep.RepliesMatchRequests | NetCal/TcpClient.cc:36-63 | reply k answers request k in every run; the response buffer is empty between calls; a conversation is bounded and ends exactly with the last reply or at the first request that cannot be parsed |
| LockStep.ResponsesMatch | NetCal/Protocol.hpp:168-283 | if the requests made and the responses computed for them survive serialisation, response k is the computation applied to request k |
| LockStep.PipelinedRequestsAnswered | NetCal/Protocol.hpp:168-226 | requests sent at once are answered in order, frame by frame, however they arrive |
| LockStep.InvKept | NetCal/Protocol.hpp:168-267 | either the request or the reply is on its way and all other buffers are empty |
| Protocols.Protocol.Decode | NetCal/Protocol.hpp:148-167 | the in-place version: package and erased buffer on success, buffer untouched otherwise |
| Protocols.Protocol.Respond | NetCal/Protocol.hpp:183-212 | a package that parses is answered by one frame with the computed response; one that does not is skipped and nothing is sent |
| Protocols.Protocol.AnswerAll | NetCal/Protocol.hpp:181-213 | the drain loop answers every complete package in order |
| Protocols.ResponsesAre | NetCal/Protocol.hpp:181-213 | what is sent for any packages is one frame for each that can be parsed, in order, with the response computed for it |
| Protocols.Protocol.GetRequest | NetCal/Protocol.hpp:168-226 | the receive loop extracts what the specification over chunks says, up to close, error or exception, and the bytes sent are the frames of the responses to the packages that can be parsed, in order |
| Protocols.Protocol.GetResponse | NetCal/Protocol.hpp:227-267 | the client loop returns the first package completed by a read, never without a read, and what it parses to; a part of a frame before the end of the stream is a failure that keeps the buffer; a package that does not parse is reported as success and leaves the response as it was |
| Protocols.Protocol.BuildRequestString | NetCal/Protocol.hpp:268-283 | what it builds is taken by the server as the one request it prints, and answered as this request if the request survives serialisation |
| Protocols.Socket.Recv | NetCal/Socket.hpp:112-123 | a read is appended as a C string, up to its first NUL |
| Routes.SinceIsPresence | Socket/3.ChatServer/Route.hpp:46-66 | being online means that one's latest message was not "quit" |
| Routes.SinceSound | Socket/3.ChatServer/Route.hpp:46-66 | the joining time is the message that brought the peer online, with no "quit" since |
| Routes.TracksJoin | Socket/3.ChatServer/Route.hpp:50-53 | a message keeps the vector exactly the online peers in joining order |
| Routes.TracksQuit | Socket/3.ChatServer/Route.hpp:61-65 | so does "quit", from a known peer or a new one |
| Routes.TracksUnique | Socket/3.ChatServer/Route.hpp:71-73 | only one vector is exactly the online peers in joining order |
| Routes.RemoveOnly | Socket/3.ChatServer/Route.hpp:29-40 | erasing the first match erases the peer, because there are no duplicates |
| Routes.Route.IsExist | Socket/3.ChatServer/Route.hpp:13-23 | the search decides membership |
| Routes.Route.AddUser | Socket/3.ChatServer/Route.hpp:24-28 | the peer is appended |
| Routes.Route.DeleteUser | Socket/3.ChatServer/Route.hpp:29-40 | the loop erases the first match, or nothing |
| Routes.Route.MessageRoute | Socket/3.ChatServer/Route.hpp:46-66 | over whole histories: one copy to every peer online at that moment, sender included; afterwards online are exactly those whose latest message was not "quit" |

## Left out

- Weak memory: `_isrunning` and `inc` are read and written without a lock; the models are sequentially consistent.
- Failing thread creation: `Thread::Start` can fail and the pool ignores it; the model's threads all start.
- Tasks are values and end; what they compute, and exceptions they throw, are not modelled.
- Interrupted waits: `sem_wait` and `pthread_cond_wait` are not interrupted by signals.
- Short writes: `send` and `write` deliver everything; partial sends are not modelled.
- Malformed frames: `Decode` is modelled branch for branch for them too (signs, spaces, wrap-around), but nothing is promised about streams that contain them beyond `Wire.ThrowsExactly`, `Wire.StandsStillExactly`, `Wire.NegativeLength` and `Stream.DrainBroken`.
- `Recv` reads at most 1023 bytes at a time; the model allows chunks of any length, which includes these.
- JSON: the jsoncpp library is an arbitrary pair of print and parse functions; that a value in play is printed without NUL, fits a frame and parses back is a hypothesis about that value.
- `Cal::Execute` is an arbitrary function of the request.
- `WaitSubProcess` closes again instead of reaping, so exits are proved, not reaping.
- ProcessPools.ProcessPool.Work: `read` neither fails nor returns part of a command, so the branch of 2ProcessPool/ProcessPool.hpp:137-142 is not modelled.
- A `Join` made before `Start` has created the threads waits for them in the model; `pthread_join` on a thread not created is not modelled.
- `TaskManger::Execute` ignores codes outside its table; a child's record lists the codes it was given.
- Unlocked calls of `Route`: its mutex is modelled by taking calls one at a time.
- `StringAddr` and datagrams are text; sockets, addresses and delivery are not modelled.
- Logging, output, files, daemonising and the HTTP, dictionary, command and ticket programs are not part of this model.
- Destructors and copying are not modelled.
- `int` overflow of counters: `_p_step`, `_c_step`, `_next` and the sleep counters stay within the capacity or the number of threads.
