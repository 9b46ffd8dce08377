# Verified model of the Trinity core

A Dafny model of four stateful components and proofs about them:

- the Python kernel `CoreSystem` (core_system.py): process table, round-robin scheduler, memory regions, mailboxes and
  four re-entrant locks;
- the C++ priority scheduler (src/core/CoreSystem.cpp) with its worker thread and condition variable;
- the C++ bump allocator `MemoryRegion` (src/memory/MemoryRegion.hpp);
- the C++ system call dispatcher (src/core/Syscall.cpp).

`dafny verify dfyconfig.toml` checks everything.

## Layout

| file | content |
|---|---|
| Options.dfy, Lists.dfy, StableOrder.dfy | optional values; Python list operations; ordered insertion and the stable sort |
| Kernel.dfy | state of the Python kernel, each system call and the scheduler pass as an atomic step |
| KernelIndex.dfy | agreement of the scheduler's indices, failure atomicity |
| KernelMemory.dfy | region table, per-process lists, address order, ownership |
| KernelHistory.dfy | accounting and delivery laws over whole runs |
| KernelOutcomes.dfy | what each call answers and does, seen by its caller; laws that tie several answers together |
| KernelFairness.dfy, KernelFrame.dfy | bounded waiting, equal shares, rotation; what others can do to a process, exit codes |
| CoreSystem.dfy | the Python class with fields updated in place, proved to refine the atomic steps |
| Threads.dfy | statements, locks and threads of the Python kernel; lock discipline and freedom from deadlock |
| SoloRuns.dfy, Atomicity.dfy | each handler alone is its atomic step; every interleaving equals a sequence of whole operations |
| ConcurrentRuns.dfy, ConcurrentReads.dfy | the laws of sequential runs carried over to concurrent ones; real-time order; what readers see while calls are under way |
| PriorityScheduler.dfy, SchedulerProtocol.dfy | the C++ scheduler: data and class; threads, mutex and condition variable |
| StopProtocol.dfy, JoinProtocol.dfy | what becomes of a stop: when it is lost; when its join fails; that it otherwise ends the scheduler thread and returns |
| RegionAllocator.dfy | the C++ allocator |
| Dispatcher.dfy | the C++ dispatcher |

## How the code is read

- The Python kernel starts in the state that `initialize` leaves. A reply is `Ok` or `Err`; an exception inside a handler
  becomes `Err` and keeps the state reached when it was raised.
- uuid4 results are arguments of the calls. Laws about memory assume that a new one names no live region (`FreshIds`).
- Process priorities, policies, permissions and message kinds are the integer values of their enums; the enum
  constructors accept exactly those values.
- The docstring of `process_wait` promises to wait for an exit, but no exit wakes a waiter (core_system.py:577-604); the
  model follows the code, and `KernelFrame.WaitersStayBlocked` states it. The default `policy=0` of `process_create` is
  refused by its own enum (core_system.py:545-555); `KernelIndex.PolicyRange` states that.
- Five laws do not hold for all inputs. Each has an example and its exact condition over whole runs:
  - ownership of regions is lost exactly by an accepted create for a pid that already has mappings
    (`KernelHistory.OwnershipBijection`, `KernelMemory.StepKeepsOwned`; example `KernelMemory.OrphanExample`);
  - `memory_usage` is the charged total minus the uncharged regions freed since the last exit exactly as long as no
    process exits without a memory list while its usage is not zero, because such an exit does not reset the usage
    (core_system.py:912-913; `KernelHistory.UsageSinceLastExit`, `KernelHistory.ExitSettlesAccount`; example
    `KernelHistory.UnsettledExample`). With refunds counted since the last release of memory the law holds on all runs
    (`KernelHistory.StepKeepsAccounts`);
  - a stop of the C++ scheduler is lost exactly when the start, which sets the flag without the mutex
    (src/core/CoreSystem.cpp:16-18), overtakes it after it has cleared the flag (`StopProtocol.StopsHeeded`; example
    `StopProtocol.LostStop`);
  - not every stop of the C++ scheduler that is heeded returns, because `stop` asks whether the thread is joinable and
    joins it without the mutex (src/core/CoreSystem.cpp:27-29): where nothing can move any more, every stop has returned
    without throwing exactly if no stop found the thread joinable between another one's finding and the return of its
    join, and the program has been terminated exactly if a task made a stop, which joins its own thread
    (`JoinProtocol.StopCompletes`; example `JoinProtocol.OverlappingStops`). One stop at a time, and none made by a
    task, is enough (`JoinProtocol.StopsReturn`). A stop that comes before the thread exists returns at once, although
    src/core/CoreSystem.hpp:43-44 promises that it waits (`JoinProtocol.ReturnSeesEnd`);
  - the C++ allocator keeps its layout and accounting exactly as long as no effective request makes `m_used + size`
    wrap (`RegionAllocator.RunConserves`, `RegionAllocator.AllocateSafety`; example `RegionAllocator.WrapExample`).
- Sequential steps and threads are two views: `Kernel.dfy` treats a call as one step, `Threads.dfy` as a program of
  statements and lock actions; `Atomicity.dfy` connects them for any number of threads.
- Adds that a C++ task makes while it runs appear in `SchedulerProtocol.dfy` as adds of a client; a stop that a task
  makes has steps of its own there. A join that fails is taken to throw out of `stop`, as the join of a thread that
  another one joins does where it is detected.

## Model

| member | source | states |
|---|---|---|
| KernelIndex.StepKeepsIndex | core_system.py:459-855 | Any call or scheduler pass keeps the ready queue free of duplicates and equal to the READY pids, the block table equal to the BLOCKED pids, every pid below the next one, only pid 0 RUNNING, mailboxes only for known processes, and nobody asleep on a filled mailbox |
| KernelIndex.RunKeepsIndex | core_system.py:446-532 | The same after any sequence of calls and passes |
| KernelIndex.BootIndex | core_system.py:245-287 | The state after start-up satisfies the agreement |
| KernelIndex.CreateEffect | core_system.py:536-575 | A create that succeeds changes exactly: one process record, the end of the queue, three segments, one list and one empty mailbox |
| KernelIndex.CreateKeepsIndex | core_system.py:536-575 | Create keeps the indices in agreement, also when an enum constructor raises after the pid was taken |
| KernelIndex.ExitKeepsIndex | core_system.py:577-604 | Exit from any state, terminated included, keeps the indices in agreement |
| KernelIndex.BlockKeepsIndex | core_system.py:620-626 | Blocking a caller in any state (ready, blocked or terminated) keeps the indices in agreement |
| KernelIndex.WakeKeepsIndex | core_system.py:787-804 | Posting a message and waking its target keeps the indices in agreement and leaves no sleeper with mail |
| KernelIndex.PassKeepsIndex | core_system.py:459-486 | A pass keeps the indices in agreement |
| KernelIndex.MemoryCallsKeepScheduling | core_system.py:633-761 | The three memory calls touch nothing of a process record but its usage, and no queue or mailbox |
| KernelIndex.FailureAtomicity | core_system.py:498-532 | A call that returns success=False leaves the whole state unchanged, except that a create refused for its priority or policy uses up exactly one pid; such a create always fails |
| KernelIndex.PolicyRange | core_system.py:545-555 | A create succeeds exactly for a non-empty name, a priority whose clamped value is in the enum, and a policy of at least 1 (the default 0 is refused); policies 1 to 4 are kept and larger ones become 4 |
| KernelModel.HighestEnd | core_system.py:651-656 | The address search returns the largest region end of a list, or the user base if that is larger |
| KernelMemory.StepKeepsMemory | core_system.py:498-928 | Every step keeps: each listed id is live, owned by the lister and listed once; regions are non-empty; charged regions are listed; a region that is not a mapping lies behind everything listed before it |
| KernelMemory.BootMemory | core_system.py:347-374 | The two boot regions satisfy all of this |
| KernelMemory.AddKeepsMemory | core_system.py:658-674 | Adding a fresh region behind the existing ones, or a mapping anywhere, keeps the bookkeeping |
| KernelMemory.FreeKeepsMemory | core_system.py:703-711 | Removing one region from list and table keeps the bookkeeping |
| KernelMemory.FreeMemoryKeepsMemory | core_system.py:909-928 | Releasing all memory of a process keeps the bookkeeping of every other process |
| KernelMemory.InitKeepsMemory | core_system.py:857-907 | The three segments of a new process keep the bookkeeping, even when the new list replaces an older one |
| KernelMemory.OverlapNeedsMapping | core_system.py:648-674 | Two regions of a process that share an address include a mapping, and it is the later one |
| KernelMemory.AllocateFindsFreeSpace | core_system.py:633-687 | The region lookup of allocate never raises; it succeeds exactly for an existing caller, a positive size and a valid permission; the address replied is that of the region it names, in user space and behind all regions of the caller |
| KernelMemory.MemoryMapIsStableSort | core_system.py:1003-1026 | The map reported for a process is the stable sort by address of its list |
| KernelMemory.ReportedByAddress | core_system.py:1003-1026 | It has the ids of the list, all live, by rising start address of their regions |
| KernelMemory.CreationOrder | core_system.py:1003-1026 | Without mappings the reported map is the list in creation order |
| KernelMemory.StepKeepsOwned | core_system.py:713-761 | Given that every live region is listed by its owner, a step keeps this if and only if it is not a create with acceptable arguments for a pid that already has a non-empty list |
| KernelMemory.OwnershipOverRuns | core_system.py:713-928 | Regions and lists match one to one in every state of a run with fresh ids if and only if no event of the run is such a create |
| KernelMemory.OrphanExample | core_system.py:896-901 | A map by a pid not created yet, followed by its creation, leaves a live region in no list |
| KernelMemory.ExitRemovesExactlyOwn | core_system.py:909-928 | An exit removes exactly the regions listed for the caller; these are exactly the regions it owns if and only if none of its regions is orphaned |
| KernelHistory.KernelSafety | core_system.py:459-928 | Every run from start-up with fresh ids: index agreement, memory bookkeeping, the accounting law and the delivery law hold |
| KernelHistory.StepKeepsAccounts | core_system.py:676-678 | memory_usage of every process stays its charged regions minus the uncharged regions it freed since its memory was last released |
| KernelHistory.AllocateAccount | core_system.py:633-687 | Allocate charges what it lists |
| KernelHistory.MapAccount | core_system.py:715-761 | Map lists a region without charging it |
| KernelHistory.FreeAccount | core_system.py:689-713 | Freeing a charged region settles its charge; freeing an uncharged one leaves a refund |
| KernelHistory.NewcomerAccount | core_system.py:903-907 | A new process is charged exactly its three segments |
| KernelHistory.OthersMemory | core_system.py:498-928 | No call by another process and no pass touches usage, list or regions of a process |
| KernelHistory.UsageIsExact | core_system.py:746-752 | In every reachable state usage is at most the charged total, and equal to it exactly when the process has no outstanding refund |
| KernelHistory.ExitSettlesAccount | core_system.py:909-928 | In any state that satisfies the invariants, an exit leaves usage and refund at zero if and only if the process has a memory list or its usage is zero already |
| KernelHistory.StepKeepsSinceExit | core_system.py:746-752 | The accounting law with refunds counted since the last exit survives a step if and only if the step is not an exit that settles nothing |
| KernelHistory.UsageSinceLastExit | core_system.py:746-752 | On every run with fresh ids that law holds throughout if and only if no process exits without a memory list while its usage is not zero; runs whose map callers are below the next pid contain no such exit |
| KernelHistory.UnsettledExample | core_system.py:912-913 | Map under pid 1000, create it, exit, free the mapping, exit: the usage stays at minus 32 MiB |
| KernelHistory.StepKeepsLetters | core_system.py:763-855 | Messages sent to a pid since its last exit are those received since, followed by its mailbox, in order, after every step |
| KernelHistory.SendKeepsLetters | core_system.py:787-791 | A send appends to the end of the delivery record and of the mailbox |
| KernelHistory.ReceiveKeepsLetters | core_system.py:818-837 | A receive keeps the delivery law and, if there is mail, moves the oldest message from the mailbox to the received ones |
| KernelHistory.NoLostWakeUp | core_system.py:787-850 | In every reachable state a process blocked on ipc_receive has an empty or absent mailbox |
| KernelHistory.TableGrows | core_system.py:545-563 | No step removes a process, and only a successful create adds one, under the next pid |
| KernelHistory.ReachableLayout | core_system.py:648-674 | In every reachable state: overlaps involve a later mapping, and without mappings the reported map is in creation order |
| KernelHistory.OwnershipBijection | core_system.py:909-928 | On every run from start-up with fresh ids, region table and lists match one to one throughout if and only if no create hands out a pid that already has mappings; map callers below the next pid rule that out |
| KernelFairness.BoundedWaiting | core_system.py:446-486 | A process at place i that neither exits nor blocks is dispatched within i + 1 passes, under any interleaving of calls |
| KernelFairness.EqualShares | core_system.py:459-486 | Of two processes that stay ready, the one ahead is dispatched as often as the other or once more |
| KernelFairness.ExactRotation | core_system.py:459-496 | m passes alone rotate a queue of n by m mod n and give place i exactly m/n dispatches, plus one if i < m mod n |
| KernelFairness.CallKeepsPlace | core_system.py:498-855 | During any call a ready process only moves forward in the queue and is not counted as dispatched |
| KernelFairness.CallKeepsOrder | core_system.py:498-855 | No call lets a ready process overtake another |
| KernelFairness.PassMoves | core_system.py:467-486 | A pass dispatches the head and puts it last; everybody else moves one place forward |
| KernelFrame.OthersFrame | core_system.py:459-855 | Steps of others change record, block entry and mailbox of a process only by dispatching it, by sending to it, and by waking it from a receive |
| KernelFrame.AtRestStays | core_system.py:577-631 | A process that has terminated or sleeps in a wait stays so, with an unchanged record, until it makes a call itself |
| KernelFrame.ExitCodeRoundTrip | core_system.py:606-618 | Waiting for a process that exited and kept silent since returns the code of that exit |
| KernelFrame.WaitOutcome | core_system.py:606-631 | Wait returns an exit code exactly for a terminated target, whoever calls; otherwise it blocks a known caller and refuses an unknown caller or target without any change |
| KernelFrame.WaitersStayBlocked | core_system.py:577-604 | Nothing others do ends a wait, not even the exit of the process waited for |
| KernelOutcomes.CreateOutcome | core_system.py:536-575 | When a create is accepted, in terms of its arguments, with which error it is refused otherwise, the pid in its reply, and every table it changes |
| KernelOutcomes.CreatedSegments | core_system.py:857-907 | The three new segments, address by address; the code cannot be written, data and stack cannot be executed; no other region changes |
| KernelOutcomes.ExitOutcome | core_system.py:577-604 | An exit of a known process sets state and code, takes it out of queue, block table, memory and mailboxes, and changes nobody else |
| KernelOutcomes.AllocateOutcome | core_system.py:633-687 | When an allocation is accepted; its reply names exactly one new region, with the address, size, owner and permissions recorded; the list grows at its end, the usage by the size; the address is the user base or the end of a listed region, behind all of them |
| KernelOutcomes.MapOutcome | core_system.py:715-761 | A map succeeds exactly for a live target that is shared or owned by the caller and a valid permission; the one new region has the address asked for (or the mapping base), the size of the target, the caller as owner and the permissions asked for |
| KernelOutcomes.FreeOutcome | core_system.py:689-713 | A free succeeds exactly for a live region of the caller; it removes that region alone from table and list and lowers the usage by its size |
| KernelOutcomes.SendOutcome | core_system.py:763-809 | A send succeeds exactly between known processes with a valid kind; the message, with the id replied, goes to the end of the target's mailbox, and the target is woken exactly if it sleeps in a receive |
| KernelOutcomes.ReceiveOutcome | core_system.py:811-855 | A receive delivers the oldest message and leaves the rest; with an empty mailbox it answers that there is none, or blocks the caller |
| KernelOutcomes.UnregisteredOutcome | core_system.py:498-507 | An unregistered call number is refused and changes nothing |
| KernelOutcomes.PassOutcome | core_system.py:459-496 | A pass changes the queue and, of the process at its head, state, run time and dispatch count, and nothing else |
| KernelOutcomes.BootProcesses | core_system.py:245-287 | After start-up the kernel runs, init alone is ready, nobody sleeps |
| KernelOutcomes.BootRegions | core_system.py:347-374 | The two boot regions are apart and below user space; everybody may map the shared one, only the kernel its own |
| KernelOutcomes.FreeUndoesAllocate | core_system.py:633-713 | Freeing what has just been allocated restores the state, up to an empty list |
| KernelOutcomes.FreeRefundsMap | core_system.py:689-761 | Freeing a mapping just made restores regions and list but lowers the usage by the size of the mapping |
| KernelOutcomes.FirstAllocation | core_system.py:633-907 | The first allocation of a new process begins where its stack ends |
| KernelOutcomes.DrainMailbox | core_system.py:811-855 | As many receives as there are messages waiting deliver exactly these, in order, and change nothing else |
| KernelOutcomes.EverythingIsDelivered | core_system.py:763-855 | After any run, a process that receives that often has received exactly what was sent to it since its last exit, in order |
| KernelOutcomes.IdentityKept | core_system.py:545-555 | On every run parent, name, priority and policy of a process stay what its creation gave it |
| KernelOutcomes.PidsNeverReused | core_system.py:545-575 | On every run the pids answered by creates ascend strictly: none is handed out twice |
| KernelOutcomes.PidsBelong | core_system.py:545-575 | A pid answered by a create belonged to no process before and belongs to one ever after |
| CoreSystemClass.CoreSystem.constructor | core_system.py:200-222 | A new system is empty, with pids from 1000 |
| CoreSystemClass.CoreSystem.Initialize | core_system.py:245-287 | Starts the system once: from an empty system it yields the boot state, and the invariants hold |
| CoreSystemClass.CoreSystem.InitKernelMemory | core_system.py:347-374 | Registers the two boot regions and lists them for pid 0 |
| CoreSystemClass.CoreSystem.RunScheduler | core_system.py:459-496 | Updating fields in place, one pass has exactly the effect of the atomic pass |
| CoreSystemClass.CoreSystem.InvokeSyscall | core_system.py:498-532 | State and reply after the in-place handlers are those of the atomic call, and the class invariant is kept for fresh ids |
| CoreSystemClass.CoreSystem.SyscallProcessCreate | core_system.py:536-575 | In-place create refines the atomic step |
| CoreSystemClass.CoreSystem.InitProcessMemory | core_system.py:857-907 | In-place set-up of the three segments refines the atomic step |
| CoreSystemClass.CoreSystem.SyscallProcessExit | core_system.py:577-604 | In-place exit refines the atomic step |
| CoreSystemClass.CoreSystem.FreeProcessMemory | core_system.py:909-928 | The deletion loop removes exactly the listed regions |
| CoreSystemClass.CoreSystem.SyscallProcessWait | core_system.py:606-631 | In-place wait refines the atomic step, including the lookup that raises for an unknown caller |
| CoreSystemClass.CoreSystem.FindStart | core_system.py:648-656 | The address loop fails exactly when some listed region is not in the table, and otherwise finds the highest end of the caller's regions |
| CoreSystemClass.CoreSystem.RecordRegion | core_system.py:667-674 | Registering and listing a region, with the missing list created first, refines the atomic update |
| CoreSystemClass.CoreSystem.SyscallMemoryAllocate | core_system.py:633-687 | In-place allocate, refusals and raised look-ups included, refines the atomic step |
| CoreSystemClass.CoreSystem.SyscallMemoryFree | core_system.py:689-713 | In-place free refines the atomic step |
| CoreSystemClass.CoreSystem.SyscallMemoryMap | core_system.py:715-761 | In-place map refines the atomic step |
| CoreSystemClass.CoreSystem.SyscallIpcSend | core_system.py:763-809 | In-place send and wake-up refine the atomic step |
| CoreSystemClass.CoreSystem.SyscallIpcReceive | core_system.py:811-855 | In-place receive refines the atomic step |
| CoreSystemClass.CoreSystem.GetMemoryMap | core_system.py:1003-1026 | The collecting loop and the sort yield the stable sort of the live regions of a process |
| CoreSystemClass.CoreSystem.CountStates | core_system.py:1028-1034 | The counting loop yields, for each state, the number of processes in it |
| CoreSystemClass.CountsMatchQueues | core_system.py:1028-1034 | The reported READY and BLOCKED counts are the lengths of the ready queue and of the block table |
| Threads.ScriptDisciplined | core_system.py:459-1051 | Every public operation acquires its locks in one discipline: nothing but the memory lock under the memory lock, the mail lock only under the system call lock, the system call lock first |
| Threads.ExecDisciplined | core_system.py:536-855 | Whatever branch a statement takes, the rest of its handler keeps the discipline |
| Threads.LocksKept | core_system.py:498-532 | Every step of every thread keeps the discipline and mutual exclusion |
| Threads.SomeoneCanMove | core_system.py:461-500 | While a thread is unfinished, some thread can move, although create and exit nest the proc and mail locks one way and send and receive the other |
| Threads.StepShrinks | core_system.py:459-1051 | Every step lowers the total of remaining actions |
| Threads.DeadlockFreedom | core_system.py:459-1051 | Any number of threads with any operations: schedules are bounded, and one that cannot go on has finished everything |
| Threads.UngatedHandlersDeadlock | core_system.py:577-809 | Without the system call lock an exit and a send can block each other for good |
| SoloRuns.CallCompletes | core_system.py:536-855 | The statements of each handler, run without interference, are its atomic step |
| SoloRuns.PassCompletes | core_system.py:459-496 | The statements of a pass, run without interference, are one atomic pass |
| Atomicity.StatementsCommute | core_system.py:633-855 | Each statement of a call outside the proc lock commutes with each statement of a pass |
| Atomicity.MovesBehindPass | core_system.py:459-486 | A statement of a call can be moved behind the part of a pass already done |
| Atomicity.PassMovesBefore | core_system.py:459-486 | A whole pass can be moved before the part of a call done outside the proc lock |
| Atomicity.CallTakesEffect | core_system.py:498-532 | At its last statement a call has its atomic effect and reply |
| Atomicity.StepLinked | core_system.py:459-855 | Every step of every thread keeps the correspondence between the kernel and the sequence of operations done |
| Atomicity.QuiescentStates | core_system.py:459-855 | In every reachable state with no call and no pass under way the kernel is that of the recorded sequence |
| Atomicity.Atomicity | core_system.py:459-855 | Every interleaving that runs to its end equals one sequence of whole operations, in the order of each thread, with the same replies |
| ConcurrentRuns.ReplayIsRun | core_system.py:459-855 | The recorded sequence of operations is a sequential run of calls and passes |
| ConcurrentRuns.RealTimeOrder | core_system.py:459-855 | The sequence respects real time: at any cut of a schedule, operations that have their reply stand before the cut of the sequence, which never changes later, and operations begun later stand behind it |
| ConcurrentRuns.ConcurrentSafety | core_system.py:459-928 | In every reachable state with no call and no pass under way: index agreement, memory bookkeeping, the accounting law and the delivery law |
| ConcurrentRuns.BetweenQuiescentStates | core_system.py:459-855 | From one such state to a later one the kernel makes exactly the run recorded in between |
| ConcurrentRuns.ConcurrentExitCode | core_system.py:606-618 | At any cut of any schedule: a wait whose target exited earlier in the sequence, and has taken no further call since, has been answered with the code of that exit |
| ConcurrentReads.SeenUnderProcLock | core_system.py:930-1034 | Whenever no writer holds the proc lock, calls under way or not: queue, block table and process records, usage aside, are those of the recorded sequence, and the indices agree; this is what the process and system reports see |
| ConcurrentReads.ReaderKeepsWritersOut | core_system.py:930-1034 | A read-only method that holds a lock keeps every call and pass under way out of it |
| ConcurrentReads.QueryTakesItsLocks | core_system.py:930-1051 | Each read-only method begins by taking exactly the locks of what it reads |
| ConcurrentReads.ConcurrentWaiting | core_system.py:446-486 | Bounded waiting between any two such states, under any interleaving of statements: place i is dispatched once more than i passes have taken effect |
| ConcurrentReads.SeenUnderMemLock | core_system.py:955-1034 | Whenever no writer holds the memory lock, region table and lists are those of the recorded sequence, or of it with the call under way added: no half-done update is visible |
| ConcurrentReads.MemoryReports | core_system.py:1003-1026 | So a memory report made at any time shows distinct live regions of the process in the one stable address order, and in creation order when there are no mappings |
| PriorityScheduler.AddKeepsQueue | src/core/CoreSystem.cpp:32-42 | Insertion keeps the deque strictly ordered by falling priority, then rising pid |
| PriorityScheduler.FrontIsBest | src/core/CoreSystem.cpp:62-63 | The front is the pending job of highest priority, the oldest among equals |
| PriorityScheduler.BestIsUnique | src/core/CoreSystem.cpp:62-63 | There is only one such job |
| PriorityScheduler.DequeRefinesBest | src/core/CoreSystem.cpp:32-66 | Any interleaving of arrivals and pops hands out the jobs that "take the best pending one" picks from a plain set |
| PriorityScheduler.BatchIsStableSort | src/core/CoreSystem.cpp:32-42 | A batch waits in the one stable sort of its arrival order by falling priority |
| PriorityScheduler.AddTracked | src/core/CoreSystem.cpp:32-42 | An add keeps each pid in exactly one place: queued and READY, in hand and RUNNING, or TERMINATED |
| PriorityScheduler.TakeTracked | src/core/CoreSystem.cpp:62-66 | So does a dispatch, which enters the pid in the record of dispatches for the first time |
| PriorityScheduler.EmptyMeansDone | src/core/CoreSystem.cpp:53-77 | With nothing queued and nothing in hand, every pid handed out has terminated and the record is a permutation of them |
| PriorityScheduler.CoreSystem.constructor | src/core/CoreSystem.hpp:61-67 | A new scheduler is empty, not running, with pids from 1 and nothing dispatched |
| PriorityScheduler.CoreSystem.AddProcess | src/core/CoreSystem.cpp:32-42 | The search loop and insertion equal the ordered insertion and keep every pid in exactly one place |
| PriorityScheduler.CoreSystem.GetProcessState | src/core/CoreSystem.cpp:44-51 | The answer is none exactly for a pid never handed out, READY exactly for one in the deque, RUNNING exactly for the one in hand, TERMINATED exactly for one dispatched and no longer in hand |
| PriorityScheduler.CoreSystem.TakeNext | src/core/CoreSystem.cpp:56-66 | After the wait: ends exactly when the deque is empty, else hands out the best pending job, marked RUNNING and entered in the record of dispatches |
| PriorityScheduler.CoreSystem.RunNext | src/core/CoreSystem.cpp:54-77 | One round of the loop takes the front, runs it and marks it TERMINATED, or ends on an empty deque |
| PriorityScheduler.CoreSystem.SchedulerLoop | src/core/CoreSystem.cpp:53-78 | After a stop request, with tasks that add nothing, the loop runs exactly what is queued, in queue order; then every pid ever added is TERMINATED after exactly one dispatch |
| SchedulerProtocol.MutexKept | src/core/CoreSystem.cpp:16-78 | Every step of every thread keeps mutual exclusion |
| SchedulerProtocol.WakeUpKept | src/core/CoreSystem.cpp:21-61 | Whenever the scheduler is parked, the flag is up and the queue empty, or some client still owes it a notification |
| SchedulerProtocol.ParkedMeansNothingToDo | src/core/CoreSystem.cpp:21-61 | Parked with the mutex free: the flag is up and the queue empty, or a stop is between its unlock and notify_all, which can go on and wakes the scheduler |
| SchedulerProtocol.RaceWindow | src/core/CoreSystem.cpp:21-26 | That window is reachable |
| SchedulerProtocol.OnceKept | src/core/CoreSystem.cpp:32-77 | Each pid handed out is in exactly one place: queued and READY, in hand and RUNNING, or TERMINATED; the dispatch record has no duplicates |
| SchedulerProtocol.OnlyForward | src/core/CoreSystem.cpp:32-77 | A step moves a process at most one stage forward; a dispatch is recorded and takes the best pending job |
| SchedulerProtocol.RunKeepsInv | src/core/CoreSystem.cpp:16-78 | Every schedule keeps these invariants |
| SchedulerProtocol.LoopEndDrains | src/core/CoreSystem.cpp:56-61 | When the loop ends, every process added so far has terminated and was dispatched exactly once |
| SchedulerProtocol.SchedulerSafety | src/core/CoreSystem.cpp:16-78 | In every state that any schedule of any number of clients reaches from a new system: one mutex holder, each pid in one place, rightful parking, processes move only forward, and a loop that ends has drained |
| StopProtocol.StopsHeeded | src/core/CoreSystem.cpp:16-30 | Over every schedule: in all states every stop past its clear finds the flag down, and none that has notified the scheduler finds it parked, if and only if the start does not overtake such a stop |
| StopProtocol.NoStopMissed | src/core/CoreSystem.cpp:16-61 | After a calm start, a scheduler parked with the mutex free has no stop to heed and an empty queue, or a stop is about to notify it |
| StopProtocol.ClearLasts | src/core/CoreSystem.cpp:16-25 | A cleared flag stays down throughout a schedule if and only if the schedule does not contain the start |
| StopProtocol.LaunchedOnce | src/core/CoreSystem.cpp:16-25 | So a stop that clears the flag after the start is never overwritten |
| StopProtocol.LostStop | src/core/CoreSystem.cpp:16-30 | A start that overtakes a stop: the client joins a scheduler that sleeps, whose only step is a spurious wake-up, and no schedule ever frees it |
| JoinProtocol.FailureFree | src/core/CoreSystem.cpp:27-29 | Over every schedule no join fails if and only if no client calls join while, or after, another client joins the same thread |
| JoinProtocol.SoundRun | src/core/CoreSystem.cpp:27-29 | A schedule stays free of failed joins, and of joins bound to fail, if and only if no stop finds the thread joinable between another one's finding and the return of its join; such an overlap is never undone |
| JoinProtocol.OneStopNeverOverlaps | src/core/CoreSystem.cpp:21-30 | If no stop begins while another one has not returned, there is no such overlap |
| JoinProtocol.OverlappingStops | src/core/CoreSystem.cpp:21-30 | Two clients that stop a running system at the same time: the first one waits in join, the join of the second fails |
| JoinProtocol.TaskNeverReturns | src/core/CoreSystem.cpp:68-70 | The scheduler thread is in or behind a stop made by its own task if and only if a task has begun one: it never gets back to its loop |
| JoinProtocol.TaskStopLowersFlag | src/core/CoreSystem.cpp:21-25 | A stop made by a task has lowered the flag before it joins |
| JoinProtocol.ReturnSeesEnd | src/core/CoreSystem.cpp:21-30 | A stop that returns has seen the scheduler thread end if and only if that thread existed by then |
| JoinProtocol.StopIsBounded | src/core/CoreSystem.cpp:21-78 | Once the flag is down after the start, every schedule without new calls is bounded, spurious wake-ups included |
| JoinProtocol.StopCompletes | src/core/CoreSystem.cpp:21-78 | Where such a schedule cannot go on: the program has been terminated exactly if a task made a stop; otherwise the scheduler thread has ended, and every stop has returned without throwing exactly if no two overlapped in join; everything added has run unless an add was still under way or came after the end |
| JoinProtocol.StopsReturn | src/core/CoreSystem.cpp:21-78 | So with one stop at a time, and none made by a task, the scheduler thread ends and every stop returns |
| StableOrder.SortIsStable | src/core/CoreSystem.cpp:32-42 | Repeated ordered insertion yields a stable sort |
| StableOrder.StableSortUnique | src/core/CoreSystem.cpp:32-42 | Two ascending sequences with the same elements of each key in the same order are equal |
| RegionAllocator.AllocateSafety | src/memory/MemoryRegion.hpp:55-66 | An allocation keeps live segments non-empty, ascending, disjoint and inside the used part if and only if used + size does not wrap around (or nothing is granted anyway) |
| RegionAllocator.AllocateOutcome | src/memory/MemoryRegion.hpp:55-66 | A request is granted exactly when it fits behind used or the sum wraps; the segment recorded is the one returned; it starts behind all live segments, ends at the new used if it fits, and reaches beyond the buffer if it wraps |
| RegionAllocator.WrapExample | src/memory/MemoryRegion.hpp:58-62 | A request that wraps is granted and breaks the layout |
| RegionAllocator.FreeSafety | src/memory/MemoryRegion.hpp:68-79 | Freeing any address keeps the layout, holes included |
| RegionAllocator.AddressesUnique | src/memory/MemoryRegion.hpp:69-70 | At most one live segment has an address |
| RegionAllocator.FreeOutcome | src/memory/MemoryRegion.hpp:68-79 | A free drops exactly the segment at the address, and used falls by its size exactly if it was the last one; any other address changes nothing |
| RegionAllocator.FreeUndoesAllocate | src/memory/MemoryRegion.hpp:55-79 | Freeing what has just been granted restores the region, unless the grant wrapped |
| RegionAllocator.FreesWhatIsGranted | src/memory/MemoryRegion.hpp:55-79 | After any run without wrap, a free succeeds exactly for an address granted and not freed since |
| RegionAllocator.StepConserves | src/memory/MemoryRegion.hpp:55-79 | used = live sizes + sizes freed while not last survives a step if and only if the step does not wrap; the leak never falls |
| RegionAllocator.RunConserves | src/memory/MemoryRegion.hpp:55-79 | Over every run, layout and accounting hold in all states if and only if no effective request wraps |
| RegionAllocator.LeakLaw | src/memory/MemoryRegion.hpp:55-79 | On every run without wrap: the leak is exactly the holes plus the tail below used; with nothing live all of used is leak |
| RegionAllocator.LifoRefinesStack | src/memory/MemoryRegion.hpp:55-79 | A last-in-first-out step without leak is exactly the step of a stack of sizes that is run by itself if and only if it does not wrap: the stack pushes what fits above its sum and pops the block addressed by the sum of those below it |
| RegionAllocator.LifoRun | src/memory/MemoryRegion.hpp:55-79 | A whole such run is the run of that stack: its block sizes are those of the live segments, which never leak and stay packed from the start of the buffer |
| RegionAllocator.StackOverRuns | src/memory/MemoryRegion.hpp:55-79 | A last-in-first-out run equals the run of that stack in all its states if and only if no effective request wraps |
| RegionAllocator.MemoryRegion.constructor | src/memory/MemoryRegion.hpp:23-28 | A new region is empty and has a buffer exactly for a non-zero capacity |
| RegionAllocator.MemoryRegion.Move | src/memory/MemoryRegion.hpp:32-37 | Move construction takes everything over and empties the source |
| RegionAllocator.MemoryRegion.Assign | src/memory/MemoryRegion.hpp:39-50 | Move assignment does the same; assigning to itself changes nothing |
| RegionAllocator.MemoryRegion.AllocateSegment | src/memory/MemoryRegion.hpp:55-66 | The method has the specified effect and keeps the layout if and only if nothing wraps |
| RegionAllocator.MemoryRegion.FreeSegment | src/memory/MemoryRegion.hpp:68-79 | The search loop frees the segment at the address, and reports whether there was one |
| Dispatcher.Conservation | src/core/Syscall.cpp:23-79 | On every run, exits included: messages sent to a pid are those received plus its mailbox, in order; the next pid has neither mailbox nor history |
| Dispatcher.DispatcherSafety | src/core/Syscall.cpp:14-79 | All of this in every state that calls reach from a new dispatcher |
| Dispatcher.Lifetime | src/core/Syscall.cpp:23-42 | On every run a pid is alive exactly if it has been handed out and has not been told to exit since |
| Dispatcher.SendOutcome | src/core/Syscall.cpp:30-64 | After any calls, a send or an exit succeeds exactly for such a pid |
| Dispatcher.CreateOutcome | src/core/Syscall.cpp:23-28 | A create answers a pid that no process has or had and that has no mail |
| Dispatcher.ExitOutcome | src/core/Syscall.cpp:30-42 | An exit removes exactly the process named, or is refused |
| Dispatcher.SendEffect | src/core/Syscall.cpp:44-64 | A send to a live process puts the letter at the end of its mailbox and touches no other, or is refused |
| Dispatcher.ReceiveOutcome | src/core/Syscall.cpp:66-79 | A receive hands out the oldest letter and leaves the rest; an empty mailbox refuses it |
| Dispatcher.MalformedOutcome | src/core/Syscall.cpp:14-46 | Calls without their arguments and unknown calls are refused and change nothing |
| Dispatcher.DrainMailbox | src/core/Syscall.cpp:66-79 | As many receives as there are letters waiting hand out exactly these, in order |
| Dispatcher.ExitLeavesMail | src/core/Syscall.cpp:30-79 | After any run, the letters left waiting at an exit can all be received under the old pid, in order |
| Dispatcher.PidsNeverReused | src/core/Syscall.cpp:23-28 | On every run the pids answered by creates ascend strictly |
| Dispatcher.StepKeepsGood | src/core/Syscall.cpp:23-79 | Every call keeps this, with all pids in use below the next one |
| Dispatcher.MailSurvivesExit | src/core/Syscall.cpp:30-79 | After an exit, on every run: nothing more is sent to the pid, and what was waiting equals what has been received under it since followed by what still waits, in order |
| Dispatcher.GatedRunsAreSerial | src/core/Syscall.cpp:14-64 | With the dispatcher mutex every interleaving equals the sequence of its calls, in state and in the result each caller gets; a send pushes only to a live process |
| Dispatcher.RunLogs | src/core/Syscall.cpp:14-21 | What a caller has entered is, in order, its part of the log followed by its call under way |
| Dispatcher.ConcurrentConservation | src/core/Syscall.cpp:14-79 | So conservation holds for any number of concurrent callers of a new dispatcher, and the log has the calls each of them entered, in its order, followed by its call under way, with the results it got |
| Dispatcher.UngatedSendReachesDeadProcess | src/core/Syscall.cpp:52-62 | Without it an exit can slip between check and push |
| Dispatcher.SyscallDispatcher.constructor | src/core/Syscall.hpp:46-54 | A new dispatcher is empty, with pids from 1 |
| Dispatcher.SyscallDispatcher.InvokeSyscall | src/core/Syscall.cpp:14-21 | State and result after the in-place handlers are those of the specified call |
| Dispatcher.SyscallDispatcher.ProcessCreate | src/core/Syscall.cpp:23-28 | In-place create refines the specified call |
| Dispatcher.SyscallDispatcher.ProcessExit | src/core/Syscall.cpp:30-42 | In-place exit refines the specified call; mailboxes are left alone |
| Dispatcher.SyscallDispatcher.IpcSend | src/core/Syscall.cpp:44-64 | In-place send refines the specified call |
| Dispatcher.SyscallDispatcher.IpcReceive | src/core/Syscall.cpp:66-79 | In-place receive refines the specified call |

## Left out

- Threads.Exec: the checks at the head of a handler, the address loop of memory_allocate, and the emptiness test together with the removal of a message each count as one statement; the bodies under the proc lock are split less finely than the others.
- Threads.Script: the read-only methods appear with their lock actions only; ConcurrentReads states what they can see, except for the usage of a process, which a call under way may not have updated yet.
- CoreSystemClass.CoreSystem.GetMemoryMap: covers one process; the map of all regions depends on dictionary order and is left out.
- CoreSystemClass.CoreSystem.CountStates: the memory totals and the uptime of get_system_info are left out.
- PriorityScheduler.CoreSystem.SchedulerLoop: covers the drain after a stop request with tasks that add nothing; tasks that add, and running threads, are covered by SchedulerProtocol, StopProtocol and JoinProtocol.
- RegionAllocator.LeakLaw: covers runs without wrap; RegionAllocator.RunConserves shows that on other runs the accounting fails.
- KernelMemory.StepKeepsMemory: assumes that uuid4 returns an id that no live region has.
- KernelHistory.OwnershipBijection: assumes, like all laws about memory, that uuid4 returns fresh ids.
- SchedulerProtocol.SchedulerSafety: covers one start and one scheduler thread per system; starting again after a stop has returned is not modelled, nor is a second start while the thread exists, which ends the program in C++.
- JoinProtocol.FailureFree: two joins of one thread at the same time are undefined in C++; the model lets the second one fail and the first one go on.
- Dispatcher.Invoke: starts after the textual arguments are parsed; pids are unbounded, so the overflow of a 32-bit counter is not modelled.
- System call statistics, logging, wall-clock times, psutil detection and directory creation of the Python kernel.
- start and stop of the Python scheduler thread, and calls made before initialize.
- Arguments of the wrong Python type or number, which raise before a handler runs.
- CPU affinity, deadlines, weights, process contexts, pending responses and message timeouts: declared in core_system.py and not used by it.
- Rounding of floating-point run times: they are reals here.
- The contents of memory, raw pointers and failure of `new` in the C++ allocator; addresses are offsets from the buffer.
- The C++ wrapper src/system/CoreSystem.cpp and the enum headers.
- trinity_comm_http.py and trinity_service_main.py: plumbing over libraries that are not part of this model.
