# Verified models of the kernel's hard parts

This project models, in Dafny, five parts of the operating system and proves what they are for:

* the process scheduler and the message queues (`kernel/scheduler.c`, `kernel/queues.c`), as one state
  machine over a fixed process table and, beneath it, as a class that works on the intrusive linked lists
  in the tagged union of the process control blocks;
* the heap allocator (`shared/malloc.c.h`) in the configuration the kernel builds: boundary tags, fast bins,
  an unsorted bin, sorted large bins, a bin map and a top chunk over a break that only grows;
* cluster chains of the FAT16 file system (`kernel/filesystem/fat16.c`) over a byte-addressed disk;
* the one-cylinder buffer of the floppy driver (`kernel/driver/floppy.c`), with the transfers it saves;
* the 64-by-64 division routine (`shared/div64.c`).

Everything is checked together by `dafny verify dfyconfig.toml`.

## How the files fit together

| files | what they hold |
|---|---|
| `Arithmetic.dfy` | products, quotients and powers of two |
| `KernelState.dfy`, `KernelSpec.dfy` | the state of the kernel; every system call and interrupt as a function on states; runs |
| `KernelPlaces.dfy`, `KernelScheduling.dfy`, `KernelFamily.dfy`, `KernelMail.dfy` | the four parts of the invariant: lists, scheduling, parents and children, messages |
| `KernelInvariant.dfy` | every step keeps the invariant |
| `KernelTheorems.dfy`, `KernelWaking.dfy`, `KernelFairness.dfy`, `KernelSemaphore.dfy` | what the invariant means for whole runs; who wakes a waitpid; bounded waiting; queues as semaphores |
| `KernelChoice.dfy`, `KernelEffects.dfy` | whom the scheduler picks, and what every step does to every process, queue and message, told without lists |
| `KernelCalls.dfy`, `KernelLives.dfy` | from the arguments of calls to what others get to see of them, over whole runs: messages, exit statuses, sleep, the clock, priorities |
| `KernelHeap.dfy`, `KernelMachine.dfy` | control blocks with next-pointers in a tagged union; the calls that relink them, proved to take the steps of `KernelSpec` |
| `MallocBins.dfy`, `MallocTiling.dfy`, `MallocMoves.dfy`, `MallocLists.dfy` | sizes, bin numbers and the bin map; chunks and boundary tags; splitting and joining; bins as lists |
| `MallocLayout.dfy`, `MallocThreads.dfy`, `MallocSteps.dfy`, `MallocHeap.dfy` | why joining is complete; lists threaded through the free chunks by their fd and bk words; what each step keeps and takes; the allocator |
| `Fat16.dfy`, `Fat16Write.dfy`, `Fat16Files.dfy`, `Fat16Volume.dfy`, `Fat16Boot.dfy` | chains, adding and reading; overwriting; runs over many files; the disk; the boot block byte by byte and the regions it describes |
| `Floppy.dfy`, `Div64.dfy` | the buffer; the division |

System calls run with interrupts off, so a run of the kernel is a sequence of whole steps. A call that blocks is
cut at the context switch: its first half is the call's step, its second half is the step `Resume`, which reads what
the process that woke it left in its stack frame. Time enters as clock interrupts. Three fields of the state are
history only and no operation looks at them: `stamp` (when a process was last filed), `since` (the length of the log
when it blocked) and `log` (what became of messages).

Where the code does less than its comments or its name promise, the model does what the code does, and says exactly
when the promise is kept:

* `fat_read_data` and `fat_write_data` do not shorten the first transfer by the offset in its cluster.
  `ReadExactly` and `WriteExactly` give the exact condition under which they are right all the same; `Misread` and
  `Miswrite` are calls that are not.
* `do_div64` divides by zero for divisors whose leading 32 bits are all ones; `FaultingDivisors` says which they are
  and `SmallestFault` where they begin.
* `fat_update_cluster` loops over the copies of the table and writes the first one every time. The copies still agree
  afterwards exactly when there is one copy or the entry has not changed (`UpdateCluster`, `CopiesExactly`);
  `TwoCopies` is the kernel's own volume, on which one new entry tells them apart. `fat_format` leaves copies that agree
  exactly when the others were blank before (`Format`), which those of a new disk are not (`ErasedDiverge`).
* `fat_add_data` that runs out of space restores the table exactly when it was given mark 0, or took nothing
  (`OutOfSpace`; `LeftMarked` is a call that does not); `RunFaithful` counts the clusters that other marks lose, and
  `NothingLost` says that mark 0 loses none.
* `waitpid` with a pid below -1 that blocks is never woken: `WokenExactly` says who wakes a waiting process, and
  `WaitsInVainForever` follows such a process over whole runs; `VainIsReached` is a run that leads there.
* `start_background` does not reschedule, so the priority rule survives it exactly when nothing is started that
  outranks the active process (`StartBackgroundSettled`, and over whole runs `PriorityRulesRuns`); the call made at
  boot is one that breaks it (`ImmodestStart`).
* `start_user_background` that finds no memory for the stack does not put its slot back. `LostExactly` says that such a
  start loses a slot, that nothing else does and that nothing gives it back; `LostRuns` says so of whole runs, and
  `SlotIsLost` is a start at boot that does it.
* `pcreate` that finds no memory for the buffer returns -2 and leaves its slot half-made: passed over by later calls,
  until it is deleted under a number that no call has returned. `HalfExactly` and `HalfMadeRuns` say exactly when a slot
  is so, and `QueueIsHalfMade` makes one.
* A 32-bit address of a floppy is where it says exactly within the first 65536 cylinders (`PhysExactly`); behind them
  the same bytes come again (`Aliases`).

## Model

| member | source | states |
|---|---|---|
| KernelTheorems.Reachable | kernel/scheduler.c:273-385 | every state that any run from the initial one reaches satisfies the whole invariant |
| KernelTheorems.OnePlaceEach | kernel/scheduler.c:36-80 | in every reachable state a process is on a list exactly when its state names that list, at most once, and exactly the active process is running |
| KernelTheorems.FirstInFirstOut | kernel/queues.c:183-244 | between resets the messages accepted by a queue are those delivered followed by its buffer, with hand-off to a blocked receiver and transfer from a blocked sender counted |
| KernelTheorems.WaitersHaveReason | kernel/queues.c:84-106 | in every reachable state waiting receivers mean an empty buffer, waiting senders a full one, never both, and a free slot has none |
| KernelTheorems.BlockedCallOutcome | kernel/queues.c:183-244 | a blocked psend or preceive that resumes returns 0 exactly when its message moved once and unaltered, and -1 exactly when preset or pdelete woke it |
| KernelTheorems.WaitpidOutcome | kernel/scheduler.c:231-263 | a blocked waitpid that resumes finds in its slot a zombie that is its own child and not yet reaped |
| KernelTheorems.NoLostWakeup | kernel/scheduler.c:290-351 | in every reachable state a process blocked in waitpid has a live child that can wake it, and no zombie that it missed, exactly unless it waits for a pid below -1; every zombie has a live parent, and every live process a live parent or none |
| KernelTheorems.FirstIsBest | kernel/queues.c:44-81 | the head of a run queue or waiting list has maximal priority and was filed first among equals |
| KernelTheorems.DoGentle | kernel/scheduler.c:200-263 | no step moves a process in its list, changes its state, wakes a sleeper or a waiting parent, ends a process other than the one it names, or loses a slot other than the one a failing start takes, without filing it anew |
| KernelTheorems.NotWokenEarly | kernel/scheduler.c:209-230 | after any step a sleeper still sleeps, was ended by that very step, or its time has come |
| KernelTheorems.NotWokenLate | kernel/scheduler.c:359-368 | after every step that ends in tick_scheduler no sleeper is due |
| KernelTheorems.WhoTicks | kernel/interrupt.c:61-75 | the steps that end in tick_scheduler are every fourth clock interrupt and the calls that block, but not exit |
| KernelTheorems.PriorityRules | kernel/scheduler.c:353-385 | after a step that ends in the scheduler no runnable process outranks the active one; where that held before, it holds after a step exactly unless the step is a start_background that starts a process outranking the active one |
| KernelTheorems.PriorityRulesRuns | kernel/scheduler.c:353-385 | the priority rule holds in every state of a run exactly when every start_background in it is one that keeps it in the state where it is made |
| KernelTheorems.StartBackgroundSettled | kernel/scheduler.c:134-192 | after start_background the priority rule holds exactly when it held before and the call refused, found no slot or no memory, or gave a priority no higher than the active process's |
| KernelTheorems.ImmodestStart | kernel/start.c:33 | the start in the background made at boot breaks the priority rule |
| KernelTheorems.FailedStartLoses | kernel/scheduler.c:163-178 | a start that finds no memory for the stack takes a slot off the free stack, leaves it on no list, and changes no other process |
| KernelTheorems.LostExactly | kernel/scheduler.c:163-178 | after any step a slot is lost exactly when it was lost before, or the step is a start that finds no memory for the stack and takes it |
| KernelTheorems.LostRuns | kernel/scheduler.c:163-178 | after any run the lost slots are exactly those lost before it and those that a failing start in it took |
| KernelTheorems.SlotIsLost | kernel/scheduler.c:163-178 | a start at boot that loses slot 1 |
| KernelTheorems.HalfExactly | kernel/queues.c:155-181 | after any step a queue slot is half-made exactly when the step is a pcreate that finds no memory for its buffer and takes it, or it was half-made and the step is not its pdelete |
| KernelTheorems.HalfMadeRuns | kernel/queues.c:155-181 | after any run the half-made slots are exactly those that were so before it, or became so in it, and have not been deleted since |
| KernelTheorems.QueueIsHalfMade | kernel/queues.c:155-163 | a pcreate at boot that leaves slot 0 half-made |
| KernelWaking.WokenExactly | kernel/scheduler.c:341-351 | a step takes a process out of waitpid exactly when it ends a live child of that process and the process waits for any child or for that one; the child's pid is then in its slot, and otherwise the slot is unchanged |
| KernelWaking.WaitsInVainForever | kernel/scheduler.c:243-263 | over every run a process blocked in waitpid for a pid below -1 stays so, unless some step of the run ends it |
| KernelWaking.VainIsReached | kernel/scheduler.c:231-263 | a run from boot into such a wait: start, start, waitpid of -2 |
| KernelEffects.DoExactly | kernel/scheduler.c:92-351 | what every step does before the scheduler, from its arguments: the parent, priority, state, call frame and refiling of every process, every queue, the clock, and the events of the log |
| KernelEffects.WakeAllExact | kernel/queues.c:94-106 | everybody on a waiting list is made runnable with -1, in the order of the list, and nobody else changes |
| KernelChoice.WakeDueExact | kernel/scheduler.c:360-368 | exactly the sleepers whose time has come are made runnable, in the order of their times |
| KernelChoice.TickExactly | kernel/scheduler.c:359-385 | the active process goes on exactly if nobody who can run, or wakes up now, has as high a priority; else the processor goes to the one with the highest priority who has waited longest, and the state of every other process is what it should be |
| KernelChoice.FixExactly | kernel/scheduler.c:353-357 | the scheduler runs exactly if the active process has stopped or is outranked, and otherwise nothing changes |
| KernelCalls.NextExactly | kernel/scheduler.c:92-385 | every step is its exact effect, followed by the scheduler's choice exactly if it reschedules |
| KernelCalls.WhoFixes | kernel/scheduler.c:353-357 | the steps that end in fix_scheduler |
| KernelCalls.NextFields | kernel/scheduler.c:92-385 | after every step the clock, log, queues, parents, priorities and frames are exactly those of its effect, and states differ at most by scheduling |
| KernelCalls.PSendDoes | kernel/queues.c:221-244 | the message given to psend is put at the end of the buffer, handed to the first receiver that waits, or left in the frame of the caller, which waits; and the log says which |
| KernelCalls.PReceiveDoes | kernel/queues.c:183-207 | preceive takes the oldest message and lets in that of the first sender that waits, or its caller waits |
| KernelCalls.AcceptedAreSent | kernel/queues.c:183-244 | over every run the values a queue accepts are, in order, the arguments of psend: at the call if there is room, else, when room is made, what the first waiting sender gave to its last psend |
| KernelLives.EndDoes | kernel/scheduler.c:200-207 | a process that exits leaves its status, one that is killed 0, as a zombie; without a parent its slot is free |
| KernelLives.ZombieStays | kernel/scheduler.c:293-302 | a zombie keeps its value until its parent reaps it or ends, and is then dead |
| KernelLives.ZombieTells | kernel/scheduler.c:290-351 | over every run a zombie holds the value of the exit, or the 0 of the kill, that last ended it |
| KernelLives.WaitpidTells | kernel/scheduler.c:231-263 | what waitpid returns for a child, at once or after waiting, is what that child was last ended with |
| KernelLives.LookExactly | kernel/scheduler.c:231-250 | what waitpid finds, in both directions: no such pid, a zombie child to reap (the first one for a negative pid), a live child to wait for, or none |
| KernelLives.WaitClockDoes | kernel/scheduler.c:209-230 | wait_clock for a time to come leaves its caller asleep until that time, and any other leaves it runnable or running |
| KernelLives.WaitClockSleeps | kernel/scheduler.c:209-230 | from then on the caller sleeps in every state as long as the clock stays below the time it gave, unless a step ends it |
| KernelLives.ClockCounts | kernel/interrupt.c:61-75 | over every run the clock is the number of clock interrupts, modulo 2^32 |
| KernelLives.PrioExactly | kernel/scheduler.c:92-124 | the priority of a process is the one it was started with or last given by an accepted chprio, and nothing else changes it |
| KernelLives.PCreateDoes | kernel/queues.c:155-170 | a queue that is made is in the first free slot, has the capacity asked for, holds nothing and nobody waits on it; no other queue changes |
| KernelLives.StackLimits | kernel/scheduler.c:134-164 | the stack sizes that are accepted |
| KernelFairness.NextShrinks | kernel/scheduler.c:54-69 | no step puts anyone in front of a runnable process that stays filed and unrivalled |
| KernelFairness.TickAdvances | kernel/scheduler.c:359-385 | a tick that passes such a process over strictly shrinks the set ahead of it |
| KernelFairness.BoundedWaiting | kernel/scheduler.c:359-385 | a process with k others ahead is passed over by at most k ticks while nothing outranks it |
| KernelSemaphore.NextCount | kernel/queues.c:132-153 | a step that does not reset a queue changes its pcount by exactly +1 for a valid psend, -1 for a valid preceive, one toward zero for ending a blocked process, and nothing else |
| KernelSemaphore.PSendCount | kernel/queues.c:221-244 | storing, handing off and blocking all raise the count by one |
| KernelSemaphore.PReceiveCount | kernel/queues.c:183-207 | taking, refilling from a sender and blocking all lower the count by one |
| KernelSemaphore.StopCount | kernel/scheduler.c:323-329 | ending a process blocked on a queue moves the count one toward zero |
| KernelSemaphore.SemaphoreRuns | kernel/queues.c:132-244 | over any run without a reset the count is the sum of those changes |
| KernelInvariant.NextKeeps | kernel/scheduler.c:92-385 | every system call and interrupt keeps the invariant |
| KernelInvariant.DoKeeps | kernel/scheduler.c:92-351 | what a step does before it reaches the scheduler leaves a state the scheduler can start from |
| KernelInvariant.FinishKeeps | kernel/scheduler.c:353-385 | the scheduler restores the invariant, leaves nobody outranking the active process, after a tick nobody due, and touches nothing but who runs |
| KernelInvariant.InitialHolds | kernel/scheduler.c:273-288 | the state set up at boot satisfies the invariant |
| KernelInvariant.RunKeeps | kernel/scheduler.c:92-385 | the invariant holds along every run |
| KernelInvariant.StartKeeps | kernel/scheduler.c:134-192 | starting a process keeps lists, family and messages consistent |
| KernelInvariant.ChprioKeeps | kernel/scheduler.c:92-124 | changing a priority keeps the invariant, whichever list the process is on |
| KernelInvariant.StopKeeps | kernel/scheduler.c:290-351 | ending a process, in whatever state it is, keeps the invariant |
| KernelInvariant.WaitpidKeeps | kernel/scheduler.c:231-263 | waitpid keeps the invariant, whether it reaps, fails or blocks |
| KernelInvariant.PSendKeeps | kernel/queues.c:221-244 | psend keeps the invariant in each of its branches |
| KernelInvariant.PReceiveKeeps | kernel/queues.c:183-207 | preceive keeps the invariant in each of its branches |
| KernelInvariant.FlushKeeps | kernel/queues.c:172-219 | emptying a queue and failing all its waiters keeps the invariant |
| KernelInvariant.WokenChild | kernel/scheduler.c:256-262 | a waitpid that is running again names a zombie child of the caller |
| KernelScheduling.TickWorks | kernel/scheduler.c:359-385 | tick_scheduler, started with any process gone from the processor, ends with a running active process of maximal priority and no sleeper due |
| KernelScheduling.NeverEmpty | kernel/scheduler.c:359-385 | when the scheduler must pick a process the run queue is not empty |
| KernelScheduling.WakeDueWorks | kernel/scheduler.c:360-368 | popping the front of the sleepers wakes all that are due and only those |
| KernelState.InsertSorted | kernel/queues.c:44-63 | inserting where the code does keeps a list sorted, with the newcomer behind its equals, and adds just it |
| KernelState.WithoutSorted | kernel/queues.c:65-81 | removing from the middle keeps a list sorted and removes just one process |
| KernelPlaces.MoveTidy | kernel/scheduler.c:36-80 | taking a process off its list and filing it under a new state keeps all lists sorted, disjoint and complete |
| KernelMachine.Kernel.constructor | kernel/scheduler.c:273-288 | the table set up at boot represents the initial state |
| KernelMachine.Kernel.RemoveRunnable | kernel/scheduler.c:36-52 | unlinks a process from anywhere in the runnable list, reading only the union member its state names |
| KernelMachine.Kernel.PushRunnable | kernel/scheduler.c:54-69 | links a process in by priority behind its equals |
| KernelMachine.Kernel.PushDead | kernel/scheduler.c:71-80 | pushes a slot onto the free stack |
| KernelMachine.Kernel.PushWaiting | kernel/queues.c:44-63 | links a process into a waiting list by priority behind its equals |
| KernelMachine.Kernel.PopWaiting | kernel/queues.c:65-81 | unlinks a process from anywhere in a waiting list |
| KernelMachine.Kernel.PushAsleep | kernel/scheduler.c:209-230 | links a process into the sleepers by wake time |
| KernelMachine.Kernel.RemoveAsleep | kernel/scheduler.c:304-321 | unlinks a sleeper from anywhere in its list |
| KernelMachine.Kernel.TickScheduler | kernel/scheduler.c:359-385 | does on the linked lists what a tick does to the abstract state |
| KernelMachine.Kernel.FixScheduler | kernel/scheduler.c:353-357 | reschedules exactly when the active process stopped running or is outranked |
| KernelMachine.Kernel.WakeupFirst | kernel/queues.c:84-92 | makes the first waiting process runnable |
| KernelMachine.Kernel.WakeupAll | kernel/queues.c:94-106 | makes all waiting processes runnable with return value -1 |
| KernelMachine.Kernel.PushMessage | kernel/queues.c:28-33 | the ring holds one message more, at its end |
| KernelMachine.Kernel.PopMessage | kernel/queues.c:35-41 | the ring gives and loses its oldest message |
| KernelMachine.Kernel.PSend | kernel/queues.c:221-244 | takes the abstract psend step and returns as the code does |
| KernelMachine.Kernel.PReceive | kernel/queues.c:183-207 | takes the abstract preceive step and returns the oldest message |
| KernelMachine.Kernel.PDelete | kernel/queues.c:172-181 | takes the abstract pdelete step, on a queue or a half-made slot |
| KernelMachine.Kernel.PReset | kernel/queues.c:209-219 | takes the abstract preset step, on a queue or a half-made slot |
| KernelMachine.Kernel.PCreate | kernel/queues.c:155-170 | takes the first free slot and returns it; returns -2 and leaves it half-made without memory for the buffer, -1 without a slot, -3 for a bad count |
| KernelMachine.Kernel.CountProcesses | kernel/queues.c:132-140 | counts the processes on a list |
| KernelMachine.Kernel.CountMessages | kernel/queues.c:142-153 | returns the count of the abstract state |
| KernelMachine.Kernel.Chprio | kernel/scheduler.c:92-124 | takes the abstract chprio step and returns the old priority |
| KernelMachine.Kernel.Reorder | kernel/queues.c:108-123 | relinks a process where its new priority belongs |
| KernelMachine.Kernel.StartBackgroundCall | kernel/scheduler.c:134-192 | takes the abstract step and returns the new pid, -2 for a stack too large, or -1 without a slot or without memory |
| KernelMachine.Kernel.LoseSlot | kernel/scheduler.c:163-178 | a slot taken off the free stack and not put back is dead and on no list |
| KernelMachine.Kernel.Start | kernel/scheduler.c:156-192 | the same, and then reschedules |
| KernelMachine.Kernel.WaitClock | kernel/scheduler.c:209-230 | takes the abstract wait_clock step |
| KernelMachine.Kernel.ClockInterrupt | kernel/interrupt.c:61-75 | advances the clock and runs the scheduler every fourth time |
| KernelMachine.Kernel.UnbindChildren | kernel/scheduler.c:293-302 | orphans the live children and frees the zombies of an ending process |
| KernelMachine.Kernel.Stop | kernel/scheduler.c:290-351 | ends a process from whichever list it is on |
| KernelMachine.Kernel.Kill | kernel/scheduler.c:204-207 | refuses pid 0 and below, else stops the process |
| KernelMachine.Kernel.Exit | kernel/scheduler.c:200-203 | stops the active process |
| KernelMachine.Kernel.FindChild | kernel/scheduler.c:231-250 | what waitpid finds: nothing, someone else's child, a zombie, or reason to wait |
| KernelMachine.Kernel.FindAny | kernel/scheduler.c:240-248 | the search for any child: the first zombie, or whether there is a child at all |
| KernelMachine.Kernel.Waitpid | kernel/scheduler.c:231-263 | takes the abstract waitpid step; a reaped child's return value is returned |
| KernelMachine.Kernel.Resume | kernel/queues.c:183-244 | finishes a blocked call: reaps the child named in the slot, or returns what was left in the frame |
| MallocBins.RequestFits | shared/malloc.c.h:1991-2009 | the padded size is the least aligned, admissible size with room for the request and one word, and padding cannot wrap |
| MallocBins.RequestRange | shared/malloc.c.h:1991-2009 | only requests of more than 0xFFFFFFDF bytes are out of range |
| MallocBins.RequestAgain | shared/malloc.c.h:2917-2921 | asking again for a size less the alignment mask gives the same size |
| MallocBins.HighBitIsBsr | shared/malloc.c.h:2202-2217 | the branch-free code gives the position of the highest bit |
| MallocBins.BinIndexMonotone | shared/malloc.c.h:2182-2225 | bin numbers are in range and never decrease with the size |
| MallocBins.LargebinAt | shared/malloc.c.h:2218-2221 | there are four large bins to each power of two, told apart by the two bits behind the highest |
| MallocBins.LaterBinFits | shared/malloc.c.h:3655-3657 | a chunk in a later bin is larger than the request |
| MallocBins.SmallbinExact | shared/malloc.c.h:3446-3460 | a small bin holds chunks of one size |
| MallocBins.MarkBit | shared/malloc.c.h:2303-2305 | setting and clearing a bit of the map changes that bit and no other |
| MallocBins.NoBitsAbove | shared/malloc.c.h:3624-3633 | when the bit is greater than the word, no bit from there on is set |
| MallocTiling.Retile | shared/malloc.c.h:3414-3725 | replacing a stretch of chunks by chunks that cover it, with consistent size words and footers, keeps the arena tiled |
| MallocTiling.BlockKept | shared/malloc.c.h:3414-3862 | writes between two size words change no byte of a block elsewhere |
| MallocLayout.SameLayout | shared/malloc.c.h:3783-3836 | the blocks in use, the chunks in fast bins and the break decide all other chunks: two arenas that agree in these are the same, so joining is always complete |
| MallocMoves.HeadAt | shared/malloc.c.h:2016-2041 | a size word gives the size of its chunk and says whether its predecessor is free |
| MallocMoves.TakeWhole | shared/malloc.c.h:3522-3528 | setting the bit of the next chunk turns a free chunk into a block |
| MallocMoves.Split | shared/malloc.c.h:3672-3688 | the three writes of a split leave a block and a free chunk with its footer |
| MallocMoves.SplitTop | shared/malloc.c.h:3707-3719 | the two writes of a split of the top leave a block and a smaller top |
| MallocMoves.ReleaseTop | shared/malloc.c.h:3826-3836 | a released chunk, with a free predecessor, becomes part of the top |
| MallocMoves.Release | shared/malloc.c.h:3783-3825 | a released chunk becomes one free chunk with its free neighbours, and no free chunk is next to it |
| MallocMoves.Extend | shared/malloc.c.h:3098-3100 | the top takes in the pages added at the end |
| MallocLists.TakeOut | shared/malloc.c.h:2149-2154 | taking a chunk out of a list leaves the bins holding all other free chunks, sorted |
| MallocLists.PutIn | shared/malloc.c.h:3530-3565 | putting a chunk where it belongs keeps every bin sorted and every free chunk in one bin |
| MallocLists.MapChange | shared/malloc.c.h:3560-3565 | the map stays sound: a clear bit means an empty bin |
| MallocThreads.UnlinkThread | shared/malloc.c.h:2149-2154 | in a list threaded both ways through memory, the two words written by unlink leave it threaded without the chunk |
| MallocThreads.InsertThread | shared/malloc.c.h:3560-3565 | the four words written by an insertion leave a list threaded with the chunk at its place |
| MallocThreads.UnlinkBins | shared/malloc.c.h:2149-2154 | the links of a binned chunk name its neighbours or the header, and unlinking it leaves every bin threaded, its own without it |
| MallocThreads.InsertBins | shared/malloc.c.h:3560-3565 | inserting a chunk leaves every bin threaded, its own with it |
| MallocThreads.PopChain | shared/malloc.c.h:3429-3436 | taking the head of a fast bin makes the link in it the new head |
| MallocThreads.PushChain | shared/malloc.c.h:3772-3775 | a chunk whose link is the old head becomes the new head of its fast bin |
| MallocSteps.UnlinkUndisturbed | shared/malloc.c.h:2149-2154 | where the two links are headers or free chunks, the words written by unlink leave the tiling, every block and every chunk of a fast bin as they are |
| MallocSteps.InsertUndisturbed | shared/malloc.c.h:3560-3565 | so do the words written by an insertion |
| MallocSteps.WordKeeps | shared/malloc.c.h:1888-1935 | a program may write every byte of its block, and the allocator the link words of a free chunk, without disturbing boundary tags |
| MallocSteps.SizesAddUp | shared/malloc.c.h:3414-3862 | the sizes of all chunks add up to the arena |
| MallocSteps.BlocksApart | shared/malloc.c.h:3414-3725 | blocks are 8-aligned, inside the arena, and share no byte |
| MallocSteps.LaterBinBest | shared/malloc.c.h:3616-3664 | the last chunk of the first later bin that holds something is the smallest free chunk that fits |
| MallocSteps.OwnBinBest | shared/malloc.c.h:3576-3604 | the first fit from the end of a sorted bin is the smallest free chunk that fits |
| MallocHeap.Heap.constructor | shared/malloc.c.h:8-18 | an empty heap with empty lists, before the first call |
| MallocHeap.Heap.Write | shared/malloc.c.h:1888-1905 | a program's write into its block keeps the heap valid |
| MallocHeap.Heap.Unlink | shared/malloc.c.h:2149-2154 | follows the two link words of a free chunk and writes two others: the lists in memory are the bins without the chunk, and every block keeps its bytes |
| MallocHeap.Heap.LinkIn | shared/malloc.c.h:3813-3818 | writes four link words: the lists in memory are the bins with the chunk at its place, and every block keeps its bytes |
| MallocHeap.Heap.TakeLast | shared/malloc.c.h:3446-3454 | takes out the chunk that the header's backward link names, which is the last of its bin |
| MallocHeap.Heap.Coalesce | shared/malloc.c.h:3778-3836 | releases a chunk, joined with its free neighbours or the top, and returns the size it comes to; other blocks keep their bytes |
| MallocHeap.Heap.Consolidate | shared/malloc.c.h:3926-3993 | empties the fast bins, clears their flag, keeps every block, the break and the last remainder; with `SameLayout`, the arena is what it must be |
| MallocHeap.Heap.FreeBlock | shared/malloc.c.h:3732-3862 | exactly one block fewer; all others keep size and bytes; a small one is at the head of its fast bin and nothing else changes; a large one is joined, and the fast bins are emptied exactly if what it becomes part of reaches the threshold; the break stays |
| MallocHeap.Heap.UseWhole | shared/malloc.c.h:3522-3528 | exactly one block more, which was a free chunk |
| MallocHeap.Heap.UseFront | shared/malloc.c.h:3503-3518 | exactly one block more, with the rest in the unsorted bin and remembered as the last remainder if the request is small; no other free chunk changes |
| MallocHeap.Heap.UseTopFront | shared/malloc.c.h:3707-3719 | exactly one block more, from the top |
| MallocHeap.Heap.TakeFast | shared/malloc.c.h:3429-3436 | pops the head of the fast bin through its link word: found exactly if there is one, of exactly the size, and nothing else changes |
| MallocHeap.Heap.TakeSmall | shared/malloc.c.h:3446-3459 | a small bin gives its oldest chunk, of exactly the size, or is empty |
| MallocHeap.Heap.Position | shared/malloc.c.h:3542-3558 | walks the links of a large bin to the two between which a chunk belongs: behind all that are larger, or at the end if it is no larger than the last |
| MallocHeap.Heap.Place | shared/malloc.c.h:3530-3565 | moves a chunk from the unsorted bin to the bin of its size, to the front of a small one, and marks it; no other bin changes |
| MallocHeap.Heap.SortUnsorted | shared/malloc.c.h:3486-3565 | takes the oldest exact fit, or splits the last remainder if it is all there is, or bins every unsorted chunk |
| MallocHeap.Heap.SortOne | shared/malloc.c.h:3486-3565 | one round of that for the oldest unsorted chunk |
| MallocHeap.Heap.FindBin | shared/malloc.c.h:3616-3651 | the first bin from a number on that holds something, found through the map and the headers; the map stays sound |
| MallocHeap.Heap.ScanBin | shared/malloc.c.h:3576-3583 | walks a sorted bin backward to its smallest chunk that fits |
| MallocHeap.Heap.BestFit | shared/malloc.c.h:3576-3668 | the smallest free chunk that fits, the last such in its bin, and finds one whenever there is one |
| MallocHeap.Heap.Cut | shared/malloc.c.h:3587-3602 | the block is the chunk found, whole exactly if what is left would be too small for a chunk; else it has the very size and the rest is free; no other free chunk changes |
| MallocHeap.Heap.Grow | shared/malloc.c.h:3019-3100 | moves the break by as many whole pages as the request needs, exactly when they are available, and keeps every block |
| MallocHeap.Heap.SysMalloc | shared/malloc.c.h:2882-3302 | serves the request from new memory, or consolidates and retries, which ends because the flag is then clear |
| MallocHeap.Heap.UseTop | shared/malloc.c.h:3691-3724 | serves the request from the top if it is large enough |
| MallocHeap.Heap.Malloc | shared/malloc.c.h:3379-3725 | a new aligned block of at least the padded size, and less than 16 bytes more, all others unchanged; from the head of its fast bin if that holds one, else from the smallest free chunk that fits or the last remainder, split if it can be, else from the top; the fast bins are emptied first for every large request, and else only if nothing else is left; the break moves only if nothing fits, by the pages needed; 0 if the request is out of range, and else only if nothing fits with the fast bins empty and the top too small and unable to grow |
| Fat16.AddChain | kernel/filesystem/fat16.c:264-312 | data that fits ends up in a strictly increasing, end-marked chain of as many clusters as it needs, all of them free before, and no other entry changes |
| Fat16.AddFails | kernel/filesystem/fat16.c:283-289 | when space runs out, every cluster that was free is taken and given the mark, and no other entry changes |
| Fat16.AddSpace | kernel/filesystem/fat16.c:129-140 | data is accepted exactly when there are enough free clusters |
| Fat16.AddStores | kernel/filesystem/fat16.c:291-299 | the new chain holds the data and no other cluster changes |
| Fat16.ReadRest | kernel/filesystem/fat16.c:313-342 | from a cluster boundary on, reading gives the contents in order, however long |
| Fat16.ReadUnfold | kernel/filesystem/fat16.c:326-339 | a read at any offset is one transfer from inside its cluster and then the clusters behind it |
| Fat16.ReadLength | kernel/filesystem/fat16.c:313-342 | how many bytes a read returns: those asked for, up to the end of the chain counted from the cluster of the offset |
| Fat16.ReadExactly | kernel/filesystem/fat16.c:326-339 | a read gives what the file holds, on every disk, exactly when it is aligned, stays in its cluster, or spills into the cluster that comes next both in the chain and on the disk |
| Fat16.Misread | kernel/filesystem/fat16.c:326-339 | a read of two bytes across the end of a cluster that returns a byte of another file |
| Fat16Write.WriteRest | kernel/filesystem/fat16.c:343-372 | from a cluster boundary on, writing lays the data over the contents |
| Fat16Write.WriteUnfold | kernel/filesystem/fat16.c:356-369 | a write at any offset is one transfer from inside its cluster and then the clusters behind it |
| Fat16Write.WriteOutside | kernel/filesystem/fat16.c:356-369 | such a write changes no byte outside the file |
| Fat16Write.WriteExactly | kernel/filesystem/fat16.c:356-369 | a write changes what it should and nothing else, on every disk and for all data, exactly under the condition for reads |
| Fat16Write.Miswrite | kernel/filesystem/fat16.c:356-369 | a write of two bytes across the end of a cluster that is not right |
| Fat16Files.AddThenRead | kernel/filesystem/fat16.c:264-342 | what was added is read back, for every length, cluster size and fragmentation |
| Fat16Files.AddThenRemove | kernel/filesystem/fat16.c:254-312 | adding and then removing gives the table back |
| Fat16Files.OutOfSpace | kernel/filesystem/fat16.c:283-289 | running out of space restores the table exactly when the mark is 0 or nothing was free |
| Fat16Files.LeftMarked | kernel/filesystem/fat16.c:283-289 | an addition with mark 1 that runs out of space and leaves a cluster marked |
| Fat16Files.AddKeepsUsed | kernel/filesystem/fat16.c:277-309 | whatever becomes of an addition, clusters in use keep their bytes |
| Fat16Files.AddStored | kernel/filesystem/fat16.c:264-312 | adding leaves every file in its own chain with its bytes, and chains apart |
| Fat16Files.RemoveStored | kernel/filesystem/fat16.c:254-263 | removing, with whatever mark, leaves every other file as it is |
| Fat16Files.WriteStored | kernel/filesystem/fat16.c:343-372 | overwriting changes the one file and no other |
| Fat16Files.StepFaithful | kernel/filesystem/fat16.c:254-372 | one operation, with whatever mark, does to the disk what it does to a shelf of files with room for a number of clusters |
| Fat16Files.RunFaithful | kernel/filesystem/fat16.c:254-372 | over every run, with arbitrary marks, the disk behaves like a list of files with room for a number of clusters, which shrinks by exactly what a removal or a failed addition marks otherwise than free |
| Fat16Files.NothingLost | kernel/filesystem/fat16.c:254-312 | where all marks are 0 the room never shrinks |
| Fat16Files.RunReads | kernel/filesystem/fat16.c:313-342 | after any run, reads that the chain allows give the bytes of the file |
| Fat16Volume.Layout | kernel/filesystem/fat16.c:78-114 | boot sector, all copies of the table and clusters do not overlap and lie on the disk |
| Fat16Boot.ParseEncode | kernel/filesystem/fat16.c:12-35 | the fields read from a boot block are those that the packed structure holds, low byte first, whatever the other fields and whatever follows |
| Fat16Boot.ParseTells | kernel/filesystem/fat16.c:12-35 | two sectors give the same fields exactly when they agree in every byte of them |
| Fat16Boot.Regions | kernel/filesystem/fat16.c:78-114 | reserved sectors, copies of the table, root directory and clusters follow one another without gaps, and no other cluster would fit |
| Fat16Boot.FloppyRegions | kernel/filesystem/fat16.c:78-114 | where they are on a floppy with 224 root entries |
| Fat16Boot.EntryBytes | kernel/filesystem/fat16.c:116-127 | an entry of the table is two bytes, the low one first |
| Fat16Volume.PutEntry | kernel/filesystem/fat16.c:123-127 | writing two bytes of the table changes one entry and no cluster |
| Fat16Volume.PutBytes | kernel/filesystem/fat16.c:106-114 | writing at a cluster's address changes those bytes and no entry |
| Fat16Volume.CopiesExactly | kernel/filesystem/fat16.c:142-148 | after writes to the first table and the clusters only, copies that agreed still agree exactly when there is one copy or the table holds what it held |
| Fat16Volume.CopiesAfter | kernel/filesystem/fat16.c:142-148 | after writes to the first table and the clusters only, all copies agree exactly when each of the others already held what the first holds now |
| Fat16Volume.CopiesDiverge | kernel/filesystem/fat16.c:142-148 | with more than one copy every change of an entry makes them differ |
| Fat16Volume.TwoCopies | kernel/filesystem/fat16.c:498-535 | the kernel's own volume with 128 sectors: its two copies agree, and one new entry makes them differ |
| Fat16Volume.ErasedDiverge | kernel/filesystem/fat16.c:498-535 | after formatting a disk filled with 0xE5 the copies agree exactly when there is one |
| Fat16Volume.StaysBooted | kernel/filesystem/fat16.c:78-114 | every operation on files leaves the fields of the boot sector, and so the geometry, as they are |
| Fat16Volume.ChainIsWalk | kernel/filesystem/fat16.c:313-342 | a whole chain is a walk that reading and writing can follow, whatever the length |
| Fat16Volume.FormattedEmpty | kernel/filesystem/fat16.c:150-172 | a formatted volume holds no files and all its clusters are free |
| Fat16Boot.BlankBytes | kernel/filesystem/fat16.c:163-170 | the bytes of a formatted table: the media type, three of all ones, and zeros |
| Fat16Volume.Volume.constructor | kernel/filesystem/fat16.c:78-114 | a volume over an image, with the geometry computed from the fields of its boot sector |
| Fat16Volume.Volume.GetClusterValue | kernel/filesystem/fat16.c:116-122 | reads an entry of the first table |
| Fat16Volume.Volume.SetClusterValue | kernel/filesystem/fat16.c:123-127 | changes one entry of the first table and no other byte of the disk |
| Fat16Volume.Volume.FindFreeCluster | kernel/filesystem/fat16.c:129-140 | the first free cluster, or 0 |
| Fat16Volume.Volume.UpdateCluster | kernel/filesystem/fat16.c:142-148 | changes one entry of the first table and no other byte; copies that agreed still agree exactly when there is one copy or the entry already had the value |
| Fat16Volume.Volume.Format | kernel/filesystem/fat16.c:150-172 | an unsigned boot sector is refused and changes nothing; else the boot sector and a blank first table, where that boot sector puts it, are written, no cluster is touched, and behind the sector no other byte changes; afterwards the copies agree exactly when all others were blank before |
| Fat16Volume.Volume.BlankTable | kernel/filesystem/fat16.c:163-170 | writes the entries of an empty table and no other byte |
| Fat16Volume.Volume.RemoveData | kernel/filesystem/fat16.c:254-263 | whatever the table, as long as the loop ends and stays in the table: the entries visited are given the mark, and no other byte of the disk changes |
| Fat16Volume.ChainVisited | kernel/filesystem/fat16.c:254-263 | whatever the mark, a chain is visited from end to end, and removal is the abstract one |
| Fat16Volume.RemovesExactly | kernel/filesystem/fat16.c:254-263 | with a mark that names no cluster, such as 0, a removal that stays in the clusters comes to its end exactly along a chain |
| Fat16Volume.Volume.AddData | kernel/filesystem/fat16.c:264-312 | does on the disk what the abstract addition does, touches nothing but the first table and the clusters, and returns the first cluster or 0 |
| Fat16Volume.Volume.ReadData | kernel/filesystem/fat16.c:313-342 | follows the table, looping or not, copies what the abstract read gives, leaves the rest of the buffer, and returns the length |
| Fat16Volume.Volume.WriteData | kernel/filesystem/fat16.c:343-372 | follows the table, looping or not, does on the disk what the abstract write does and touches nothing else, and returns as many bytes as a read would |
| Floppy.InRange | kernel/driver/floppy.c:523-527 | addresses on the disk are reachable and are where they say |
| Floppy.PhysExactly | kernel/driver/floppy.c:523-527 | a 32-bit address is where it says exactly within the first 65536 cylinders |
| Floppy.FetchIsSlice | kernel/driver/floppy.c:548-561 | a read that stays on the disk gives the bytes it names |
| Floppy.StoreIsSplice | kernel/driver/floppy.c:563-582 | a write that stays on the disk replaces exactly the bytes it names |
| Floppy.ReadBack | kernel/driver/floppy.c:548-582 | what was written is read back and nothing else changes |
| Floppy.BufferedRead | kernel/driver/floppy.c:529-539 | a read in the cylinder that is buffered transfers nothing |
| Floppy.Aliases | kernel/driver/floppy.c:523-527 | behind those, 65536 cylinders further on is the same byte |
| Floppy.Wrapped | kernel/driver/floppy.c:548-582 | where a transfer starts, the address cut to 32 bits names the byte that the running address stands for |
| Floppy.NextStart | kernel/driver/floppy.c:548-582 | a transfer that ends with its cylinder ends where the next one can start, also across 2^32 |
| Floppy.Drive.DoCached | kernel/driver/floppy.c:529-539 | after success the buffer holds the cylinder its tag names; there is a transfer unless the cylinder to be read is in the buffer |
| Floppy.Drive.ReadView | kernel/driver/floppy.c:541-547 | the view shows the disk from the address to the end of its cylinder, loaded only if it is not in the buffer |
| Floppy.Drive.FloppyRead | kernel/driver/floppy.c:548-561 | for every 32-bit address and size, reads across cylinders, and past 2^32, what the disk holds at those addresses, up to the first byte that is off it; the rest of the target is untouched; the buffer stays in step; every cylinder it comes to is loaded once, but for one in the buffer |
| Floppy.Drive.FloppyWrite | kernel/driver/floppy.c:563-582 | for every 32-bit address and size, writes across cylinders, and past 2^32, up to the first byte that is off the disk; no other byte changes; the buffer stays in step; every cylinder it comes to is loaded unless it is in the buffer, and saved once |
| Div64.Estimate | shared/div64.c:34-40 | the estimate from leading bits never exceeds the quotient and is at most two below it |
| Div64.Divl | shared/div64.c:25-26 | the processor's divide, with its faults |
| Div64.Correct | shared/div64.c:41-48 | the correction loop ends at quotient and remainder |
| Div64.DivideByLarge | shared/div64.c:34-49 | right for every divisor of more than 32 bits that does not fault, with at most two corrections |
| Div64.DoDiv64 | shared/div64.c:28-64 | x = q * y + r with r < y for every x and every nonzero y that does not fault; faults exactly for the divisors named; zero gives quotient 0 and remainder x |
| Div64.FaultingDivisors | shared/div64.c:37-40 | the divisors that fault are those whose 32 leading bits are all ones |
| Div64.SmallestFault | shared/div64.c:37-40 | 2^33 - 2 faults and no smaller divisor does |

## Left out

- Context switches, task state, descriptor tables, paging and assembler: a switch is "another process is active".
- Programs, names, stacks and return addresses of processes; `getprio`, `getpname`, `processes_status`, `queues_status` and the idle loop, which only read or do not touch the state machine.
- KernelSpec.Enabled: the idle process is required not to block, as the kernel requires of it without a guard in the calls; nobody sends to or receives from a half-made queue, whose number no call has returned, because that goes through a null pointer into memory that is not part of this model.
- KernelMachine.Kernel.Resume: pointers into the stack frame of a blocked call are slots of that process's frame, so a pointer that leaves the frame is not captured.
- KernelMachine.Kernel.CountMessages: says nothing of the count of a half-made queue, which is left over from the queue before it.
- KernelMachine.Kernel.PDelete: says nothing of the buffer being given back, because the capacity is zeroed before the size is computed from it.
- MallocHeap.Heap.FreeBlock: giving memory back to the system is not modelled, since the break never shrinks and the attempt has no effect.
- MallocHeap.Heap.Grow: the heap bounds are page-aligned and nobody else moves the break, so the paths for foreign moves are not part of this model.
- `realloc`, `calloc`, `memalign`, `independent_*alloc`, mapped regions and statistics: not used here, or they add easier members.
- Fat16Volume.Volume.ReadData: the walk through the table may loop, but not leave the clusters: a number that is not in the table fails the assertion in `fat_get_cluster_value`, and the two reserved numbers, for which the code reads the root directory, are not part of this model; 32-bit wrap of the offset counter cannot happen on such a volume.
- Fat16Volume.Volume.WriteData: the same.
- Fat16Volume.Volume.RemoveData: says nothing where the loop does not end, or fails the assertion that a number is in the table.
- Fat16Volume.Volume.constructor: the geometry is computed once from the boot sector and not again by every function; `StaysBooted` is why that is the same.
- Directory entries, long names and paths: fixed layouts, and their update goes through a read view.
- Floppy.Drive.DoTrack: a transfer moves a whole cylinder and fails exactly for cylinders the disk does not have; motor, DMA, retries and a transfer that fails half way are not part of this model.
- Floppy.Drive.FloppyRead: one caller at a time.
- Console, keyboard, mouse, sound, serial line, debugger stub, shell, printf and string routines: interfaces and easier members.
