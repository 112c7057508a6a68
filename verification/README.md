# A verified model of the uCore kernel's processes and memory

This project models a small multi-core RISC-V teaching kernel in Dafny and proves what its
code keeps for every number of CPUs, every number of process slots, every memory size and
every interleaving. It has three parts.

**Processes (files `Kernel*.dfy`).** A transition system over any number of CPUs and process
slots. A CPU has a program counter inside `scheduler`, `sched`, `yield`, `sleep`, `wakeup`,
`fork`, `exec`, `wait`, `exit`, `all_dead`, the console copies, user mode, `usertrap`,
`usertrapret` or `kernel_trap`; a step ends where another CPU can see a difference (taking or
dropping a lock, `swtch`, a queue operation, a write in between) or where the interrupt-enable
bit is written. `p->lock` is taken by one context and dropped by another, so the claims rest
on one inductive invariant (`KernelInv.Inv`) over lock owners, run tokens, `noff` and the saved
interrupt state, the process tree, the loops of `wakeup`, and the scans of `wait`. Every step
keeps it (`KernelTheorems.StepInv`). The assertions and panics of `os/lock.c`, `os/sched.c` and
`os/queue.c`, those of `os/proc.c:112,117,294`, `curr_proc()`, and the assertions on the
interrupt state in `os/trap.c:23,28,60,86,156,165` are the disjuncts of `KernelSteps.Bad`, shown
unreachable. `fork` can panic: without a free slot (`KernelFull` says when) and when memory
runs out, at `os/proc.c:94` and `186`, which is an outcome of the protocol
(`KernelSteps.Exhausted`) and has its exact condition in the memory part (`ProcessSpace.AllocSpace`,
`Vm.UserMemory.MmCopy`); `os/proc.c:101` is never reached, because `kallocpage` never returns 0.
`KernelPaths` builds runs from whole operations, for the results that need a run to exist;
`KernelCalls` follows one thread through the steps of all CPUs, for `KernelWait`, which says what
`wait` returns.

**Memory (`Sv39`, `PteBits`, `Kvm`, `UserPages`, `UserAreas`, `UserCopy`, `Vm`,
`ProcessSpace`, `UserTheorems`, `UserBytes`).** Physical memory is a map from frame number to a
page of 512 words, shown as the entries they encode; `PteBits` relates words and entries and
`UserBytes` bytes and words. `Sv39.Translate` is the walk of sections 4.3.2 and 4.4 of the
RISC-V Privileged Architecture, Volume II, V1.10, and is the specification; `Sv39.Access` adds
the fault for the reserved encoding, and `Sv39.AccessTranslate` says that this is all the two
differ in. Tables and user data are pages of the same memory; the free list is kept as the
sequence of its frames. A ghost owner for every frame (free, table of an address space, user page, held by the
kernel, lost) is what the classes keep true, through any sequence of calls whose arguments meet
the callers' discipline.

**Smaller cores.** The console's line editor over a ring with wrapping 32-bit indices, the
bitmap allocator, the task queue's ring, the copies between kernel and user memory, `memmove`,
the program loader and the boot of the harts.

Code that changes state is a class or a method with loops, proved against a function or a
relation; the relation's consequences are lemmas. `hide` statements in proofs only keep
definitions out of the solver's sight.

## Where the code and its comments disagree

- `kallocpage` says it returns 0 when memory is exhausted; it returns `KVA_TO_PA(0)`, which is
  2^38. `walk` and `mm_create` notice; `mm_mappages` and `allocproc` do not. The model follows
  the code: `MmMappages` says exactly when it returns 0, and exactly when it does so with every
  page on a real frame; `UserTheorems.MapsNoPage` is a concrete memory in which it returns 0
  with no frame; `ProcessSpace.AllocSpace` succeeds exactly from four free pages on.
- `mm_free` frees the root table and forgets the others; they become lost in the model.
- The loop of `exit` that hands children to `init_proc` wakes nobody, so `init_proc` can sleep
  in `wait` over a zombie. `KernelOutcomes.MissedExactly` says this is the only way, and
  `KernelOrphan.OrphanMissed` gives a run, from the start of the schedulers, that does it.
- `exec` marks the running process RUNNABLE (`os/loader.c:119`), so RUNNABLE does not mean
  queued; the invariant says queued, on a CPU, or about to be queued.
- `user_console_read` keeps its target in 32 bits; `Console.ValueIsCount` says for which counts
  the returned value is the number of bytes delivered.
- `load_user_elf` copies a segment from the start of its first page;
  `Loader.AlignedExactly` says when that is where the program header wants it.
- The boot loop numbers the harts on the assumption that the boot hart's id is below `NCPU`;
  `Boot.OutsideHart` says that this is exactly what the numbers need.
- `mm_copy` calls `mm_free_pages` when it fails, which does not undo it: the pages that the
  failing `mm_mappages` had mapped stay mapped and are on no list (`Vm.UserMemory.MmCopy`).
- `kfree` accepts an address in the rounding tail of a pool, where no object is, and its
  counters are wrong from then on (`ObjectAllocator.Allocator.Kfree`).

## Model

| member | source | states |
|---|---|---|
| KernelTheorems.NothingFails | os/lock.c:15-111 | in a state that satisfies the invariant no assertion or panic of acquire, release, pop_off, sched, scheduler, the queue, curr_proc, kernel_trap, usertrap and usertrapret can fail next, on any CPU |
| KernelTheorems.NoAssertionFails | os/trap.c:84-165 | in no run does one of them fail; usertrap is entered and left, and usertrapret entered, with interrupts off, whatever the trap was and wherever the thread was rescheduled in between |
| KernelTheorems.StepInv | os/sched.c:50-137 | every atomic step of every CPU keeps the invariant of locks, run tokens, interrupt state, process tree, wakeup loops and wait scans |
| KernelTheorems.RunInv | os/proc.c:135-295 | every state of every run satisfies the invariant, for any number of CPUs and slots |
| KernelTheorems.QueueRoom | os/queue.c:13-22 | when a process is about to be pushed the queue holds fewer than NPROC processes, so the overflow panic is unreachable |
| KernelSafety.OneToken | os/sched.c:50-137 | in every reachable state no process is on two CPUs, queued twice, or both; queued processes are RUNNABLE with a saved context; every RUNNABLE process is queued, on a CPU or about to be queued |
| KernelFlow.NotOvertaken | os/sched.c:17-29 | as long as a process stays in the run queue, in front of it are only processes that were in front of it before, in the same order |
| KernelFlow.ExecLeavesRunnable | os/loader.c:119-119 | a process that has loaded a new program runs on its CPU, is RUNNABLE, and is not queued |
| KernelSafety.LockedWrites | os/proc.c:116-295 | in every run, state, pid, parent, channel and exit status of a slot change only while some CPU holds the slot's lock |
| KernelSafety.RankRises | os/proc.c:174-200 | a CPU that spins on a lock ranks strictly below the lock's holder, including fork's child-then-self, exit's self-then-others and the console's cons.lock, p->lock, mm->lock |
| KernelSafety.NoDeadlock | os/console.c:196-206 | no reachable state has a cycle of CPUs waiting for each other's process locks, mm locks, wait_lock and cons.lock, and no chain of waiting CPUs is longer than five |
| KernelSafety.SomeoneRuns | os/lock.c:15-38 | behind every spinning CPU there is a CPU that holds a lock and is not itself spinning |
| KernelProgress.NeverStuck | os/sched.c:50-137 | in every reachable state every CPU either waits in acquire for a lock that is held, or has a step of its own that is no interrupt and fails no assertion; and until a panic of fork some CPU has a step |
| KernelOutcomes.NoLostWakeup | os/proc.c:135-172 | if a process has dropped its condition lock in sleep and a later wakeup of its channel has passed its slot, it was made RUNNABLE in between, under every interleaving |
| KernelOutcomes.ReaderNotStuck | os/console.c:164-183 | with cons.lock free and input committed, no reader is asleep on the console |
| KernelFlow.InputKept | os/console.c:110-115 | once the interrupt has completed a line, input stays committed until a reader takes a byte |
| KernelFlow.InputTyped | os/console.c:110-115 | readers find committed input only after the interrupt completed a line |
| KernelOutcomes.WaitMissesNoExit | os/proc.c:221-295 | nobody sleeps in wait over a matching zombie child that exited while being its child; the only sleeper with one is init, over a child it inherited |
| KernelOutcomes.MissedExactly | os/proc.c:278-286 | init comes to sleep over a matching zombie in one step if and only if the reparent loop of an exit hands it that zombie while it sleeps |
| KernelOrphan.OrphanMissed | os/proc.c:278-286 | there is a run, from the start of the schedulers through three forks, a wait and two exits, in which one step of the reparent loop leaves init asleep over a zombie child that its wait would return |
| KernelFull.FullOnlyThen | os/proc.c:75-85 | fork panics for want of a slot only when, since this call began its scan, it has found every slot in use under the slot's lock |
| KernelFull.FullThen | os/proc.c:174-179 | a fork that meets every slot in use and no lock held comes to that panic |
| KernelFamily.TreeHolds | os/proc.c:116-133 | in every reachable state a live process has a live parent that is no zombie unless it is init, live pids are distinct, nobody is its own ancestor, and every process but those being built descends from init |
| KernelFamily.LineageFalls | os/proc.c:56-65 | along a chain of parents the pid falls by at least one a link |
| KernelFamily.LineageToInit | os/proc.c:278-286 | every started process has a chain of parents that ends at init |
| KernelFamily.ForkReturnsChild | os/proc.c:174-200 | after dropping both locks fork still returns the pid of a live slot whose parent is the caller |
| KernelFamily.ExitCodeStays | os/proc.c:288-295 | the status recorded for a pid never changes in the rest of the run |
| KernelFamily.DeliveredOnce | os/proc.c:221-260 | every status that wait logged is the one recorded for that pid at its exit, and no two waits took the same process |
| KernelWait.WaitReturns | os/proc.c:221-262 | a thread about to return ret from wait is in a call wait(pid) which began with that pid and, wherever it slept and ran since, either completed a scan while nobody was its child, and ret is -1; or came upon a zombie whose parent it is, with the pid asked for if pid is positive: ret is that child's pid, and that very step freed the slot and logged ret with the child's status |
| KernelWait.StatusDelivered | os/proc.c:221-303 | the status logged with a pid is the argument of a call exit(code) that the process of that pid made |
| KernelWait.SleepsForChild | os/proc.c:229-260 | who goes to sleep in wait(pid) has a child, but no zombie child with the pid asked for, if one was |
| KernelFamily.InterruptsBracketed | os/lock.c:82-111 | in every reachable state noff is the number of locks the CPU holds plus one inside all_dead, interrupts are off under any lock or trap, and outside all locks they are on exactly in user mode and in a system call |
| KernelFamily.InterruptsRestored | os/sched.c:104-126 | between two points outside all locks, whatever was locked, trapped or migrated in between, a thread whose interrupt bit was not written on purpose finds it as it was |
| Sv39.TranslateShape | os/vm.c:27-46 | over a tree of tables the walk goes through the tree's nodes and no other page |
| Sv39.AccessTranslate | os/riscv.h:180-212 | an access reaches what the walk finds, unless the entry found is writable and not readable, which faults |
| Sv39.SetLow | os/kvm.c:190-198 | writing an entry of a lowest table changes the translation of exactly one page |
| Sv39.SetBlock | os/kvm.c:167-176 | a 2 MiB leaf in an empty slot maps exactly the 512 pages of its block, all unmapped before |
| Sv39.AddTable | os/kvm.c:156-160 | hanging a zeroed table below an empty entry changes no translation and keeps the tree |
| PteBits.MakeAndTake | os/riscv.h:201-212 | MAKE_PTE stores an aligned physical address and its flags so that PTE2PA and PTE_FLAGS give them back, with the valid bit |
| PteBits.TakeAndMake | os/riscv.h:201-212 | a valid entry without reserved bits is the MAKE_PTE of its parts |
| PteBits.IndicesSplit | os/riscv.h:208-210 | the three indices PX and the offset determine a 39-bit address |
| PteBits.EntryOfMake | os/riscv.h:212-212 | the word MAKE_PTE builds encodes the entry used in the memory model |
| PteBits.FlagAlone | os/riscv.h:191-198 | each of PTE_V, PTE_R, PTE_W, PTE_X, PTE_U, PTE_G, PTE_A and PTE_D encodes the permission of its name and no other |
| PteBits.FlagOf | os/riscv.h:191-198 | a word has a permission exactly when it has the flag of that name |
| PteBits.FlagsOr | os/riscv.h:191-198 | flags joined with or are the permissions of either |
| PteBits.ZeroedPage | os/vm.c:41-41 | a page of zero bytes encodes the page without entries |
| Kvm.KernelSpace.constructor | os/kvm.c:57-60 | kvmmake's root table is a tree in which nothing translates |
| Kvm.KernelSpace.MapStep | os/kvm.c:148-198 | one round maps one free page or 512, or finds the address taken, or runs out of table pages; no other translation changes |
| Kvm.KernelSpace.Kvmmap | os/kvm.c:136-202 | on an aligned range that does not wrap, returns exactly when no page of the range was mapped and the pool has the tables that are missing: one for each gigabyte touched and one for each 2 MiB block that no single leaf maps; then page i of the range has frame i and the permissions and no other translation changed, whatever leaves were chosen; each panic is told apart, with what was mapped before it |
| Kvm.AlignedWanted | os/kvm.c:105-108 | a range of whole 2 MiB blocks on frames aligned alike wants level 1 tables only |
| Vm.UserMemory.constructor | os/kalloc.c:15-31 | freerange makes every frame free once, in ascending order |
| Vm.UserMemory.Kallocpage | os/kalloc.c:59-73 | takes the head of the free list, or returns the address of no page; no translation changes |
| Vm.UserMemory.Kfreepage | os/kalloc.c:37-55 | a frame that is not free goes to the head of the free list; a frame outside the range panics |
| Vm.UserMemory.Walk | os/vm.c:27-46 | with alloc, changes no translation of any address space, adds exactly the missing tables, and fails exactly when there are fewer free pages than missing tables; without alloc, changes nothing |
| Vm.UserMemory.Walkaddr | os/vm.c:51-72 | gives the frame of a page mapped for the user, 0 otherwise; panics beyond user space or unaligned |
| Vm.UserMemory.Useraddr | os/vm.c:75-81 | gives the physical address of a user byte, 0 without a user page |
| Vm.UserMemory.MmCreate | os/vm.c:83-101 | makes an address space in which nothing translates, or fails exactly when no page is free |
| Vm.UserMemory.MmMappages | os/vm.c:160-198 | returns 0 exactly when no page of the area is taken or short of a table; returns 0 with all pages on frames exactly when the area was free and the free list had a page each and the missing tables; extends the map by exactly the area, on frames that were free; on failure the prefix stays mapped |
| Vm.UserMemory.MmMappagesat | os/vm.c:200-231 | maps exactly one page to the given frame, exactly when it was unmapped and the tables could be had |
| Vm.UserMemory.Freevma | os/vm.c:133-149 | unmaps exactly the area; its frames go back to the free list (or to the caller); panics exactly when an entry has no frame to free |
| Vm.UserMemory.MmFreePages | os/vm.c:111-121 | unmaps exactly the listed areas and frees exactly their frames; on a well-formed list, panics exactly when a listed page has no frame |
| Vm.UserMemory.MmFree | os/vm.c:123-131 | also frees the root; the other tables and unlisted pages are lost; other address spaces keep pages and translations |
| Vm.UserMemory.PageFault | os/trap.c:119-134 | sets A, and D for a store, in the entry of a mapped page and changes nothing else |
| Vm.UserMemory.MmCopy | os/vm.c:236-267 | succeeds exactly when the new space is free at all areas, every original page is a user page on a frame, and the free list has a page each and the missing tables; then the new list has the same areas and each page the same bytes on its own frame; when it returns -1 the areas copied before and the copy's earlier ones are unmapped and their frames free, the first d pages of the failing area are still mapped, on frames that were free, and on no list, and no other page and no other frame of the copy changed but new tables; the original is never changed |
| ProcessSpace.AllocSpace | os/proc.c:92-114 | succeeds exactly from four free pages on; then exactly the trampoline and a zeroed trap frame are mapped, and neither is a user page: walkaddr finds none in the new space; the trampoline is executable and not writable, the trap frame readable and writable |
| ProcessSpace.FreeSpace | os/proc.c:116-133 | panics exactly when a listed page has no frame; otherwise trap frame, listed pages and root are free again, the trampoline's frame is not touched, the lower tables are lost, no other space is touched |
| ProcessSpace.ForkMeetsNothing | os/proc.c:174-184 | in a new address space a copy of areas below the trap frame meets no mapped page |
| UserTheorems.NoSharing | os/vm.c:83-267 | two user pages on one allocator frame are the same page of the same space, and the frame is neither free nor a table |
| UserTheorems.TablesApart | os/vm.c:27-46 | no frame is two tables, nor a table and free |
| UserTheorems.SlotsApart | os/vm.c:27-46 | walk gives different pages, of one space or of two, different entries |
| UserTheorems.Partition | os/kalloc.c:37-73 | every frame is free, a table, a user page, held or lost, and is what its owner says, in both directions |
| UserTheorems.StoreSeenOnce | os/vm.c:233-267 | a store through one user page changes no other user page of any address space and no translation |
| UserTheorems.FreevmaRestores | os/vm.c:133-198 | freevma after mm_mappages restores every translation and gives back exactly the frames that were mapped |
| UserTheorems.MapsNoPage | os/vm.c:184-192 | a concrete memory in which mm_mappages returns 0 and the page's frame is the address of no page |
| Console.Cons.Consintr | os/console.c:81-121 | on the ring, for every position and across wrap-around, one key does to the committed bytes and the tail being edited what the line discipline says |
| Console.EnterCommits | os/console.c:100-117 | plain text and then byte 10 or 13 commits the line, the text and a newline, and empties the tail |
| Console.EndOfFileCommits | os/console.c:100-117 | plain text and then ^D commits the line, the text and the mark |
| Console.FillCommits | os/console.c:100-117 | text that fills the ring commits everything, and after it no key changes anything |
| Console.TextAppends | os/console.c:100-109 | plain text below that is added to the tail, byte for byte |
| Console.EditingKeys | os/console.c:85-101 | ^U empties the tail, ^H and DEL drop its last byte, ^P and NUL change nothing |
| Console.TypedLineIsRead | os/console.c:81-220 | a line typed at an empty console and ended by either Enter is what a large enough read returns, with its newline |
| Console.Cons.UserConsoleRead | os/console.c:164-220 | sleeps exactly while the read of what has been typed waits; when it returns, it has delivered what one read of the stream of committed bytes delivers, where that stream is what the old line and the keys of the sleeps commit; the rest of the stream is still there and the line being edited is as typing left it; the value is target minus what is left |
| Console.KeysKeep | os/console.c:81-121 | whatever is typed, committed bytes stay in order and are only added to, a full ring is all committed, and a reader with nothing to read never faces a full ring |
| Console.EraseUndoes | os/console.c:92-98 | erasing as many plain bytes as were typed restores the line |
| Console.ReadsPrefix | os/console.c:170-218 | a read delivers a prefix of the stream, without end-of-file mark, a line end only last, no more than asked for |
| Console.ReadsUntil | os/console.c:170-218 | a read ends for one of: a line end, the count reached, no input, an end-of-file mark, no room |
| Console.EndOfFileOnce | os/console.c:185-192 | a ^D met after data stays in the stream, and the next read delivers no byte and takes it away |
| Console.ValueIsCount | os/console.c:169-219 | the returned value is the number of bytes delivered if and only if the count is not negative and below 2^32 |
| Console.ReadingMore | os/console.c:174-183 | a read that slept goes on as if all input had been there at once |
| ObjectAllocator.Allocator.Kalloc | os/kalloc.c:140-160 | sets the first clear slot and no other, counts it and returns its address; panics exactly when none is clear, and never reaches the last panic |
| ObjectAllocator.Allocator.Kfree | os/kalloc.c:162-180 | for an object of the pool succeeds exactly when its own slot is set, whatever the others are, and clears that slot and no other; panics on a clear slot or an address outside the pool; ignores NULL; keeps the counters exact unless the address is in the rounding tail of the pool |
| ObjectAllocator.Allocator.constructor | os/kalloc.c:90-138 | all slots are clear and available |
| ObjectAllocator.LiveIsMarked | os/kalloc.c:140-180 | after any sequence of calls the marked slots are exactly the objects handed out and not given back |
| ObjectAllocator.NeverTwice | os/kalloc.c:140-160 | after any sequence of calls kalloc returns an object that is not live, or all are live |
| ObjectAllocator.LiveFrees | os/kalloc.c:162-180 | after any sequence of calls kfree succeeds exactly on the live objects; then that object and no other is live no more, and no other slot changes |
| ObjectAllocator.AllocLives | os/kalloc.c:140-160 | after any sequence of calls kalloc fails exactly when all objects are live; otherwise exactly one more is live |
| ObjectAllocator.SecondFreePanics | os/kalloc.c:162-173 | a freed object cannot be freed again until it has been handed out again |
| ObjectAllocator.FreeGivesBack | os/kalloc.c:150-174 | kfree of the address kalloc returned is in the pool, frees that very slot and leaves everything as before the kalloc; a second kfree of it panics |
| ObjectAllocator.CounterExact | os/kalloc.c:144-177 | at every call of a run the number of clear slots moves with the counter |
| ObjectAllocator.ObjectsApart | os/kalloc.c:98-114 | objects of different slots do not overlap and lie in the pool |
| ObjectAllocator.ObjectAligned | os/kalloc.c:96-96 | every object is aligned to 16 bytes |
| ObjectAllocator.PoolsApart | os/kalloc.c:107-114 | pools of different allocators never overlap, for any sizes and counts, on unbounded addresses |
| ObjectAllocator.PoolsFit | os/kalloc.c:101-112 | when the last pool ends below 2^64 no product and no sum of allocator_init wraps, so the pools are where PoolsApart says |
| ObjectAllocator.PoolWraps | os/kalloc.c:102-107 | otherwise they may overlap: the 64-bit size of a pool of two objects of 2^63 bytes is 0 |
| TaskQueue.Queue.Push | os/queue.c:13-22 | appends to the bounded queue at every ring position; panics exactly when NPROC entries are in it |
| TaskQueue.Queue.Pop | os/queue.c:24-37 | takes the oldest entry, NULL exactly when there is none |
| Uaccess.User.CopyToUser | os/uaccess.c:9-28 | memory and result are those of a copy byte by byte through the translation |
| Uaccess.User.CopyFromUser | os/uaccess.c:33-52 | the bytes and the result are those of a copy byte by byte through the translation |
| Uaccess.User.CopystrFromUser | os/uaccess.c:58-92 | the bytes, the result and the length are those of a string read byte by byte |
| Uaccess.StopsAtFirst | os/uaccess.c:9-28 | a copy stops exactly at the first byte that cannot be reached |
| Uaccess.MovesPrefix | os/uaccess.c:9-28 | what a stopped copy did is what a complete copy of the bytes before that one does |
| Uaccess.ReadsBack | os/uaccess.c:9-52 | without aliases, what a complete copy wrote is what reading it back returns |
| UserBytes.ReachIs | os/uaccess.c:14-17 | the answers the copies use are walkaddr's over the page tables |
| UserBytes.PutUndisturbed | os/uaccess.c:9-28 | copy_to_user, wherever it stops, writes only frames behind user pages of its address space: all tables, translations and pages of other spaces stay, so walkaddr's answers are the same all through the copy |
| UserBytes.UserReadsBack | os/uaccess.c:9-52 | through the page tables of any address space, copy_from_user reads back what a complete copy_to_user wrote |
| Uaccess.StringEnds | os/uaccess.c:58-92 | a string read is a prefix of the bytes at the address, without a zero but the last byte, and as long as allowed if it has none |
| Memmove.Move | os/string.c:29-47 | the destination holds what the source held, for every overlap, and nothing else changed |
| Loader.Program.CopyFile | os/loader.c:59-76 | the segment's pages hold the file's bytes and then zeros to their end, and what is left of the file is what the pages could not take |
| Loader.Program.LoadSegment | os/loader.c:36-95 | for a page-aligned segment, fills exactly its pages with file bytes then zeros, and ends with the file used up exactly when the pages can take it; for any segment it loads, the bytes start at the first page |
| Loader.AlignedExactly | os/loader.c:48-76 | a loaded segment whose last file byte is not zero is where its header asks if and only if it starts a page |
| Loader.OffByOne | os/loader.c:51-67 | a concrete one-byte segment asked for at address 1 that is loaded at address 0 |
| Boot.RunInv | os/main.c:153-222 | every state of every start-up keeps turns, numbers and counts, for any number of harts and any failed starts |
| Boot.BootStackAlone | os/main.c:119-151 | at most one hart is on the boot stack, the boot hart included |
| Boot.TablesOutlived | os/main.c:185-188 | when the temporary tables are overwritten no started hart uses them |
| Boot.NumbersGood | os/main.c:162-182 | started harts have distinct numbers between 1 and NCPU - 1 |
| Boot.CountExact | os/main.c:166-177 | while the boot hart waits, the count has moved exactly when the hart it started is up, so no increment is lost |
| Boot.NoneEarly | os/main.c:190-218 | no hart schedules before the boot hart has set up the platform and overwritten the tables |
| Boot.EveryHartAsked | os/main.c:162-182 | a boot hart that has left its loop has asked for every hart but itself exactly once; started are exactly the harts that answered, and cpuid - 1 is their number |
| Boot.NeverItself | os/main.c:162-166 | the boot hart never asks for itself |
| Boot.GoesOn | os/main.c:153-222 | until the boot hart and every started hart schedule, some hart has a step to take |
| Boot.OutsideHart | os/main.c:162-182 | for every number of harts, every start-up gives every started hart a number that getcpu accepts if and only if the boot hart's id is below NCPU |

## Left out

- Devices, firmware calls, timers, output and logging: input bytes and interrupts arrive at any time.
- TLB, fences and weak memory: sequential consistency, `sfence_vma` does nothing.
- Register save lists of `swtch`, the trap entry and the trampoline: a switch saves one context and resumes another.
- Fairness: no CPU is ever stuck and the run queue is first come, first served, but that a runnable process is ever run is not claimed.
- `p->killed`: no modelled code sets it, so the test in `wait` is left out.
- Wrap-around of the pid counter, an `int` in the source: pids are unbounded.
- The locks of the task queue, the pid counter and the two allocators: their critical sections are one step, since no other lock is requested inside them.
- Address spaces inside the process protocol: `mm_create`, `mm_copy`, `mm_free` and `load_user_elf` are modelled on their own, not as steps of the protocol, and so are their panics; only `fork`'s reaction to their failure is an outcome of a run.
- Traps the hardware is not expected to deliver: a trap from the wrong mode, an unknown interrupt, an exception in the kernel (`os/trap.c:25,50,57,91`).
- The run starts after `load_init_app`; what precedes it is the boot model's.
- Vm.UserMemory.MmFree: reclaiming the lower tables is not claimed, because the code does not do it; `refcnt` is always 1 and is left out.
- Vm.UserMemory.MmCreate: the mm structure comes as a parameter; exhaustion of the mm and vma object pools, a panic, is left out.
- Vm.UserMemory.MmMappagesat: asks for a leaf permission, which both callers give.
- Vm.UserMemory.Kfreepage: a frame that is on the free list already, which the code would link a second time; no caller does it, and the free list is a sequence here, so the links inside free pages are not modelled.
- Vm.UserMemory.CopyOne: an address without memory is a fault that ends the copy; frames of the kernel image and of the boot-time allocator cannot be named by a user page.
- Kvm.KernelSpace.Kvmmap: ranges that leave one half of the canonical address space are not covered; `kvmmake`'s own list of ranges is left out.
- The fill patterns `kalloc` and `kfree` write to objects, and `kfree` of an index past the bitmap page, which is told apart only.
- Console.Cons.UserConsoleRead: one reader at a time; a second reader in between is covered by the process protocol only.
- Uaccess.User.CopyToUser: takes the answers of walkaddr as a map; `UserBytes` ties that map to the page tables, and `Vm.UserMemory.Walkaddr` says that walkaddr gives them.
- Loader.Program.LoadSegment: takes the pages mm_mappages mapped, without aliases; the ELF search, the stack and the break area of `load_user_elf` are left out.
- `growproc`, `sys_sbrk`, `sys_spawn` and system call dispatch: stubs or thin dispatch.
- Boot: building the temporary page tables and relocation to high addresses.
