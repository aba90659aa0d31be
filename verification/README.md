# xv6-riscv, modelled and proved in Dafny

The project models the parts of xv6 whose correctness is hardest to see from
the code and proves what they promise: the write-ahead log and buffer cache,
the inode layer, the process table and sleep-locks, Sv39 page tables and the
page allocator, the virtio disk driver, the user-level allocator, and three
smaller pieces of user and kernel code (shell parser, `grep` matcher, pipes).
`dafny verify dfyconfig.toml` checks everything.

Two styles are used side by side. Code that runs under one lock or in one
process is a class or a set of methods with loops, proved against a function or
a predicate that says what the result means. Code whose point is concurrency is
a state machine: a `Step` function over actions, each action a stretch of code
that nobody else can see the inside of, and theorems about every sequence of
actions from the initial state. Clocks, disks, devices, `sbrk` and failing user
copies appear as parameters of the action or method they can influence. Words
of memory are unbounded integers with the source's width written out where it
matters (16-bit ring indices, 32-bit pipe counters and process sizes).

| files | source |
|---|---|
| `Params`, `Blocks` | `kernel/param.h`, `kernel/fs.h`: sizes, words and bits of a block |
| `WriteAheadLog`, `LogAdmission`, `LogDevice` | `kernel/log.c` |
| `BufferCoherence`, `BufferCache` | `kernel/bio.c` |
| `Inodes`, `Dinodes`, `FileWrites`, `InodeLayer` | `kernel/fs.c`, `kernel/file.c`, `mkfs/mkfs.c` |
| `CrashSafety` | the inode layer on top of the log |
| `ProcTable`, `ProcSafety`, `ProcRuns`, `SleepLock` | `kernel/proc.c`, `kernel/sleeplock.c` |
| `PageTable`, `PageMemory`, `AddressSpaces`, `TableTrees`, `TableCosts`, `VirtualMemory`, `ProcessMemory` | `kernel/vm.c`, `kernel/kalloc.c`, `kernel/proc.c` |
| `VirtioDisk`, `VirtioSafety`, `VirtioDescriptors` | `kernel/virtio_disk.c` |
| `FreeList`, `UserMalloc`, `HeapBreak` | `user/umalloc.c`, `kernel/sysproc.c` |
| `ShellSyntax`, `ShellGrammar`, `ShellRoundTrip`, `ShellParser` | `user/sh.c` |
| `Grep`, `Pipes` | `user/grep.c`, `kernel/pipe.c` |

Where the code and its comments disagree, the model follows the code:

- `begin_op` admits three operations of MAXOPBLOCKS blocks each against
  LOGSIZE, but one block of the log is its header and `log_write` panics as soon
  as LOGSIZE - 1 blocks are listed. The exact bound that keeps it from panicking
  is MAXOPBLOCKS - 1 distinct blocks per operation
  (`LogAdmission.PanicFreeIff`, `LogAdmission.FullBudgetPanics`).
- At boot all buffers claim device 0, block 0, so "one buffer per block" holds
  exactly for the other keys (`BufferCoherence.OneBufferPerBlock`).
- A writer that is killed, or finds the read end closed, part-way through
  `pipewrite` returns without waking the readers of what it stored since it took
  the lock. A reader is left asleep over bytes exactly when that happens while it
  sleeps (`Pipes.StrandedIff`, `Pipes.GivingUp`, `Pipes.ReaderLeftAsleep`).
- `sbrk` takes an int and `sys_sbrk` keeps the break in one, so a request of 2 GB
  or more can succeed with less than it asks for, and a break of 2 GB or more is
  answered wrongly. `malloc` hands out memory it has exactly as long as the end of
  its region stays below 2 GB (`HeapBreak.BreakMoves`, `HeapBreak.Program.Malloc`).

## Model

| member | source | states |
|---|---|---|
| WriteAheadLog.CrashAtomicity | kernel/log.c:68-203 | A crash after any number of commit's disk writes, then any number of recoveries cut short anywhere, then one that completes: every home block is exactly old, or exactly new, the latter iff the first header write reached the disk, and the log is clean |
| WriteAheadLog.RunIsCommitted | kernel/log.c:116-123 | Over any history of commits and crashes the disk equals the transactions that committed, applied in order to the initial disk |
| WriteAheadLog.CommitMeaning | kernel/log.c:178-203 | After each prefix of commit's writes, what a recovery would expose is the old state up to the header write and the whole transaction from it on |
| WriteAheadLog.RecoverKeepsMeaning | kernel/log.c:116-123 | Recovery may stop after any write without changing what a recovery would expose |
| WriteAheadLog.RecoverKeepsForm | kernel/log.c:68-123 | Recovery may stop after any write and leaves a header and slots that recovery can read |
| WriteAheadLog.RecoverWhole | kernel/log.c:68-123 | A recovery that runs to the end puts every home block at the value the log stood for |
| WriteAheadLog.RecoverClean | kernel/log.c:116-123 | A recovery that runs to the end leaves an empty header |
| WriteAheadLog.CommitWhole | kernel/log.c:193-203 | An uninterrupted commit installs every logged block, touches no other home block, and leaves an empty header |
| WriteAheadLog.InstallKeepsLog | kernel/log.c:68-83 | Installing never writes into the log region, so it can be repeated |
| WriteAheadLog.RebootsKeepMeaning | kernel/log.c:116-123 | Any number of interrupted recoveries keep what the log stands for |
| LogDevice.Log.WriteHead | kernel/log.c:102-114 | Given that a header write is due, writes exactly the header with the listed blocks, and advances the plan by one write |
| LogDevice.Log.ReadHead | kernel/log.c:86-97 | Reading the header back gives the block list encoded on disk |
| LogDevice.Log.InstallTrans | kernel/log.c:68-83 | Its writes are exactly the home-block writes of the plan, from slots nothing has overwritten, and it unpins every logged block |
| LogDevice.Log.WriteLog | kernel/log.c:178-191 | Its writes are exactly the slot writes of the transaction, with the cached data |
| LogDevice.Log.Commit | kernel/log.c:193-203 | The loops make precisely the write sequence that the crash theorems are about, and empty the log |
| LogDevice.Log.RecoverFromLog | kernel/log.c:116-123 | The loops make precisely the recovery's write sequence, and empty the log |
| LogDevice.Log.EndOp | kernel/log.c:146-175 | When the last operation ends, every home block on disk holds what readers of the cache saw and the log is clean; before that nothing is written; panics exactly when already committing |
| LogDevice.Log.TryBeginOp | kernel/log.c:126-142 | Admitted exactly when not committing and every open operation plus this one could still log MAXOPBLOCKS blocks |
| LogDevice.Log.LogWrite | kernel/log.c:214-235 | Panics exactly when full or outside an operation; otherwise the block is pinned with its data and listed once |
| LogDevice.Log.Bwrite | kernel/bio.c:106-112 | A buffer write advances the plan by one block write |
| LogAdmission.RunSafe | kernel/log.c:126-235 | Over every interleaving of any number of processes, with at most MAXOPBLOCKS - 1 distinct blocks per operation, neither panic of log_write nor the one of end_op is reachable, and the reservation invariant holds |
| LogAdmission.PanicFreeIff | kernel/log.c:214-235 | No run can panic iff the per-operation budget is at most MAXOPBLOCKS - 1 |
| LogAdmission.FullBudgetPanics | kernel/log.c:214-235 | A concrete run in which three operations of MAXOPBLOCKS distinct blocks each reach the panic |
| LogAdmission.FullLogPanics | kernel/log.c:214-235 | Any three operations that fill all but the last block of the log within their budgets, and log one block more, reach the panic |
| LogAdmission.InvMeans | kernel/log.c:126-235 | In every such state the header lists at most LOGSIZE - 2 blocks, no operation is open while committing, and a process asleep in begin_op has a commit in progress, or open operations beside which there is no room for it |
| LogAdmission.BeginsIff | kernel/log.c:126-142 | A pass of begin_op lets the operation in iff nobody commits and the blocks listed plus MAXOPBLOCKS for it and every open one fit LOGSIZE; otherwise it sleeps, and once woken it tries again |
| LogAdmission.StepGrouped | kernel/log.c:146-175 | Every step keeps: the header lists exactly the blocks logged by the operations of this transaction, and so did the header of every earlier commit, so an operation is never split over two commits |
| LogAdmission.StepSleepers | kernel/log.c:126-175 | Every step keeps that a process asleep in begin_op has an operation or a commit to wait for |
| LogAdmission.StepReserved | kernel/log.c:126-235 | Every step keeps that blocks logged plus what running operations may still log fit the log |
| BufferCoherence.BreadShowsStore | kernel/bio.c:58-103 | In every run a returned bread shows the bytes last stored in its block, whatever was recycled meanwhile, and no one else holds that buffer |
| BufferCoherence.UnusedEqualsDisk | kernel/bio.c:58-151 | In every run a valid unused buffer equals its disk block, and a pinned one is valid and referenced |
| BufferCoherence.RunInv | kernel/bio.c:58-151 | Reference counts are exact, keys unique, holders exclusive, and the disk lags only behind pinned or changing buffers, in every run |
| BufferCoherence.OneBufferPerBlock | kernel/bio.c:36-89 | For every cache size and block: no run ever shows two buffers of that block iff it is not the block binit leaves in all of them, or there are fewer than two buffers |
| BufferCache.Cache.constructor | kernel/bio.c:36-53 | All NBUF buffers are on the ring, linked as one cycle in both directions, unreferenced and under the same key |
| BufferCache.Cache.Lookup | kernel/bio.c:58-89 | A buffer of that block if any, else, of those without references, the one that lost its last user longest ago, taken over for the block, else none, and then all are referenced |
| BufferCache.Cache.Release | kernel/bio.c:116-137 | Panics exactly when the caller does not hold the sleep-lock; otherwise lock and one reference are given up, and at zero the buffer is the latest to have lost its last user, the order of the others unchanged |
| BufferCache.Cache.Pin | kernel/bio.c:139-144 | One more reference, noted as the log's, ring unchanged |
| BufferCache.Cache.Unpin | kernel/bio.c:146-151 | The log's reference is gone, ring unchanged |
| BufferCache.BgetRefines | kernel/bio.c:58-89 | The LRU choice is one of the choices the coherence model allows |
| BufferCache.ReleaseRefines | kernel/bio.c:116-137 | brelse by a call that bread has answered does not panic, and is two enabled actions of the coherence model with the same effect on the buffers |
| BufferCache.PinRefines | kernel/bio.c:139-144 | bpin where log_write calls it has the effect of the coherence model's log write, which leaves a pinned buffer alone |
| BufferCache.UnpinRefines | kernel/bio.c:146-151 | bunpin of a block just installed is the coherence model's unpin |
| BufferCache.Unlink | kernel/bio.c:126-129 | Unlinking by prev and next leaves the cycle of the remaining buffers |
| BufferCache.PushFront | kernel/bio.c:130-133 | Relinking at the head gives the cycle with the buffer first |
| Inodes.BitmapExact | kernel/fs.c:64-103 | A bitmap bit is set iff the block is metadata or exactly one direct slot, indirect pointer or indirect entry of all inodes names it |
| Inodes.AllocMove | kernel/fs.c:64-86 | balloc of a free block keeps that invariant, with the block in hand |
| Inodes.FreeMove | kernel/fs.c:89-103 | bfree of a block no slot names keeps it, and the bit was set |
| Inodes.DetachIndirect | kernel/fs.c:409-437 | Dropping an indirect pointer lets go of exactly the blocks it led to |
| Inodes.ChunksMove | kernel/fs.c:464-509 | The loops of readi and writei, after c copies, have moved all that lies before the c-th block boundary past the offset |
| Inodes.ChunksEnough | kernel/fs.c:464-509 | They move everything iff there are copies for every block the range touches |
| Dinodes.DinodeRoundTrip | kernel/fs.c:221-237 | An inode stored in its block reads back with the same fields |
| Dinodes.DinodeNeighbour | kernel/fs.c:221-237 | Storing one inode leaves the others in the block as they were |
| Dinodes.DinodeLayout | kernel/fs.c:221-237 | Which word of the block each field is stored in, and that no other word changes |
| InodeLayer.FileSystem.Balloc | kernel/fs.c:64-86 | Returns the lowest free block, zeroed; panics, changing nothing, exactly when no block is free |
| InodeLayer.FileSystem.Bfree | kernel/fs.c:89-103 | Clears one bit; panics exactly when it was clear |
| InodeLayer.FileSystem.Bmap | kernel/fs.c:377-405 | The block mapped at that index, unchanged state if it was mapped; otherwise a zeroed one, with what was mapped still mapped to the same bytes in every file, and only bitmap, block and indirect block logged; panics only past MAXFILE or on a full disk |
| InodeLayer.FileSystem.Readi | kernel/fs.c:455-477 | No bytes if the offset is past the size or offset plus count reaches 2^32; otherwise the file's bytes from the offset on, as many as asked for or, where that passes the end, up to the end; fails iff the user copies stop before the last chunk; no state change, so nothing is allocated |
| InodeLayer.FileSystem.Iupdate | kernel/fs.c:221-237 | The inode's block is rewritten with this inode and nothing else |
| InodeLayer.FileSystem.Writei | kernel/fs.c:486-517 | Refused, with no change, iff the offset is past the size or the end is past MAXFILE blocks; otherwise the file becomes its old bytes with the chunks that could be copied spliced in at the offset, other files keep size, blocks and bytes, and inodes on disk are current; panics only on a full disk |
| InodeLayer.FileSystem.Itrunc | kernel/fs.c:409-437 | The file is empty, owns no block, other files are unchanged, "freeing free block" is unreachable, and at most two blocks are logged when one bitmap block covers the disk |
| InodeLayer.FileSystem.WriteOp | kernel/file.c:155-168 | The same for one transaction of filewrite, which logs at most 7 distinct blocks when one bitmap block covers the disk |
| InodeLayer.FileSystem.FileWrite | kernel/file.c:148-179 | Nothing changes when there is nothing to write or the first chunk is refused; otherwise the chunks add up to one splice of the bytes the offset moved over, also when that is none; with no copy failing the offset moves by the whole length if the file can hold it, else by the whole chunks that fit; the answer is the length if all was written, else -1; panics only on a full disk; every transaction but the last ends at a multiple of the chunk size, in a valid file system with the data so far spliced in |
| InodeLayer.FileSystem.constructor | mkfs/mkfs.c:111-112 | A disk of zeros with the bitmap of mkfs is a valid file system in which no inode is in use |
| InodeLayer.FileSystem.MarkMetadata | mkfs/mkfs.c:234-248 | Exactly the bits of the metadata blocks are set |
| InodeLayer.SevenBlocks | kernel/file.c:148-156 | Inode, bitmap and indirect block and the data blocks of a write that four chunks cover are at most seven |
| FileWrites.WritingEnds | kernel/fs.c:486-517 | Chunks stored one after another and the raised size make up the splice |
| FileWrites.SettledAgain | kernel/fs.c:221-237 | After an operation on one file and iupdate, every file is fully mapped, current on disk, and other files are as before |
| CrashSafety.CommitIsAtomic | kernel/log.c:68-203 | For any two valid file systems, a disk that holds the first, and a transaction to the second: after a crash at any disk write of its commit, and any number of recoveries cut short anywhere before one completes, the disk mounts as a valid file system with a clean log whose files are all as in the first or all as in the second, the latter iff the header was written |
| CrashSafety.WriteTransaction | kernel/file.c:161-166 | A transaction of filewrite is atomic in that sense: file content is the old one or the whole splice, every other file untouched; it has at most 7 blocks when one bitmap block covers the disk |
| CrashSafety.TruncTransaction | kernel/fs.c:409-437 | A transaction that truncates a file is atomic in that sense, and has at most 2 blocks when one bitmap block covers the disk |
| CrashSafety.WholeWrite | kernel/file.c:148-179 | A crash anywhere in a whole filewrite leaves, after recovery, a valid file system in which the file holds its old bytes with the data up to the end of some transaction spliced in, and every other file its own |
| CrashSafety.CommitShows | kernel/log.c:193-203 | An uninterrupted commit leaves a disk with a clean log that holds the second file system |
| CrashSafety.CommitsIff | kernel/log.c:178-203 | The logged blocks can be committed in one transaction iff the log has a slot for each |
| CrashSafety.BlankClean | mkfs/mkfs.c:111-112 | The log of a fresh disk is clean |
| ProcSafety.StepInv | kernel/proc.c:272-597 | Every action of every CPU and every interrupt keeps the whole invariant: lock ownership across swtch, parents, zombies and sleepers, with timer interrupts wherever no spin-lock is held |
| ProcSafety.RunsOnOneCpu | kernel/proc.c:437-555 | No process is ever on two CPUs; with p->lock free it is RUNNING iff some CPU runs it |
| ProcSafety.LockExcludes | kernel/proc.c:437-524 | At most one thread is inside code that holds a given p->lock, through every handoff |
| ProcSafety.NoOrphans | kernel/proc.c:272-428 | In every reachable state each living or zombie process but init has a parent that has not exited |
| ProcSafety.NoLostExit | kernel/proc.c:323-428 | With wait_lock free nobody sleeps in wait while a child is a zombie |
| ProcSafety.FreeOffCpu | kernel/proc.c:383-428 | A free slot is current on no CPU: wait never frees a process before its last swtch |
| ProcSafety.SchedSwitches | kernel/proc.c:437-465 | Each step of the scheduler hands p->lock and the CPU over such that lock holders, running states and c->proc stay in step |
| ProcSafety.ExitKin | kernel/proc.c:339-379 | The steps of exit other than reparent keep parents alive and leave no parent asleep beside a zombie child |
| ProcSafety.ReparentKin | kernel/proc.c:323-334 | A step of reparent keeps the same: a child given to init has init for a living parent, who is not left asleep beside it |
| ProcSafety.ScanKin | kernel/proc.c:394-425 | A step of the scan between two children keeps the same: it goes on to sleep only with no zombie child behind it |
| ProcRuns.WaitReturns | kernel/proc.c:383-428 | In every run: wait returns a child iff it meets one that is a zombie, and then the slot is free, without parent and unlocked, unless the status could not be copied out, when the child stays a zombie of this parent; it returns -1 at the end of the table iff it has been killed or has no child; no other slot changes |
| ProcRuns.WaitGoesOn | kernel/proc.c:394-425 | Otherwise it goes on scanning, nearer to the end of the table, or sleeps on its own address with a child left and no child a zombie |
| ProcRuns.OneReturnPerExit | kernel/proc.c:383-428 | In every run, between two returns of wait with the same slot a fork took the slot and later the process in it exited |
| ProcRuns.ForkReturns | kernel/proc.c:272-319 | In every run fork returns with its child runnable and its own, or, if copying failed, with the slot free again |
| ProcRuns.ExitEnds | kernel/proc.c:339-379 | In every run exit does not return: in a bounded number of steps of its own it ends as a zombie without children, wait_lock free, its parent not asleep in wait |
| ProcRuns.StateEdge | kernel/proc.c:104-597 | The life of a slot: which call may take it from which state to which, under every interleaving |
| ProcRuns.LockRespected | kernel/proc.c:437-597 | No step changes a slot's state or channel while another CPU holds its lock, and p->chan is set only from sleep to its return |
| ProcRuns.RunKeeps | kernel/proc.c:383-428 | In every run the whole invariant holds, and havekids says whether the part of the table scanned so far holds a child |
| ProcRuns.SchedulerRuns | kernel/proc.c:437-465 | The scheduler runs the process it has locked iff that is runnable, and otherwise unlocks it unchanged |
| ProcRuns.WakeupPass | kernel/proc.c:559-573 | In every run, once a wakeup has passed the whole table everybody who slept on its channel when it began has been awake since |
| ProcRuns.KillWakes | kernel/proc.c:578-597 | kill leaves its target not asleep |
| SleepLock.MutualExclusion | kernel/sleeplock.c:21-52 | At most one process is between acquiresleep and releasesleep, and with the inner lock free holdingsleep is true of exactly that one |
| SleepLock.NoLostWakeup | kernel/sleeplock.c:21-41 | With the inner lock free and the sleep-lock not taken nobody sleeps on it, whoever is killed meanwhile |
| SleepLock.AcquireReturns | kernel/sleeplock.c:21-31 | In every run acquiresleep takes the lock iff it finds it free, and returns only with the lock taken under its own pid |
| SleepLock.ReleaseReturns | kernel/sleeplock.c:33-41 | In every run a holder keeps the lock up to releasesleep, which returns, after n + 4 steps of its own among n processes, with the lock free and nobody asleep on it |
| SleepLock.StuckIff | kernel/sleeplock.c:21-41 | In every run a process inside the calls can take its next step unless it waits for the inner lock, in wakeup for the lock of a process just going to sleep or waking, or to be woken and scheduled |
| SleepLock.StepWake | kernel/proc.c:528-573 | Every step keeps that a process asleep, or on its way there, waits for a taken lock or for a wakeup that has not passed it |
| PageTable.Refines | kernel/vm.c:69-98 | What the hardware finds, going three levels down the tree in memory, is exactly the flat map it stands for |
| PageTable.PxDigits | kernel/riscv.h:352-355 | The three table indices of an address are the base-512 digits of its page number |
| PageTable.PteFields | kernel/riscv.h:345-350 | A PTE gives back the page number and flags it was made of |
| PageMemory.MapTranslates | kernel/vm.c:133-160 | After mappages exactly its range translates to consecutive pages and every other address as before |
| PageMemory.CutTranslates | kernel/vm.c:162-187 | After uvmunmap exactly its range does not translate and every other address as before |
| VirtualMemory.Vm.constructor | kernel/kalloc.c:26-40 | After kinit the free list holds exactly the pages from end to PHYSTOP |
| VirtualMemory.Vm.Freerange | kernel/kalloc.c:33-40 | Every page of the range is freed once |
| VirtualMemory.Vm.Kfree | kernel/kalloc.c:46-63 | The page, filled with junk, becomes the head of the list threaded through free pages, and no other page is written; the list stays in order iff the page was not free already |
| VirtualMemory.Vm.Kalloc | kernel/kalloc.c:68-82 | The head of the list is handed out filled with junk, or null exactly when nothing is free |
| VirtualMemory.Vm.Walk | kernel/vm.c:80-98 | The table holding the leaf entry; tables are only added, exactly those missing on the path; with alloc, null iff fewer pages are free than tables are missing; the mapping is unchanged |
| VirtualMemory.Vm.Mappages | kernel/vm.c:137-160 | The flat map gains exactly the range, iff as many pages are free as tables are missing for it; on failure the part before the page where no table could be had, and then nothing is free |
| VirtualMemory.Vm.Uvmunmap | kernel/vm.c:165-187 | The flat map loses exactly the range, and its pages go to the free list if asked, each once |
| VirtualMemory.Vm.Uvmcreate | kernel/vm.c:191-200 | An empty address space on one page, or no change |
| VirtualMemory.Vm.Uvmalloc | kernel/vm.c:220-244 | Zeroed pages are added and old ones keep their contents, iff there are free pages for them and for the tables missing; on failure user memory is as before and no page is lost |
| VirtualMemory.Vm.Uvmdealloc | kernel/vm.c:250-262 | User memory is cut to the new size and the pages above are freed |
| AddressSpaces.SizeMapped | kernel/vm.c:220-262 | With user memory of a given size the hardware translates exactly the user addresses on a page that begins below it |
| VirtualMemory.Vm.Freewalk | kernel/vm.c:266-282 | Every table of a subtree without leaves is freed once and nothing else is written |
| VirtualMemory.Vm.Uvmfree | kernel/vm.c:300-306 | All user pages and tables go back to the free list, each exactly once |
| VirtualMemory.Vm.Uvmcopy | kernel/vm.c:314-342 | The child's pages have the parent's contents and permissions and the parent is untouched, iff there are free pages for them and their tables; on failure the new space is empty again and no page is lost |
| VirtualMemory.Vm.ProcPagetable | kernel/proc.c:171-200 | An address space with trampoline and trapframe only, iff three pages are free; otherwise null with every page given back |
| VirtualMemory.Vm.ProcFreepagetable | kernel/proc.c:204-210 | All pages of the space but the trapframe are freed |
| ProcessMemory.Kernel.Allocproc | kernel/proc.c:104-145 | The lowest unused slot gains a trapframe and an empty space, iff there is one and four pages are free; on failure nothing changes hands |
| ProcessMemory.Kernel.Freeproc | kernel/proc.c:150-167 | Exactly the pages the slot held become free, and no page of another slot is written |
| ProcessMemory.Kernel.Fork | kernel/proc.c:272-319 | The child sees the parent's memory and registers with a0 = 0, and only free pages are written; succeeds iff a slot is unused and, for n user pages, 4 + n + ceil(n / 512) + ceil(n / 512 / 512) pages are free; a failure anywhere restores table and free set |
| ProcessMemory.Kernel.Growproc | kernel/proc.c:252-268 | The size becomes the old one plus n wherever that lies between 0 and 2^32 and the call succeeds, and stays otherwise; shrinking frees exactly the pages above the new size, growing takes one page for each new one and for each table missing, and fails iff they are not free; pages below both sizes look as before and new ones are zero |
| ProcessMemory.Kernel.constructor | kernel/kalloc.c:26-31 | The constant set of pages is everything kinit frees |
| ProcessMemory.SlotStep | kernel/proc.c:104-210 | Moving pages between one slot and the free list keeps free list, tables, user pages and trapframes disjoint with a constant union |
| ProcessMemory.FreeIsRest | kernel/kalloc.c:46-82 | The free set is determined by what the processes hold |
| TableCosts.UserCosts | kernel/vm.c:80-98 | User memory of n pages in a fresh address space takes one table for every 512 pages begun and one for every 512 of those |
| VirtioSafety.RunSafe | kernel/virtio_disk.c:144-315 | Over every interleaving of callers, interrupts and a device that completes in any order and reports no error, no panic is reachable |
| VirtioSafety.PanicIff | kernel/virtio_disk.c:144-315 | Over every interleaving with any device answers, a panic is reached iff an interrupt comes to a request that was answered with an error |
| VirtioSafety.Conserved | kernel/virtio_disk.c:144-201 | In every reachable state free descriptors plus three per unfinished request make NUM, and any two requests share no descriptor or buffer |
| VirtioSafety.DeviceReads | kernel/virtio_disk.c:224-256 | In every run, from any chain it holds the device reads what one call of virtio_disk_rw, in progress ever since and its buffer still busy, asked for: its direction, its buffer, and the sectors of its block |
| VirtioSafety.SubmitsIff | kernel/virtio_disk.c:204-256 | In every run a call begins a request iff three descriptors are free: three fewer then, the buffer busy, one request more, for what the call asked; otherwise nothing changes |
| VirtioSafety.FinishFrees | kernel/virtio_disk.c:268-280 | In every run the end of a call gives three descriptors back, forgets the buffer and removes the request |
| VirtioSafety.IntrClearsOwn | kernel/virtio_disk.c:282-315 | An interrupt round clears the buffer of the request in its used entry and no other |
| VirtioSafety.NoOverwrite | kernel/virtio_disk.c:258-305 | No ring entry is overwritten before it is read, also when the 16-bit indices wrap |
| VirtioSafety.SeesDone | kernel/virtio_disk.c:268-280 | A caller that sees b->disk == 0 finds its own request completed |
| VirtioSafety.ChainFreed | kernel/virtio_disk.c:173-185 | free_chain frees the request's three descriptors and cannot panic |
| VirtioDescriptors.Descriptors.AllocDesc | kernel/virtio_disk.c:144-154 | Takes the lowest free descriptor or none |
| VirtioDescriptors.Descriptors.FreeDesc | kernel/virtio_disk.c:157-170 | One descriptor is cleared and free |
| VirtioDescriptors.Descriptors.FreeChain | kernel/virtio_disk.c:173-185 | The loop ends, whatever the links, and frees what the state machine's step frees |
| VirtioDescriptors.Descriptors.Alloc3Desc | kernel/virtio_disk.c:189-201 | Three descriptors iff at least three are free; otherwise, with the first ones put back, none |
| FreeList.FreedOk | user/umalloc.c:24-44 | Linking a block in and joining it with the neighbours it touches keeps the list circular, ordered and coalesced, with every unit in one block and no unit lost |
| FreeList.RemovedOk | user/umalloc.c:75-77 | Handing out a whole block keeps the invariant |
| FreeList.TailOk | user/umalloc.c:78-82 | Handing out a block's tail keeps the invariant, and the new header lies in no other block |
| FreeList.GrownOk | user/umalloc.c:46-61 | A higher region from sbrk keeps it |
| FreeList.Conserved | user/umalloc.c:24-90 | The units taken from sbrk are the units of free blocks plus the units of allocated ones |
| FreeList.Disjoint | user/umalloc.c:24-90 | Any two blocks, free or allocated, are disjoint |
| UserMalloc.StopsAt | user/umalloc.c:29-33 | free's search stops exactly at the entry below the block |
| UserMalloc.Allocator.constructor | user/umalloc.c:21-22 | No heap before the first call |
| UserMalloc.Allocator.FindBelow | user/umalloc.c:29-33 | The search ends and finds the entry below the block from wherever freep points |
| UserMalloc.Allocator.Free | user/umalloc.c:24-44 | The block is no longer allocated, no unit is lost, no write lands in a block still allocated, and there is room for it in one piece |
| UserMalloc.Allocator.Search | user/umalloc.c:73-89 | Going round from freep finds the first block that is large enough, iff there is one, and ends |
| UserMalloc.Allocator.Morecore | user/umalloc.c:46-61 | sbrk's units are added and a block of the wanted size is free, or nothing changes |
| UserMalloc.Allocator.Malloc | user/umalloc.c:63-90 | A fresh block of enough units, all other blocks untouched, sbrk called iff no free block fits; null only when it then fails |
| HeapBreak.BreakMoves | kernel/sysproc.c:43-55 | A successful sbrk for morecore moves the break by the units asked for iff their bytes are fewer than 2^31, and by less otherwise |
| HeapBreak.Program.Malloc | user/umalloc.c:46-90 | For a process that gets memory only through malloc: the next answer of sbrk is again the break, above all of the heap, iff the region just taken ends below 2 GB |
| HeapBreak.Program.constructor | user/umalloc.c:21-22 | Before the first call the heap lies below the break |
| ShellRoundTrip.RoundTrip | user/sh.c:265-446 | Parsing the fully parenthesised text of any command tree with at most 9 words per EXEC, all words non-empty and free of symbols, gives the tree back |
| ShellRoundTrip.NormalForm | user/sh.c:265-446 | Every line that parses has a fully parenthesised form that parses to the same tree |
| ShellRoundTrip.LineRead | user/sh.c:344-446 | The same inside any longer line, up to a closing parenthesis or the end |
| ShellSyntax.ParseLine | user/sh.c:344-413 | The mutual recursion ends by remaining input and rank; the cursor never moves back; every range in the tree is a whole word and every argv fits |
| ShellSyntax.ParseArgs | user/sh.c:427-445 | Arguments are whole words of the line, at most 9 for each EXEC, and the loop always advances; which words and redirections they are is part of ShellGrammar.ParsesIff |
| ShellSyntax.GetToken | user/sh.c:265-308 | A token other than the end consumes input, and a word token is a maximal run of word characters |
| ShellGrammar.ParsesIff | user/sh.c:327-446 | For every line and tree: the parser returns the tree iff the line's tokens have it in the grammar, stated apart from the parser: arguments and redirections of a command in any order, the first redirection innermost, blocks with redirections after them, bars, ampersands and semicolons; so the parser panics exactly on the lines without a tree |
| ShellGrammar.Covers | user/sh.c:265-308 | Every non-blank character of the line lies in a token |
| ShellGrammar.Spells | user/sh.c:265-308 | Tokens come in the order of the line, and each is a whole word, one symbol, or >> taken together |
| ShellParser.Parser.NextToken | user/sh.c:265-308 | The pointer loops find the token the function defines and leave the cursor behind it |
| ShellParser.Parser.PeekAt | user/sh.c:310-320 | Skips blanks and answers for the next character |
| ShellParser.Parser.Redirections | user/sh.c:374-397 | The loop reads the redirections in order or panics where the parse function does |
| ShellParser.Parser.Execute | user/sh.c:415-446 | The loop gives the parse function's command or panic, which ShellGrammar.ParsesIff ties to the grammar |
| ShellParser.Parser.BlockCmd | user/sh.c:399-413 | The same for a block |
| ShellParser.Parser.PipeCmd | user/sh.c:361-372 | The same for a pipeline |
| ShellParser.Parser.LineCmd | user/sh.c:344-359 | The same for a line |
| ShellParser.Parser.Command | user/sh.c:327-342 | parsecmd gives the tree of the grammar, or panics if the line has none; then every argument and file name, read as a C string in the buffer, is its own word |
| ShellParser.Nulterminate | user/sh.c:448-493 | The buffer changes only at the ends of the command's words |
| ShellParser.WordsTerminated | user/sh.c:448-493 | For every line that parses, no NUL lands inside a word and each word ends at one |
| Grep.Match | user/grep.c:70-80 | True iff some substring of the text is in the declaratively defined language of the pattern, respecting a leading ^ and a trailing $ |
| Grep.HereMeans | user/grep.c:82-94 | matchhere is true iff a prefix is in the language, the whole text at a final '$' |
| Grep.StarMeans | user/grep.c:96-104 | matchstar is true iff a prefix is some repetitions followed by the rest |
| Grep.Here | user/grep.c:82-94 | The recursion computes matchhere |
| Grep.StarLoop | user/grep.c:96-104 | The loop computes matchstar |
| Pipes.Fifo | kernel/pipe.c:76-130 | Over every interleaving the bytes taken out are a prefix of the bytes stored, and nwrite - nread mod 2^32 is the fill level, at most PIPESIZE |
| Pipes.WritesInOrder | kernel/pipe.c:76-101 | In every run what a process has stored in its current call of pipewrite is the first i bytes it was given, in order, each once, at increasing places among all bytes stored |
| Pipes.WriteReturns | kernel/pipe.c:76-101 | A call of pipewrite ends only with everything stored, at a failed copy, or because it was killed or nobody reads |
| Pipes.ReadReturns | kernel/pipe.c:105-130 | In every run a call of piperead waits exactly on an empty pipe with an open write end, and gives up waiting exactly when killed; else it takes bytes one by one while there are any and it wants more, and returns then or at a failed copy |
| Pipes.CloseWakes | kernel/pipe.c:58-74 | Closing an end shuts it for good and leaves nobody asleep who waits for it |
| Pipes.WriterSleepsOnFull | kernel/pipe.c:76-130 | With the lock free a sleeping writer means a full pipe with an open read end |
| Pipes.ReaderSleepsOnEmpty | kernel/pipe.c:76-130 | With the lock free a sleeping reader means an open write end, and an empty pipe unless a writer returned early while this reader slept, having stored bytes since it took the lock |
| Pipes.GivingUp | kernel/pipe.c:84-87 | An early return by a writer that took the lock when a reader was not stranded strands that reader iff it sleeps and bytes were stored since |
| Pipes.StrandedIff | kernel/pipe.c:76-130 | A run leaves a given reader asleep over bytes at some time iff at some time a writer returns early, having stored bytes since it took the lock, while that reader sleeps |
| Pipes.ReaderLeftAsleep | kernel/pipe.c:84-87 | A run, for any number of processes from two on, in which that happens |

## Left out

- Boot and hardware: start, trap, PLIC, UART and assembly code, and the TLB.
- Spin-lock implementation and memory ordering: acquire and release are atomic steps of a sequentially consistent machine.
- Liveness: that a runnable process is eventually scheduled, or a waiting one eventually admitted, is not stated.
- Directories, path names, link counts, `iget`/`iput` reference counts and the system calls in kernel/sysfile.c.
- mkfs, except for layout and bitmap; a file system it fills with files is taken to have every block below a file's size mapped.
- The user copy of one chunk in readi and writei fails or succeeds as a whole; a partly copied chunk is not modelled.
- `bget`'s "no buffers" panic is an outcome of BufferCache.Cache.Lookup and is not excluded.
- exec, uvminit, uvmclear, copyin, copyout and the kernel page table.
- Vm and Descriptors methods whose source panics on misuse (a mapped page in mappages, an unmapped one in uvmunmap, a leaf in freewalk, a free descriptor in free_desc) demand the opposite of their callers; Kernel.Fork, Freeproc and Growproc and VirtioSafety.RunSafe show that no caller modelled here violates it.
- Calls into the memory code are made one at a time; kmem.lock and two forks running at once are not interleaved.
- `sys_pinfo`, countmapped, kernel/ramdisk.c and kernel/list.c.
- That a fresh process starts with killed == 0: kill(0) can set it on an unused slot.
- Sleeping for a free descriptor in virtio_disk_rw: a request that finds too few simply tries again; data bytes moved by the device are not modelled.
- Alignment of `sbrk` results for programs that call it themselves: heap addresses count header units of 16 bytes from one origin.
- UserMalloc.Allocator.Morecore: takes an answer of sbrk above all earlier ones for granted; HeapBreak.Program.Malloc says exactly when it is.
- Running commands, and the shell's input loop; grep's line buffering.
- ProcessMemory.Kernel.Fork: open files, the current directory, the name, the trace mask and the pid of the child are not modelled.
- ProcessMemory.Kernel.Allocproc: pids are not modelled.
- LogDevice.Log.EndOp: runs without other processes between releasing and retaking log.lock; LogAdmission.RunSafe covers what they can do there.
- LogDevice.Log.Bwrite: the panic on a buffer the caller does not hold is not modelled, because the log writes only buffers it has just read.
- ShellParser.Parser.Execute: arguments and redirections of a simple command are collected apart and joined at the end, where the source fills in the EXEC node after wrapping it.
- Pipes.ReaderSleepsOnEmpty: the exception cannot be dropped, as Pipes.ReaderLeftAsleep shows; Pipes.StrandedIff says exactly which runs need it.
- Pipes.Fifo: pipewrite and piperead are steps of a state machine on values, one per round of their loops, because other processes run between rounds.
