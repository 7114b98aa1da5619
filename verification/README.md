# xv6: machine-checked models

Dafny models of the hard core of the xv6 RISC-V kernel, and proofs about them.

**Crash-safe storage.** `Log` states what the block writes of commit and recovery do to a disk of
atomic block writes; `RedoLog` is the code of `kernel/log.c`, proved to issue exactly those writes.
`LogSystem` is the whole layer as a step system: any number of processes over the buffer cache and
the log, commit broken into single block writes. `LogLimit` shows how far the log reservation goes.
`BufferCache` is the code of `kernel/bio.c` with its linked list. `Blocks`, `Bitmap`, `Ownership`
and `FileContents` describe disk blocks, the free bitmap, who owns each block and what files
contain; `FileSystem` is the code of `kernel/fs.c` and filewrite over them.

**Virtual memory.** `PageTable` describes Sv39 tables (section 4.4 of the RISC-V privileged
architecture, version 20211203) in a pool of page frames, `AddressSpace`, `Teardown`, `UserMemory`
and `UserView` what each operation promises, and `VirtualMemory` is the code of `kernel/vm.c` over
`kernel/kalloc.c`. A history variable records for every frame the one use it is put to.

**Concurrency.** `SleepLock` and `ExitWait` are step systems over `kernel/proc.c` and
`kernel/sleeplock.c` with any number of processes and CPUs; `SleepRun` and `ExitRun` show a
run of each. `Virtio` is the queue driver of `kernel/virtio_disk.c` with a device that acts at any time
(sections 2.6 and 5.2 of VIRTIO 1.1).

**Algorithms.** `Heap` and `Umalloc` are the K&R allocator of `user/umalloc.c`, `Pipe` the ring
buffer of `kernel/pipe.c`, `Grep` the matcher of `user/grep.c`. `Basics` holds what several modules
share, wrap-around arithmetic above all.

Long conditions that a loop only carries along are *sealed* (module `Seals`): wrapped in a function
whose value is `Sound` exactly when the condition holds, and opened where a proof needs it. So
`MapCheck(...).Sound?` means `MappedRange(...)`, `UnmapCheck` `UnmappedRange`, `PopCheck`
`Populated`, `Rollback` `Restored`, `ViewCheck` `ViewKept`, `PaintCheck` `ViewPainted`, `Health`
`Tables` and `FreeList`, `Order` `InOrder`, `Wrote` `FileWritten`, `Midway` `IsMidway`, and the `Inv` and
`Checked` of the step systems the `Order` beside them.

Assumptions carried as preconditions or model parameters:

- A block write reaches the disk wholly or not at all; writes reach it in the order issued.
- Logged blocks lie outside the log area, a buffer is changed only under its lock inside an
  operation, and log_write follows the change.
- One chunk of either_copyin or either_copyout is copied wholly or not at all; a parameter says up
  to where user memory can be read or written.
- A process's size is at most TRAPFRAME; vmfault, copyin and copyout work on the current process's table.
- Only the holder of a sleep lock calls releasesleep, and virtio_disk_rw is called with the buffer locked.
- sbrk returns memory above all it returned before, and base lies below it.
- A spin lock is held by one CPU at a time; memory is sequentially consistent.

A law that does not hold as one might expect: log_write checks for a full log before it looks for
absorption, so an operation whose budget is used up can panic on a block that is already logged
(`LogLimit.RelogCanPanic`). It panics if and only if the log is full (`LogLimit.PanicsWhenFull`), and
never in an operation that has logged fewer than MAXOPBLOCKS blocks so far
(`LogSystem.FewBlocksSuffice`), as chunks of filewrite have at every log_write
(`FileSystem.FitsInOneOperation`).

## Model

| member | source | states |
|---|---|---|
| `Log.HeaderRoundTrip` | kernel/log.c:88-115 | a header block written from any list of block numbers reads back as that list |
| `Log.RecoveryPrefix` | kernel/log.c:118-124 | stopping recovery after any number of its block writes leaves a disk that still stands for the same home blocks |
| `Log.RecoveryComplete` | kernel/log.c:118-124 | a completed recovery puts every home block in place and leaves an empty header |
| `Log.UncommittedPrefix` | kernel/log.c:180-192 | any number of the writes before the header write leaves all home blocks and the old header as they were |
| `Log.HeaderCommits` | kernel/log.c:104-115 | the header write alone turns the disk from standing for the old home blocks to standing for the new ones |
| `Log.CommittedPrefix` | kernel/log.c:195-204 | any number of writes from the header write on leaves a disk that stands for the new home blocks |
| `Log.CommitThenRecovers` | kernel/log.c:195-204 | what commit writes after the header is exactly what recovery would write then |
| `Log.CrashAtomicity` | kernel/log.c:66-124 | stop commit after any prefix of its writes, crash recovery any number of times, finish one: all home blocks are old if the header was not written and all new if it was, and the header is empty |
| `RedoLog.RedoLog.constructor` | kernel/log.c:54-63 | issues exactly the recovery writes for whatever the disk holds and starts with an empty log and nothing pinned |
| `RedoLog.RedoLog.WriteLog` | kernel/log.c:180-192 | issues exactly the log writes of module Log, in order, of the pinned contents |
| `RedoLog.RedoLog.ReadHead` | kernel/log.c:88-98 | the in-memory header is the decoded header block |
| `RedoLog.RedoLog.WriteHead` | kernel/log.c:104-115 | issues one write, of the header block encoding the in-memory list over its old bytes |
| `RedoLog.RedoLog.InstallTrans` | kernel/log.c:67-84 | issues exactly the home writes that the header and the log blocks prescribe and releases all pins |
| `RedoLog.RedoLog.RecoverFromLog` | kernel/log.c:118-124 | issues exactly the recovery writes whose every prefix module Log proves harmless |
| `RedoLog.RedoLog.LogWrite` | kernel/log.c:216-236 | panics exactly when the log is full or no operation is running; otherwise absorbs a logged block and appends and pins a new one |
| `RedoLog.RedoLog.Publish` | kernel/log.c:195-199 | issues exactly the writes up to and including the commit point |
| `RedoLog.RedoLog.Commit` | kernel/log.c:195-204 | issues exactly the commit writes that CrashAtomicity is about, or none for an empty log; nothing stays logged or pinned |
| `LogSystem.OneSlotSteps` | kernel/bio.c:58-137 | looking a buffer up, locking, reading, changing and releasing it keep the system invariant |
| `LogSystem.BgetMissKeeps` | kernel/bio.c:75-87 | recycling any unreferenced buffer keeps the invariant: it is never one the log has pinned |
| `LogSystem.BeginOpKeeps` | kernel/log.c:128-143 | begin_op's admission test keeps the log space reserved for all operations within the log |
| `LogSystem.EndOpKeeps` | kernel/log.c:148-176 | the last end_op starts a commit with no operation running |
| `LogSystem.LogWriteKeeps` | kernel/log.c:216-236 | log_write by an operation within its budget keeps pins, reservations and cached contents consistent |
| `LogSystem.CopyToLogKeeps` | kernel/log.c:180-192 | each block copied to the log keeps the invariant |
| `LogSystem.WriteHeaderKeeps` | kernel/log.c:104-115 | the header write commits the logical contents of that moment |
| `LogSystem.InstallStepKeeps` | kernel/log.c:67-84 | each installed block keeps the disk standing for the committed contents and drops one pin |
| `LogSystem.ClearHeaderKeeps` | kernel/log.c:201-202 | clearing the header after the install keeps the disk standing for the committed contents |
| `LogSystem.CommitDoneKeeps` | kernel/log.c:171-174 | ending the commit returns to the idle state with nothing pinned |
| `LogSystem.StepKeeps` | kernel/log.c:128-236 | every step of every process keeps the invariant of cache, log, disk and reservations |
| `LogSystem.RunKeeps` | kernel/log.c:128-236 | so does every run |
| `LogSystem.CrashAnywhere` | kernel/log.c:66-204 | after any run of any processes, a crash anywhere and any number of crashed recoveries, recovery restores exactly the last committed home blocks and an empty log |
| `LogSystem.ConsistentAfterCrash` | kernel/log.c:66-204 | any property of the home blocks that holds whenever no operation is running holds again after a crash at any moment and recovery |
| `LogSystem.CommitsWholeOperations` | kernel/log.c:148-204 | only the header write moves the commit point, and then no operation is running and no buffer has unlogged changes |
| `LogSystem.HomeUntouchedBeforeCommit` | kernel/log.c:180-204 | until the header write no step changes a home block on disk |
| `LogSystem.ReferencedKeepsBlock` | kernel/bio.c:58-89 | no step gives a referenced or pinned buffer to another block |
| `LogSystem.CopiesLatest` | kernel/log.c:180-192 | write_log copies exactly the contents of the latest log_write of each block |
| `LogSystem.InstallsLogged` | kernel/log.c:67-84 | install_trans finds exactly the logged contents, cached or not |
| `LogSystem.PinsMatchLog` | kernel/log.c:216-236 | pins held equal logged blocks not yet installed |
| `LogSystem.BudgetSuffices` | kernel/log.c:216-236 | an operation with budget left never meets either panic of log_write |
| `LogSystem.FewBlocksSuffice` | kernel/log.c:216-236 | nor does one that has logged fewer than MAXOPBLOCKS different blocks, whichever block it logs next and whatever the others do |
| `LogSystem.EndOpNeverPanics` | kernel/log.c:148-155 | end_op never finds a commit in progress: committing implies no operation outstanding |
| `LogLimit.PanicsWhenFull` | kernel/log.c:220-224 | inside an operation log_write panics if and only if the log is full, and then every running operation has used up its budget |
| `LogLimit.WithinBudgetNeverPanics` | kernel/file.c:149-173 | none of the log_writes of a chunk of filewrite, or of itrunc on a disk that is not too large, can panic |
| `LogLimit.RelogCanPanic` | kernel/log.c:216-236 | a complete run from boot after which an operation re-logging its own, already logged block panics: absorption is no protection once the budget is gone |
| `BufferCache.MoveToFront` | kernel/bio.c:126-134 | unlinking and relinking a buffer keeps a circle that holds each buffer once with next and prev inverse |
| `BufferCache.BufferCache.constructor` | kernel/bio.c:37-53 | binit links all buffers, unused, into such a circle |
| `BufferCache.BufferCache.Lookup` | kernel/bio.c:65-73 | finds the buffer of the block, or shows that there is none |
| `BufferCache.BufferCache.Victim` | kernel/bio.c:75-78 | finds, among unreferenced buffers, the one moved to the front longest ago, or shows that all are referenced |
| `BufferCache.BufferCache.Bget` | kernel/bio.c:59-89 | hit, recycled or no buffers; no two buffers for one block; identities of referenced buffers fixed |
| `BufferCache.BufferCache.Brelse` | kernel/bio.c:117-137 | drops one reference, and moves the buffer to the front exactly at the last |
| `BufferCache.BufferCache.Bpin` | kernel/bio.c:140-144 | adds one reference and keeps order and identities |
| `BufferCache.BufferCache.Bunpin` | kernel/bio.c:147-151 | drops one reference without moving the buffer |
| `Bitmap.PutBitAt` | kernel/fs.c:66-106 | setting or clearing a bit of a bitmap block changes that bit and no other |
| `Ownership.OneReferenceEach` | kernel/fs.c:396-444 | a data block is marked in use if and only if some direct slot, indirect slot or indirect-table entry refers to it, and never do two |
| `FileSystem.FileSystem.FindFree` | kernel/fs.c:66-89 | the lowest block whose bit is clear, or none if all are set |
| `FileSystem.FileSystem.Balloc` | kernel/fs.c:66-89 | marks and zeroes the lowest free block; 0 exactly when every block is taken |
| `FileSystem.FileSystem.Bfree` | kernel/fs.c:93-106 | clears the bit; the panic is taken exactly when it was clear already |
| `FileSystem.FileSystem.MapDirect` | kernel/fs.c:411-419 | a direct block, allocated on demand; block ownership kept, all mapped blocks intact |
| `FileSystem.FileSystem.MapTable` | kernel/fs.c:422-434 | the indirect table, allocated on demand; no file block moves |
| `FileSystem.FileSystem.MapEntry` | kernel/fs.c:430-440 | an indirect block, allocated on demand; block ownership kept |
| `FileSystem.FileSystem.Bmap` | kernel/fs.c:406-444 | the block of the file, 0 only when the disk is full, panic exactly beyond the largest file; a mapped block costs nothing |
| `FileSystem.FileSystem.Iupdate` | kernel/fs.c:227-242 | the on-disk inode becomes the in-memory one and its block is logged |
| `FileSystem.FileSystem.WriteOne` | kernel/fs.c:539-550 | one chunk stored changes those bytes of that file and no other mapped byte of any file |
| `FileSystem.FileSystem.WriteLoop` | kernel/fs.c:539-551 | stops early only when the disk is full or the next chunk is unreadable; bounds on data and bitmap blocks logged |
| `FileSystem.FileSystem.Writei` | kernel/fs.c:529-562 | exactly the first r source bytes are spliced into the file, all other files unchanged, no holes; a chunk logs at most MAXOPBLOCKS blocks, and fewer before each log_write |
| `FileSystem.FileSystem.Readi` | kernel/fs.c:495-519 | exactly the requested slice cut at end of file, or -1 exactly when the destination ends before; never allocates or logs |
| `FileSystem.FileSystem.TruncDirect` | kernel/fs.c:455-460 | frees exactly the direct blocks; every free hits a set bit |
| `FileSystem.FileSystem.TruncTable` | kernel/fs.c:462-472 | frees exactly the indirect blocks and the table; every free hits a set bit |
| `FileSystem.FileSystem.Itrunc` | kernel/fs.c:449-476 | exactly the inode's blocks become free, the panic is unreachable, other files are unchanged; logs at most the bitmap blocks and the inode, within budget on a disk of up to 9 * BPB blocks |
| `FileSystem.FitsInOneOperation` | kernel/file.c:149-173 | a chunk logs at most 4 data, 4 bitmap and 1 indirect block before the inode, so every log_write comes with budget left |
| `FileSystem.FileSystem.WriteChunk` | kernel/file.c:155-171 | one transaction of filewrite splices in its bytes and stays within budget at every log_write |
| `FileSystem.FileSystem.Filewrite` | kernel/file.c:149-173 | chunks together splice in one prefix of the source; every transaction within budget at every log_write; short only for a named reason |
| `PageTable.PteRoundTrip` | kernel/riscv.h:358-369 | packing frame and flags into an entry and unpacking them is the identity |
| `PageTable.Indices` | kernel/riscv.h:372-374 | PX extracts three in-range indices that recompose the page number |
| `PageTable.WalkInjective` | kernel/vm.c:98-115 | two page-aligned addresses below MAXVA that walk the same way are equal |
| `VirtualMemory.VirtualMemory.Kalloc` | kernel/kalloc.c:69-82 | hands out a free frame and disturbs no table; 0 exactly when none is free |
| `VirtualMemory.VirtualMemory.Kfree` | kernel/kalloc.c:47-63 | a frame nobody refers to joins the free list, once |
| `VirtualMemory.VirtualMemory.Descend` | kernel/vm.c:103-113 | one level of walk: every translation of every table stays even when a table page is added |
| `VirtualMemory.VirtualMemory.Walk` | kernel/vm.c:98-115 | finds the bottom table of the page, adding at most two interior pages; every translation of every table stays |
| `VirtualMemory.VirtualMemory.MapPage` | kernel/vm.c:163-167 | adds exactly one translation; the remap panic exactly when the page is mapped |
| `VirtualMemory.VirtualMemory.Mappages` | kernel/vm.c:146-174 | adds exactly the pages of its range up to where it stops; all other translations of all tables unchanged |
| `VirtualMemory.VirtualMemory.Uvmcreate` | kernel/vm.c:179-187 | a new table that translates nothing; all others unchanged |
| `VirtualMemory.VirtualMemory.UnmapPage` | kernel/vm.c:202-210 | removes one translation, mapped or not, and frees its frame |
| `VirtualMemory.VirtualMemory.Uvmunmap` | kernel/vm.c:193-212 | removes exactly its range, frees exactly those frames; all other translations and data unchanged |
| `VirtualMemory.VirtualMemory.Uvmdealloc` | kernel/vm.c:247-258 | removes exactly the pages wholly above the new size |
| `VirtualMemory.VirtualMemory.Uvmalloc` | kernel/vm.c:217-240 | adds zeroed pages of its own for exactly the new range, or restores every translation; fails only with fewer than three free frames per page |
| `VirtualMemory.VirtualMemory.Uvmcopy` | kernel/vm.c:297-324 | each page the parent has is copied with its contents and permissions to a frame of its own, or everything is restored |
| `VirtualMemory.VirtualMemory.Freewalk` | kernel/vm.c:263-278 | frees the table page and exactly the table pages beneath it, each once; the leaf panic is unreachable |
| `VirtualMemory.VirtualMemory.Uvmfree` | kernel/vm.c:283-288 | with all leaves below sz, every frame of the table becomes free and nothing else changes |
| `VirtualMemory.VirtualMemory.Walkaddr` | kernel/vm.c:121-138 | the frame of a page the user may access, else 0 |
| `VirtualMemory.VirtualMemory.Vmfault` | kernel/vm.c:453-486 | backs a page only below sz and only if unmapped; no process can see the difference; 0 only for a named reason |
| `VirtualMemory.VirtualMemory.Copyin` | kernel/vm.c:381-403 | exactly the bytes the process sees, allocated or not yet; stops only at a page that is not there or cannot be backed |
| `VirtualMemory.VirtualMemory.Copyout` | kernel/vm.c:343-375 | what the process sees has exactly the written bytes laid over it; no other process sees a change; stops only at a page it may not write or cannot back |
| `AddressSpace.MapOneMore` | kernel/vm.c:162-172 | mapping page by page adds up to mapping the range |
| `UserMemory.Undo` | kernel/vm.c:226-238 | removing the pages added so far restores every translation and all data |
| `UserMemory.UvmfreeDone` | kernel/vm.c:283-288 | unmapping user memory and taking the table apart frees exactly the frames of that table |
| `UserMemory.Conservation` | kernel/kalloc.c:46-82 | free frames plus frames of the table are as many as before whenever frames moved only between the two |
| `UserMemory.PopulateConserves` | kernel/vm.c:217-324 | successful uvmalloc and uvmcopy move frames only between the free list and the table |
| `UserMemory.RollbackConserves` | kernel/vm.c:217-324 | so do failed ones |
| `UserMemory.UnmapConserves` | kernel/vm.c:193-258 | so do uvmunmap and uvmdealloc |
| `UserView.AddedUnseen` | kernel/vm.c:453-473 | a page added by vmfault cannot be told from the zero page that stood for it |
| `UserView.LazyLooksEager` | kernel/vm.c:453-473 | after eager growth by uvmalloc the process sees exactly what it would see after lazy growth |
| `UserView.RoundTrip` | kernel/vm.c:342-403 | after a successful copyout, copyin of the same range succeeds, whatever memory is left, and returns the same bytes across any number of pages |
| `SleepLock.StepKeeps` | kernel/proc.c:425-608 | every step of scheduler, yield, sched, sleep, wakeup, kkill, acquiresleep and releasesleep, by any process on any CPU, keeps the invariant of locks, states and sleepers; one lemma per step |
| `SleepLock.RunKeeps` | kernel/proc.c:425-608 | so does every run |
| `SleepLock.NoLostWakeup` | kernel/proc.c:539-584 | in every reachable state, while a sleep lock and its spin lock are free, nobody sleeps on it or is about to |
| `SleepLock.SweptAreAwake` | kernel/proc.c:571-584 | in the middle of wakeup's sweep only processes it has yet to visit sleep on the channel |
| `SleepLock.MutualExclusion` | kernel/sleeplock.c:22-41 | in every reachable state at most one process holds a sleep lock |
| `SleepLock.HoldingsleepExact` | kernel/sleeplock.c:44-52 | holdingsleep answers yes if and only if the caller holds the lock |
| `SleepLock.SchedulerSafe` | kernel/proc.c:438-460 | no two CPUs run the same process, and the scheduler resumes only a process that has switched off |
| `SleepRun.SleeperGetsTheLock` | kernel/sleeplock.c:21-41 | such a run from boot, through the window in which the sleeper has let go of lk and the wakeup sweep is under way |
| `SleepLock.SchedEntry` | kernel/proc.c:470-480 | sched is entered with p->lock held and a state other than RUNNING |
| `ExitWait.StepKeeps` | kernel/proc.c:257-608 | every step of scheduler, kfork, kexit, reparent, kwait, sleep, wakeup and kkill keeps the invariant of locks, states, parents and zombies; one lemma per step |
| `ExitWait.RunKeeps` | kernel/proc.c:257-608 | so does every run |
| `ExitWait.NoSleepOnZombie` | kernel/proc.c:367-412 | in every reachable state with wait_lock free, no process with a zombie child, given by reparent or its own, sleeps in kwait or is about to |
| `ExitWait.ReapedOffCpu` | kernel/proc.c:382-397 | a zombie is reaped by its parent only, and only when no CPU runs it or still holds its lock |
| `ExitWait.ReapedOnce` | kernel/proc.c:156-172 | each exit is reaped at most once: exits exceed reapings by one exactly while the slot is a zombie |
| `ExitWait.NoOrphans` | kernel/proc.c:308-318 | nobody's parent is a zombie or an unused slot |
| `ExitWait.GivesUpRightly` | kernel/proc.c:403-407 | kwait returns -1 after a full scan only to a process that has no children or was killed |
| `ExitRun.ChildIsReaped` | kernel/proc.c:307-412 | such a run from boot: fork, kwait, an exit inside the window before SLEEPING, and a reaping that has to wait for the zombie to leave its CPU |
| `Virtio.VirtioDisk.constructor` | kernel/virtio_disk.c:120-146 | all descriptors free, all indices zero |
| `Virtio.VirtioDisk.AllocDesc` | kernel/virtio_disk.c:157-166 | the first free descriptor, or -1 exactly when none is free |
| `Virtio.VirtioDisk.FreeDesc` | kernel/virtio_disk.c:170-182 | frees a descriptor outside all chains; neither panic is reached |
| `Virtio.VirtioDisk.FreeChain` | kernel/virtio_disk.c:186-197 | following the links frees exactly the three descriptors of the chain |
| `Virtio.VirtioDisk.Alloc3Desc` | kernel/virtio_disk.c:202-213 | three different descriptors, or none and no change when fewer than three are free |
| `Virtio.VirtioDisk.Prepare` | kernel/virtio_disk.c:216-272 | a new request whose chain says what was asked; requests already there and slots the device has yet to take are untouched |
| `Virtio.VirtioDisk.Publish` | kernel/virtio_disk.c:277 | makes the prepared request visible, and only that |
| `Virtio.VirtioDisk.DeviceTake` | kernel/virtio_disk.c:271-281 | the device takes the requests in the order published, each once, despite 16-bit wrap, also while the driver is allocating or freeing descriptors |
| `Virtio.VirtioDisk.DeviceComplete` | kernel/virtio_disk.c:309-310 | the device may complete what it took in any order and at any such moment; no used slot is overwritten before the driver has seen it |
| `Virtio.VirtioDisk.IntrNext` | kernel/virtio_disk.c:312-324 | the one disk flag cleared is that of the buffer whose own request the device completed; panic exactly for a failed request |
| `Virtio.VirtioDisk.Intr` | kernel/virtio_disk.c:295-327 | every completion is noted, unless one has failed |
| `Virtio.VirtioDisk.Finish` | kernel/virtio_disk.c:284-289 | a clear disk flag means that the device is done with the caller's whole chain, which is freed |
| `Virtio.QueueAccounted` | kernel/virtio_disk.c:200-213 | free descriptors plus three per request in flight make NUM |
| `Virtio.ChainsApart` | kernel/virtio_disk.c:216-292 | the chain of a request holds no free descriptor and none of another request |
| `Virtio.SlotsKept` | kernel/virtio_disk.c:272 | the avail slot about to be filled is none that the device has yet to take |
| `Umalloc.Allocator.constructor` | user/umalloc.c:21-22 | nothing allocated, nothing obtained from sbrk |
| `Umalloc.ScanTest` | user/umalloc.c:30-32 | the loop condition and the break together stop the scan exactly at the block after which the freed block belongs |
| `Umalloc.Allocator.Scan` | user/umalloc.c:30-32 | ends at that block wherever freep points |
| `Umalloc.Allocator.JoinUp` | user/umalloc.c:33-37 | the freed block joins the block above if adjacent; order, disjointness and units kept |
| `Umalloc.Allocator.JoinDown` | user/umalloc.c:38-43 | the block below joins it if adjacent; the list is again a sorted, disjoint, fully coalesced circle |
| `Umalloc.Allocator.Free` | user/umalloc.c:24-44 | exactly the given block goes back; other blocks keep their sizes; units conserved |
| `Umalloc.Allocator.Morecore` | user/umalloc.c:46-61 | exactly the memory from sbrk is added and afterwards some block has room; no change when sbrk fails |
| `Umalloc.Allocator.Carve` | user/umalloc.c:75-84 | a block of exactly the units asked for leaves the free list, whole or as the tail of a larger one; units conserved |
| `Umalloc.Allocator.Malloc` | user/umalloc.c:63-90 | a new block of the right size, disjoint from all others; 0 only when no block has room and sbrk failed; the scan ends, also after morecore |
| `Umalloc.AllPassed` | user/umalloc.c:74-87 | back at freep, every free block has been found too small |
| `Basics.WrapAgrees` | kernel/pipe.c:95 | a counter that wraps at a multiple of the ring size selects the slots that an unbounded one would: 32 bits for pipes, 16 bits for virtio rings |
| `Basics.WrapDistinguishes` | kernel/virtio_disk.c:312 | wrapped counters less than a full turn apart differ exactly when the unbounded ones do |
| `Pipe.RingTests` | kernel/pipe.c:88-121 | 32-bit counters tell an empty and a full ring from all others |
| `Pipe.Pipe.constructor` | kernel/pipe.c:33-36 | an empty pipe, both ends open |
| `Pipe.Pipe.Put` | kernel/pipe.c:95 | the byte joins the end of what was accepted and overwrites nothing still buffered |
| `Pipe.Pipe.Get` | kernel/pipe.c:123 | the byte removed is the oldest accepted one not yet removed |
| `Pipe.Pipe.Write` | kernel/pipe.c:77-103 | exactly a stretch of the source is accepted, in order; sleeps exactly when full; returns -1 exactly when unread or killed |
| `Pipe.Pipe.Read` | kernel/pipe.c:106-130 | exactly the next accepted bytes are delivered; a byte whose copyout fails is lost; waits exactly when empty with a writer |
| `Pipe.Pipe.Close` | kernel/pipe.c:59-74 | freed exactly when both ends are closed |
| `Grep.MatchHere` | user/grep.c:85-96 | true if and only if the pattern's items match a stretch of text starting here |
| `Grep.MatchStar` | user/grep.c:99-106 | true if and only if some run of the starred character followed by the rest matches here |
| `Grep.Match` | user/grep.c:73-82 | true if and only if the pattern matches at some position, or after '^' at the start |

## Left out

- Boot, traps, context-switch assembly, interrupts and CSRs: hardware plumbing; swtch appears only as handing the CPU over with p->lock held.
- Spin-lock internals, memory fences and weak memory: critical sections are atomic.
- Console, UART, printf, PLIC and MMIO set-up of the virtio device: device I/O.
- System-call dispatch, argument fetching and exec: glue over the operations modelled.
- Directories, path lookup, inode allocation, reference counts and the inode cache: not part of this model.
- mkfs: a well-formed disk without holes is the starting state.
- The kernel's own page table, uvmclear and copyinstr; accessed and dirty bits of page-table entries.
- Fairness and liveness: nothing is said about a waiting process being run in the end.
- LogSystem.ConsistentAfterCrash: that the property holds whenever no operation is running is a hypothesis; FileSystem's operations, which keep block ownership and files without holes, are not runs of LogSystem.
- RedoLog.RedoLog.Commit: the cache holds pinned blocks only, all others are read from disk; module LogSystem has the whole cache.
- RedoLog.RedoLog.ReadHead: a header block is readable; read_head would copy a count above LOGBLOCKS unchecked.
- RedoLog.RedoLog.RecoverFromLog: the header names blocks of the disk outside the log, as every header that the code writes does.
- FileSystem.FileSystem.Iupdate: stores the inode as a value; the byte layout of on-disk inodes and their type, device and link fields are not modelled.
- FileSystem.FileSystem.Bmap: runs as one operation; its calls into the log appear as the set of blocks logged, not as steps of LogSystem.
- FileSystem.FileSystem.Filewrite: the chunks of one call follow each other directly; what other processes do to the inode between two of its transactions is not modelled.
- VirtualMemory.VirtualMemory.Walk: addresses lie below MAXVA, above which walk panics; walkaddr and copyout test for it and the model does too.
- VirtualMemory.VirtualMemory.Mappages: pages from TRAPFRAME up map frames that no table frees, below it frames taken from the allocator.
- VirtualMemory.VirtualMemory.UnmapPage: frees the frames of user pages and not those from TRAPFRAME up, as all callers ask; clears the entry before freeing the frame, where the code frees first.
- VirtualMemory.VirtualMemory.Uvmunmap: the range lies below TRAPFRAME or from there up, as in all calls.
- VirtualMemory.VirtualMemory.Uvmalloc: no page of the new range is mapped yet, or mappages would panic.
- VirtualMemory.VirtualMemory.Uvmcopy: the child maps no page below sz yet, or mappages would panic.
- Virtio.VirtioDisk.Prepare: is one step as far as the device can see; DeviceTake and DeviceComplete also keep the invariant while descriptors are being allocated.
- Virtio.VirtioDisk.Finish: is one step as far as the device can see; DeviceTake and DeviceComplete also keep the invariant while descriptors are being freed.
- Virtio.VirtioDisk.Intr: the device completes nothing while the loop runs; one pass, IntrNext, starts from any state.
- Virtio.VirtioDisk.DeviceComplete: the device writes status, used entry and used index in one step.
- Umalloc.Allocator.Malloc: block sizes are unbounded, so the 32-bit size field and sbrk's int argument do not wrap.
