# A verified model of the xv6 kernel's hard parts

This project models, in Dafny, the parts of the xv6 RISC-V kernel (and of two of its user programs) where the
correctness argument spans several functions, several processes or a crash, and proves what each part is for. All
files verify together: `dafny verify dfyconfig.toml`.

Protocols among processes, devices and crashes are state machines: a state, actions with guards taken from the code's
branches, and theorems about every state or step of every run. Code that works in place is a class with loops, whose
methods are proved against those machines or against specification functions. Panics of the code are obligations: a
method requires what the code would panic without, and the theorems about runs show that the kernel's own callers meet
it.

| file | what it models |
|---|---|
| `LogModel.dfy`, `LogProofs.dfy`, `Log.dfy` | the write-ahead log: crash atomicity, group commit, reservation |
| `FsLayout.dfy`, `FsModel.dfy`, `Fs.dfy` | block allocator, block maps, reading, writing and truncating files |
| `InodeTable.dfy` | the table of in-memory inodes, across allocation, freeing and reclaiming |
| `Bio.dfy` | the buffer cache and its linked list |
| `Virtio.dfy` | the disk driver, its descriptors and rings, and the device |
| `Sv39.dfy`, `VmModel.dfy`, `VmFree.dfy`, `VmSpace.dfy`, `UserImage.dfy`, `Vm.dfy` | page tables in frames, how many frames they take, what user code sees of them, and the frame allocator |
| `Lazy.dfy` | growth of a process, eager or by page faults |
| `SleepLock.dfy`, `ExitWait.dfy` | sleep and wakeup, sleep-locks, fork, exit, wait |
| `Pipe.dfy`, `Files.dfy` | pipes; open files and their reference counts |
| `Umalloc.dfy`, `Grep.dfy` | the user-level allocator; the pattern matcher of grep |
| `Options.dfy`, `Params.dfy` | what several of them share |

## Model

| member | source | states |
|---|---|---|
| LogModel.HeaderRoundTrip | kernel/log.c:88-115 | the block list that write_head() puts in the header block is the one read_head() gets back |
| LogProofs.RunInv | kernel/log.c:10-47 | over every run of operations, commits, crashes and recoveries the memory, the log and the disk stay consistent with the committed transactions |
| LogProofs.CrashAtomicity | kernel/log.c:118-124 | from any state of any run a crash and a recovery leave the home blocks exactly as the committed transactions, in order on the initial image, leave them; with no commit under way the disk already is that image |
| LogProofs.CommittedForever | kernel/log.c:195-204 | no later step or crash loses, reorders or changes a committed transaction, and every commit that end_op() finished is among them |
| LogProofs.WrittenIsIssued | kernel/log.c:216-236 | what the log records as written by an operation is exactly the sequence of its log_write() calls in the run |
| LogProofs.OperationsAreAtomic | kernel/log.c:10-23 | all the writes of an operation are in one committed transaction, in order, or none of them is in any |
| LogProofs.GroupCommit | kernel/log.c:128-176 | a commit runs with no operation outstanding and freezes the log; logged blocks are distinct; used slots plus unused reservations never exceed the log |
| LogProofs.NeverStuck | kernel/log.c:195-204 | commit and recovery can always take their next step |
| LogProofs.NoPanicWithinReservation | kernel/log.c:216-236 | an operation that has logged fewer than MAXOPBLOCKS blocks never meets "too big a transaction" |
| LogProofs.PanicsExactlyWhenFull | kernel/log.c:221-222 | log_write() panics exactly when the log is full, and then every outstanding operation has used its whole allowance |
| LogProofs.AbsorbedWriteCanPanic | kernel/log.c:221-230 | a reachable state in which a write to any block already in the log, which needs no slot, panics for every operation |
| LogProofs.InstallReachesTarget | kernel/log.c:67-84 | installing from any point of an interrupted installation reaches the same home blocks |
| LogProofs.HomeWhenEmpty | kernel/log.c:67-84 | with an empty log the disk itself holds the committed state |
| Log.Log.constructor | kernel/log.c:54-63 | an image with an empty log starts a run |
| Log.Log.WriteLog | kernel/log.c:180-192 | every logged block is copied to its log block, one disk write a step, and the group is as before |
| Log.Log.WriteHead | kernel/log.c:104-115 | exactly the header block changes, to the in-memory list |
| Log.Log.ReadHead | kernel/log.c:88-98 | the in-memory list becomes the one in the header block |
| Log.Log.InstallTrans | kernel/log.c:67-84 | the committed blocks go home and are unpinned, step by step of a run |
| Log.Log.ReinstallTrans | kernel/log.c:67-84 | the same after a reboot, when nothing is pinned |
| Log.Log.EraseLog | kernel/log.c:201-202 | clearing the header leaves the home blocks at the committed state |
| Log.Log.Commit | kernel/log.c:195-204 | the group becomes the last committed transaction, and it is home |
| Log.Log.RecoverFromLog | kernel/log.c:118-124 | whatever point the crash came at, the home blocks become what the committed transactions make of the initial image |
| Log.Log.BeginOp | kernel/log.c:128-143 | admits an operation exactly when no commit runs and the blocks logged plus MAXOPBLOCKS for each outstanding operation and this one fit in the log |
| Log.Log.LogWrite | kernel/log.c:216-236 | absorbs a write to a logged block, or takes the next slot and pins the block |
| Log.Log.EndOp | kernel/log.c:148-176 | the last operation out commits the whole group before it returns; earlier ones only leave |
| Log.Log.Crash | kernel/log.c:118-124 | only the disk survives, and the run goes on from recovery |
| Fs.FileSystem.constructor | mkfs/mkfs.c:237-250 | an empty image with exactly the metadata bits set is a valid file system |
| Fs.FileSystem.Balloc | kernel/fs.c:67-89 | the first block whose bit is clear, zeroed and marked; 0 exactly when every bit is set; what is logged is that block and its block of the free map |
| Fs.FileSystem.Bfree | kernel/fs.c:93-106 | exactly one bit is cleared, and what is logged is its block of the free map |
| Fs.FileSystem.Bmap | kernel/fs.c:406-444 | the block the inode names for a block number, allocated when there was none, with its index block; no allocated block moves or changes; every block it changes is logged, and nothing when there was a block |
| Fs.FileSystem.Readi | kernel/fs.c:495-519 | the bytes of the file in the range, clipped to its size, nothing for a range that starts past the end or wraps; no change |
| Fs.FileSystem.Writei | kernel/fs.c:529-562 | the file becomes its old contents overlaid with the bytes written, short only on a full disk, -1 exactly for an offset past the end or a range past MAXFILE blocks; every other file is as it was; every block it changes is logged, with the block of every inode it changes; at most MAXOPBLOCKS blocks for the chunks filewrite() passes |
| Fs.FileSystem.Itrunc | kernel/fs.c:449-476 | the file becomes empty, exactly the blocks it named become free, and every other file is as it was; every block it changes is logged, and the inode's |
| FsModel.AllocKeeps | kernel/fs.c:67-89 | allocating keeps the free map and the block maps in agreement |
| FsModel.TrimFrees | kernel/fs.c:449-476 | after all slots are given up exactly the blocks the inode named are free |
| FsModel.TrimSpares | kernel/fs.c:449-476 | the other files keep their contents |
| FsModel.WroteMore | kernel/fs.c:540-554 | one more turn of the loop overlays one more piece |
| FsModel.ChargeTotal | kernel/file.c:149-172 | a chunk of at most three blocks of bytes logs at most MAXOPBLOCKS - 1 data, index and free-map blocks |
| FsModel.LogsMore | kernel/fs.c:538-561 | one part of an operation after another logs every block that the two have changed, and together what each has |
| InodeTable.FindMeets | kernel/fs.c:248-278 | iget()'s scan finds the entry of the inode, else an unused one, else there is none |
| InodeTable.RunInv | kernel/fs.c:118-170 | every run of the inode operations keeps the table, the handles, the links and the disk consistent |
| InodeTable.OneEntryPerInode | kernel/fs.c:248-278 | no inode has two entries in use, and ref is the number of pointers |
| InodeTable.LockedIsFresh | kernel/fs.c:294-318 | a locked inode without pending changes shows its typed on-disk fields, never those of an earlier inode of that number |
| InodeTable.LoadHasType | kernel/fs.c:315-316 | ilock() never meets its "no type" panic |
| InodeTable.IputNeverBlocks | kernel/fs.c:338-363 | the sleep-lock that iput() takes under the table's lock is always free |
| InodeTable.FreedOnlyBySoleHolder | kernel/fs.c:338-363 | an inode loses its type only in an iput() by its sole pointer, with no link left, after its contents were discarded |
| InodeTable.AllocatedIsBlank | kernel/fs.c:200-220 | an inode claimed by ialloc() is typed and blank, and the only pointers left to it are of an iput() that has freed it and is about to drop its own |
| InodeTable.DiskIsLastWritten | kernel/fs.c:227-242 | the disk holds of every inode its fields as of the last action of the run that wrote it: what the lock's holders had set by then |
| InodeTable.LockedSeesLast | kernel/fs.c:294-318 | whoever has locked an inode sees its fields as last set, whoever set them |
| InodeTable.PutReturns | kernel/fs.c:338-363 | an iput() of the last reference to an unlinked inode has made it free and blank on disk by the time it returns; any other only drops the reference |
| Bio.RemoveLinked | kernel/bio.c:128-129 | unlinking a buffer leaves a proper cycle of the others |
| Bio.InsertLinked | kernel/bio.c:130-133 | linking a buffer behind the head puts it first in the cycle |
| Bio.FindHitMeets | kernel/bio.c:65-73 | the first scan of bget() finds the block exactly when a buffer has it |
| Bio.FindUnusedMeets | kernel/bio.c:77-87 | the second scan finds the last unreferenced buffer of the circle |
| Bio.Bcache.constructor | kernel/bio.c:37-53 | binit() makes one cycle of all buffers, the last first |
| Bio.Bcache.Get | kernel/bio.c:59-89 | the two scans over the linked list compute the lookup on the abstract circle |
| Bio.Bcache.Release | kernel/bio.c:117-137 | drops a reference, and moves the buffer to the front exactly at the last one |
| Bio.RunInv | kernel/bio.c:59-151 | every run of gets, locks, reads, writes, pins and releases keeps the cache consistent |
| Bio.CachedOnce | kernel/bio.c:59-89 | no block is in two buffers, and refcnt is the number of uses and pins |
| Bio.RecycledOnlyUnused | kernel/bio.c:75-88 | a buffer changes its block only in bget(), unused and unpinned, and it is the least recently used such buffer |
| Bio.UsesWhatItAsked | kernel/bio.c:93-103 | from bget() to brelse() a use has the block it asked for, and its lock while it holds it |
| Bio.Coherent | kernel/bio.c:93-112 | a valid buffer neither locked nor pinned equals its block on the disk |
| Bio.DiskIsLastWritten | kernel/bio.c:107-112 | the disk holds of every block what its last bwrite() in the run found as last modified, or what it held at first |
| Bio.HolderSeesLast | kernel/bio.c:93-103 | whoever holds a buffer after bread() sees the last modification of its block, whoever made it, across recycling |
| Virtio.RunInv | kernel/virtio_disk.c:26-60 | every run of driver and device keeps descriptors, rings, requests and data consistent |
| Virtio.ChainsDisjoint | kernel/virtio_disk.c:202-292 | requests in flight own three descriptors each, none shared; free[] marks exactly the others |
| Virtio.FreesOnlyInUse | kernel/virtio_disk.c:170-197 | free_chain() walks exactly the request's own descriptors and never meets free_desc()'s panic |
| Virtio.NothingOverwritten | kernel/virtio_disk.c:266-327 | no unprocessed ring entry is overwritten, and index comparisons find every one, across the 16-bit wrap |
| Virtio.HandlerFindsOwner | kernel/virtio_disk.c:295-327 | the handler always finds status 0 and the request whose chain the entry names, with its data already transferred |
| Virtio.CompletedOnce | kernel/virtio_disk.c:277-292 | every submission is handled exactly once before it finishes |
| Virtio.RequestServed | kernel/virtio_disk.c:216-292 | when a request finishes, a write has put on the disk what the buffer held when it was submitted, and a read has what the disk holds |
| Virtio.DiskIsLastFinished | kernel/virtio_disk.c:216-292 | the disk holds of every sector what its last finished write put there, unless a completed one is not finished yet |
| Virtio.Driver.AllocDesc | kernel/virtio_disk.c:157-166 | takes the first free descriptor, if any |
| Virtio.Driver.FreeDesc | kernel/virtio_disk.c:170-182 | frees one descriptor in use and clears it |
| Virtio.Driver.Alloc3Desc | kernel/virtio_disk.c:202-213 | all three or none, the partial ones given back |
| Virtio.Driver.Start | kernel/virtio_disk.c:216-282 | the part up to the notification is the submission step |
| Virtio.Driver.Intr | kernel/virtio_disk.c:295-327 | the loop handles every used entry, one step each |
| Virtio.Driver.FreeChain | kernel/virtio_disk.c:186-197 | exactly the three descriptors of the chain are freed |
| Virtio.Driver.End | kernel/virtio_disk.c:283-292 | the end of a request is the finishing step |
| Sv39.PteForm | kernel/riscv.h:364-369 | shifting and or-ing a page-table entry together is packing frame and flags side by side |
| Sv39.PteRoundTrip | kernel/riscv.h:364-369 | frame and permissions come back out of an entry |
| Sv39.PageRoundTrip | kernel/riscv.h:371-374 | the three 9-bit indices determine the page |
| Sv39.LookupMeets | kernel/vm.c:98-115 | the three-level walk from the root reads the entry of the page |
| Vm.Memory.Kalloc | kernel/kalloc.c:69-82 | the first free frame, or 0 exactly when there is none |
| Vm.Memory.Kfree | kernel/kalloc.c:47-63 | the frame goes to the front of the free list |
| Vm.Memory.Freerange | kernel/kalloc.c:34-40 | exactly the frames that lie wholly in the range become free |
| Vm.Memory.Walk | kernel/vm.c:98-115 | the last-level table of the page; adds tables without changing any mapping; fails only without a free frame |
| Vm.Memory.Walkaddr | kernel/vm.c:121-138 | the physical address of a user page, 0 for any other |
| Vm.Memory.Mappages | kernel/vm.c:146-174 | the page map becomes the old one plus exactly the first n pages, all of them exactly when there are frames for the missing tables; every other page table's map is unchanged; no frame changes hands but new tables |
| Vm.Memory.Uvmcreate | kernel/vm.c:179-187 | the root of an empty page table |
| Vm.Memory.Uvmunmap | kernel/vm.c:193-212 | the page map becomes the old one minus the range, every other map is unchanged, and exactly the owned frames of the range are freed |
| Vm.Memory.Uvmalloc | kernel/vm.c:217-240 | zeroed pages of their own up to the new size, exactly when there are frames for the pages and their missing tables; otherwise every page and data frame as before; to user code it is eager growth |
| Vm.Memory.Uvmdealloc | kernel/vm.c:247-258 | exactly the pages between the sizes are unmapped and freed; to user code it is shrinking |
| Vm.Memory.Freewalk | kernel/vm.c:263-278 | exactly the frames of a leafless tree of tables are freed |
| Vm.Memory.Uvmfree | kernel/vm.c:283-288 | exactly the frames of the page table and its pages are freed; no other page table changes |
| Vm.Memory.Uvmcopy | kernel/vm.c:297-324 | the child's pages are the parent's, in frames of its own, with the same permissions and contents, exactly when there are frames for the mapped pages and their tables; otherwise every page and data frame as before; to user code the child is the parent |
| Vm.Memory.Vmfault | kernel/vm.c:455-489 | a page of zeroes below the size where none is mapped, exactly when there are frames for it and its tables; to user code it is the fault of the lazily grown process, and nothing when it fails |
| Vm.MappingRefines | kernel/vm.c:146-174 | what mapping does, as an update of one finite map per page table |
| Vm.UnmappedRefines | kernel/vm.c:193-212 | what unmapping does, as a removal from one finite map |
| Vm.CopyImages | kernel/proc.c:279-285 | after the copy, the parent, the child and the parent before are one and the same process image |
| Vm.GrownImage | kernel/vm.c:217-240 | the image of the grown page table is the eager growth of the image |
| Vm.ShrunkImage | kernel/vm.c:247-258 | the image of the shrunk page table is the shrinking of the image |
| Vm.FaultImage | kernel/vm.c:455-479 | the image after a fault is the image with one page of zeroes more |
| VmSpace.SpentMore | kernel/vm.c:98-115 | what one step after another takes is one frame for each place that was not there before either, and the second fails exactly when the two need more than there is |
| Lazy.CopyInMeets | kernel/vm.c:381-403 | copyin() succeeds exactly when every address is accessible, mapped or to be faulted in; it gives the byte at each address, zero in a fresh page, and changes nothing that can be seen |
| Lazy.CopyOutMeets | kernel/vm.c:343-375 | copyout() writes exactly the bytes before the first address that may not be written, and succeeds exactly when there is none |
| Lazy.SimCopyIn | kernel/vm.c:381-403 | copying in gives the same bytes from a lazily grown process as from the eagerly grown one |
| Lazy.SimCopyOut | kernel/vm.c:343-375 | copying out has the same result, and keeps the two alike |
| Lazy.SimSbrk | kernel/sysproc.c:44-70 | growing lazily or eagerly, and shrinking, return the same and keep the two alike |
| Lazy.SbrkMeets | kernel/sysproc.c:44-70 | what sbrk() returns and what becomes of every address, eager or lazy |
| Lazy.TouchAgrees | kernel/vm.c:455-479 | a load or store tells them apart exactly past the size in a last page that only the eager one has |
| Lazy.LastPageDiffers | kernel/vm.c:455-479 | an input where it does |
| Lazy.AccessMeets | kernel/vm.c:455-479 | a load gives the byte at its address and a store changes that byte only; the process is killed exactly when its page is there without the permission, or is not and the address is not below the size |
| Lazy.LazyEqualsEager | kernel/sysproc.c:44-70 | every sequence of system calls, forks and accesses below the size has the same results with lazy as with eager growth |
| Lazy.Process.Vmfault | kernel/vm.c:455-479 | the fault adds a zeroed page exactly below the size where none is mapped |
| Lazy.Process.Copyin | kernel/vm.c:381-403 | the page-by-page loop computes the specification |
| Lazy.Process.Copyout | kernel/vm.c:343-375 | likewise, leaving what was written when it fails half way |
| Lazy.Process.Growproc | kernel/proc.c:245-263 | the new size, with 64-bit wrap-around, and the pages that go with it |
| Lazy.Process.SysSbrk | kernel/sysproc.c:44-70 | the old size, or -1 exactly when the process would grow past TRAPFRAME; the size becomes the sum, or stays when that is negative; no address below both sizes changes contents or access, and the new pages can be written and are zero |
| SleepLock.RunInv | kernel/sleeplock.c:22-52 | every interleaving of acquire, release, sleep, wakeup, kill and scheduling keeps locks and process states consistent |
| SleepLock.MutualExclusion | kernel/sleeplock.c:22-52 | at most one process owns a sleep-lock, the one holdingsleep() reports |
| SleepLock.AcquireReturns | kernel/sleeplock.c:22-31 | in every run an acquiresleep() that returns has got the lock, and the process has the others it had |
| SleepLock.ReleaseReturns | kernel/sleeplock.c:34-41 | a releasesleep() that returns has given up that lock and no other |
| SleepLock.NoLostWakeup | kernel/proc.c:588-632 | while the inner spinlock is free, a process asleep on a sleep-lock, or committed to sleep, waits for a lock that some process owns |
| SleepLock.WokenOnlyWhenAway | kernel/proc.c:619-632 | a process that can be found SLEEPING has left its CPU |
| ExitWait.RunInv | kernel/proc.c:268-460 | every interleaving of fork, exit, wait, kill and scheduling keeps the process table consistent |
| ExitWait.ReapedAtMostOnce | kernel/proc.c:416-460 | every death is reaped at most once |
| ExitWait.ReapedByParentAfterSwitch | kernel/proc.c:416-460 | only by the current parent's wait, under wait_lock, after the child has left its CPU |
| ExitWait.NoMissedExit | kernel/proc.c:347-460 | while wait_lock is free, no process asleep in wait has a ZOMBIE child |
| ExitWait.ParentsAreAlive | kernel/proc.c:331-341 | every started process but init has a live parent, and init is alive |
| ExitWait.NoChildrenIsTrue | kernel/proc.c:451-455 | wait gives up for lack of children only when there are none |
| ExitWait.WaitReturns | kernel/proc.c:416-460 | in every run a wait() that returns has reaped exactly one child of its process; or none, because there are no children, the process is killed, or the status could not be copied out |
| ExitWait.ForkReturns | kernel/proc.c:268-326 | a fork() that returns has a new RUNNABLE child of its own process, or has failed and given the slot back |
| ExitWait.ExitNeverReturns | kernel/proc.c:347-411 | an exiting process runs nothing else until its slot has been reaped as a ZOMBIE |
| Pipe.TestsExact | kernel/pipe.c:88 | the wrapping comparisons decide exactly whether the ring is full or empty |
| Pipe.PutKeeps | kernel/pipe.c:95 | storing a byte extends what was accepted and overwrites nothing undelivered |
| Pipe.GetKeeps | kernel/pipe.c:121-127 | reading delivers the next accepted byte |
| Pipe.Ring.constructor | kernel/pipe.c:33-36 | an empty ring, both ends open |
| Pipe.Ring.WriteSome | kernel/pipe.c:83-98 | the loop accepts the source's bytes in order until done, closed or full |
| Pipe.Ring.ReadSome | kernel/pipe.c:118-129 | the loop delivers the next bytes in order until done or empty |
| Pipe.RunInv | kernel/pipe.c:77-134 | every interleaving of readers, writers, kills and closes keeps ring and lock consistent |
| Pipe.PrefixOfAccepted | kernel/pipe.c:77-134 | in every run the bytes read are a prefix of the bytes accepted, and nwrite - nread modulo 2^32 is how many are in between, at most PIPESIZE |
| Pipe.WriterStores | kernel/pipe.c:77-103 | as long as a call of pipewrite() lasts, what it has had accepted is the beginning of its source, in order, across its sleeps |
| Pipe.ReaderReads | kernel/pipe.c:106-134 | as long as a call of piperead() lasts, what it has read is its part of the delivered bytes |
| Pipe.OnlyTurns | kernel/pipe.c:77-134 | nothing else is ever accepted or delivered |
| Pipe.CallEnds | kernel/pipe.c:77-134 | a call ends in a step that stores and delivers nothing |
| Pipe.SleepsForAReason | kernel/pipe.c:77-134 | without the step below, whenever the lock is free a sleeping reader means empty and writable, a sleeping writer full and readable |
| Pipe.SilentStrands | kernel/pipe.c:84-87 | a killed writer that stored bytes leaves a sleeper without reason exactly when a reader sleeps |
| Pipe.KilledWriterStrands | kernel/pipe.c:84-87 | a reachable state in which a reader sleeps on a pipe that is not empty |
| Files.RunInv | kernel/file.c:30-83 | every interleaving of the file system calls keeps counts, places and objects consistent |
| Files.RefCountsPlaces | kernel/file.c:30-83 | ref is the number of places that hold the file; with no call in progress those are descriptors and VMA slots |
| Files.NeverPanics | kernel/file.c:48-66 | filedup() and fileclose() never find a count below one |
| Files.ReleasedOnce | kernel/file.c:60-83 | no inode reference and no pipe end is let go of twice, nor while a file still has it |
| Files.ReleasedAtLastDrop | kernel/file.c:60-83 | it is let go of in exactly the step that takes the last place of the file away |
| Files.ForkCopies | kernel/proc.c:298-308 | a child starts with exactly its parent's descriptors and mappings |
| Files.CallReturns | kernel/sysfile.c:40-505 | whatever the others do meanwhile, a call that returns has done what it is for to the descriptors and mappings, and nothing where it failed: open() one new descriptor with an inode reference of its own, pipe() two with the read and the write end of one new pipe, dup() and mmap() one more place of the same file, close() and munmap() one place less, fork() a child with the same files |
| Files.ExitLeavesNothing | kernel/proc.c:354-386 | a process that has exited holds no reference |
| Umalloc.InsertMeets | user/umalloc.c:25-44 | freeing keeps the circle in address order and coalesced, and adds exactly the units of the block |
| Umalloc.TakeMeets | user/umalloc.c:74-84 | allocating keeps it so, and removes exactly the units taken |
| Umalloc.NeverBoth | user/umalloc.c:25-90 | no unit is both free and live |
| Umalloc.FreeAccounts | user/umalloc.c:25-44 | free and live units are together exactly those obtained |
| Umalloc.TakeAccounts | user/umalloc.c:74-84 | the same for allocating |
| Umalloc.Heap.FindSpot | user/umalloc.c:30-32 | the search ends at the block after which the freed one belongs |
| Umalloc.Heap.Free | user/umalloc.c:25-44 | the block stops being live and exactly its units become free |
| Umalloc.Heap.Morecore | user/umalloc.c:47-61 | a fresh block that is large enough goes on the list, or 0 and no change when sbrk() refuses |
| Umalloc.Heap.Malloc | user/umalloc.c:64-90 | a block that holds the request and overlaps no other, or 0 only when the kernel refuses |
| Umalloc.BoundedRequest | user/umalloc.c:54 | the argument of sbrk() is the number of bytes needed exactly up to 0x7FFFFFE0 |
| Umalloc.ObtainedExactly | user/umalloc.c:47-61 | the block that morecore() goes on with is memory obtained exactly up to 0x7FFFFFE0 |
| Umalloc.LargeRequestUnbacked | user/umalloc.c:47-61 | at 0x7FFFFFE1 sbrk() is never refused and the break does not rise, for a block of 2^27 units |
| Umalloc.HeaderStored | user/umalloc.c:57-59 | for such requests, exactly when the store to the block's header succeeds, so that the block is listed: otherwise it faults |
| Grep.MatchHere | user/grep.c:85-96 | true exactly when the pattern's language matches at the start of the text |
| Grep.MatchStar | user/grep.c:99-106 | the same for a starred character in front |
| Grep.Match | user/grep.c:73-82 | true exactly when some place of the text matches, with both anchors |

## Findings

Properties one would expect and the code does not have, each with an input and the exact condition:

- `log_write()` checks for room before it looks for the block in the log, so a write that needs no slot panics when the
  log is full: `LogProofs.AbsorbedWriteCanPanic`. `LogProofs.PanicsExactlyWhenFull` says when: only with every
  outstanding operation at its whole allowance of MAXOPBLOCKS.
- Eager growth maps whole pages, lazy growth refuses a fault past the size, so an access past the size within the last
  page tells them apart: `Lazy.LastPageDiffers`. `Lazy.TouchAgrees` says exactly when.
- `pipewrite()` returns without wakeup() when its process is killed, so bytes it has stored since its last wakeup() can
  leave a reader asleep: `Pipe.KilledWriterStrands`. `Pipe.SilentStrands` and `Pipe.SleepsForAReason` say exactly when.
- `morecore()` passes a byte count to an `int`, so malloc() of more than 0x7FFFFFE0 bytes takes a block for obtained
  that is not: `Umalloc.LargeRequestUnbacked`. `Umalloc.ObtainedExactly` says exactly when. It then stores the header of
  that block: with the break in a page that is mapped for writing, or raised by 16 bytes, the block goes on the free
  list, and otherwise the process is killed by the fault: `Umalloc.HeaderStored`.

## Left out

- LogWrite: takes operations within their allowance of MAXOPBLOCKS, and absorbed writes into a log with room; the code also lets an operation exceed its allowance as long as the log has room, which the reservation is there to prevent.
- Malloc: takes requests of at most 0x7FFFFFE0 bytes; what goes wrong above that is stated by ObtainedExactly.
- Morecore: the same bound, in units.
- Get: takes a lookup that finds a buffer; bget() panics when every buffer is in use.
- Start: virtio_disk_rw() sleeps while descriptors are missing; here that is the guard of the submission step.
- End: virtio_disk_rw() sleeps until its request is done; here that is the guard of the finishing step.
- WriteSome: the user copy succeeds; a copy that fails is the early Leave step of the machine.
- ReadSome: the same.
- Readi: reads to kernel addresses; a copy to a user address that fails is not modelled.
- Writei: writes from kernel addresses; a copy from a user address that fails half way is not modelled.
- SysSbrk: the process has memory enough; the form on frames, Memory.Uvmalloc, says what happens otherwise.
- Growproc: the same.
- Process.Vmfault: the process has memory enough; the form on frames, Memory.Vmfault, says what happens otherwise.
- Uvmcopy: page-table pages added before a failure stay allocated, as in the code; which frames those are is not stated.
- Uvmalloc: the same.
- Directories and path names (dirlookup, dirlink, namex), exec, traps, system-call argument fetching, the console, the UART and the scheduler's choice of process.
- The write-back of shared mappings and the pages of VMAs in mmap, munmap and exit; Files has their references only.
- Weak memory: spinlocks and the device's memory barriers are taken to order what they should; a step is atomic under its lock.
- The physical layout of kernel page tables (kvmmake, proc_mapstacks), and copyinstr.
- The choice of the first free descriptor or file entry in Files: any free one may be taken.
- Liveness: that a waiting process is eventually scheduled.
