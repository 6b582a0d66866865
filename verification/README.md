# A verified model of xv6

A Dafny model of the parts of xv6 (the RISC-V teaching kernel and its user programs) that have the most state and the
most interleaving, with proofs of what each of them is for. The statements are about all inputs, and where there are
runs or interleavings about all of these; what their preconditions exclude is said under "Left out". Nothing was
executed.

`dafny verify dfyconfig.toml` checks the whole project.

| module | what it models |
|---|---|
| `RedoLog` | the log on disk: the block writes of commit and of recovery, crashes between any two of them |
| `BufferCache` | the LRU buffer cache: a doubly linked list, reference counts, pins |
| `Log`, `Boot`, `Pins` | transactions over the cache: log_write, commit, mounting, and what a pin is worth |
| `LogProtocol` | begin_op, log_write, end_op and commit by any number of processes |
| `Layout`, `Files` | the bitmap, inodes and indirect blocks on disk; balloc, bmap, itrunc, readi, writei, filewrite |
| `Durability` | filewrite's transactions through a crash, recovery and a restart |
| `PageTable`, `Vm` | kalloc, three-level page tables, walk, mappages, uvmunmap, uvmalloc, uvmcopy, freewalk |
| `ProcMemory`, `Processes` | the pages of a process in allocproc, fork, freeproc and growproc; all of memory over whole runs |
| `UserMemory` | what user programs see of memory, which is what `Processes` is proved against |
| `UserCopy` | copyin, copyout, copyinstr |
| `SleepWakeup`, `ExitWait`, `Waiting` | sleep and wakeup; fork, exit, reparent and wait; when wait gives up |
| `Pipe` | the pipe ring with wrapping counters, its readers and writers |
| `Virtio` | the disk driver's descriptors and rings, with the device as a second party |
| `Shell`, `Umalloc`, `Grep` | the shell's parser, malloc and free, grep's matcher |

`Basics`, `Bytes` and `Growproc` hold what the others share.

Code that changes state step by step is a class or a method with loops, proved against functions on values; protocols
are state machines whose steps are what a lock makes atomic.

## Model

| member | source | states |
|---|---|---|
| `RedoLog.HeadRoundTrip` | kernel/log.c:86-113 | read_head gives back exactly the block list that write_head stored, whatever was in the header block |
| `RedoLog.CommitEffect` | kernel/log.c:193-202 | an uninterrupted commit leaves every home block as the transaction wants it, the others as they were, and the log empty |
| `RedoLog.RecoverRunsInstall` | kernel/log.c:116-122 | recovery cut short after any number of writes and restarted, any number of times, installs exactly the log it started from |
| `RedoLog.CrashAtomicity` | kernel/log.c:193-202 | commit cut after any number of its block writes, then recovery cut any number of times: all home blocks are old or all are new, and new exactly when the first header write was among the writes |
| `RedoLog.RunAtomicity` | kernel/log.c:146-202 | a run of many commits cut anywhere: recovery yields the state after a prefix of the transactions, which are exactly those whose header was written |
| `RedoLog.RunLength` | kernel/log.c:193-202 | a commit writes each listed block twice and the header twice, and one that lists nothing writes nothing |
| `BufferCache.Cache.Binit` | kernel/bio.c:37-53 | the list links all buffers, each unused, unlocked and of block 0 of device 0 |
| `BufferCache.Cache.Search` | kernel/bio.c:66-73 | following next from the head finds the first buffer of the block in order of use, and none when there is none |
| `BufferCache.Cache.LeastRecentlyUnused` | kernel/bio.c:77-88 | following prev from the head finds the least recently used buffer with count 0, and none when there is none |
| `BufferCache.Cache.Lookup` | kernel/bio.c:59-89 | bget takes the block's own buffer, else recycles that victim, else panics; no block ever has two buffers |
| `BufferCache.Cache.Bread` | kernel/bio.c:93-103 | the buffer is locked, valid, and holds the disk's block unless it was valid before; every other buffer is untouched |
| `BufferCache.Cache.Bwrite` | kernel/bio.c:107-112 | exactly the buffer's block changes on disk, to the buffer's data |
| `BufferCache.UnlinkKeeps` | kernel/bio.c:128-129 | the two link assignments take the buffer out of the ring and leave a ring in both directions |
| `BufferCache.PushKeeps` | kernel/bio.c:130-133 | the four link assignments put the buffer first and leave a ring in both directions |
| `BufferCache.Cache.MoveToFront` | kernel/bio.c:126-133 | together they move the buffer to the front of the order of use and change nothing else about it |
| `BufferCache.Cache.Brelse` | kernel/bio.c:117-137 | the lock and one reference go; a buffer left without references becomes the most recently used |
| `BufferCache.Cache.Bpin` | kernel/bio.c:140-144 | the 32-bit count goes up by one and stays the sum of holders, waiters and pins modulo 2^32 |
| `BufferCache.Cache.Bunpin` | kernel/bio.c:147-151 | the 32-bit count goes down by one, past 0 to 2^32 - 1 when there was none |
| `BufferCache.Cache.ReadOnce` | kernel/bio.c:93-137 | bread and brelse show the block's data and leave the cache as one step of the LRU order |
| `BufferCache.ReleasedByTime` | kernel/bio.c:117-137 | the list stays in the order in which buffers were given up by their last users, the latest first |
| `BufferCache.PickLeastRecent` | kernel/bio.c:59-89 | a cached block gets its own buffer; any other gets, of the unused buffers, the one given up first |
| `Log.TxLog.WriteLog` | kernel/log.c:178-190 | the pending content of each listed block, taken from the cache, goes to its place in the log, in order |
| `Log.TxLog.WriteHead` | kernel/log.c:102-113 | one write puts the in-memory header in the header block |
| `Log.TxLog.InstallTrans` | kernel/log.c:69-82 | every logged block goes home, in order; after a commit each loses its pin, at boot each loses a pin it never had |
| `Log.TxLog.ReadHead` | kernel/log.c:86-96 | the in-memory header becomes what the header block says |
| `Log.TxLog.Recover` | kernel/log.c:116-122 | the disk has every logged block at home, the log is empty, the writes are exactly recovery's, and the recovered blocks are left one reference short |
| `Log.TxLog.Commit` | kernel/log.c:193-202 | the disk changes to the view readers had, the log is empty again, and its block writes are exactly the list that crash atomicity speaks of |
| `Log.TxLog.LogWrite` | kernel/log.c:214-234 | it succeeds exactly when neither panic test holds; the block is listed once, and pinned exactly when it was not listed |
| `Log.TxLog.Position` | kernel/log.c:224-227 | the scan stops at the block's entry, or at the end when it has none |
| `Log.TxLog.ReadBlock` | kernel/bio.c:93-137 | a reader sees the committed disk overlaid with the pending writes, blocks that recovery left short included |
| `Log.TxLog.UpdateBlock` | kernel/log.c:204-234 | bread, a change, log_write, brelse: succeeds exactly when there is a buffer and no panic; the block is listed, becomes pending, and the log stays in order unless recovery left the block short |
| `Log.TxLog.BeginOp` | kernel/log.c:126-141 | it goes ahead exactly when no commit runs and the reservations of all operations fit the log |
| `Log.TxLog.EndOp` | kernel/log.c:146-174 | the last operation out commits everything pending, with commit's writes; any other changes nothing on disk |
| `Log.Mount` | kernel/log.c:55-65 | from any disk with a well-formed log: recovered contents, an empty log, and the set of blocks recovery left short is exactly the header's |
| `Log.CountLaw` | kernel/bio.c:138-151 | between system calls a buffer's count is the number of its holders and pins exactly when recovery did not unpin its block |
| `Pins.Evicted` | kernel/bio.c:75-88 | from a buffer nobody references there is a run of reads of other blocks after which its block is read from disk again |
| `Pins.UpdateSurvives` | kernel/log.c:69-82 | a logged change is what every later read shows, whatever is read in between, exactly when recovery did not install its block at boot or the change is none |
| `Boot.BootUpdate` | kernel/log.c:116-141 | the same from power-on, in terms of the disk alone: the change survives until commit exactly when the header on disk did not list the block |
| `Boot.Transact` | kernel/log.c:126-202 | begin_op, any changes within the reservation, end_op: the disk ends with all of them, by exactly commit's writes |
| `LogProtocol.NextKeeps` | kernel/log.c:126-234 | every step of every process keeps the reservations: what is logged and what running operations may still log fit |
| `LogProtocol.ReservationHolds` | kernel/log.c:126-174 | in every interleaving the log stays within its peak, no commit runs beside an operation, and an idle log is empty |
| `LogProtocol.SleeperHasWaker` | kernel/log.c:126-174 | whoever sleeps in begin_op has an operation or a commit left to wake it |
| `LogProtocol.SleeperMustWait` | kernel/log.c:126-174 | in every interleaving a process is asleep in begin_op only while a commit runs or its reservation does not fit the log |
| `LogProtocol.PanicReachable` | kernel/log.c:218-219 | when the peak reaches the log's capacity there is an interleaving of operations within budget that panics |
| `LogProtocol.GuardNeverPanics` | kernel/log.c:214-234 | operations within a budget of distinct blocks never make log_write panic, in any interleaving, if and only if the peak is below the capacity |
| `SleepWakeup.NextKeeps` | kernel/proc.c:555-600 | every step keeps: a sleeper's condition is false, or a scan that holds the lock has yet to reach it |
| `SleepWakeup.NoLostWakeup` | kernel/proc.c:555-600 | no reachable state has a process asleep on a true condition unless such a scan is still to reach it |
| `SleepWakeup.FreeLockNoStrandedSleeper` | kernel/proc.c:555-600 | while a condition's lock is free nobody sleeps on it with the condition true |
| `SleepWakeup.LockedIsInSleep` | kernel/proc.c:555-584 | a process lock is held by its own process, which can always go on: a scan is never blocked for good |
| `SleepWakeup.WokenByOwn` | kernel/proc.c:589-600 | a sleeper is made runnable only by kill or by a wakeup on its own channel |
| `ExitWait.ParentIsLive` | kernel/proc.c:306-327 | in every interleaving every process but init has a parent that is neither free nor a zombie |
| `ExitWait.NoMissedExit` | kernel/proc.c:333-447 | no parent but init ever sleeps in wait, or is about to, over a zombie child |
| `ExitWait.ReapedOnce` | kernel/proc.c:398-447 | a child is reaped at most once, with the status it passed to exit, by its forker or by init, and its pid is gone afterwards |
| `ExitWait.InitMissesExit` | kernel/proc.c:306-393 | a reachable state, for every table of four or more slots, in which init sleeps over a zombie child |
| `ExitWait.MissedIffInit` | kernel/proc.c:306-447 | a process can miss an exit, in some interleaving, if and only if it is init |
| `Waiting.WaitFailsIff` | kernel/proc.c:398-447 | in every interleaving wait gives up after a scan if and only if the process was killed or has no child, init included, which may be given children behind its scan |
| `Waiting.SleeperHasChild` | kernel/proc.c:398-447 | nobody sleeps in wait without a child |
| `Waiting.KilledIsAwake` | kernel/proc.c:618-636 | nobody who has been killed sleeps in wait |
| `Layout.MarkAt` | kernel/fs.c:74-76 | setting a block's bit changes that block's mark and no other's |
| `Layout.UnmarkAt` | kernel/fs.c:95-100 | clearing a block's bit changes that block's mark and no other's |
| `Layout.DecodeEncode` | kernel/fs.c:222-237 | the sixteen words of an on-disk inode give the inode back |
| `Layout.StoreInodeAt` | kernel/fs.c:222-313 | ilock reads back the inode that iupdate wrote, and every other inode, of the same block too, as before |
| `Layout.DiskInodeIs` | kernel/fs.h:32-45 | the words in which an inode has its type, device numbers, link count, size and addresses |
| `Layout.UsedIs` | mkfs/mkfs.c:246-259 | the bit of the bitmap that marks a block |
| `Bytes.LittleEndian` | mkfs/mkfs.c:55-65 | a word has its digits to the base 256 as its four bytes, the lowest first |
| `Files.Fs.Balloc` | kernel/fs.c:65-86 | the first free block, marked and zeroed; the panic comes exactly with a full bitmap and changes nothing |
| `Files.Fs.Bfree` | kernel/fs.c:90-103 | the block's mark goes; it fails exactly for a block that is free already |
| `Files.TakeDirectKeeps` | kernel/fs.c:384-386 | a block taken for a direct address keeps every block reached once and the bitmap exact |
| `Files.TakeIndirectKeeps` | kernel/fs.c:391-401 | so does one taken for an entry of the indirect block |
| `Files.Fs.Bmap` | kernel/fs.c:378-405 | the block that addrs[n] names, or from the thirteenth on entry n - 12 of the block that addrs[12] names, allocated if need be, with nothing else changed in any file; it fails only past the largest file or on a full disk |
| `Files.ContentAt` | kernel/fs.c:378-476 | byte x of a file is byte x % 1024 of the block that addrs[x / 1024], or the indirect block, names |
| `Files.AllocEffect` | kernel/fs.c:51-86 | an allocated block is zero and marked; no other mark and no other block but its bitmap block changes |
| `Files.Fs.Iupdate` | kernel/fs.c:222-237 | the disk holds the in-core inode and all else stays |
| `Files.Fs.Writei` | kernel/fs.c:483-514 | file i is its old bytes with the new ones spliced in, grown as far as counted; every other file is what it was; the file system stays consistent; -1 exactly for a bad range; at most three blocks' worth of data log at most six blocks beside the bitmap |
| `Files.Fs.Readi` | kernel/fs.c:456-476 | the bytes delivered are exactly the file's at that range, cut at its end and at the destination's; nothing changes |
| `Files.ReadBack` | kernel/fs.c:456-514 | after a write the file holds, at its offset, exactly what was written |
| `Files.CountedMost` | kernel/fs.c:456-514 | a transfer that falls short counts up to the last block boundary that it reached |
| `Files.Fs.Itrunc` | kernel/fs.c:410-437 | the file is empty, exactly its blocks are free again, no other file changes, bfree never panics, and only bitmap blocks and the inode's block are logged |
| `Files.Fs.WriteOp` | kernel/file.c:162-167 | one transaction of filewrite changes only blocks that it logs, all of them inode, bitmap or data blocks, within the budget |
| `Files.Fs.Filewrite` | kernel/file.c:135-181 | the file is spliced with the accepted part of the buffer, the return value and the new offset say how much, and after every transaction on the way it is spliced with exactly the chunks so far |
| `Files.AcceptedMost` | kernel/file.c:135-181 | all of the buffer when it fits, else as many whole chunks as fit below the largest file, and nothing at a bad offset |
| `Files.WriteBudget` | kernel/file.c:149-155 | a write of at most three blocks logs at most the bitmap and six more blocks |
| `Files.WritesFitLog` | kernel/file.c:149-155 | concurrent operations with the budget of such a write never make log_write panic if and only if the bitmap has at most three blocks, so writes do not then |
| `Durability.Remount` | kernel/fs.c:289-313 | a disk that agrees on inode, bitmap and data blocks is, read from nothing else, a consistent file system with the same files |
| `Durability.CrashedRun` | kernel/log.c:116-202 | any run of file transactions cut after any disk write and recovered, with recovery cut any number of times: a restart finds exactly the files after a prefix of the transactions, which are those whose header was written |
| `Durability.CrashedFilewrite` | kernel/file.c:135-181 | a crash anywhere in filewrite leaves, after recovery, the old file with the chunks whose header was written in it, whole, and every other file untouched |
| `PageTable.AddTableKeeps` | kernel/vm.c:82-85 | linking a zeroed page as a table keeps the tree in order: every page in one role |
| `PageTable.AddTableLookup` | kernel/vm.c:82-85 | and changes the translation of no address |
| `PageTable.SetLookup` | kernel/vm.c:161 | storing a leaf changes the translation of exactly its page |
| `PageTable.DropTableKeeps` | kernel/vm.c:280-284 | unlinking an empty table keeps the tree in order |
| `PageTable.DropLookup` | kernel/vm.c:280-284 | and changes the translation of no address |
| `Vm.Kernel.Kinit` | kernel/kalloc.c:27-40 | every page from the end of the kernel to the end of memory is free, and no other |
| `Vm.Kernel.Kalloc` | kernel/kalloc.c:69-82 | a page off the free list, or none exactly when the list is empty |
| `Vm.Kernel.Kfree` | kernel/kalloc.c:47-63 | the page goes on the list; it fails exactly for a page that kalloc does not manage |
| `Vm.Kernel.Walk` | kernel/vm.c:72-89 | the table that holds the page's entry, making missing ones on request; no translation changes; it fails without alloc exactly when the table is missing, with alloc only when memory is gone |
| `Vm.MmuLookup` | kernel/vm.c:72-89 | the hardware, which follows three nine-bit indices from the root page, finds exactly the translations that the model speaks of |
| `Vm.Kernel.MapMemory` | kernel/vm.c:149-168 | exactly one translation is added, the page passes to the space; a mapped page is never remapped; failure leaves all translations |
| `Vm.Kernel.MapPages` | kernel/vm.c:149-168 | a range of virtual pages maps consecutive pages and no other translation changes; on failure the part done is that range's beginning |
| `Vm.Kernel.Uvmunmap` | kernel/vm.c:174-195 | succeeds exactly when the whole range is mapped; exactly it is unmapped, and its pages are free again when asked |
| `Vm.Kernel.Uvmcreate` | kernel/vm.c:200-208 | an empty space of one page off the free list, or none exactly when the list is empty |
| `Vm.Kernel.Uvmalloc` | kernel/vm.c:229-252 | zeroed pages at exactly the new addresses and no other change; on failure no translation has changed, and fewer than three pages for each new one were free |
| `Vm.Kernel.Uvmdealloc` | kernel/vm.c:259-270 | exactly the pages above the new size go back to the free list |
| `Vm.Kernel.Freewalk` | kernel/vm.c:275-290 | without leaves it never panics, and every table of the subtree is free again |
| `Vm.Kernel.Uvmfree` | kernel/vm.c:295-300 | all pages of the space are free again and no other page moves |
| `Vm.Kernel.Uvmcopy` | kernel/vm.c:309-336 | the child's pages are copies of the parent's with the same permissions, in pages of its own; the parent is untouched; on failure the child's translations are what they were, and fewer than three pages for each page copied were free |
| `ProcMemory.ProcPagetable` | kernel/proc.c:158-186 | trampoline and trapframe are mapped and nothing else; on every failure path all pages are back |
| `ProcMemory.ProcFreepagetable` | kernel/proc.c:191-196 | every page of the space is free; trampoline and trapframe pages stay |
| `ProcMemory.AllocMemory` | kernel/proc.c:93-131 | a trapframe and such a table, or the free pages there were, which were fewer than six |
| `ProcMemory.FreeMemory` | kernel/proc.c:137-153 | the free pages gain exactly the process's pages |
| `ProcMemory.ForkMemory` | kernel/proc.c:259-301 | the child has a copy of the parent's memory in its own pages; when memory runs out anywhere the free pages are exactly those there were, fewer than six and three for each page of the parent; the parent is untouched |
| `Processes.TradeKeeps` | kernel/proc.c:93-153 | a trade of pages between one process and the free list keeps the partition of memory among all |
| `Processes.Machine.Fork` | kernel/proc.c:259-301 | fork is a step: every page stays free or exactly one process's, the child sees what the parent sees and the others what they saw, and it fails only for want of pages |
| `Processes.Machine.Exit` | kernel/proc.c:137-153 | freeproc is a step that never fails, and all the pages of the process become free |
| `Processes.Machine.ForkExit` | kernel/proc.c:137-301 | fork and the child's freeproc leave exactly the free pages there were, and every process sees what it saw |
| `Processes.Machine.Sbrk` | kernel/proc.c:239-254 | growproc is a step: the memory becomes the size of the 32-bit sum, with zeroes above what there was or the first pages of it, or nothing changes and pages were wanting |
| `Processes.Machine.Store` | kernel/vm.c:355-374 | copyout is a step: the bytes up to the first that the user may not touch are stored in that process and nothing else changes anywhere |
| `Processes.TradeImages` | kernel/vm.c:174-336 | a trade of pages with the free list changes what one process sees and no other |
| `Processes.Run` | kernel/proc.c:93-301 | any run of operations from boot goes through states in each of which every page above the kernel is free or exactly one process's; the processes see the outcome of the operations that succeeded; one that applied failed only with fewer free pages than it needs |
| `Processes.HistoryOutcome` | kernel/proc.c:93-301 | at every moment of such a run pages are accounted for, and what every process sees is what user memory without any kernel would hold |
| `Processes.RunIsolated` | kernel/vm.c:229-374 | while no operation is about a process, whatever the others do, it sees every byte as before |
| `UserMemory.Isolated` | kernel/vm.c:229-374 | the same for user memory as the programs see it |
| `UserMemory.SbrkBytes` | kernel/proc.c:239-254 | bytes that stay after sbrk are what they were and new ones are zero |
| `UserMemory.StoreBytes` | kernel/vm.c:355-374 | a store changes the bytes of its range up to the first that the user may not touch, and no other |
| `Growproc.NewSize` | kernel/proc.c:239-254 | the sum of size and argument whenever it fits 32 bits; else never on the wrong side of the old size |
| `UserCopy.WalkAddr` | kernel/vm.c:95-112 | the physical page exactly when the address is mapped for the user |
| `UserCopy.UserByte` | kernel/vm.c:95-112 | a byte of user memory is the byte of the physical page to which the hardware translates its address |
| `UserCopy.Copyin` | kernel/vm.c:380-399 | succeeds exactly when every byte is accessible; what is copied is user memory up to the first that is not |
| `UserCopy.Copyout` | kernel/vm.c:355-374 | succeeds exactly when every byte is accessible; exactly the bytes up to the first that is not are stored, and no other byte of the space changes, accessible or not |
| `UserCopy.Copyinstr` | kernel/vm.c:406-442 | succeeds exactly when a NUL comes within max bytes and before the first inaccessible address; the result is the string before it |
| `Pipe.CounterTests` | kernel/pipe.c:85-118 | the comparisons of the wrapped 32-bit counters say exactly whether the ring is empty and whether it is full |
| `Pipe.Ring.WriteTurn` | kernel/pipe.c:77-100 | a turn under the lock appends as many bytes as there is room for and can be read, and ends as `Pipe.WholeCalls` needs it |
| `Pipe.Ring.ReadTurn` | kernel/pipe.c:103-127 | a turn under the lock takes from the front as many bytes as there are and as can be stored, and ends or sleeps accordingly |
| `Pipe.WholeCalls` | kernel/pipe.c:77-100 | over any run, whatever turns of others come between the turns of one pipewrite: the bytes it puts are a beginning of its source, each once and in order; a return value r >= 0 is their number, and it stops short only at a byte it cannot read |
| `Pipe.ReadResult` | kernel/pipe.c:103-127 | piperead returns the number of bytes delivered, 0 only for an empty request, a first byte that cannot be stored or the end of the data; it sleeps exactly before an empty ring with a writer left |
| `Pipe.KilledReturns` | kernel/pipe.c:77-127 | a turn of a killed process never ends asleep |
| `Pipe.MovedMost` | kernel/pipe.c:84-96 | no more and no fewer: it stops only for want of room, at the end, or at an unreadable byte |
| `Pipe.PulledMost` | kernel/pipe.c:117-123 | piperead loses a byte exactly when copyout fails, and then exactly one |
| `Pipe.Fifo` | kernel/pipe.c:77-127 | over runs of any length with any readers and writers, what is taken is a beginning of what was put, at most 512 bytes behind |
| `Pipe.NothingLost` | kernel/pipe.c:103-127 | as long as copyout succeeds readers together see exactly what was put, from its first byte |
| `Pipe.StepJustified` | kernel/pipe.c:77-127 | a step keeps every sleeping reader before an empty ring and every sleeping writer before a full one if and only if it is not a turn that fills an empty ring before a sleeping reader, has more to write, and finds itself killed or the read end closed |
| `Pipe.SleepersJustified` | kernel/pipe.c:77-127 | over a whole run no sleeper is stranded if and only if there is no such turn |
| `Pipe.KilledWriterStrands` | kernel/pipe.c:85-89 | a run of two turns that leaves a reader asleep before a full ring |
| `Virtio.Queue.AllocDesc` | kernel/virtio_disk.c:117-126 | the first free descriptor, or none exactly when none is free |
| `Virtio.Queue.FreeDesc` | kernel/virtio_disk.c:130-139 | the descriptor is free and cleared; it fails exactly out of range or when free already |
| `Virtio.Queue.FreeChain` | kernel/virtio_disk.c:143-152 | exactly the three descriptors of a chain are freed, without a panic |
| `Virtio.Queue.Alloc3Desc` | kernel/virtio_disk.c:155-166 | three different free descriptors, or none taken, and then fewer than three are free |
| `Virtio.Queue.Submit` | kernel/virtio_disk.c:169-238 | the request is in the next slot of the available ring with the buffer, direction and sector asked for, or the caller sleeps and nothing is taken |
| `Virtio.Queue.Fetch` | kernel/virtio_disk.c:188-236 | the device reads, in order of submission, exactly the request that was asked for, may fill the buffer exactly when it is a read, and answers in the status byte of that request; it finds one exactly when one is waiting |
| `Virtio.Queue.Complete` | kernel/virtio_disk.c:256-257 | the device may finish the requests it holds in any order, and all of the queue stays in order |
| `Virtio.Queue.Interrupt` | kernel/virtio_disk.c:252-270 | each completion is seen once, in order, and clears the flag of the buffer it belongs to and of no other |
| `Virtio.Queue.Finish` | kernel/virtio_disk.c:240-249 | the caller goes on exactly when its own request is over, and its descriptors are free again |
| `Virtio.IndexTest` | kernel/virtio_disk.c:256 | comparing a 16-bit counter modulo 8 with one kept modulo 8 says exactly whether a completion is unseen |
| `Virtio.DeviceTest` | kernel/virtio_disk.c:230-236 | so does the device's comparison for unread requests |
| `Virtio.AtMostTwo` | kernel/virtio_disk.c:155-186 | of eight descriptors in chains of three, at most two requests are ever live |
| `Virtio.RingsShort` | kernel/virtio_disk.c:155-186 | so neither ring ever holds more than two entries that are not consumed |
| `Virtio.Partitioned` | kernel/virtio_disk.c:117-166 | a descriptor is free exactly when no request's chain has it, and no two chains share one |
| `Virtio.WaitsForTwo` | kernel/virtio_disk.c:179-186 | a request waits for descriptors only while two others are live |
| `Virtio.StepKeeps` | kernel/virtio_disk.c:169-270 | every act of a driver, the interrupt handler or the device keeps all of this |
| `Virtio.ClearedByOwn` | kernel/virtio_disk.c:252-270 | a buffer's flag is cleared only by the interrupt for the request on that very buffer |
| `Virtio.HandlesAll` | kernel/virtio_disk.c:256 | the handler has something to do exactly when a completion is unseen |
| `Virtio.EveryInterleaving` | kernel/virtio_disk.c:169-270 | all of it in every state of every interleaving |
| `Shell.Parser.Peek` | user/sh.c:311-320 | past the blanks, whether one of the given characters comes next |
| `Shell.Parser.Gettoken` | user/sh.c:266-308 | the next token as the grammar reads it, and the position after it and its blanks |
| `Shell.Parser.Parseredirs` | user/sh.c:375-397 | the redirections that follow, in order; on an error no reading of the line from there exists |
| `Shell.Parser.Parseexec` | user/sh.c:416-446 | the one reading of a simple command or block at this place, or an error exactly when there is none; `Shell.CommandPlaced` says how it is built |
| `Shell.Parser.Parseblock` | user/sh.c:400-413 | the same for a parenthesized line with redirections |
| `Shell.Parser.Parsepipe` | user/sh.c:362-372 | the same for a pipeline |
| `Shell.Parser.Parseline` | user/sh.c:345-359 | the same for a list with background marks |
| `Shell.CommandCovers` | user/sh.c:266-446 | the tokens of a reading lie apart and in order, and cover every word character of the line |
| `Shell.CommandPlaced` | user/sh.c:345-446 | the words of a command are in the order of the line and follow no redirection symbol; each redirection has the mode and descriptor of its symbol and is around those before it; what a symbol joins stands on its two sides |
| `Shell.Nulterminate` | user/sh.c:450-493 | the buffer has a NUL at the end of every token and is otherwise unchanged |
| `Shell.TokensTerminated` | user/sh.c:450-493 | no such NUL falls inside another token: each token is the C string of its own characters |
| `Shell.Parsecmd` | user/sh.c:328-342 | a command exactly when the line reads as one, and then its only reading, in the order of the line, with every token a C string in place; on a panic the buffer is as it was |
| `Umalloc.Allocator.SearchCut` | user/umalloc.c:30-32 | the loop finds the free block after which the freed one belongs, from wherever freep points |
| `Umalloc.FreedKeeps` | user/umalloc.c:25-44 | free keeps the list sorted, coalesced, and together with the allocated blocks a tiling of memory |
| `Umalloc.FreedHeap` | user/umalloc.c:33-43 | the link and size words that free writes are those of that list |
| `Umalloc.TakenHeap` | user/umalloc.c:74-84 | the same for taking units off the end of a block, or all of it |
| `Umalloc.Allocator.Free` | user/umalloc.c:25-44 | exactly the given block passes from the allocated to the free ones |
| `Umalloc.Allocator.Morecore` | user/umalloc.c:47-61 | the new memory joins the list at its end, merged with a neighbour it touches; failure changes nothing |
| `Umalloc.Allocator.Malloc` | user/umalloc.c:64-90 | next fit after freep, which is left before the block taken, growing once if nothing fits; the block has room for the bytes asked for after its header and would not with one unit less; failure means that no free block is large enough and sbrk refused |
| `Umalloc.MallocEffect` | user/umalloc.c:64-90 | the n units handed out were free and overlap no other block; the others stay; it fails exactly when nothing fits and sbrk refuses |
| `Umalloc.ListDetermined` | user/umalloc.c:25-44 | the free list is determined by what is allocated and what sbrk gave, whatever calls led there |
| `Umalloc.FreeUndoesMalloc` | user/umalloc.c:25-90 | free of what malloc gave restores the list, block for block |
| `Umalloc.SbrkGives` | kernel/proc.c:239-254 | sbrk adds the units asked for if and only if they are fewer than 2^27 |
| `Umalloc.FirstTooBig` | user/umalloc.c:47-61 | the first request for which it does not is 2^31 - 31 bytes, and then it adds nothing and reports success |
| `Umalloc.LargerRequests` | kernel/proc.c:239-254 | a request of 2^32 - 32 bytes takes 16 bytes from a process of 64K, and one of 2^32 - 1 bytes adds 16 |
| `Umalloc.MoreTiles` | user/umalloc.c:47-61 | after morecore the blocks tile the memory there is, which may have shrunk, if and only if it asked for fewer than 2^27 units |
| `Grep.Matchhere` | user/grep.c:83-94 | true exactly when the text starts with a string of the pattern's language (all of it, for a last $) |
| `Grep.Matchstar` | user/grep.c:97-104 | true exactly when some run of the starred character is followed by such a string |
| `Grep.Match` | user/grep.c:71-80 | true exactly when some stretch of the text is in the pattern's language, with ^ and $ for the ends |

## Findings

Properties the code does not have, each with the exact condition under which it has them.

- The panic of log_write (kernel/log.c:218-219). The guard is tested before absorption, so a full log refuses even a
  block it already lists. Operations that log at most B distinct blocks never panic if and only if 10 + 2B is below
  the capacity of the log (`LogProtocol.GuardNeverPanics`, `LogProtocol.PanicReachable`); with B = 10, as param.h
  has it, some interleaving does. A write as filewrite cuts it logs at most the bitmap and six more blocks, and
  operations of that budget are safe if and only if the bitmap has at most three blocks (`Files.WritesFitLog`); mkfs
  makes one.
- Init can miss an exit (kernel/proc.c:306-327). A child handed over by reparent may already be a zombie, and exit wakes
  init before it hands over its children, not after: `ExitWait.InitMissesExit` gives the run, and
  `ExitWait.MissedIffInit` says that it happens to init and to nobody else.
- A pipe reader can be left asleep before a full ring (kernel/pipe.c:85-89): a killed writer returns without waking
  it. `Pipe.KilledWriterStrands` gives the run; `Pipe.StepJustified` and `Pipe.SleepersJustified` are the exact
  condition. piperead also loses one byte when copyout fails (`Pipe.PulledMost`).
- Recovery unpins what was never pinned (kernel/log.c:78). Counts are right exactly for the other blocks
  (`Log.CountLaw`), and a logged change to a block that the header listed at boot can be lost before commit
  (`Pins.UpdateSurvives`, `Boot.BootUpdate`).
- The argument of sbrk is an int (user/umalloc.c:54, kernel/proc.c:239). At a request of 2^31 - 31 bytes sbrk succeeds
  and adds nothing (`Umalloc.FirstTooBig`); larger ones can even shrink the process (`Umalloc.LargerRequests`). From
  there on, and only there, malloc's list holds memory that is not there (`Umalloc.MoreTiles`).

The comment at kernel/param.h:9 calls MAXOPBLOCKS the most blocks an operation writes, and the one at
kernel/file.c:149-155 counts what a write needs; the model follows the code, which writes one block per bitmap block
touched, and `Files.WritesFitLog` says when that is enough.

## Left out

- Files.Fs.Filewrite: the user's buffer is readable throughout; a copy that falls short is in `Files.Fs.Writei` only.
- Files.Fs.Writei: when the copy falls short, the bytes of the chunk that failed count as content, as a reader of the
  buffer sees them; the source has not logged or pinned that buffer, so they vanish when it is recycled.
- Log.TxLog.Commit: the blocks in the header and the blocks that recovery left short are together fewer than NBUF,
  because LOGSIZE is NBUF and each keeps a buffer; commit is one call, with no other process between its writes.
- Log.Mount: the header on disk lists fewer than NBUF blocks, for the same reason; a log made by mkfs has 29.
- BufferCache.Cache.Bread: stated for a buffer whose lock is free; waiting for it is `BufferCache.Cache.Lookup` with a
  later `BufferCache.Cache.LockBuf`.
- BufferCache.Cache.ReadOnce: the same.
- Log.TxLog.WriteLog: no other process holds a buffer, so nobody waits for one.
- Log.TxLog.InstallTrans: the same.
- Log.TxLog.EndOp: the same, and what Commit needs.
- Boot.Transact: changes to blocks that recovery left short are excluded; `Boot.BootUpdate` is what happens to these.
- Files.WritesFitLog: that operations of a larger budget panic is shown for operations in general, not for two writes.
- Umalloc.Allocator.Morecore: requests of 2^27 units or more are bounded out when sbrk succeeds.
- Umalloc.Allocator.Malloc: requests of 2^31 - 31 bytes or more are bounded out when sbrk succeeds; `Umalloc.MoreTiles`
  is why.
- Processes.Run: the bound on free pages under which an operation does not fail is enough and not the least one; user
  programs' own loads and stores, exec and its guard page are not operations.
- Pipe.Ring.Close: only the two flags; the wakeup is a step of the runs that `Pipe.SleepersJustified` is about, and the
  kfree of a pipe with both ends closed is not modelled.
- Vm.Kernel.Uvmalloc: on failure tables made on the way stay linked, as in the source; they are free again only with
  the whole space.
- Vm.Kernel.Walk: an address beyond MAXVA, for which the source panics, is excluded by its precondition; addresses that
  users pass go through `UserCopy.WalkAddr`, which refuses them.
- Vm.Kernel.Uvmunmap: unaligned ranges, for which the source panics, are excluded.
- Page-table entries are records; packing them into 64-bit words is not modelled. Addresses of pages are page numbers,
  and a page is what was last stored in it: free, a table, or bytes.
- uvmunmap tells a leaf by PTE_FLAGS and freewalk by R, W or X; the model maps only with one of these set, where the two
  agree.
- Shell.Parser.Parseblock: its own test for the opening parenthesis is parseexec's. The line is what precedes the first
  NUL.
- Virtio.Queue.Finish: the status byte is always good; a bad one is the source's panic. Acts are whole turns under
  vdisk_lock or whole device steps, and the sector is not wrapped to 32 bits.
- Grep: reading lines into the buffer.
- The inode table, directories and path names, file descriptors, exec, the console, traps, the scheduler's choice,
  spinlocks and sleep locks as such, the system calls' argument handling, and the other user programs are not modelled.
