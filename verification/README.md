# Fiwix kernel: a model of its state-keeping cores

Fiwix is a small UNIX kernel for the i386. This project models the parts of it that keep intricate
state, and proves what their users rely on: memory after a fork, file blocks, cached blocks, cached
pages, memory blocks, memory regions, timers, sleeping processes and locks, and the byte queues.

Most modules end in a method `Run` (for the scheduler, `Round`). It takes any sequence of operations,
performs it on the model of the kernel's own data structures, and ensures that what is seen is what a
much simpler machine would show: a machine that copies every page at a fork, a disk without a cache, a
plain sequence of bytes, a timetable, a double-ended queue. Where the code does less than its callers
might expect, a lemma gives the exact condition under which it does what they expect.

| module | models | main result |
|---|---|---|
| `CopyOnWrite` | fork, page faults, page counters | no process can tell copy-on-write from eager copying |
| `Bitmaps`, `BlockTree` | ext2 block bitmaps and block trees, minix truncate | `bmap` is an injective map update, `truncate` a cut; no block is shared or leaked |
| `BufferCache` | the buffer cache | the cache is transparent in every run if and only if no two blocks in use overlap; the first clean free buffer is reused; `sync_buffers` ends and cleans exactly one device |
| `FileIo` | ext2 writes, reads through the page cache | a file is a sequence of bytes, whatever is cached or evicted, as long as no write that fails leaves anything behind |
| `Buddy` | the allocator of small blocks, `kmalloc`, `kfree` | blocks never overlap; a request fails exactly when there is no place for its block; a page is returned exactly with its last block |
| `Vma` | `mmap` and `munmap` on the region list | regions stay sorted and apart, and are the page map the calls describe; a mapping goes to the lowest place that fits; its pages keep their places in the file exactly when it is neither joined to another nor cut in two |
| `Sleep` | run list, sleep buckets, resource locks | one holder at a time and no lost wakeup, under every schedule |
| `Sched` | `do_sched` and the quantum | every process runs its priority in ticks, in one burst, per round, by falling priority |
| `Callout` | the delta list of timers | a timer fires exactly at the tick it was set for, once, in the order they were set |
| `Pipe`, `Charq` | the pipe's ring, the terminals' queues | what each call shows is what a plain queue shows; it waits or refuses exactly when the offsets or the blocks say so |
| `Links`, `Lists`, `Wrappers` | linked lists, lists, options | the link surgery does what the list operations say, on several lists through the same links |

Conventions. Processes, pages, buffers, blocks and slots are numbers. Integers are unbounded; where a
width matters it is written out. A section of the kernel that runs with interrupts off, or between two
sleeps, is one step. A call that would sleep returns instead and says so. Ghost parameters such as
`plain` name the simple machine's state that a call is proved against.

## Model

| member | source | states |
|---|---|---|
| CopyOnWrite.Run | mm/memory.c:139-202 | over every sequence of forks, exits, maps, unmaps of any mapped range, loads and stores, what processes observe equals what eager copying shows, until an access needs a frame and none is free: to a page that may be touched and has not been, or a store to a shared frame; every frame's count equals the entries naming it |
| CopyOnWrite.ReadShows | mm/fault.c:87-165 | what a load shows by the history alone: the byte that the process, or before the fork the one it comes from, last stored there since the page was mapped, or zero; a fault if the page is not mapped or may not be read |
| CopyOnWrite.Perform | mm/fault.c:34-165 | one operation gives the eager machine's answer and keeps the two machines in agreement; it is refused for lack of memory if and only if it needs a frame and none is free, and then changes nothing |
| CopyOnWrite.Memory.Fork | mm/memory.c:139-202 | the child sees the parent's pages, nobody else's view changes, no frame is used |
| CopyOnWrite.Memory.CloneRegion | mm/memory.c:159-198 | up to the end of the region the child has exactly the parent's entries and sees its pages, and nobody else's view changes |
| CopyOnWrite.Memory.PageProtectionViolation | mm/fault.c:34-85 | the fault is refused exactly when the region is not writable; otherwise the process owns a writable frame holding what it saw, and no view changes |
| CopyOnWrite.Memory.PageNotPresent | mm/fault.c:87-165 | refused exactly outside an accessible region; otherwise the page becomes present and no view changes |
| CopyOnWrite.Memory.StoreByte | mm/fault.c:34-165 | a store changes one byte of one process's view and nothing else |
| CopyOnWrite.Memory.Load | mm/fault.c:87-165 | a load gives the byte the process sees and changes no view |
| CopyOnWrite.Memory.UnmapRange | mm/mmap.c:264-318 | the pages of the range read as zeros, all other views stay, what is left of the region stays in one or two parts, every frame given up is counted down |
| CopyOnWrite.Memory.Munmap | mm/mmap.c:524-552 | region by region, exactly the range is gone from the page map and reads as zeros, and no other view changes |
| CopyOnWrite.Memory.Exit | mm/mmap.c:320-334 | all that the process had is gone and nobody else's view changes; its number can be used again |
| CopyOnWrite.MapFreshCounts | mm/page.c:157-209 | taking the head of the free ring for one more entry keeps every frame's count the number of entries that name it |
| CopyOnWrite.UnmapPageCounts | mm/page.c:233-273 | giving up an entry keeps every count exact, and puts the frame on the free ring exactly when it was the last |
| CopyOnWrite.LastOutFirstIn | mm/page.c:157-273 | the frame given up last is the first to be given again |
| CopyOnWrite.CutProt | mm/mmap.c:190-222 | taking a range out of a region takes exactly its pages out of the page map |
| CopyOnWrite.FitsIff | mm/mmap.c:87-136 | a region finds a place in the sorted list if and only if none of its pages is in another |
| CopyOnWrite.Memory.FindVmaRegion | mm/mmap.c:336-354 | the loop finds the protection of the region that holds the page |
| CopyOnWrite.StoreIsPrivate | mm/fault.c:34-85 | a store through a writable entry reaches one process only, because a writable entry is its frame's only one |
| CopyOnWrite.ClonePageKeeps | mm/memory.c:175-196 | sharing one more page keeps counts, free list and entries right, shows it to the child and changes no other view |
| CopyOnWrite.CopySharedKeeps | mm/fault.c:51-68 | the copy made on a write fault keeps counts right and every view |
| CopyOnWrite.ReclaimKeeps | mm/fault.c:69-81 | the last owner's write fault makes the entry writable again and changes no view |
| CopyOnWrite.UnmapPageKeeps | mm/memory.c:260-288 | dropping an entry keeps counts and free list right and clears one view |
| Bitmaps.Superblock.FindFirstZero | fs/ext2/bitmaps.c:20-39 | the lowest clear bit, bytes in order and in a byte the lowest first; none exactly when all are set |
| Bitmaps.MaskFinds | fs/ext2/bitmaps.c:33-49 | bit i of a byte, as a number divided by 2 to the i, is what the mask shifted by i finds: the bits of a byte are numbered from the lowest |
| Bitmaps.Superblock.FindFree | fs/ext2/bitmaps.c:229-254 | the first group with a clear bit; none only when every block is in use |
| Bitmaps.Superblock.Balloc | fs/ext2/bitmaps.c:215-277 | the lowest block not in use, now in use; fails exactly when every block is; counters stay exact |
| Bitmaps.Superblock.Bfree | fs/ext2/bitmaps.c:279-320 | a block in use is no longer, and nothing else changes; numbers out of range are ignored, but for one that the range check lets through |
| Bitmaps.FreeKeepsIff | fs/ext2/bitmaps.c:279-320 | freeing keeps counters and padding right if and only if the block was in use |
| Bitmaps.Encoding | fs/ext2/bitmaps.c:256-269 | a group and a bit are recovered from the block number made of them |
| Bitmaps.TakenKeeps | fs/ext2/bitmaps.c:256-272 | setting a clear bit and counting down keeps group and superblock counters exact |
| Bitmaps.GivenKeeps | fs/ext2/bitmaps.c:294-315 | clearing a set bit and counting up keeps them exact |
| BlockTree.Run | fs/ext2/inode.c:227-524 | over every run of bmap and truncate on any files, the trees are after every call what the map from file blocks to disk blocks says: a block once mapped is found until it is cut, nothing else changes, a new block is one of the volume that was not in use and is in no tree; bmap runs out of space only when every block of the volume was in use or is in a tree; i_blocks, bitmaps and trees agree at the end |
| BlockTree.NeverShared | fs/ext2/inode.c:227-524 | after every such run no block serves two file blocks, of one file or of two |
| BlockTree.FileSystem.Bmap | fs/ext2/inode.c:227-421 | the block of a file block through up to three levels; when writing, new blocks come from the free ones only, every place in every tree keeps its block but empty ones on the way to that file block, i_blocks stays exact, and every block in use is in one tree place or reserved |
| BlockTree.BmapIsUpdate | fs/ext2/inode.c:227-421 | as a map from file blocks to disk blocks only the one asked for changes, to the block returned |
| BlockTree.NoSharing | fs/ext2/inode.c:227-421 | no disk block serves two file blocks, of one file or of two |
| BlockTree.StartOfLeaf | fs/ext2/inode.c:236-254 | the levels and indices computed for a file block lead to that file block and no other |
| BlockTree.OffsetsFit | fs/ext2/inode.c:235-236 | every 32-bit offset lies inside the tree |
| BlockTree.FileSystem.Truncate | fs/ext2/inode.c:423-524 | every place from the cut on is empty, every place before it stays, and exactly the blocks beyond the cut are freed, each once |
| BlockTree.TruncateIsCut | fs/ext2/inode.c:423-524 | as a map, file blocks from the cut made on are gone and all others, of all files, stay |
| BlockTree.CutExactlyWhen | fs/ext2/inode.c:494-495 | the cut made is never before the cut asked for, and equals it if and only if that is less than n blocks into the triple zone or past the tree |
| BlockTree.TruncateFreesAllIff | fs/ext2/inode.c:494-495 | all blocks from the cut asked for are gone if and only if the file had none between the two cuts |
| BlockTree.TruncateMisses | fs/ext2/inode.c:494-495 | a block that is n blocks into the triple zone is still there after a truncate to just there, which should have cut it |
| BlockTree.CutAllFrees | fs/ext2/inode.c:423-524 | a truncate to nothing frees all blocks of the file, indirect ones included, and no others |
| BlockTree.FileSystem.V1Truncate | fs/minix/v1_inode.c:380-440 | the same walk in a minix version 1 inode: everything from the cut on is gone, everything before it stays, and exactly the blocks beyond it are freed |
| BlockTree.V1CutIsExact | fs/minix/v1_inode.c:380-440 | in version 1 the cut is exact for every length |
| BlockTree.FileSystem.FreeDblock | fs/ext2/inode.c:31-51 | the entries from the offset on are freed and cleared, the others stay |
| BlockTree.FileSystem.FreeIndblock | fs/ext2/inode.c:53-81 | the same two levels deep: everything under the block from the offset on, nothing before it |
| BufferCache.Run | fs/buffer.c:456-790 | over every sequence of reads, writes, releases, syncs and reclaims: a read has to wait only for a block that is held, or with no page left and every buffer of its size held; it takes its block's buffer, a new one, or the first of the free list that it stops at, those before it going to the end; a release puts at the end; pages become buffers and buffers pages only as a read or a reclaim says; and if no two blocks in use overlap, a block read is what the last writer left there, or what the device held, and after a sync with nothing held it is on the device |
| BufferCache.Overlapping | fs/buffer.c:438-454 | for any two blocks that overlap, reading and writing one and reading the other brings the cache into a state in which the first is dirty with the new bytes and the second shows the device's old ones: what was read is not what the last writer left, so the condition is needed |
| BufferCache.ReusesFirstClean | fs/buffer.c:456-498 | with no page left, a block that is not cached gets the first clean buffer of the free list; the dirty ones in front of it are written and go to the end in their order; the first of all is taken if all were dirty |
| BufferCache.ReclaimGetsSomewhere | fs/buffer.c:730-766 | in every run, after as many turns of reclaiming in a row as there are free buffers of the size, a page has come back, or every page with a free buffer of that size also has one in use |
| BufferCache.PageFilled | fs/buffer.c:299-337 | the buffers made of a page fill it |
| BufferCache.Buffers.Getblk | fs/buffer.c:456-498 | ends, with the one buffer that stands for the block locked for the caller, every other held buffer untouched and all buffers, lists and chains exactly as that many turns past dirty buffers leave them; it waits only while that buffer is held, or while no buffer of the size is free and no page is left |
| BufferCache.Buffers.Bread | fs/buffer.c:541-562 | if no two blocks in use overlap, the data of the buffer is what the disk would hold without the cache; a block that is not cached is read from the device; nothing changes but what getblk changes and that buffer |
| BufferCache.Buffers.Bwrite | fs/buffer.c:564-587 | the disk the cache stands for has the new data in that block, and the buffer is released to the end of the free list, and to the end of the dirty list if it is not on it |
| BufferCache.Buffers.Brelse | fs/buffer.c:570-587 | the buffer is released, to the end of the free list if it holds its block and else to its head; it is on the dirty list if dirty, at the end if it was not; the disk the cache stands for is the same |
| BufferCache.Buffers.Search | fs/buffer.c:438-454 | the walk along the chain's links finds the hashed buffer of a block if and only if there is one |
| BufferCache.Buffers.GetFreeBuffer | fs/buffer.c:339-384 | a buffer of the size, locked: a page is used up if and only if growing is allowed, there is a page, and the list is empty or its first buffer has a block; else it is the first of the free list, the one longest unused; none only when the list is empty |
| BufferCache.Buffers.CreateBuffers | fs/buffer.c:299-337 | one page becomes as many unused buffers as it holds; all but the last of them are on the free list, in front of what was there, the newest first; no other buffer, list or chain changes |
| BufferCache.Buffers.SyncSize | fs/buffer.c:597-622 | the walk around one dirty list ends; the device's buffers on it are clean, the others keep their order, the first of them now last |
| BufferCache.Buffers.SyncBuffers | fs/buffer.c:589-628 | all buffers of the device are clean and its blocks on the device agree with the cache; every other dirty buffer is still dirty and listed |
| BufferCache.Buffers.DropAll | fs/buffer.c:652-711 | the siblings are written and gone from every list, all other buffers are unchanged |
| BufferCache.Buffers.Reclaim | fs/buffer.c:730-766 | one page's buffers are all gone, written if dirty, the page is free and all lists are as before without them; otherwise no buffer is gone and either there was none free, or one of the first one's page was held and that first one, written, is now last |
| BufferCache.Buffers.TakeBuf | fs/buffer.c:253-280 | the links of the free lists show the list without the buffer |
| BufferCache.Buffers.RekeyBuf | fs/buffer.c:489-495 | the links of the hash chains show it out of its old chain, if it was in it, and at the head of the new one |
| BufferCache.RekeyKeeps | fs/buffer.c:489-495 | giving a clean buffer a new block keeps it the only one for that block, in the right chain |
| BufferCache.FlushKeeps | fs/buffer.c:416-436 | writing a buffer keeps every list and chain consistent |
| BufferCache.ReleaseKeeps | fs/buffer.c:570-587 | a released buffer is on its free list once, and on its dirty list once if dirty |
| BufferCache.DiscardKeeps | fs/buffer.c:703-708 | dropping a buffer keeps every list and chain consistent |
| BufferCache.ReleaseCounted | fs/buffer.c:146-171 | the two dirty counters stay the number and the KB of the listed buffers |
| BufferCache.FlushCounted | fs/buffer.c:173-203 | the same when one leaves its list |
| BufferCache.FlushStands | fs/buffer.c:416-436 | writing the bytes of a block back does not change the disk the cache stands for, in any block that does not overlap it |
| BufferCache.FillStands | fs/buffer.c:541-562 | neither does reading in |
| BufferCache.StoreStands | fs/buffer.c:564-568 | bwrite changes it in one block |
| BufferCache.NextList | fs/buffer.c:598-622 | one step around the dirty list, as a list |
| Links.Insert | fs/buffer.c:205-251 | the links at the head or the tail, with the head's back link to the tail, make the list with the buffer at that end, and leave every other list through the same links |
| Links.InsertOnce | fs/buffer.c:146-171 | a buffer with links is on the list already and stays; any other goes to the end |
| Links.Remove | fs/buffer.c:253-280 | unlinking anywhere in the list leaves the list without that member, its links null, and every other list |
| Links.Push | fs/buffer.c:102-119 | the chain with the buffer at its head, the other chains untouched |
| Links.Unhash | fs/buffer.c:121-144 | the search along the chain finds the buffer if it is on it, and leaves the chain without it and the other chains untouched |
| FileIo.Run | fs/ext2/file.c:79-203 | over every sequence of writes, reads and evictions, whether or not blocks run out, each call shows what it shows of a file without pages and blocks: bytes, a size, the blocks it has and those left to take |
| FileIo.FileIsPlain | fs/ext2/file.c:79-203 | in a run in which no failing write leaves anything behind, the file is at every moment the plain sequence of bytes that the successful writes make, gaps as zeros |
| FileIo.MapsIff | fs/ext2/file.c:112-140 | a write finds its blocks if and only if those it is missing are no more than are left; it then takes just those, else all |
| FileIo.Inode.Write | fs/ext2/file.c:79-203 | the bytes are put at the offset and nothing else changes; it fails exactly when the blocks it is missing exceed those left, a large write then having changed no byte, a small one having put its first chunk exactly when that block was there or could be taken |
| FileIo.Inode.MapAll | fs/ext2/file.c:112-140 | all blocks of a large write are mapped in order before a byte is written, until none is left; no byte of the file changes |
| FileIo.Inode.PutAll | fs/ext2/file.c:144-165 | the second loop puts exactly the bytes given |
| FileIo.Inode.PutSmall | fs/ext2/file.c:166-185 | the same block by block, with exactly what is left behind when a block cannot be had |
| FileIo.Inode.PutChunk | mm/page.c:295-314 | a chunk inside a block lies inside a page, and block and cached page change together |
| FileIo.Inode.BreadPage | mm/page.c:336-422 | the page read in equals its blocks, holes as zeros |
| FileIo.Inode.Read | mm/page.c:424-475 | the bytes from the offset on, as many as asked for up to the end of the file, through whatever is cached |
| FileIo.FailedKeepsIff | fs/ext2/file.c:166-201 | a write that fails leaves the file the same sequence of bytes, zeros past its end, if and only if its first chunk was not put or is what was there |
| FileIo.FailedExample | fs/ext2/file.c:166-201 | a run of two writes and a read, the second write failing, in which the read shows a byte of it |
| FileIo.WriteIsPlain | fs/ext2/file.c:79-203 | a write that finds its blocks is the write to a plain sequence |
| Buddy.Run | mm/alloc.c:20-61 | over every sequence of kmalloc and kfree a request gets a block of its size's level at an aligned place with nothing in the way, and fails exactly when it is for more than a page or there is no such place; a page is free exactly when nothing given out lies in it |
| Buddy.NeverShared | mm/alloc.c:20-61 | after every such run no two blocks given out overlap, and each lies in a page of the allocator |
| Buddy.BlockHolds | mm/alloc.c:20-46 | a block holds the size asked for behind its header, and no smaller one does |
| Buddy.Allocator.Kmalloc | mm/alloc.c:20-46 | a block of its own, where nothing else is, cut from the smallest free one that holds it, or from a page only when none does; nothing only for more than a page, or when something is in the way wherever such a block could be |
| Buddy.Allocator.Kfree | mm/alloc.c:48-61 | exactly that block is given up, by the kind its page flag says |
| Buddy.Allocator.Allocate | mm/buddy_low.c:92-143 | a block of the smallest level that fits, cut from the first of the lowest free list that has one large enough, or from a new page only when none has; fails only when no free block is large enough and no page is left |
| Buddy.InTheWay | mm/buddy_low.c:92-143 | when no free list has a block that large and no page is left, every place of that level has something live in it |
| Buddy.Allocator.Deallocate | mm/buddy_low.c:28-90 | the block is merged as far as its buddies are free, up to the page, which goes back |
| Buddy.FlipIsTwin | mm/buddy_low.c:20-26 | the address that exclusive or computes is the other half's, and the lower of the two is the whole's |
| Buddy.XorTurns | mm/buddy_low.c:24-25 | exclusive or with a power of two turns over that bit |
| Buddy.Disjoint | mm/buddy_low.c:28-143 | two blocks with a byte in common are one |
| Buddy.Covered | mm/buddy_low.c:28-143 | every byte of a page in use lies in a block |
| Buddy.PagesExact | mm/buddy_low.c:68-75 | a page belongs to the allocator if and only if it holds a live block |
| Buddy.MergeKeeps | mm/buddy_low.c:46-66 | merging two free halves keeps the partition, and no two halves both free |
| Buddy.HalveKeeps | mm/buddy_low.c:128-139 | so does splitting |
| Vma.Run | mm/mmap.c:426-552 | after every call of every run the regions are sorted and apart; each mmap gets the lowest place where its pages fit and fails exactly when there is none, and its region, with the file offset asked for, is put in between the others or joined; each munmap takes exactly its pages out of the regions; a run ends early only at a munmap with an unmapped page in its range |
| Vma.ExplainedShows | mm/mmap.c:426-552 | in such a run each page is mapped as the last call that covers it says |
| Vma.ExplainedFiles | mm/mmap.c:426-552 | in a run in which no mapping of a file is taken into another and none is cut in two, each page is at the place in its file that the last call covering it says |
| Vma.MapAsAskedIff | mm/mmap.c:173-188 | the pages of a new mapping are at the places in the file that were asked for, as a fault finds them (mm/fault.c:112-114), if and only if it has no file or no region takes it in, which one does that ends there with the same attributes and the same offset; no other page's place changes |
| Vma.MapExample | mm/mmap.c:225-236 | one page of a file mapped, and mapped again right above: the second mapping is joined to the first and shows the next page of the file |
| Vma.UnmapKeepsFilesIff | mm/mmap.c:190-222 | an unmap leaves every other page at its place in its file if and only if the range does not end inside a region of a file |
| Vma.UnmapExample | mm/mmap.c:199-208 | the first of two pages of a mapping unmapped: the second then shows the first page of the file |
| Vma.Space.Mmap | mm/mmap.c:426-522 | exactly the new pages become mapped, at the lowest place where they fit below some region; the new region, with the offset asked for, is the one change of the list; nothing exactly when they fit nowhere |
| Vma.Space.GetUnmapped | mm/mmap.c:400-424 | the lowest place from MMAP_START on with enough free pages below some mapped one, none exactly when there is no such place |
| Vma.Space.InsertRegion | mm/mmap.c:87-136 | the region goes to its place in the order, joined to the one before it exactly when they fit, and the page map changes by that region exactly |
| Vma.Space.MergeAt | mm/mmap.c:225-236 | merging neighbours changes no page's attributes |
| Vma.Space.FreeRegion | mm/mmap.c:190-222 | exactly the range is unmapped: every region is what is left of it, what is left behind the range being a region of its own with the old offset |
| Vma.Space.Munmap | mm/mmap.c:524-552 | ends if and only if the range is fully mapped, and then every region is what is left of it outside the range |
| Vma.Space.Find | mm/mmap.c:336-354 | finds the region of a page if and only if it is mapped |
| Sleep.Run | kernel/sleep.c:63-218 | under every schedule of locking, unlocking, sleeping, waking, signals, stops and exits, the run list, the sleep buckets and the locks with their flags leave every process in the state, and every resource with the holder, that the steps say |
| Sleep.Exclusive | kernel/sleep.c:189-218 | in every run, between two takings of a resource the first taker has released it |
| Sleep.NoneStranded | kernel/sleep.c:189-218 | in every run, whoever sleeps on a resource cannot be interrupted and the resource is held: no wakeup is lost |
| Sleep.SleepsUntil | kernel/sleep.c:115-187 | a sleeper sleeps until its address is woken, what it waits for is released by its holder, or a signal comes that may interrupt it |
| Sleep.RunsUntil | kernel/sleep.c:63-102 | who runs stops running only by what it does itself: it waits for what is held, goes to sleep, stops or ends |
| Sleep.StoppedUntil | kernel/sleep.c:148-187 | who has stopped goes on exactly at a signal, and who has ended never |
| Sleep.Processes.TryLock | kernel/sleep.c:189-205 | the resource is taken exactly when nobody holds it; otherwise the process sleeps on it, wanted and not to be interrupted |
| Sleep.Processes.Unlock | kernel/sleep.c:207-218 | the resource is free and all who waited for it, and nobody else, are awake |
| Sleep.Processes.Wakeup | kernel/sleep.c:115-146 | all sleepers on the address and nobody else become runnable, the cursor notwithstanding, each put at the head of the run list in the order of the bucket; lists and buckets stay right |
| Sleep.Processes.WakeupProc | kernel/sleep.c:148-187 | one process, unless it runs already or sleeps uninterruptibly |
| Sleep.Processes.GoToSleep | kernel/sleep.c:63-102 | off the run list and to the head of its bucket, unless a signal is pending |
| Sleep.Processes.Runnable | kernel/sleep.c:25-42 | to the head of the run list, unless it is on it |
| Sleep.Processes.NotRunnable | kernel/sleep.c:44-61 | off the run list, wherever it is on it |
| Sleep.Processes.Leave | kernel/sleep.c:44-61 | off the run list, stopped or ended |
| Links.CursorAt | kernel/sleep.c:124-143 | the cursor, which stands on a link, shows what is left of the bucket, also after an unlink |
| Sleep.LockFreed | kernel/sleep.c:211-216 | nobody sleeps on a resource that is not wanted |
| Sched.Round | kernel/sched.c:47-82 | between two recharges every process runs once, without a break, for exactly its priority in ticks, by falling priority and, with the same priority, in the order of the run list |
| Sched.Scheduler.DoSched | kernel/sched.c:47-82 | a process with ticks left goes on, else the one with most ticks, first on the run list among equals, is chosen, after a recharge when all are used up; it fails to end if and only if no process has or gets any |
| Sched.Scheduler.Select | kernel/sched.c:59-68 | the pass over the run list finds the first process with most ticks |
| Sched.OneBurst | kernel/timer.c:332-335 | a chosen process is let go on at every tick until its ticks are used up |
| Callout.Run | kernel/timer.c:82-176 | with delays of a tick or more, each tick fires exactly what a timetable of absolute deadlines fires, in its order |
| Callout.FiresIff | kernel/timer.c:123-176 | in every run a callout fires at a tick if and only if it was set as many ticks before, there was a slot, and it was neither set again nor deleted since |
| Callout.FiresInOrder | kernel/timer.c:143-157 | of what fires at one tick, what was set first fires first, so nothing fires twice |
| Callout.OnTime | kernel/timer.c:338-359 | in every run nothing is overdue or set twice, and all is in the order of its ticks |
| Callout.TickKeepsIff | kernel/timer.c:319-330 | a tick moves no deadline if and only if the head was not due before it |
| Callout.Timer.AddCallout | kernel/timer.c:123-159 | due in so many ticks, behind all due no later, in place of an earlier request for the same; no other deadline moves; refused exactly without a slot |
| Callout.Timer.DelCallout | kernel/timer.c:161-176 | that callout is gone and no other deadline moves |
| Callout.Timer.DoDel | kernel/timer.c:101-121 | the successor inherits the ticks, the slot goes back to the pool |
| Callout.Timer.Tick | kernel/timer.c:319-330 | the head counts down, and the bottom half is wanted exactly when it is due |
| Callout.Timer.FireDue | kernel/timer.c:338-359 | all that is due fires, in order, and its slots go back |
| Pipe.Run | fs/pipefs/pipe.c:50-170 | over every sequence of reads and writes, each call shows what it shows of the bytes in order and the two offsets |
| Pipe.Fifo | fs/pipefs/pipe.c:50-170 | in every run what has been read followed by what is in the pipe is what has been written, and it never holds more than fits |
| Pipe.ReadKeeps | fs/pipefs/pipe.c:50-107 | a read waits exactly when it wants something, there are writers, and the pipe is empty or the reader stands at the end of the ring; else it takes from the front all that is wanted of the bytes in a row from where it stands, or from the beginning if that is at the end, and moves by as many |
| Pipe.WriteKeeps | fs/pipefs/pipe.c:109-170 | a write waits exactly when it has something, there are readers, and the ring is full or the writer stands at its end; without readers it is broken; else it appends all that fits before the reader or before the end, and moves by as many |
| Pipe.Ring.Read | fs/pipefs/pipe.c:50-107 | the ring gives the first bytes buffered, up to its end, and waits exactly when the pipe is empty or the reader stands at the end, with writers there |
| Pipe.Ring.Write | fs/pipefs/pipe.c:109-170 | the ring takes what fits behind the bytes buffered; none exactly when it is full or the writer stands at its end |
| Pipe.ReaderWaitsIff | fs/pipefs/pipe.c:59-70 | a reader finds nothing to take if and only if the pipe is empty or it stands at the end |
| Pipe.NoDeadlock | fs/pipefs/pipe.c:60-139 | reader and writer never have to wait for each other at once |
| Pipe.WriteStep | fs/pipefs/pipe.c:124-155 | a write keeps the offsets an unambiguous encoding and appends to the contents |
| Pipe.ReadStep | fs/pipefs/pipe.c:60-82 | a read keeps it and takes from the front |
| Charq.Run | drivers/char/charq.c:149-243 | over every sequence of operations on all queues, each shows what it shows of a double-ended queue of bytes that knows only how far its first block has been read and how many blocks are to spare; when all are empty every block is in the pool once |
| Charq.Fifo | drivers/char/charq.c:149-230 | in every run that takes nothing back from a queue and does not flush it, what came out followed by what is in it is what got in, whatever is done to the other queues |
| Charq.PutUnput | drivers/char/charq.c:149-205 | a byte put and taken back at once leaves the queue as it was |
| Charq.BlocksAre | drivers/char/charq.c:79-147 | a queue has as many blocks as its bytes need, and only the last has room behind its bytes |
| Charq.FitsIff | drivers/char/charq.c:149-180 | a byte gets in if and only if the last block has room behind its bytes, or one more block is allowed and there is one in the pool |
| Charq.FitsInBytes | drivers/char/charq.c:149-180 | a byte gets in if and only if the bytes, with those read from the first block, do not fill the blocks the queue may have: those allowed, and those it has and those to spare |
| Charq.Queues.Putchar | drivers/char/charq.c:149-180 | the byte goes to the back, or nothing changes; it fails exactly when the last block is full and no block may be added |
| Charq.Queues.Getchar | drivers/char/charq.c:207-230 | the front byte, 0 from an empty queue; an emptied block goes back |
| Charq.Queues.Unputchar | drivers/char/charq.c:182-205 | the same from the back |
| Charq.Queues.Flush | drivers/char/charq.c:232-243 | the queue is empty, its blocks are back, other queues are untouched |

## Left out

- Device errors: block reads and writes succeed, so that the error returns of bread, bmap and the write-back are not modelled; neither is a device that is not registered.
- Interleavings where getblk sleeps between its hash miss and its insertion: a call of getblk up to its sleep is one step.
- invalidate_buffers, kbdflushd and gbread: the first drops unsynced data by design, the others repeat the steps modelled.
- reclaim_buffers: the walk over the sizes and the marks that end it are not modelled, one turn of it is.
- BufferCache: the pool's own list and the sibling links; a sync that would have to wait for a dirty buffer that is held does nothing. The condition that blocks in use do not overlap holds when a device is used in one block size; ext2 reads its superblock as a 1 KB block whatever its block size (fs/ext2/super.c:98, 159, 190), which overlaps none of its other blocks unless block 0 is read in a larger size.
- Lists: those of Vma, Buddy, Callout and Charq, and the free ring of CopyOnWrite, are sequences; their links are not modelled.
- Minix: bmap and version 2, which walk the same trees with other constants.
- BlockTree.FileSystem.V1Truncate: the inode and the bitmaps it frees through are those of ext2, not minix's own.
- Bitmaps.Superblock.Bfree: what becomes of the block numbered s_blocks_count when it lies in no group; the code then uses a descriptor past the table.
- Bitmaps.FreeKeepsIff: the same number, which the lemma does not speak of when it lies in no group.
- ext2 inode allocation, directories and the on-disk inode.
- BlockTree: a truncate is stated in blocks; bytes of a block cut in the middle are not.
- FileIo.Inode.Write: the indirect blocks that it may need do not count against the blocks left, which decide when it fails.
- FileIo: truncate, shared mappings and running out of memory in the page cache.
- Buddy: the statistics, which are updated before it is known whether an allocation succeeds.
- Vma: MAP_FIXED, mprotect, the heap, the argument checks of do_mmap, and the use counts of inodes.
- Vma.Space.InsertRegion: a region over pages that are mapped, which only MAP_FIXED asks for (mm/mmap.c:238-261).
- CopyOnWrite: file-backed and shared regions, page-table pages and the resident set counter.
- CopyOnWrite.Memory.PageNotPresent: the growth of the stack region on a fault below it (mm/fault.c:92-104).
- Sleep: lock_area, and what a process does with a signal; Sched: processes that start or stop in the middle of a round.
- Callout: a callout's function that itself sets or deletes callouts while it runs, and the area lock around it.
- Pipe: select, and the sleeping and retrying around one pass of the loop.
- Charq: charq_room, which is only an upper bound.
- Hardware, drivers, the terminal line discipline, system call plumbing, the ELF loader and procfs.
