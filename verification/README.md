# ficus: a verified model of the kernel's cores

ficus is a small x86-64 kernel for one processor. This project models four of
its cores in Dafny and proves what they keep over every run: the kernel heap,
the skip list map with the region map of an address space on top of it, the
frame allocator with the page tables on top of it, and the scheduler with its
mutexes, condition variables, intrusive lists and reference counts.

`dafny verify dfyconfig.toml` checks all of it.

## How the model is laid out

| files | what they hold |
|---|---|
| `HeapLayout`, `HeapMemory`, `HeapSteps`, `KernHeap`, `HeapRuns` | the heap as tiling and free list; the same as bytes and pointers, where a store destroys whatever it overlaps; the allocator's pointer code, proved to compute the former on the latter; whole runs |
| `SkipListShape`, `SkipList` | the pointer structure for arbitrary heights; the operations, against sorted sequences and finite maps |
| `RegionMap`, `Vma` | partitions of an address range; `get_entry`, `mmap_mem` and `munmap` over the skip list |
| `Frames`, `PageTables`, `Paging`, `KernelHalf`, `Hhdm` | the frame bitmap; four-level tables in physical memory as in section 4.5 (4-level paging) of the Intel 64 and IA-32 Architectures Software Developer's Manual, Volume 3A; address spaces; the tables they share with the kernel; the boot-time window |
| `Wrappers` | the option type |
| `IntrusiveList` | the queue with owning-list fields and stale next pointers |
| `SharedPointer` | the compare-and-swap loops of one control block, step by step, for any number of threads |
| `Sched` | the scheduler as a transition system |
| `SchedInv`, `SchedMoves`, `SchedLocal`, `SchedNodes`, `SchedLives`, `SchedSwitch`, `SchedGroups`, `SchedRun` | its invariant and the proof that every step keeps it |
| `SchedFrame`, `SchedEffects`, `SchedFacts` | what every step does beside what it is for |
| `SchedTheorems`, `SchedWaits`, `SchedSleep`, `SchedCalls`, `SchedKin`, `SchedGraves`, `SchedIdle` | what follows for whole runs: queues, condition variables, sleeping, mutexes and new tasks, waitpid and exit, dead tasks, and that some task is always left to run |

Conventions:

- A halt (a failed `assert` or `assert2`, or a page fault on a null pointer) is
  a `None` result, a false `ok`, a true `halted`, or the outcome `Fail`.
  Contracts say exactly when an operation halts.
- Heap and sizes use 64-bit wrap-around where the code can reach it
  (`KernHeap.PagesWrap`, `KernHeap.BlocksBounded`). The frames left are a
  parameter of the allocating calls, at most the 32 GiB the bitmap can hold.
- Page tables are addressed by page and frame number, so the alignment
  assertions hold by construction.
- Heights in the skip list are any number up to `maxL`; the code draws fewer.
- In the scheduler, code between `save_irqdisable` and `irqrestore` is one
  step; a tick or a device interrupt may come between any two. What a task has
  yet to do in the kernel is a list of instructions; loads and stores of shared
  fields outside protected sections are instructions of their own. How `lock`
  goes on after a failed `try_lock` (spin or block) is an arbitrary choice.
  A tick is 1000 microseconds, as the timer's constants work out. Task 0 is
  the freer, task 1 the waker; mutexes 0 to 2 and condition variables 0 and 1
  are the scheduler's own, all others are free for tasks to use.
- Tasks are assumed to unlock only what they hold and not to lock twice what
  they hold, and to create tasks under new pids (`SchedRun.MayCall`). Threads
  that share a pointer use only handles that exist, drop only handles no other
  thread is using, and read a handle inside the object only while some strong
  handle is kept, or from the object's destructor (`SharedPointer.Allowed`).
- The end of an address space's regions is a ghost field: the code keeps no
  such number, and a cut of the last region moves it.

## What the proofs found

- `kfree` follows a null pointer if every free block lies in the run right
  behind the released one (`src/arch/x86/kmem.cpp:216`). The very first
  `kmalloc` and `kfree` after boot do just that: `HeapRuns.FirstReleaseHalts`.
  `HeapLayout.FreeHaltsIff` gives the exact condition.
- `kmalloc` halts on growth if the rounded length plus 64 is a multiple of the
  page size, because the new entry cannot be split: 4032 bytes as the first
  request halts with any amount of memory (`HeapRuns.SnugCallHalts`).
- The skip list's `curL` never goes down: the loop that lowers it waits for a
  null pointer that is never there (`SkipList.SkipListMap.Unlink`).
- `upper_bound` reports the end when all keys are above the argument. As a
  consequence `munmap` at the beginning of the address range joins no free
  neighbour (`Vma.VMA.Munmap`), and a hint below all regions picks the last.
- The comment on `get_entry` says it finds the region at or before the hint;
  the code takes the last region if there is none.
- A hint inside a region leaves the region's tail too long. If the region is
  the last one the regions still partition a range, with a later end; every
  task's first mapping does that (`Vma.PointerCall`). If it is not, they
  partition nothing any more; the mapping at 0x5000 does that
  (`Vma.TrampolineCall`), and a later request without a hint is then given
  memory that is mapped already (`Vma.OverlapCall`). `Vma.CarvedWhole` has both
  directions.
- `munmap` frees too much of a mapped region that begins in the range and does
  not end in it (`Vma.StickCall`), and skips too far when it begins inside a
  free region and leaves that (`Vma.SkipCall`). `Vma.VMA.Munmap` has the exact
  outcome for every range, and `Vma.OutcomeIff` when exactly it is right.
- One region of the memory map keeps the total of free memory right if and only
  if it begins below the clip and names no page that is free or in use already
  (`Frames.CountedIff`; `Frames.HighRegion` and `Frames.SharedPage` are inputs
  that break it). Over a whole map errors of the two kinds can make up for each
  other (`Frames.ErrorsCancel`); the total is right if and only if they add up
  to nothing (`Frames.CountedAllIff`), and with no region above the clip if and
  only if there are none (`Frames.CountedBelow`). A region with page 0 can be
  lost (`Frames.PageZeroLost`).
- What the kernel maps behind a top-level entry that was absent when a task's
  space was made does not show in that space, because `map_kern` copies entries
  once (`KernelHalf.OtherSpace`: only entries already shared stay shared).
- `virt2real` answers 0 for a page mapped to frame 0 as for one not mapped.
- The check of the sleepers' states in `task_waker` never turns it back:
  `SchedGroups.NoneAwake`.
- `waitpid` of a task that is not the caller's child returns with
  AllTasks_lock held (`src/arch/x86/task.cpp:150`), exactly then
  (`SchedRun.WaitCheckIff`). If the caller's next call begins with that lock
  (`waitpid`, creating a task, or exiting with a parent), the kernel halts
  (`SchedRun.StrangerHalts`). Any two tasks started at boot get there
  (`SchedTheorems.StrangerReached`).
- The assertion that a task is left to run rests on the dummy task, which only
  yields: `SchedIdle.NoAssertionFires`; `SchedEffects.RunsOutIff` says exactly
  when a switch finds nobody.

## Model

| member | source | states |
|---|---|---|
| HeapRuns.BootRuns | src/arch/x86/kmem.cpp:31-321 | after any run of kmalloc, kfree, krealloc and callers' stores that gets through, from boot: the blocks tile the heap, headers and lengths are 16-byte aligned, the free list holds exactly the free blocks, the callers' blocks are exactly the taken ones, and no two of them share a byte |
| HeapRuns.Drive | src/arch/x86/kmem.cpp:31-321 | any such run on the pointer code and the bytes: it gets through exactly when the simple account of the run does; every caller finds in its blocks what the account says; list pointers, lengths and marks represent the layout; `allocated` is the sum of all blocks and `used` the sum of the taken ones |
| HeapRuns.Perform | src/arch/x86/kmem.cpp:88-321 | one call on the pointer code agrees with the account, in whether it returns, in the blocks and in every byte held |
| HeapRuns.Outcome | src/arch/x86/kmem.cpp:88-321 | the account itself: wherever a run leads, heap and callers' record are consistent |
| HeapRuns.AfterConsistent | src/arch/x86/kmem.cpp:88-321 | one call keeps them consistent |
| HeapRuns.FirstReleaseHalts | src/arch/x86/kmem.cpp:215-217 | for every request that cuts the first page: kmalloc returns, and the release of that block halts |
| HeapRuns.SnugCallHalts | src/arch/x86/kmem.cpp:163-178 | for every request whose rounded length and two headers fill whole pages: as the first call it halts, however many frames there are |
| HeapRuns.ShortestSnug | src/arch/x86/kmem.cpp:163-178 | 4032 bytes is such a request, and none is shorter than 4017 |
| HeapRuns.ResizedConsistent | src/arch/x86/kmem.cpp:307-321 | krealloc keeps the first bytes of the block, as many as both have, and the callers' record stays exact |
| HeapLayout.AllocKeeps | src/arch/x86/kmem.cpp:88-202 | an allocation that returns keeps the layout well formed, adds exactly the granted block to the live ones, adds its rounded length to `used`, and grows the heap by no more than the frames there were |
| HeapLayout.TakenDisjoint | src/arch/x86/kmem.cpp:88-202 | two live blocks share no byte, headers included, and lie inside the heap |
| HeapLayout.TilesHeap | src/arch/x86/kmem.cpp:31-53 | payloads and headers together sum to the heap's extent |
| HeapLayout.TakeExactKeeps | src/arch/x86/kmem.cpp:116-125 | taking one free block of several, of exactly the length asked for |
| HeapLayout.TakeLastKeeps | src/arch/x86/kmem.cpp:126-133 | taking the only free block: a fresh page keeps the list non-empty |
| HeapLayout.TakeSplitKeeps | src/arch/x86/kmem.cpp:137-151 | taking the front of a longer block |
| HeapLayout.GrowArithmetic | src/arch/x86/kmem.cpp:163-174 | the pages asked for hold the payload and both headers, and leave nothing over exactly when n + 64 is a page multiple |
| HeapLayout.GrowKeeps | src/arch/x86/kmem.cpp:157-184 | growth appends the granted block and a free rest |
| HeapLayout.PushKeeps | src/arch/x86/kmem.cpp:285-298 | the released block leaves the live ones and heads the free list |
| HeapLayout.MergeStepKeeps | src/arch/x86/kmem.cpp:211-232 | one merge: one block and one free-list entry less, live blocks and extent unchanged |
| HeapLayout.CoalesceAbsorbsRun | src/arch/x86/kmem.cpp:204-233 | the merge loop absorbs the whole run of free blocks behind the released one and nothing else |
| HeapLayout.CoalesceHaltsIff | src/arch/x86/kmem.cpp:215-217 | it follows the null pointer exactly when that run holds every other free block |
| HeapLayout.CoalesceKeeps | src/arch/x86/kmem.cpp:204-233 | it terminates, keeps the layout, and nothing is left to merge |
| HeapLayout.PaddingArithmetic | src/arch/x86/kmem.cpp:246-255 | the padding makes the next header page aligned and fits into three pages |
| HeapLayout.ShrinkKeeps | src/arch/x86/kmem.cpp:235-279 | the end of the heap moves if and only if the released block is the last one and spans 0x3000 bytes or more; it then moves to the block's beginning, or, inside a page, to the first page boundary behind its header |
| HeapLayout.FreeHaltsIff | src/arch/x86/kmem.cpp:204-305 | kfree of a live block halts if and only if no free block lies outside the run behind it |
| HeapLayout.FreeKeeps | src/arch/x86/kmem.cpp:281-305 | otherwise the layout stays well formed and exactly that block leaves the live ones and `used` |
| HeapMemory.SplitRepresents | src/arch/x86/kmem.cpp:137-149 | after the pointer surgery of a split the headers spell out the new tiling and free list |
| HeapMemory.ExactRepresents | src/arch/x86/kmem.cpp:116-125 | the same for unlinking one entry |
| HeapMemory.LastRepresents | src/arch/x86/kmem.cpp:126-133 | the same for a fresh page replacing the only entry |
| HeapMemory.GrowRepresents | src/arch/x86/kmem.cpp:169-183 | the same for growth behind the last entry |
| HeapMemory.PushRepresents | src/arch/x86/kmem.cpp:295-298 | the same for the release |
| HeapMemory.MergeRepresents | src/arch/x86/kmem.cpp:215-230 | the same for one merge, in every position of the absorbed entry |
| HeapMemory.DropRepresents | src/arch/x86/kmem.cpp:260-266 | the same for the aligned shrink |
| HeapMemory.PadRepresents | src/arch/x86/kmem.cpp:247-259 | the same for the unaligned shrink |
| HeapSteps.TakeLoneSound | src/arch/x86/kmem.cpp:126-133 | bytes, headers, pointers and counters agree with the layout after taking the only entry, and no live payload changes |
| HeapSteps.TakeOneSound | src/arch/x86/kmem.cpp:116-125 | the same for one entry of several |
| HeapSteps.TakeFrontSound | src/arch/x86/kmem.cpp:137-151 | the same for a split, whose new header lies in the old payload |
| HeapSteps.GrowSound | src/arch/x86/kmem.cpp:157-184 | the same for growth |
| HeapSteps.FillSound | src/arch/x86/kmem.cpp:193-200 | filling the payload touches no header and no other payload, and makes `used` exact again |
| HeapSteps.PushSound | src/arch/x86/kmem.cpp:286-298 | the same for the release |
| HeapSteps.MergeSound | src/arch/x86/kmem.cpp:211-232 | the same for one merge |
| HeapSteps.DropSound | src/arch/x86/kmem.cpp:260-275 | the aligned shrink finds a list entry to make the head, and stays sound |
| HeapSteps.PadSound | src/arch/x86/kmem.cpp:247-275 | the unaligned shrink stays sound |
| HeapSteps.UnmapSound | src/arch/x86/kmem.cpp:266-274 | unmapping from the new end on loses nothing that is live |
| KernHeap.Heap.constructor | src/arch/x86/kmem.cpp:31-42 | the heap starts as one free page |
| KernHeap.Heap.ExtendHeap | src/arch/x86/kmem.cpp:44-53 | adds the pages, or halts exactly when frames run out |
| KernHeap.Heap.SplitEntry | src/arch/x86/kmem.cpp:56-86 | halts exactly when the entry is too short; otherwise cuts it and links the rest in behind it |
| KernHeap.Heap.FindEntry | src/arch/x86/kmem.cpp:102-155 | the loop stops at the first acceptable entry of the list, with its predecessor, or at null |
| KernHeap.Heap.TakeWhole | src/arch/x86/kmem.cpp:116-136 | unlinks the entry, replacing a lone one by a fresh page |
| KernHeap.Heap.TakeFirstPart | src/arch/x86/kmem.cpp:137-151 | splits the entry and puts the rest in its place in the list |
| KernHeap.Heap.GrowAndTake | src/arch/x86/kmem.cpp:157-184 | adds pages and takes their front; halts exactly without frames or when the pages fit too snugly |
| KernHeap.Heap.FillPayload | src/arch/x86/kmem.cpp:199 | sets every payload byte and no other |
| KernHeap.Heap.TakeBlock | src/arch/x86/kmem.cpp:99-196 | the pointer code computes exactly `Alloc` and halts exactly when `AllocHalts` says |
| KernHeap.Heap.Kmalloc | src/arch/x86/kmem.cpp:88-202 | halts if and only if `AllocHalts`; otherwise exactly one block is live that was not: at the address returned, aligned to 16 bytes, as long as asked for and less than 16 bytes longer, and filled; every live payload is unchanged and all structures agree |
| KernHeap.Heap.TryMergeFwd | src/arch/x86/kmem.cpp:204-233 | the loop computes exactly `Coalesce` and halts exactly when `CoalesceHalts` says |
| KernHeap.Heap.MergeOne | src/arch/x86/kmem.cpp:212-231 | one round of it, in all three list positions |
| KernHeap.Heap.PadTo | src/arch/x86/kmem.cpp:248-253 | the length that makes the next entry page aligned |
| KernHeap.Heap.CutAtPage | src/arch/x86/kmem.cpp:247-259 | cuts the head at a page boundary and takes the rest off the list again |
| KernHeap.Heap.UnmapFrom | src/arch/x86/kmem.cpp:266-274 | gives back every page from the new end on, one at a time |
| KernHeap.Heap.TryShrinkHeap | src/arch/x86/kmem.cpp:235-279 | computes exactly `Shrink`, and the new head it returns is never null |
| KernHeap.Heap.PushRelease | src/arch/x86/kmem.cpp:286-298 | marks the block free and makes it the list's head |
| KernHeap.Heap.Kfree | src/arch/x86/kmem.cpp:281-305 | halts if and only if the block is free already or `FreeHalts`; otherwise computes `Free`: exactly that block is live no more, and every live payload is unchanged |
| KernHeap.Heap.CopyPayload | src/arch/x86/kmem.cpp:317 | copies the bytes and changes no others |
| KernHeap.Heap.MoveBlock | src/arch/x86/kmem.cpp:312-320 | the resized block holds the first min(old length, new size) bytes, all other payloads are unchanged; halts exactly when the allocation or the release does |
| KernHeap.Heap.Krealloc | src/arch/x86/kmem.cpp:307-321 | the same for every argument: null allocates, a block not taken halts; otherwise the old block is live no more and a new one as long as asked for is, with the bytes they have room for |
| KernHeap.Heap.Write | src/arch/x86/kmem.hpp:17-23 | a caller's store to a byte of its block leaves the heap sound |
| KernHeap.PagesWrap | src/arch/x86/kmem.cpp:163-167 | 64-bit wrap-around never makes an oversized request look satisfiable |
| KernHeap.BlocksBounded | src/arch/x86/kmem.cpp:116-137 | nor does it make the first-fit loop accept a different entry |
| KernHeap.HugeHalts | src/arch/x86/kmem.cpp:91-96 | a request that wraps when rounded, or exceeds all memory, halts |
| KernHeap.NotLive | src/arch/x86/kmem.cpp:88-202 | the granted block was not live before |
| KernHeap.MovedBytes | src/arch/x86/kmem.cpp:315-318 | through allocation, copy and release the copied bytes arrive and all other payloads stay |
| SkipListShape.InsertRepresents | src/kernel/templates/SkipList.hpp:353-383 | linking a node in along the search path keeps the whole representation: keys strictly increase, level i is exactly the nodes of height i or more, `before` inverts next[0], the root leads to the end above curL |
| SkipListShape.RemoveRepresents | src/kernel/templates/SkipList.hpp:401-431 | unlinking a node along the search path keeps it |
| SkipListShape.InsertLinked | src/kernel/templates/SkipList.hpp:374-381 | the levels after the linking loop |
| SkipListShape.RemoveLinked | src/kernel/templates/SkipList.hpp:415-422 | the levels after the unlinking loop |
| SkipListShape.PathStays | src/kernel/templates/SkipList.hpp:292-310 | the path of a range removal stays right from node to node |
| SkipList.SkipListMap.constructor | src/kernel/templates/SkipList.hpp:117-125 | an empty list |
| SkipList.SkipListMap.AllocNode | src/kernel/templates/SkipList.hpp:51-94 | a node from the pool, stale pointers and all, or a new one; the list is untouched |
| SkipList.SkipListMap.PushNode | src/kernel/templates/SkipList.hpp:80-87 | a node goes to the pool or the heap; the list is untouched |
| SkipList.SkipListMap.WalkLevel | src/kernel/templates/SkipList.hpp:356-359 | on one level: the last node whose key is below the argument |
| SkipList.SkipListMap.Walk | src/kernel/templates/SkipList.hpp:354-361 | on every level: the node after which the argument belongs |
| SkipList.SkipListMap.LinkIn | src/kernel/templates/SkipList.hpp:374-381 | one pointer per level is redirected to the new node, all others stay |
| SkipList.SkipListMap.LinkOut | src/kernel/templates/SkipList.hpp:415-422 | every pointer to the node skips it, all others stay; the early break loses none |
| SkipList.SkipListMap.RaisePath | src/kernel/templates/SkipList.hpp:367-372 | levels new to the list start at the root |
| SkipList.SkipListMap.LinkNew | src/kernel/templates/SkipList.hpp:365-381 | for every height the coin gives: the entry stands at its place in the order |
| SkipList.SkipListMap.InsertNode | src/kernel/templates/SkipList.hpp:352-383 | a new key is inserted at its place; a present key leaves everything as it was |
| SkipList.SkipListMap.Emplace | src/kernel/templates/SkipList.hpp:393-399 | equals the finite map's update, keeping the old value on a duplicate key |
| SkipList.SkipListMap.Unlink | src/kernel/templates/SkipList.hpp:415-426 | exactly one entry goes; the loop that would lower curL never runs |
| SkipList.SkipListMap.EraseKey | src/kernel/templates/SkipList.hpp:401-431 | equals removing the key from the finite map; reports whether it was there; returns the next node |
| SkipList.SkipListMap.EraseIter | src/kernel/templates/SkipList.hpp:318-348 | removes exactly the entry pointed at and returns the next |
| SkipList.SkipListMap.EraseFrom | src/kernel/templates/SkipList.hpp:292-316 | the loop removes exactly the range, freeing each node one round late |
| SkipList.SkipListMap.EraseRange | src/kernel/templates/SkipList.hpp:281-316 | removes exactly the entries of the range; an empty range returns the first node, as the code does |
| SkipList.SkipListMap.LowerBound | src/kernel/templates/SkipList.hpp:445-454 | the first entry whose key is not below the argument |
| SkipList.SkipListMap.UpperBound | src/kernel/templates/SkipList.hpp:433-443 | the first entry above the argument if and only if the list is empty or some key is not above it; the end otherwise |
| SkipList.SkipListMap.Find | src/kernel/templates/SkipList.hpp:550-554 | the entry with the key, or the end, as the finite map says |
| SkipList.SkipListMap.Next | src/kernel/templates/SkipList.hpp:235-239 | operator++ moves to the next entry and stops at the end node |
| SkipList.SkipListMap.Prev | src/kernel/templates/SkipList.hpp:229-233 | operator-- moves to the previous entry and stops at the root |
| SkipList.SkipListMap.IsEnd | src/kernel/templates/SkipList.hpp:39 | true of both sentinels |
| SkipList.SkipListMap.Get | src/kernel/templates/SkipList.hpp:225-227 | the value of the entry pointed at |
| SkipList.SkipListMap.Put | src/kernel/templates/SkipList.hpp:225-227 | a store through an iterator changes that entry's value only |
| SkipList.InsertAsMap | src/kernel/templates/SkipList.hpp:353-383 | inserting at the split is the map update |
| SkipList.RemoveAsMap | src/kernel/templates/SkipList.hpp:401-431 | removing an entry takes its key out of the map |
| SkipList.AsMapInjective | src/kernel/templates/SkipList.hpp:472-479 | iteration order is fixed by the contents: equal maps mean equal sequences |
| RegionMap.CarvedPartition | src/kernel/VMA.cpp:46-57 | if the region is not cut by the hint, or is the last one, the regions partition a range again: keys equal begins, ends meet begins, total length conserved; a cut of the last region moves the end by what lies in front of the hint |
| RegionMap.CarvedShows | src/kernel/VMA.cpp:46-57 | the addresses handed out show what they were made, the addresses the end moved by are free, every other address is as it was |
| RegionMap.CutBreaks | src/kernel/VMA.cpp:49-56 | a hint that cuts any other region leaves regions that partition no range at all |
| Vma.VMA.constructor | src/kernel/VMA.cpp:15-18 | one free region over the whole range |
| Vma.VMA.AtHint | src/kernel/VMA.cpp:26-29 | the region at or before the hint, or the last one when none is |
| Vma.VMA.FirstUsable | src/kernel/VMA.cpp:35-41 | the first region that is free and has the length asked for or more; every free one before it is shorter |
| Vma.VMA.Choose | src/kernel/VMA.cpp:25-44 | the region at the hint if it is free and long enough, or else the first such one; none if and only if every free region is shorter than asked for |
| Vma.VMA.Carve | src/kernel/VMA.cpp:46-57 | the exact regions after carving, for every hint and length |
| Vma.VMA.TakeOut | src/kernel/VMA.cpp:46-47 | exactly the chosen region leaves the map |
| Vma.VMA.PutFront | src/kernel/VMA.cpp:49-54 | what lies in front of the hint goes back, exactly when the hint cuts the region |
| Vma.VMA.PutParts | src/kernel/VMA.cpp:56-57 | the rest and the part handed out go back in their places; with no length asked for, the rest itself is handed out |
| Vma.VMA.PutRest | src/kernel/VMA.cpp:56 | the rest goes back, unless a region begins where it would |
| Vma.VMA.PutNew | src/kernel/VMA.cpp:57 | a region is added inside the gap |
| Vma.CarvedWhole | src/kernel/VMA.cpp:46-57 | the regions partition a range if and only if the region was not cut or was the last |
| Vma.PointerCall | src/arch/x86/task.cpp:195-201 | the first call on every task's regions cuts the only one: the page lies at TASK_POINTER, and the regions partition a range that ends 0xF000 later |
| Vma.StackCall | src/arch/x86/task.cpp:213 | the stack then goes behind that page, and what lies in front of it stays |
| Vma.TrampolineCall | src/arch/x86/syscalls.cpp:197 | the page asked for at 0x5000 cuts the free region in front of TASK_POINTER: no partition any more |
| Vma.OverlapCall | src/kernel/VMA.cpp:50-58 | the next 0xB000 bytes asked for anywhere then cover the page at TASK_POINTER, which is mapped still |
| Vma.VMA.GetEntry | src/kernel/VMA.cpp:20-60 | fails if and only if every free region is shorter than asked for; otherwise the exact regions, for every hint and length, and whether they partition a range: if and only if no region but the last was cut |
| Vma.VMA.MmapMem | src/kernel/VMA.cpp:83-102 | the same; the range returned was free and shows anonymous memory with the flags; without a hint it begins where the lowest free region begins that is long enough; a hint inside such a region is met if there is room to spare behind it, and else leads to that region's beginning; inside any other region it counts for nothing. Where the partition stays, apart from a moved end every other address shows what it did |
| Vma.ChosenPlace | src/kernel/VMA.cpp:25-52 | where the region chosen puts the range handed out, in addresses |
| Vma.CarvedHands | src/kernel/VMA.cpp:47-58 | all of the range handed out lay in the free region chosen |
| Vma.ExactCall | src/kernel/VMA.cpp:36 | on a task's first regions a request of 0xF000 bytes gets all of the free region at 0x1000 |
| Vma.VMA.JoinRight | src/kernel/VMA.cpp:150-156 | the free regions behind the range join it, unless nothing begins before it |
| Vma.VMA.JoinLeft | src/kernel/VMA.cpp:157-165 | the free regions in front of the range join it |
| Vma.VMA.JoinBoth | src/kernel/VMA.cpp:149-165 | both, around the unmapped part |
| Vma.VMA.PutBack | src/kernel/VMA.cpp:122-132 | what the region held in front of and behind the range goes back |
| Vma.VMA.MergeFree | src/kernel/VMA.cpp:149-169 | range and free neighbours become one free region; a length too long for its gap leaves no partition |
| Vma.VMA.UnmapIn | src/kernel/VMA.cpp:113-169 | one round of the loop at any address, with where it goes on |
| Vma.VMA.Munmap | src/kernel/VMA.cpp:103-172 | for every range inside the regions, over any number of them, the exact outcome (`Vma.Outcome`): rounds that begin inside a free region and leave it skip on by its length; if they skip past the range nothing changes; otherwise, from where they end, exactly the addresses of the range become free and the partition stays, unless a mapped region sticks out behind the range, and then it is no partition any more. So exactly the range becomes free and the partition stays if and only if what is skipped is free anyway and no mapped region that begins in the range sticks out of it; where no free region has a free one right behind it: if and only if the range does not begin inside a free region and leave it, and nothing sticks out. Inside one region the freed range joins both free neighbours, except at the very beginning of the address range, where it joins none |
| Vma.OutcomeIff | src/kernel/VMA.cpp:113-120 | of any outcome: exactly the range is freed and the partition kept if and only if the skips pass only free memory and no mapped region that begins in the range sticks out of it |
| Vma.SkipsFreeIff | src/kernel/VMA.cpp:117-120 | where no free region has a free one right behind it, the skips pass only free memory if and only if there are none |
| Vma.OutcomeKept | src/kernel/VMA.cpp:117-120 | a range that skips leaves all it skips as it was |
| Vma.SkipCall | src/kernel/VMA.cpp:117-120 | on a task's first regions, munmap of 0x9000 bytes at 0x8000 changes nothing, and the page at TASK_POINTER in that range stays mapped |
| Vma.StickCall | src/kernel/VMA.cpp:131-169 | munmap of the page at TASK_POINTER and the first page of the stack behind it leaves no partition |
| Vma.Advance | src/kernel/VMA.cpp:112-170 | what one round of munmap leaves for the next, or the outcome |
| Vma.RunsInto | src/kernel/VMA.cpp:134-167 | a free region too long for its gap runs into the next one: no partition |
| Vma.CloseUp | src/kernel/VMA.cpp:167-169 | the free region put in closes the gap and frees exactly the range |
| IntrusiveList.List.EmplaceFront | src/kernel/templates/List.hpp:47-61 | the node becomes the newest, though its own next pointer may be stale |
| IntrusiveList.List.ExtractBack | src/kernel/templates/List.hpp:106-127 | the oldest node leaves, and belongs to no list; null exactly when empty |
| IntrusiveList.List.PopBack | src/kernel/templates/List.hpp:85-104 | the oldest node is dropped |
| IntrusiveList.List.Empty | src/kernel/templates/List.hpp:129-132 | true exactly when no node is in the list |
| IntrusiveList.List.Back | src/kernel/templates/List.hpp:67-74 | the oldest node's value |
| IntrusiveList.List.constructor | src/kernel/templates/List.hpp:30 | an empty list |
| IntrusiveList.List.SwapEmpty | src/kernel/cv.hpp:45-49 | std::swap with an empty list moves all nodes in order |
| IntrusiveList.MoveOldest | src/kernel/cv.hpp:50-53 | one node goes from the back of one list to the front of another, order kept in both |
| IntrusiveList.DrainInto | src/kernel/cv.hpp:50-53 | the drain loop moves all nodes, oldest first |
| IntrusiveList.NotifyAll | src/kernel/cv.hpp:44-54 | the waiters end up behind the ready tasks in waiting order, the waiter list empty |
| SharedPointer.CountersExact | src/kernel/templates/PointersCollection.hpp:59-129 | in every interleaving of the compare-and-swap loops: ctl counts strong and weak handles, obj the strong ones; the object lives while a strong handle does, the block while any does; each dies at most once |
| SharedPointer.DiedExactlyOnce | src/kernel/templates/PointersCollection.hpp:80-128 | when all threads are done, the object has died exactly once if no strong handle is left, the block exactly once if none is, and not otherwise; also for an object that holds weak handles to itself |
| SharedPointer.NeverFails | src/kernel/templates/PointersCollection.hpp:69-129 | no assertion of the loops fires and no deleted block is read |
| SharedPointer.NoRevival | src/kernel/templates/PointersCollection.hpp:236-242 | a lock, also one through a weak handle inside the object, succeeds only while the object lives and nobody is about to delete it; once dead it stays dead |
| SharedPointer.GuardedLockSucceeds | src/kernel/vfs/Node.cpp:20-24 | under a strong handle that nobody drops meanwhile, a lock ends with its new handle however the run goes on: SharedPtr's copy, and the lock of the object's own weak handle, whose success the node asserts |
| SharedPointer.GivesUpOnlyDead | src/kernel/templates/PointersCollection.hpp:97-111 | in every run, and whatever handle it goes through, a strong lock leaves its loop without its new handle only when no strong handle is left |
| SharedPointer.SwapSettles | src/kernel/templates/PointersCollection.hpp:70-128 | in every run, a swap on the values last read that does not fail for no reason ends the loop with what it is for: a weak lock with its handle, a strong lock with its handle if and only if a strong one is there, a release without the handle |
| SharedPointer.DoneAlone | src/kernel/templates/PointersCollection.hpp:236-242 | so any operation that nobody gets in the way of is done after one load and one swap: a weak handle outside the object locks a living one |
| SharedPointer.DestructorLockGivesUp | src/kernel/templates/PointersCollection.hpp:97-111 | from the object's destructor a lock of its own weak handle gives up and changes nothing |
| SharedPointer.DestructorLockFails | src/kernel/templates/PointersCollection.hpp:97-111 | the same whatever other threads do meanwhile |
| SharedPointer.DestructorReached | src/kernel/templates/PointersCollection.hpp:191-197 | a run that gets there: the last strong handle to an object that holds a weak handle to itself goes |
| SharedPointer.GuardStays | src/kernel/templates/PointersCollection.hpp:97-111 | no step of another thread takes the guard away |
| SharedPointer.StepKeeps | src/kernel/templates/PointersCollection.hpp:69-129 | every step of every thread keeps the invariant |
| SharedPointer.TryWeakLock | src/kernel/templates/PointersCollection.hpp:70-78 | a successful swap of weak_lock keeps it |
| SharedPointer.TryStrongLock | src/kernel/templates/PointersCollection.hpp:97-111 | a successful swap of strong_lock keeps it, and both assertions hold |
| SharedPointer.TryWeakRelease | src/kernel/templates/PointersCollection.hpp:82-93 | a successful swap of weak_release keeps it |
| SharedPointer.TryStrongRelease | src/kernel/templates/PointersCollection.hpp:115-128 | a successful swap of strong_release keeps it |
| SharedPointer.FreeBlockKeeps | src/kernel/templates/PointersCollection.hpp:90-91 | deleting the block keeps it: nobody else reads it |
| SharedPointer.FreeObjectKeeps | src/kernel/templates/PointersCollection.hpp:191-197 | deleting the object keeps it |
| SharedPointer.NextInsideKeeps | src/kernel/templates/PointersCollection.hpp:252-258 | dropping a weak handle held by the deleted object keeps it |
| SharedPointer.CreatedInv | src/kernel/templates/PointersCollection.hpp:138 | a new SharedPtr satisfies it |
| Frames.Frames.constructor | src/arch/x86/memman.cpp:15-25 | an all-reserved bitmap |
| Frames.Frames.SetSts | src/arch/x86/memman.cpp:41-58 | changes the page's own two bits and nothing else |
| Frames.Frames.GetSts | src/arch/x86/memman.cpp:60-74 | reads the page's two bits |
| Frames.FieldsApart | src/arch/x86/memman.cpp:41-58 | the four fields of a byte do not disturb each other |
| Frames.MarkedCount | src/arch/x86/memman.cpp:90-92 | marking frees every page of the range but those free or in use before |
| Frames.AddedOff | src/arch/x86/memman.cpp:86-93 | what one region of any kind puts the 64-bit total off by, whatever it was off by before: the pages counted again, or what lies between a clipped end and the beginning |
| Frames.TotalAll | src/arch/x86/memman.cpp:76-96 | what the total is worth after any whole map: the free pages and what each region put it off by, modulo 2^64 |
| Frames.CountedAllIff | src/arch/x86/memman.cpp:76-96 | after any whole map the total is right if and only if what its regions put it off by comes to nothing modulo 2^64 |
| Frames.CountedBelow | src/arch/x86/memman.cpp:76-96 | for a map with no region above the clip: if and only if no region has a page that was free or in use before it |
| Frames.ErrorsCancel | src/arch/x86/memman.cpp:76-96 | two regions that share a page and one above the clip: the errors make up for each other, and the total is right |
| Frames.CountedIff | src/arch/x86/memman.cpp:86-93 | from a right total, one region keeps it right if and only if it begins at or below the clip and none of its pages was free or in use |
| Frames.SoundIff | src/arch/x86/memman.cpp:86-94 | all the books stay right if and only if, besides, a lowest page of 0 is not taken for none while a page below the region is free |
| Frames.AllFitSound | src/arch/x86/memman.cpp:76-96 | a map whose regions all fit, one after the other, leaves the books right |
| Frames.ProperMap | src/arch/x86/memman.cpp:76-96 | from boot, a map without page 0, without regions above the clip and without two regions that share a page makes exactly its whole pages free |
| Frames.SpanWhole | src/arch/x86/memman.cpp:79-90 | a region that does not wrap around names a page if and only if all the page's bytes are in it, its kind is the wanted one and the page is below the clip |
| Frames.PlainMap | src/arch/x86/memman.cpp:76-96 | from boot, a map of byte ranges of which no two hold the same page, without page 0 and with none behind the clip, makes free exactly the pages they hold, and the total counts them |
| Frames.HighRegion | src/arch/x86/memman.cpp:86-93 | a gigabyte above the 32nd: nothing is marked, and the total wraps to 2^64 - 20 |
| Frames.SharedPage | src/arch/x86/memman.cpp:90-93 | two regions that share a page: three pages are free, and four are counted |
| Frames.PageZeroLost | src/arch/x86/memman.cpp:87 | a region with page 0 and another: page 0 is free and never found |
| Frames.SoundTaken | src/arch/x86/memman.cpp:102-110 | handing out the lowest free page keeps them right |
| Frames.SoundGiven | src/arch/x86/memman.cpp:122-126 | taking a page back keeps them right |
| Frames.SoundEmpty | src/arch/x86/memman.cpp:98-106 | the total is zero exactly when no page is free; otherwise a free page lies between the two marks |
| Frames.Frames.MarkRange | src/arch/x86/memman.cpp:86-94 | the marking loop, both marks and the wrapped total, for every range |
| Frames.Frames.AddRegion | src/arch/x86/memman.cpp:79-94 | one region of any kind and size, rounded inwards and clipped, in 64-bit arithmetic |
| Frames.Frames.ParseMemmap | src/arch/x86/memman.cpp:76-96 | the books after any memory map; from boot and for a proper map, exactly its whole pages are free and the books are right |
| Frames.Frames.Get4k | src/arch/x86/memman.cpp:98-112 | NULL exactly when no page is free, otherwise the lowest-numbered free page, now used |
| Frames.Frames.Free4k | src/arch/x86/memman.cpp:114-127 | halts unless the address is an aligned page of the window that is in use; otherwise exactly that page becomes free |
| Frames.HhdmBits | src/arch/x86/paging.hpp:24-27 | the window's bit operations are an addition and its inverse |
| PageTables.LinkedIs | src/arch/x86/paging.cpp:105-106 | the `|=` stores leave exactly the new frame because a non-present entry has no address bits, and an entry that is present, writable and open to user code |
| PageTables.Follow | src/arch/x86/paging.cpp:109-122 | a present ordinary entry leads to the one table that hangs there |
| PageTables.HangIsTree | src/arch/x86/paging.cpp:100-131 | a new zeroed table keeps the tables an alias-free tree |
| PageTables.HangWalk | src/arch/x86/paging.cpp:100-131 | and changes no translation and nothing that a page may be used for |
| PageTables.LeafIsTree | src/arch/x86/paging.cpp:133-135 | a last-level store keeps the tree, whatever is stored |
| PageTables.LeafWalk | src/arch/x86/paging.cpp:133-169 | and changes only that page: its translation, and what it may be used for, which is what its entry and all those above it allow |
| PageTables.RightsMapped | src/arch/x86/paging.cpp:50-81 | a page may be used for something if and only if it is mapped |
| Paging.IndicesTell | src/arch/x86/paging.cpp:92-95 | two pages share all four indices exactly when they agree in their low 36 bits |
| Paging.AddressSpace.Create | src/arch/x86/paging.cpp:33-40 | an empty space around a zeroed top table; fails exactly when no frame is free, where the stores go to the null page |
| Paging.AddressSpace.Own | src/arch/x86/paging.cpp:33-40 | the space around that table: no page is mapped |
| Paging.AddressSpace.Around | src/arch/x86/paging.cpp:42 | a space around existing tables |
| Paging.AddressSpace.Virt2Real | src/arch/x86/paging.cpp:50-81 | the frame that the tree of tables maps the page to, by its last-level entry or by a large entry above; 0 if and only if the page is not mapped or is mapped to frame 0 |
| PageTables.WalkMaps | src/arch/x86/paging.cpp:50-81 | a walk through the tables finds exactly what the tree says, and nothing where it says nothing |
| Paging.AddressSpace.GetFreeFrame | src/arch/x86/paging.cpp:15-23 | a zeroed frame that is no table of the tree, or a halt exactly when none is free |
| Paging.AddressSpace.Ensure | src/arch/x86/paging.cpp:100-107 | the table below an entry exists afterwards; translations unchanged; one frame used exactly if it was missing |
| Paging.AddressSpace.Tables | src/arch/x86/paging.cpp:98-133 | the last-level table of a page with all tables on the way; fails exactly when a large mapping is in the way or frames are missing |
| Paging.AddressSpace.Map | src/arch/x86/paging.cpp:83-138 | halts if and only if a large mapping is in the way or fewer frames are free than tables are missing; otherwise the page translates to the frame, its entry has exactly the flags given and PRESENT, and it may be written, and used by user code, if and only if the flags and all entries allow it that were on its way before: entries to new tables allow both, all others are as they were. Every other page translates and may be used as before, and the tables stay an alias-free tree |
| Paging.HungOpened | src/arch/x86/paging.cpp:105-106 | of the entries that lead to tables only the new one changes, and it allows writing and user code |
| Paging.AddressSpace.Unmap | src/arch/x86/paging.cpp:139-172 | halts if and only if the page is not mapped by a small page; otherwise only it becomes absent: every other page translates and may be used as before, and no entry that leads to a table changes |
| Paging.AddressSpace.Destroy | src/arch/x86/paging.cpp:44-48 | every frame the space took is given back, each exactly once, and free4k accepts it |
| Paging.HangsMissing | src/arch/x86/paging.cpp:100-131 | each table hung is one less missing on the path |
| Paging.LeafStored | src/arch/x86/paging.cpp:133-135 | the final store leaves everything outside the page's own entry alone |
| KernelHalf.OtherSpace | src/arch/x86/paging.cpp:83-172 | whatever is mapped or unmapped in one address space: behind top-level entries it shares with another one, the other translates every page as this one does now; everywhere else the other translates, and its pages may be used, as before; both stay alias-free trees and share as before |
| KernelHalf.SharesBack | src/kernel/VMA.cpp:61-66 | sharing goes both ways: either space may be the one that maps |
| KernelHalf.OthersShare | src/arch/x86/paging.cpp:83-172 | any two other spaces go on sharing with each other |
| KernelHalf.LeftAlone | src/arch/x86/paging.cpp:83-172 | a table that is not shared is not touched by another space, nor taken for a new table |
| KernelHalf.MapKern | src/kernel/VMA.cpp:61-66 | entry by entry: the root gets the upper half of the kernel's, and nothing else in memory changes |
| KernelHalf.MapKernShares | src/kernel/VMA.cpp:61-66 | then the space has the kernel's tables behind the upper half and its own below: it is a tree that shares with the kernel's, translates the upper half as the kernel does and the lower half as before, and so for what pages may be used for; the kernel's translations stay |
| KernelHalf.UpperPages | src/kernel/VMA.cpp:63 | the 256 entries copied are those of the pages in the upper half of the addresses |
| KernelHalf.MapKernAmong | src/kernel/VMA.cpp:61-66 | and it shares in the same way with every space that shares with the kernel |
| PageTables.SameTables | src/arch/x86/paging.cpp:50-81 | tables left alone form the same tree, and walks through them end where they did |
| Paging.GivenNext | src/arch/x86/paging.cpp:45-47 | frames are distinct, so each is still in use when its turn comes |
| Hhdm.EarlyPool.GetEarlyFrame | src/arch/x86/paging.cpp:199-205 | the next pool frame, every entry writable and absent; halts exactly when the pool is used up |
| Hhdm.EarlyPool.MapLarge | src/arch/x86/paging.cpp:214-253 | one turn of the loop: never meets an occupied slot; halts exactly when the pool is used up |
| Hhdm.EarlyPool.MapHhdm | src/arch/x86/paging.cpp:207-255 | from an absent top-level slot: every page below 32 GiB translates to itself, for the kernel to read and write and not for user code, with exactly 33 pool frames; halts exactly when fewer are left |
| Hhdm.EarlyPool.BootWindows | src/arch/x86/boot.cpp:49-61 | both boot calls succeed, use up the pool exactly, and the second leaves the first window alone; the kernel's tables are an alias-free tree |
| Hhdm.BuiltNext | src/arch/x86/paging.cpp:228-252 | the tables after one more large page |
| Hhdm.WindowWalk | src/arch/x86/paging.cpp:50-81 | a walk through the finished window ends on the page itself, which the kernel may write and user code may not use |
| Hhdm.WindowIsTree | src/arch/x86/paging.cpp:199-255 | the window's tables satisfy the invariant that `map` relies on |
| Hhdm.WindowStays | src/arch/x86/boot.cpp:49-61 | a second window from later frames leaves the first one alone |
| Hhdm.WindowIndices | src/arch/x86/paging.cpp:224-226 | which entries a page of the window uses |
| Hhdm.OrBelow | src/arch/x86/paging.cpp:69-74 | or-ing offset bits below an aligned address adds them |
| SchedIdle.NoAssertionFires | src/arch/x86/task.cpp:442-565 | from any boot that starts a task which only yields, as the kernel's dummy does, in every interleaving of tasks, ticks and device interrupts: no assertion of the scheduler, the mutexes or the lists fires, and there is always a task to run |
| SchedIdle.SteadyKeeps | src/arch/x86/kmain.cpp:99-119 | a task that only yields stays ready or on the processor, whatever happens |
| SchedIdle.YieldRunKeeps | src/arch/x86/kmain.cpp:99-119 | and so over every run |
| SchedTheorems.NeverFails | src/arch/x86/task.cpp:442-565 | however a kernel boots, no assertion fires but that a task must be left to run |
| SchedTheorems.OneListAtMost | src/kernel/templates/List.hpp:47-61 | a task's node is in at most one list, once, and names one; a task in the ready queue is running |
| SchedTheorems.SleeperHoldsLock | src/arch/x86/task.cpp:351-412 | a running task recorded in WaitingTasks holds WaitingTasks_mlock |
| SchedSleep.SleepsLongEnough | src/arch/x86/task.cpp:351-364 | in every run: a task that calls sleep_self is done with that call in no later state before the clock is past the time of the call plus the microseconds asked for |
| SchedSleep.SleepEndsIff | src/arch/x86/task.cpp:353 | the loop's test lets it go if and only if the clock is past its time |
| SchedSleep.SleeperKnowsItsTime | src/arch/x86/task.cpp:353-361 | in every run: whoever lies in WaitingTasks under a time goes on, once it does, with the test against that time |
| SchedSleep.LeavesBedInTime | src/arch/x86/task.cpp:377-392 | a task leaves WaitingTasks only by the hand of the waker, not before its wake-up time, and before anyone with a later one |
| SchedSleep.WakerTakesEarliest | src/arch/x86/task.cpp:377-404 | when the waker looks and somebody's time has come, exactly those of the earliest time leave WaitingTasks, each in its hands to be roused |
| SchedSleep.ClockGoes | src/arch/x86/task.cpp:351-364 | the clock moves at ticks, by 1000 microseconds, and at no other step |
| SchedTheorems.WakeupNeverTakesRunning | src/arch/x86/task.cpp:449-455 | at every voluntary switch the periodic wake-up is not due, and the running task is in no condition variable's queue |
| SchedTheorems.MutualExclusion | src/kernel/mutex.cpp:12-100 | at most one task is between a successful try_lock and its unlock |
| SchedTheorems.OwnerIsHolder | src/kernel/mutex.cpp:12-100 | owner() is the holder from the end of lock() to the start of unlock(), and nobody otherwise |
| SchedRun.NotOwner | src/kernel/mutex.cpp:25-26 | lock() is never called on a mutex the caller owns |
| SchedTheorems.WokenParentFindsZombie | src/arch/x86/task.cpp:145-183 | a parent back from waitpid_block with AllTasks_lock finds the child named by _woken_pid a zombie, its node stored, not yet disposed |
| SchedKin.NobodyWaitsInVain | src/arch/x86/task.cpp:92-183 | in every interleaving nobody sleeps in waitpid, for a child or for any, while a child it would take for an answer is a zombie |
| SchedKin.ExitWakesParent | src/arch/x86/task.cpp:97-109 | a child that exits while its parent waits for it, or for any child: in whatever run the child becomes a zombie, there is a step before at which the waiting parent becomes the last of the ready tasks, running, with the child's number in _woken_pid |
| SchedKin.ExitLooks | src/arch/x86/task.cpp:98-109 | an exit goes straight on to become a zombie only if its parent does not wait for it |
| SchedKin.SearchLooks | src/arch/x86/task.cpp:151-176 | waitpid goes on to wait only if nobody it would take for an answer is a zombie |
| SchedKin.OneTense | src/arch/x86/task.cpp:79-133 | only one task at a time is about to become a zombie or to wait for one |
| SchedKin.ExecKin | src/arch/x86/task.cpp:79-183 | every instruction of every task keeps all that |
| SchedGraves.NoDeadForgotten | src/arch/x86/task.cpp:64-76 | in every interleaving a dead task that is still in AllTasks is in TasksToFree, or the freer has taken it out and will take it out of AllTasks |
| SchedGraves.StepTends | src/arch/x86/task.cpp:136-143 | every step keeps that |
| SchedTheorems.WokenOnlyByTheOneAskedFor | src/arch/x86/task.cpp:92-118 | a parent that waits for one pid is woken by no other child |
| SchedTheorems.BuriedAtMostOnce | src/arch/x86/task.cpp:136-143 | over a whole run no zombie is disposed twice, and the disposed stay dead |
| SchedTheorems.DispatchedInTurn | src/arch/x86/task.cpp:472-483 | a ready task with p older ones ahead of it is dispatched at exactly the (p + 1)-th following switch, whatever arrives later |
| SchedTheorems.WaitsItsTurn | src/arch/x86/task.cpp:472-483 | after k of those switches it has p - k ahead of it |
| SchedTheorems.OneStepInTurn | src/arch/x86/task.cpp:472-483 | one step moves a ready task up by one place per switch |
| SchedTheorems.StepInOrder | src/arch/x86/task.cpp:442-565 | every step changes only the running task's code, and every queue only as a queue |
| SchedTheorems.WaitLeavesNoGap | src/kernel/cv.hpp:25-33 | CV::wait releases the lock, joins the waiters last and blocks with nothing in between |
| SchedTheorems.WaiterMissesNothing | src/kernel/cv.hpp:34-54 | a waiter leaves its queue only from the front, or with all others when notify_all takes the queue over |
| SchedWaits.WokenInTurn | src/kernel/cv.hpp:34-43 | a waiter with p others ahead of it leaves at exactly the (p + 1)-th following notification, whoever joins meanwhile, and is then ready, running or in the notifier's hands |
| SchedWaits.WaitsForNotice | src/kernel/cv.hpp:34-43 | after k notifications it has p - k ahead of it |
| SchedWaits.OneNotice | src/kernel/cv.hpp:25-43 | one step: a notification takes the front of the queue, and without one nobody leaves it |
| SchedEffects.SwitchingIs | src/arch/x86/task.cpp:442-527 | an instruction that leaves the processor finds nobody only if nobody was ready, and wakes no waiter of a condition variable between ticks |
| SchedEffects.StayingIs | src/arch/x86/task.cpp:64-432 | any other instruction wakes waiters only of a condition variable it notifies |
| SchedTheorems.NotifyTakesOldest | src/kernel/cv.hpp:34-43 | notify_one takes the longest waiting task, which is blocked |
| SchedTheorems.GivesToReady | src/arch/x86/task.cpp:544-554 | unblocking puts the task at the back of the ready queue, running |
| SchedTheorems.NotifyAllOwesAll | src/kernel/cv.hpp:45-49 | after the swap notify_all owes exactly the queue as it was |
| SchedTheorems.DrainStep | src/kernel/cv.hpp:50-53 | whatever step is taken, it pays off the front of what is owed, or nothing |
| SchedTheorems.NotifyAllWakesAll | src/kernel/cv.hpp:44-54 | however the run goes on, notify_all wakes exactly those tasks, oldest first, before it is done |
| SchedTheorems.RunKeeps | src/arch/x86/task.cpp:64-565 | every run keeps the scheduler's invariant |
| SchedTheorems.ReachableInv | src/arch/x86/task.cpp:64-565 | every state reachable from boot satisfies it |
| SchedTheorems.BootedInv | src/arch/x86/task.cpp:434-440 | so does a kernel that has started any set of tasks and run none |
| SchedEffects.RunsOutIff | src/arch/x86/task.cpp:449-478 | switch_task finds no task if and only if nobody is ready, the running task is not running any more, and the waker is not due a wake-up |
| SchedIdle.TickFindsRunner | src/arch/x86/task.cpp:472-478 | a tick that interrupts a running task always finds one to run |
| SchedRun.StepKeeps | src/arch/x86/task.cpp:64-565 | every step from a state that satisfies the invariant either keeps it or runs out of tasks; none fails an assertion |
| SchedRun.ExecKeeps | src/arch/x86/task.cpp:64-565 | the same for every instruction of the running task |
| SchedRun.WaitCheckKeeps | src/arch/x86/task.cpp:145-176 | waitpid's search: a zombie, a child to wait for, or no such task |
| SchedRun.WaitCheckIff | src/arch/x86/task.cpp:145-151 | waitpid's search keeps the invariant if and only if the task it finds is the caller's child |
| SchedRun.StrangerHalts | src/arch/x86/task.cpp:150 | otherwise it returns with AllTasks_lock held, and if the caller's next call is waitpid, the creation of a task or the exit of a task with a parent, lock()'s assertion fails |
| SchedTheorems.StrangerReached | src/arch/x86/task.cpp:145-150 | that happens: of any two tasks started at boot, the first can come to look for the second, which is not its child |
| SchedRun.SpawnKeeps | src/arch/x86/task.cpp:250-290 | creating a task |
| SchedCalls.SpawnMakesReady | src/arch/x86/task.cpp:250-348 | in whatever run: a task that creates another is still at it, or there was a step that ended the call and made the new task the last of the ready ones, running, in AllTasks and, if it was to be, the creator's child |
| SchedCalls.LockReturnsHolding | src/kernel/mutex.cpp:25-69 | in whatever run: at the first state at which a call of lock is done, the caller holds the mutex, is its owner, and nobody else holds it |
| SchedCalls.FreeMutexTaken | src/kernel/mutex.cpp:30-34 | a mutex that is free is taken at once |
| SchedCalls.UnlockReturnsFree | src/kernel/mutex.cpp:71-84 | in whatever run: at the first state at which a call of unlock is done, the caller holds the mutex no more |
| SchedCalls.UnlockTakesOldest | src/kernel/mutex.cpp:76-83 | unlock takes the longest waiting task into its hands and is about to unblock it; nobody else leaves the queue |
| SchedFacts.ExecMild | src/arch/x86/task.cpp:64-412 | of all instructions only zombify_self makes a zombie and only waitpid_block a waiter, each of the running task itself; which ones touch kin, sleepers, graves and AllTasks; and no task's mutexes change but the running one's |
| SchedLocal.WokenByZombie | src/arch/x86/task.cpp:145-181 | the invariant behind waitpid: who wakes a waiting parent is its zombie child |
| SchedLocal.AcquireKeeps | src/kernel/mutex.cpp:12-19 | keeps the scheduler's invariant, and no assertion fires: a successful compare-and-swap of the flag |
| SchedLocal.OwnerKeeps | src/kernel/mutex.cpp:17 | keeps the scheduler's invariant, and no assertion fires: the owner is set only by the holder |
| SchedLocal.DisownKeeps | src/kernel/mutex.cpp:71-73 | keeps the scheduler's invariant, and no assertion fires: the owner is cleared before the flag |
| SchedLocal.ReleaseKeeps | src/kernel/mutex.cpp:74-75 | keeps the scheduler's invariant, and no assertion fires: the flag is cleared only by its holder |
| SchedNodes.ExtractKeeps | src/kernel/mutex.cpp:76-82 | keeps the scheduler's invariant, and no assertion fires: the oldest waiter's node leaves its list for the caller's hands |
| SchedNodes.GiveKeeps | src/arch/x86/task.cpp:544-554 | keeps the scheduler's invariant, and no assertion fires: a node in hand goes to the ready queue; it is in no list and its task is not running |
| SchedNodes.RouseKeeps | src/arch/x86/task.cpp:396-399 | keeps the scheduler's invariant, and no assertion fires: the waker marks a sleeper running before it queues it |
| SchedNodes.StartKeeps | src/arch/x86/task.cpp:340-343 | keeps the scheduler's invariant, and no assertion fires: a new task is started once |
| SchedNodes.RegisterKeeps | src/arch/x86/task.cpp:286-289 | keeps the scheduler's invariant, and no assertion fires: a new task is entered in AllTasks |
| SchedNodes.AdoptKeeps | src/arch/x86/task.cpp:430 | keeps the scheduler's invariant, and no assertion fires: the parent is recorded |
| SchedLives.SetWokenKeeps | src/arch/x86/task.cpp:151-152 | keeps the scheduler's invariant, and no assertion fires: _woken_pid is set under AllTasks_lock before the parent blocks |
| SchedLives.SleepInKeeps | src/arch/x86/task.cpp:357-360 | keeps the scheduler's invariant, and no assertion fires: the node goes into WaitingTasks while the task still runs |
| SchedLives.BurySelfKeeps | src/arch/x86/task.cpp:64-73 | keeps the scheduler's invariant, and no assertion fires: a task puts itself on TasksToFree while it runs |
| SchedLives.FreerPopKeeps | src/arch/x86/task.cpp:316-321 | keeps the scheduler's invariant, and no assertion fires: the freer takes only tasks that no longer run |
| SchedLives.EraseKeeps | src/arch/x86/task.cpp:323-327 | keeps the scheduler's invariant, and no assertion fires: the task leaves AllTasks |
| SchedLives.BuryKeeps | src/arch/x86/task.cpp:136-143 | keeps the scheduler's invariant, and no assertion fires: a zombie is disposed |
| SchedLives.WakeParentKeeps | src/arch/x86/task.cpp:98-108 | keeps the scheduler's invariant, and no assertion fires: the waiting parent's node goes from its slot to the ready queue |
| SchedSwitch.SwitchKeeps | src/arch/x86/task.cpp:442-483 | keeps the scheduler's invariant, and no assertion fires: switch_task: wake-up, requeue, dispatch |
| SchedSwitch.KickKeeps | src/arch/x86/task.cpp:449-455 | keeps the scheduler's invariant, and no assertion fires: the periodic wake-up |
| SchedSwitch.ParkKeeps | src/kernel/mutex.cpp:62-67 | keeps the scheduler's invariant, and no assertion fires: a lock's waiter joins the list and blocks |
| SchedSwitch.WaitKeeps | src/kernel/cv.hpp:25-31 | keeps the scheduler's invariant, and no assertion fires: CV::wait up to the switch |
| SchedSwitch.SleepBlockKeeps | src/arch/x86/task.cpp:521-527 | keeps the scheduler's invariant, and no assertion fires: self_block(Mutex&) up to the yield |
| SchedSwitch.ZombifyKeeps | src/arch/x86/task.cpp:79-90 | keeps the scheduler's invariant, and no assertion fires: zombify_self |
| SchedSwitch.WaitBlockKeeps | src/arch/x86/task.cpp:121-131 | keeps the scheduler's invariant, and no assertion fires: waitpid_block up to the switch |
| SchedSwitch.BlockSelfKeeps | src/arch/x86/task.cpp:500-510 | keeps the scheduler's invariant, and no assertion fires: self_block() of a task that is done |
| SchedSwitch.YieldKeeps | src/arch/x86/task.cpp:366-370 | keeps the scheduler's invariant, and no assertion fires: yield_self, also of a task already marked blocked |
| SchedSwitch.TickKeeps | src/arch/x86/idt.cpp:171-175 | keeps the scheduler's invariant, and no assertion fires: a timer tick anywhere |
| SchedSwitch.IrqKeeps | src/kernel/cv.hpp:34-43 | keeps the scheduler's invariant, and no assertion fires: a device interrupt that notifies, anywhere |
| SchedGroups.NotifyAllKeeps | src/kernel/cv.hpp:44-49 | keeps the scheduler's invariant, and no assertion fires: all waiters move to the local list at once |
| SchedGroups.NoneAwake | src/arch/x86/task.cpp:381-388 | while the waker looks nobody in WaitingTasks is running: its check never turns it back |
| SchedGroups.WakerKeeps | src/arch/x86/task.cpp:377-394 | keeps the scheduler's invariant, and no assertion fires: the sleepers of the first due time leave WaitingTasks |
| SchedFrame.SwitchEffect | src/arch/x86/task.cpp:449-483 | at most the waker and the switched-out task join the ready queue, then its oldest runs |
| SchedFrame.ExecOrderly | src/arch/x86/task.cpp:64-565 | every instruction moves every queue only as a queue |

## Left out

- SchedTheorems.NeverFails: leaves out the assertion that some task is left to run, which `SchedIdle.NoAssertionFires` proves for every boot that starts a task which only yields.
- SchedRun.StepKeeps: asks that `waitpid` is called for the caller's own children, because the property is false otherwise; `SchedRun.WaitCheckIff` has both directions.
- SchedRun.ExecKeeps: the same condition, for the same reason.
- SchedRun.WaitCheckKeeps: the same condition, for the same reason.
- Vma.VMA.MmapMem: the loop that maps pages is not modelled; nor is wrap-around of 64-bit region ends.
- Vma.VMA.GetEntry: asks for regions that partition a range, so it does not speak of calls after a cut that broke the partition.
- Vma.VMA.Munmap: asks for a range inside the regions. The loop that unmaps and frees pages is not modelled.
- Frames.Frames.Free4k: addresses beyond the bitmap are not modelled; the code would read past its array.
- Hhdm.EarlyPool.MapHhdm: asks for an absent top-level slot, as both boot calls find it.
- SharedPointer.CountersExact: counters are unbounded; 32-bit overflow, `COWPointer`, casts, moves and null handles are not modelled.
- Paging.AddressSpace.GetFreeFrame: the zeroing loop is one store; that table frames lie inside the 32 GiB window is not modelled.
- KernHeap.Heap.ExtendHeap: counts the frames for data only; `map` takes frames for missing tables from the same allocator and halts without them (`src/arch/x86/paging.cpp:100-131`, `Paging.AddressSpace.Map`).
- KernHeap.Heap.Kmalloc: the same; and the heap's mutex is not modelled, so calls do not overlap.
- Mutex liveness: a waiter may sleep though the mutex is free (`src/kernel/mutex.cpp:62`), so only safety is proved; the adaptive spin counter is an arbitrary choice.
- Spinlocks as flags: on one processor they are only taken with interrupts off, so a section under one is one step.
- `VMA::mmap_phys`, `clone_from` and the destructor.
- SchedRun.StrangerHalts: speaks of the caller's very next call, not of a later one.
- Copying, moving and comparing skip lists; duplicate keys.
- `Task::clone`'s copying of memory, user set-up, register frames, `fxsave`, `cr3` loads, translation-buffer flushes, exception handlers, used-time accounting.
- Wrap-around of the 64-bit clock.
- File systems, file descriptors, TTY, serial, PS/2, framebuffer, GDT, IDT and PIC set-up, boot loader glue, system calls.
- Strings, formatting, circular buffers, vectors: they would only add easy members.
