# A verified model of OS/161 with demand paging

This project models the parts of the OS/161 kernel and C library that carry its hardest
promises, and proves them with Dafny. `dafny verify dfyconfig.toml` checks all of it.

**Paging** (`Coremap`, `Tlb`, `Swap`, `Paging*`). The frame table, the TLB and the swap
file are imperative classes over arrays. The protocol that ties them to page tables,
context switches, faults, evictions, swap-ins, forks and exits is a transition system of 34
kinds of step (`Paging.Next`), one processor, with a context switch possible between any
two steps. A section with interrupts masked is one step; a section under `swap_lock` that
does I/O is two, with the lock explicit. One invariant (`PagingInvariant.Inv`) holds in
every state of every run, and from it: paging is transparent (the contents of all pages
equal a flat memory), frames and pages match one to one, slot counts are exact and never
wrap, the TLB is exact, and the printed statistics balance, also when faults fail. A run is
also read as a history: a page is loaded from the program its process was started with, a
fault ends at the page that faulted, and each counter is the number of its events.
`PagingCode` shows that the imperative classes carry out the steps of the protocol.

**Multiprecision arithmetic** (`Digits`, `Divide`, `DigitShift`, `LongDivision`,
`SignedArith`, `Multiply`). Knuth's Algorithm D on digit arrays and the three-product
multiplication, in words that wrap. The estimate lemma is proved for every base and number
of digits.

**Threads** (`Hangman`, `Synch`, `SynchRuns`, `SynchHistory`, `ThreadList`, `Migration`,
`Spl`). The deadlock detector over linked objects; semaphores, locks and condition variables
as a transition system over any number of threads and objects, with counts and owners read
off the labels of a schedule; the doubly linked thread list; run queue migration under any
interference by other processors; interrupt level accounting across processors, switches,
forks and traps.

**Kernel heap** (`Heap`, `PageLists`, `PageRefs`, `Kmalloc`). Free lists threaded through the
blocks of a page, the two kinds of linked page list, the descriptor bitmap, and the file's own
runtime checker, which never fails.

**Program loading and text** (`LoadPage`, `Numeral`, `Atoi`, `Printf`, `PrintfFields`,
`PrintfItems`, `PrintfAtoi`). Loading page by page against loading at once; formatted printing
into a bounded buffer against the meaning of a format; and reading numbers back.

## Where the code does not do what is promised

- `pt_copy` reads the parent's frame number again after finding a frame for the child
  (kern/vm/pt.c lines 185 to 192). Finding that frame may evict the very page being copied;
  the number read is then a swap slot. `ForkCopiesWrongPage` gives a run from boot,
  `CopyFaithfulIff` the exact condition, and `ForkExact` the guarantee for every other page.
- A field with both `-` and `0` is padded on the right with zeros
  (common/libc/printf/__printf.c lines 400 to 403), against section 7.19.6.1 of C99, which
  lets `-` override `0`. `WrongExample` gives a number, `FieldRoundTrip` the exact condition.
- `get_victim` gives up when its hand rests on a frame that has become the inside of a
  kernel block (kern/vm/coremap.c lines 23 to 29). `FindVictim` states this as one of the
  two exact conditions of failure.
- `kmalloc` rounds a size up in 32 bits (kern/vm/kmalloc.c lines 1186 to 1187). A size within
  a page of the top wraps to no pages (`PagesCover`). The request for no frames that follows
  records a block of length 0 in the frame table, exactly when some frame is free
  (`GetFrames`), and the next search for a free block never ends (`RequestNothing`).
- `allocpageref` leaves a descriptor marked when it cannot get the page that would hold it
  (kern/vm/kmalloc.c lines 280 to 287). `freepageref` asserts that a root without a page has
  no descriptors (lines 315 to 318). `Pool.Free` gives the exact condition under which that
  assertion fails, and `FreeFails` a use of the pool that gets there.
- `load_page` computes file offsets in 32 bits (kern/vm/addrspace.c line 283 and
  kern/syscall/loadelf.c line 264). When one wraps, a page is read from the wrong place or not
  at all, while loading whole segments is right. `WrapExample` gives a segment, `LoadGivesIff`
  and `DemandIsEager` the exact condition.

## Model

| member | source | states |
|---|---|---|
| `Coremap.Table.constructor` | os161-base-2.0.3/kern/vm/coremap.c:42-67 | the boot layout is valid: kernel frames occupied and pinned, the rest one free block |
| `Coremap.Table.FirstFit` | os161-base-2.0.3/kern/vm/coremap.c:80-85 | the walk over block heads ends at the lowest block that fits, or past the end when no block fits |
| `Coremap.Table.Take` | os161-base-2.0.3/kern/vm/coremap.c:126-141 | splitting and marking hands exactly the requested frames to the owner, changes no occupied frame, and keeps the table valid |
| `Coremap.Table.FindVictim` | os161-base-2.0.3/kern/vm/coremap.c:21-30 | the clock search ends; it fails exactly when the hand no longer heads a block or no frame is eligible; otherwise every frame it passed is ineligible |
| `Coremap.Table.GetVictim` | os161-base-2.0.3/kern/vm/coremap.c:21-35 | the victim is pinned and becomes the hand, nothing else changes; failure changes nothing |
| `Coremap.Table.GetFrames` | os161-base-2.0.3/kern/vm/coremap.c:75-141 | a block is granted if and only if one fits, and it is the lowest; else a victim for a single frame; else nothing changed. A request for no frames breaks the table exactly when a frame is free |
| `Coremap.EmptiedBroken` | os161-base-2.0.3/kern/vm/coremap.c:130-134 | recording a block with length 0 breaks the tiling of the frames |
| `Coremap.WalkStuck` | os161-base-2.0.3/kern/vm/coremap.c:80-85 | after that the first-fit walk for any positive number of frames reaches the broken block and never leaves it |
| `Coremap.RequestNothing` | os161-base-2.0.3/kern/vm/coremap.c:80-141 | a request for no frames and then a search: if a frame was free, the search arrives at the block of length 0 and stays there however long it runs |
| `Coremap.Table.Absorb` | os161-base-2.0.3/kern/vm/coremap.c:199-206 | the inner sweep loop merges following free blocks, keeps the partition and touches no occupied block |
| `Coremap.Table.Coalesce` | os161-base-2.0.3/kern/vm/coremap.c:196-210 | from any partition the sweep reaches one with no two free neighbours, occupied blocks untouched |
| `Coremap.Table.Free` | os161-base-2.0.3/kern/vm/coremap.c:172-212 | a frame being written out is only disowned; any other block is cleared and the table is coalesced again; the table stays valid exactly when the block was not one of the kernel's frames below the first |
| `Coremap.HeadOf` | os161-base-2.0.3/kern/vm/coremap.c:64-65 | every frame lies in exactly one block |
| `Coremap.BlocksDisjoint` | os161-base-2.0.3/kern/vm/coremap.c:130-141 | two blocks that share a frame are the same block, so allocations never overlap |
| `Coremap.UniqueLayout` | os161-base-2.0.3/kern/vm/coremap.c:196-210 | two valid tables with the same occupied blocks are equal: free runs have one representation |
| `Coremap.TakeThenFree` | os161-base-2.0.3/kern/vm/coremap.c:126-212 | allocating a block and freeing it restores the table exactly |
| `Tlb.ReplacedInTurn` | os161-base-2.0.3/kern/vm/vm_tlb.c:5-13 | in a full TLB up to 64 faults for new translations replace one slot each, in turn: all the new translations are there afterwards and the untouched slots are unchanged |
| `Tlb.Registers.Invalidate` | os161-base-2.0.3/kern/vm/vm_tlb.c:15-28 | empties the first slot that names the frame, and only that one |
| `Tlb.Registers.Flush` | os161-base-2.0.3/kern/vm/addrspace.c:129-147 | after as_activate no translation is left |
| `Tlb.Registers.Install` | os161-base-2.0.3/kern/vm/vm_project.c:219-246 | the slot written is the first match or free slot, else the round-robin victim; the counter branch taken is reported |
| `Tlb.InvalidateComplete` | os161-base-2.0.3/kern/vm/vm_tlb.c:15-28 | with one slot per frame, stopping at the first match removes every translation to the frame and no other |
| `Tlb.FillDistinct` | os161-base-2.0.3/kern/vm/vm_project.c:221-244 | a fill keeps at most one slot per page and per frame |
| `Swap.File.Set` | os161-base-2.0.3/kern/vm/swapfile.c:74-101 | stores into the first unreferenced slot with count 1; reports a full file without change |
| `Swap.File.Get` | os161-base-2.0.3/kern/vm/swapfile.c:41-71 | drops one reference and yields the contents of the slot |
| `PagingFaults.SwitchKeeps` | os161-base-2.0.3/kern/vm/addrspace.c:129-147 | a context switch, with its flush, keeps the paging invariant and every page's contents |
| `PagingFaults.WriteKeeps` | os161-base-2.0.3/kern/vm/vm_project.c:236-247 | a store through a translation changes the contents of that page of the running process and of no other |
| `PagingFaults.FaultKeeps` | os161-base-2.0.3/kern/vm/vm_project.c:141-208 | entering the fault handler keeps the invariant; the failing checks are the failing steps below |
| `PagingProcs.FailEarlyKeeps` | os161-base-2.0.3/kern/vm/vm_project.c:155-206 | a fault that fails for a bad address, a forbidden access, no memory or no frame ends the process and changes no page and no counter; so does a kernel request that finds nothing |
| `PagingProcs.FailLateKeeps` | os161-base-2.0.3/kern/vm/pt.c:79-87 | a fault that fails while its page is loaded ends the process; only that page can differ, and no counter moves |
| `PagingFaults.LookupKeeps` | os161-base-2.0.3/kern/vm/pt.c:106-153 | the lookup waits for a page being written out; it starts a load, starts a swap-in, or pins the frame; contents stay |
| `PagingEvict.GrabKeeps` | os161-base-2.0.3/kern/vm/coremap.c:80-142 | taking a free frame keeps the invariant and all contents |
| `PagingEvict.ClaimKeeps` | os161-base-2.0.3/kern/vm/coremap.c:21-35 | claiming a victim keeps the invariant and all contents |
| `PagingEvict.ReserveKeeps` | os161-base-2.0.3/kern/vm/swapfile.c:80-92 | reserving a slot for the victim keeps the invariant: the slot was named by nobody |
| `PagingEvict.StoreKeeps` | os161-base-2.0.3/kern/vm/swapfile.c:94-100 | writing the slot changes no page's contents |
| `PagingEvict.CommitKeeps` | os161-base-2.0.3/kern/vm/coremap.c:109-119 | moving the page to its slot and passing the frame on changes no page's contents, also when the page was freed meanwhile |
| `PagingEvict.DropKeeps` | os161-base-2.0.3/kern/vm/coremap.c:120-121 | the slot of a page freed meanwhile is given back |
| `PagingEvict.ZeroKeeps` | os161-base-2.0.3/kern/vm/coremap.c:122-124 | clearing the new frame changes no page's contents |
| `PagingLoad.InstallKeeps` | os161-base-2.0.3/kern/vm/pt.c:72-95 | a first touch makes the page valid; a stack page reads as zeros |
| `PagingLoad.FetchKeeps` | os161-base-2.0.3/kern/vm/swapfile.c:41-55 | giving up the slot reference before the read is harmless: the slot lock keeps the slot from reuse |
| `PagingLoad.ArriveKeeps` | os161-base-2.0.3/kern/vm/swapfile.c:64-70 | the frame now holds what the slot held |
| `PagingLoad.ReviveKeeps` | os161-base-2.0.3/kern/vm/swapfile.c:126-133 | the page is resident again with the same contents |
| `PagingLoad.HandOverKeeps` | os161-base-2.0.3/kern/vm/coremap.c:160-170 | a frame for the kernel leaves user pages alone; the thread goes on where it asked: outside a fault, in a fault, or in a fork |
| `PagingLoad.NestedFaultKeeps` | os161-base-2.0.3/kern/vm/pt.c:107-153 | the fault taken while loading finds the frame of the page being loaded |
| `PagingLoad.NestedFillKeeps` | os161-base-2.0.3/kern/vm/vm_project.c:219-247 | its TLB write keeps the TLB exact |
| `PagingLoad.LoadKeeps` | os161-base-2.0.3/kern/vm/addrspace.c:255-298 | copying the file part through the translation touches only the page being loaded |
| `PagingLoad.LoadedKeeps` | os161-base-2.0.3/kern/vm/pt.c:79-87 | a page whose load succeeded holds its initial contents, which over runs are those of the program the process was started with (PagingHistory.LoadedIsProgram) |
| `PagingLoad.FillKeeps` | os161-base-2.0.3/kern/vm/vm_project.c:219-247 | the final TLB write and unpin keep the TLB exact and all contents |
| `PagingProcs.SpawnKeeps` | os161-base-2.0.3/kern/vm/addrspace.c:51-77 | a new address space disturbs nobody |
| `PagingProcs.ForkKeeps` | os161-base-2.0.3/kern/vm/pt.c:164-168 | starting pt_copy keeps the invariant |
| `PagingProcs.ShareKeeps` | os161-base-2.0.3/kern/vm/pt.c:176-185 | a swapped page is shared: the child reads what the parent reads, and the count grows without wrapping |
| `PagingProcs.DuplicateKeeps` | os161-base-2.0.3/kern/vm/pt.c:185-195 | the child's page gets what the copy read, and no other page changes |
| `PagingProcs.ForkedKeeps` | os161-base-2.0.3/kern/vm/pt.c:199-201 | ending pt_copy keeps the invariant |
| `PagingProcs.DestroyKeeps` | os161-base-2.0.3/kern/vm/pt.c:39-47 | starting pt_destroy keeps the invariant |
| `PagingProcs.ReleaseKeeps` | os161-base-2.0.3/kern/vm/pt.c:48-52 | releasing one entry removes that page and changes no other |
| `PagingProcs.DestroyedKeeps` | os161-base-2.0.3/kern/vm/pt.c:53-59 | ending pt_destroy keeps the invariant |
| `PagingProcs.AskKeeps` | os161-base-2.0.3/kern/vm/coremap.c:160-163 | a kernel request for one frame, made at any time, for a row of a page table in a fault or for a row of the child's table in a fork, keeps the invariant and may evict |
| `PagingProcs.TakeKeeps` | os161-base-2.0.3/kern/vm/coremap.c:126-146 | a kernel block is taken from free frames only, also in a fault or a fork |
| `PagingProcs.GiveKeeps` | os161-base-2.0.3/kern/vm/coremap.c:172-212 | freeing a kernel block changes no page, also while a page table is destroyed |
| `PagingProcs.RefBound` | os161-base-2.0.3/kern/proc/proc.c:56 | a slot count never exceeds the number of processes, so the byte never wraps |
| `PagingRuns.StepTransparent` | os161-base-2.0.3/kern/vm/coremap.c:90-125 | every step keeps the invariant and changes the memory as processes see it only by its declared effect |
| `PagingRuns.RunInvariant` | os161-base-2.0.3/kern/vm/coremap.c:69-146 | every state of every run from boot satisfies the invariant |
| `PagingRuns.RunTransparent` | os161-base-2.0.3/kern/vm/coremap.c:90-125 | over every run the contents of all pages equal a flat memory without frames, slots, evictions or switches; what that memory holds at a first touch is tied to the program of the process by PagingHistory.LoadedIsProgram and PagingHistory.TouchedIsZero |
| `PagingRuns.RunKeepsPage` | os161-base-2.0.3/kern/vm/pt.c:134-153 | a page nobody stores to, copies over or frees keeps its contents across any interleaving |
| `PagingOwners.RunOwned` | os161-base-2.0.3/kern/vm/coremap.c:109-121 | every owned frame is the owner's page or is in the hands of the one thread bringing the page there |
| `PagingOwners.FramesMatchPages` | os161-base-2.0.3/kern/vm/coremap.c:109-121 | resident pages and owned frames name each other one to one; an evictable frame holds a resident page not being written out |
| `PagingResults.ReadSees` | os161-base-2.0.3/kern/vm/vm_project.c:236-247 | a load through the TLB reads what the flat memory holds |
| `PagingResults.TlbIsExact` | os161-base-2.0.3/kern/vm/vm_tlb.c:15-28 | in every state every translation of the running process is its page table's, and invalidating by first match is complete |
| `PagingResults.NoWriteToVictim` | os161-base-2.0.3/kern/vm/coremap.c:31-33 | a process in user mode cannot store to a page being written out |
| `PagingResults.FreeSlotUnused` | os161-base-2.0.3/kern/vm/swapfile.c:86-92 | a slot count is 0 exactly when no page and no eviction refers to the slot, so swap_set never reuses a live slot |
| `PagingResults.SlotOncePerTable` | os161-base-2.0.3/kern/vm/pt.c:179-182 | no page table names a slot twice |
| `PagingResults.HeldSlotCount` | os161-base-2.0.3/kern/vm/swapfile.c:92-96 | a slot held by an eviction in flight has exactly one reference |
| `PagingResults.FreedWhileEvicted` | os161-base-2.0.3/kern/vm/coremap.c:116-121 | a frame freed while being written out goes to the one thread that claimed it, and its slot becomes free |
| `PagingResults.StatsBalance` | os161-base-2.0.3/kern/vm/vm_stats.c:46-54 | in every run, with faults that succeed and faults that fail, the three printed identities hold whenever no fault is between lookup and TLB write |
| `PagingHistory.RunTold` | os161-base-2.0.3/kern/vm/addrspace.c:79-117 | over every run the running thread is the last one switched to, and the program each process loads its pages from is the one it was started with, or its parent's at the fork, both read off the labels |
| `PagingHistory.LoadedIsProgram` | os161-base-2.0.3/kern/vm/pt.c:79-86 | over every run, when load_page returns the page faulted on is a page of the program the process was started with, and its owner sees there what that program has |
| `PagingHistory.TouchedIsZero` | os161-base-2.0.3/kern/vm/pt.c:72-95 | over every run, the first touch of a page outside the program shows zeros at once; a page of the program is not seen before it is loaded |
| `PagingHistory.DutyFinished` | os161-base-2.0.3/kern/vm/vm_project.c:209-247 | over every run, a thread that faults on a page, copies its pages to a child or tears down a process stays at it, through every eviction and kernel request, until the TLB maps that very page to the frame in its page table (or the process is ended), the copy to that child ends, or no page of that process is left |
| `PagingCounters.CountersCount` | os161-base-2.0.3/kern/vm/vm_stats.c:22-26 | over every run each of the eight counters is the number of its events: translations written, into an empty slot or over another, pages found resident, zeroed, and read from the executable or the swap file |
| `PagingCounters.FreeSlotUsed` | os161-base-2.0.3/kern/vm/vm_project.c:223-238 | a fault counts as served by a free slot exactly when an empty slot comes into use |
| `PagingFork.CopiesSoFar` | os161-base-2.0.3/kern/vm/pt.c:168-198 | during a fork the child's pages are the parent's copied so far |
| `PagingFork.SpoiledHistory` | os161-base-2.0.3/kern/vm/pt.c:185-192 | over every run, the pages recorded as spoiled are exactly those copied after the parent's page had been evicted |
| `PagingFork.ForkExact` | os161-base-2.0.3/kern/vm/pt.c:164-202 | in every run the child starts with exactly the parent's pages, and each holds what the parent's holds unless the parent's page had been evicted when it was copied |
| `PagingFork.CopyFaithfulIff` | os161-base-2.0.3/kern/vm/pt.c:185-192 | the copy of a page is right for every swap file the invariant allows exactly when the parent's page is still resident at the copy |
| `PagingFork.ForkCopiesWrongPage` | os161-base-2.0.3/kern/vm/pt.c:185-192 | a run from boot after which the child has the kernel's frame 0 where the parent has the contents it stored, for any such contents |
| `PagingFork.BootExists` | os161-base-2.0.3/kern/vm/coremap.c:42-67 | the machine that run starts from exists |
| `PagingCode.SeekFrame` | os161-base-2.0.3/kern/vm/coremap.c:69-141 | what first fit or get_victim does to the frame table from a state of the invariant is a step of the protocol |
| `PagingCode.TakeBlock` | os161-base-2.0.3/kern/vm/coremap.c:126-146 | so is the allocation of a kernel block |
| `PagingCode.FreeBlock` | os161-base-2.0.3/kern/vm/coremap.c:172-212 | so is freeing it, which the invariant keeps out of the kernel's first frames |
| `PagingCode.FreePage` | os161-base-2.0.3/kern/vm/coremap.c:172-212 | so is freeing a user page, also while it is being written out |
| `PagingCode.WriteOut` | os161-base-2.0.3/kern/vm/swapfile.c:74-101 | swap_set is the reserving step followed by the storing step |
| `PagingCode.ShareSlot` | os161-base-2.0.3/kern/vm/swapfile.c:136-144 | swap_inc_ref is the sharing step of a fork, and its byte does not wrap |
| `PagingCode.ReadIn` | os161-base-2.0.3/kern/vm/swapfile.c:41-71 | swap_get is the fetching step followed by the arriving step |
| `PagingCode.InvalidateVictim` | os161-base-2.0.3/kern/vm/coremap.c:111-112 | the invalidation is the TLB part of the committing step |
| `PagingCode.FillTlb` | os161-base-2.0.3/kern/vm/vm_project.c:219-246 | the search, the write and the counter are the TLB part of the last step of a fault |
| `PagingCode.FlushTlb` | os161-base-2.0.3/kern/vm/addrspace.c:129-147 | the flush is the TLB part of a context switch |
| `Digits.EstimateBounds` | os161-base-2.0.3/common/gcc-millicode/qdivrem.c:185-210 | in any base and for any number of digits the three-by-two estimate is the true quotient digit or one more |
| `Divide.Estimate` | os161-base-2.0.3/common/gcc-millicode/qdivrem.c:193-210 | D3 yields the smaller of the three-by-two quotient and the largest digit; all intermediates fit an unsigned int |
| `Divide.TrialBounds` | os161-base-2.0.3/common/gcc-millicode/qdivrem.c:185-210 | the trial digit is the true digit or one more, and is a digit |
| `Divide.MultiplySubtract` | os161-base-2.0.3/common/gcc-millicode/qdivrem.c:217-223 | D4 subtracts qhat times the divisor modulo the window; the borrow appears exactly when the product is larger |
| `Divide.AddBack` | os161-base-2.0.3/common/gcc-millicode/qdivrem.c:230-238 | D6 adds the divisor back modulo the window |
| `Divide.DivideDigit` | os161-base-2.0.3/common/gcc-millicode/qdivrem.c:182-239 | one pass yields the exact quotient digit and leaves the exact remainder in place |
| `Divide.DivideDigits` | os161-base-2.0.3/common/gcc-millicode/qdivrem.c:179-240 | the loop over j yields all quotient digits and the remainder |
| `DigitShift.ShiftLeft` | os161-base-2.0.3/common/gcc-millicode/qdivrem.c:270-279 | shl multiplies the digits by a power of two, dropping what falls out |
| `DigitShift.ShiftRight` | os161-base-2.0.3/common/gcc-millicode/qdivrem.c:248-254 | the unnormalising loop divides the digits by a power of two |
| `LongDivision.ShortDivide` | os161-base-2.0.3/common/gcc-millicode/qdivrem.c:124-149 | the unrolled one-digit division is exact |
| `LongDivision.ShiftCount` | os161-base-2.0.3/common/gcc-millicode/qdivrem.c:169-171 | D1 finds the shift that brings the leading divisor digit to at least half the base |
| `LongDivision.Normalise` | os161-base-2.0.3/common/gcc-millicode/qdivrem.c:169-175 | both numbers are multiplied by the same power of two, nothing lost |
| `LongDivision.SkipZeros` | os161-base-2.0.3/common/gcc-millicode/qdivrem.c:157-158 | leading zero digits of the dividend are skipped without running past the divisor's length |
| `LongDivision.LongDivide` | os161-base-2.0.3/common/gcc-millicode/qdivrem.c:157-262 | Algorithm D with normalisation returns quotient and remainder for any divisor of two to four digits |
| `LongDivision.QDivRem` | os161-base-2.0.3/common/gcc-millicode/qdivrem.c:67-263 | for every dividend and nonzero divisor the results are u/v and u%v; a zero divisor traps |
| `SignedArith.DivLong` | os161-base-2.0.3/common/gcc-millicode/divdi3.c:44-62 | the quotient truncated toward zero, wrapped to 64 bits only for the most negative number divided by -1 |
| `SignedArith.ModLong` | os161-base-2.0.3/common/gcc-millicode/moddi3.c:45-62 | the remainder that matches truncated division, for all operands |
| `SignedArith.TruncModSign` | os161-base-2.0.3/common/gcc-millicode/moddi3.c:45-62 | the remainder has the sign of the dividend and is smaller than the divisor |
| `SignedArith.QuotientRange` | os161-base-2.0.3/common/gcc-millicode/divdi3.c:44-62 | only the most negative number divided by -1 leaves the range |
| `Multiply.ThreeProducts` | os161-base-2.0.3/common/gcc-millicode/muldi3.c:183-241 | the identity behind the three-product scheme, in any base |
| `Multiply.AddShifted` | os161-base-2.0.3/common/gcc-millicode/muldi3.c:223-232 | adding a shifted word in wrapping halves is exact modulo 2^64: the comparison finds the carry |
| `Multiply.SubtractShifted` | os161-base-2.0.3/common/gcc-millicode/muldi3.c:219-222 | subtracting a shifted word likewise: the comparison finds the borrow |
| `Multiply.AddLow` | os161-base-2.0.3/common/gcc-millicode/muldi3.c:233-235 | adding the low word: the comparison against the addend finds the carry |
| `Multiply.LMulQ` | os161-base-2.0.3/common/gcc-millicode/muldi3.c:183-241 | the exact 64-bit product of any two 32-bit words |
| `Multiply.MulUnsigned` | os161-base-2.0.3/common/gcc-millicode/muldi3.c:124-158 | the product of two magnitudes modulo 2^64 |
| `Multiply.MulLong` | os161-base-2.0.3/common/gcc-millicode/muldi3.c:99-164 | for every signed pair the product modulo 2^64 |
| `Hangman.Detector.Check` | os161-base-2.0.3/kern/thread/hangman.c:50-67 | the walk ends in an acyclic graph and finds the target exactly when a path leads to it |
| `Hangman.Detector.Wait` | os161-base-2.0.3/kern/thread/hangman.c:109-129 | the four outcomes, and the actor waits for the lockable only when that closes no cycle; acyclicity is kept |
| `Hangman.Detector.Acquire` | os161-base-2.0.3/kern/thread/hangman.c:131-157 | the panics; otherwise the actor holds the lockable and waits for nothing, and nothing else changes; acyclicity is kept |
| `Hangman.Detector.Release` | os161-base-2.0.3/kern/thread/hangman.c:159-182 | the panics; otherwise nobody holds the lockable; acyclicity is kept |
| `Hangman.Detector.Enroll` | os161-base-2.0.3/kern/include/hangman.h:58-59 | a fresh actor and a fresh lockable close no cycle |
| `Hangman.WaitCloses` | os161-base-2.0.3/kern/thread/hangman.c:50-67 | the new wait edge closes a cycle if and only if a path already led from the lockable to the actor |
| `Hangman.AcquireKeeps` | os161-base-2.0.3/kern/thread/hangman.c:153-154 | turning a wait edge into a hold edge closes no cycle |
| `Hangman.ReleaseKeeps` | os161-base-2.0.3/kern/thread/hangman.c:179 | dropping a hold edge closes no cycle |
| `Hangman.SomeoneCanRun` | os161-base-2.0.3/kern/thread/hangman.c:42-49 | in an acyclic graph every chain of waiting ends at an actor that can go on |
| `Hangman.RunAcyclic` | os161-base-2.0.3/kern/thread/hangman.c:109-182 | after every panic-free sequence of waits, acquires and releases the graph is acyclic and somebody can always go on |
| `Hangman.RunTold` | os161-base-2.0.3/kern/thread/hangman.c:109-182 | after every such sequence the graph says who holds and who waits for what as the calls do |
| `Hangman.Detector.Crosswise` | os161-base-2.0.3/kern/thread/hangman.c:61-65 | two actors that take two locks crosswise: the second to ask for the other's lock is reported as a deadlock |
| `Synch.BlockOnChannels` | os161-base-2.0.3/kern/thread/thread.c:1003-1017 | going to sleep keeps every sleeper on exactly its channel, once |
| `Synch.WakeOneOnChannels` | os161-base-2.0.3/kern/thread/thread.c:1022-1046 | so does waking the head of a channel |
| `Synch.WakeAllOnChannels` | os161-base-2.0.3/kern/thread/thread.c:1051-1079 | waking all empties the channel, wakes exactly its sleepers and nobody else |
| `Synch.WakeOneCounts` | os161-base-2.0.3/kern/thread/thread.c:1022-1046 | waking the head adds one to the threads on their way back |
| `Synch.TryPShape` | os161-base-2.0.3/kern/thread/synch.c:102-120 | P, taking a unit or going to sleep, keeps sleepers, spinlocks and owners consistent |
| `Synch.TryLockShape` | os161-base-2.0.3/kern/thread/synch.c:206-212 | lock_acquire, taking the lock or going to sleep, does too |
| `Synch.LetGoCvShape` | os161-base-2.0.3/kern/thread/synch.c:320-323 | cv_wait giving up the lock under the spinlock does too |
| `Synch.BlockCvShape` | os161-base-2.0.3/kern/thread/synch.c:324-325 | cv_wait going to sleep and freeing the spinlock does too |
| `Synch.StepSem` | os161-base-2.0.3/kern/thread/synch.c:88-135 | every step keeps, for every semaphore, the balance of units and the bound on unclaimed units; V adds one unit, a P takes one if there is one, nothing else changes the count |
| `Synch.StepLock` | os161-base-2.0.3/kern/thread/synch.c:189-239 | every step keeps: a free lock with sleepers has a woken thread |
| `Synch.StepInv` | os161-base-2.0.3/kern/thread/synch.c:88-368 | every step of every thread keeps the whole invariant |
| `SynchRuns.RunInv` | os161-base-2.0.3/kern/thread/synch.c:88-368 | every state of every schedule satisfies the invariant |
| `SynchRuns.LockLaw` | os161-base-2.0.3/kern/thread/synch.c:189-239 | a free lock with sleepers has a woken thread on its way |
| `SynchRuns.MutualExclusion` | os161-base-2.0.3/kern/thread/synch.c:189-239 | a lock passes to another thread only after its owner released it, or gave it up in cv_wait |
| `SynchRuns.NotifierSees` | os161-base-2.0.3/kern/thread/synch.c:335-368 | whoever can signal or broadcast finds on the channel every waiter that has released the lock; broadcast wakes them all |
| `SynchRuns.SignalNotLost` | os161-base-2.0.3/kern/thread/synch.c:311-368 | a signal given after a waiter released the lock finds it on the channel, unless an earlier signal woke it |
| `SynchRuns.ChannelStep` | os161-base-2.0.3/kern/thread/thread.c:1003-1079 | sleepers join at the tail and leave from the head or all together |
| `SynchRuns.InTurn` | os161-base-2.0.3/kern/thread/thread.c:1003-1046 | a sleeper behind p others is woken by the (p+1)st wakeup at the latest |
| `SynchHistory.UnitsStep` | os161-base-2.0.3/kern/thread/synch.c:88-135 | which steps count as a V and as a P that returned; a P returns exactly when the count is not 0 |
| `SynchHistory.SemaphoreLaw` | os161-base-2.0.3/kern/thread/synch.c:88-135 | over every schedule the count is the initial count plus the calls of V less the calls of P that returned, counted on the labels; a P returns exactly when that is not 0; while threads sleep, the count is at most the woken threads yet to retry |
| `SynchHistory.LockHistory` | os161-base-2.0.3/kern/thread/synch.c:189-239 | over every schedule the owner of a lock is the last thread that came back from lock_acquire, unless it released the lock since or gave it up in cv_wait; lock_acquire returns exactly when there is no owner |
| `SynchHistory.CvWaitReturns` | os161-base-2.0.3/kern/thread/synch.c:311-331 | over every schedule a thread that entered cv_wait with a lock next runs only when it owns that lock again |
| `ThreadList.Node.Thread` | os161-base-2.0.3/kern/thread/threadlist.c:39-48 | a fresh node is on no list |
| `ThreadList.List.constructor` | os161-base-2.0.3/kern/thread/threadlist.c:60-72 | an empty list between two bookends |
| `ThreadList.List.IsEmpty` | os161-base-2.0.3/kern/thread/threadlist.c:91-97 | true exactly for a list without threads |
| `ThreadList.InsertAfterNode` | os161-base-2.0.3/kern/thread/threadlist.c:105-120 | four pointer writes splice the node in after its neighbour; all links stay consistent both ways |
| `ThreadList.InsertBeforeNode` | os161-base-2.0.3/kern/thread/threadlist.c:125-140 | likewise before its neighbour |
| `ThreadList.RemoveNode` | os161-base-2.0.3/kern/thread/threadlist.c:145-157 | unlinking leaves the rest consistent and the node loose |
| `ThreadList.List.AddHead` | os161-base-2.0.3/kern/thread/threadlist.c:162-170 | the sequence gains the thread in front |
| `ThreadList.List.AddTail` | os161-base-2.0.3/kern/thread/threadlist.c:172-180 | the sequence gains the thread at the end |
| `ThreadList.List.RemHead` | os161-base-2.0.3/kern/thread/threadlist.c:182-198 | the first thread leaves, or null from an empty list |
| `ThreadList.List.RemTail` | os161-base-2.0.3/kern/thread/threadlist.c:200-216 | the last thread leaves, or null from an empty list |
| `ThreadList.List.InsertAfter` | os161-base-2.0.3/kern/thread/threadlist.c:218-224 | insertion after a given thread |
| `ThreadList.List.InsertBefore` | os161-base-2.0.3/kern/thread/threadlist.c:226-232 | insertion before a given thread |
| `ThreadList.List.Remove` | os161-base-2.0.3/kern/thread/threadlist.c:234-240 | removal of a given thread |
| `Migration.Machine.Interfere` | os161-base-2.0.3/kern/thread/thread.c:939-943 | whatever other processors do between two locked sections, threads and processor fields stay consistent, nobody is lost, and the own queue only grows at its end |
| `Migration.Machine.Count` | os161-base-2.0.3/kern/thread/thread.c:860-870 | own and total counts are those of one look at each queue, taken one after the other; whatever happens meanwhile the own queue is never shorter than counted |
| `Migration.Machine.TakeVictims` | os161-base-2.0.3/kern/thread/thread.c:877-884 | the surplus leaves the end of the own queue in order; it is never more than the queue holds, which Count and Interfere establish |
| `Migration.Machine.Fill` | os161-base-2.0.3/kern/thread/thread.c:891-933 | one target queue grows at its tail, never above the share; the victims list is never empty when taken from; the running thread is put aside |
| `Migration.Machine.Deal` | os161-base-2.0.3/kern/thread/thread.c:886-935 | all targets together, with other processors at work in between: nobody is lost, every thread sent went to another queue shorter than the share, in order, the running thread never; undisturbed, the queues are filled in order |
| `Migration.Machine.GiveBack` | os161-base-2.0.3/kern/thread/thread.c:944-950 | leftovers return to the own queue |
| `Migration.Machine.Migrate` | os161-base-2.0.3/kern/thread/thread.c:877-954 | everything after the counting, with other processors at work in between: the outcome below |
| `Migration.Machine.ConsiderMigration` | os161-base-2.0.3/kern/thread/thread.c:851-954 | under any interference: the share is the least number that given to every processor covers what was counted, exactly the surplus over it is taken, threads are conserved up to those that came and went, at least a share stays, the surplus is sent in order to queues shorter than the share or comes back, the running thread is never sent; without interference the outcome is balanced and the own queue ends at no more than the share, but for the running thread |
| `Migration.FillDealing` | os161-base-2.0.3/kern/thread/thread.c:891-936 | one filling section keeps the ledger, the order and the bound, from any state interference can produce |
| `Migration.NothingLeft` | os161-base-2.0.3/kern/thread/thread.c:872-876 | pigeonhole on the rounded-up share: everything sent finds room |
| `Migration.RunningStays` | os161-base-2.0.3/kern/thread/thread.c:894-921 | the running thread is on a queue after exactly when it was before |
| `Migration.BalancedOwn` | os161-base-2.0.3/kern/thread/thread.c:872-950 | of its own queue an undisturbed call keeps what is within the share, and the running thread if that was beyond it |
| `Migration.ShareCovers` | os161-base-2.0.3/kern/include/lib.h:194 | the share is the average rounded up: total <= n * share < total + n |
| `Spl.Machine.Raise` | os161-base-2.0.3/kern/thread/spl.c:86-104 | interrupts go off on the first raise |
| `Spl.Machine.Lower` | os161-base-2.0.3/kern/thread/spl.c:106-124 | interrupts go on only on the last lower |
| `Spl.Machine.Splx` | os161-base-2.0.3/kern/thread/spl.c:131-160 | returns the old level; the current thread has the new one and its count follows by exactly the difference; interrupts are off at the high level and on exactly when the count is 0; no other thread, processor or lock changes |
| `Spl.Machine.StartAcquire` | os161-base-2.0.3/kern/thread/spinlock.c:75-93 | interrupts are off and the lock is counted before the spin loop |
| `Spl.Machine.FinishAcquire` | os161-base-2.0.3/kern/thread/spinlock.c:95-117 | the free lock becomes this processor's |
| `Spl.Machine.Release` | os161-base-2.0.3/kern/thread/spinlock.c:127-142 | the lock is free, one less is owed, interrupts go on exactly if nothing is owed |
| `Spl.Machine.Startup` | os161-base-2.0.3/kern/thread/thread.c:738-764 | a new thread's two counts are used up exactly: it starts with count 0 and interrupts on |
| `Spl.LevelledKeeps` | os161-base-2.0.3/kern/arch/mips/locore/trap.c:170-196 | splx and the adjustment around interrupts keep the accounting; that they set the level is in Spl.Machine.Splx and Spl.RunTold |
| `Spl.SpinningKeeps` | os161-base-2.0.3/kern/thread/spinlock.c:75-93 | starting to acquire keeps the accounting |
| `Spl.GotKeeps` | os161-base-2.0.3/kern/thread/spinlock.c:95-117 | getting the lock keeps it |
| `Spl.LetGoKeeps` | os161-base-2.0.3/kern/thread/spinlock.c:127-142 | releasing in any order keeps it, and no count goes below zero |
| `Spl.SwitchedKeeps` | os161-base-2.0.3/kern/thread/thread.c:562-728 | handing the processor to another thread keeps it: the run queue lock is the newcomer's to release |
| `Spl.ForkedKeeps` | os161-base-2.0.3/kern/thread/thread.c:534-539 | the extra increment in thread_fork is what the accounting needs |
| `Spl.RunAccounted` | os161-base-2.0.3/kern/thread/spl.c:61-160 | over every run each thread's count is its level plus the spinlocks it has still to release |
| `Spl.InterruptLaw` | os161-base-2.0.3/kern/thread/spl.c:61-160 | interrupts are on exactly when the running thread's level is low and it holds and awaits no spinlock |
| `Spl.RunTold` | os161-base-2.0.3/kern/thread/spl.c:61-160 | over every run a thread's level is that of the last splx, trap or return from a trap while it ran, and who runs, who holds and who spins on a lock is what the labels say |
| `Spl.InterruptHistory` | os161-base-2.0.3/kern/thread/spl.c:61-83 | over every run, on the labels alone: a processor takes interrupts exactly when its thread was last set to level 0, every lock it got was dropped again, in any order, and it spins on none |
| `Spl.Machine.HighAndBack` | os161-base-2.0.3/kern/thread/spl.c:131-160 | s = splhigh(); splx(s) restores the whole state, with interrupts off in between |
| `Heap.TakePage` | os161-base-2.0.3/kern/vm/kmalloc.c:924-942 | handing out the first free block keeps the page consistent |
| `Heap.ReturnPage` | os161-base-2.0.3/kern/vm/kmalloc.c:1116-1138 | putting a block back at the head of the free list keeps the page consistent |
| `Heap.AllFree` | os161-base-2.0.3/kern/vm/kmalloc.c:1140-1141 | free blocks never outnumber blocks, and when they are as many nothing on the page is in use |
| `Heap.SomeInUse` | os161-base-2.0.3/kern/vm/kmalloc.c:1140-1141 | with fewer free blocks than blocks some block of the page is in use |
| `Heap.FreshPage` | os161-base-2.0.3/kern/vm/kmalloc.c:989-1008 | the loop over a fresh page builds a list of all blocks, last to first |
| `Heap.TakeHeap` | os161-base-2.0.3/kern/vm/kmalloc.c:924-942 | the whole heap stays consistent when a block is handed out |
| `Heap.ReturnHeap` | os161-base-2.0.3/kern/vm/kmalloc.c:1116-1138 | and when a block is returned |
| `Heap.ReleaseHeap` | os161-base-2.0.3/kern/vm/kmalloc.c:1141-1147 | and when an empty page is given back |
| `Heap.FreshHeap` | os161-base-2.0.3/kern/vm/kmalloc.c:989-1014 | and when a fresh page is added |
| `Heap.LiveDisjoint` | os161-base-2.0.3/kern/vm/kmalloc.c:869-1018 | blocks in use never overlap and are as large as was asked for |
| `Heap.SameCount` | os161-base-2.0.3/kern/vm/kmalloc.c:580-603 | the by-size lists together hold as many pages as the list of all pages |
| `Kmalloc.BlockType` | os161-base-2.0.3/kern/vm/kmalloc.c:850-867 | the smallest block size that is large enough |
| `PageLists.Unlink` | os161-base-2.0.3/kern/vm/kmalloc.c:828-844 | following and rewriting the links removes the descriptor from its list and nothing else, and touches no link outside the list |
| `PageLists.PushLinks` | os161-base-2.0.3/kern/vm/kmalloc.c:1009-1014 | a new descriptor in front of both lists leaves all lists linked |
| `Kmalloc.Kheap.constructor` | os161-base-2.0.3/kern/vm/kmalloc.c:340-346 | the empty heap |
| `Kmalloc.Kheap.TakeFrom` | os161-base-2.0.3/kern/vm/kmalloc.c:922-953 | the code at doalloc returns an unused block and updates its page |
| `Kmalloc.Kheap.Find` | os161-base-2.0.3/kern/vm/kmalloc.c:914-920 | the first page of the size with a free block, or none when there is none |
| `Kmalloc.Kheap.SubpageKmalloc` | os161-base-2.0.3/kern/vm/kmalloc.c:909-957 | returns 0 exactly when every page of the smallest size that fits has no free block; otherwise a new block in use, of that size, with no page, no descriptor and no other block added or changed |
| `Kmalloc.Kheap.LayFreeList` | os161-base-2.0.3/kern/vm/kmalloc.c:998-1005 | the free list is threaded through the page and nothing outside it is written |
| `Kmalloc.Kheap.InstallPage` | os161-base-2.0.3/kern/vm/kmalloc.c:989-1014 | a fresh page joins both lists |
| `Kmalloc.Kheap.SubpageFresh` | os161-base-2.0.3/kern/vm/kmalloc.c:967-1018 | the rest of subpage_kmalloc: a new block on the fresh page, or failure, only when every descriptor is taken or no page for descriptors can be had |
| `Kmalloc.Kheap.Others` | os161-base-2.0.3/kern/vm/kmalloc.c:966-978 | while the lock is dropped other threads may allocate, free and write: the heap stays consistent and nothing the caller holds is freed, handed out again or written to |
| `Kmalloc.Kheap.SmallKmalloc` | os161-base-2.0.3/kern/vm/kmalloc.c:890-1018 | subpage_kmalloc with other threads at work between its two sections: a free block of the size is handed out whatever memory there is, without a new page or descriptor; else the block is on the page granted, or the request fails; the block returned is in nobody's hands when it is handed out |
| `Kmalloc.Kheap.Kmalloc` | os161-base-2.0.3/kern/vm/kmalloc.c:1169-1206 | small requests become a new block, of a page with room if there is one whatever memory there is, large ones whole pages; failure changes nothing of what others hold; a size whose rounding wraps gets a pointer with no page behind it; as long as no page of descriptors is refused, a descriptor is taken exactly when it stands for a heap page |
| `Kmalloc.PagesCover` | os161-base-2.0.3/kern/vm/kmalloc.c:1186-1187 | the pages asked for cover the request exactly when the rounding does not wrap; otherwise there are none |
| `Kmalloc.NeededIff` | os161-base-2.0.3/kern/vm/kmalloc.c:1140-1141 | a page has no block in use exactly when its free count says so |
| `Kmalloc.Kheap.FindPage` | os161-base-2.0.3/kern/vm/kmalloc.c:1072-1091 | the heap page an address is on, or none |
| `Kmalloc.Kheap.RemoveLists` | os161-base-2.0.3/kern/vm/kmalloc.c:820-845 | the descriptor leaves both lists |
| `Kmalloc.Kheap.Forget` | os161-base-2.0.3/kern/vm/kmalloc.c:1143-1144 | the descriptor leaves both lists and its bit is cleared, unless freepageref fails |
| `Kmalloc.Kheap.SubpageKfree` | os161-base-2.0.3/kern/vm/kmalloc.c:1024-1160 | recognises exactly its own pointers; the block is free again, and its page is given back, and its descriptor dropped, exactly when no block of the page is left in use; it cannot fail while every root with descriptors taken has its page |
| `Kmalloc.Kheap.Kfree` | os161-base-2.0.3/kern/vm/kmalloc.c:1208-1223 | every pointer goes back to the allocator that issued it; a heap page is given back exactly when no block of it is left in use; it cannot fail while every root with descriptors taken has its page |
| `Kmalloc.Kheap.ClientWrite` | os161-base-2.0.3/kern/vm/kmalloc.c:142-144 | whatever a client writes inside its blocks, the heap stays consistent |
| `Kmalloc.Kheap.CheckSubpage` | os161-base-2.0.3/kern/vm/kmalloc.c:493-568 | the runtime check of a page ends and passes, with the page inside KSEG0 |
| `Kmalloc.Kheap.CheckSize` | os161-base-2.0.3/kern/vm/kmalloc.c:587-594 | the walk over the pages of one size passes, within the number of descriptors |
| `Kmalloc.Kheap.CheckSubpages` | os161-base-2.0.3/kern/vm/kmalloc.c:579-603 | the runtime check of the heap passes: both counts stay within the number of descriptors and agree |
| `Kmalloc.FewPages` | os161-base-2.0.3/kern/vm/kmalloc.c:591-598 | there are never more heap pages than descriptors |
| `Kmalloc.BigAndSmall` | os161-base-2.0.3/kern/vm/kmalloc.c:1187-1204 | a block and a whole-page allocation have no byte in common |
| `PageRefs.Pool.constructor` | os161-base-2.0.3/kern/vm/kmalloc.c:213 | no descriptor in use |
| `PageRefs.Pool.Alloc` | os161-base-2.0.3/kern/vm/kmalloc.c:256-298 | the lowest free descriptor under a root with a page; none when all are in use, or when the page cannot be had, and then the bit stays set |
| `PageRefs.Pool.Free` | os161-base-2.0.3/kern/vm/kmalloc.c:303-337 | the descriptor's bit is cleared and its root's count follows; an assertion fails exactly when an earlier root has descriptors taken but no page |
| `PageRefs.FreeFails` | os161-base-2.0.3/kern/vm/kmalloc.c:280-315 | 256 requests without a page for the first root, one with a page for the second, and giving that descriptor back fails |
| `PageRefs.TakenInOrder` | os161-base-2.0.3/kern/vm/kmalloc.c:264-292 | descriptors are handed out in order |
| `PageRefs.TakeThenClear` | os161-base-2.0.3/kern/vm/kmalloc.c:256-337 | freeing the descriptor just taken restores the bitmap |
| `LoadPage.LoadSegment` | os161-base-2.0.3/kern/syscall/loadelf.c:84-152 | copies the file part, clipped to the memory size; fails exactly when there is something to read and the file is too short |
| `LoadPage.Load` | os161-base-2.0.3/kern/vm/addrspace.c:255-298 | finds the segment and clips to the page, the segment and the file with offsets that wrap; fails exactly when the file is too short for what it then reads |
| `LoadPage.PageLoadedByte` | os161-base-2.0.3/kern/vm/addrspace.c:264-292 | one load copies from the offset the code computes, within its page, and touches nothing else |
| `LoadPage.LoadGivesIff` | os161-base-2.0.3/kern/vm/addrspace.c:283-289 | a page gets the bytes its segment specifies from every file of that length exactly when no offset that matters wraps in 32 bits |
| `LoadPage.EagerByte` | os161-base-2.0.3/kern/syscall/loadelf.c:279-311 | loading whole segments gives the program image: file bytes, then zeros |
| `LoadPage.DemandByte` | os161-base-2.0.3/kern/vm/addrspace.c:255-298 | after any sequence of faults a touched page holds what one load of it leaves, and the others zeros |
| `LoadPage.DemandIsEager` | os161-base-2.0.3/kern/vm/addrspace.c:255-298 | in whatever order pages are faulted in, all loads succeed and each page reads as if everything had been loaded at once, for every file of that length, exactly when no offset of a page faulted in wraps |
| `LoadPage.SmallOffsetsFit` | os161-base-2.0.3/kern/include/addrspace.h:59-63 | segments whose offset plus extent stays below 2^32 never wrap |
| `LoadPage.WrapExample` | os161-base-2.0.3/kern/vm/addrspace.c:283-289 | a segment and a page for which demand loading reads the start of the file where eager loading leaves zero |
| `Numeral.ValueOfText` | os161-base-2.0.3/common/libc/printf/__printf.c:436-457 | the digits printed have the value of the number, in any base |
| `Numeral.TextUnique` | os161-base-2.0.3/common/libc/printf/__printf.c:436-457 | different numbers print differently |
| `Numeral.TextLength` | os161-base-2.0.3/common/libc/printf/__printf.c:76-84 | a number below base^k has at most k digits |
| `Printf.FitsBuffer` | os161-base-2.0.3/common/libc/printf/__printf.c:76-84 | 22 digits and a NUL always fit the 23-byte buffer in base 8, 10 and 16 |
| `Printf.Digitize` | os161-base-2.0.3/common/libc/printf/__printf.c:420-468 | the right-to-left loop stays inside the buffer and leaves the text of the number |
| `Printf.Snp.Send` | os161-base-2.0.3/common/libc/printf/snprintf.c:73-93 | the buffer holds the longest prefix of everything sent that fits |
| `Printf.Pf.Print` | os161-base-2.0.3/common/libc/printf/__printf.c:145-150 | the text is sent and counted |
| `Printf.Pf.EndField` | os161-base-2.0.3/common/libc/printf/__printf.c:156-169 | every setting is back to its default |
| `PrintfFields.ModifiersMean` | os161-base-2.0.3/common/libc/printf/__printf.c:181-233 | in any string of modifiers # and - count wherever they stand, the digits together are the width, zero fill is on exactly when the first digit is 0, and the size is told by what follows the last z |
| `PrintfFields.FieldRendered` | os161-base-2.0.3/common/libc/printf/__printf.c:497-563 | a format of one numeric field prints its argument as the modifiers together say |
| `Printf.Pf.GetNum` | os161-base-2.0.3/common/libc/printf/__printf.c:241-311 | magnitude and sign of the argument at its width, also for the most negative number |
| `PrintfFields.AlternateForm` | os161-base-2.0.3/common/libc/printf/__printf.c:324-343 | what %#o, %#u or %#x prints, with any size, is an integer constant of C with the value of the argument |
| `Printf.Pf.FillOut` | os161-base-2.0.3/common/libc/printf/__printf.c:349-357 | exactly the asked number of fill characters |
| `Printf.Pf.PrintStuff` | os161-base-2.0.3/common/libc/printf/__printf.c:366-404 | prefixes, padding and text in the right order |
| `Printf.Pf.PrintNum` | os161-base-2.0.3/common/libc/printf/__printf.c:414-491 | sign, base prefix and digits, padded |
| `Printf.Pf.SendChar` | os161-base-2.0.3/common/libc/printf/__printf.c:497-563 | one format character emits what the format's meaning says and leaves the right field state |
| `Printf.Pf.Vprintf` | os161-base-2.0.3/common/libc/printf/__printf.c:570-592 | the whole output is the meaning of the format, and its length is returned |
| `Printf.Vsnprintf` | os161-base-2.0.3/common/libc/printf/snprintf.c:98-142 | a NUL-terminated longest fitting prefix, nothing past it, and the full length as result |
| `Printf.PaddedWidth` | os161-base-2.0.3/common/libc/printf/__printf.c:371-382 | a field is as wide as asked or as its text needs |
| `PrintfItems.FormatPrints` | os161-base-2.0.3/common/libc/printf/__printf.c:497-592 | a format of literal text, %%, and string, character and number fields with any modifiers, any number of them, prints the items in order, each field with the argument at its place |
| `PrintfItems.PaddedInField` | os161-base-2.0.3/common/libc/printf/__printf.c:366-404 | a string or character stands in a field as wide as the digits of the modifiers say, left after a -, filled with zeros exactly when the first digit is 0 |
| `Atoi.Atoi` | os161-base-2.0.3/common/libc/stdlib/atoi.c:49-101 | the int that blanks, sign and digits stand for, in 32 bits |
| `Atoi.RoundTrip` | os161-base-2.0.3/common/libc/stdlib/atoi.c:49-101 | atoi reads back every int, whatever blanks come before and whatever follows the digits |
| `PrintfAtoi.PrintThenRead` | os161-base-2.0.3/common/libc/stdlib/atoi.c:49-101 | for every int n, atoi of "%d" formatted n is n |
| `PrintfAtoi.FieldRoundTrip` | os161-base-2.0.3/common/libc/printf/__printf.c:386-403 | for a format of one %d field with any modifiers, atoi reads back the number exactly when the modifiers do not ask for zeros on the right beyond the text, or the number is 0 |
| `PrintfAtoi.PrintAndRead` | os161-base-2.0.3/common/libc/printf/snprintf.c:98-142 | snprintf with %d into a buffer and atoi of the buffer give the number back when it fits with its NUL, which it always does in 12 characters; otherwise atoi reads the number cut off |
| `PrintfAtoi.WrongExample` | os161-base-2.0.3/common/libc/printf/__printf.c:400-403 | "%-05d" of 42 is read back as another number |
| `PrintfAtoi.ShiftedDiffers` | os161-base-2.0.3/common/libc/printf/__printf.c:400-403 | an int other than 0 with zeros appended is never the same int, even in 32-bit wrap-around |

## Left out

- Paging on several processors: interrupts are masked locally and TLB shootdown panics.
- I/O errors of the swap file and a full swap file (the kernel panics), running out of memory inside `pt_copy`, and the retries before a request for a frame gives up.
- Which accesses fail: a fault may fail at its checks in any state. The TLB dirty bit is not modelled.
- Several threads in one process: each process has one thread, so the page table lock never blocks.
- The choice of block and of victim inside the paging protocol is left open (any block that fits, any eligible frame); `Coremap` models the choices the code makes and `PagingCode` shows they are allowed.
- In `pt_destroy` the test of an entry and its release are one step, and in `pt_copy` the child's entry becomes valid when its contents are copied.
- The unpinning at the end of a fault may or may not happen in the model; the code decides by a flag whose storage it shares with another field.
- The pages a program starts from are given to `PagingProcs.SpawnKeeps` as values; `LoadPage` shows how load_page produces them.
- Device drivers, file systems, console, system calls, boot and the assembly parts; swap storage is an array of pages.
- Fairness and timing: no claim that a woken thread runs, or that a spinning processor gets the lock.
- Migration: interprocessor interrupts to idle processors.
- Spl: the window in which an idle processor flips interrupts on and off, and the time before the first processor exists.
- Synch: priorities and the order in which woken threads run; thread creation and exit. sem_create, lock_create and their counterparts only allocate.
- Heap: GUARDS and LABELS are compiled out; overwriting freed blocks with a pattern is not modelled.
- PageRefs.Pool.Alloc: other threads may get in while the page for the descriptors of a root is allocated; the model takes the call as one step, also inside Kmalloc.Kheap.SmallKmalloc.
- ThreadList: a thread and its embedded node are one object.
- PrintfFields.ModifiersMean: the field width is unbounded, where the code's int would overflow.
- Printf.Pf.GetNum: an argument that is missing or of the wrong kind, undefined in C, reads as 0.
- Printf.Pf.Vprintf: the character count is unbounded, where the code's int would overflow.
- LoadPage.Load: covers addresses inside some segment; the code asserts that.
- proc_search_pid, bswap64, bitmap.c, array.c, uio.c, the string functions and the one-line 64-bit helpers: easy members, or not relied on.
