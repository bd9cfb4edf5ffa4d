# A verified model of the compiler and kernel shadow stack

The repository keeps a second copy of return addresses where ordinary stores cannot reach it. Two
compiler passes make that so, a kernel module hands out the memory, and a small user-space runtime
sets the process up. This project models the three and proves what they are for.

- **Compiler.** `StoreMasking` gives a semantics to SSA control-flow graphs, `StorePass` is the pass
  over them, and `MaskingSoundness` has the dominance argument and the simulation. `X86` is a small
  machine with the emitted prologue and epilogue, `X86Pass` the insertion in place,
  `ReturnIntegrity` and `TrapRefinement` runs of calls, returns and stores, `InstrumentedRuns` the
  execution of the pass's output as such a run. `EndToEnd` joins the two passes and the kernel's
  arena, with `StackMemory` for a window as the machine's memory has it. `Words` and `Memory` hold
  64-bit words and byte memory.
- **Kernel.** `PageTables` and `RangeWalks` give five-level tables and a hardware walk as the
  meaning of a table; `PageMapping`, `PageRemoval` and `PageFreeing` are the walkers of the module,
  each proved to be an update of the flat address space. `PageAlloc` is the three-phase page
  allocation. `Arena` is the allocator as a transition system: threads inside every entry point at
  once, one access at a time, with failures chosen by the environment. `ArenaReferences`,
  `ArenaOwnership`, `ArenaThreads`, `ArenaFreeList`, `ArenaTranslation`, `ArenaPages` and `ArenaRuns`
  hold its invariants and what follows for every run, `ArenaSafety` when a run uses something freed,
  `ArenaRaces` runs that do, `ArenaBytes` what is on a stack. `ForkCopy` follows one sa_fork through the arena, and
  `ForkHandshake` puts parent, child and their pipe on top of it.
- **User space.** `MemPool` is the concurrent chunk pool, `Mapping` the choice of an address window,
  `StackRelocation` the move of the initial process stack.

A word on form. Code that updates things in place is written as classes and methods with loops; the
kernel's concurrent operations and the pool are step relations, since what matters there is every
interleaving. Page tables are trees handed from call to call. In `PageFreeing` the loop over pud
entries ends after its first round, as the code has it (lkm/core/api.c:316), not over the range as
the comment above it says (lkm/core/api.c:373-374); what is freed is stated for the code as it is.
The loop over top-level entries stays inside the table exactly for ranges within one 2^57 bytes; the
call made when an allocator is destroyed, over all of the address space, does not.

Three pointers of the kernel module are followed without anything being held. alloc_get reads the
reference count of what alloc_find returned (lkm/core/api.c:490-491). sa_fork looks its parent up
the same way, takes no reference, and later takes that allocator's al_lock and searches its table
(lkm/core/api.c:741-746, 764-765). And the search reads, and copies from, entries that a failing
sa_fork frees without al_lock (lkm/core/api.c:762-769, 800-805). So "nothing is used after it has been
freed" is false of the code as it stands. `ArenaRaces` has a run from the start for each of the three
in which it fails. `ArenaSafety` has the exact condition under which it holds, for every run, and
waits that always ensure it: alloc_destroy waits for calls that have looked the allocator up, to get
it or to search it, and a failing sa_fork takes al_lock.

## Model

| member | source | states |
|---|---|---|
| `Words.MaskedBelow` | shadow_stack/ShadowStack.cpp:89-92 | a masked address is below 2^47, and an address below it is not changed |
| `Words.HighBitsClear` | shadow_stack/ShadowStack.cpp:101-124 | no bit outside the mask is set exactly when the word is below 2^47 |
| `MaskingSoundness.SkipIsSafe` | shadow_stack/ShadowStack.cpp:101-124 | a store skipped for its known bits or its range has an address masking would not change |
| `MaskingSoundness.NoRedefinition` | shadow_stack/ShadowStack.cpp:126-138 | between the last visit of a dominating mask and the store the pointer is not redefined, on any path, loops included |
| `MaskingSoundness.ReuseIsCurrent` | shadow_stack/ShadowStack.cpp:126-138 | a reused masked pointer equals the current value of the store's own pointer ANDed with the mask |
| `MaskingSoundness.StepSimulates` | shadow_stack/ShadowStack.cpp:63-99 | each step of the rewritten function simulates the function with every visited store masked |
| `MaskingSoundness.PassRefinesMasking` | shadow_stack/ShadowStack.cpp:41-99 | for every run along which the analyses were right, and any mix of the three skips, the rewritten function makes the writes, in order, of the function with every visited store masked |
| `MaskingSoundness.SoundFactsSuffice` | shadow_stack/ShadowStack.cpp:101-124 | analyses that are right whatever memory contains are right along that run |
| `MaskingSoundness.VisitedStoresStayBelow` | shadow_stack/ShadowStack.cpp:41-99 | every visited store of the result writes below 2^47, as far as the analyses were right along the run |
| `MaskingSoundness.LowFunctionsUnchanged` | shadow_stack/ShadowStack.cpp:41-99 | if all stores of the original run were below 2^47 and the analyses right on it, the result has the same memory trace |
| `StorePass.FunctionPass.InstrumentStores` | shadow_stack/ShadowStack.cpp:41-61 | collects the stores without m-ignore and handles each once; the result is the rewriting, and the counters add up |
| `StorePass.FunctionPass.InstrumentStore` | shadow_stack/ShadowStack.cpp:63-99 | which of the outcomes a store gets and which one counter goes up: known bits, range, a reusable mask, a new mask, in this order |
| `StorePass.FunctionPass.InsertMask` | shadow_stack/ShadowStack.cpp:84-98 | the AND gets the next unused id and goes right before the store, a constant pointer is folded, and the map remembers the result for the pointer |
| `StorePass.FunctionPass.DomTreeOpt` | shadow_stack/ShadowStack.cpp:126-138 | reuses a mask if and only if the map has one that is a constant or whose instruction dominates the store, and otherwise changes nothing |
| `StorePass.RunPass` | shadow_stack/ShadowStack.cpp:41-61 | the pass yields a rewriting of the whole function |
| `X86.PreambleEffect` | shadow_stack_x86/X86ShadowStack.cpp:40-84 | the prologue appends the return address to the shadow area, bumps top, and leaves every register and rsp as they were |
| `X86.BlindWriteEffect` | shadow_stack_x86/X86ShadowStack.cpp:86-139 | the epilogue pops the shadow area and overwrites the return slot; all registers but a dead scratch one survive, spilled or not |
| `X86.TrapEffect` | shadow_stack_x86/X86ShadowStack.cpp:86-159 | the trapping epilogue stops exactly if the slot differs from the shadow copy, and otherwise changes no slot |
| `X86Pass.MachinePass.RunOnMachineFunction` | shadow_stack_x86/X86ShadowStack.cpp:16-38 | a function with calls becomes its instrumented form, one without is left alone |
| `X86Pass.MachinePass.InstrumentPreamble` | shadow_stack_x86/X86ShadowStack.cpp:40-84 | the prologue goes after the leading meta instructions of the entry block |
| `X86Pass.MachinePass.InstrumentBlock` | shadow_stack_x86/X86ShadowStack.cpp:22-35 | the backward walk guards every return of a block, a tail jump being one too, though it also walks over what it inserts |
| `X86Pass.MachinePass.InstrumentRet` | shadow_stack_x86/X86ShadowStack.cpp:86-159 | the epilogue goes right before the return, and a trapping one names the trap block |
| `X86Pass.MachinePass.GetOrCreateTrapBlock` | shadow_stack_x86/X86ShadowStack.cpp:161-169 | one trap block is appended at the first request and used for all later ones |
| `X86Pass.InstructionsKept` | shadow_stack_x86/X86ShadowStack.cpp:16-38 | in a guarded block every original instruction is still there, each return and tail jump with the whole epilogue right before it |
| `X86Pass.OrderKept` | shadow_stack_x86/X86ShadowStack.cpp:16-38 | in their order, and the epilogue of a return comes after all that was before it |
| `X86Pass.OutputKeepsInput` | shadow_stack_x86/X86ShadowStack.cpp:16-38 | for the whole output of the pass: every instruction of every block is in its block, in order, each return right behind its epilogue |
| `X86Pass.OutputIsInput` | shadow_stack_x86/X86ShadowStack.cpp:16-38 | every instruction of the output is an original one, one of the epilogue before a return, of the one prologue after the entry's meta instructions, or the trap block |
| `X86Pass.NoOtherReturns` | shadow_stack_x86/X86ShadowStack.cpp:16-38 | every return or tail jump of the output is one of the input, so none is unguarded |
| `ReturnIntegrity.CallKeeps` | shadow_stack_x86/X86ShadowStack.cpp:40-84 | a call and its prologue push exactly its return address on the shadow area |
| `ReturnIntegrity.ReturnKeeps` | shadow_stack_x86/X86ShadowStack.cpp:86-139 | a return removes the newest address and goes to it, whatever the slot holds |
| `ReturnIntegrity.LeaveKeeps` | shadow_stack_x86/X86ShadowStack.cpp:28-31 | the epilogue before a tail jump removes the newest address and leaves it, whatever the slot held, where the prologue of the function jumped to reads it |
| `ReturnIntegrity.EnterKeeps` | shadow_stack_x86/X86ShadowStack.cpp:40-84 | that prologue pushes it again |
| `ReturnIntegrity.ShadowHoldsPendingReturns` | shadow_stack_x86/X86ShadowStack.cpp:40-139 | in every state of every run the words from data to top are the pending non-leaf return addresses in order |
| `ReturnIntegrity.ReturnsMatchCalls` | shadow_stack_x86/X86ShadowStack.cpp:86-139 | every return goes to the address its call pushed, after any run of calls, tail jumps, returns and stores |
| `TrapRefinement.IntactReturnsAgree` | shadow_stack_x86/X86ShadowStack.cpp:127-154 | while the slot is intact both epilogues end in the same state up to flags |
| `TrapRefinement.TrapFollowsBlindWrite` | shadow_stack_x86/X86ShadowStack.cpp:127-154 | over every run the trapping program equals the overwriting one exactly as long as no slot was altered at a return or tail jump, and has trapped otherwise |
| `InstrumentedRuns.BlockRuns` | shadow_stack_x86/X86ShadowStack.cpp:16-38 | executing a stretch of a guarded block, whatever the program's own instructions do, is a run of the events of the original |
| `InstrumentedRuns.VisitsRun` | shadow_stack_x86/X86ShadowStack.cpp:16-38 | executing the pass's output from block to block and function to function, by calls, tail jumps and returns, is a run of those and the program's events |
| `EndToEnd.CompiledReturnsMatchCalls` | shadow_stack/ShadowStack.cpp:41-99 | functions rewritten by the store pass cannot divert the returns of the machine pass |
| `EndToEnd.InstrumentedReturnsMatchCalls` | shadow_stack_x86/X86ShadowStack.cpp:16-38 | the same when the output of the machine pass is executed |
| `EndToEnd.SlotReturnsMatchCalls` | lkm/include/api.h:15-18 | the same for the executed output on a live slot of any reachable arena state, over any later run of the arena that does not free the slot: at the end the page tables show the pending return addresses in the window, and no store of the program reaches any window |
| `StackMemory.RunBacks` | lkm/core/api.c:657-857 | over any such run, if the thread's own stores are what has changed in its window, every byte of the window read through the page tables is the one in the thread's memory |
| `PageTables.AddrEndIsMin` | lkm/core/api.c:609-634 | the end computed with 64-bit wrap-around is the nearer of block end and range end, an end of zero being the top |
| `PageTables.NextEntry` | lkm/core/api.c:543-560 | the next block is the next entry of the same table unless the table ends there |
| `RangeWalks.UpdateStep` | lkm/core/api.c:543-560 | replacing one entry of a table updates exactly the addresses of its block |
| `RangeWalks.ForAllCanonical` | lkm/core/api.c:609-634 | an update inside one table is an update of the flat space of canonical addresses |
| `PageMapping.MapPteRange` | lkm/core/api.c:524-541 | sets the entries of the range to their pages, or fails before the first |
| `PageMapping.MapTableRange` | lkm/core/api.c:543-598 | at every level: all of the range is mapped, or a failure leaves each address of it with its new or its old page |
| `PageMapping.MapRange` | lkm/core/api.c:609-634 | from any tree, success translates every address of the range to its page of the list; no address outside changes either way, and the loops terminate |
| `PageRemoval.RemovePtes` | lkm/core/chrdev_fops.c:89-106 | clears exactly the leaves of the range |
| `PageRemoval.RemoveTables` | lkm/core/chrdev_fops.c:108-159 | at every level the range translates to nothing and the rest as before |
| `PageRemoval.FreeP4d` | lkm/core/chrdev_fops.c:72-87 | the table is dropped exactly if all its entries are empty, and no translation changes |
| `PageRemoval.SaRemove` | lkm/core/chrdev_fops.c:161-180 | afterwards no address of the range translates and every other canonical address does as before |
| `PageRemoval.MapThenRemove` | lkm/core/chrdev_fops.c:161-180 | removing a mapped, or half mapped, range that was empty before restores every translation |
| `PageRemoval.MapAndRemove` | lkm/core/api.c:609-634 | the round trip of the two operations themselves, map_range failing or not |
| `PageFreeing.FreeEntry` | lkm/core/api.c:252-371 | the four helpers: exactly the addresses given by the clear test at each level stop translating |
| `PageFreeing.FreePgdRange` | lkm/core/api.c:375-410 | the whole call as an exact update of the flat space, its 64-bit rounding included |
| `PageFreeing.FreeingStaysInside` | lkm/core/api.c:375-410 | nothing outside floor and ceiling stops translating, a ceiling of zero being the top |
| `PageFreeing.FreedExactly` | lkm/core/api.c:300-335 | an address of the range loses its tables if and only if it is under the first pud entry of its p4d entry or one of the two entries above passes the clear test |
| `PageFreeing.VisitsStayInTable` | lkm/core/api.c:401-409 | the loop over top-level entries stays inside the table if and only if the rounded range lies in one 2^57 bytes |
| `PageFreeing.DestroyVisits` | lkm/core/api.c:422-425 | the call over the whole address space goes through 65536 entries, which is past the table of 512 |
| `PageFreeing.SecondPudSurvives` | lkm/core/api.c:300-317 | a two-gigabyte range of which the second half stays mapped, so freeing is not complete |
| `PageAlloc.System.AllocPages` | lkm/core/api.c:100-111 | a granted block is of pages nobody has; a refusal takes nothing |
| `PageAlloc.System.AllocBulk` | lkm/core/compat.h:23-32 | up to the number asked for, all different and nobody's |
| `PageAlloc.PageList.LargeBlocks` | lkm/core/api.c:94-119 | terminates by order and pages left, stays inside the array, and the array holds what was taken |
| `PageAlloc.PageList.BulkRequests` | lkm/core/api.c:121-131 | stops at the first request not met in full; the array holds what was taken |
| `PageAlloc.PageList.SinglePages` | lkm/core/api.c:133-143 | stops at a refusal or a fatal signal; the array holds what was taken |
| `PageAlloc.PageList.FreePages` | lkm/core/api.c:57-64 | every page of the list goes back, once |
| `PageAlloc.PageList.AllocAll` | lkm/core/api.c:81-150 | exactly as many different pages as asked for, or all returned, for every pattern of failures |
| `Arena.AddressesAreSlots` | lkm/core/api.c:823-844 | the address check of sa_free accepts exactly the addresses of slots below the limit, and the two conversions are inverse |
| `Arena.WindowsApart` | lkm/include/api.h:15-18 | windows of different slots are disjoint, page-aligned and canonical |
| `ArenaReferences.FactsHold` | lkm/core/api.c:657-713 | at each step of each call the slot it holds, the reference it holds and the change it makes fit together |
| `ArenaReferences.DestroyedEmpty` | lkm/core/api.c:414-436 | when the last reference has been dropped the slot table is empty and the allocator unregistered |
| `ArenaReferences.StepKeeps` | lkm/core/api.c:438-495 | every step of every call, lookup and get being two, keeps the reference counts and everybody's slots and allocators |
| `ArenaReferences.ReferenceCounts` | lkm/core/api.c:414-495 | after any run kref is one if registered plus live slots plus calls holding a reference, and the callback's warning cannot fire |
| `ArenaOwnership.StepKeepsPlaces` | lkm/core/api.c:159-212 | every step leaves each page list in exactly one place: a live slot, one call, the free list or one vma_free |
| `ArenaThreads.StepKeepsDescs` | lkm/core/api.c:657-857 | every step leaves each thread descriptor in exactly one place, a live slot or one call, so none is lost or freed twice |
| `ArenaThreads.StepKeepsNames` | lkm/core/api.c:690-702 | and it names the thread it was made for |
| `ArenaFreeList.StepKeepsLock` | lkm/core/api.c:159-212 | gl_size is the length of the list, up to what the holder of the lock is about to do |
| `ArenaFreeList.FreeListBound` | lkm/core/api.c:196-212 | with n threads at most in gl_free the size and the threads past its check stay within the capacity less one plus n |
| `ArenaTranslation.MapSlot` | lkm/core/api.c:690-695 | map_range on a slot's window does what the step relation says |
| `ArenaTranslation.MappingOneWindow` | lkm/core/api.c:690-695 | mapping one window shows its pages there and leaves every other window alone, even on failure |
| `ArenaTranslation.LiveSlotsTranslate` | lkm/core/api.c:657-702 | in every reachable state each address of a live slot's window translates to its own page of the slot's own list |
| `ArenaPages.StoreLands` | lkm/core/api.c:657-702 | a store through a live slot lands on a page of that slot |
| `ArenaPages.AdvanceKeepsPages` | lkm/core/api.c:657-857 | every step keeps the pages the disjoint union of the page lists |
| `ArenaRuns.PagesPartition` | lkm/core/api.c:657-857 | after any run each page obtained and not returned is in exactly one list at one place, and every list on the free list is all zeroes |
| `ArenaSafety.OnlyPointersDangle` | lkm/core/api.c:657-857 | in a reachable state all that a call is about to touch is there, but for what alloc_find returned, to get or to search, and an entry being looked at or copied from |
| `ArenaSafety.NoUseAfterFree` | lkm/core/api.c:476-495 | a run never uses what has been freed if and only if no step frees an allocator another call has looked up and holds no reference to, a descriptor a search looks at or copies from, or a list being copied from or about to be |
| `ArenaSafety.Stranded` | lkm/core/api.c:800-805 | any step that frees one of these leaves the other call's pointer dangling |
| `ArenaRaces.LookupRaceFails` | lkm/core/api.c:467-495 | a run from the start after which a call is about to read the reference count of a freed allocator |
| `ArenaRaces.ParentRaceFails` | lkm/core/api.c:741-765 | a run from the start after which sa_fork is about to search the table of a freed allocator |
| `ArenaRaces.DescriptorRaceFails` | lkm/core/api.c:762-805 | a run from the start, with two forks of which one fails, after which the other is about to read the tid of a freed descriptor |
| `ArenaSafety.WaitingIsEnough` | lkm/core/api.c:467-474 | if alloc_destroy waited for calls that have looked the allocator up, and a failing sa_fork took al_lock, every run would be safe |
| `ArenaBytes.ListStaysSame` | lkm/core/api.c:657-857 | a step changes the pages of no list but the stepping call's, a store those of its own slot's |
| `ArenaBytes.OwnStoresOnly` | lkm/core/api.c:657-857 | the bytes of a live stack change by a store through its own slot alone, and then exactly on that page |
| `ArenaBytes.StackIsOwnStores` | lkm/core/api.c:657-857 | from any reachable state on, over any run, a stack not freed holds its bytes with its own stores applied in order |
| `ForkCopy.UntouchedKeeps` | lkm/core/api.c:741-742 | a slot nobody stores through, frees or unregisters keeps its bytes, thread and allocator through every step of the arena |
| `ForkCopy.FindsSource` | lkm/core/api.c:762-774 | of the entries the search comes to, exactly that of the forking thread's first live slot has its tid |
| `ForkCopy.CopyGoesOn` | lkm/core/api.c:766-787 | at each point of sa_fork the pages copied so far hold the parent's bytes |
| `ForkCopy.CopyEnds` | lkm/core/api.c:779-798 | and its last step leaves them live in the same slot of the child's own allocator |
| `ForkHandshake.ForkSnapshot` | lkm/core/api.c:723-809 | in every interleaving of the pipe with all threads of the arena a successful fork leaves the child a stack with the number of the parent thread's first live slot and the bytes that had at the call, which the parent's keeps until it returns |
| `ForkHandshake.ReturnsAfterCopy` | alt_runtime/main.c:112-151 | the parent's fork() returns a child only when the child is past the ioctl or dead |
| `ForkHandshake.SettledBeforeReturn` | alt_runtime/main.c:139-144 | once the parent goes on, no further run changes whether the child got its copy |
| `ForkHandshake.StacksApart` | lkm/core/api.c:766-798 | from the ioctl's success on, over any run, each of the two stacks holds the bytes of the call with the stores through its own slot applied, and the slots are different |
| `ForkHandshake.TraceRuns` | lkm/core/api.c:723-809 | every run of the handshake is a run of the arena |
| `MemPool.ActionKeeps` | runtime/allocator.c:40-84 | every step keeps the free list equal to its pointers and each chunk in one place |
| `MemPool.ChunksPartition` | runtime/allocator.c:40-84 | after any run a chunk is claimed exactly if it is in use, on the free list or with one thread, and never two of these |
| `MemPool.ChunksApart` | runtime/allocator.c:45-53 | claimed chunks are disjoint and inside the pool |
| `MemPool.HandedOutFresh` | runtime/allocator.c:40-77 | a returned chunk has top at data and next NULL, and nobody else has it |
| `MemPool.BoundIsCapacity` | runtime/allocator.c:45-53 | the bound admits exactly the first ceil(pool/chunk) - 1 indices |
| `MemPool.ChunksBounded` | runtime/allocator.c:45-53 | no more than that many chunks ever exist |
| `MemPool.NullWhenExhausted` | runtime/allocator.c:70-77 | NULL comes back only after every one of those indices was claimed |
| `Mapping.Setup.FindGaps` | runtime/mapping.c:51-72 | the list is exactly the maximal gaps, highest first, for sorted and possibly overlapping mappings |
| `Mapping.Setup.ReserveAll` | runtime/mapping.c:23-34 | reserves exactly the areas outside the window, and succeeds if and only if each is granted |
| `Mapping.Setup.SetupMemory` | runtime/mapping.c:36-108 | the window is aligned, in the highest gap with room, and large enough if and only if min is a multiple of 16 or something is mapped in the last min bytes; all other gaps are reserved and no mapping is touched |
| `Mapping.WindowFits` | runtime/mapping.c:85-90 | the rounded window stays inside its gap |
| `Mapping.WindowLargeEnough` | runtime/mapping.c:85-90 | the window of any gap with room is large enough if and only if min is a multiple of 16 or the gap is not the top one |
| `Mapping.TopChosen` | runtime/mapping.c:74-83 | the top gap is chosen if and only if nothing is mapped in the last min bytes |
| `Mapping.EmptyWindow` | runtime/mapping.c:85-90 | eight bytes asked for at the very top give an empty window |
| `StackRelocation.Process.ScanVector` | runtime/stckcpy.S:36-66 | finds the end of a vector and the highest pointer so far |
| `StackRelocation.Process.ScanAuxv` | runtime/stckcpy.S:68-100 | the same for the auxiliary vector, with the flag for AT_RANDOM |
| `StackRelocation.ScannedIsHighest` | runtime/stckcpy.S:31-100 | the scan yields the highest of all pointers, and without the flag it is one to a string |
| `StackRelocation.Process.Copy` | runtime/stckcpy.S:119-135 | copies the bytes and nothing else |
| `StackRelocation.Process.PatchVector` | runtime/stckcpy.S:142-168 | adds the distance to every pointer of a vector and touches nothing else |
| `StackRelocation.Process.PatchAuxv` | runtime/stckcpy.S:170-192 | adds it to the values of the pointer kinds only |
| `StackRelocation.StringsCovered` | runtime/stckcpy.S:104-121 | a string pointed to ends inside the copy if and only if the highest pointer is not the AT_RANDOM one or it ends at most 16 bytes after that |
| `StackRelocation.StringCut` | runtime/stckcpy.S:104-121 | at any address a laid-out stack on which the program's name is cut |
| `StackRelocation.Process.RelocateStack` | runtime/stckcpy.S:31-192 | the image at the new stack pointer is the old one with its pointers moved, every string that ends inside the copy reads the same at its new address, the copy is aligned and inside the region, and nothing else changes |

## Left out

- Device registration, ioctl argument copying, debugfs, symbol lookup and the build files: no state beyond what the entry points modelled here see.
- LLVM analyses (known bits, value ranges, dominance) and register scavenging: oracles with their soundness as a hypothesis; atomics, memcpy intrinsics and stores marked m-ignore are not masked by the pass and are not part of the program whose stores are bounded.
- The stack discipline of compiled code (rsp back at the return slot, leaf functions returning normally, depth within the area): hypotheses of `ReturnIntegrity`, stated in `Admissible`; the area is taken to end eight bytes or more below 2^64.
- TLB flushes, page-table locks, RCU and the xarray itself: taken at their contracts.
- Page tables as shared memory: the walkers take and return trees, so that two tables sharing a page, and the order of stores to entries as another CPU sees them, are not captured.
- Canonical addresses are those of 57 bits, the ones five-level tables translate.
- PTEs after sa_free or after a failed map_range: unmap_range only flushes (lkm/core/api.c:520), so nothing is said about a window without a live slot.
- The slot number THREADS_LIMIT: it can be given out (lkm/core/api.c:673) but its address is not one sa_free accepts; such a slot stays.
- Everything in the range being freed: `PageFreeing.SecondPudSurvives` shows it is not; `PageFreeing.FreedExactly` says what is.
- PageFreeing.FreePgdRange: what the call over the whole address space (lkm/core/api.c:424) frees, whose loop leaves the table, `PageFreeing.DestroyVisits`; nor the batch of table pages (lkm/core/api.c:214-235).
- sa_pivot: it works on kernel memory areas and never reports success.
- The bodies of shadow_open and shadow_release: commented out; creating, destroying and removing are entry points of their own, and an allocator belongs to one new address space.
- Contents of arena pages below a page: in `Arena` a page holds one value, and stacks are compared page by page.
- The read of the handshake pipe being interrupted by a signal, other processes inheriting its write end, and pipe() failing.
- freearea_start wrapping around after some 2^44 failed requests: it is unbounded here.
- Mapping.Setup.ReserveAll: the kernel rounds fixed mappings to whole pages, which matters at the top gap, whose end is not page-aligned; that is not modelled.
- Parsing of /proc/self/maps and failures of malloc in mapping.c: the scan starts from the parsed lines.
- StackRelocation.Process.RelocateStack: a string that goes on past AT_RANDOM bytes lying highest is cut, and an AT_BASE value is moved like a pointer into the stack, as the code does; the highest pointer is taken to be above the vectors.
- PageAlloc.PageList.AllocAll: does not say that the pages are zeroed, which is the page allocator's part; `Arena` takes them so.
- The switch to the new stack, the pivot ioctl and the jump to _start (runtime/stckcpy.S:194-231), and mmap failing there.
- ForkHandshake.ForkSnapshot: nobody stores through a stack of a thread in fork() but that thread, which is a hypothesis; of a thread with several live slots the first is copied, as the search takes it.
- ReturnIntegrity.EnterKeeps: a function entered by a tail jump from a leaf function, which has no epilogue, finds its return address unaltered only by hypothesis, as a leaf function's own return does.
- Conditional tail jumps: a jump is always taken here, so that the shadow stack popped before one that is not taken is not modelled.
- What the program's own instructions do in `InstrumentedRuns`: any events of `ReturnIntegrity`, with returns and tail jumps reached only by functions the pass instrumented; a tail jump into a leaf function is an event of its own, `Leave`.
