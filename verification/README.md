# Verification of the jatuli kernel

jatuli is a single-core AArch64 kernel with preemptive threads, per-process address spaces and
`jring`, a pair of shared rings over which programs submit requests and reap completions. This
project models its two state machines and proves what they keep over every run.

**Memory.** RAM is a map from frame addresses to 512 words. The intrusive free list, the four-level
page tables (VMSAv8-64 descriptors with a 4 KiB granule, Arm Architecture Reference Manual
DDI 0487) and user pages all live in that one memory. A ghost map gives every frame exactly one role, and the table
words are proved to spell out a plain map from (space, page) to (frame, flags). On top of it sit
the kernel heap's window, the ELF loader (chapter 5 of the System V gABI), process creation, ring
setup, the pointer gate, and teardown.

**The ring protocol and the scheduler.** The kernel is a transition system over processes, tasks,
ring pages, the console buffer and the poller. Its agents are user code (store by store through
the library, or writing anything anywhere in its page), system calls, the submission poller, the
UART and timer interrupts, and process exit. One inductive invariant is kept by every step of every
interleaving; the results about wake-ups, requests, rings, console input, address spaces and the
wake-up flag are read off it. The handlers are also written as the imperative code they are, with
their loops, and proved to compute every step of the transition system.

## Files

- `Bits`, `Frames`, `PageTables`, `Mmu`, `Hardware`: masks and alignment, the free list, the page-table
  tree and its meaning, the class that maps, unmaps, translates, switches and frees, and the walk of
  the hardware over the words it leaves in memory.
- `Elf`, `Headers`, `Ownership`, `Loader`, `Gate`, `Process`, `Workload`: image parsing and a writer it
  is checked against, who owns which frame, the page-by-page loader, pointer checks, the process
  table, whole workloads.
- `Sched`, `Input`, `Heap`, `Rings`, `Uring`: the scheduler, the console buffer, the bump heap, the
  ring page with both of its sides, the library's stash.
- `Kernel`, `Draining`, `Steps`: the state, the handlers, and the steps of the transition system.
- `Layouts`, `WakeUps`, `Spaces`, `Consoles`, `Fates`, `Fifo`, `Handshake`, `Reads`, `Histories`: one part of
  the invariant each, kept by every step.
- `Machine`, `Results`, `Exits`, `Entering`, `Polling`, `Scheduling`, `Waiting`, `Tally`: boot, runs, the
  results, what exits, system calls, the poller and the scheduler do over runs, and the library over
  the kernel.
- `Losses`, `Windows`, `Preemption`, `Strikes`: exactly when console input is lost, and the runs that
  break the results where the code or an assumption leaves room for it.
- `Driver`: the handlers as loops and updates, and one method that does any step.

## Steps and assumptions

- Code that runs with interrupts masked is one step: system calls up to their return or block, the
  two interrupts, `drain`, `schedule`. A task woken inside `enter` looks at its queue again in a step
  of its own, so other steps may come between; the code allows fewer interleavings than that.
- Every single load and store of the library is a step. `submit` is two: the load of the flag, and the
  trap if it was seen up, with anything in between; a trap may also come without a load before it.
- The poller takes one step per process it scans and per flag it clears. Its check, `activate` and
  `drain` of one process are one step, and so are raising the flags, scanning again and blocking.
  `Preemption` cuts both wherever an interrupt can come (before `activate`, before `drain`, before the
  second scan, before blocking) and gives the runs that then go wrong.
- A store of `copy_to_user` goes through the live root, and faults unless the page is there and EL0 may
  write it. A fault stops the machine (kernel/src/exceptions.rs:126-144), so a run ends there: its last
  state has the console as it was at the fault, and all else as before the step.
- The console interrupt comes only while reception is unmasked. The clock stays below 2^64 - 1
  ticks; a task blocked without a deadline would be woken at that tick.
- The library's one duty is to start a submission only with fewer than 16 unconsumed. A process may
  also write anything into its page at any time; from then on only the statements about the order of
  its own rings and about its own flag no longer speak of it, all others still do.
- A name in a spawn request and the root and ranges of the new process come from the environment.
  The root is not that of a live process, as `Process.ProcessTable.Spawn` guarantees. The ranges may
  be anything: nothing here supposes that they are disjoint.
- Bytes delivered to a read are recorded with the live root and their addresses; the ring pages are not
  changed by them. This is what the code does unless the foreground process can name its own ring page
  as a buffer. `Gate.RingApartIff` says exactly when it can, and `Strikes.SleeperStruck` is a run in
  which a byte lands in the submission tail of a process that sleeps.

## Where the code and its documentation differ

- abi/src/lib.rs:43-49 says the kernel asserts that loaded segments land in the user window. Only the
  entry points are checked (kernel/src/main.rs:89), not the segments, so a segment may lie anywhere
  above the identity-mapped RAM. The walk masks every index, so what counts is the address modulo
  2^48; a segment at 0x1_0000_8000_0000 is one at 0x8000_0000.
  - Below the window it goes into the shared L0 slot 0. Then every space sees its pages: creating a
    process leaves the translations of all other spaces alone if and only if no segment starts below
    the window (`Process.ProcessTable.Spawn`), and `Workload.ShareAPage` is an image at 0x8000_0000,
    or at any of its aliases, that does not. Such a page can also take the place of another process's
    page or of the kernel heap, and teardown unmaps whatever is there by then.
  - Teardown follows only slot 1 of the root (kernel/src/mmu.rs:342-352), so tables for a segment above
    the window are lost, and shared tables built for one below it stay. Every frame comes back if and
    only if no segment ends above the window and those shared tables were there before
    (`Process.ProcessTable.Lifecycle`); `Workload.LoseAFrame` loses one.
  - `tlbi` does not drop the bits above 47, so a page replaced or removed through such an alias may stay
    cached. The set of pages for which this can be so is part of the state (`AddressSpaces.Mmu.MapPageIn`,
    `UnmapPageIn`); the next switch to another root empties it, and `AddressSpaces.StaleEntry` shows
    that such an entry is wrong.
- The gate goes by the first range that holds a buffer, the loader lets the last segment over a page
  decide its permissions, and neither looks for overlaps. So the gate can accept a write to a page that
  EL0 may not write: all that it accepts in the private window can be written if and only if no
  writable range that it goes by is overlaid (`Workload.WritesLandFor`, `Gate.WritesLandIff`). Code
  loaded over the first page of data is an image where it cannot (`Process.CodeOverDataLoads`,
  `Gate.CodeOverData`); the pages are mapped and owned in any case (`Workload.AcceptedIsOwned`).
- A part of an accepted range can be turned away, exactly if a read-only range stands in front of a
  writable one it overlaps, and neither is hidden by a range before it (`Gate.PartsAcceptedIff`);
  an empty part can be turned away by mere adjacency (`Gate.AdjacentShadow`).
- For both reasons a byte of console input can be lost: `drain_input` takes it out of the buffer before
  `copy_to_user` refuses it or faults (kernel/src/ring.rs:414-420). No run of a system loses one if and
  only if the gate takes each of the first 255 bytes of every range it accepts, and all that it takes
  lies in the private window on pages that are not overlaid (`Losses.LosslessIff`); ranges that are
  apart and inside the window are such (`Losses.DisjointLossless`).
- A ring set up while the poller sleeps starts with its flag down (kernel/src/ring.rs:86-94), so its
  first submission is stranded until something else wakes the poller (`Windows.LateRingStranded`).
  While the poller sleeps the flag of a ring is up exactly if the ring was there when the poller fell
  asleep, and a submit then reaches the kernel exactly if the flag is up (`Results.FlagTells`,
  `Results.SubmitRevives`).

## Model

| member | source | states |
|---|---|---|
| `Bits.AlignUpIsLeast` | kernel/src/allocator.rs:46-48 | for every power of two the mask form is the least multiple at or above the address |
| `Bits.AlignUpFrame` | kernel/src/frames.rs:45-47 | the 4 KiB case as division |
| `Frames.LinkedDistinct` | kernel/src/frames.rs:49-55 | a list of links that ends at address 0 holds no frame twice, so it has no cycle |
| `Frames.FrameAllocator.Push` | kernel/src/frames.rs:81-85 | the frame becomes the first free one; only its word 0 changes |
| `Frames.FrameAllocator.Pop` | kernel/src/frames.rs:88-98 | the first free frame leaves the list; None exactly when none is free |
| `Frames.FrameAllocator.AddRegion` | kernel/src/frames.rs:69-75 | exactly the whole frames of the region join the pool |
| `PageTables.DescriptorBits` | kernel/src/mmu.rs:17-39 | the masks select the type bits and the output address |
| `PageTables.EncodeDecode` | kernel/src/mmu.rs:218 | address and flags come back out of a page descriptor |
| `PageTables.OffsetBits` | kernel/src/mmu.rs:287 | the output address of a descriptor and the offset in the page put together by `or` are their sum, for every entry and address |
| `PageTables.IndexBits` | kernel/src/mmu.rs:209-212 | shift and mask give the table index of each level |
| `PageTables.IndexSplit` | kernel/src/mmu.rs:209-212 | two pages with the same four indices are the same page |
| `PageTables.UserFlags` | kernel/src/mmu.rs:43-53 | user pages are writable or executable for EL0, never both; kernel pages neither |
| `AddressSpaces.Mmu.Boot` | kernel/src/mmu.rs:95-121 | the identity map is built in three frames, each boot block with its own address and flags, every other frame is free, and the pool invariant holds |
| `AddressSpaces.Mmu.AllocTable` | kernel/src/mmu.rs:83-91 | a free frame becomes a zeroed table; every other table is untouched |
| `AddressSpaces.Mmu.GetOrCreate` | kernel/src/mmu.rs:159-172 | the child table, new and empty if it was missing; no translation changes |
| `AddressSpaces.WalkableIff` | kernel/src/mmu.rs:159-172 | the walk to a page meets no block, so mapping it does not panic, if and only if the page lies above the identity-mapped RAM |
| `AddressSpaces.Mmu.MapPageIn` | kernel/src/mmu.rs:208-228 | exactly one page of the map changes, the one the low 48 bits name; every frame keeps its role or becomes a table of this space; cached translations agree with the tables, except of a page reached through an address from 2^48 on, which joins the stale set |
| `AddressSpaces.Mmu.UnmapPageIn` | kernel/src/mmu.rs:242-265 | exactly that page leaves the map, and every cached translation agrees with the tables outside the stale set, which gets it only for an address from 2^48 on |
| `AddressSpaces.StaleEntry` | kernel/src/mmu.rs:219-227 | a shared page replaced through an address from 2^48 on, if it was cached, leaves an entry that contradicts the tables |
| `AddressSpaces.Mmu.Translate` | kernel/src/mmu.rs:270-288 | the walk gives what the page map says, in any space; slot 0 is the same in all of them |
| `AddressSpaces.Mmu.NewAddressSpace` | kernel/src/mmu.rs:294-302 | a root nobody uses, sharing the kernel's subtree and mapping nothing else |
| `AddressSpaces.Mmu.Activate` | kernel/src/mmu.rs:314-334 | cached translations agree with the new live root, although the flush is skipped when it is already installed; with another root nothing stale remains |
| `AddressSpaces.Mmu.InitHeap` | kernel/src/allocator.rs:31-37 | exactly the 512 pages of the heap window are mapped, kernel-only, each on a frame of its own that is the kernel's |
| `AddressSpaces.Mmu.Fill` | kernel/src/mmu.rs:304-334 | the hardware may cache any current translation at any time without breaking that agreement |
| `AddressSpaces.Mmu.FreeSubtree` | kernel/src/mmu.rs:360-370 | exactly the tables under one node are freed, each once |
| `AddressSpaces.Mmu.FreeAddressSpace` | kernel/src/mmu.rs:342-352 | the root and its slot 1 tables are freed, other spaces and the kernel subtree stay, tables in other slots are lost |
| `Hardware.HardwareSees` | kernel/src/mmu.rs:1-7 | in every state of the pool invariant, so after every map, unmap and teardown, the architecture's walk over the raw words of memory, from every root and at every address: devices and RAM are at their own addresses, everything else is as the page map says |
| `Hardware.FramesReached` | kernel/src/mmu.rs:95-107 | the kernel reaches every byte of every frame of RAM at the frame's own address, in whatever space it runs |
| `Hardware.BlockFlags` | kernel/src/mmu.rs:33-36 | boot blocks are out of reach for EL0; RAM is Normal memory, devices are Device memory and executable for nobody |
| `Hardware.BlockBits` | kernel/src/mmu.rs:103-105 | the descriptor of block i put together by `or` |
| `Hardware.UserReach` | kernel/src/mmu.rs:290-302 | whatever EL0 can access lies above RAM and is in the page map of its space |
| `Elf.ByteStored` | kernel/src/elf.rs:135-144 | a byte store changes that byte of the frame and no other |
| `Headers.LoaderReads` | kernel/src/elf.rs:90-122 | for every file header and every list of program headers written into an image, wherever the table and whatever the size of its entries: the loader finds the entry point and exactly the non-empty PT_LOAD segments, in order, each with its fields |
| `Headers.Writable` | kernel/src/elf.rs:12-18 | every such list can be written |
| `Headers.LoadableIff` | kernel/src/elf.rs:104-165 | an image as written is loaded rather than panicked on, if and only if it has at most eight segments to load, each page-aligned, not both writable and executable, with its file part inside the image and no page under a boot block |
| `Headers.ValidIff` | kernel/src/elf.rs:37-45 | `validate` accepts exactly the images that start with the file header of a 64-bit AArch64 executable, and gives its entry point |
| `Headers.RangesRead` | kernel/src/elf.rs:157-164 | the recorded range of a segment is [p_vaddr, p_vaddr + p_memsz), writable unless the segment is executable |
| `Headers.BytesAppear` | kernel/src/elf.rs:132-155 | each byte of a segment is shown at its address: the image's byte at p_offset plus its place, zero past p_filesz, with the permissions of its flags |
| `Elf.PagesClear` | kernel/src/elf.rs:132-155 | the bounds on a segment are exact: none of its pages lies under the boot blocks, so the load does not panic, if and only if its first page modulo 2^48 lies above them and it does not reach the end of a 2^48 window |
| `Elf.ImageMapAt` | kernel/src/elf.rs:104-165 | the last segment that covers a page decides what it shows |
| `Elf.SegmentsAppear` | kernel/src/elf.rs:104-165 | with page-disjoint segments every byte of each is where its header puts it, zero past the file part |
| `Loader.FillFrame` | kernel/src/elf.rs:135-144 | the frame holds the page of the segment and no other frame changes |
| `Loader.LoadPage` | kernel/src/elf.rs:132-155 | one more page of the image is shown and owned, in the shared slot or in a private one |
| `Loader.LoadSegment` | kernel/src/elf.rs:130-164 | the whole segment is shown and owned |
| `Loader.Load` | kernel/src/elf.rs:90-172 | from the root one sees exactly the image, wherever its segments lie, modulo 2^48; the pages are owned, the ranges recorded, and beyond its own space only the shared pages of the image and the tables to them change |
| `Gate.IsUserRange` | kernel/src/process.rs:222-239 | accepts exactly the stack and the ranges, overflow included |
| `Gate.PartsAcceptedIff` | kernel/src/process.rs:222-239 | every part, or every non-empty part, of every accepted range is accepted if and only if no read-only range shadows a writable one |
| `Gate.PartOrShadow` | kernel/src/process.rs:222-239 | a part of an accepted range is accepted, or names the two ranges that stand against it |
| `Gate.ShadowRejectsPart` | kernel/src/process.rs:233-237 | from a shadowing pair, an accepted range and the part of it that is rejected |
| `Gate.AdjacentShadow` | kernel/src/process.rs:233-237 | of two disjoint ranges that touch, the one in front can reject an empty part of the other |
| `Gate.ByteSafeIff` | kernel/src/process.rs:222-239 | the gate takes each of the first n bytes of every range it accepts, if and only if no range refuses one within reach |
| `Gate.FrontPageRefuses` | kernel/src/process.rs:233-237 | a read-only page in front of a longer writable range is not safe for any n |
| `Gate.RingApartIff` | kernel/src/process.rs:222-239 | no write through the gate reaches the ring page if and only if every writable range that meets it lies inside an earlier range |
| `Gate.RingNamed` | kernel/src/process.rs:222-239 | a writable segment at the ring address makes every byte of the ring page a buffer |
| `Gate.AcceptedIsMapped` | kernel/src/process.rs:218-239 | the page of every accepted byte, if in the private window, is mapped in the process's own space, overlaps or not, and is writable if and only if the last range over it is, or it is the stack or the ring page |
| `Gate.WritesLandIff` | kernel/src/process.rs:222-239 | every accepted write in the private window is to a writable page if and only if no writable range that the gate goes by has a page that a later read-only range decides |
| `Gate.CodeOverData` | kernel/src/process.rs:233-237 | a read-only range over the first page of a writable one, anywhere: the gate takes every single byte, and the page is not writable |
| `Ownership.OthersUntouched` | kernel/src/mmu.rs:290-302 | what happens in one space changes no translation of another, except of the shared pages it reaches into |
| `Ownership.ChangesTrans` | kernel/src/mmu.rs:290-302 | steps confined to one space compose, and the shared pages they reach into add up |
| `Process.ZeroFrame` | kernel/src/ring.rs:86-88 | the ring frame is all zero and nothing else changes |
| `Process.MapNew` | kernel/src/process.rs:74-77 | a fresh frame is mapped at the address, owned, and touches no other space |
| `Process.ProcessTable.LoadSpace` | kernel/src/process.rs:70-77 | a space that shows the image and has a stack; beyond it only the shared pages of the image change |
| `Process.ProcessTable.Spawn` | kernel/src/process.rs:70-93 | a new live process with the entry point and ranges of the image, a root that no live process has and all frames accounted for; every other space translates as before if and only if no segment starts, modulo 2^48, below the user window |
| `Process.SharedIff` | kernel/src/elf.rs:104-165 | an image is loaded into shared pages if and only if a segment starts, modulo 2^48, below the user window |
| `Process.LastSame` | kernel/src/elf.rs:104-165 | the last recorded range over a page is that of the segment which decides the page |
| `Process.LoadedMapped` | kernel/src/elf.rs:145-165 | after a load a page covered by ranges is mapped, and EL0 may write it if and only if the last of them is writable |
| `Process.CodeOverDataLoads` | kernel/src/elf.rs:104-165 | the loader accepts such segments, records both ranges, and the page they share shows the read-only one |
| `Process.SharedSeen` | kernel/src/mmu.rs:290-302 | a shared page of the image is seen from every root, and no root saw it so before |
| `Process.ProcessTable.SetupRing` | kernel/src/ring.rs:78-96 | a zeroed page appears at the ring address once; a second call changes nothing |
| `Process.ProcessTable.FreeOne` | kernel/src/user.rs:91-94 | one owned page is unmapped, after which no page shows its frame, and the frame is free |
| `Process.ProcessTable.FreePages` | kernel/src/user.rs:88-94 | every frame the process owned is freed, each once, and nothing else is |
| `Process.ProcessTable.Teardown` | kernel/src/user.rs:77-105 | the space and the shared pages it owned are gone, its frames are free or lost, the pages and tables of other spaces stay, a husk stays, the kernel's root is live and nothing stale is cached |
| `Process.ProcessTable.Launch` | kernel/src/ring.rs:307-317 | create, run and optionally set up the ring, confined to unused frames and the shared pages of the image |
| `Process.ProcessTable.Lifecycle` | kernel/src/user.rs:74-105 | create, set up and tear down, for any image: which tables and mappings are left, when they are those of before, and that every frame comes back if and only if no segment ends above the user window and the shared tables the image needs were there |
| `Process.LeakIff` | kernel/src/mmu.rs:342-352 | some table is lost at teardown if and only if an owned page lies above slot 1 |
| `Process.RolesBack` | kernel/src/mmu.rs:342-352 | after a whole life every frame has its role back if and only if none was lost and no shared table was added; otherwise a free frame is gone |
| `Process.TablesBack` | kernel/src/mmu.rs:342-352 | after a whole life the tables are those of before and the shared ones leading to the image's pages, the mappings those of before without those pages |
| `Workload.Start` | kernel/src/allocator.rs:31-43 | boot, heap and an empty table: every frame is free, a table or one of the heap's |
| `Workload.Run` | kernel/src/process.rs:70-93 | any sequence of creations, setups, switches, TLB fills and exits does what each is for, keeps every frame accounted for, and the heap's frames with all they hold; without images from 2^48 on nothing stale is ever cached |
| `Workload.FramesPartitioned` | kernel/src/frames.rs:69-98 | every frame is exactly one of free, table, kernel heap, page of exactly one live process, or lost; the free list is the free frames without repetition, as many as counted |
| `Workload.AcceptedIsOwned` | kernel/src/process.rs:218-239 | in any state of any run, the page of an accepted byte in the private window shows a frame the process owns, and EL0 may write it if and only if the last range over it is writable, or it is the stack or the ring page |
| `Workload.WritesLandFor` | kernel/src/process.rs:218-239 | in any state of any run, a process can write all that the gate accepts in its private window if and only if no writable range that the gate goes by is overlaid |
| `Workload.WriteXorExecute` | kernel/src/mmu.rs:43-53 | in any state of any run, at every address of every space as the hardware sees it: EL0 can never both write and execute, EL1 executes nothing but its own RAM, and EL0 reaches only pages mapped for it |
| `Workload.SpawnAndRead` | kernel/src/elf.rs:90-172 | the same through the translation of a new process: reading a byte of a segment gives the file's byte at p_offset plus its place, or zero; the process starts at the entry point of the header |
| `Workload.SpawnAndFind` | kernel/src/elf.rs:90-172 | reading a loaded byte through the translation gives the file's byte or zero, on a page that is executable or writable as the header says |
| `Workload.SharedImageLoads` | kernel/src/elf.rs:90-172 | images of 120 bytes, for each value of the byte above bit 47 of the address, that the loader accepts into a shared page |
| `Workload.ShareAPage` | kernel/src/elf.rs:150-152 | creating a process from any of them changes what every other space sees at 0x8000_0000, to a frame of the new process |
| `Workload.LoseAFrame` | kernel/src/user.rs:74-105 | a whole life of it loses a frame to the shared subtree, unless its table was there |
| `Heap.BumpAllocator.Alloc` | kernel/src/allocator.rs:83-99 | the block is at the least aligned address that fits, apart from all live blocks; null exactly when none fits |
| `Heap.BumpAllocator.Dealloc` | kernel/src/allocator.rs:101-107 | the other blocks stay, and the heap restarts exactly when none is live |
| `Sched.CandidateIsMod` | kernel/src/sched.rs:139-140 | the candidates of the scan are the tasks after the current one, going round |
| `Sched.PickIsFirst` | kernel/src/sched.rs:133-149 | the first runnable task after the current one; stays only if no other can run |
| `Sched.SwitchedAway` | kernel/src/sched.rs:133-149 | a task that cannot run is left as soon as another can |
| `Sched.BoundedBypass` | kernel/src/sched.rs:133-162 | while a runnable task waits no task is picked twice, tasks being added or not, so it waits at most n - 2 turns |
| `Sched.StepSafe` | kernel/src/sched.rs:164-269 | every request leaves a runnable task running, Exited tasks exited, and a blocking or exiting task switched away from |
| `Sched.RunSafe` | kernel/src/sched.rs:131-269 | the same over every run in which the idle task never blocks |
| `Sched.StepTurns` | kernel/src/sched.rs:131-269 | every request that gives up the processor, a tick included, runs the first task after the current one that can run then; the others leave it running |
| `Sched.SleepsUntil` | kernel/src/sched.rs:225-245 | over every run: a task that sleeps for n ticks is blocked until the clock has gone n further, unless woken, and the first tick from then on makes it runnable |
| `Sched.BlocksForGood` | kernel/src/sched.rs:194-217 | over every run: only a wake-up brings back a task that blocked without a deadline |
| `Sched.NotWokenByTime` | kernel/src/sched.rs:191-204 | the clock wakes a blocked task exactly from its deadline on |
| `Sched.PickNext` | kernel/src/sched.rs:133-149 | the scan finds the task to run next |
| `Sched.WakeDue` | kernel/src/sched.rs:238-245 | the loop makes exactly the due sleepers runnable |
| `Sched.Scheduler.Schedule` | kernel/src/sched.rs:133-162 | the scan picks that task and the space to install |
| `Sched.Scheduler.BlockCurrent` | kernel/src/sched.rs:194-204 | the task is blocked without a deadline and another runs |
| `Sched.Scheduler.WakeTask` | kernel/src/sched.rs:208-217 | a blocked task is runnable again, any other is untouched |
| `Sched.Scheduler.SleepTicks` | kernel/src/sched.rs:225-235 | the task is blocked until its tick and another runs |
| `Sched.Scheduler.WakeSleepers` | kernel/src/sched.rs:238-245 | exactly the blocked tasks that are due become runnable |
| `Sched.Scheduler.OnTick` | kernel/src/sched.rs:249-252 | due sleepers wake and the running task is preempted |
| `Sched.Scheduler.TaskExit` | kernel/src/sched.rs:257-269 | the task has exited and another runs |
| `Sched.Scheduler.SpawnTask` | kernel/src/sched.rs:89-121 | one more runnable task |
| `Sched.Scheduler.AnyWorkerAlive` | kernel/src/sched.rs:124-129 | whether some task other than the idle one has not exited |
| `Input.InputBuf.DrainUart` | kernel/src/input.rs:49-65 | the longest prefix that fits joins the queue in order; reception is masked exactly when it ends up full |
| `Input.InputBuf.Pop` | kernel/src/input.rs:71-89 | the oldest byte leaves the queue; consuming from a full one unmasks |
| `Rings.Wrap` | kernel/src/ring.rs:54-57 | free-running u32 indices act like unbounded counters: distance, step and slot |
| `Rings.StepKeepsFifo` | user/src/uring.rs:51-60 | each single load or store of the client, and each entry the kernel takes or posts, keeps both rings FIFO queues of at most 16 |
| `Rings.TakesOldest` | kernel/src/ring.rs:152-159 | the kernel takes the oldest published entry, with all four fields as meant |
| `Rings.DropsWhenFull` | kernel/src/ring.rs:61-73 | a completion is dropped exactly when 16 are unreaped, and never overwrites one |
| `Rings.AllRunsFifo` | abi/src/lib.rs:113-139 | over every interleaving: consumed is a prefix of published, reaped of posted, at most 16 apart |
| `Rings.OverrunClobbers` | user/src/uring.rs:51-60 | with 16 unconsumed the next submission overwrites the oldest |
| `Uring.AllStashedHeld` | user/src/uring.rs:124-130 | completions reaped on the way are all kept if and only if the stash has room for them |
| `Uring.Client.TakeStashed` | user/src/uring.rs:95-102 | a stashed completion is found by its tag and removed |
| `Uring.Client.TakeArriving` | user/src/uring.rs:103-131 | completions before the one awaited are stashed in order |
| `Uring.Client.Put` | user/src/uring.rs:124-130 | the first empty slot takes it |
| `Uring.Client.Reap` | user/src/uring.rs:95-132 | the result posted under the tag, and with at most four others everything else kept exactly once |
| `Uring.Client.WaitAll` | user/src/uring.rs:80-86 | up to five outstanding requests, awaited in any order and completed in any order, each get their own result |
| `Uring.FiveOthersLoseOne` | user/src/uring.rs:124-130 | with five others ahead one completion is lost |
| `Waiting.WaitFor` | user/src/uring.rs:80-132 | a wait begun in any reachable state returns the result that the kernel posted for the request with that tag by any later state, and it is the right answer to that request |
| `Draining.ConsumeKept` | kernel/src/ring.rs:234-284 | processing one request of p touches only p's own page and table, its children's wait tags and newly made processes |
| `Draining.DrainEnds` | kernel/src/ring.rs:144-162 | the queue is empty after exactly tail - head (mod 2^32) requests, for any indices |
| `Draining.DrainReads` | kernel/src/ring.rs:152-159 | the requests consumed are the entries from the head on, in order |
| `Steps.FlagIsBit` | kernel/src/ring.rs:114 | the flag test is the mask with NEED_WAKEUP |
| `Layouts.ExitIs` | kernel/src/user.rs:77-105 | an exit tells the parent, retires the process and switches away |
| `Layouts.NextLayout` | kernel/src/process.rs:186-216 | every step keeps one task per process, and exited processes without ring, waiter or parked reads |
| `WakeUps.EnterWake` | kernel/src/ring.rs:102-138 | blocking in `enter` registers the waiter with an empty queue and too few completions |
| `WakeUps.NotifyWake` | kernel/src/ring.rs:392-397 | a completion from elsewhere leaves no waiter asleep that could go on |
| `WakeUps.NextWake` | kernel/src/ring.rs:98-138 | every step keeps: a waiter is registered exactly while its task is blocked in `enter`, rightly |
| `Spaces.SwitchSpace` | kernel/src/sched.rs:154-158 | switching installs the user task's own space, which is never a freed one |
| `Spaces.UartSpace` | kernel/src/ring.rs:370-390 | the interrupt puts back the space it found |
| `Spaces.NextSpace` | kernel/src/user.rs:96-102 | every step keeps: user tasks run in their own space, no freed root is live |
| `Consoles.DeliverTakes` | kernel/src/ring.rs:411-427 | a delivery takes bytes from the front until the read is full, the buffer empty or a byte not stored; that one byte is lost |
| `Consoles.DeliverStops` | kernel/src/ring.rs:414-420 | every byte it stores is accepted and lands; it stops early because the next one is refused or its store faults, and the machine stops exactly in the second case |
| `Consoles.DeliverStores` | kernel/src/ring.rs:411-427 | it stores the others at consecutive addresses of the read, through the live root |
| `Consoles.DeliverMoves` | kernel/src/ring.rs:411-427 | all of this for a whole delivery, with the order and the mask kept |
| `Consoles.DeliverLoses` | kernel/src/ring.rs:414-420 | a byte is lost if and only if one that the read and the buffer reach is refused or faults |
| `Consoles.DeliverSafe` | kernel/src/ring.rs:411-427 | as far as the gate takes the single bytes of what it accepts and their stores land, nothing is lost and a waiting byte is given; every byte stored passed the gate, in the reader's own space |
| `Consoles.PollSlotsServe` | kernel/src/ring.rs:376-386 | after the scan, a read still parked means an empty buffer, if the gate takes the first byte of what it accepts |
| `Consoles.SlotsInOrder` | kernel/src/ring.rs:376-386 | parked reads are served in the order of their slots: a later one gets something before an earlier one only if the earlier one's first byte cannot be stored |
| `Consoles.NextConsole` | kernel/src/input.rs:46-89 | every step keeps: bytes taken out in order, masked exactly when full, each stored in the reader's space if the gate takes the single bytes and their stores land, no foreground read beside buffered bytes if it takes the first |
| `Fates.CompleteLedgers` | kernel/src/ring.rs:61-73 | a completion settles its request, with its tag and a right answer |
| `Fates.RegisterLedgers` | kernel/src/process.rs:112-114 | a wait is registered for its child; an earlier one on the same child is overtaken |
| `Fates.ProcessLedgers` | kernel/src/ring.rs:234-333 | every consumed request gets exactly one fate; what it is answered with is right for whether it could be met then: a read fails only without a free slot, a spawn only without an image, a wait only without a child |
| `Fates.ServedLedgers` | kernel/src/ring.rs:377-386 | a served read leaves its slot and is answered with the bytes it got |
| `Fates.ExitLedgers` | kernel/src/ring.rs:338-348 | an exit settles the parent's wait with the exit code |
| `Fates.NextLedgers` | kernel/src/process.rs:105-124 | every step keeps the books of every live process |
| `Reads.BytesStored` | kernel/src/ring.rs:411-427 | a delivery fills the start of its request's buffer with exactly the bytes it counts |
| `Reads.NextFilled` | kernel/src/ring.rs:255-279 | every step keeps: what was stored for a request is what it was answered with |
| `Fifo.SettledWired` | kernel/src/ring.rs:61-73 | with at most 16 requests published and not reaped there is room for every completion |
| `Fifo.NextWires` | kernel/src/ring.rs:140-162 | every step keeps the rings of library users FIFO, whatever other processes do |
| `Handshake.SleepFlags` | kernel/src/ring.rs:190-203 | the poller falls asleep with every flag up and nothing submitted |
| `Handshake.TrapFlags` | user/src/uring.rs:74-78 | the trap of a submit empties the queue, lowers the flag, wakes the poller if the flag was up, and keeps what the flags tell |
| `Handshake.NextFlags` | kernel/src/ring.rs:112-122 | every step keeps: while the poller sleeps a ring's flag is up exactly if it was there then, and nothing is submitted unseen |
| `Histories.NextGrows` | kernel/src/process.rs:105-124 | every step keeps exit codes, parents, images, consumed requests, posted completions and decided fates |
| `Machine.BootInv` | kernel/src/main.rs:59-75 | the invariant holds at boot |
| `Machine.NextInv` | kernel/src/ring.rs:98-427 | every step of every agent keeps the whole invariant and only adds to the history |
| `Machine.OnwardInv` | kernel/src/exceptions.rs:126-144 | and so does a step that ends at a store that faults |
| `Machine.RunInv` | kernel/src/ring.rs:98-427 | so does every run, and it only adds to the history |
| `Machine.ReachableNext` | kernel/src/ring.rs:98-427 | the reachable states are closed under the steps |
| `Results.NoLostWakeUp` | kernel/src/ring.rs:124-137 | in every reachable state a waiter is registered exactly while its task is blocked in `enter`, with nothing submitted and fewer completions than it asked for |
| `Results.OwnSpace` | kernel/src/sched.rs:154-158 | a running user task is in its own space; the live root is the kernel's or that of a live process, never a freed one |
| `Results.DrainsAtHome` | kernel/src/ring.rs:174-180 | while the requests of a process are consumed, by its own call or by the poller, its space is live |
| `Results.ConsoleInput` | kernel/src/input.rs:1-13 | taken = taken out + buffered in order; masked exactly when full; no store stops the machine if all accepted stores land, and then all of it is stored as far as the gate takes single bytes; no foreground read beside buffered bytes if it takes the first |
| `Results.UartTakes` | kernel/src/input.rs:49-65 | the interrupt takes the waiting bytes in order, all of them or as many as fill the buffer |
| `Results.StoredAtHome` | kernel/src/ring.rs:370-390 | every byte ever stored for a read was stored while the reader's own root was live, at an address the gate lets it write |
| `Results.RingsApart` | kernel/src/ring.rs:411-427 | no byte the kernel ever stored for a read lies in a ring page, if the foreground process cannot name one |
| `Results.EachRequestOnce` | kernel/src/ring.rs:231-348 | every completion answers one request with its tag and a right result, none is answered twice, all others are parked, waiting, dropped or overtaken |
| `Results.ReadsGetTheirBytes` | kernel/src/ring.rs:264-279 | while the machine runs, a completed read had exactly as many bytes as its result stored for it, from the start of its buffer on in order; no other request had any |
| `Tally.TagsConserved` | kernel/src/process.rs:112-184 | consumed tags = posted + parked + registered waits + dropped + overtaken, as multisets |
| `Results.LibraryUser` | abi/src/lib.rs:117-120 | prefixes at most 16 apart in both rings; with at most 16 published and not reaped nothing is ever dropped |
| `Results.WaitAnswered` | kernel/src/ring.rs:320-348 | a wait on an exited child has exactly one completion, with its exit code, whether it came before or after the exit; `Exits.WaiterGetsCode` says which code that is |
| `Results.WrongHandle` | kernel/src/ring.rs:323-328 | a handle that is not a child gets the error |
| `Results.SettledForGood` | kernel/src/process.rs:105-124 | exit codes and answers never change, over any run |
| `Results.SpawnMakes` | kernel/src/ring.rs:287-317 | a spawn request that finds an image makes exactly one process, with its ranges, root, parent, shared pages and a runnable task, and is answered with its number; otherwise nothing is made and the error is the answer |
| `Results.SetupGives` | kernel/src/ring.rs:78-96 | the first setup gives a zeroed page, a second one changes nothing |
| `Results.UserStores` | user/src/uring.rs:51-60 | a store of user code is one event of the ring protocol, or any store at all to its page, and touches nothing else |
| `Exits.ExitRecorded` | kernel/src/user.rs:77-105 | an exit records exactly its code, for that process only, ends its task, unmaps its shared pages and gives back its root, which is not live any more |
| `Exits.WaiterGetsCode` | kernel/src/ring.rs:338-348 | over every run after it: each completion of a wait on that process carries that code, and a wait that is neither overtaken nor dropped has exactly one |
| `Entering.EnterReturns` | kernel/src/ring.rs:124-137 | in every reachable state a round of `enter` returns if and only if there are as many completions to reap as asked for; otherwise the task is blocked with its waiter registered |
| `Entering.EnterMeetsMin` | kernel/src/ring.rs:98-138 | over every run: a call that went to sleep still asks for what it was called with when its task runs again, and returns then exactly if there are so many |
| `Polling.PollerServes` | kernel/src/ring.rs:174-180 | a turn of the scan with something submitted empties that queue in order, in that process's space, and counts as work; without, nothing changes |
| `Polling.PollerRound` | kernel/src/ring.rs:173-181 | from the top, a round left to run leaves every queue empty, with all that was in it consumed, and counts as worked exactly if there was something |
| `Polling.PollerDecides` | kernel/src/ring.rs:182-203 | the poller sleeps if and only if it had nothing to do for five ticks and, with the flags raised, still nothing waits |
| `Polling.PollerMovesOn` | kernel/src/ring.rs:173-206 | the other turns of its loop, the one after being woken included |
| `Polling.FlagsLowered` | kernel/src/ring.rs:182-229 | having worked or been woken, a poller left to run has all flags down and its idle time started anew when it lets others run |
| `Scheduling.StepPicks` | kernel/src/sched.rs:131-162 | every step of the whole system lets the running task go on or runs the next one that can; ticks, yields and exits do the latter |
| `Scheduling.NoStarvation` | kernel/src/sched.rs:133-162 | over every run of the whole system: while a task can run and is not run, at most n - 2 timer ticks go by |
| `Results.FlagTells` | kernel/src/ring.rs:183-203 | while the poller sleeps a flag is up if and only if its ring was there when the poller fell asleep; if it is up, a published request has its submit still to come |
| `Results.SubmitRevives` | user/src/uring.rs:71-78 | a submit, load and trap, while the poller sleeps wakes it and leaves the queue empty if and only if the flag is up; otherwise every ring and the poller stay as they are |
| `Results.SubmitLoads` | user/src/uring.rs:71-78 | with the flag down the load ends the submit and changes nothing; with the flag up the submit is still to come, and a trap ends it |
| `Results.TrapSubmits` | user/src/uring.rs:71-78 | whatever came between load and trap, the trap leaves the queue empty and the flag down, and the poller awake if the flag was still up |
| `Losses.LosslessIff` | kernel/src/ring.rs:411-427 | for given ranges: no reachable state has lost a byte if and only if the gate takes each of the first 255 bytes of every range it accepts, and all that it takes lies in the private window on pages that no read-only range overlays |
| `Losses.AllLandIff` | kernel/src/process.rs:222-239 | the second half of that condition, range by range |
| `Losses.TypedThenFault` | kernel/src/ring.rs:414-420 | from each accepted address that fails it, a run from boot that loses a byte to a store that faults |
| `Losses.DisjointLossless` | kernel/src/process.rs:222-239 | ranges that are apart and lie in the window meet the whole condition |
| `Losses.PromptIff` | kernel/src/ring.rs:370-390 | for given ranges: no reachable state of a running machine has a foreground read parked beside buffered bytes if and only if the gate takes the first byte of every range it accepts |
| `Windows.LateRingStranded` | kernel/src/ring.rs:86-94 | a ring set up while the poller sleeps has its first request stranded |
| `Windows.SleeperReachable` | kernel/src/ring.rs:169-206 | a run from boot leads to such a state |
| `Preemption.Covers` | kernel/src/ring.rs:169-207 | the machine with the poller's steps cut can do all that the other can |
| `Preemption.SleepsWithFlagDown` | kernel/src/ring.rs:194-198 | a run from boot in which the poller, preempted before blocking, sleeps with the flag of an early ring down |
| `Preemption.ActivatesFreedRoot` | kernel/src/ring.rs:176-178 | a run from boot in which the poller, preempted before activating, installs a freed root |
| `Preemption.DeliversElsewhere` | kernel/src/ring.rs:177-178 | a run from boot in which the poller, preempted between activating and draining, stores a byte typed for one process into the memory of another |
| `Strikes.SleeperStruck` | kernel/src/ring.rs:124-137 | a run from boot to a process that sleeps with its queue empty, as far as this model goes, and the byte stored for its read in its submission tail, which makes the queue not empty |
| `Driver.RingKernel.Pop` | kernel/src/input.rs:71-89 | the console step of taking a byte |
| `Driver.RingKernel.CopyByte` | kernel/src/user.rs:29-46 | the byte is stored if and only if the gate accepts it and the store lands; the machine stops exactly if it is accepted and does not land |
| `Driver.RingKernel.DrainInput` | kernel/src/ring.rs:411-427 | the loop computes the delivery, through the live root and up to a store that faults |
| `Driver.RingKernel.ForegroundPid` | kernel/src/process.rs:160-162 | the first process with the flag |
| `Driver.RingKernel.ParkRead` | kernel/src/process.rs:165-174 | the loop finds the first empty slot |
| `Driver.RingKernel.Read` | kernel/src/ring.rs:255-279 | computes the read request, error paths included |
| `Driver.RingKernel.ProcessSqe` | kernel/src/ring.rs:234-284 | computes the request by its opcode |
| `Driver.RingKernel.DrainRing` | kernel/src/ring.rs:144-162 | the loop computes the drain, and says whether there was work |
| `Driver.RingKernel.Schedule` | kernel/src/sched.rs:133-162 | the loop computes the switch, live root included |
| `Driver.RingKernel.EnterRing` | kernel/src/ring.rs:102-138 | computes `enter` up to its return or block, which `Entering.EnterReturns` tells apart |
| `Driver.RingKernel.Teardown` | kernel/src/user.rs:77-105 | computes the exit |
| `Driver.RingKernel.RaiseAll` | kernel/src/ring.rs:221-229 | the loop raises every flag |
| `Driver.RingKernel.ScanPending` | kernel/src/ring.rs:376-386 | the loop computes the scan of parked reads |
| `Driver.RingKernel.PollReads` | kernel/src/ring.rs:360-398 | computes the completion of parked reads, switch and restore included |
| `Driver.RingKernel.TakeInput` | kernel/src/input.rs:49-65 | the loop takes what fits and masks reception when full |
| `Driver.RingKernel.AnyWork` | kernel/src/ring.rs:195 | the loop answers whether any ring has something to consume |
| `Driver.RingKernel.GoToSleep` | kernel/src/ring.rs:191-203 | raising, looking again and blocking compute the step, both outcomes included |
| `Driver.RingKernel.PollerStep` | kernel/src/ring.rs:169-207 | the poller's loop computes its step from every place in it; what the steps do is in `Polling` |
| `Driver.RingKernel.Step` | kernel/src/ring.rs:98-427 | in any state of the invariant, for any action that can happen, the code computes the next state of the transition system and keeps the whole invariant; if a store faulted, the console is as at the fault |
| `Driver.HandlersReady` | kernel/src/ring.rs:98-427 | in every state of the invariant the handlers' preconditions hold |

## Left out

- Process.ProcessTable.Spawn: malformed images, a segment that reaches a block of the identity map and exhausted frames make the kernel panic, so they are preconditions; the frames asked for are four for each page, the most it can take.
- Loader.Load: the end of a segment does not overflow 2^64, as in a checked build.
- Workload.AcceptedIsOwned: says nothing of bytes whose page, modulo 2^48, lies below the user window, which another process's load can take over, as `Workload.ShareAPage` shows.
- AddressSpaces.Mmu.UnmapPageIn: bounds the stale set from above only.
- AddressSpaces.Mmu.InitHeap: asks for four frames for each page of the window, where two tables are enough for all.
- Process.ProcessTable.SetupRing: needs four free frames, for the page and up to three tables.
- Process.ProcessTable.Lifecycle: asks for four frames more than the image needs, for the ring.
- Workload.SpawnAndFind: leaves out the stack page, which the stack takes over from a segment mapped there.
- Results.NoLostWakeUp: speaks of the ring page as the rings' own two sides write it; a byte stored for a read into a nameable ring page can contradict it, as `Strikes.SleeperStruck` shows, and `Results.RingsApart` says when none is.
- Results.ReadsGetTheirBytes: not of the state after a store that faulted, in which the requests of that step are half done.
- Machine.RunInv: assumes the poller's two compound steps and a clock below 2^64 - 1, as said above.
- Results.WaitAnswered: excludes a completion dropped on a full queue, which `Results.LibraryUser` excludes for careful clients, and a wait overtaken by a later one on the same child.
- Uring.Client.Reap: sleeping or spinning on an empty queue is waiting for the next completion; that it comes is a precondition.
- Waiting.WaitFor: that the completion is posted by some later state is a precondition, and every request has a tag of its own, as the library's counter gives it.
- Heap.BumpAllocator.Alloc: the window lies in the lower half of the address space, where `align_up` cannot overflow; what the kernel keeps in the heap is not tied to the frames under it.
- Sched.Scheduler.SleepTicks: the deadline does not overflow, as in a checked build.
- Rings.StepKeepsFifo: the page sits in memory seen in program order; weak memory and barriers are not modelled.
- The request path keeps the process table as a sequence of values; locks, and the poller holding one with interrupts enabled, are not modelled.
- Printed text, its UTF-8 check and the registry of programs are not modelled; a spawn request finds an image or not.
- Registers, stacks, `boot.s`, `switch.s`, `exceptions.s`, the GIC, the timer and UART registers, barriers and cache maintenance are not modelled beyond their effect.
- The shell, the demo programs and the boot self-checks are not modelled.
- Liveness is stated as bounds over finite runs (`Scheduling.NoStarvation`, `Polling.PollerRound`); that timer interrupts keep coming is not modelled.
