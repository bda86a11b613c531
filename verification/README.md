# plex86: a verified model of the virtual machine monitor

plex86 runs an x86 guest on real ring 3 under a small monitor. This project models its
host-neutral core in Dafny and proves what that core keeps over whole runs.

- **Shadow paging and page pinning** (`Words`, `GuestTables`, `PinQueue`, `Shadow`, `ShadowFill`,
  `ShadowRuns`, `ShadowTheorems`, `Pager`, and concrete guests in `ShadowWitness`): the lazily filled
  shadow of the guest's page tables, the 80-table heap it is built from and the 1024-slot ring of pinned
  pages. The shadow is coherent with the guest's own walk, maps only pinned pages and is exact about
  write permission, in every state of every run of faults, INVLPG, control register loads and evictions.
- **Guest memory by linear address** (`GuestAccess`): every read and write through the one
  remappable window means bytewise translation.
- **Privilege and interrupts** (`Eflags`, `Privilege`, `Descriptors`, `RoundTrip`, `Delivery`,
  `Nesting`, `InterruptTaken`, `Entry`, `Resume`, `Instructions`, `Emulator`, and concrete guests in
  `EntryWitness`, `RoundTripWitness`, `UserWitness`, `SystemCallWitness` and `PendingWitness`): guest ring 0 on real ring 3 with its IF in VIF. Delivery and IRET
  undo each other through translated guest memory, to any depth of nesting; the virtual-interrupt
  invariant holds at every resumption; each handler is entered at the address and on the stack that guest memory
  names, and each emulated instruction returns behind itself; the monitor's own GDT slots are never touched.
- **8259A and 82C54** (`Pic`, `Io`, `Clock`, `IoBus`): no interrupt is lost, interrupts are conserved,
  the highest priority is served, batched clocks refine single ones, and HLT ends exactly when it can.
- **Request protocol and VM lifecycle** (`Lifecycle`): over any sequence of ioctl calls the guest is
  entered only when it may be, and the saved context and INTR survive every trip to user space.

Each component has value-level operations, lemmas about them and about their runs, and classes
(`Pager.Monitor`, `GuestAccess.Accessor`, `Emulator.Core`, `IoBus.Bus`, `Lifecycle.HostVm`) that
update fields and arrays in place as the C code does and are proved equal to those operations.

`monpanic` does not return, so a panic is the outcome `Panic`, and the state behind it is dead.
Calls into the host OS are parameters: a pin yields some host frame or fails, an allocation gets so
far, `hostOSIdle` answers yes or no. `ANAL_CHECKS` is taken as 1, and the GDT slots are those of
Linux 2.4. Registers whose bits are tested one by one are sets of lines in the PIC and bit vectors in
EFLAGS; addresses are integers with 32-bit wrap-around written out.

What the code does that its comments or a reader might not expect, each proved:

- A mask write does not lower INTR, so `picIAC` can reach its panic; this happens exactly when the
  write masks the last pending request under a raised INTR (`Pic.OutKeeps`, `Io.SpuriousInterruptPanics`).
- A batch of PIT clocks reloads a mode-2 counter in full, so it differs from single clocks exactly when
  the batch ends in mid-period (`Clock.BatchRefinesSingles`, `Clock.BatchDiffers`).
- Interrupts are delivered exactly under INTR, VIF and ring 0 (`Resume.DeliversIff`), so a guest user
  program is never interrupted: it runs on, with INTR high, through any number of host interrupts and
  page faults (`Resume.UserRunsOn`, `PendingWitness.PendingInRing3`).
- A write to a mapped read-only page that the guest's tables allow ends in a panic
  (`ShadowTheorems.PresentFaultIsGuestFault`, `ShadowWitness.PermittedWritePanics`).
- In Linux mode a first entry in ring 3 may install a ring-0 data descriptor (`EntryWitness.Ring0DataAccepted`,
  with the exact condition in `Entry.EntryRing3Iff`).
- `mapGuestLinAddr` can report success without mapping anything: exactly when pinning the page evicts
  another, which resets the shadow and leaves the new entry in a detached table
  (`ShadowRuns.SuccessMapsIff`, `ShadowWitness.EvictingFillMapsNothing`).
- A failed registration leaves state bits behind. Once the CPU window has been pinned neither a retry
  nor a teardown is accepted before UNREGISTER; and if the allocation had completed, UNREGISTER is
  not enough for a retry and TEARDOWN is needed too (`Lifecycle.FailedRegistrationSticks`).

## Model

| member | source | states |
|---|---|---|
| `GuestTables.WalkersAgree` | plex86/host-kernel/vmm/monitor-space/x86-emu.c:203-250 | On every address, with PAE=PSE=0, `translateLinToPhy` answers the page of the two-level walk times 4096 plus the offset, and "not available" exactly when the walk finds none |
| `GuestTables.TranslateByPage` | plex86/host-kernel/vmm/monitor-space/x86-emu.c:203-250 | Translation is page by page: one page answer for a whole linear page, and the result lies in memory exactly when that page does |
| `GuestTables.TablesDecideTranslation` | plex86/host-kernel/vmm/monitor-space/paging.c:383-435 | Setting A and D bits anywhere in memory changes neither walker's answer |
| `ShadowFill.ConsultIsArchitectural` | plex86/host-kernel/vmm/monitor-space/paging.c:330-435 | The guest-table half of `mapGuestLinAddr` grants exactly what both entries grant (U/S for user accesses, R/W for writes by the user or under WP), else reports the architectural error code; its verdict also holds in the memory it leaves |
| `ShadowFill.ConsultMarks` | plex86/host-kernel/vmm/monitor-space/paging.c:377-430 | What it writes in guest memory: on a grant bit 5 of both entries, and bit 6 of the table entry for a write; on a refusal at most bit 5 of the directory entry, before family 6; and no other byte |
| `ShadowFill.ConsultPanicsIff` | plex86/host-kernel/vmm/monitor-space/paging.c:330-401 | When the host can pin, it panics exactly when the guest's walk leaves guest memory |
| `ShadowFill.WalkersAgreeOnFill` | plex86/host-kernel/vmm/monitor-space/paging.c:330-435 | Whatever page a fill obtains, `translateLinToPhy` returns that page before the call and after it |
| `PinQueue.EnqueueIsFifo` | plex86/host-kernel/vmm/host-space/monitor.c:2121-2191 | The ring with nEntries and tail is one step of a bounded FIFO: append, dropping the oldest only when full |
| `PinQueue.RingIsSlidingWindow` | plex86/host-kernel/include/monitor.h:393-405 | Over any sequence of requests the ring holds exactly the last 1024, in order |
| `PinQueue.VictimIsLeastRecent` | plex86/host-kernel/include/monitor.h:393-405 | The page evicted is always the one pinned longest ago |
| `Shadow.PinKeeps` | plex86/host-kernel/vmm/host-space/monitor.c:2121-2191 | Pinning an unpinned page keeps "live slots are distinct and are exactly the pinned pages", pins that page at that frame, and leaves every other page pinned where it was but the victim of a full ring, which it unpins |
| `Shadow.PinnedMoves` | plex86/host-kernel/vmm/monitor-space/paging.c:87-105 | A pin leaves the page pinned and either keeps the shadow and every pin, or has dropped the whole shadow |
| `ShadowFill.PinsIff` | plex86/host-kernel/vmm/monitor-space/paging.c:87-105 | A page can be had exactly when it is guest memory and is pinned already or the host pins it |
| `ShadowTheorems.PinRunIsFifo` | plex86/host-kernel/vmm/host-space/monitor.c:2121-2191 | Over any run of successful requests for unpinned pages: at most 1024 pinned, distinct, exactly the ring's slots, and the victim is the page requested 1024 requests ago |
| `ShadowFill.AllocateKeepsHeap` | plex86/host-kernel/vmm/monitor-space/paging.c:129-155 | Taking a table from the 80-entry heap succeeds while next<80 and keeps the heap consistent (present PDE iff mapped, injective, base is the table's frame, next counts present PDEs) |
| `Shadow.ResetKeepsHeap` | plex86/host-kernel/vmm/monitor-space/paging.c:285-310 | A reset keeps the heap consistent and leaves no guest leaf present |
| `ShadowFill.StoreAfterPin` | plex86/host-kernel/vmm/monitor-space/paging.c:527-595 | The PTE store that ends a fill, even when the pin before it evicted a page and reset the directory: the only new leaf is the one asked for, and after an eviction it is in a detached table |
| `ShadowFill.FillKeeps` | plex86/host-kernel/vmm/monitor-space/paging.c:437-595 | The shadow half of `mapGuestLinAddr` keeps all invariants, adds no leaf but the one asked for and loses none unless it evicts, answers "already mapped" iff the leaf was present, and on success the leaf is mapped iff pinning the page evicts nothing (it was pinned, or the ring had room) |
| `ShadowFill.FillAnswers` | plex86/host-kernel/vmm/monitor-space/paging.c:437-595 | Each answer and panic of the shadow half by its cause: page out of memory, the monitor's own space, no table to be had, mapped already, read-only or MMIO, mapped |
| `ShadowRuns.SuccessMapsIff` | plex86/host-kernel/vmm/monitor-space/paging.c:314-595 | A whole `mapGuestLinAddr` that reports success has mapped L iff pinning the granted page, in the state the walk leaves, evicts nothing |
| `ShadowRuns.FillServes` | plex86/host-kernel/vmm/monitor-space/paging.c:452-595 | A fill that maps permits the very access it was made for, in either ring and under either WP, and carries the guest's A and D bits; the directory entry too, unless it stood before |
| `ShadowWitness.EvictingFillMapsNothing` | plex86/host-kernel/vmm/monitor-space/paging.c:565-568 | A concrete guest of eight megabytes with a full ring: the fill reports success and L is not mapped |
| `ShadowRuns.StepKeeps` | plex86/host-kernel/vmm/monitor-space/paging.c:227-647 | Every page fault, INVLPG, CR0/CR3/CR4 load, pin, guest run and first load keeps heap and ring exact, and each leaf it leaves stood before unflushed or matches the guest tables as they now are |
| `ShadowRuns.ControlLoads` | plex86/host-kernel/vmm/monitor-space/x86-emu.c:799-886 | A load of CR0, CR3 or CR4 leaves the loaded value's PG and WP, base or zero in force and an empty shadow; CR0 is accepted iff PE=MP=ET=NE=1 and NW=CD=0, CR4 iff it is 0 |
| `ShadowRuns.InvalidatedLeaves` | plex86/host-kernel/vmm/monitor-space/paging.c:227-282 | INVLPG drops the leaf of its page and keeps every other leaf |
| `ShadowRuns.InvalidatesIff` | plex86/host-kernel/vmm/monitor-space/paging.c:227-282 | It is carried out exactly under paging and outside the monitor's own four megabytes |
| `ShadowRuns.PageFaultForwards` | plex86/host-kernel/vmm/monitor-space/paging.c:599-647 | A page fault is injected, with the hardware's own code, exactly when the guest's tables refuse the access, and otherwise filled |
| `ShadowRuns.FaultHandledIff` | plex86/host-kernel/vmm/monitor-space/paging.c:599-647 | Any fault in the monitor's own space, with reserved bits, or that is neither filled nor the guest's own, panics |
| `ShadowTheorems.RunKeeps` | plex86/host-kernel/vmm/monitor-space/paging.c:107-180 | Page-table heap and pin-ring consistency in every state of every run |
| `ShadowTheorems.ShadowCoherence` | plex86/host-kernel/vmm/monitor-space/paging.c:227-595 | In every reachable state a present shadow entry for L holds the pinned frame, and the write permission, that the guest's own walk of L gave at some moment since L was last flushed |
| `ShadowTheorems.DirCoherence` | plex86/host-kernel/vmm/monitor-space/paging.c:452-515 | In every reachable state a present directory entry carries the write permission the guest's entry gave at some moment since the last reset; INVLPG does not refresh it |
| `ShadowTheorems.ShadowIsCurrentWalk` | plex86/host-kernel/vmm/monitor-space/paging.c:227-595 | If the guest left its translation of L alone since L was last flushed (INVLPG or reset), the present entry is the current walk |
| `ShadowTheorems.NoUnpinnedMapping` | plex86/host-kernel/vmm/host-space/monitor.c:2121-2191 | Every reachable present leaf points at the recorded frame of a page that is pinned now and sits in the ring |
| `ShadowTheorems.WritePermissionExact` | plex86/host-kernel/vmm/monitor-space/paging.c:452-595 | With PG=WP=1, the walk of L unedited since its last flush and its directory entry since the last reset, hardware may write iff guest PDE.RW and PTE.RW and the page is not read-only, whichever CPL filled it; both US bits are set |
| `ShadowTheorems.PresentFaultIsGuestFault` | plex86/host-kernel/vmm/monitor-space/paging.c:599-647 | A write fault on a present entry: an exception with the architectural code iff the guest forbids the write; otherwise the page is read-only and `guestPageFault` panics |
| `ShadowWitness.WriteAfterReadPanics` | plex86/host-kernel/vmm/monitor-space/paging.c:599-647 | Any user program that reads an unmapped read-only page its own tables make writable, with room in the ring, and then writes to it, panics the monitor |
| `ShadowWitness.PermittedWritePanics` | plex86/host-kernel/vmm/host-space/monitor.c:577-587 | Such a run, concretely: a guest of four megabytes maps the VGA BIOS page, which registration marked read-only, writable, reads it and writes to it |
| `Pager.Monitor.InitShadowPaging` | plex86/host-kernel/vmm/monitor-space/paging.c:285-310 | The reset loop over 1024 PDEs computes exactly the reset shadow |
| `Pager.Monitor.HandlePagePinRequest` | plex86/host-kernel/vmm/host-space/monitor.c:2121-2191 | Updates pinned bits, frames and ring in place to exactly the specified pin, eviction included, and fails exactly when it must |
| `Pager.Monitor.GetHostOSPinnedPage` | plex86/host-kernel/vmm/monitor-space/paging.c:87-105 | Pins the page if it is not pinned; panics exactly when specified |
| `Pager.Monitor.GetFreePageTable` | plex86/host-kernel/vmm/monitor-space/paging.c:129-155 | Takes and zeroes the next table; fails exactly when the heap is exhausted or the slot is taken |
| `Pager.Monitor.ConsultGuest` | plex86/host-kernel/vmm/monitor-space/paging.c:330-408 | In-place walk of the guest directory, equal to the specified verdict and new state |
| `Pager.Monitor.ConsultGuestTable` | plex86/host-kernel/vmm/monitor-space/paging.c:391-435 | In-place walk of the guest page table, equal to the specified verdict and new state |
| `Pager.Monitor.FillShadow` | plex86/host-kernel/vmm/monitor-space/paging.c:437-525 | In-place entry into the shadow directory and table, equal to the specified fill |
| `Pager.Monitor.StoreEntry` | plex86/host-kernel/vmm/monitor-space/paging.c:527-595 | The final checks, pin and PTE store, equal to the specified fill of one entry |
| `Pager.Monitor.MapGuestLinAddr` | plex86/host-kernel/vmm/monitor-space/paging.c:314-595 | The whole operation in place: same result, error code and new state as the specification, panics included |
| `Pager.Monitor.InvalidateGuestLinAddr` | plex86/host-kernel/vmm/monitor-space/paging.c:227-282 | In-place INVLPG: drops exactly the leaf of that page, or panics exactly when specified |
| `Pager.Monitor.GuestPageFault` | plex86/host-kernel/vmm/monitor-space/paging.c:599-647 | Which faults are mapped, forwarded with their error code, or fatal |
| `GuestAccess.WithinPage` | plex86/host-kernel/vmm/monitor-space/x86-emu.c:1016-1087 | An object inside one page is one contiguous piece of memory or unreadable |
| `GuestAccess.AcrossPages` | plex86/host-kernel/vmm/monitor-space/x86-emu.c:1016-1087 | An object across a boundary is the end of one page and the start of the next, readable iff both are |
| `GuestAccess.BoundsTest` | plex86/host-kernel/vmm/monitor-space/x86-emu.c:1030-1075 | The wrapping 32-bit bounds tests plus the page check refuse exactly the addresses outside memory |
| `GuestAccess.Accessor.TranslateLinToPhy` | plex86/host-kernel/vmm/monitor-space/x86-emu.c:203-250 | The walk through the one remappable window computes the specified translation |
| `GuestAccess.Accessor.OpenPage` | plex86/host-kernel/vmm/monitor-space/paging.c:197-217 | Maps the page, or refuses exactly when it is outside guest memory |
| `GuestAccess.Accessor.GetObjectLAddr` | plex86/host-kernel/vmm/monitor-space/x86-emu.c:1016-1087 | For every address and 1<=len<=4096: byte i is memory at the translation of L+i, and it panics exactly when some byte has none |
| `GuestAccess.Accessor.GetGuestDWord` | plex86/host-kernel/vmm/monitor-space/x86-emu.c:1090-1119 | Fast path and general case both give the little-endian dword of the bytewise translation |
| `GuestAccess.Accessor.GetGuestWord` | plex86/host-kernel/vmm/monitor-space/x86-emu.c:1122-1152 | Likewise for a word |
| `GuestAccess.Accessor.WriteGuestDWord` | plex86/host-kernel/vmm/monitor-space/x86-emu.c:1155-1175 | Stores the dword at the translation and nothing else; refuses exactly at a page crossing, outside memory or without translation |
| `Privilege.DescriptorBytes` | plex86/host-kernel/vmm/monitor-space/x86-emu.c:1200-1241 | Decoding a descriptor loses nothing: its fields re-encode to the same eight bytes |
| `Privilege.GateBytes` | plex86/host-kernel/vmm/monitor-space/x86-emu.c:1347-1388 | Nor does decoding a gate: offset, selector, type, DPL and P re-encode to the same bytes, byte 4 apart |
| `Eflags.DeliveryKeeps` | plex86/host-kernel/vmm/monitor-space/x86-emu.c:1390-1503 | Delivery to ring 0 leaves IF=1, IOPL=VM=NT=0, VIP as it was, and differs from the interrupted flags only in bits IRET sets again |
| `Eflags.DeliveryMasks` | plex86/host-kernel/vmm/monitor-space/x86-emu.c:1390-1496 | The handler starts with the guest's own interrupt flag off through an interrupt gate and unchanged through a trap gate, whichever ring was interrupted |
| `Eflags.FlagsReturn` | plex86/host-kernel/vmm/monitor-space/x86-emu.c:1660-1754 | The pushed image passes every check of IRET, the VIF/IF one included, and gives back the interrupted flags exactly |
| `Eflags.ReturnKeeps` | plex86/host-kernel/vmm/monitor-space/x86-emu.c:1660-1754 | Whatever image IRET accepts, the flags it leaves have IF=1, VIP=0, and VIF=0 outside ring 0 |
| `RoundTrip.StoreMissesTables` | plex86/host-kernel/vmm/monitor-space/x86-emu.c:1155-1175 | A dword stored outside the live page tables changes no translation and no page's standing as a table |
| `RoundTrip.PushAllLands` | plex86/host-kernel/vmm/monitor-space/x86-emu.c:1449-1473 | After pushing a frame outside the live tables every dword reads back, translation is unchanged and no other byte differs |
| `RoundTrip.LadderApart` | plex86/host-kernel/vmm/monitor-space/x86-emu.c:1449-1473 | The dwords of one frame never share a physical byte, however its pages map |
| `RoundTrip.InterruptEnters` | plex86/host-kernel/vmm/monitor-space/x86-emu.c:1330-1517 | The full effect of a successful delivery on the CPU: ring 0, PVI on, stack and flags, the frame pushed, every other register kept, at the address of the gate |
| `Delivery.GateOnMemory` | plex86/host-kernel/vmm/monitor-space/x86-emu.c:1347-1388 | A gate is found iff guest memory holds one: in an aligned IDT, present, type 14 or 15, DPL open to INT, its selector naming a present ring-0 code segment; its offset is words 0 and 3 |
| `Delivery.HandlerAddress` | plex86/host-kernel/vmm/monitor-space/x86-emu.c:1475-1503 | The handler's EIP is the word at translate(idtr.base+8v) plus 0x10000 times the word at +6, its CS the word at +2 pushed down, in ring 0 with VM, RF, NT and TF clear and the guest's IF off iff the gate is an interrupt gate or it was off |
| `Delivery.HandlerStack` | plex86/host-kernel/vmm/monitor-space/x86-emu.c:1401-1459 | The handler's stack is the ESP0:SS0 of the guest's busy TSS, a present ring-0 data segment, from ring 3 and the interrupted stack from ring 0, below the frame |
| `Delivery.ErrorCodeReads` | plex86/host-kernel/vmm/monitor-space/x86-emu.c:1470-1473 | The handler reads the pushed error code at its ESP |
| `Delivery.IretPops` | plex86/host-kernel/vmm/monitor-space/x86-emu.c:1521-1754 | Any IRET: EIP, CS and, to ring 3, ESP and SS are the words at ESP; NT, VM and IOPL are 0, IF=VIF to ring 0, IF=1 from ring 0 to ring 3; both segments are present and of the right kind and ring; user data selectors are live |
| `RoundTrip.IretRestores` | plex86/host-kernel/vmm/monitor-space/x86-emu.c:1521-1754 | From any handler state back at an intact frame, IRET restores EIP, CS, EFLAGS, ESP, SS, CPL and CR4 of the interrupted state |
| `RoundTrip.InterruptIretRoundTrip` | plex86/host-kernel/vmm/monitor-space/x86-emu.c:1330-1754 | `doGuestInterrupt` then `doIRET` (error code popped) restores the whole saved context, CPL and CR4, from ring 0 or 3, through any gate, with memory changed only in the frame |
| `Nesting.NestedRoundTrip` | plex86/host-kernel/vmm/monitor-space/x86-emu.c:1330-1754 | The round trip to any depth: interrupts one after the other, each with any interrupts inside its handler, bring back context, CPL and CR4 while each frame misses the bytes the enclosing returns depend on; translations and guarded bytes stand |
| `Nesting.TripReturns` | plex86/host-kernel/vmm/monitor-space/x86-emu.c:1521-1754 | Whatever inner interrupts did outside the guarded bytes, the handler's IRET still finds its frame and descriptors |
| `RoundTripWitness.RoundTripHappens` | plex86/host-kernel/vmm/monitor-space/x86-emu.c:1330-1754 | A concrete ring-0 guest of four megabytes, paging off, meets every hypothesis of the round trip, takes an interrupt and comes back |
| `InterruptTaken.TakesInterrupt` | plex86/host-kernel/vmm/monitor-space/x86-emu.c:1330-1754 | Every settled ring-3 guest with a good gate, a TSS stack that fits and is no page table, and its descriptors below that stack takes the interrupt and is restored by IRET |
| `UserWitness.RoundTripHappens` | plex86/host-kernel/vmm/monitor-space/x86-emu.c:1330-1754 | There is such a guest of four megabytes with paging on: a concrete one meets every hypothesis for each of 32 vectors, by INT or not, enters at 0xc0108f30 on its TSS stack and comes back |
| `Emulator.PushAllConcat` | plex86/host-kernel/vmm/monitor-space/x86-emu.c:1449-1473 | Pushing a frame in stages is pushing it at once |
| `Emulator.Core.FetchGuestDescByLAddr` | plex86/host-kernel/vmm/monitor-space/x86-emu.c:1178-1197 | The eight aligned bytes at the translation, or panic |
| `Emulator.Core.FetchGuestDescBySel` | plex86/host-kernel/vmm/monitor-space/x86-emu.c:1200-1241 | The GDT descriptor a selector names, with DPL equal to its RPL, or panic |
| `Emulator.Core.GuestSelectorUpdated` | plex86/host-kernel/vmm/monitor-space/x86-emu.c:1798-1920 | Validates and installs in place exactly the specified slot of the GDT |
| `Emulator.Core.LoadGuestSegment` | plex86/host-kernel/vmm/monitor-space/x86-emu.c:973-1013 | Loads the pushed-down selector and its descriptor in place, as specified |
| `Emulator.Core.FetchGate` | plex86/host-kernel/vmm/monitor-space/x86-emu.c:1347-1388 | The gate that passes every check, or panic |
| `Emulator.Core.MakeRoom` | plex86/host-kernel/vmm/monitor-space/x86-emu.c:1401-1459 | Switches to the TSS stack if needed and leaves ESP at the bottom of the frame |
| `Emulator.Core.PushFrame` | plex86/host-kernel/vmm/monitor-space/x86-emu.c:1449-1473 | Pushes SS, ESP, EFLAGS, CS, EIP and the error code in the source's order, panicking exactly when some push must |
| `Emulator.Core.DoGuestInterrupt` | plex86/host-kernel/vmm/monitor-space/x86-emu.c:1330-1517 | In place, and exactly the delivery that the round trip is proved of |
| `Emulator.Core.DoIret` | plex86/host-kernel/vmm/monitor-space/x86-emu.c:1521-1754 | In place, and exactly the IRET that the round trip is proved of |
| `Descriptors.SelectorUpdatedIff` | plex86/host-kernel/vmm/monitor-space/x86-emu.c:1798-1900 | A selector is accepted iff it is a null data selector, or a GDT selector whose RPL is the DPL in guest memory, in a slot that the mode and level allow |
| `Descriptors.SelectorUpdatedGuards` | plex86/host-kernel/vmm/monitor-space/x86-emu.c:1798-1920 | The slot then holds the eight guest bytes with DPL 3; no other slot changes, and the slot is never 0 or 16 to 18 |
| `Descriptors.InterruptGuards` | plex86/host-kernel/vmm/monitor-space/x86-emu.c:1330-1517 | A whole delivery installs the guest's descriptors of the handler's CS and, from ring 3, SS, and no others |
| `Descriptors.IretGuards` | plex86/host-kernel/vmm/monitor-space/x86-emu.c:1521-1754 | IRET installs those of the CS and, to ring 3, the SS it returns to, and no others |
| `Descriptors.LoadSegmentGuards` | plex86/host-kernel/vmm/monitor-space/x86-emu.c:973-1013 | Likewise for a segment load |
| `Entry.CheckSegments` | plex86/host-kernel/vmm/host-space/monitor.c:954-1052 | The loop over the six segment registers reports the first one refused |
| `Entry.InstallDescriptors` | plex86/host-kernel/vmm/host-space/monitor.c:1098-1111 | The installing loop computes the specified GDT in place |
| `Entry.InstalledSlots` | plex86/host-kernel/vmm/host-space/monitor.c:1098-1111 | Each slot ends with the descriptor of the last register naming it, pushed down in ring 0; all other slots are untouched |
| `Entry.EntryKeepsMonitorSlots` | plex86/host-kernel/vmm/host-space/monitor.c:954-1111 | An accepted first entry touches neither slot 0 nor 16 to 18 and stays inside the GDT |
| `Entry.EntryRing3Iff` | plex86/host-kernel/vmm/host-space/monitor.c:1098-1111 | First entry installs only DPL-3 descriptors iff the guest enters in ring 0 or the last register naming each slot brings DPL 3 itself |
| `Entry.NormalEntryRing3` | plex86/host-kernel/vmm/host-space/monitor.c:1024-1040 | In normal mode the checks already demand DPL 3 |
| `EntryWitness.Ring0DataAccepted` | plex86/host-kernel/vmm/host-space/monitor.c:895-1111 | In Linux mode they do not: a concrete ring-3 state that passes every check of the first entry leaves a DPL-0 descriptor in slot 5 |
| `Entry.AcceptedIff` | plex86/host-kernel/vmm/host-space/monitor.c:895-1078 | A first entry is accepted iff native, CR0 has PE=MP=ET=NE=1 and CD=NW=0, CR4 is without features, each segment register may be loaded, and EFLAGS has bit 1 set, TF, IOPL, NT, RF, VM, VIF and VIP clear, and IF set outside ring 0 |
| `Entry.LoadedResumable` | plex86/host-kernel/vmm/host-space/monitor.c:1054-1165 | A state that passes the checks is loaded with IF=1, IOPL=VM=VIP=0, PVI iff ring 0, VIF=0 in ring 3, CS at RPL 3 |
| `Entry.LoadedLooksAsAsked` | plex86/host-kernel/vmm/host-space/monitor.c:1113-1169 | What the guest sees of itself is what user space asked for: CS, EIP, ESP, and flags but for VIF |
| `Resume.InterruptKeeps` | plex86/host-kernel/vmm/monitor-space/x86-emu.c:1330-1517 | Any delivery keeps the resumption invariant and ends in ring 0 |
| `Resume.IretKeeps` | plex86/host-kernel/vmm/monitor-space/x86-emu.c:1521-1754 | Any IRET keeps it, ending in the ring of the popped CS with PVI to match |
| `Resume.EmulateKeeps` | plex86/host-kernel/vmm/monitor-space/x86-emu.c:253-758 | So does every emulated kernel instruction: HLT, STI, INT, IRET, segment loads, far jump, port reads and writes, table and control registers |
| `Resume.HandleKeeps` | plex86/host-kernel/vmm/monitor-space/fault.c:147-178 | So does every exit from guest code, interrupt or fault |
| `Resume.PreGuestResumes` | plex86/host-kernel/vmm/monitor-space/fault.c:187-271 | `preGuest` leaves VIP equal to INTR and never together with VIF, and its final IF panic never fires |
| `Resume.EveryResumption` | plex86/host-kernel/vmm/monitor-space/fault.c:187-359 | At every resumption of every run: IF=1, IOPL=VM=0, CPL 0 or 3, PVI iff CPL 0, VIF=0 at CPL 3, CS at RPL 3, VIP=INTR, not VIP and VIF, GDT guarded; whatever the devices hold and whatever INTR user space hands back |
| `Resume.EveryResumptionFromEntry` | plex86/host-kernel/vmm/host-space/monitor.c:858-1183 | The same from any first load the host accepts, with slots 0 and 16 to 18 as the host left them |
| `Resume.DevicesKept` | plex86/host-kernel/vmm/monitor-space/fault.c:187-271 | If user space hands INTR back as it was shown it, no interrupt is lost in any run of the whole machine |
| `Resume.FaultChecksHold` | plex86/host-kernel/vmm/monitor-space/fault.c:289-295 | The sanity panics at the top of `handleGuestFault` never fire |
| `Resume.StiFindsIntr` | plex86/host-kernel/vmm/monitor-space/x86-emu.c:733-746 | A trapped STI always finds INTR up, and, with no interrupt lost so far, can acknowledge it iff the mask has not hidden the request |
| `Resume.FramesAreReturnable` | plex86/host-kernel/vmm/monitor-space/x86-emu.c:1675-1683 | The flags check of IRET never fires on a frame pushed by the monitor, and the flags come back exactly |
| `Resume.DeliversIff` | plex86/host-kernel/vmm/monitor-space/fault.c:244-262 | `preGuest` puts a line in service iff INTR is up, the guest is in ring 0 and VIF is set |
| `Resume.Ring3IsNeverInterrupted` | plex86/host-kernel/vmm/monitor-space/fault.c:244-262 | In ring 3 VIF is clear, so one `preGuest` changes nothing of the CPU but VIP, puts nothing in service and never lowers INTR |
| `Resume.UserRunsOn` | plex86/host-kernel/vmm/monitor-space/fault.c:147-271 | Over any run of host interrupts and filled page faults a user program stays in ring 3, nothing goes in service, and INTR once up stays up |
| `PendingWitness.PendingInRing3` | plex86/host-kernel/vmm/monitor-space/fault.c:244-262 | There is a user program with an unmasked request driving INTR that `preGuest` resumes in ring 3 with the devices as they were |
| `Emulator.Core.PassTime` | plex86/host-kernel/vmm/monitor-space/fault.c:194-241 | Cycle accounting, PIT clocks and the HAL interrupt request, in place |
| `Emulator.Core.PreGuest` | plex86/host-kernel/vmm/monitor-space/fault.c:187-271 | In place, and exactly the step the invariant is proved of |
| `Emulator.Core.EmulateSysInstr` | plex86/host-kernel/vmm/monitor-space/x86-emu.c:253-758 | In place, on a decoded instruction, exactly the specified emulation |
| `Emulator.Core.DoGuestFault` | plex86/host-kernel/vmm/monitor-space/x86-emu.c:135-200 | In place, exactly the specified treatment of #UD, #GP, #NM and #PF |
| `Emulator.Core.HandleGuestFault` | plex86/host-kernel/vmm/monitor-space/fault.c:275-359 | In place, cycles charged, checked and VIP taken back, exactly the specified handling of a fault |
| `Emulator.Core.HandleInt` | plex86/host-kernel/vmm/monitor-space/fault.c:147-178 | In place, exactly the specified handling of a host interrupt out of guest code, cycles charged; one out of monitor code touches nothing but memory |
| `Instructions.IntReturnsBehind` | plex86/host-kernel/vmm/monitor-space/x86-emu.c:578-592 | `int $n`, in ring 3 or the kernel, enters the handler of gate n, and the handler's IRET returns to EIP plus the instruction's length with all else restored |
| `SystemCallWitness.SystemCallReturns` | plex86/host-kernel/vmm/monitor-space/x86-emu.c:781-791 | There is such a system call: a concrete ring-3 program with paging on, for each of 32 vectors |
| `Instructions.StiReturnsBehind` | plex86/host-kernel/vmm/monitor-space/x86-emu.c:733-746 | A trapped STI takes the pending interrupt, whose handler returns behind the STI with VIF set |
| `Instructions.DeliverEnters` | plex86/host-kernel/vmm/monitor-space/fault.c:244-258 | A pending interrupt enters the gate of vectorOffset plus the highest-priority unmasked line, which goes in service |
| `Instructions.DeliverComesBack` | plex86/host-kernel/vmm/monitor-space/fault.c:244-258 | and its handler returns to where the guest was |
| `Instructions.NoMathRestarts` | plex86/host-kernel/vmm/monitor-space/x86-emu.c:168-185 | #NM out of ring 3 goes through gate 7 and restarts the instruction |
| `Instructions.PageFaultRestarts` | plex86/host-kernel/vmm/monitor-space/x86-emu.c:187-198 | An injected page fault goes through gate 14, its handler reads the hardware's code, without bit 2 outside ring 3, at ESP, and its return restarts the instruction |
| `Instructions.MovesOn` | plex86/host-kernel/vmm/monitor-space/x86-emu.c:632-651 | HLT, ports, table and control registers and the HAL call leave every register but EIP, which moves on by the length; each has its own effect on devices, memory and tables and no other |
| `Instructions.HaltEndsIff` | plex86/host-kernel/vmm/monitor-space/x86-emu.c:715-731 | HLT is carried out iff VIF is set and some number of clocks raises INTR, and ends with INTR up |
| `Instructions.IretEmulated` | plex86/host-kernel/vmm/monitor-space/x86-emu.c:594-598 | The emulated IRET returns where the words at ESP say and touches no device |
| `Instructions.LoadMovesOn` | plex86/host-kernel/vmm/monitor-space/x86-emu.c:973-1013 | A segment load changes that register, to the selector at RPL 3, and ESP, and moves on |
| `Instructions.JumpGoes` | plex86/host-kernel/vmm/monitor-space/x86-emu.c:653-667 | A far jump changes CS, to its target at RPL 3, and EIP, to its offset |
| `Instructions.ClocksDue` | plex86/host-kernel/vmm/monitor-space/fault.c:195-221 | Of the cycles 980 are overhead; over 100 left become floor(left/100) clocks with nothing carried, and fewer are carried |
| `Instructions.TimePasses` | plex86/host-kernel/vmm/monitor-space/fault.c:194-241 | Before the guest runs the timers have moved by those clocks and a request of user space, on line 3, is pending or in service |
| `Pic.AcknowledgePicksHighestPriority` | plex86/host-kernel/vmm/monitor-space/io.c:611-641 | An acknowledgement delivers vectorOffset plus the lowest-numbered unmasked pending line, moves only that line from IRR to ISR and drops INTR |
| `Pic.AcknowledgePanicsIff` | plex86/host-kernel/vmm/monitor-space/io.c:611-641 | With INTR high `picIAC` panics iff the mask hides every pending request |
| `Pic.RaiseRecords` | plex86/host-kernel/vmm/monitor-space/io.c:553-588 | A raise leaves its line pending, masked or not, whatever is in service, and every other line as it was; a new unmasked request of an idle slave also line 2; it panics iff above 15 |
| `Pic.RaiseKeeps` | plex86/host-kernel/vmm/monitor-space/io.c:553-588 | `picIrq` keeps: one ISR bit at most, INTR implies ISR=0, ISR=0 with an unmasked request implies INTR |
| `Pic.EoiServes` | plex86/host-kernel/vmm/monitor-space/io.c:493-508 | The EOI of line 0 or 3 ends that service alone and raises INTR iff an unmasked request is waiting; it panics iff the line is not in service |
| `Pic.DeferredRaise` | plex86/host-kernel/vmm/monitor-space/io.c:573-607 | A request that arrives while another is in service is not lost: INTR goes up at the EOI |
| `Pic.MaskAndReset` | plex86/host-kernel/vmm/monitor-space/io.c:471-550 | A mask write sets exactly its eight bits in its own chip; ICW1 clears requests, services and masks of its chip |
| `Pic.OutAccepts` | plex86/host-kernel/vmm/monitor-space/io.c:471-550 | Exactly which port writes do not panic |
| `Pic.AcknowledgeKeeps` | plex86/host-kernel/vmm/monitor-space/io.c:611-641 | `picIAC` keeps it too |
| `Pic.OutKeeps` | plex86/host-kernel/vmm/monitor-space/io.c:471-550 | EOI, mask writes and ICW1 keep it; INTR stays backed by a request iff the write is not one that masks the last pending request |
| `Io.RunKeeps` | plex86/host-kernel/vmm/monitor-space/io.c:14-641 | No lost interrupts, over every run of raises, acknowledgements, port writes, counter reads and clocks; and the clock never meets an unknown timer mode |
| `Io.LatchReadsBack` | plex86/host-kernel/vmm/monitor-space/io.c:14-62 | Latch, read, read gives the counter as it stood at the latch command, modulo 16 bits, whatever clocks pass in between, and frees the latch |
| `Io.AcknowledgeSafe` | plex86/host-kernel/vmm/monitor-space/io.c:516-641 | In any run without such a mask write the acknowledge succeeds iff INTR is high |
| `Io.SpuriousInterruptPanics` | plex86/host-kernel/vmm/monitor-space/io.c:516-519 | A concrete run in which a mask write leads `picIAC` to its panic |
| `Io.InterruptsConserved` | plex86/host-kernel/vmm/monitor-space/io.c:553-641 | Between resets, accepted raises of a line equal its acknowledgements plus the change of its pending bit |
| `Io.RaisedStaysPending` | plex86/host-kernel/vmm/monitor-space/io.c:553-641 | Over any run without a reset a raised line is pending until its vector is acknowledged |
| `Io.CountWritten` | plex86/host-kernel/vmm/monitor-space/io.c:84-163 | Low byte, then high byte set the count to low+256*high: in force at once in mode 0, and in mode 2 when the timer was idle |
| `Io.CommandSets` | plex86/host-kernel/vmm/monitor-space/io.c:174-262 | A command byte sets the mode it names in the timer it names and touches no other |
| `Io.OutPitAccepts` | plex86/host-kernel/vmm/monitor-space/io.c:79-303 | Exactly which PIT writes do not panic |
| `Io.OutPitLocal` | plex86/host-kernel/vmm/monitor-space/io.c:79-303 | A PIT write changes at most the timer of its port or command, and no gate |
| `Clock.SinglesClosedForm` | plex86/host-kernel/vmm/monitor-space/io.c:306-338 | n single clocks have a closed form for every timer and for the PIC |
| `Clock.BatchRefinesSingles` | plex86/host-kernel/vmm/monitor-space/io.c:306-338 | For every n>=1 a batch leaves the same PIC state as n single clocks, and the same timer iff the timer is idle, in mode 0, or in mode 2 not left in mid-period |
| `Clock.BatchDiffers` | plex86/host-kernel/vmm/monitor-space/io.c:324-331 | A concrete mode-2 timer of period 10 that 15 clocks at once leave at 10 and 15 single clocks at 5 |
| `Clock.HaltTerminatesIff` | plex86/host-kernel/vmm/monitor-space/x86-emu.c:715-731 | The HLT loop ends iff INTR is up or timer 0 runs unmasked with nothing in service, and then after exactly max(1, counter) clocks |
| `IoBus.Bus.PicIrq` | plex86/host-kernel/vmm/monitor-space/io.c:553-588 | In place, exactly the specified raise, cascade included |
| `IoBus.Bus.PicServiceMaster` | plex86/host-kernel/vmm/monitor-space/io.c:591-607 | In place, exactly the specified service |
| `IoBus.Bus.PicIac` | plex86/host-kernel/vmm/monitor-space/io.c:611-641 | The priority scan finds the lowest line, in place; panics exactly when specified |
| `IoBus.Bus.PicOutp` | plex86/host-kernel/vmm/monitor-space/io.c:471-550 | In place, exactly the specified port write |
| `IoBus.Bus.ExpireTimer` | plex86/host-kernel/vmm/monitor-space/io.c:310-336 | One timer of the loop, in place, exactly as specified; timer 0 raises IRQ 0 |
| `IoBus.Bus.PitExpireClocks` | plex86/host-kernel/vmm/monitor-space/io.c:306-338 | The timer loop, in place, exactly as specified |
| `IoBus.Bus.PitOutp` | plex86/host-kernel/vmm/monitor-space/io.c:79-303 | In place, exactly the specified port write |
| `IoBus.Bus.PitInp` | plex86/host-kernel/vmm/monitor-space/io.c:14-62 | In place, exactly the specified read of the counter port |
| `IoBus.Bus.Halt` | plex86/host-kernel/vmm/monitor-space/x86-emu.c:715-731 | The HLT loop with the timer as its measure: it ends with INTR up after exactly the computed number of single clocks |
| `Lifecycle.LoopReturns` | plex86/host-kernel/vmm/host-space/monitor.c:1189-1399 | The request loop returns only with a request for user space and INTR shown to it (after a HAL call also the general registers), or in the panic state |
| `Lifecycle.CallLedger` | plex86/host-kernel/vmm/host-space/monitor.c:737-834 | Which state bits can be there after a call, and which event put them there |
| `Lifecycle.EntersOnlyWhenReady` | plex86/host-kernel/vmm/host-space/monitor.c:837-893 | Over any ioctl sequence EXECUTE enters the guest only after a registration that fully succeeded with no unregister, teardown or panic since, and a CPUID set with no teardown since |
| `Lifecycle.PanicIsSticky` | plex86/host-kernel/vmm/host-space/monitor.c:1412-1417 | After a panic and until teardown the guest is not entered and no registration succeeds |
| `Lifecycle.TeardownBetweenRegistrations` | plex86/host-kernel/vmm/host-space/monitor.c:1506-1516 | Between two successful registrations lies a teardown |
| `Lifecycle.StartSucceeds` | plex86/host-kernel/vmm/host-space/monitor.c:737-834 | Linux mode, a registration the host can serve, and CPUID bring a newly opened VM to the state EXECUTE asks for, with cleared windows and nothing asked |
| `Lifecycle.ShutdownSucceeds` | plex86/host-kernel/vmm/host-space/monitor.c:770-805 | From any state UNREGISTER and then TEARDOWN succeed and leave a VM that accepts a registration |
| `Lifecycle.FailedRegistrationSticks` | plex86/host-kernel/vmm/host-space/monitor.c:1506-1594 | After any failed registration, call by call: a retry, and a teardown, are accepted at once iff not even the CPU window was pinned; a retry after UNREGISTER iff the allocation itself failed; after UNREGISTER and TEARDOWN always |
| `Lifecycle.MessageMeans` | plex86/host-kernel/vmm/host-space/monitor.c:1518-1560 | A registration message is accepted iff the memory is whole multiples of four megabytes, all addresses are page-aligned and the two windows differ |
| `Lifecycle.RefusedChangesNothing` | plex86/host-kernel/vmm/host-space/monitor.c:737-834 | A refused call other than EXECUTE changes nothing; CPUID is refused when set |
| `Lifecycle.ExecuteRefused` | plex86/host-kernel/vmm/host-space/monitor.c:837-1183 | EXECUTE out of order panics the VM; a refused first state changes only INTR and the level; a reply not copied out loses nothing else |
| `Lifecycle.LoopStopsAt` | plex86/host-kernel/vmm/host-space/monitor.c:1189-1399 | The request loop ends with the first trip that is neither an idle host interrupt nor a page that could be pinned, in success iff user space is to see to it, the guest as that trip left it |
| `Lifecycle.RegistrationBetweenLoads` | plex86/host-kernel/vmm/host-space/monitor.c:858-1185 | Between two full loads of the CPU state lies a successful registration |
| `Lifecycle.ContextSurvives` | plex86/host-kernel/vmm/host-space/monitor.c:858-893 | Across successive EXECUTE calls the guest resumes with exactly the context it stopped with, but for the general registers other than ESP after a HAL call; INTR survives if user space leaves it alone |
| `Lifecycle.FirstEntryLoads` | plex86/host-kernel/vmm/host-space/monitor.c:1113-1183 | The first entry takes EIP, ESP, CS, the general registers, the level and INTR from the window and nothing else of the VM changes |
| `Lifecycle.HostVm.AllocVmPages` | plex86/host-kernel/vmm/host-space/monitor.c:1603-1838 | The state effects of allocation and of each point of failure |
| `Lifecycle.HostVm.UnallocVmPages` | plex86/host-kernel/vmm/host-space/monitor.c:1846-1905 | The state effects of freeing |
| `Lifecycle.HostVm.IoctlRegisterMem` | plex86/host-kernel/vmm/host-space/monitor.c:1506-1594 | In place, exactly the specified registration and reply |
| `Lifecycle.HostVm.TakeTurn` | plex86/host-kernel/vmm/monitor-space/monitor.c:43-109 | One request of the monitor and the host's answer to it, in place |
| `Lifecycle.HostVm.ExecuteLoop` | plex86/host-kernel/vmm/host-space/monitor.c:1187-1399 | The for(;;) loop, in place, exactly the specified run of trips |
| `Lifecycle.HostVm.IoctlExecute` | plex86/host-kernel/vmm/host-space/monitor.c:837-1418 | In place, exactly the specified EXECUTE |
| `Lifecycle.HostVm.IoctlGeneric` | plex86/host-kernel/vmm/host-space/monitor.c:737-834 | In place, exactly the specified ioctl dispatch |

## Left out

- Host OS ports, the nexus assembly, real TLB, CR and MSR loads: hardware and foreign kernels; hardware appears only as the rule by which a shadow entry allows an access.
- Opcode and ModRM decoding in `emulateSysInstr`: instructions arrive decoded, with their length; LGDT, LIDT, LTR, MOV CRn, INVLPG and the instructions that only move on are one constructor with an arbitrary new table and control state. The shadow effects of MOV CRn and INVLPG are in `ShadowRuns`.
- CMOS, VGA, `picInp` and port 0x61 of `pitInp`: plumbing that would only add easy members.
- PIC initialisation words after ICW1, the OUT pins and BCD flags of the PIT: never read by the operations modelled.
- Slave PIC delivery, interrupts outside Linux mode, LDT, task switching, FPU: unfinished in the source.
- Pages held open in the tmp windows during an eviction: guest memory is indexed by guest page.
- User/supervisor isolation through the shadow, and guest D bits for writes after a read fill: the source does not provide them.
- The error code of a page fault as delivered to the guest: the source forwards the hardware's code, cleared of its user bit outside ring 3, and that is what the handler is shown to read; only the code `mapGuestLinAddr` computes is shown to be architectural.
- Clean-up of half-finished allocations and disjointness of all three registered regions: the source establishes neither; only the state bits are modelled.
- User space's writes to CR0, CR3, CR4, GDTR, IDTR and TR in the shared CPU window, which the monitor reads there on every use: they are taken to change only by the guest's own instructions and the first load, and `ShadowTheorems.ShadowIsCurrentWalk` and the round trips depend on it.
- MSR, debug and time-stamp registers.
- The GDT and IDT set-up of `hostInitMonitor`, print buffers and message formatting.
- `vpaging_tsc` is a count of resets rather than a time stamp, and the 64-bit cycle counter does not wrap.
- Guest physical memory is a sequence of bytes in a field, not an array: aliasing between windows onto the same page is not captured.
- Emulator.Core.EmulateSysInstr: asks, for HLT only, that no interrupt has been lost and that something will wake the loop, because otherwise it runs for ever (`Clock.HaltTerminatesIff`); likewise Emulator.Core.DoGuestFault, Emulator.Core.HandleGuestFault and IoBus.Bus.Halt.
- GuestAccess.Accessor.OpenPage: leaves out the pin inside `open_guest_phy_page`, so a refusal by the host and an eviction are not seen there; both are steps of the runs in `ShadowRuns` (`PinPage`).
- Guest memory is taken to be less than 4 gigabytes, as the 32-bit byte count can express; `hostIoctlRegisterMem` itself checks only that the megabytes are a multiple of four.
- User space's reload of INTR is modelled once per stay outside the guest, before `preGuest`; a print-buffer flush in the middle of an operation could make it happen earlier.
- Resume.EveryResumption: guest code is any change of memory and registers that leaves EFLAGS alone outside the bits unprivileged code can write and keeps RPL 3 in CS, which is what the processor guarantees in ring 3 with IOPL 0.
- RoundTrip.InterruptIretRoundTrip: asks, as do the returns in Instructions, that the frame lies outside the live page tables and the two descriptors returned through; a frame that overwrites them is the guest's own doing.
