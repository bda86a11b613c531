/**
 Concrete inputs on which `mapGuestLinAddr` and `guestPageFault` fall short: a fill that reports success
 and maps nothing, and a write the guest allows that ends in a panic.
 */
module ShadowWitness {
  import opened Words
  import opened GuestTables
  import opened Shadow
  import opened ShadowFill
  import opened ShadowRuns
  import opened ShadowTheorems
  import Q = PinQueue

  /** An empty shadow, with the monitor in the last directory slot. */
  function NoShadow(): (s: Tables)
    ensures ShapedTables(s)
  {
    Tables(seq(1024, i => if i == 1023 then Entry(true, true, false, false, false, 0) else NONE),
           seq(80 * 1024, _ => NONE), NoTables(), 0, 0)
  }

  function TableFrames(): (f: seq<nat>)
    ensures |f| == 80
  {
    seq(80, i requires 0 <= i => i)
  }

  lemma NoShadowHeap()
    ensures HeapInv(NoShadow(), 1023, TableFrames()) && PresentPdes(NoShadow(), 1023) == {}
  {
    assert PresentPdes(NoShadow(), 1023) == {};
  }

  /** The pages registration marks read-only: the BIOS and VGA BIOS areas. */
  function RomPages(n: nat): (ro: seq<bool>)
    ensures |ro| == n && forall i | 0 <= i < n :: ro[i] == (0xc0 <= i <= 0xc7 || 0xf0 <= i <= 0xff)
  {
    seq(n, i => 0xc0 <= i <= 0xc7 || 0xf0 <= i <= 0xff)
  }

  /** The rest of what registration fixes for a Linux guest of `n` pages. */
  function LinuxConfig(n: nat): Config {
    Config(6, RomPages(n), seq(n, _ => false), 1023, TableFrames())
  }

  // ---------------------------------------------------------------- a full ring

  /** Eight megabytes of guest memory, paging off, and the first 1024 pages pinned. */
  function FullRing(): Vm {
    Vm(Guest(seq(2048 * 4096, _ => 0), false, false, 0, 0), 0, LinuxConfig(2048),
       Pins(seq(2048, i => i < 1024), seq(2048, i requires 0 <= i => i), Q.Queue(1024, 0, seq(1024, i requires 0 <= i => i))),
       NoShadow())
  }

  lemma FullRingInv()
    ensures Inv(FullRing())
  {
    NoShadowHeap();
    var p := FullRing().pins;
    assert Q.Fifo(p.queue) == p.queue.ppi;
    forall page | 0 <= page < 2048
      ensures p.pinned[page] <==> page in p.queue.ppi
    {
      if page < 1024 {
        assert p.queue.ppi[page] == page;
      }
    }
  }

  /** A read of the unpinned page is reported mapped, and is not. */
  lemma EvictingFillMapsNothing()
    ensures Inv(FullRing())
    ensures var r := MapLin(FullRing(), 0x40_0000, false, false, None, None, Some(7));
      && r.Ok? && r.value.0 == MapOk
      && r.value.1.pins.pinned[1024] && !LeafFor(r.value.1, 0x40_0000).p
  {
    FullRingInv();
    FullRingFills();
    hide MapLin, Consult, Inv, FullRing, Evicts;
    SuccessMapsIff(FullRing(), 0x40_0000, false, false, None, None, Some(7));
  }

  lemma FullRingFills()
    ensures Shaped(FullRing())
    ensures var r := MapLin(FullRing(), 0x40_0000, false, false, None, None, Some(7));
      r.Ok? && r.value.0 == MapOk && |r.value.1.pins.pinned| == 2048 && r.value.1.pins.pinned[1024]
    ensures Consult(FullRing(), 0x40_0000, false, false, None, None) == Ok((Granted(1024, 0, 0), FullRing()))
    ensures |FullRing().pins.pinned| == 2048 && Evicts(FullRing().pins, 1024)
  {
    FullRingInv();
    assert Shaped(FullRing());
  }

  // ---------------------------------------------------------------- a read-only page

  /** The directory in page 0 and the table in page 1 map the first four megabytes on page 0xc0, writable for all; A is set. */
  function ByteAt(i: int): Byte {
    if i == 0 then 0x27
    else if i == 1 then 0x10
    else if 4096 <= i < 8192 then (if i % 4 == 0 then 0x27 else if i % 4 == 2 then 0x0c else 0)
    else 0
  }

  function PagedMemory(): (m: Memory)
    ensures |m| == 1024 * 4096 && forall i | 0 <= i < |m| :: m[i] == ByteAt(i)
  {
    seq(1024 * 4096, i => ByteAt(i))
  }

  /** A user program in four megabytes, paging and write protection on, nothing pinned. */
  function ReadOnly(): Vm {
    Vm(Guest(PagedMemory(), true, true, 0, 0), 3, LinuxConfig(1024),
       Pins(seq(1024, _ => false), seq(1024, _ => 0), Q.Empty()), NoShadow())
  }

  lemma ReadOnlyInv()
    ensures Inv(ReadOnly()) && Agrees(ReadOnly())
  {
    NoShadowHeap();
    assert Q.Fifo(ReadOnly().pins.queue) == [];
    assert Inv(ReadOnly());
    hide Inv, Agrees;
    EmptyAgrees(ReadOnly());
  }

  /** The guest's walk of `l` finds two writable user entries, both with A set. */
  ghost predicate Grants(g: Guest, l: Word, pde: Word, pte: Word) {
    && g.pg && g.wp && Sized(g.mem)
    && WalkTables(g.mem, g.cr3, l) == Found(pde, pte)
    && Accessed(pde) && Accessed(pte) && !Refused(pde, true, true, true) && !Refused(pte, true, true, true)
  }

  lemma TableGrants(vm: Vm, l: Word, rw: bool, pde: Word, pte: Word, f1: Option<nat>)
    requires Shaped(vm) && Grants(vm.g, l, pde, pte) && Base(vm.g.cr3) < Pages(vm.g.mem) && Base(pde) < Pages(vm.g.mem)
    requires vm.pins.pinned[Base(pde)] || f1.Some?
    ensures var r := ConsultTable(vm, l, true, rw, pde, f1);
      r.Ok? && r.value.0 == Granted(Base(pte), pde, UsedPte(pte, rw)) && (!rw ==> r.value.1.g == vm.g)
  {
    UsedKeepsEntry(pte, rw);
    SameEntryDecides(UsedPte(pte, rw), pte);
    EntryInside(vm.g.mem, Base(pde), Pti(l));
    EntryInside(vm.g.mem, Base(vm.g.cr3), Pdi(l));
    assert Dword(vm.g.mem, PteAddr(pde, l)) == pte && P(pte);
    assert !rw ==> UsedPte(pte, rw) == pte;
    assert !Refused(pde, true, rw, true) && !Refused(pte, true, rw, true);
    assert SetAccessed(pde) == pde;
    hide Dword, PutDword, ShapedPins, ShapedTables, PinRequest, Base, P, Accessed, SetAccessed, UsedPte, Refused, PdeAddr, PteAddr, WalkTables;
  }

  /** Such tables grant reads and writes alike, and a read leaves them as they are. */
  lemma WalkGrants(vm: Vm, l: Word, rw: bool, pde: Word, pte: Word, f0: Option<nat>, f1: Option<nat>)
    requires Shaped(vm) && Grants(vm.g, l, pde, pte) && Base(vm.g.cr3) < Pages(vm.g.mem) && Base(pde) < Pages(vm.g.mem)
    requires (vm.pins.pinned[Base(vm.g.cr3)] && vm.pins.pinned[Base(pde)]) || (f0.Some? && f1.Some?)
    ensures GuestAllows(vm.g, l, true, rw) && GuestPage(vm.g, l) == Some(Base(pte))
    ensures var r := Consult(vm, l, true, rw, f0, f1);
      r.Ok? && r.value.0 == Granted(Base(pte), pde, UsedPte(pte, rw)) && (!rw ==> r.value.1.g == vm.g)
  {
    EntryInside(vm.g.mem, Base(vm.g.cr3), Pdi(l));
    assert Dword(vm.g.mem, PdeAddr(vm.g.cr3, l)) == pde && P(pde);
    assert !Refused(pde, true, rw, true) && !Refused(pte, true, rw, true) && Accessed(pde);
    assert WalkTables(vm.g.mem, vm.g.cr3, l) == Found(pde, pte);
    hide Dword, PutDword, ShapedPins, ShapedTables, PinRequest, Base, P, Accessed, SetAccessed, UsedPte, Refused, PdeAddr, PteAddr, ConsultTable, WalkTables;
    TableGrants(Pinned(vm, Base(vm.g.cr3), f0).value, l, rw, pde, pte, f1);
  }

  /** A pin takes at most one slot, and while there is room it unpins nothing. */
  lemma PinGrows(vm: Vm, page: nat, frame: Option<nat>)
    requires Shaped(vm) && Pinned(vm, page, frame).Ok? && !Q.Full(vm.pins.queue)
    ensures var vm' := Pinned(vm, page, frame).value;
      && vm'.pins.queue.nEntries <= vm.pins.queue.nEntries + 1
      && KeepsPins(vm.pins, vm'.pins) && vm'.sh == vm.sh && page < |vm'.pins.pinned| && vm'.pins.pinned[page]
  {
  }

  lemma EntryBits(raw: Word)
    requires raw == 0x1027 || raw == 0xc_0027
    ensures P(raw) && Accessed(raw) && !Refused(raw, true, true, true)
    ensures Base(raw) == if raw == 0x1027 then 1 else 0xc0
  {
  }

  lemma FirstTableBytes(pti: nat)
    requires pti < 1024
    ensures Dword(PagedMemory(), 4096 + 4 * pti) == 0xc_0027
  {
    var a := 4096 + 4 * pti;
    assert a % 4 == 0 && (a + 1) % 4 == 1 && (a + 2) % 4 == 2 && (a + 3) % 4 == 3;
  }

  lemma DirectoryBytes()
    ensures Dword(PagedMemory(), 0) == 0x1027
  {
  }

  lemma ReadOnlyGuest()
    ensures var g := ReadOnly().g;
      g.pg && g.wp && g.cr3 == 0 && g.mem == PagedMemory() && |g.mem| == 1024 * 4096 && Sized(g.mem)
  {
  }

  /** The two entries on the way to any address of the first four megabytes. */
  lemma Entries(pti: nat) returns (pde: Word, pte: Word)
    requires pti < 1024
    ensures var m := ReadOnly().g.mem;
      && |m| == 1024 * 4096 && pde == Dword(m, 0) && pte == Dword(m, 4096 + 4 * pti)
      && P(pde) && Base(pde) == 1 && Accessed(pde) && !Refused(pde, true, true, true)
      && P(pte) && Base(pte) == 0xc0 && Accessed(pte) && !Refused(pte, true, true, true)
  {
    hide Dword, P, Base, Accessed, Refused, ReadOnly, ByteAt, PagedMemory;
    ReadOnlyGuest();
    DirectoryBytes();
    FirstTableBytes(pti);
    pde, pte := Dword(ReadOnly().g.mem, 0), Dword(ReadOnly().g.mem, 4096 + 4 * pti);
    EntryBits(pde);
    EntryBits(pte);
  }

  lemma LowPages(l: Word)
    requires l < 0x40_0000
    ensures Pdi(l) == 0
  {
  }

  lemma ReadOnlyGrants(l: Word) returns (pde: Word, pte: Word)
    requires l < 0x40_0000
    ensures Grants(ReadOnly().g, l, pde, pte) && Base(ReadOnly().g.cr3) == 0 && Base(pde) == 1 && Base(pte) == 0xc0
  {
    hide Dword, P, Base, Pdi, Pti, Accessed, Refused, WalkTables, ReadOnly, ByteAt, PagedMemory;
    ReadOnlyGuest();
    ZeroEntry(ReadOnly().g.cr3);
    LowPages(l);
    pde, pte := Entries(Pti(l));
    FirstTableWalk(ReadOnly().g.mem, ReadOnly().g.cr3, l, pde, pte);
  }

  /** The granted page is entered in a fresh table, and takes its slot without evicting. */
  lemma ReadFills(vm: Vm, pdi: nat, pti: nat, page: nat, pde: Word, pte: Word, f2: Option<nat>)
    requires Inv(vm) && pdi < 1024 && pti < 1024 && page < Pages(vm.g.mem) && Base(pde) < Pages(vm.g.mem)
    requires !vm.sh.dir[pdi].p && vm.sh.next < 80 && !vm.cfg.ro[Base(pde)] && !vm.cfg.mmio[Base(pde)] && vm.cfg.ro[page]
    requires !Q.Full(vm.pins.queue) && f2.Some?
    ensures var r := Fill(vm, pdi, pti, false, page, pde, pte, f2);
      && r.Ok? && r.value.0 == MapOk && r.value.1.g == vm.g && r.value.1.cfg == vm.cfg && r.value.1.cpl == vm.cpl
      && KeepsPins(vm.pins, r.value.1.pins)
  {
    assert Shaped(vm);
    TableAllocated(vm, pdi, pde);
    var s := AllocateTable(vm.sh, pdi, DirEntry(vm, pde, vm.cfg.frames[vm.sh.next])).value;
    var vm1 := vm.(sh := s);
    FreshTable(vm.sh, pdi, pti, DirEntry(vm, pde, vm.cfg.frames[vm.sh.next]));
    hide Inv, AllocateTable, DirEntry, Base, TableAdded, LeafEntry, KeepsPins;
    PinGrows(vm1, page, f2);
  }

  lemma FreshTable(s: Tables, pdi: nat, pti: nat, e: Entry)
    requires ShapedTables(s) && pdi < 1024 && pti < 1024 && AllocateTable(s, pdi, e).Ok?
    ensures s.next * 1024 + pti < |AllocateTable(s, pdi, e).value.tbl| && !AllocateTable(s, pdi, e).value.tbl[s.next * 1024 + pti].p
  {
  }

  /** A user program about to touch an unmapped read-only page, through tables that let it write there. */
  ghost predicate AboutToTouch(vm: Vm, l: Word, pde: Word, pte: Word) {
    && Inv(vm) && vm.cpl == 3 && Grants(vm.g, l, pde, pte)
    && Base(vm.g.cr3) < Pages(vm.g.mem) && Base(pde) < Pages(vm.g.mem) && Base(pte) < Pages(vm.g.mem)
    && !vm.cfg.ro[Base(pde)] && !vm.cfg.mmio[Base(pde)] && vm.cfg.ro[Base(pte)]
    && vm.pins.queue.nEntries <= 1021 && vm.sh.next < 80
    && Pdi(l) != vm.cfg.monPdi && !vm.sh.dir[Pdi(l)].p
  }

  /** With room for three pins, the walk of a granting guest leaves the shadow alone, its two tables pinned and a slot free. */
  lemma WalkGrows(vm: Vm, l: Word, pde: Word, pte: Word, f0: Option<nat>, f1: Option<nat>)
    requires AboutToTouch(vm, l, pde, pte) && f0.Some? && f1.Some?
    ensures Consult(vm, l, true, false, f0, f1).Ok?
    ensures var vm' := Consult(vm, l, true, false, f0, f1).value.1;
      && vm'.sh == vm.sh && vm'.cfg == vm.cfg && vm'.pins.queue.nEntries <= 1023
      && vm'.pins.pinned[Base(vm.g.cr3)] && vm'.pins.pinned[Base(pde)]
  {
    WalkGrants(vm, l, false, pde, pte, f0, f1);
    EntryInside(vm.g.mem, Base(vm.g.cr3), Pdi(l));
    assert Dword(vm.g.mem, PdeAddr(vm.g.cr3, l)) == pde && P(pde);
    hide Dword, ShapedPins, ShapedTables, Pinned, Base, P, UsedPte, Refused, PdeAddr, PteAddr, WalkTables, MarkPde, MarkPte;
    PinGrows(vm, Base(vm.g.cr3), f0);
    var vm1 := Pinned(vm, Base(vm.g.cr3), f0).value;
    var vm2 := SetMem(vm1, MarkPde(vm.g.mem, vm.g.cr3, l, pde, vm.cfg.family < 6));
    PinGrows(vm2, Base(pde), f1);
  }

  /** After the walk: the page is granted, the tables are pinned and the shadow stands. */
  lemma WalkLeavesRoom(vm: Vm, l: Word, pde: Word, pte: Word, f0: Option<nat>, f1: Option<nat>)
    requires AboutToTouch(vm, l, pde, pte) && f0.Some? && f1.Some?
    ensures Shaped(vm) && Consult(vm, l, true, false, f0, f1).Ok?
    ensures var (access, vm1) := Consult(vm, l, true, false, f0, f1).value;
      && access == Granted(Base(pte), pde, UsedPte(pte, false))
      && Inv(vm1) && vm1.g == vm.g && vm1.cpl == 3 && vm1.cfg == vm.cfg && vm1.sh == vm.sh && !Q.Full(vm1.pins.queue)
      && |vm1.pins.pinned| == Pages(vm.g.mem) && vm1.pins.pinned[Base(vm.g.cr3)] && vm1.pins.pinned[Base(pde)]
  {
    assert Shaped(vm);
    hide Inv, Grants, Consult, Base, UsedPte, GuestAllows, GuestPage, ShapedPins;
    WalkGrants(vm, l, false, pde, pte, f0, f1);
    WalkGrows(vm, l, pde, pte, f0, f1);
    ConsultKeepsInv(vm, l, true, false, f0, f1);
  }

  lemma ReadFillMaps(vm: Vm, l: Word, pde: Word, pte: Word, f0: Option<nat>, f1: Option<nat>, f2: Option<nat>)
    requires AboutToTouch(vm, l, pde, pte) && f0.Some? && f1.Some? && f2.Some?
    ensures var r := MapLin(vm, l, true, false, f0, f1, f2);
      && r.Ok? && r.value.0 == MapOk
      && Inv(r.value.1) && r.value.1.g == vm.g && r.value.1.cpl == 3 && r.value.1.cfg == vm.cfg
      && r.value.1.pins.pinned[Base(vm.g.cr3)] && r.value.1.pins.pinned[Base(pde)]
      && LeafFor(r.value.1, l).p
  {
    hide Inv, Grants, Consult, Fill, Base, UsedPte, LeafFor, GuestPage, ShapedPins, Evicts, KeepsPins, Pdi, Pti;
    WalkLeavesRoom(vm, l, pde, pte, f0, f1);
    var (access, vm1) := Consult(vm, l, true, false, f0, f1).value;
    FillAfterWalk(vm1, Pdi(l), Pti(l), Base(pte), pde, access.pte, f2);
    SuccessMapsIff(vm, l, true, false, f0, f1, f2);
    RoomMeansNoEviction(vm1.pins, Base(pte));
    PinsCarry(vm1.pins, MapLin(vm, l, true, false, f0, f1, f2).value.1.pins, Base(vm.g.cr3));
    PinsCarry(vm1.pins, MapLin(vm, l, true, false, f0, f1, f2).value.1.pins, Base(pde));
  }

  lemma FillAfterWalk(vm: Vm, pdi: nat, pti: nat, page: nat, pde: Word, pte: Word, f2: Option<nat>)
    requires Inv(vm) && pdi < 1024 && pti < 1024 && page < Pages(vm.g.mem) && Base(pde) < Pages(vm.g.mem)
    requires !vm.sh.dir[pdi].p && vm.sh.next < 80 && !vm.cfg.ro[Base(pde)] && !vm.cfg.mmio[Base(pde)] && vm.cfg.ro[page]
    requires !Q.Full(vm.pins.queue) && f2.Some?
    ensures var r := Fill(vm, pdi, pti, false, page, pde, pte, f2);
      && r.Ok? && r.value.0 == MapOk && Inv(r.value.1) && r.value.1.g == vm.g && r.value.1.cfg == vm.cfg && r.value.1.cpl == vm.cpl
      && KeepsPins(vm.pins, r.value.1.pins)
  {
    assert Shaped(vm);
    hide Inv, Fill, Base, FilledFrom, DirFrom, Leaf, ShapedPins, KeepsPins;
    ReadFills(vm, pdi, pti, page, pde, pte, f2);
    FillKeeps(vm, pdi, pti, false, page, pde, pte, f2);
  }

  lemma RoomMeansNoEviction(p: Pins, page: nat)
    requires page < |p.pinned| && !Q.Full(p.queue)
    ensures !Evicts(p, page)
  {
  }

  lemma PinsCarry(p: Pins, p': Pins, page: nat)
    requires KeepsPins(p, p') && page < |p.pinned| && p.pinned[page]
    ensures page < |p'.pinned| && p'.pinned[page]
  {
  }

  lemma ConsultKeepsInv(vm: Vm, l: Word, us: bool, rw: bool, f0: Option<nat>, f1: Option<nat>)
    requires Inv(vm) && Consult(vm, l, us, rw, f0, f1).Ok?
    ensures Inv(Consult(vm, l, us, rw, f0, f1).value.1) && Consult(vm, l, us, rw, f0, f1).value.1.cpl == vm.cpl
  {
    assert Shaped(vm) && PinInv(vm.pins);
    ConsultIsArchitectural(vm, l, us, rw, f0, f1);
    hide Inv, Consult, Verdict, PinInv;
    MovedKeepsInv(vm, Consult(vm, l, us, rw, f0, f1).value.1);
  }

  /** A write to a page that is present in the shadow is never filled, even when the guest allows it. */
  lemma PresentWriteIsStuck(vm: Vm, l: Word, pde: Word, pte: Word)
    requires Inv(vm) && Grants(vm.g, l, pde, pte) && Base(vm.g.cr3) < Pages(vm.g.mem) && Base(pde) < Pages(vm.g.mem)
    requires vm.pins.pinned[Base(vm.g.cr3)] && vm.pins.pinned[Base(pde)]
    requires LeafFor(vm, l).p && Base(pte) < Pages(vm.g.mem)
    ensures GuestAllows(vm.g, l, true, true)
    ensures MapLin(vm, l, true, true, None, None, None).Ok? ==> MapLin(vm, l, true, true, None, None, None).value.0 == AlreadyMapped
  {
    assert Shaped(vm);
    WalkGrants(vm, l, true, pde, pte, None, None);
    ConsultKeepsInv(vm, l, true, true, None, None);
    ConsultPinned(vm, l, pde, pte);
    hide Inv, Grants, Consult, Fill, Base, UsedPte, GuestAllows, GuestPage;
    var (access, vm1) := Consult(vm, l, true, true, None, None).value;
    FillKeeps(vm1, Pdi(l), Pti(l), true, access.page, access.pde, access.pte, None);
  }

  lemma ConsultPinned(vm: Vm, l: Word, pde: Word, pte: Word)
    requires Shaped(vm) && Grants(vm.g, l, pde, pte) && Base(vm.g.cr3) < Pages(vm.g.mem) && Base(pde) < Pages(vm.g.mem)
    requires vm.pins.pinned[Base(vm.g.cr3)] && vm.pins.pinned[Base(pde)]
    requires Consult(vm, l, true, true, None, None).Ok?
    ensures Consult(vm, l, true, true, None, None).value.1.sh == vm.sh && Consult(vm, l, true, true, None, None).value.1.cfg == vm.cfg
    ensures |Consult(vm, l, true, true, None, None).value.1.g.mem| == |vm.g.mem|
  {
    EntryInside(vm.g.mem, Base(vm.g.cr3), Pdi(l));
    assert Dword(vm.g.mem, PdeAddr(vm.g.cr3, l)) == pde && P(pde);
    hide Dword, ShapedPins, ShapedTables, Base, P, UsedPte, Refused, PdeAddr, PteAddr, WalkTables, MarkPde, MarkPte;
  }

  /** Reading `l` is a run that maps it; the write after it, which the guest allows, panics. */
  ghost predicate PanicsOnWrite(vm: Vm, l: Word, read: Event) {
    && Shaped(vm) && Step(vm, read).Ok?
    && var vm1 := Step(vm, read).value;
    && IsRun([vm, vm1], [read])
    && LeafFor(vm1, l).p && GuestAllows(vm1.g, l, true, true) && GuestPageFault(vm1, l, 7, None, None, None).Panic?
  }

  lemma FillingStep(vm: Vm, l: Word, f0: Option<nat>, f1: Option<nat>, f2: Option<nat>)
    requires Shaped(vm) && vm.cpl == 3 && Pdi(l) != vm.cfg.monPdi
    requires MapLin(vm, l, true, false, f0, f1, f2).Ok? && MapLin(vm, l, true, false, f0, f1, f2).value.0 == MapOk
    ensures Step(vm, Fault(l, 4, f0, f1, f2)) == Ok(MapLin(vm, l, true, false, f0, f1, f2).value.1)
  {
    hide MapLin, ShapedPins;
  }

  lemma StuckFault(vm: Vm, l: Word)
    requires Shaped(vm) && vm.cpl == 3
    requires MapLin(vm, l, true, true, None, None, None).Ok? ==> MapLin(vm, l, true, true, None, None, None).value.0 == AlreadyMapped
    ensures GuestPageFault(vm, l, 7, None, None, None).Panic?
  {
    hide MapLin, ShapedPins;
  }

  lemma OneFaultRun(vm: Vm, read: Event, vm1: Vm)
    requires Shaped(vm) && Agrees(vm) && Step(vm, read) == Ok(vm1)
    ensures IsRun([vm, vm1], [read])
  {
    hide Agrees, Step, ShapedPins;
  }

  /** Any such program that reads the page and then writes to it panics the monitor. */
  lemma WriteAfterReadPanics(vm: Vm, l: Word, pde: Word, pte: Word, f0: Option<nat>, f1: Option<nat>, f2: Option<nat>)
    requires AboutToTouch(vm, l, pde, pte) && Agrees(vm) && f0.Some? && f1.Some? && f2.Some?
    ensures PanicsOnWrite(vm, l, Fault(l, 4, f0, f1, f2))
  {
    assert Shaped(vm);
    hide Agrees, Inv, Grants, MapLin, Base, LeafFor, GuestAllows, ShapedPins, Step, GuestPageFault, IsRun;
    ReadFillMaps(vm, l, pde, pte, f0, f1, f2);
    FillingStep(vm, l, f0, f1, f2);
    var vm1 := MapLin(vm, l, true, false, f0, f1, f2).value.1;
    OneFaultRun(vm, Fault(l, 4, f0, f1, f2), vm1);
    PresentWriteIsStuck(vm1, l, pde, pte);
    StuckFault(vm1, l);
  }

  lemma ReadOnlyLayout()
    ensures var vm := ReadOnly();
      && |vm.g.mem| == 1024 * 4096 && vm.cpl == 3 && vm.cfg == LinuxConfig(1024)
      && vm.pins.queue.nEntries == 0 && vm.sh.next == 0 && |vm.sh.dir| == 1024 && !vm.sh.dir[0].p
  {
  }

  lemma RomLayout()
    ensures var cfg := LinuxConfig(1024);
      |cfg.ro| == 1024 && |cfg.mmio| == 1024 && !cfg.ro[1] && !cfg.mmio[1] && cfg.ro[0xc0] && cfg.monPdi == 1023
  {
  }

  lemma ReadOnlyTouches(l: Word) returns (pde: Word, pte: Word)
    requires l < 0x40_0000
    ensures AboutToTouch(ReadOnly(), l, pde, pte)
  {
    hide ReadOnly, LinuxConfig, Inv, Grants, Base, Agrees, Pdi;
    ReadOnlyInv();
    ReadOnlyLayout();
    RomLayout();
    LowPages(l);
    pde, pte := ReadOnlyGrants(l);
  }

  /**
   A run that ends in the panic: a user program reads the VGA BIOS page, which its own tables make writable and
   registration made read-only, then writes to it.
   */
  lemma PermittedWritePanics(l: Word)
    requires l < 0x40_0000
    ensures PanicsOnWrite(ReadOnly(), l, Fault(l, 4, Some(10), Some(11), Some(12)))
  {
    hide ReadOnly, Inv, AboutToTouch, Agrees, PanicsOnWrite;
    ReadOnlyInv();
    var pde, pte := ReadOnlyTouches(l);
    WriteAfterReadPanics(ReadOnly(), l, pde, pte, Some(10), Some(11), Some(12));
  }
}
