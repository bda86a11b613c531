/**
 Whole runs of the shadow: page faults, INVLPG, control register loads, pins on
 behalf of the emulator, and arbitrary guest execution in between.
 */
module ShadowRuns {
  import opened Words
  import opened GuestTables
  import opened Shadow
  import opened ShadowFill

  datatype Event =
    | Fault(cr2: Word, error: Word, f0: Option<nat>, f1: Option<nat>, f2: Option<nat>)
    | Invlpg(at: Word)
    | SetCr0(val: Word)
    | SetCr3(val: Word)
    | SetCr4(val: Word)
    | PinPage(page: nat, frame: Option<nat>)   // open_guest_phy_page
    | GuestRuns(mem: Memory)                   // the guest stores whatever it likes
    | Level(cpl: nat)                          // a change of privilege level
    | Load(g: Guest, level: nat)               // the CPU-state load of the first EXECUTE

  /** `guestPageFault`: the error code injected into the guest, or None when the shadow was filled. */
  function GuestPageFault(vm: Vm, cr2: Word, error: Word, f0: Option<nat>, f1: Option<nat>, f2: Option<nat>): (r: Outcome<(Option<Word>, Vm)>)
    requires Shaped(vm)
    ensures r.Ok? ==> Shaped(r.value.1)
  {
    if Pdi(cr2) == vm.cfg.monPdi || error / 8 % 2 == 1 then Panic
    else
      var (result, vm1) :- MapLin(vm, cr2, vm.cpl == 3, error / 2 % 2 == 1, f0, f1, f2);
      match result
      case MapOk => Ok((None, vm1))
      case Exception(_) => Ok((Some(error), vm1))
      case _ => Panic
  }

  function Dropping(vm: Vm): (r: Vm)
    requires Shaped(vm)
    ensures Shaped(r)
  {
    vm.(sh := Reset(vm.sh, vm.cfg.monPdi))
  }

  /** The CR0 bits the guest must keep: CD=NW=0 and NE=ET=MP=PE=1. */
  predicate Cr0Acceptable(val: Word) {
    val % 4 == 3 && val / 16 % 4 == 3 && val / 0x2000_0000 % 4 == 0
  }

  function Step(vm: Vm, ev: Event): (r: Outcome<Vm>)
    requires Shaped(vm)
    ensures r.Ok? ==> Shaped(r.value)
  {
    match ev
    case Fault(cr2, error, f0, f1, f2) => var (_, vm1) :- GuestPageFault(vm, cr2, error, f0, f1, f2); Ok(vm1)
    case Invlpg(l) => Invalidate(vm, l)
    case SetCr0(val) =>
      if !Cr0Acceptable(val) then Panic
      else Ok(Dropping(vm.(g := vm.g.(pg := val / 0x8000_0000 == 1, wp := val / 0x1_0000 % 2 == 1))))
    case SetCr3(val) => Ok(Dropping(Dropping(vm).(g := vm.g.(cr3 := val))))
    case SetCr4(val) => if val != 0 then Panic else Ok(Dropping(vm.(g := vm.g.(cr4 := 0))))
    case PinPage(page, frame) => Pinned(vm, page, frame)
    case GuestRuns(mem) => if |mem| != |vm.g.mem| then Panic else Ok(SetMem(vm, mem))
    case Level(cpl) => Ok(vm.(cpl := cpl))
    case Load(g, level) => if |g.mem| != |vm.g.mem| then Panic else Ok(Dropping(vm.(g := g, cpl := level)))
  }

  // ---------------------------------------------------------------- what an entry must agree with

  function LeafFor(vm: Vm, l: Word): Entry
    requires Shaped(vm)
  {
    Leaf(vm.sh, vm.cfg.monPdi, Pdi(l), Pti(l))
  }

  function PteOf(g: Guest, l: Word): Word
    requires Sized(g.mem)
  {
    match WalkTables(g.mem, g.cr3, l)
    case Found(_, pte) => pte
    case _ => 0
  }

  /**
   The leaf of `l` in `now` is what the guest's own walk of `l` gave in `then`:
   its base is the frame of that page, which is pinned, and its write permission
   is the one the guest's page table entry had.
   */
  ghost predicate LeafMatches(now: Vm, then_: Vm, l: Word)
    requires Shaped(now) && Shaped(then_) && then_.cfg == now.cfg && |then_.g.mem| == |now.g.mem|
  {
    match GuestPage(then_.g, l)
    case None => false
    case Some(page) => NewLeafAs(now, LeafFor(now, l), page, FillRw(then_.g, then_.cpl, PteOf(then_.g, l)))
  }

  predicate NewLeafAs(vm: Vm, e: Entry, page: nat, rw: bool) {
    && page < |vm.pins.pinned| && page < |vm.pins.frame| && page < |vm.cfg.ro|
    && vm.pins.pinned[page] && e.base == vm.pins.frame[page]
    && e.us && e.rw == (rw && !vm.cfg.ro[page])
  }

  ghost predicate DirMatches(now: Vm, then_: Vm, pdi: nat)
    requires Shaped(now) && Shaped(then_) && pdi < 1024
  {
    now.sh.dir[pdi].us && now.sh.dir[pdi].rw == FillRw(then_.g, then_.cpl, PdeOf(then_.g, pdi))
  }

  predicate Flushes(ev: Event, l: Word) {
    ev.Invlpg? && ev.at / 4096 == l / 4096
  }

  // ---------------------------------------------------------------- one step

  /** Each leaf after a step stood before it untouched, or matches the guest's tables as they now are. */
  ghost predicate StepLeaves(vm: Vm, ev: Event, vm': Vm)
    requires Shaped(vm) && Shaped(vm')
  {
    forall l: Word | LeafFor(vm', l).p ::
      || (vm'.sh.stamp == vm.sh.stamp && !Flushes(ev, l) && LeafFor(vm', l) == LeafFor(vm, l))
      || LeafMatches(vm', vm', l)
  }

  ghost predicate StepDirs(vm: Vm, vm': Vm)
    requires Shaped(vm) && Shaped(vm')
  {
    forall i | 0 <= i < 1024 && i != vm'.cfg.monPdi && vm'.sh.dir[i].p ::
      || (vm'.sh.stamp == vm.sh.stamp && vm'.sh.dir[i] == vm.sh.dir[i])
      || DirMatches(vm', vm', i)
  }

  /** Between resets a pinned page stays pinned where it is, and only the guest itself edits its tables. */
  ghost predicate StepFrame(vm: Vm, ev: Event, vm': Vm) {
    && vm'.cfg == vm.cfg && |vm'.g.mem| == |vm.g.mem| && vm.sh.stamp <= vm'.sh.stamp
    && (vm'.sh.stamp == vm.sh.stamp ==> KeepsPins(vm.pins, vm'.pins) && vm'.g == vm.g.(mem := vm'.g.mem))
    && (vm'.sh.stamp == vm.sh.stamp ==> ev.GuestRuns? || SameTables(vm.g.mem, vm'.g.mem))
    && (vm'.sh.stamp == vm.sh.stamp && ev.GuestRuns? ==> vm'.g.mem == ev.mem)
  }

  ghost predicate StepPost(vm: Vm, ev: Event, vm': Vm)
    requires Shaped(vm)
  {
    Inv(vm') && StepFrame(vm, ev, vm') && StepLeaves(vm, ev, vm') && StepDirs(vm, vm')
  }

  lemma SameLinearPage(l: Word, l': Word)
    requires Pdi(l) == Pdi(l') && Pti(l) == Pti(l')
    ensures l / 4096 == l' / 4096
  {
  }

  lemma SameWalk(g: Guest, l: Word, l': Word)
    requires Sized(g.mem) && Pdi(l) == Pdi(l') && Pti(l) == Pti(l')
    ensures GuestPage(g, l) == GuestPage(g, l') && PteOf(g, l) == PteOf(g, l')
  {
    SameLinearPage(l, l');
  }

  /** A leaf that a fill copied from a granted walk matches the guest's tables. */
  lemma CopiedLeafMatches(vm: Vm, cr2: Word, us: bool, rw: bool, page: nat, pde: Word, pte: Word, l: Word)
    requires Shaped(vm) && Verdict(vm.g, cr2, us, rw, Granted(page, pde, pte))
    requires Pdi(l) == Pdi(cr2) && Pti(l) == Pti(cr2) && NewLeaf(vm, LeafFor(vm, l), page, pte)
    ensures LeafMatches(vm, vm, l)
  {
    SameWalk(vm.g, l, cr2);
    if vm.g.pg {
      SameEntryDecides(WalkTables(vm.g.mem, vm.g.cr3, cr2).pte, pte);
    }
  }

  lemma CopiedDirMatches(vm: Vm, cr2: Word, us: bool, rw: bool, page: nat, pde: Word, pte: Word, e: Entry)
    requires Shaped(vm) && Verdict(vm.g, cr2, us, rw, Granted(page, pde, pte)) && us == (vm.cpl == 3)
    requires e.rw == FillRw(vm.g, vm.cpl, pde) && e.us == FillUs(vm.g, vm.cpl, pde)
    ensures e.us && e.rw == FillRw(vm.g, vm.cpl, PdeOf(vm.g, Pdi(cr2)))
  {
    if vm.g.pg {
      SameEntryDecides(WalkTables(vm.g.mem, vm.g.cr3, cr2).pde, pde);
    }
  }

  lemma MovedLeaf(vm: Vm, vm': Vm, i: nat, j: nat)
    requires Inv(vm) && Moved(vm, vm') && Shaped(vm') && i < 1024 && j < 1024
    ensures Leaf(vm'.sh, vm'.cfg.monPdi, i, j).p ==>
      vm'.sh.stamp == vm.sh.stamp && Leaf(vm'.sh, vm'.cfg.monPdi, i, j) == Leaf(vm.sh, vm.cfg.monPdi, i, j)
    ensures i != vm.cfg.monPdi && vm'.sh.dir[i].p ==> vm'.sh.stamp == vm.sh.stamp && vm'.sh.dir[i] == vm.sh.dir[i]
    ensures vm.sh.stamp <= vm'.sh.stamp
    ensures vm'.sh.stamp == vm.sh.stamp ==> KeepsPins(vm.pins, vm'.pins)
  {
  }

  lemma MoveStep(vm: Vm, ev: Event, vm': Vm)
    requires Inv(vm) && Moved(vm, vm') && Inv(vm') && !ev.Invlpg? && !ev.GuestRuns?
    ensures StepPost(vm, ev, vm')
  {
    assert Shaped(vm) && Shaped(vm') && vm'.cfg == vm.cfg && |vm'.g.mem| == |vm.g.mem|;
    assert vm'.g == vm.g.(mem := vm'.g.mem) && SameTables(vm.g.mem, vm'.g.mem);
    hide Inv, Moved, ShapedPins, KeepsPins, LeafMatches, DirMatches, SameTables;
    MovedLeaf(vm, vm', 0, 0);
    forall l: Word | LeafFor(vm', l).p
      ensures vm'.sh.stamp == vm.sh.stamp && LeafFor(vm', l) == LeafFor(vm, l)
    {
      MovedLeaf(vm, vm', Pdi(l), Pti(l));
    }
    forall i | 0 <= i < 1024 && i != vm.cfg.monPdi && vm'.sh.dir[i].p
      ensures vm'.sh.stamp == vm.sh.stamp && vm'.sh.dir[i] == vm.sh.dir[i]
    {
      MovedLeaf(vm, vm', i, 0);
    }
  }

  lemma KeepsPinsChain(p: Pins, p': Pins, p'': Pins)
    requires KeepsPins(p, p') && KeepsPins(p', p'')
    ensures KeepsPins(p, p'')
  {
  }

  /** The fill after a granted walk, from `vm` over `vm1` to `vm'`. */
  ghost predicate Filled(vm: Vm, ev: Event, vm1: Vm, vm': Vm, us: bool, rw: bool, page: nat, pde: Word, pte: Word) {
    && Inv(vm) && Inv(vm1) && Inv(vm') && Moved(vm, vm1) && ev.Fault? && us == (vm.cpl == 3)
    && Verdict(vm1.g, ev.cr2, us, rw, Granted(page, pde, pte))
    && OnlyPins(vm1, vm') && FilledFrom(vm1, vm', Pdi(ev.cr2), Pti(ev.cr2), page, pte) && DirFrom(vm1, vm', Pdi(ev.cr2), pde)
  }

  lemma FillLeaves(vm: Vm, ev: Event, vm1: Vm, vm': Vm, us: bool, rw: bool, page: nat, pde: Word, pte: Word)
    requires Filled(vm, ev, vm1, vm', us, rw, page, pde, pte)
    ensures Shaped(vm) && Shaped(vm') && StepLeaves(vm, ev, vm')
  {
    assert Shaped(vm) && Shaped(vm1) && Shaped(vm') && vm1.cfg == vm.cfg;
    hide Inv, Moved, ShapedPins, KeepsPins, DirFrom, Verdict, LeafMatches, NewLeaf, Leaf, SameTables;
    forall l: Word | LeafFor(vm', l).p
      ensures (vm'.sh.stamp == vm.sh.stamp && LeafFor(vm', l) == LeafFor(vm, l)) || LeafMatches(vm', vm', l)
    {
      MovedLeaf(vm, vm1, Pdi(l), Pti(l));
      if !(vm'.sh.stamp == vm1.sh.stamp && LeafFor(vm', l) == LeafFor(vm1, l)) {
        CopiedLeafMatches(vm', ev.cr2, us, rw, page, pde, pte, l);
      }
    }
  }

  lemma FillDirs(vm: Vm, ev: Event, vm1: Vm, vm': Vm, us: bool, rw: bool, page: nat, pde: Word, pte: Word)
    requires Filled(vm, ev, vm1, vm', us, rw, page, pde, pte)
    ensures Shaped(vm) && Shaped(vm') && StepDirs(vm, vm')
  {
    assert Shaped(vm) && Shaped(vm1) && Shaped(vm') && vm1.cfg == vm.cfg && vm1.cpl == vm.cpl;
    hide Inv, Moved, ShapedPins, KeepsPins, FilledFrom, Verdict, FillRw, FillUs, Leaf, SameTables;
    forall i | 0 <= i < 1024 && i != vm'.cfg.monPdi && vm'.sh.dir[i].p
      ensures (vm'.sh.stamp == vm.sh.stamp && vm'.sh.dir[i] == vm.sh.dir[i]) || DirMatches(vm', vm', i)
    {
      MovedLeaf(vm, vm1, i, 0);
      if !(vm'.sh.stamp == vm1.sh.stamp && vm'.sh.dir[i] == vm1.sh.dir[i]) {
        CopiedDirMatches(vm', ev.cr2, us, rw, page, pde, pte, vm'.sh.dir[i]);
      }
    }
  }

  lemma FillFrame(vm: Vm, ev: Event, vm1: Vm, vm': Vm, us: bool, rw: bool, page: nat, pde: Word, pte: Word)
    requires Filled(vm, ev, vm1, vm', us, rw, page, pde, pte)
    ensures StepFrame(vm, ev, vm')
  {
    assert Shaped(vm) && Shaped(vm1);
    assert vm1.g == vm.g.(mem := vm1.g.mem) && SameTables(vm.g.mem, vm'.g.mem) && vm1.cfg == vm.cfg;
    hide Inv, Moved, ShapedPins, KeepsPins, FilledFrom, DirFrom, Verdict, Leaf, SameTables;
    MovedLeaf(vm, vm1, 0, 0);
    if vm'.sh.stamp == vm.sh.stamp {
      KeepsPinsChain(vm.pins, vm1.pins, vm'.pins);
    }
  }

  lemma FillStep(vm: Vm, ev: Event, vm1: Vm, result: MapResult, vm': Vm, us: bool, rw: bool, page: nat, pde: Word, pte: Word)
    requires Inv(vm) && Moved(vm, vm1) && Inv(vm1) && ev.Fault? && us == (vm.cpl == 3)
    requires Verdict(vm1.g, ev.cr2, us, rw, Granted(page, pde, pte))
    requires FillPost(vm1, result, vm', Pdi(ev.cr2), Pti(ev.cr2), page, pde, pte)
    ensures StepPost(vm, ev, vm')
  {
    hide Inv, Moved, Verdict, OnlyPins, FilledFrom, DirFrom, Leaf, StepLeaves, StepDirs, StepFrame, Evicts;
    assert Filled(vm, ev, vm1, vm', us, rw, page, pde, pte);
    hide FillPost, Filled;
    FillLeaves(vm, ev, vm1, vm', us, rw, page, pde, pte);
    FillDirs(vm, ev, vm1, vm', us, rw, page, pde, pte);
    FillFrame(vm, ev, vm1, vm', us, rw, page, pde, pte);
    assert Inv(vm');
  }

  lemma MapLinStep(vm: Vm, ev: Event, us: bool, rw: bool)
    requires Inv(vm) && ev.Fault? && us == (vm.cpl == 3)
    requires MapLin(vm, ev.cr2, us, rw, ev.f0, ev.f1, ev.f2).Ok?
    ensures StepPost(vm, ev, MapLin(vm, ev.cr2, us, rw, ev.f0, ev.f1, ev.f2).value.1)
  {
    assert Shaped(vm) && PinInv(vm.pins);
    ConsultIsArchitectural(vm, ev.cr2, us, rw, ev.f0, ev.f1);
    var (access, vm1) := Consult(vm, ev.cr2, us, rw, ev.f0, ev.f1).value;
    MovedKeepsInv(vm, vm1);
    hide Inv, Consult, Fill, Moved, Verdict, StepPost, PinInv;
    match access
    case Denied(_) => MoveStep(vm, ev, vm1);
    case Granted(page, pde, pte) =>
      FillKeeps(vm1, Pdi(ev.cr2), Pti(ev.cr2), rw, page, pde, pte, ev.f2);
      hide FillPost;
      var (result, vm') := Fill(vm1, Pdi(ev.cr2), Pti(ev.cr2), rw, page, pde, pte, ev.f2).value;
      FillStep(vm, ev, vm1, result, vm', us, rw, page, pde, pte);
  }

  /**
   When `mapGuestLinAddr` reports success, the page is mapped exactly when pinning it, in the state
   the walk of the guest's tables has left, evicts nothing: an eviction resets the shadow and the
   new entry lands in a detached table.
   */
  lemma SuccessMapsIff(vm: Vm, l: Word, us: bool, rw: bool, f0: Option<nat>, f1: Option<nat>, f2: Option<nat>)
    requires Inv(vm) && MapLin(vm, l, us, rw, f0, f1, f2).Ok? && MapLin(vm, l, us, rw, f0, f1, f2).value.0 == MapOk
    ensures Consult(vm, l, us, rw, f0, f1).Ok?
    ensures var (access, vm1) := Consult(vm, l, us, rw, f0, f1).value;
      var vm' := MapLin(vm, l, us, rw, f0, f1, f2).value.1;
      && access.Granted? && GuestPage(vm.g, l) == Some(access.page) && access.page < |vm1.pins.pinned|
      && (LeafFor(vm', l).p <==> !Evicts(vm1.pins, access.page))
  {
    assert Shaped(vm) && PinInv(vm.pins);
    ConsultIsArchitectural(vm, l, us, rw, f0, f1);
    var (access, vm1) := Consult(vm, l, us, rw, f0, f1).value;
    MovedKeepsInv(vm, vm1);
    hide Inv, Consult, Fill, PinInv, WalkTables, GuestAllows, FaultCode;
    FillKeeps(vm1, Pdi(l), Pti(l), rw, access.page, access.pde, access.pte, f2);
  }

  /** A granted entry has been marked: A set, and D for a write. */
  lemma GrantedIsMarked(vm: Vm, l: Word, us: bool, rw: bool, f0: Option<nat>, f1: Option<nat>)
    requires Shaped(vm) && vm.g.pg && Consult(vm, l, us, rw, f0, f1).Ok?
    ensures var access := Consult(vm, l, us, rw, f0, f1).value.0;
      access.Granted? ==> Accessed(access.pte) && (rw ==> Dirty(access.pte))
  {
    hide Pinned, Dword, P, Base, Refused, MarkPde, MarkPte, UsedPte, SetAccessed, ShapedPins, ShapedTables, EntryAddr;
    EntryInside(vm.g.mem, Base(vm.g.cr3), Pdi(l));
    if Base(vm.g.cr3) < Pages(vm.g.mem) {
      var pde := Dword(vm.g.mem, PdeAddr(vm.g.cr3, l));
      var m := MarkPde(vm.g.mem, vm.g.cr3, l, pde, vm.cfg.family < 6);
      EntryInside(m, Base(pde), Pti(l));
      if Base(pde) < Pages(m) {
        UsedBits(Dword(m, PteAddr(pde, l)), rw);
      }
    }
  }

  /** What a directory or table entry lets hardware do for the access that was asked for. */
  predicate Serves(e: Entry, rw: bool) {
    e.us && (rw ==> e.rw)
  }

  /**
   A fill that maps serves the access it was made for, in whatever ring and whatever WP: the new leaf permits it and carries the
   guest's A and D bits, and so does the directory entry unless that stood before.
   */
  lemma FillServes(vm: Vm, l: Word, rw: bool, f0: Option<nat>, f1: Option<nat>, f2: Option<nat>)
    requires Inv(vm) && MapLin(vm, l, vm.cpl == 3, rw, f0, f1, f2).Ok?
    requires var (result, vm') := MapLin(vm, l, vm.cpl == 3, rw, f0, f1, f2).value; result == MapOk && LeafFor(vm', l).p
    ensures var vm' := MapLin(vm, l, vm.cpl == 3, rw, f0, f1, f2).value.1;
      && Serves(LeafFor(vm', l), rw)
      && (vm.g.pg ==> LeafFor(vm', l).a && (rw ==> LeafFor(vm', l).d))
      && (Serves(vm'.sh.dir[Pdi(l)], rw) || (vm.sh.dir[Pdi(l)].p && vm'.sh.dir[Pdi(l)] == vm.sh.dir[Pdi(l)]))
  {
    assert Shaped(vm) && PinInv(vm.pins);
    hide Inv, Consult, Fill, PinInv, WalkTables, GuestAllows, FaultCode, Accessed, Dirty, Leaf, Pdi, Pti, Refused, ShapedPins, Serves, FillPost, KeepsPins, Translate, GuestPage, SameEntry, SameTables, KeepsLeaves;
    var us := vm.cpl == 3;
    ConsultIsArchitectural(vm, l, us, rw, f0, f1);
    var (access, vm1) := Consult(vm, l, us, rw, f0, f1).value;
    MovedKeepsInv(vm, vm1);
    MovedLeaf(vm, vm1, Pdi(l), Pti(l));
    if vm.g.pg {
      GrantedIsMarked(vm, l, us, rw, f0, f1);
    }
    FillKeeps(vm1, Pdi(l), Pti(l), rw, access.page, access.pde, access.pte, f2);
    WritableIsPlain(vm1, Pdi(l), Pti(l), rw, access.page, access.pde, access.pte, f2);
    FilledServes(vm1, MapLin(vm, l, us, rw, f0, f1, f2).value.1, Pdi(l), Pti(l), rw, access.page, access.pde, access.pte);
  }

  lemma FilledServes(vm: Vm, vm': Vm, pdi: nat, pti: nat, rw: bool, page: nat, pde: Word, pte: Word)
    requires Shaped(vm) && Shaped(vm') && pdi < 1024 && pti < 1024 && FillPost(vm, MapOk, vm', pdi, pti, page, pde, pte)
    requires Leaf(vm'.sh, vm.cfg.monPdi, pdi, pti).p && page < |vm.cfg.ro| && !(rw && vm.cfg.ro[page])
    requires vm.g.pg ==> !Refused(pde, vm.cpl == 3, rw, vm.g.wp) && !Refused(pte, vm.cpl == 3, rw, vm.g.wp) && Accessed(pte) && (rw ==> Dirty(pte))
    ensures var leaf := Leaf(vm'.sh, vm.cfg.monPdi, pdi, pti); Serves(leaf, rw) && (vm.g.pg ==> leaf.a && (rw ==> leaf.d))
    ensures Serves(vm'.sh.dir[pdi], rw) || (vm.sh.dir[pdi].p && vm'.sh.stamp == vm.sh.stamp && vm'.sh.dir[pdi] == vm.sh.dir[pdi])
  {
    hide Inv, ShapedPins, KeepsPins, Accessed, Dirty, Rw, Us, KeepsLeaves;
    assert pdi != vm.cfg.monPdi && vm'.sh.dir[pdi].p;
  }

  /** A write fill maps no read-only page, and no fill maps what was mapped. */
  lemma WritableIsPlain(vm: Vm, pdi: nat, pti: nat, rw: bool, page: nat, pde: Word, pte: Word, f2: Option<nat>)
    requires Shaped(vm) && pdi < 1024 && pti < 1024 && Fill(vm, pdi, pti, rw, page, pde, pte, f2).Ok?
    requires Fill(vm, pdi, pti, rw, page, pde, pte, f2).value.0 == MapOk
    ensures page < |vm.cfg.ro| && !(rw && vm.cfg.ro[page])
  {
    hide Pinned, AllocateTable, DirEntry, LeafEntry, Base;
  }

  lemma MovedKeepsInv(vm: Vm, vm': Vm)
    requires Inv(vm) && Moved(vm, vm') && Shaped(vm') && PinInv(vm'.pins)
    ensures Inv(vm')
  {
    assert ShapedPins(vm'.pins, Pages(vm.g.mem));
    hide PinInv, HeapInv, SameTables, ShapedPins;
    MovedKeeps(vm, vm');
  }

  lemma ResetStep(vm: Vm, ev: Event, vm': Vm)
    requires Inv(vm) && vm'.cfg == vm.cfg && vm'.pins == vm.pins && |vm'.g.mem| == |vm.g.mem|
    requires Dropped(vm.sh, vm'.sh, vm.cfg.monPdi)
    ensures StepPost(vm, ev, vm')
  {
    ResetKeepsHeap(vm.sh, vm'.sh, vm.cfg.monPdi, vm.cfg.frames);
    assert Inv(vm');
    hide LeafMatches, DirMatches, KeepsPins, PinInv, HeapInv, ShapedPins;
  }

  lemma QuietStep(vm: Vm, ev: Event, vm': Vm)
    requires Inv(vm) && vm'.cfg == vm.cfg && vm'.pins == vm.pins && vm'.sh == vm.sh
    requires (ev.Level? && vm'.g == vm.g) || (ev.GuestRuns? && vm'.g == vm.g.(mem := ev.mem) && |ev.mem| == |vm.g.mem|)
    ensures StepPost(vm, ev, vm')
  {
    assert Inv(vm');
    hide LeafMatches, DirMatches, PinInv, HeapInv, Leaf;
  }

  /** INVLPG drops the leaf of its page and leaves every other leaf, the directory and all else alone. */
  lemma InvalidatedLeaves(vm: Vm, at: Word)
    requires Inv(vm) && Invalidate(vm, at).Ok?
    ensures var vm' := Invalidate(vm, at).value;
      && Inv(vm') && vm' == vm.(sh := vm'.sh) && vm'.sh == vm.sh.(tbl := vm'.sh.tbl)
      && !Leaf(vm'.sh, vm.cfg.monPdi, Pdi(at), Pti(at)).p
      && forall a, b | 0 <= a < 1024 && 0 <= b < 1024 && (a != Pdi(at) || b != Pti(at)) ::
           Leaf(vm'.sh, vm.cfg.monPdi, a, b) == Leaf(vm.sh, vm.cfg.monPdi, a, b)
  {
    hide PinInv, HeapLinks, Pdi, Pti;
    var vm' := Invalidate(vm, at).value;
    if vm' != vm {
      StoreKeeps(vm.sh, Pdi(at), Pti(at), NONE, vm.cfg.monPdi, vm.cfg.frames);
    } else if vm.sh.dir[Pdi(at)].p {
      TableIndex(vm, Pdi(at));
    }
  }

  lemma FlushedPage(ev: Event, l: Word)
    requires ev.Invlpg?
    ensures Flushes(ev, l) <==> Pdi(l) == Pdi(ev.at) && Pti(l) == Pti(ev.at)
  {
    if Pdi(l) == Pdi(ev.at) && Pti(l) == Pti(ev.at) {
      SameLinearPage(l, ev.at);
    }
  }

  lemma InvalidateStep(vm: Vm, ev: Event)
    requires Inv(vm) && ev.Invlpg? && Invalidate(vm, ev.at).Ok?
    ensures StepPost(vm, ev, Invalidate(vm, ev.at).value)
  {
    assert Shaped(vm);
    hide Inv, ShapedPins, LeafMatches, DirMatches, Flushes, Leaf, Invalidate, Pdi, Pti;
    InvalidatedLeaves(vm, ev.at);
    var vm' := Invalidate(vm, ev.at).value;
    forall l: Word | LeafFor(vm', l).p
      ensures !Flushes(ev, l) && LeafFor(vm', l) == LeafFor(vm, l)
    {
      FlushedPage(ev, l);
    }
  }

  /** Every step keeps the heap and the ring exact, and accounts for every entry it leaves. */
  lemma StepKeeps(vm: Vm, ev: Event)
    requires Inv(vm) && Step(vm, ev).Ok?
    ensures StepPost(vm, ev, Step(vm, ev).value)
  {
    var vm' := Step(vm, ev).value;
    assert Shaped(vm) && PinInv(vm.pins);
    hide Inv, StepPost, PinInv, ShapedPins, MapLin, Invalidate;
    match ev
    case Fault(cr2, error, f0, f1, f2) => MapLinStep(vm, ev, vm.cpl == 3, error / 2 % 2 == 1);
    case Invlpg(l) => InvalidateStep(vm, ev);
    case SetCr0(val) => ResetStep(vm, ev, vm');
    case SetCr3(val) =>
      assert ClearedDir(ClearedDir(vm.sh.dir, vm.cfg.monPdi), vm.cfg.monPdi) == ClearedDir(vm.sh.dir, vm.cfg.monPdi);
      ResetStep(vm, ev, vm');
    case SetCr4(val) => ResetStep(vm, ev, vm');
    case PinPage(page, frame) =>
      PinnedMoves(vm, page, frame);
      MovedKeepsInv(vm, vm');
      MoveStep(vm, ev, vm');
    case GuestRuns(mem) => QuietStep(vm, ev, vm');
    case Level(cpl) => QuietStep(vm, ev, vm');
    case Load(g, level) => ResetStep(vm, ev, vm');
  }

  // ---------------------------------------------------------------- loads and faults, exactly

  /** No table is linked but the monitor's own. */
  predicate Emptied(vm: Vm)
    requires Shaped(vm)
  {
    forall i | 0 <= i < 1024 && i != vm.cfg.monPdi :: vm.sh.dir[i] == NONE
  }

  /** A control register load takes effect: it holds what was loaded, all else of the guest stands, and the shadow is empty. */
  lemma ControlLoads(vm: Vm, val: Word)
    requires Shaped(vm)
    ensures Step(vm, SetCr3(val)).Ok? && Step(vm, SetCr3(val)).value.g == vm.g.(cr3 := val) && Emptied(Step(vm, SetCr3(val)).value)
    ensures Step(vm, SetCr0(val)).Ok? <==>
      val % 2 == val / 2 % 2 == val / 16 % 2 == val / 32 % 2 == 1 && val / 0x2000_0000 % 2 == val / 0x4000_0000 % 2 == 0
    ensures Step(vm, SetCr0(val)).Ok? ==>
      && Step(vm, SetCr0(val)).value.g == vm.g.(pg := val >= 0x8000_0000, wp := val / 0x1_0000 % 2 == 1)
      && Emptied(Step(vm, SetCr0(val)).value)
    ensures Step(vm, SetCr4(val)).Ok? <==> val == 0
    ensures val == 0 ==> Step(vm, SetCr4(val)).value.g == vm.g.(cr4 := 0) && Emptied(Step(vm, SetCr4(val)).value)
  {
    hide NoTables, ShapedPins, Cr0Acceptable;
    Cr0Bits(val);
    assert val / 0x8000_0000 == 1 <==> val >= 0x8000_0000;
  }

  lemma Cr0Bits(val: Word)
    ensures Cr0Acceptable(val) <==> val % 2 == val / 2 % 2 == val / 16 % 2 == val / 32 % 2 == 1 && val / 0x2000_0000 % 2 == val / 0x4000_0000 % 2 == 0
  {
    TwoBits(val);
    TwoBits(val / 16);
    TwoBits(val / 0x2000_0000);
    assert val / 16 / 2 == val / 32 && val / 0x2000_0000 / 2 == val / 0x4000_0000;
  }

  lemma TwoBits(x: nat)
    ensures x % 4 == x % 2 + 2 * (x / 2 % 2)
  {
  }

  /** A page fault is injected with the hardware's own code exactly when the guest's tables refuse the access. */
  lemma PageFaultForwards(vm: Vm, cr2: Word, error: Word, f0: Option<nat>, f1: Option<nat>, f2: Option<nat>)
    requires Shaped(vm) && PinInv(vm.pins) && GuestPageFault(vm, cr2, error, f0, f1, f2).Ok?
    ensures match GuestPageFault(vm, cr2, error, f0, f1, f2).value.0
            case Some(code) => code == error && !GuestAllows(vm.g, cr2, vm.cpl == 3, error / 2 % 2 == 1)
            case None => GuestAllows(vm.g, cr2, vm.cpl == 3, error / 2 % 2 == 1)
    ensures var r := MapLin(vm, cr2, vm.cpl == 3, error / 2 % 2 == 1, f0, f1, f2);
      r.Ok? && r.value.1 == GuestPageFault(vm, cr2, error, f0, f1, f2).value.1 && (r.value.0 == MapOk || r.value.0.Exception?)
  {
    hide Consult, Fill, GuestAllows, FaultCode, Moved, PinInv, WalkTables, ShapedPins;
    var rw := error / 2 % 2 == 1;
    if Consult(vm, cr2, vm.cpl == 3, rw, f0, f1).Ok? {
      ConsultIsArchitectural(vm, cr2, vm.cpl == 3, rw, f0, f1);
    }
    FillIsNoException(vm, cr2, rw, f0, f1, f2);
  }

  lemma FillIsNoException(vm: Vm, l: Word, rw: bool, f0: Option<nat>, f1: Option<nat>, f2: Option<nat>)
    requires Shaped(vm)
    ensures Consult(vm, l, vm.cpl == 3, rw, f0, f1).Ok? && Consult(vm, l, vm.cpl == 3, rw, f0, f1).value.0.Granted? ==>
      var (access, vm1) := Consult(vm, l, vm.cpl == 3, rw, f0, f1).value;
      var r := Fill(vm1, Pdi(l), Pti(l), rw, access.page, access.pde, access.pte, f2);
      r.Ok? ==> !r.value.0.Exception?
  {
    hide Consult, Pinned, AllocateTable, DirEntry, LeafEntry, Base;
  }

  /** INVLPG is carried out exactly under paging and outside the monitor's own four megabytes. */
  lemma InvalidatesIff(vm: Vm, l: Word)
    requires Inv(vm)
    ensures Invalidate(vm, l).Ok? <==> vm.g.pg && l / 0x40_0000 != vm.cfg.monPdi
  {
    assert l / 4096 / 1024 == l / 0x40_0000;
    if vm.sh.dir[Pdi(l)].p && Pdi(l) != vm.cfg.monPdi {
      TableIndex(vm, Pdi(l));
    }
    hide PinInv, Pti;
  }

  /** A page fault is handled exactly outside the monitor's four megabytes, without reserved bits, and when it can be filled or is the guest's own. */
  lemma FaultHandledIff(vm: Vm, cr2: Word, error: Word, f0: Option<nat>, f1: Option<nat>, f2: Option<nat>)
    requires Shaped(vm)
    ensures GuestPageFault(vm, cr2, error, f0, f1, f2).Ok? <==>
      && cr2 / 0x40_0000 != vm.cfg.monPdi && error / 8 % 2 == 0
      && var r := MapLin(vm, cr2, vm.cpl == 3, error / 2 % 2 == 1, f0, f1, f2);
      r.Ok? && (r.value.0 == MapOk || r.value.0.Exception?)
  {
    assert cr2 / 4096 / 1024 == cr2 / 0x40_0000;
    hide MapLin;
  }
}
