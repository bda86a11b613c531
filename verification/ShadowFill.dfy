/**
 One call of `mapGuestLinAddr`: when the guest's tables grant an access, and
 what the call does to the shadow, even when a pin inside it evicts a page.
 */
module ShadowFill {
  import opened Words
  import opened GuestTables
  import opened Shadow

  // ---------------------------------------------------------------- the guest's side

  /** The architectural verdict: present in both levels and refused by neither. */
  predicate GuestAllows(g: Guest, l: Word, us: bool, rw: bool)
    requires Sized(g.mem)
  {
    !g.pg ||
    match WalkTables(g.mem, g.cr3, l)
    case Found(pde, pte) => (us ==> Us(pde) && Us(pte)) && (rw && (us || g.wp) ==> Rw(pde) && Rw(pte))
    case _ => false
  }

  /** The architectural error code: P, then W/R and U/S from the request. */
  function FaultCode(g: Guest, l: Word, us: bool, rw: bool): nat
    requires Sized(g.mem)
  {
    Bit(us) * 4 + Bit(rw) * 2 + Bit(WalkTables(g.mem, g.cr3, l).Found?)
  }

  lemma MarkPdeSame(m: Memory, cr3: Word, l: Word, pde: Word, now: bool)
    requires Sized(m) && Base(cr3) < Pages(m)
    requires PdeAddr(cr3, l) + 4 <= |m| && SameEntry(pde, Dword(m, PdeAddr(cr3, l)))
    ensures SameTables(m, MarkPde(m, cr3, l, pde, now))
  {
    MarksKeepEntry(pde);
    MarkKeepsTables(m, Base(cr3), Pdi(l), SetAccessed(pde));
  }

  lemma UsedKeepsEntry(pte: Word, rw: bool)
    ensures SameEntry(UsedPte(pte, rw), pte)
  {
    MarksKeepEntry(pte);
    MarksKeepEntry(SetAccessed(pte));
  }

  lemma MarkPteSame(m: Memory, l: Word, pde: Word, pte: Word, rw: bool)
    requires Sized(m) && Base(pde) < Pages(m)
    requires PteAddr(pde, l) + 4 <= |m| && SameEntry(pte, Dword(m, PteAddr(pde, l)))
    ensures SameTables(m, MarkPte(m, l, pde, pte, rw))
  {
    UsedKeepsEntry(pte, rw);
    MarkKeepsTables(m, Base(pde), Pti(l), UsedPte(pte, rw));
  }

  /** The verdict of the guest's tables on one call, and what the call found there. */
  ghost predicate Verdict(g: Guest, l: Word, us: bool, rw: bool, access: Access)
    requires Sized(g.mem)
  {
    match access
    case Denied(error) => !GuestAllows(g, l, us, rw) && error == FaultCode(g, l, us, rw)
    case Granted(page, pde, pte) =>
      && GuestAllows(g, l, us, rw)
      && GuestPage(g, l) == Some(page)
      && (g.pg ==>
            var walk := WalkTables(g.mem, g.cr3, l);
            && walk.Found? && SameEntry(walk.pde, pde) && SameEntry(walk.pte, pte)
            && !Refused(pde, us, rw, g.wp) && !Refused(pte, us, rw, g.wp))
  }

  lemma VerdictCarries(g: Guest, m: Memory, l: Word, us: bool, rw: bool, access: Access)
    requires Sized(g.mem) && SameTables(g.mem, m) && Verdict(g, l, us, rw, access)
    ensures Verdict(g.(mem := m), l, us, rw, access)
  {
    TablesDecideWalk(g.mem, m, g.cr3, l);
    TablesDecideTranslation(g, m, l);
    var w, w' := WalkTables(g.mem, g.cr3, l), WalkTables(m, g.cr3, l);
    if w.Found? {
      SameEntryDecides(w.pde, w'.pde);
      SameEntryDecides(w.pte, w'.pte);
    }
  }

  lemma ConsultTableIsArchitectural(vm: Vm, l: Word, us: bool, rw: bool, pde: Word, f1: Option<nat>)
    requires Shaped(vm) && PinInv(vm.pins) && vm.g.pg && Base(vm.g.cr3) < Pages(vm.g.mem) && P(pde)
    requires PdeAddr(vm.g.cr3, l) + 4 <= |vm.g.mem| && SameEntry(pde, Dword(vm.g.mem, PdeAddr(vm.g.cr3, l)))
    requires ConsultTable(vm, l, us, rw, pde, f1).Ok?
    ensures var (access, vm') := ConsultTable(vm, l, us, rw, pde, f1).value;
      Moved(vm, vm') && PinInv(vm'.pins) && Verdict(vm.g, l, us, rw, access)
  {
    hide PinInv, SameTables, Pinned, Dropped, KeepsPins, Accessed, Dirty;
    var (access, vm') := ConsultTable(vm, l, us, rw, pde, f1).value;
    var m := vm.g.mem;
    PinnedMoves(vm, Base(pde), f1);
    EntryInside(m, Base(pde), Pti(l));
    SameEntryDecides(pde, Dword(m, PdeAddr(vm.g.cr3, l)));
    var pte := Dword(m, PteAddr(pde, l));
    if access.Granted? {
      var m1 := MarkPde(m, vm.g.cr3, l, pde, vm.cfg.family >= 6);
      MarkPdeSame(m, vm.g.cr3, l, pde, vm.cfg.family >= 6);
      SameAt(m, m1, Base(pde), Pti(l));
      MarkPteSame(m1, l, pde, pte, rw);
      SameTablesChain(m, m1, vm'.g.mem);
      UsedKeepsEntry(pte, rw);
      MarksKeepEntry(pde);
      SameEntryDecides(pde, access.pde);
      SameEntryDecides(pte, access.pte);
    }
  }

  /**
   `mapGuestLinAddr` grants exactly what the architecture grants and otherwise
   reports the architectural error code.  It changes the guest's tables in A and
   D bits only, so its verdict stands in the memory it leaves.
   */
  lemma ConsultIsArchitectural(vm: Vm, l: Word, us: bool, rw: bool, f0: Option<nat>, f1: Option<nat>)
    requires Shaped(vm) && PinInv(vm.pins) && Consult(vm, l, us, rw, f0, f1).Ok?
    ensures var (access, vm') := Consult(vm, l, us, rw, f0, f1).value;
      && Moved(vm, vm') && PinInv(vm'.pins)
      && Verdict(vm.g, l, us, rw, access) && Verdict(vm'.g, l, us, rw, access)
  {
    if vm.g.pg {
      ConsultPagedIsArchitectural(vm, l, us, rw, f0, f1);
    } else {
      MovedStays(vm);
    }
    var (access, vm') := Consult(vm, l, us, rw, f0, f1).value;
    VerdictCarries(vm.g, vm'.g.mem, l, us, rw, access);
  }

  lemma ConsultPagedIsArchitectural(vm: Vm, l: Word, us: bool, rw: bool, f0: Option<nat>, f1: Option<nat>)
    requires Shaped(vm) && PinInv(vm.pins) && vm.g.pg && Consult(vm, l, us, rw, f0, f1).Ok?
    ensures var (access, vm') := Consult(vm, l, us, rw, f0, f1).value;
      Moved(vm, vm') && PinInv(vm'.pins) && Verdict(vm.g, l, us, rw, access)
  {
    hide PinInv, SameTables, Pinned, Dropped, KeepsPins, ConsultTable, ShapedPins;
    var (access, vm') := Consult(vm, l, us, rw, f0, f1).value;
    PinnedMoves(vm, Base(vm.g.cr3), f0);
    EntryInside(vm.g.mem, Base(vm.g.cr3), Pdi(l));
    var vm1 := Pinned(vm, Base(vm.g.cr3), f0).value;
    var pde := Dword(vm.g.mem, PdeAddr(vm.g.cr3, l));
    if P(pde) {
      var m := MarkPde(vm.g.mem, vm.g.cr3, l, pde, vm.cfg.family < 6);
      MarkPdeSame(vm.g.mem, vm.g.cr3, l, pde, vm.cfg.family < 6);
      SameAt(vm.g.mem, m, Base(vm.g.cr3), Pdi(l));
      var vm2 := SetMem(vm1, m);
      hide MarkPde, GuestAllows, FaultCode, GuestPage, Refused;
      ConsultTableIsArchitectural(vm2, l, us, rw, pde, f1);
      MovedChain(vm, vm2, vm');
      Symmetric(vm.g.mem, m);
      VerdictCarries(vm2.g, vm.g.mem, l, us, rw, access);
      assert vm2.g.(mem := vm.g.mem) == vm.g;
    }
  }

  lemma Symmetric(m: Memory, m': Memory)
    requires SameTables(m, m')
    ensures SameTables(m', m)
  {
  }

  /** Whatever page a call obtains, `translateLinToPhy` finds it too, before the call and after it. */
  lemma WalkersAgreeOnFill(vm: Vm, l: Word, us: bool, rw: bool, f0: Option<nat>, f1: Option<nat>)
    requires Shaped(vm) && PinInv(vm.pins) && !LargePages(vm.g.cr4)
    requires Consult(vm, l, us, rw, f0, f1).Ok? && Consult(vm, l, us, rw, f0, f1).value.0.Granted?
    ensures var (access, vm') := Consult(vm, l, us, rw, f0, f1).value;
      Translate(vm.g, l) == Translate(vm'.g, l) == access.page * 4096 + l % 4096
  {
    ConsultIsArchitectural(vm, l, us, rw, f0, f1);
    WalkersAgree(vm.g, l);
    WalkersAgree(Consult(vm, l, us, rw, f0, f1).value.1.g, l);
  }

  // ---------------------------------------------------------------- the monitor's side

  lemma AllocateLinks(s: Tables, pdi: nat, e: Entry, monPdi: nat, frames: seq<nat>)
    requires ShapedTables(s) && monPdi < 1024 && |frames| == 80 && HeapLinks(s, monPdi, frames)
    requires pdi < 1024 && !s.dir[pdi].p && s.next < 80 && e.p && e.base == frames[s.next]
    ensures AllocateTable(s, pdi, e).Ok?
    ensures HeapLinks(AllocateTable(s, pdi, e).value, monPdi, frames)
  {
    hide ZeroTable;
    assert pdi != monPdi;
    assert s.tableOf[pdi] == -1;
  }

  lemma AllocateCounts(s: Tables, pdi: nat, e: Entry, monPdi: nat)
    requires ShapedTables(s) && pdi < 1024 && pdi != monPdi && !s.dir[pdi].p && e.p && AllocateTable(s, pdi, e).Ok?
    ensures |PresentPdes(AllocateTable(s, pdi, e).value, monPdi)| == |PresentPdes(s, monPdi)| + 1
  {
    hide ZeroTable;
    assert PresentPdes(AllocateTable(s, pdi, e).value, monPdi) == PresentPdes(s, monPdi) + {pdi};
  }

  lemma AllocateKeepsHeap(s: Tables, pdi: nat, e: Entry, monPdi: nat, frames: seq<nat>)
    requires ShapedTables(s) && monPdi < 1024 && |frames| == 80 && HeapInv(s, monPdi, frames)
    requires pdi < 1024 && !s.dir[pdi].p && s.next < 80 && e.p && e.base == frames[s.next]
    ensures AllocateTable(s, pdi, e).Ok?
    ensures HeapInv(AllocateTable(s, pdi, e).value, monPdi, frames)
  {
    assert pdi != monPdi;
    hide HeapLinks, PresentPdes, ZeroTable;
    AllocateLinks(s, pdi, e, monPdi, frames);
    AllocateCounts(s, pdi, e, monPdi);
  }

  /** A fresh table is all zero, and no table in use is touched. */
  lemma AllocateKeepsLeaf(s: Tables, pdi: nat, e: Entry, monPdi: nat, frames: seq<nat>, i: nat, j: nat)
    requires ShapedTables(s) && monPdi < 1024 && |frames| == 80 && HeapInv(s, monPdi, frames)
    requires pdi < 1024 && !s.dir[pdi].p && AllocateTable(s, pdi, e).Ok?
    requires i < 1024 && j < 1024
    ensures Leaf(AllocateTable(s, pdi, e).value, monPdi, i, j) == Leaf(s, monPdi, i, j)
  {
    if i != pdi && s.tableOf[i] != -1 {
      assert s.tableOf[i] < s.next;
    }
  }

  lemma StoreKeeps(s: Tables, pdi: nat, pti: nat, e: Entry, monPdi: nat, frames: seq<nat>)
    requires ShapedTables(s) && monPdi < 1024 && |frames| == 80 && HeapInv(s, monPdi, frames)
    requires pdi < 1024 && pti < 1024 && pdi != monPdi && s.dir[pdi].p
    ensures var s' := s.(tbl := s.tbl[s.tableOf[pdi] * 1024 + pti := e]);
      && HeapInv(s', monPdi, frames)
      && forall i, j | 0 <= i < 1024 && 0 <= j < 1024 ::
           Leaf(s', monPdi, i, j) == if i == pdi && j == pti then e else Leaf(s, monPdi, i, j)
  {
    var s' := s.(tbl := s.tbl[s.tableOf[pdi] * 1024 + pti := e]);
    assert PresentPdes(s', monPdi) == PresentPdes(s, monPdi);
    forall i, j | 0 <= i < 1024 && 0 <= j < 1024
      ensures Leaf(s', monPdi, i, j) == if i == pdi && j == pti then e else Leaf(s, monPdi, i, j)
    {
      if i != pdi && s.tableOf[i] != -1 {
        assert s.tableOf[i] != s.tableOf[pdi];
      }
    }
  }

  /** A store into a table that an eviction has just detached reaches no leaf at all. */
  lemma DetachedStoreKeeps(s: Tables, at: nat, e: Entry, monPdi: nat, frames: seq<nat>)
    requires ShapedTables(s) && monPdi < 1024 && |frames| == 80 && HeapInv(s, monPdi, frames)
    requires at < |s.tbl| && s.dir == ClearedDir(s.dir, monPdi)
    ensures var s' := s.(tbl := s.tbl[at := e]);
      && HeapInv(s', monPdi, frames)
      && forall i, j | 0 <= i < 1024 && 0 <= j < 1024 :: Leaf(s', monPdi, i, j) == NONE
  {
    assert PresentPdes(s.(tbl := s.tbl[at := e]), monPdi) == PresentPdes(s, monPdi);
  }

  predicate NewLeaf(vm: Vm, e: Entry, page: nat, pte: Word) {
    && page < |vm.pins.pinned| && page < |vm.pins.frame| && page < |vm.cfg.ro|
    && vm.pins.pinned[page] && e.base == vm.pins.frame[page]
    && e.us && e.rw == (FillRw(vm.g, vm.cpl, pte) && !vm.cfg.ro[page])
    && e.a == (vm.g.pg && Accessed(pte)) && e.d == (vm.g.pg && Dirty(pte))
  }

  /** Old leaves stand as they were; the only new leaf is the one asked for, exactly as copied. */
  ghost predicate FilledFrom(vm: Vm, vm': Vm, pdi: nat, pti: nat, page: nat, pte: Word)
    requires ShapedTables(vm.sh) && ShapedTables(vm'.sh)
  {
    forall i, j | 0 <= i < 1024 && 0 <= j < 1024 && Leaf(vm'.sh, vm.cfg.monPdi, i, j).p ::
      || (vm'.sh.stamp == vm.sh.stamp && Leaf(vm'.sh, vm.cfg.monPdi, i, j) == Leaf(vm.sh, vm.cfg.monPdi, i, j))
      || (i == pdi && j == pti && NewLeaf(vm', Leaf(vm'.sh, vm.cfg.monPdi, i, j), page, pte))
  }

  /** Unless the shadow was dropped, every leaf but one is as it was. */
  ghost predicate KeepsLeaves(vm: Vm, vm': Vm, pdi: nat, pti: nat)
    requires ShapedTables(vm.sh) && ShapedTables(vm'.sh)
  {
    vm'.sh.stamp == vm.sh.stamp ==>
      forall i, j | 0 <= i < 1024 && 0 <= j < 1024 && (i != pdi || j != pti) :: Leaf(vm'.sh, vm.cfg.monPdi, i, j) == Leaf(vm.sh, vm.cfg.monPdi, i, j)
  }

  /** The machine outside the shadow changed by pinning only. */
  ghost predicate OnlyPins(vm: Vm, vm': Vm) {
    && vm'.g == vm.g && vm'.cpl == vm.cpl && vm'.cfg == vm.cfg
    && vm.sh.stamp <= vm'.sh.stamp
    && (vm'.sh.stamp == vm.sh.stamp ==> KeepsPins(vm.pins, vm'.pins))
  }

  lemma TableIndex(vm: Vm, pdi: nat)
    requires Inv(vm) && pdi < 1024 && pdi != vm.cfg.monPdi && vm.sh.dir[pdi].p
    ensures 0 <= vm.sh.tableOf[pdi] < 80
  {
  }

  lemma LeafCopies(vm: Vm, pte: Word, page: nat, frame: nat)
    requires page < |vm.cfg.ro|
    ensures var e := LeafEntry(vm, pte, vm.cfg.ro[page], frame);
      && e.p && e.us && e.base == frame && e.rw == (FillRw(vm.g, vm.cpl, pte) && !vm.cfg.ro[page])
      && e.a == (vm.g.pg && Accessed(pte)) && e.d == (vm.g.pg && Dirty(pte))
  {
  }

  /** The store that ends a fill, after the pin before it has moved `vm` to `vm1`. */
  lemma StoreAfterPin(vm: Vm, vm1: Vm, pdi: nat, pti: nat, page: nat, pte: Word)
    requires Inv(vm) && Inv(vm1) && Moved(vm, vm1) && vm1.g == vm.g
    requires pdi < 1024 && pti < 1024 && pdi != vm.cfg.monPdi && vm.sh.dir[pdi].p
    requires page < Pages(vm.g.mem) && vm1.pins.pinned[page]
    ensures var at := vm.sh.tableOf[pdi] * 1024 + pti;
      var vm' := vm1.(sh := vm1.sh.(tbl := vm1.sh.tbl[at := LeafEntry(vm, pte, vm.cfg.ro[page], vm1.pins.frame[page])]));
      && Inv(vm') && OnlyPins(vm, vm') && FilledFrom(vm, vm', pdi, pti, page, pte) && KeepsLeaves(vm, vm', pdi, pti)
      && (vm'.sh.stamp == vm.sh.stamp ==> vm'.sh.dir == vm.sh.dir && Leaf(vm'.sh, vm.cfg.monPdi, pdi, pti).p)
      && (vm'.sh.stamp != vm.sh.stamp ==> forall i | 0 <= i < 1024 && i != vm.cfg.monPdi :: !vm'.sh.dir[i].p)
  {
    hide PinInv, HeapLinks, HeapInv, LeafEntry, SameTables, KeepsPins, FillRw, Accessed, Dirty;
    TableIndex(vm, pdi);
    var e := LeafEntry(vm, pte, vm.cfg.ro[page], vm1.pins.frame[page]);
    LeafCopies(vm, pte, page, vm1.pins.frame[page]);
    if vm1.sh == vm.sh {
      StoreKeeps(vm.sh, pdi, pti, e, vm.cfg.monPdi, vm.cfg.frames);
    } else {
      assert vm1.sh.dir == ClearedDir(vm1.sh.dir, vm.cfg.monPdi);
      DetachedStoreKeeps(vm1.sh, vm.sh.tableOf[pdi] * 1024 + pti, e, vm.cfg.monPdi, vm.cfg.frames);
    }
  }

  /** Every present guest directory entry is an old one or the one this fill copied. */
  ghost predicate DirFrom(vm: Vm, vm': Vm, pdi: nat, pde: Word)
    requires ShapedTables(vm.sh) && ShapedTables(vm'.sh)
  {
    forall i | 0 <= i < 1024 && i != vm.cfg.monPdi && vm'.sh.dir[i].p ::
      || (vm'.sh.stamp == vm.sh.stamp && vm'.sh.dir[i] == vm.sh.dir[i])
      || (i == pdi && vm'.sh.dir[i].rw == FillRw(vm.g, vm.cpl, pde) && vm'.sh.dir[i].us == FillUs(vm.g, vm.cpl, pde))
  }

  /** What one fill promises of its result and of the machine it leaves. */
  ghost predicate FillPost(vm: Vm, result: MapResult, vm': Vm, pdi: nat, pti: nat, page: nat, pde: Word, pte: Word)
    requires Shaped(vm) && pdi < 1024 && pti < 1024
  {
    && Inv(vm') && OnlyPins(vm, vm') && FilledFrom(vm, vm', pdi, pti, page, pte) && KeepsLeaves(vm, vm', pdi, pti) && DirFrom(vm, vm', pdi, pde)
    && (result == AlreadyMapped <==> page < Pages(vm.g.mem) && Leaf(vm.sh, vm.cfg.monPdi, pdi, pti).p)
    && (result == MapOk ==> page < |vm.pins.pinned| && (Leaf(vm'.sh, vm.cfg.monPdi, pdi, pti).p <==> !Evicts(vm.pins, page)))
  }

  /** Pinning this page must evict another. */
  predicate Evicts(p: Pins, page: nat)
    requires page < |p.pinned|
  {
    !p.pinned[page] && Q.Full(p.queue)
  }

  /** A pin resets the shadow exactly when it evicts. */
  lemma PinResetsIff(vm: Vm, page: nat, frame: Option<nat>)
    requires Shaped(vm) && page < |vm.pins.pinned| && Pinned(vm, page, frame).Ok?
    ensures Pinned(vm, page, frame).value.sh.stamp != vm.sh.stamp <==> Evicts(vm.pins, page)
  {
  }

  lemma FillEntryKeeps(vm: Vm, pdi: nat, pti: nat, rw: bool, page: nat, pde: Word, pte: Word, f2: Option<nat>)
    requires Inv(vm) && page < Pages(vm.g.mem)
    requires pdi < 1024 && pti < 1024 && pdi != vm.cfg.monPdi && vm.sh.dir[pdi].p
    requires FillEntry(vm, vm.sh.tableOf[pdi] * 1024 + pti, rw, page, pte, f2).Ok?
    ensures var (result, vm') := FillEntry(vm, vm.sh.tableOf[pdi] * 1024 + pti, rw, page, pte, f2).value;
      FillPost(vm, result, vm', pdi, pti, page, pde, pte)
  {
    hide PinInv, HeapInv, PinRequest, NewLeaf;
    TableIndex(vm, pdi);
    var (result, vm') := FillEntry(vm, vm.sh.tableOf[pdi] * 1024 + pti, rw, page, pte, f2).value;
    if result == MapOk {
      PinnedMoves(vm, page, f2);
      PinResetsIff(vm, page, f2);
      MovedKeeps(vm, Pinned(vm, page, f2).value);
      StoreAfterPin(vm, Pinned(vm, page, f2).value, pdi, pti, page, pte);
    } else {
      assert vm' == vm;
    }
  }

  /** `Fill` keeps its promise on these arguments. */
  ghost predicate FillKept(vm: Vm, pdi: nat, pti: nat, rw: bool, page: nat, pde: Word, pte: Word, f2: Option<nat>)
    requires Shaped(vm) && pdi < 1024 && pti < 1024
  {
    match Fill(vm, pdi, pti, rw, page, pde, pte, f2)
    case Panic => true
    case Ok((result, vm')) => FillPost(vm, result, vm', pdi, pti, page, pde, pte)
  }

  lemma FillNothing(vm: Vm, pdi: nat, pti: nat, rw: bool, page: nat, pde: Word, pte: Word, f2: Option<nat>)
    requires Inv(vm) && pdi < 1024 && pti < 1024 && (page >= Pages(vm.g.mem) || pdi == vm.cfg.monPdi)
    ensures FillKept(vm, pdi, pti, rw, page, pde, pte, f2)
  {
  }

  lemma FillOldTable(vm: Vm, pdi: nat, pti: nat, rw: bool, page: nat, pde: Word, pte: Word, f2: Option<nat>)
    requires Inv(vm) && pdi < 1024 && pti < 1024
    requires page < Pages(vm.g.mem) && pdi != vm.cfg.monPdi && vm.sh.dir[pdi].p
    ensures FillKept(vm, pdi, pti, rw, page, pde, pte, f2)
  {
    TableIndex(vm, pdi);
    assert Shaped(vm);
    hide Inv, ShapedPins, FillPost, FillEntry, AllocateTable, DirEntry;
    assert Fill(vm, pdi, pti, rw, page, pde, pte, f2) == FillEntry(vm, vm.sh.tableOf[pdi] * 1024 + pti, rw, page, pte, f2);
    hide Fill;
    if FillEntry(vm, vm.sh.tableOf[pdi] * 1024 + pti, rw, page, pte, f2).Ok? {
      FillEntryKeeps(vm, pdi, pti, rw, page, pde, pte, f2);
    }
  }

  /** `vm1` is `vm` with a new, empty table in place for `pdi`. */
  ghost predicate TableAdded(vm: Vm, vm1: Vm, pdi: nat, pde: Word) {
    && Shaped(vm) && Shaped(vm1) && pdi < 1024 && pdi != vm.cfg.monPdi && vm.sh.next < 80
    && vm1 == vm.(sh := vm1.sh) && vm1.sh.stamp == vm.sh.stamp
    && vm1.sh.dir == vm.sh.dir[pdi := DirEntry(vm, pde, vm.cfg.frames[vm.sh.next])]
    && vm1.sh.tableOf[pdi] == vm.sh.next
    && forall i, j | 0 <= i < 1024 && 0 <= j < 1024 :: Leaf(vm1.sh, vm.cfg.monPdi, i, j) == Leaf(vm.sh, vm.cfg.monPdi, i, j)
  }

  lemma TableAllocated(vm: Vm, pdi: nat, pde: Word)
    requires Inv(vm) && pdi < 1024 && !vm.sh.dir[pdi].p && vm.sh.next < 80
    ensures var s := AllocateTable(vm.sh, pdi, DirEntry(vm, pde, vm.cfg.frames[vm.sh.next]));
      s.Ok? && Inv(vm.(sh := s.value)) && TableAdded(vm, vm.(sh := s.value), pdi, pde)
  {
    var e := DirEntry(vm, pde, vm.cfg.frames[vm.sh.next]);
    AllocateKeepsHeap(vm.sh, pdi, e, vm.cfg.monPdi, vm.cfg.frames);
    var s := AllocateTable(vm.sh, pdi, e).value;
    forall i, j | 0 <= i < 1024 && 0 <= j < 1024
      ensures Leaf(s, vm.cfg.monPdi, i, j) == Leaf(vm.sh, vm.cfg.monPdi, i, j)
    {
      AllocateKeepsLeaf(vm.sh, pdi, e, vm.cfg.monPdi, vm.cfg.frames, i, j);
    }
  }

  lemma FillInNewTable(vm: Vm, pdi: nat, pti: nat, rw: bool, page: nat, pde: Word, pte: Word, f2: Option<nat>)
    requires Shaped(vm) && pdi < 1024 && pti < 1024 && page < Pages(vm.g.mem) && !vm.sh.dir[pdi].p
    requires Fill(vm, pdi, pti, rw, page, pde, pte, f2).Ok?
    ensures vm.sh.next < 80
    ensures var s := AllocateTable(vm.sh, pdi, DirEntry(vm, pde, vm.cfg.frames[vm.sh.next]));
      && s.Ok?
      && Fill(vm, pdi, pti, rw, page, pde, pte, f2) == FillEntry(vm.(sh := s.value), vm.sh.next * 1024 + pti, rw, page, pte, f2)
  {
    hide ShapedPins, FillEntry, AllocateTable;
  }

  lemma FillNewTable(vm: Vm, pdi: nat, pti: nat, rw: bool, page: nat, pde: Word, pte: Word, f2: Option<nat>)
    requires Inv(vm) && pdi < 1024 && pti < 1024 && page < Pages(vm.g.mem) && !vm.sh.dir[pdi].p
    ensures FillKept(vm, pdi, pti, rw, page, pde, pte, f2)
  {
    assert Shaped(vm);
    hide Inv, Fill, FillEntry, AllocateTable, DirEntry, FillPost, Leaf, TableAdded, ShapedPins;
    if Fill(vm, pdi, pti, rw, page, pde, pte, f2).Ok? {
      FillInNewTable(vm, pdi, pti, rw, page, pde, pte, f2);
      TableAllocated(vm, pdi, pde);
      var vm1 := vm.(sh := AllocateTable(vm.sh, pdi, DirEntry(vm, pde, vm.cfg.frames[vm.sh.next])).value);
      PostInNewTable(vm, vm1, pdi, pti, rw, page, pde, pte, f2);
    }
  }

  lemma PostInNewTable(vm: Vm, vm1: Vm, pdi: nat, pti: nat, rw: bool, page: nat, pde: Word, pte: Word, f2: Option<nat>)
    requires Inv(vm1) && TableAdded(vm, vm1, pdi, pde) && pti < 1024 && page < Pages(vm.g.mem)
    requires FillEntry(vm1, vm.sh.next * 1024 + pti, rw, page, pte, f2).Ok?
    ensures var (result, vm') := FillEntry(vm1, vm.sh.next * 1024 + pti, rw, page, pte, f2).value;
      FillPost(vm, result, vm', pdi, pti, page, pde, pte)
  {
    hide Inv, FillEntry, FillPost, Leaf, ShapedPins;
    FillEntryKeeps(vm1, pdi, pti, rw, page, pde, pte, f2);
    var (result, vm') := FillEntry(vm1, vm.sh.next * 1024 + pti, rw, page, pte, f2).value;
    PostBeforeTable(vm, vm1, result, vm', pdi, pti, page, pde, pte);
  }

  /** A promise kept from the state with the new table holds from the state without it. */
  lemma PostBeforeTable(vm: Vm, vm1: Vm, result: MapResult, vm': Vm, pdi: nat, pti: nat, page: nat, pde: Word, pte: Word)
    requires TableAdded(vm, vm1, pdi, pde) && pti < 1024
    requires FillPost(vm1, result, vm', pdi, pti, page, pde, pte)
    ensures FillPost(vm, result, vm', pdi, pti, page, pde, pte)
  {
    assert Shaped(vm');
    hide Inv, ShapedPins, Leaf, NewLeaf, KeepsPins;
  }

  /** Entering a granted page keeps every invariant and adds no leaf but the one asked for. */
  lemma FillKeeps(vm: Vm, pdi: nat, pti: nat, rw: bool, page: nat, pde: Word, pte: Word, f2: Option<nat>)
    requires Inv(vm) && pdi < 1024 && pti < 1024
    ensures FillKept(vm, pdi, pti, rw, page, pde, pte, f2)
  {
    assert Shaped(vm);
    hide Inv, ShapedPins, FillKept;
    if page >= Pages(vm.g.mem) || pdi == vm.cfg.monPdi {
      FillNothing(vm, pdi, pti, rw, page, pde, pte, f2);
    } else if vm.sh.dir[pdi].p {
      FillOldTable(vm, pdi, pti, rw, page, pde, pte, f2);
    } else {
      FillNewTable(vm, pdi, pti, rw, page, pde, pte, f2);
    }
  }

  // ---------------------------------------------------------------- marks in the guest's tables

  /** Memory differs at most in the dwords at `a` and `b`. */
  ghost predicate OnlyAt(m: Memory, m': Memory, a: nat, b: nat) {
    |m'| == |m| && forall k: nat | k < |m| && !(a <= k < a + 4) && !(b <= k < b + 4) :: m'[k] == m[k]
  }

  /** The dword at `a` has its A bit set; its D bit is set for a write and stands otherwise. */
  ghost predicate MarkedAt(m: Memory, m': Memory, a: nat, write: bool) {
    && a + 4 <= |m| == |m'|
    && Dword(m', a) / 32 % 2 == 1
    && (if write then Dword(m', a) / 64 % 2 == 1 else Dword(m', a) / 64 % 2 == Dword(m, a) / 64 % 2)
  }

  lemma UsedBits(pte: Word, rw: bool)
    ensures UsedPte(pte, rw) / 32 % 2 == 1
    ensures if rw then UsedPte(pte, rw) / 64 % 2 == 1 else UsedPte(pte, rw) / 64 % 2 == pte / 64 % 2
  {
    AccessedBits(pte);
    DirtyBits(SetAccessed(pte));
  }

  /** Marking the directory entry sets its A bit and nothing else. */
  lemma PdeMarked(m: Memory, cr3: Word, l: Word, pde: Word, now: bool)
    requires Sized(m) && Base(cr3) < Pages(m) && PdeAddr(cr3, l) + 4 <= |m| && Dword(m, PdeAddr(cr3, l)) == pde
    ensures var m' := MarkPde(m, cr3, l, pde, now); var a := PdeAddr(cr3, l);
      && OnlyAt(m, m', a, a) && Dword(m', a) == (if now && pde / 32 % 2 == 0 then pde + 32 else pde)
      && (now ==> MarkedAt(m, m', a, false))
  {
    hide Dword, PutDword, PdeAddr, Base;
    AccessedBits(pde);
    PutDwordExact(m, PdeAddr(cr3, l), SetAccessed(pde));
  }

  /** Marking the table entry sets A, and D for a write, and nothing else. */
  lemma PteMarked(m: Memory, l: Word, pde: Word, pte: Word, rw: bool)
    requires Sized(m) && Base(pde) < Pages(m) && PteAddr(pde, l) + 4 <= |m|
    ensures var m' := MarkPte(m, l, pde, pte, rw); var a := PteAddr(pde, l);
      && OnlyAt(m, m', a, a)
      && (Dword(m, a) == pte || UsedPte(pte, rw) != pte ==> Dword(m', a) == UsedPte(pte, rw))
  {
    hide Dword, PutDword, PteAddr, Base, UsedPte;
    PutDwordExact(m, PteAddr(pde, l), UsedPte(pte, rw));
  }

  lemma DwordOutside(m: Memory, m': Memory, a: nat, b: nat)
    requires OnlyAt(m, m', a, a) && (b + 4 <= a || a + 4 <= b) && b + 4 <= |m|
    ensures Dword(m', b) == Dword(m, b)
  {
  }

  /** The two marks, one after the other, on entries that are one dword or apart. */
  lemma MarksCompose(m: Memory, m1: Memory, m': Memory, a: nat, b: nat, rw: bool)
    requires a + 4 <= |m| && b + 4 <= |m| && (a == b || a + 4 <= b || b + 4 <= a)
    requires OnlyAt(m, m1, a, a) && MarkedAt(m, m1, a, false) && OnlyAt(m1, m', b, b) && MarkedAt(m1, m', b, rw)
    ensures OnlyAt(m, m', a, b) && Dword(m', a) / 32 % 2 == 1 && MarkedAt(m, m', b, rw)
  {
    hide Dword;
    if a != b {
      DwordOutside(m, m1, a, b);
      DwordOutside(m1, m', b, a);
    }
  }

  /** The marks of the second half, from a memory in which the directory entry is `pde`, or already has A set. */
  lemma TableMarks(vm: Vm, l: Word, us: bool, rw: bool, pde: Word, f1: Option<nat>)
    requires Shaped(vm) && Base(vm.g.cr3) < Pages(vm.g.mem) && PdeAddr(vm.g.cr3, l) + 4 <= |vm.g.mem|
    requires var raw := Dword(vm.g.mem, PdeAddr(vm.g.cr3, l)); if vm.cfg.family >= 6 then raw == pde else raw / 32 % 2 == 1
    requires ConsultTable(vm, l, us, rw, pde, f1).Ok?
    ensures var (access, vm') := ConsultTable(vm, l, us, rw, pde, f1).value;
      if access.Denied? then vm'.g == vm.g
      else
        var a, b := PdeAddr(vm.g.cr3, l), PteAddr(pde, l);
        b + 4 <= |vm.g.mem| && OnlyAt(vm.g.mem, vm'.g.mem, a, b) && Dword(vm'.g.mem, a) / 32 % 2 == 1 && MarkedAt(vm.g.mem, vm'.g.mem, b, rw)
  {
    hide Pinned, Dword, PutDword, P, Base, Refused, MarkPde, MarkPte, UsedPte, SetAccessed, ShapedPins, ShapedTables, Pdi, Pti, EntryAddr;
    var m := vm.g.mem;
    var a := PdeAddr(vm.g.cr3, l);
    EntryInside(m, Base(vm.g.cr3), Pdi(l));
    EntryInside(m, Base(pde), Pti(l));
    if Base(pde) < Pages(m) {
      var b := PteAddr(pde, l);
      var pte := Dword(m, b);
      var m1 := MarkPde(m, vm.g.cr3, l, pde, vm.cfg.family >= 6);
      EntriesApart(Base(vm.g.cr3), Pdi(l), Base(pde), Pti(l));
      FirstMark(m, vm.g.cr3, l, pde, vm.cfg.family >= 6);
      SecondMark(m, m1, l, pde, pte, rw, a);
      MarksCompose(m, m1, MarkPte(m1, l, pde, pte, rw), a, b, rw);
    }
  }

  lemma FirstMark(m: Memory, cr3: Word, l: Word, pde: Word, now: bool)
    requires Sized(m) && Base(cr3) < Pages(m) && PdeAddr(cr3, l) + 4 <= |m|
    requires var raw := Dword(m, PdeAddr(cr3, l)); if now then raw == pde else raw / 32 % 2 == 1
    ensures var m1 := MarkPde(m, cr3, l, pde, now); var a := PdeAddr(cr3, l);
      && OnlyAt(m, m1, a, a) && MarkedAt(m, m1, a, false)
      && (Dword(m1, a) != Dword(m, a) ==> Dword(m, a) / 32 % 2 == 0)
  {
    hide Dword, PutDword, PdeAddr, Base, SetAccessed;
    if now {
      PdeMarked(m, cr3, l, pde, now);
    }
  }

  lemma SecondMark(m: Memory, m1: Memory, l: Word, pde: Word, pte: Word, rw: bool, a: nat)
    requires Sized(m) && |m1| == |m| && Base(pde) < Pages(m) && PteAddr(pde, l) + 4 <= |m| && a + 4 <= |m|
    requires Dword(m, PteAddr(pde, l)) == pte && OnlyAt(m, m1, a, a) && (a == PteAddr(pde, l) || a + 4 <= PteAddr(pde, l) || PteAddr(pde, l) + 4 <= a)
    requires MarkedAt(m, m1, a, false) && (Dword(m1, a) != Dword(m, a) ==> Dword(m, a) / 32 % 2 == 0)
    ensures var m' := MarkPte(m1, l, pde, pte, rw); var b := PteAddr(pde, l);
      OnlyAt(m1, m', b, b) && MarkedAt(m1, m', b, rw)
  {
    hide Dword, MarkPte, PteAddr, Base, UsedPte;
    var b := PteAddr(pde, l);
    UsedBits(pte, rw);
    PteMarked(m1, l, pde, pte, rw);
    if a != b {
      DwordOutside(m, m1, a, b);
    }
  }

  /**
   What `mapGuestLinAddr` writes in the guest's own tables: for a granted access the A bit of both entries, and
   the D bit of the page table entry for a write; for a refused one at most the A bit of the directory
   entry, on processors before family 6; and not another byte of memory.
   */
  lemma ConsultMarks(vm: Vm, l: Word, us: bool, rw: bool, f0: Option<nat>, f1: Option<nat>)
    requires Shaped(vm) && vm.g.pg && Consult(vm, l, us, rw, f0, f1).Ok?
    ensures var (access, vm') := Consult(vm, l, us, rw, f0, f1).value;
      var m, m', a := vm.g.mem, vm'.g.mem, PdeAddr(vm.g.cr3, l);
      && a + 4 <= |m| == |m'|
      && (access.Granted? ==>
            var b := PteAddr(Dword(m, a), l);
            b + 4 <= |m| && OnlyAt(m, m', a, b) && Dword(m', a) / 32 % 2 == 1 && MarkedAt(m, m', b, rw))
      && (access.Denied? ==> OnlyAt(m, m', a, a) && (Dword(m', a) == Dword(m, a) || (vm.cfg.family < 6 && Dword(m, a) / 32 % 2 == 0 && Dword(m', a) == Dword(m, a) + 32)))
  {
    hide Pinned, Dword, PutDword, P, Base, ConsultTable, MarkPde, ShapedPins, ShapedTables, Pdi, EntryAddr, SetAccessed;
    EntryInside(vm.g.mem, Base(vm.g.cr3), Pdi(l));
    var m, a := vm.g.mem, PdeAddr(vm.g.cr3, l);
    var pde := Dword(m, a);
    var vm1 := Pinned(vm, Base(vm.g.cr3), f0).value;
    if P(pde) {
      var m1 := MarkPde(m, vm.g.cr3, l, pde, vm.cfg.family < 6);
      PdeMarked(m, vm.g.cr3, l, pde, vm.cfg.family < 6);
      TableMarks(SetMem(vm1, m1), l, us, rw, pde, f1);
      EntriesApart(Base(vm.g.cr3), Pdi(l), Base(pde), Pti(l));
      if Consult(vm, l, us, rw, f0, f1).value.0.Granted? {
        AccessedBits(pde);
        MarksRelate(m, m1, Consult(vm, l, us, rw, f0, f1).value.1.g.mem, a, PteAddr(pde, l), rw);
      }
    }
  }

  /** The early mark of the directory entry set no D bit, so the marks also hold relative to the memory before it. */
  lemma MarksRelate(m: Memory, m1: Memory, m': Memory, a: nat, b: nat, rw: bool)
    requires a + 4 <= |m| && b + 4 <= |m| && (a == b || a + 4 <= b || b + 4 <= a)
    requires OnlyAt(m, m1, a, a) && Dword(m1, a) / 64 % 2 == Dword(m, a) / 64 % 2 && OnlyAt(m1, m', a, b) && MarkedAt(m1, m', b, rw)
    ensures OnlyAt(m, m', a, b) && MarkedAt(m, m', b, rw)
  {
    hide Dword;
    if a != b {
      DwordOutside(m, m1, a, b);
    }
  }

  // ---------------------------------------------------------------- answers and panics

  /** When the host can pin, consulting the guest's tables panics exactly when they lead out of guest memory. */
  lemma ConsultPanicsIff(vm: Vm, l: Word, us: bool, rw: bool, f0: Option<nat>, f1: Option<nat>)
    requires Shaped(vm) && f0.Some? && f1.Some?
    ensures Consult(vm, l, us, rw, f0, f1).Panic? <==> vm.g.pg && WalkTables(vm.g.mem, vm.g.cr3, l).Outside?
  {
    hide PinRequest, Dword, P, Base, MarkPde, MarkPte, UsedPte, SetAccessed, EntryAddr;
    EntryInside(vm.g.mem, Base(vm.g.cr3), Pdi(l));
    if Base(vm.g.cr3) < Pages(vm.g.mem) {
      PinsIff(vm, Base(vm.g.cr3), f0);
      var vm1 := Pinned(vm, Base(vm.g.cr3), f0).value;
      var pde := Dword(vm.g.mem, PdeAddr(vm.g.cr3, l));
      PinsIff(SetMem(vm1, MarkPde(vm.g.mem, vm.g.cr3, l, pde, vm.cfg.family < 6)), Base(pde), f1);
    }
  }

  /** A page can be had exactly when it is guest memory and is pinned, or the host pins it. */
  lemma PinsIff(vm: Vm, page: nat, frame: Option<nat>)
    requires Shaped(vm)
    ensures Pinned(vm, page, frame).Ok? <==> page < Pages(vm.g.mem) && (vm.pins.pinned[page] || frame.Some?)
  {
  }

  /** The answer of a fill, by its cause: out of memory, the monitor's own space, a table that cannot be had, mapped already, to be emulated, or mapped. */
  lemma FillAnswers(vm: Vm, pdi: nat, pti: nat, rw: bool, page: nat, pde: Word, pte: Word, f2: Option<nat>)
    requires Inv(vm) && pdi < 1024 && pti < 1024 && f2.Some?
    ensures var r := Fill(vm, pdi, pti, rw, page, pde, pte, f2);
      if page >= Pages(vm.g.mem) then r == Ok((PPageOob, vm))
      else if pdi == vm.cfg.monPdi then r == Ok((MonConflict, vm))
      else
        && (r.Panic? <==> !vm.sh.dir[pdi].p && (vm.sh.next == 80 || (vm.g.pg && !PlainPage(vm, Base(pde)))))
        && (r.Ok? ==>
              r.value.0 == if Leaf(vm.sh, vm.cfg.monPdi, pdi, pti).p then AlreadyMapped
                           else if (if vm.cfg.ro[page] then rw else vm.cfg.mmio[page]) then Emulate
                           else MapOk)
  {
    assert Shaped(vm) && vm.sh.next <= 80;
    if page < Pages(vm.g.mem) && pdi != vm.cfg.monPdi {
      if vm.sh.dir[pdi].p {
        TableIndex(vm, pdi);
      } else {
        assert vm.sh.tableOf[pdi] == -1;
      }
    }
    hide Inv, PinRequest, ShapedPins, Base, DirEntry, LeafEntry;
    if page < Pages(vm.g.mem) {
      PinsIff(vm, page, f2);
      if !vm.sh.dir[pdi].p && vm.sh.next < 80 && vm.sh.tableOf[pdi] == -1 {
        PinsIff(vm.(sh := AllocateTable(vm.sh, pdi, DirEntry(vm, pde, vm.cfg.frames[vm.sh.next])).value), page, f2);
      }
    }
  }

  /** A page of guest memory that is neither read-only nor memory-mapped I/O. */
  predicate PlainPage(vm: Vm, page: nat)
    requires Shaped(vm)
  {
    page < Pages(vm.g.mem) && !vm.cfg.ro[page] && !vm.cfg.mmio[page]
  }
}
