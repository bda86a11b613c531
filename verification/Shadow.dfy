/**
 Shadow paging.  The monitor fills its own page tables lazily from the guest's,
 taking tables from a small bump heap and pinning each mapped guest page in host
 memory; pinning can evict another page, which drops the whole shadow.

 The host's answer to a pin request is a parameter: the frame it pinned, or None.
 */
module Shadow {
  import opened Words
  import opened GuestTables
  import Q = PinQueue

  /** A monitor page directory or page table entry. */
  datatype Entry = Entry(p: bool, rw: bool, us: bool, a: bool, d: bool, base: nat)

  const NONE := Entry(false, false, false, false, false, 0)

  /** What registration fixes: CPUID family, page attributes, where the monitor lives, its table frames. */
  datatype Config = Config(family: nat, ro: seq<bool>, mmio: seq<bool>, monPdi: nat, frames: seq<nat>)

  /** The changing half of `guestPageInfo`, and the pin queue. */
  datatype Pins = Pins(pinned: seq<bool>, frame: seq<nat>, queue: Q.Queue)

  /**
   The shadow itself.  `tbl` is the 80 tables of 1024 entries end to end,
   `tableOf` is page_tbl_laddr_map with -1 for no table, `next` is
   ptbl_laddr_map_i, and `stamp` is vpaging_tsc, later after each reset.
   */
  datatype Tables = Tables(dir: seq<Entry>, tbl: seq<Entry>, tableOf: seq<int>, next: nat, stamp: nat)

  datatype Vm = Vm(g: Guest, cpl: nat, cfg: Config, pins: Pins, sh: Tables)

  ghost predicate ShapedConfig(c: Config, pages: nat) {
    |c.ro| == pages && |c.mmio| == pages && c.monPdi < 1024 && |c.frames| == 80
  }

  ghost predicate ShapedPins(p: Pins, pages: nat) {
    && |p.pinned| == pages && |p.frame| == pages
    && Q.Valid(p.queue)
    && (forall page | page in Q.Fifo(p.queue) :: page < pages)
  }

  ghost predicate ShapedTables(s: Tables) {
    |s.dir| == 1024 && |s.tbl| == 80 * 1024 && |s.tableOf| == 1024
  }

  ghost predicate Shaped(vm: Vm) {
    && Sized(vm.g.mem)
    && ShapedConfig(vm.cfg, Pages(vm.g.mem))
    && ShapedPins(vm.pins, Pages(vm.g.mem))
    && ShapedTables(vm.sh)
  }

  // ---------------------------------------------------------------- invariants

  function PresentPdes(s: Tables, monPdi: nat): set<nat> {
    set pdi: nat | pdi < |s.dir| && pdi != monPdi && s.dir[pdi].p
  }

  /** Directory and index map tell one story, and no two directory entries share a table. */
  ghost predicate HeapLinks(s: Tables, monPdi: nat, frames: seq<nat>)
    requires ShapedTables(s) && monPdi < 1024 && |frames| == 80
  {
    && s.dir[monPdi].p && s.tableOf[monPdi] == -1
    && s.next <= 80
    && (forall i | 0 <= i < 1024 && i != monPdi :: s.dir[i].p <==> s.tableOf[i] != -1)
    && (forall i | 0 <= i < 1024 && s.tableOf[i] != -1 :: 0 <= s.tableOf[i] < s.next && s.dir[i].base == frames[s.tableOf[i]])
    && (forall i, j | 0 <= i < j < 1024 && s.tableOf[i] != -1 :: s.tableOf[i] != s.tableOf[j])
  }

  /** The page-table heap: directory, index map and bump pointer agree. */
  ghost predicate HeapInv(s: Tables, monPdi: nat, frames: seq<nat>)
    requires ShapedTables(s) && monPdi < 1024 && |frames| == 80
  {
    HeapLinks(s, monPdi, frames) && |PresentPdes(s, monPdi)| == s.next
  }

  /** The ring's live slots are distinct and are exactly the pinned pages. */
  ghost predicate PinInv(p: Pins)
    requires Q.Valid(p.queue)
  {
    var fifo := Q.Fifo(p.queue);
    && (forall i, j | 0 <= i < j < |fifo| :: fifo[i] != fifo[j])
    && (forall page | 0 <= page < |p.pinned| :: p.pinned[page] <==> page in fifo)
  }

  ghost predicate Inv(vm: Vm) {
    Shaped(vm) && HeapInv(vm.sh, vm.cfg.monPdi, vm.cfg.frames) && PinInv(vm.pins)
  }

  /** The shadow entry that hardware finds for a page of guest linear memory. */
  function Leaf(s: Tables, monPdi: nat, pdi: nat, pti: nat): Entry
    requires ShapedTables(s) && pdi < 1024 && pti < 1024
  {
    if pdi != monPdi && s.dir[pdi].p && 0 <= s.tableOf[pdi] < 80 then s.tbl[s.tableOf[pdi] * 1024 + pti] else NONE
  }

  // ---------------------------------------------------------------- reset

  function ClearedDir(dir: seq<Entry>, monPdi: nat): (r: seq<Entry>)
    ensures |r| == |dir|
    ensures forall i | 0 <= i < |dir| :: r[i] == if i == monPdi then dir[i] else NONE
  {
    seq(|dir|, i requires 0 <= i < |dir| => if i == monPdi then dir[i] else NONE)
  }

  function NoTables(): (r: seq<int>)
    ensures |r| == 1024 && forall i | 0 <= i < 1024 :: r[i] == -1
  {
    seq(1024, _ => -1)
  }

  /** `monInitShadowPaging` and `hostInitShadowPaging`. */
  function Reset(s: Tables, monPdi: nat): Tables {
    Tables(ClearedDir(s.dir, monPdi), s.tbl, NoTables(), 0, s.stamp + 1)
  }

  // ---------------------------------------------------------------- pinning

  /** The page that must go when the ring is full: the one pinned longest ago. */
  function Victim(q: Q.Queue): nat
    requires Q.Valid(q)
  {
    q.ppi[q.tail]
  }

  lemma VictimIsOldest(q: Q.Queue)
    requires Q.Valid(q) && Q.Full(q)
    ensures |Q.Fifo(q)| == 1024 && Victim(q) == Q.Fifo(q)[0]
  {
    Q.EnqueueIsFifo(q, 0);
  }

  /** The book-keeping of `hostHandlePagePinRequest` once the host has pinned `page` at `frame`. */
  function Pin(p: Pins, page: nat, frame: nat): (r: Pins)
    requires page < |p.pinned| && ShapedPins(p, |p.pinned|)
    ensures |r.pinned| == |r.frame| == |p.pinned|
  {
    VictimIsInside(p);
    var after := if Q.Full(p.queue) then p.pinned[Victim(p.queue) := false] else p.pinned;
    Pins(after[page := true], p.frame[page := frame], Q.Enqueue(p.queue, page))
  }

  lemma VictimIsInside(p: Pins)
    requires ShapedPins(p, |p.pinned|)
    ensures Q.Full(p.queue) ==> Victim(p.queue) < |p.pinned|
  {
    if Q.Full(p.queue) {
      VictimIsOldest(p.queue);
      assert Victim(p.queue) in Q.Fifo(p.queue);
    }
  }

  /** `hostHandlePagePinRequest`: an eviction drops the shadow; a refusal by the host panics. */
  function PinRequest(vm: Vm, page: nat, frame: Option<nat>): Outcome<Vm>
    requires Shaped(vm) && page < Pages(vm.g.mem)
  {
    if frame.None? then Panic
    else Ok(vm.(
      pins := Pin(vm.pins, page, frame.value),
      sh := if Q.Full(vm.pins.queue) then Reset(vm.sh, vm.cfg.monPdi) else vm.sh))
  }

  /** `getHostOSPinnedPage`: afterwards `pins.frame[page]` is the frame. */
  function Pinned(vm: Vm, page: nat, frame: Option<nat>): (r: Outcome<Vm>)
    requires Shaped(vm)
    ensures r.Ok? ==> Shaped(r.value) && r.value == vm.(pins := r.value.pins, sh := r.value.sh)
  {
    hide Q.Fifo, Q.Enqueue, Q.Valid, Victim;
    if page >= Pages(vm.g.mem) then Panic
    else if vm.pins.pinned[page] then Ok(vm)
    else
      PinShaped(vm.pins, page);
      PinRequest(vm, page, frame)
  }

  lemma PinShaped(p: Pins, page: nat)
    requires page < |p.pinned| && ShapedPins(p, |p.pinned|)
    ensures forall frame :: ShapedPins(Pin(p, page, frame), |p.pinned|)
  {
    VictimIsInside(p);
    Q.EnqueueIsFifo(p.queue, page);
    var fifo, fifo' := Q.Fifo(p.queue), Q.Fifo(Q.Enqueue(p.queue, page));
    forall q | q in fifo'
      ensures q < |p.pinned|
    {
      assert q in fifo || q == page;
    }
  }

  ghost predicate KeepsPins(p: Pins, p': Pins) {
    && |p'.pinned| == |p.pinned| == |p.frame| == |p'.frame|
    && forall i | 0 <= i < |p.pinned| && p.pinned[i] :: p'.pinned[i] && p'.frame[i] == p.frame[i]
  }

  /** What a pin leaves: the ring exact, the page pinned at its frame, and every other page but the victim as it was. */
  ghost predicate PinPost(p: Pins, page: nat, frame: nat, p': Pins)
    requires page < |p.pinned| && ShapedPins(p, |p.pinned|)
  {
    && ShapedPins(p', |p.pinned|) && PinInv(p') && p'.pinned[page] && p'.frame[page] == frame
    && (forall i | 0 <= i < |p.pinned| && p.pinned[i] && !(Q.Full(p.queue) && i == Victim(p.queue)) ::
          p'.pinned[i] && p'.frame[i] == p.frame[i])
    && (Q.Full(p.queue) ==> Victim(p.queue) < |p.pinned| && !p'.pinned[Victim(p.queue)])
  }

  /** With room in the ring a pin only adds. */
  lemma PinKeepsRoom(p: Pins, page: nat, frame: nat)
    requires page < |p.pinned| && ShapedPins(p, |p.pinned|) && PinInv(p) && !p.pinned[page] && !Q.Full(p.queue)
    ensures PinPost(p, page, frame, Pin(p, page, frame))
  {
    hide Q.Fifo, Q.Enqueue, Victim, Q.Valid;
    PinShaped(p, page);
    Q.EnqueueIsFifo(p.queue, page);
    var fifo, fifo' := Q.Fifo(p.queue), Q.Fifo(Pin(p, page, frame).queue);
    assert fifo' == fifo + [page];
  }

  /** With a full ring it also drops the victim, and nothing else. */
  lemma PinKeepsFull(p: Pins, page: nat, frame: nat)
    requires page < |p.pinned| && ShapedPins(p, |p.pinned|) && PinInv(p) && !p.pinned[page] && Q.Full(p.queue)
    ensures PinPost(p, page, frame, Pin(p, page, frame))
  {
    hide Q.Fifo, Q.Enqueue, Victim, Q.Valid;
    PinShaped(p, page);
    VictimIsInside(p);
    VictimIsOldest(p.queue);
    Q.EnqueueIsFifo(p.queue, page);
    Slides(Q.Fifo(p.queue), page);
  }

  /** Dropping the first of distinct pages and adding a new one. */
  lemma Slides(fifo: seq<nat>, page: nat)
    requires |fifo| > 0 && page !in fifo && forall i, j | 0 <= i < j < |fifo| :: fifo[i] != fifo[j]
    ensures var fifo' := fifo[1..] + [page];
      && (forall i, j | 0 <= i < j < |fifo'| :: fifo'[i] != fifo'[j])
      && (forall x :: x in fifo' <==> x == page || (x in fifo && x != fifo[0]))
  {
    var fifo' := fifo[1..] + [page];
    forall x
      ensures x in fifo' <==> x == page || (x in fifo && x != fifo[0])
    {
      assert x in fifo <==> x == fifo[0] || x in fifo[1..];
    }
  }

  /** A pin of an unpinned page keeps the ring exact, and unpins nothing but the victim of a full ring. */
  lemma PinKeeps(p: Pins, page: nat, frame: nat)
    requires page < |p.pinned| && ShapedPins(p, |p.pinned|) && PinInv(p) && !p.pinned[page]
    ensures PinPost(p, page, frame, Pin(p, page, frame))
    ensures !Q.Full(p.queue) ==> KeepsPins(p, Pin(p, page, frame))
  {
    hide PinInv, Pin, Victim;
    if Q.Full(p.queue) {
      PinKeepsFull(p, page, frame);
    } else {
      PinKeepsRoom(p, page, frame);
    }
  }

  /** The shadow either stands, or was dropped whole at a later stamp. */
  ghost predicate Dropped(s: Tables, s': Tables, monPdi: nat) {
    && s'.stamp > s.stamp
    && s' == Tables(ClearedDir(s.dir, monPdi), s.tbl, NoTables(), 0, s'.stamp)
  }

  /** `vm'` came from `vm` by pinning pages and setting A and D bits in guest tables. */
  ghost predicate Moved(vm: Vm, vm': Vm) {
    && SameTables(vm.g.mem, vm'.g.mem)
    && vm'.g == vm.g.(mem := vm'.g.mem)
    && vm'.cpl == vm.cpl && vm'.cfg == vm.cfg
    && ((vm'.sh == vm.sh && KeepsPins(vm.pins, vm'.pins)) || Dropped(vm.sh, vm'.sh, vm.cfg.monPdi))
  }

  lemma MovedStays(vm: Vm)
    requires Shaped(vm)
    ensures Moved(vm, vm)
  {
  }

  lemma MovedChain(vm: Vm, vm': Vm, vm'': Vm)
    requires Shaped(vm) && Moved(vm, vm') && Moved(vm', vm'')
    ensures Moved(vm, vm'')
  {
    SameTablesChain(vm.g.mem, vm'.g.mem, vm''.g.mem);
    assert ClearedDir(ClearedDir(vm.sh.dir, vm.cfg.monPdi), vm.cfg.monPdi) == ClearedDir(vm.sh.dir, vm.cfg.monPdi);
  }

  lemma ResetKeepsHeap(s: Tables, s': Tables, monPdi: nat, frames: seq<nat>)
    requires ShapedTables(s) && monPdi < 1024 && |frames| == 80 && HeapInv(s, monPdi, frames) && Dropped(s, s', monPdi)
    ensures ShapedTables(s') && HeapInv(s', monPdi, frames)
    ensures forall i, j | 0 <= i < 1024 && 0 <= j < 1024 :: Leaf(s', monPdi, i, j) == NONE
  {
    assert PresentPdes(s', monPdi) == {};
  }

  lemma MovedKeeps(vm: Vm, vm': Vm)
    requires Inv(vm) && Moved(vm, vm') && ShapedPins(vm'.pins, Pages(vm.g.mem)) && PinInv(vm'.pins)
    ensures Inv(vm')
  {
    if vm'.sh != vm.sh {
      ResetKeepsHeap(vm.sh, vm'.sh, vm.cfg.monPdi, vm.cfg.frames);
    }
  }

  /** A pin moves the machine on and leaves the page pinned. */
  lemma PinnedMoves(vm: Vm, page: nat, frame: Option<nat>)
    requires Shaped(vm) && PinInv(vm.pins) && Pinned(vm, page, frame).Ok?
    ensures var vm' := Pinned(vm, page, frame).value;
      Moved(vm, vm') && PinInv(vm'.pins) && page < |vm.pins.pinned| && vm'.pins.pinned[page]
  {
    if page < |vm.pins.pinned| && !vm.pins.pinned[page] {
      PinKeeps(vm.pins, page, frame.value);
    }
  }

  // ---------------------------------------------------------------- mapGuestLinAddr, the guest's side

  /** What the guest's own tables say of the requested access. */
  datatype Access = Denied(error: nat) | Granted(page: nat, pde: Word, pte: Word)

  function SetMem(vm: Vm, m: Memory): (r: Vm)
    requires Shaped(vm) && |m| == |vm.g.mem|
    ensures Shaped(r)
  {
    vm.(g := vm.g.(mem := m))
  }

  /** Processors before family 6 set the directory entry's A bit before the walk is complete. */
  function MarkPde(m: Memory, cr3: Word, l: Word, pde: Word, now: bool): (r: Memory)
    requires Sized(m) && Base(cr3) < Pages(m)
    ensures |r| == |m|
  {
    EntryInside(m, Base(cr3), Pdi(l));
    if now && !Accessed(pde) then PutDword(m, PdeAddr(cr3, l), SetAccessed(pde)) else m
  }

  function UsedPte(pte: Word, rw: bool): Word {
    if rw then SetDirty(SetAccessed(pte)) else SetAccessed(pte)
  }

  function MarkPte(m: Memory, l: Word, pde: Word, pte: Word, rw: bool): (r: Memory)
    requires Sized(m) && Base(pde) < Pages(m)
    ensures |r| == |m|
  {
    EntryInside(m, Base(pde), Pti(l));
    if UsedPte(pte, rw) != pte then PutDword(m, PteAddr(pde, l), UsedPte(pte, rw)) else m
  }

  predicate Refused(raw: Word, us: bool, rw: bool, wp: bool) {
    (us && !Us(raw)) || (rw && !Rw(raw) && (wp || us))
  }

  /** The walk, check and marking of the guest's tables that opens `mapGuestLinAddr`. */
  function Consult(vm: Vm, l: Word, us: bool, rw: bool, f0: Option<nat>, f1: Option<nat>): (r: Outcome<(Access, Vm)>)
    requires Shaped(vm)
    ensures r.Ok? ==> Shaped(r.value.1)
  {
    if !vm.g.pg then Ok((Granted(l / 4096, 0, 0), vm))
    else if Base(vm.g.cr3) >= Pages(vm.g.mem) then Panic
    else
      var vm1 :- Pinned(vm, Base(vm.g.cr3), f0);
      EntryInside(vm.g.mem, Base(vm.g.cr3), Pdi(l));
      var pde := Dword(vm.g.mem, PdeAddr(vm.g.cr3, l));
      if !P(pde) then Ok((Denied(Bit(us) * 4 + Bit(rw) * 2), vm1))
      else ConsultTable(SetMem(vm1, MarkPde(vm.g.mem, vm.g.cr3, l, pde, vm.cfg.family < 6)), l, us, rw, pde, f1)
  }

  function ConsultTable(vm: Vm, l: Word, us: bool, rw: bool, pde: Word, f1: Option<nat>): (r: Outcome<(Access, Vm)>)
    requires Shaped(vm) && Base(vm.g.cr3) < Pages(vm.g.mem)
    ensures r.Ok? ==> Shaped(r.value.1)
  {
    if Base(pde) >= Pages(vm.g.mem) then Panic
    else
      var vm1 :- Pinned(vm, Base(pde), f1);
      EntryInside(vm.g.mem, Base(pde), Pti(l));
      var pte := Dword(vm.g.mem, PteAddr(pde, l));
      if !P(pte) then Ok((Denied(Bit(us) * 4 + Bit(rw) * 2), vm1))
      else if Refused(pde, us, rw, vm.g.wp) || Refused(pte, us, rw, vm.g.wp) then Ok((Denied(Bit(us) * 4 + Bit(rw) * 2 + 1), vm1))
      else
        var m := MarkPde(vm.g.mem, vm.g.cr3, l, pde, vm.cfg.family >= 6);
        var used := UsedPte(pte, rw);
        Ok((Granted(Base(used), SetAccessed(pde), used), SetMem(vm1, MarkPte(m, l, pde, pte, rw))))
  }

  // ---------------------------------------------------------------- mapGuestLinAddr, the monitor's side

  datatype MapResult = MapOk | MonConflict | AlreadyMapped | PPageOob | Exception(error: nat) | Emulate

  /** Write permission a fill gives, from the guest entry it copies. */
  predicate FillRw(g: Guest, cpl: nat, raw: Word) {
    !g.pg || (cpl != 3 && !g.wp) || Rw(raw)
  }

  predicate FillUs(g: Guest, cpl: nat, raw: Word) {
    !g.pg || cpl != 3 || Us(raw)
  }

  function ZeroTable(tbl: seq<Entry>, t: nat): (r: seq<Entry>)
    ensures |r| == |tbl|
    ensures forall i | 0 <= i < |tbl| :: r[i] == if t * 1024 <= i < t * 1024 + 1024 then NONE else tbl[i]
  {
    seq(|tbl|, i requires 0 <= i < |tbl| => if t * 1024 <= i < t * 1024 + 1024 then NONE else tbl[i])
  }

  function DirEntry(vm: Vm, pde: Word, base: nat): Entry {
    Entry(true, FillRw(vm.g, vm.cpl, pde), FillUs(vm.g, vm.cpl, pde), vm.g.pg && Accessed(pde), vm.g.pg && Dirty(pde), base)
  }

  function LeafEntry(vm: Vm, pte: Word, ro: bool, base: nat): Entry {
    Entry(true, FillRw(vm.g, vm.cpl, pte) && !ro, true, vm.g.pg && Accessed(pte), vm.g.pg && Dirty(pte), base)
  }

  /** `getFreePageTable`, and the directory entry that points at the table it returns. */
  function AllocateTable(s: Tables, pdi: nat, e: Entry): (r: Outcome<Tables>)
    requires ShapedTables(s) && pdi < 1024
    ensures r.Ok? ==> ShapedTables(r.value)
  {
    if s.next >= 80 || s.tableOf[pdi] != -1 then Panic
    else Ok(Tables(s.dir[pdi := e], ZeroTable(s.tbl, s.next), s.tableOf[pdi := s.next], s.next + 1, s.stamp))
  }

  /** Enter a granted page into the shadow. */
  function Fill(vm: Vm, pdi: nat, pti: nat, rw: bool, page: nat, pde: Word, pte: Word, f2: Option<nat>): (r: Outcome<(MapResult, Vm)>)
    requires Shaped(vm) && pdi < 1024 && pti < 1024
    ensures r.Ok? ==> Shaped(r.value.1)
  {
    if page >= Pages(vm.g.mem) then Ok((PPageOob, vm))
    else if !vm.sh.dir[pdi].p then
      if vm.g.pg && (Base(pde) >= Pages(vm.g.mem) || vm.cfg.ro[Base(pde)] || vm.cfg.mmio[Base(pde)]) then Panic
      else if vm.sh.next >= 80 then Panic
      else
        var s :- AllocateTable(vm.sh, pdi, DirEntry(vm, pde, vm.cfg.frames[vm.sh.next]));
        FillEntry(vm.(sh := s), vm.sh.next * 1024 + pti, rw, page, pte, f2)
    else if pdi == vm.cfg.monPdi then Ok((MonConflict, vm))
    else if !(0 <= vm.sh.tableOf[pdi] < 80) then Panic
    else FillEntry(vm, vm.sh.tableOf[pdi] * 1024 + pti, rw, page, pte, f2)
  }

  function FillEntry(vm: Vm, at: nat, rw: bool, page: nat, pte: Word, f2: Option<nat>): (r: Outcome<(MapResult, Vm)>)
    requires Shaped(vm) && at < |vm.sh.tbl| && page < Pages(vm.g.mem)
    ensures r.Ok? ==> Shaped(r.value.1)
  {
    if vm.sh.tbl[at].p then Ok((AlreadyMapped, vm))
    else if vm.cfg.ro[page] && rw then Ok((Emulate, vm))
    else if !vm.cfg.ro[page] && vm.cfg.mmio[page] then Ok((Emulate, vm))
    else
      var vm1 :- Pinned(vm, page, f2);
      Ok((MapOk, vm1.(sh := vm1.sh.(tbl := vm1.sh.tbl[at := LeafEntry(vm, pte, vm.cfg.ro[page], vm1.pins.frame[page])]))))
  }

  /** `mapGuestLinAddr`. */
  function MapLin(vm: Vm, l: Word, us: bool, rw: bool, f0: Option<nat>, f1: Option<nat>, f2: Option<nat>): (r: Outcome<(MapResult, Vm)>)
    requires Shaped(vm)
    ensures r.Ok? ==> Shaped(r.value.1)
  {
    var (access, vm1) :- Consult(vm, l, us, rw, f0, f1);
    match access
    case Denied(error) => Ok((Exception(error), vm1))
    case Granted(page, pde, pte) => Fill(vm1, Pdi(l), Pti(l), rw, page, pde, pte, f2)
  }

  /** `invalidateGuestLinAddr`. */
  function Invalidate(vm: Vm, l: Word): (r: Outcome<Vm>)
    requires Shaped(vm)
    ensures r.Ok? ==> Shaped(r.value)
  {
    var pdi := Pdi(l);
    if !vm.g.pg then Panic
    else if !vm.sh.dir[pdi].p then Ok(vm)
    else if pdi == vm.cfg.monPdi || !(0 <= vm.sh.tableOf[pdi] < 80) then Panic
    else
      var at := vm.sh.tableOf[pdi] * 1024 + Pti(l);
      if !vm.sh.tbl[at].p then Ok(vm)
      else Ok(vm.(sh := vm.sh.(tbl := vm.sh.tbl[at := NONE])))
  }
}
