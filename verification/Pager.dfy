/**
 The paging half of the monitor as it runs: page directory, page tables, index
 map, page records and pin ring updated in place.  Every method is proved
 against the value-level operations of `Shadow` and `ShadowRuns`.  After a
 panic the machine halts, so nothing is promised of its state.
 */
module Pager {
  import opened Words
  import opened GuestTables
  import opened Shadow
  import ShadowRuns
  import Q = PinQueue

  class Monitor {
    var g: Guest
    var cpl: nat
    const cfg: Config
    const pinned: array<bool>
    const frame: array<nat>
    const ring: array<nat>
    var nEntries: nat
    var tail: nat
    const dir: array<Entry>
    const tbl: array<Entry>
    const tableOf: array<int>
    var next: nat
    var stamp: nat

    ghost const heap: set<object> := {this, pinned, frame, ring, dir, tbl, tableOf}

    ghost function PinsView(): Pins
      reads heap
    {
      Pins(pinned[..], frame[..], Q.Queue(nEntries, tail, ring[..]))
    }

    ghost function TablesView(): Tables
      reads heap
    {
      Tables(dir[..], tbl[..], tableOf[..], next, stamp)
    }

    ghost function View(): Vm
      reads heap
    {
      Vm(g, cpl, cfg, PinsView(), TablesView())
    }

    ghost predicate Valid()
      reads heap
    {
      dir != tbl && frame != ring && Shaped(View())
    }

    /** `monInitShadowPaging` and `hostInitShadowPaging`. */
    method InitShadowPaging()
      requires dir != tbl && ShapedTables(TablesView())
      modifies this`next, this`stamp, dir, tableOf
      ensures TablesView() == Reset(old(TablesView()), cfg.monPdi)
    {
      next := 0;
      ghost var was := dir[..];
      for pdi := 0 to 1024
        modifies dir, tableOf
        invariant forall i | 0 <= i < pdi :: tableOf[i] == -1 && dir[i] == if i == cfg.monPdi then was[i] else NONE
        invariant forall i | pdi <= i < 1024 :: dir[i] == was[i]
      {
        tableOf[pdi] := -1;
        if pdi != cfg.monPdi {
          dir[pdi] := NONE;
        }
      }
      stamp := stamp + 1;
      assert dir[..] == ClearedDir(was, cfg.monPdi);
      assert tableOf[..] == NoTables();
    }

    /** `hostHandlePagePinRequest`; `answer` is the host's reply to the pin call. */
    method HandlePagePinRequest(page: nat, answer: Option<nat>) returns (ok: bool)
      requires Valid() && page < Pages(g.mem)
      modifies heap
      ensures ok == PinRequest(old(View()), page, answer).Ok?
      ensures ok ==> Valid() && View() == PinRequest(old(View()), page, answer).value
    {
      ghost var start := View();
      PinShaped(start.pins, page);
      VictimIsInside(start.pins);
      var qIndex := nEntries;
      if nEntries >= 1024 {
        qIndex := tail;
        var unpin := ring[qIndex];
        pinned[unpin] := false;
        InitShadowPaging();
      }
      if answer.None? {
        return false;
      }
      pinned[page] := true;
      frame[page] := answer.value;
      ring[qIndex] := page;
      if nEntries < 1024 {
        nEntries := nEntries + 1;
        tail := nEntries % 1024;
      } else {
        tail := (tail + 1) % 1024;
      }
      assert ring[..] == Q.Enqueue(start.pins.queue, page).ppi;
      assert PinsView() == Pin(start.pins, page, answer.value);
      return true;
    }

    /** `getHostOSPinnedPage`. */
    method GetHostOSPinnedPage(page: nat, answer: Option<nat>) returns (r: Outcome<nat>)
      requires Valid()
      modifies heap
      ensures r.Ok? == Pinned(old(View()), page, answer).Ok?
      ensures r.Ok? ==> Valid() && View() == Pinned(old(View()), page, answer).value
      ensures r.Ok? ==> page < frame.Length && r.value == frame[page]
    {
      if page >= |g.mem| / 4096 {
        return Panic;
      }
      if pinned[page] {
        return Ok(frame[page]);
      }
      var ok := HandlePagePinRequest(page, answer);
      if !ok {
        return Panic;
      }
      return Ok(frame[page]);
    }

    /** `getFreePageTable`: takes the next table of the heap for `pdi` and zeroes it. */
    method GetFreePageTable(pdi: nat) returns (r: Outcome<nat>)
      requires Valid() && pdi < 1024
      modifies this`next, tableOf, tbl
      ensures r.Panic? <==> old(next) >= 80 || old(tableOf[pdi]) != -1
      ensures r.Ok? ==> r.value == old(next) < 80 && next == old(next) + 1
      ensures r.Ok? ==> tableOf[..] == old(tableOf[..])[pdi := r.value] && tbl[..] == ZeroTable(old(tbl[..]), r.value)
    {
      var avail := next;
      if avail >= 80 || tableOf[pdi] != -1 {
        return Panic;
      }
      tableOf[pdi] := next;
      next := next + 1;
      ghost var was := tbl[..];
      for k := 0 to 1024
        modifies tbl
        invariant forall i | 0 <= i < tbl.Length :: tbl[i] == if avail * 1024 <= i < avail * 1024 + k then NONE else was[i]
      {
        tbl[avail * 1024 + k] := NONE;
      }
      assert tbl[..] == ZeroTable(was, avail);
      return Ok(avail);
    }

    /** The guest's side of `mapGuestLinAddr`. */
    method ConsultGuest(l: Word, us: bool, rw: bool, f0: Option<nat>, f1: Option<nat>) returns (r: Outcome<Access>)
      requires Valid()
      modifies heap
      ensures match Consult(old(View()), l, us, rw, f0, f1)
              case Panic => r.Panic?
              case Ok((access, vm)) => Valid() && r == Ok(access) && View() == vm
    {
      hide ShapedPins, ShapedConfig, Pinned, Dword, PutDword, Accessed, SetAccessed, P, Base, ConsultTable;
      if !g.pg {
        return Ok(Granted(l / 4096, 0, 0));
      }
      var pdirPage := Base(g.cr3);
      if pdirPage >= |g.mem| / 4096 {
        return Panic;
      }
      var window := GetHostOSPinnedPage(pdirPage, f0);
      if window.Panic? {
        return Panic;
      }
      EntryInside(g.mem, pdirPage, Pdi(l));
      var pde := Dword(g.mem, PdeAddr(g.cr3, l));
      if !P(pde) {
        return Ok(Denied(Bit(us) * 4 + Bit(rw) * 2));
      }
      if cfg.family < 6 && !Accessed(pde) {
        g := g.(mem := PutDword(g.mem, PdeAddr(g.cr3, l), SetAccessed(pde)));
      }
      r := ConsultGuestTable(l, us, rw, pde, f1);
    }

    method ConsultGuestTable(l: Word, us: bool, rw: bool, pde: Word, f1: Option<nat>) returns (r: Outcome<Access>)
      requires Valid() && Base(g.cr3) < Pages(g.mem)
      modifies heap
      ensures match ConsultTable(old(View()), l, us, rw, pde, f1)
              case Panic => r.Panic?
              case Ok((access, vm)) => Valid() && r == Ok(access) && View() == vm
    {
      hide ShapedPins, ShapedConfig, Pinned, Dword, MarkPde, MarkPte, SetAccessed, UsedPte, P, Base, Refused;
      var ptblPage := Base(pde);
      if ptblPage >= |g.mem| / 4096 {
        return Panic;
      }
      var window := GetHostOSPinnedPage(ptblPage, f1);
      if window.Panic? {
        return Panic;
      }
      EntryInside(g.mem, ptblPage, Pti(l));
      EntryInside(g.mem, Base(g.cr3), Pdi(l));
      var pte := Dword(g.mem, PteAddr(pde, l));
      if !P(pte) {
        return Ok(Denied(Bit(us) * 4 + Bit(rw) * 2));
      }
      if Refused(pde, us, rw, g.wp) || Refused(pte, us, rw, g.wp) {
        return Ok(Denied(Bit(us) * 4 + Bit(rw) * 2 + 1));
      }
      var used := UsedPte(pte, rw);
      MarkUsed(l, rw, pde, pte, used);
      return Ok(Granted(Base(used), SetAccessed(pde), used));
    }

    /** Set A and D in the guest's own entries. */
    method MarkUsed(l: Word, rw: bool, pde: Word, pte: Word, used: Word)
      requires Sized(g.mem) && Base(g.cr3) < Pages(g.mem) && Base(pde) < Pages(g.mem) && used == UsedPte(pte, rw)
      modifies this`g
      ensures |g.mem| == old(|g.mem|)
      ensures g == old(g).(mem := MarkPte(MarkPde(old(g.mem), old(g.cr3), l, pde, cfg.family >= 6), l, pde, pte, rw))
    {
      hide PutDword, Accessed, SetAccessed, UsedPte, Base;
      EntryInside(g.mem, Base(pde), Pti(l));
      EntryInside(g.mem, Base(g.cr3), Pdi(l));
      if cfg.family >= 6 && !Accessed(pde) {
        g := g.(mem := PutDword(g.mem, PdeAddr(g.cr3, l), SetAccessed(pde)));
      }
      if used != pte {
        g := g.(mem := PutDword(g.mem, PteAddr(pde, l), used));
      }
    }

    /** The monitor's side of `mapGuestLinAddr`. */
    method FillShadow(pdi: nat, pti: nat, rw: bool, page: nat, pde: Word, pte: Word, f2: Option<nat>) returns (r: Outcome<MapResult>)
      requires Valid() && pdi < 1024 && pti < 1024
      modifies heap
      ensures match Fill(old(View()), pdi, pti, rw, page, pde, pte, f2)
              case Panic => r.Panic?
              case Ok((result, vm)) => Valid() && r == Ok(result) && View() == vm
    {
      hide ShapedPins, PinRequest, FillEntry;
      if page >= |g.mem| / 4096 {
        return Ok(PPageOob);
      }
      var t;
      if !dir[pdi].p {
        if g.pg && (Base(pde) >= |g.mem| / 4096 || cfg.ro[Base(pde)] || cfg.mmio[Base(pde)]) {
          return Panic;
        }
        var free := GetFreePageTable(pdi);
        if free.Panic? {
          return Panic;
        }
        t := free.value;
        ghost var vm := old(View());
        dir[pdi] := Entry(true, FillRw(g, cpl, pde), FillUs(g, cpl, pde), g.pg && Accessed(pde), g.pg && Dirty(pde), cfg.frames[t]);
        assert AllocateTable(vm.sh, pdi, DirEntry(vm, pde, cfg.frames[t])) == Ok(TablesView());
        assert View() == vm.(sh := TablesView());
      } else {
        if pdi == cfg.monPdi {
          return Ok(MonConflict);
        }
        if !(0 <= tableOf[pdi] < 80) {
          return Panic;
        }
        t := tableOf[pdi];
      }
      r := StoreEntry(t * 1024 + pti, rw, page, pte, f2);
    }

    method StoreEntry(at: nat, rw: bool, page: nat, pte: Word, f2: Option<nat>) returns (r: Outcome<MapResult>)
      requires Valid() && at < tbl.Length && page < Pages(g.mem)
      modifies heap
      ensures match FillEntry(old(View()), at, rw, page, pte, f2)
              case Panic => r.Panic?
              case Ok((result, vm)) => Valid() && r == Ok(result) && View() == vm
    {
      hide ShapedPins, PinRequest;
      if tbl[at].p {
        return Ok(AlreadyMapped);
      }
      var write := FillRw(g, cpl, pte);
      if cfg.ro[page] {
        write := false;
        if rw {
          return Ok(Emulate);
        }
      } else if cfg.mmio[page] {
        return Ok(Emulate);
      }
      var host := GetHostOSPinnedPage(page, f2);
      if host.Panic? {
        return Panic;
      }
      tbl[at] := Entry(true, write, true, g.pg && Accessed(pte), g.pg && Dirty(pte), host.value);
      return Ok(MapOk);
    }

    /** `mapGuestLinAddr`. */
    method MapGuestLinAddr(l: Word, us: bool, rw: bool, f0: Option<nat>, f1: Option<nat>, f2: Option<nat>) returns (r: Outcome<MapResult>)
      requires Valid()
      modifies heap
      ensures match MapLin(old(View()), l, us, rw, f0, f1, f2)
              case Panic => r.Panic?
              case Ok((result, vm)) => Valid() && r == Ok(result) && View() == vm
    {
      hide Shaped, Consult, Fill;
      var access := ConsultGuest(l, us, rw, f0, f1);
      match access
      case Panic => return Panic;
      case Ok(Denied(error)) => return Ok(Exception(error));
      case Ok(Granted(page, pde, pte)) => r := FillShadow(Pdi(l), Pti(l), rw, page, pde, pte, f2);
    }

    /** `invalidateGuestLinAddr`. */
    method InvalidateGuestLinAddr(l: Word) returns (ok: bool)
      requires Valid()
      modifies tbl
      ensures ok == Invalidate(old(View()), l).Ok?
      ensures ok ==> Valid() && View() == Invalidate(old(View()), l).value
    {
      hide ShapedPins;
      if !g.pg {
        return false;
      }
      var pdi, pti := Pdi(l), Pti(l);
      if !dir[pdi].p {
        return true;
      }
      if pdi == cfg.monPdi || !(0 <= tableOf[pdi] < 80) {
        return false;
      }
      var at := tableOf[pdi] * 1024 + pti;
      if tbl[at].p {
        tbl[at] := NONE;
      }
      return true;
    }

    /** `guestPageFault`: Some(error) asks for a #PF in the guest. */
    method GuestPageFault(cr2: Word, error: Word, f0: Option<nat>, f1: Option<nat>, f2: Option<nat>) returns (r: Outcome<Option<Word>>)
      requires Valid()
      modifies heap
      ensures match ShadowRuns.GuestPageFault(old(View()), cr2, error, f0, f1, f2)
              case Panic => r.Panic?
              case Ok((inject, vm)) => Valid() && r == Ok(inject) && View() == vm
    {
      hide Shaped, MapLin;
      if Pdi(cr2) == cfg.monPdi || error / 8 % 2 == 1 {
        return Panic;
      }
      var result := MapGuestLinAddr(cr2, cpl == 3, error / 2 % 2 == 1, f0, f1, f2);
      match result
      case Ok(MapOk) => return Ok(None);
      case Ok(Exception(_)) => return Ok(Some(error));
      case _ => return Panic;
    }
  }
}
