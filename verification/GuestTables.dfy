/**
 The guest's own page tables in its physical memory, and the monitor's two
 independent walkers of them: the one inside `mapGuestLinAddr` and
 `translateLinToPhy`.
 */
module GuestTables {
  import opened Words

  /** The parts of the guest CPU that decide how a linear address is translated. */
  datatype Guest = Guest(mem: Memory, pg: bool, wp: bool, cr3: Word, cr4: Word)

  /** Whole pages, and less than 4 gigabytes of them, as the source's 32-bit byte count can express. */
  ghost predicate Sized(m: Memory) {
    |m| % 4096 == 0 && |m| < 0x1_0000_0000
  }

  function Pages(m: Memory): nat {
    |m| / 4096
  }

  lemma Whole(m: Memory, page: nat, offset: nat)
    requires Sized(m) && offset < 4096
    ensures page * 4096 + offset < |m| <==> page < Pages(m)
    ensures page < Pages(m) ==> page * 4096 + 4096 <= |m|
    ensures (page * 4096 + offset) / 4096 == page && (page * 4096 + offset) % 4096 == offset
  {
  }

  /** A table page inside memory holds all its entries. */
  lemma EntryInside(m: Memory, page: nat, index: nat)
    requires Sized(m) && index < 1024
    ensures EntryAddr(page, index) < |m| <==> page < Pages(m)
    ensures page < Pages(m) ==> EntryAddr(page, index) + 4 <= |m|
  {
    Whole(m, page, index * 4);
  }

  // ---------------------------------------------------------------- entries

  // Bits 0..4 of an entry are raw % 32, bits 5 and 6 are A and D, and bits 7.. are raw / 128.

  predicate P(raw: Word) { raw % 32 % 2 == 1 }
  predicate Rw(raw: Word) { raw % 32 / 2 % 2 == 1 }
  predicate Us(raw: Word) { raw % 32 / 4 % 2 == 1 }
  predicate Accessed(raw: Word) { raw / 32 % 2 == 1 }
  predicate Dirty(raw: Word) { raw / 64 % 2 == 1 }

  /** The page an entry, or CR3, points at: bits 12 and up. */
  function Base(raw: Word): (page: nat)
    ensures page < 0x10_0000
  {
    raw / 128 / 32
  }

  function SetAccessed(raw: Word): Word {
    if Accessed(raw) then raw else raw + 32
  }

  function SetDirty(raw: Word): Word {
    if Dirty(raw) then raw else raw + 64
  }

  /** Two entries that differ at most in their A and D bits, bits 5 and 6. */
  predicate SameEntry(r: Word, r': Word) {
    r % 32 == r' % 32 && r / 128 == r' / 128
  }

  lemma SameEntryDecides(r: Word, r': Word)
    requires SameEntry(r, r')
    ensures P(r) == P(r') && Rw(r) == Rw(r') && Us(r) == Us(r') && Base(r) == Base(r')
  {
  }

  /** Bits 5 and 6 of an entry, split off. */
  lemma Halves(r: Word, q: nat)
    requires q == r / 32
    ensures r == 32 * q + r % 32 && r / 64 == q / 2 && r / 128 == q / 4
  {
  }

  lemma SetAccessedKeeps(r: Word)
    ensures SameEntry(SetAccessed(r), r)
  {
    if !Accessed(r) {
      var q := r / 32;
      Halves(r, q);
      Halves(r + 32, q + 1);
      EvenStep(q);
    }
  }

  lemma EvenStep(q: nat)
    requires q % 2 == 0
    ensures (q + 1) / 4 == q / 4
  {
  }

  lemma SetDirtyKeeps(r: Word)
    ensures SameEntry(SetDirty(r), r)
  {
    if !Dirty(r) {
      var q := r / 32;
      Halves(r, q);
      Halves(r + 64, q + 2);
      DoubleStep(q);
    }
  }

  lemma DoubleStep(q: nat)
    requires q / 2 % 2 == 0
    ensures (q + 2) / 4 == q / 4
  {
  }

  lemma MarksKeepEntry(r: Word)
    ensures SameEntry(SetAccessed(r), r) && SameEntry(SetDirty(r), r)
  {
    hide SameEntry, SetAccessed, SetDirty;
    SetAccessedKeeps(r);
    SetDirtyKeeps(r);
  }

  // ---------------------------------------------------------------- the guest's walk

  /** Page directory index of a linear address. */
  function Pdi(l: Word): (i: nat)
    ensures i < 1024
  {
    l / 4096 / 1024
  }

  /** Page table index of a linear address. */
  function Pti(l: Word): (i: nat)
    ensures i < 1024
  {
    l / 4096 % 1024
  }

  function EntryAddr(page: nat, index: nat): nat {
    page * 4096 + index * 4
  }

  function PdeAddr(cr3: Word, l: Word): nat {
    EntryAddr(Base(cr3), Pdi(l))
  }

  function PteAddr(pde: Word, l: Word): nat {
    EntryAddr(Base(pde), Pti(l))
  }

  datatype Walk = Absent | Outside | Found(pde: Word, pte: Word)

  /** The two-level walk of Intel's 32-bit paging, confined to guest memory. */
  function WalkTables(m: Memory, cr3: Word, l: Word): Walk
    requires Sized(m)
  {
    if Base(cr3) >= Pages(m) then Outside
    else
      EntryInside(m, Base(cr3), Pdi(l));
      var pde := Dword(m, PdeAddr(cr3, l));
      if !P(pde) then Absent
      else if Base(pde) >= Pages(m) then Outside
      else
        EntryInside(m, Base(pde), Pti(l));
        var pte := Dword(m, PteAddr(pde, l));
        if !P(pte) then Absent else Found(pde, pte)
  }

  /** The guest page holding linear address `l`. */
  function GuestPage(g: Guest, l: Word): Option<nat>
    requires Sized(g.mem)
  {
    if !g.pg then Some(l / 4096)
    else
      match WalkTables(g.mem, g.cr3, l)
      case Found(_, pte) => Some(Base(pte))
      case _ => None
  }

  /** A directory entry, by index. */
  function PdeOf(g: Guest, pdi: nat): Word
    requires Sized(g.mem) && pdi < 1024
  {
    if Base(g.cr3) >= Pages(g.mem) then 0
    else
      EntryInside(g.mem, Base(g.cr3), pdi);
      Dword(g.mem, EntryAddr(Base(g.cr3), pdi))
  }

  /** The walk, from the two entries it meets. */
  lemma WalkFrom(m: Memory, cr3: Word, l: Word, pde: Word, pte: Word, pdeAddr: nat, pteAddr: nat)
    requires Sized(m)
    requires pdeAddr == PdeAddr(cr3, l) && pdeAddr + 4 <= |m| && Dword(m, pdeAddr) == pde && P(pde)
    requires pteAddr == PteAddr(pde, l) && pteAddr + 4 <= |m| && Dword(m, pteAddr) == pte && P(pte)
    ensures WalkTables(m, cr3, l) == Found(pde, pte)
  {
    hide Dword, P, Base, EntryAddr;
    EntryInside(m, Base(cr3), Pdi(l));
    EntryInside(m, Base(pde), Pti(l));
  }

  /** With the directory in page 0 and its first table in page 1. */
  lemma FirstTable(cr3: Word, pde: Word, l: Word)
    requires Base(cr3) == 0 && Base(pde) == 1 && Pdi(l) == 0
    ensures PdeAddr(cr3, l) == EntryAddr(0, 0) && PteAddr(pde, l) == EntryAddr(1, Pti(l))
  {
    hide Base, Pdi, Pti, EntryAddr;
  }

  lemma EntryPlaces(index: nat)
    ensures EntryAddr(0, index) == 4 * index && EntryAddr(1, index) == 4096 + 4 * index
  {
  }

  lemma FirstTableWalk(m: Memory, cr3: Word, l: Word, pde: Word, pte: Word)
    requires Sized(m) && |m| >= 8192 && Base(cr3) == 0 && Pdi(l) == 0
    requires Dword(m, 0) == pde && P(pde) && Base(pde) == 1
    requires Dword(m, 4096 + 4 * Pti(l)) == pte && P(pte)
    ensures WalkTables(m, cr3, l) == Found(pde, pte)
  {
    hide Dword, P, Base, Pdi, Pti, EntryAddr, PdeAddr, PteAddr, WalkTables;
    EntryPlaces(0);
    EntryPlaces(Pti(l));
    FirstTable(cr3, pde, l);
    WalkFrom(m, cr3, l, pde, pte, EntryAddr(0, 0), EntryAddr(1, Pti(l)));
  }

  lemma ZeroEntry(raw: Word)
    requires raw == 0
    ensures !P(raw) && Base(raw) == 0
  {
  }

  // ---------------------------------------------------------------- translateLinToPhy

  const NOT_AVAILABLE: Word := 0xffff_ffff

  predicate LargePages(cr4: Word) {
    cr4 / 16 % 4 != 0
  }

  /** `translateLinToPhy`. */
  function Translate(g: Guest, l: Word): Word
    requires Sized(g.mem)
  {
    if !g.pg then l
    else if LargePages(g.cr4) then NOT_AVAILABLE
    else if PdeAddr(g.cr3, l) >= |g.mem| then NOT_AVAILABLE
    else
      EntryInside(g.mem, Base(g.cr3), Pdi(l));
      var pde := Dword(g.mem, PdeAddr(g.cr3, l));
      if !P(pde) then NOT_AVAILABLE else TranslateInTable(g.mem, pde, l)
  }

  function TranslateInTable(m: Memory, pde: Word, l: Word): Word
    requires Sized(m)
  {
    if PteAddr(pde, l) >= |m| then NOT_AVAILABLE
    else
      EntryInside(m, Base(pde), Pti(l));
      var pte := Dword(m, PteAddr(pde, l));
      if !P(pte) then NOT_AVAILABLE else Base(pte) * 4096 + l % 4096
  }

  /** The two walkers agree on every address, found or not. */
  lemma WalkersAgree(g: Guest, l: Word)
    requires Sized(g.mem) && !LargePages(g.cr4)
    ensures match GuestPage(g, l)
            case Some(page) => Translate(g, l) == page * 4096 + l % 4096
            case None => Translate(g, l) == NOT_AVAILABLE
  {
    EntryInside(g.mem, Base(g.cr3), Pdi(l));
    if g.pg && Base(g.cr3) < Pages(g.mem) {
      EntryInside(g.mem, Base(Dword(g.mem, PdeAddr(g.cr3, l))), Pti(l));
    }
  }

  /** The page `translateLinToPhy` finds for a linear page. */
  function TranslatedPage(g: Guest, l: Word): Option<nat>
    requires Sized(g.mem)
  {
    if g.pg && LargePages(g.cr4) then None else GuestPage(g, l)
  }

  /** Within one linear page translation only moves the offset, and memory holds all of a page or none. */
  lemma TranslateByPage(g: Guest, l: Word)
    requires Sized(g.mem)
    ensures match TranslatedPage(g, l)
            case Some(page) => Translate(g, l) == page * 4096 + l % 4096
            case None => Translate(g, l) == NOT_AVAILABLE
    ensures Translate(g, l) < |g.mem| <==> TranslatedPage(g, l).Some? && TranslatedPage(g, l).value < Pages(g.mem)
    ensures forall l': Word | l' / 4096 == l / 4096 :: TranslatedPage(g, l') == TranslatedPage(g, l)
  {
    if !LargePages(g.cr4) {
      WalkersAgree(g, l);
    }
    if TranslatedPage(g, l).Some? {
      Whole(g.mem, TranslatedPage(g, l).value, l % 4096);
    }
  }

  // ---------------------------------------------------------------- A and D bits

  function DwordAt(m: Memory, i: nat): Word
    requires 4 * i + 4 <= |m|
  {
    Dword(m, 4 * i)
  }

  /** Two memories whose aligned dwords differ at most in bits 5 and 6. */
  ghost predicate SameTables(m: Memory, m': Memory) {
    && |m| == |m'|
    && forall i: nat | 4 * i + 4 <= |m| :: SameEntry(DwordAt(m, i), DwordAt(m', i))
  }

  lemma SameAt(m: Memory, m': Memory, page: nat, index: nat)
    requires Sized(m) && SameTables(m, m') && page < Pages(m) && index < 1024
    ensures EntryAddr(page, index) + 4 <= |m|
    ensures SameEntry(Dword(m, EntryAddr(page, index)), Dword(m', EntryAddr(page, index)))
  {
    EntryInside(m, page, index);
    var i := 1024 * page + index;
    assert SameEntry(DwordAt(m, i), DwordAt(m', i));
  }

  lemma SameTablesChain(m: Memory, m': Memory, m'': Memory)
    requires SameTables(m, m') && SameTables(m', m'')
    ensures SameTables(m, m'')
  {
    forall i: nat | 4 * i + 4 <= |m|
      ensures SameEntry(DwordAt(m, i), DwordAt(m'', i))
    {
      assert SameEntry(DwordAt(m, i), DwordAt(m', i));
      assert SameEntry(DwordAt(m', i), DwordAt(m'', i));
    }
  }

  lemma MarkKeepsTables(m: Memory, page: nat, index: nat, raw: Word)
    requires EntryAddr(page, index) + 4 <= |m|
    requires SameEntry(raw, Dword(m, EntryAddr(page, index)))
    ensures SameTables(m, PutDword(m, EntryAddr(page, index), raw))
  {
    assert EntryAddr(page, index) == 4 * (page * 1024 + index);
    MarkOneDword(m, page * 1024 + index, raw);
  }

  lemma MarkOneDword(m: Memory, k: nat, raw: Word)
    requires 4 * k + 4 <= |m| && SameEntry(raw, DwordAt(m, k))
    ensures SameTables(m, PutDword(m, 4 * k, raw))
  {
    var m' := PutDword(m, 4 * k, raw);
    PutDwordExact(m, 4 * k, raw);
    forall i: nat | 4 * i + 4 <= |m|
      ensures SameEntry(DwordAt(m, i), DwordAt(m', i))
    {
      if i != k {
        assert 4 * i + 4 <= 4 * k || 4 * k + 4 <= 4 * i;
        assert DwordAt(m, i) == DwordAt(m', i);
      }
    }
  }

  /** What the walk finds does not depend on A and D bits. */
  lemma TablesDecideWalk(m: Memory, m': Memory, cr3: Word, l: Word)
    requires Sized(m) && SameTables(m, m')
    ensures match WalkTables(m, cr3, l)
            case Found(pde, pte) =>
              && WalkTables(m', cr3, l).Found?
              && SameEntry(WalkTables(m', cr3, l).pde, pde)
              && SameEntry(WalkTables(m', cr3, l).pte, pte)
            case w => WalkTables(m', cr3, l) == w
  {
    if Base(cr3) < Pages(m) {
      SameAt(m, m', Base(cr3), Pdi(l));
      var pde, pde' := Dword(m, PdeAddr(cr3, l)), Dword(m', PdeAddr(cr3, l));
      SameEntryDecides(pde, pde');
      if P(pde) && Base(pde) < Pages(m) {
        SameAt(m, m', Base(pde), Pti(l));
        SameEntryDecides(Dword(m, PteAddr(pde, l)), Dword(m', PteAddr(pde, l)));
      }
    }
  }

  /** So setting them changes neither walker's answer. */
  lemma TablesDecideTranslation(g: Guest, m': Memory, l: Word)
    requires Sized(g.mem) && SameTables(g.mem, m')
    ensures GuestPage(g.(mem := m'), l) == GuestPage(g, l)
    ensures Translate(g.(mem := m'), l) == Translate(g, l)
  {
    TablesDecideWalk(g.mem, m', g.cr3, l);
    if WalkTables(g.mem, g.cr3, l).Found? {
      SameEntryDecides(WalkTables(g.mem, g.cr3, l).pte, WalkTables(m', g.cr3, l).pte);
    }
    if !LargePages(g.cr4) {
      WalkersAgree(g, l);
      WalkersAgree(g.(mem := m'), l);
    }
  }

  // ---------------------------------------------------------------- marking an entry

  lemma AccessedBits(raw: Word)
    ensures SetAccessed(raw) / 32 % 2 == 1 && SetAccessed(raw) / 64 % 2 == raw / 64 % 2
  {
    if !Accessed(raw) {
      var q := raw / 32;
      Halves(raw, q);
      Halves(raw + 32, q + 1);
      assert q % 2 == 0 && (q + 1) % 2 == 1 && (q + 1) / 2 == q / 2;
    }
  }

  lemma DirtyBits(raw: Word)
    ensures SetDirty(raw) / 64 % 2 == 1 && SetDirty(raw) / 32 % 2 == raw / 32 % 2
  {
    if !Dirty(raw) {
      var q := raw / 32;
      Halves(raw, q);
      Halves(raw + 64, q + 2);
      assert (q + 2) % 2 == q % 2 && (q + 2) / 2 == q / 2 + 1;
    }
  }

  /** Two entries are one dword or do not overlap. */
  lemma EntriesApart(page: nat, index: nat, page': nat, index': nat)
    ensures var a, b := EntryAddr(page, index), EntryAddr(page', index'); a == b || a + 4 <= b || b + 4 <= a
  {
    Quadruples(1024 * page + index, 1024 * page' + index', EntryAddr(page, index), EntryAddr(page', index'));
  }

  lemma Quadruples(x: nat, y: nat, a: nat, b: nat)
    requires a == 4 * x && b == 4 * y
    ensures a == b || a + 4 <= b || b + 4 <= a
  {
    if x < y {
      assert 4 * x + 4 <= 4 * y;
    } else if y < x {
      assert 4 * y + 4 <= 4 * x;
    }
  }
}
