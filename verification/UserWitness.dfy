/**
 The round trip where it has most to do: a ring-3 guest with paging on is interrupted onto the
 kernel stack its TSS names, and returns.
 */
module UserWitness {
  import opened Words
  import opened GuestTables
  import opened GuestAccess
  import opened Eflags
  import opened Privilege
  import opened RoundTrip
  import opened InterruptTaken

  /**
   Four megabytes: a directory, a table that maps linear pages 2 and 3 on themselves, the GDT, an IDT of 32
   equal gates, open to INT in ring 3, and the TSS at 0x2000, 0x2100 and 0x2200, and a kernel stack in page 3.
   */
  function ByteAt(i: int): Byte {
    if i == 0 || i == 4104 || i == 4108 then 0x07
    else if i == 1 then 0x10
    else if i == 4105 then 0x20
    else if i == 4109 then 0x30
    else if i == 0x2015 then 0x9a
    else if i == 0x201d then 0x92
    else if i == 0x2025 then 0xfa
    else if i == 0x202d then 0xf2
    else if 0x2100 <= i < 0x2200 then GateByte(i % 8)
    else if i == 0x2205 then 0x38
    else if i == 0x2208 then 0x18
    else 0
  }

  /** An interrupt gate to 0x10:0xc0108f30 with DPL 3. */
  function GateByte(k: int): Byte {
    if k == 0 then 0x30 else if k == 1 then 0x8f else if k == 2 || k == 6 then 0x10 else if k == 5 then 0xee else if k == 7 then 0xc0 else 0
  }

  function FourMegabytes(): (m: Memory)
    ensures |m| == 0x40_0000 && forall i | 0 <= i < |m| :: m[i] == ByteAt(i)
  {
    seq(0x40_0000, i => ByteAt(i))
  }

  function Zero(): Descriptor {
    Descriptor(0, 0, 0, 0, 0, 0, 0, 0, 0, 0, 0, 0)
  }

  function UserGuest(): Guest {
    Guest(FourMegabytes(), true, true, 0, 0)
  }

  function UserEnv(): Env {
    Env(true, 0x2000, 0x3f, 0x2100, 0xff, Zero().(typ := 11, baseLow := 0x2200, limitLow := 103))
  }

  /** User code and stack segments, user and null data segments, interrupts enabled. */
  function User(): (c: Cpu)
    ensures Privilege.Shaped(c)
  {
    Cpu(UserGuest(), UserEnv(), Context(0x400, 0x23, 0x0000_0202, 0x5000, 0x2b, 0x2b, 0x2b, 0, 0), 3, 0, seq(512, _ => Zero()))
  }

  lemma UserIsSettled()
    ensures Settled(User()) && DataSelectorsUserOrNull(User().ctx)
  {
  }

  // ---------------------------------------------------------------- paging

  lemma EntryBits(raw: Word, page: nat)
    requires raw == 4096 * page + 7 && 1 <= page <= 3
    ensures P(raw) && Base(raw) == page
  {
  }

  lemma DirectoryEntries(pdi: nat)
    requires pdi < 1024
    ensures Dword(FourMegabytes(), 4 * pdi) == if pdi == 0 then 4096 * 1 + 7 else 0
  {
  }

  lemma TableEntry(pti: nat)
    requires pti == 2 || pti == 3
    ensures Dword(FourMegabytes(), 4096 + 4 * pti) == 4096 * pti + 7
  {
  }

  lemma InPage(l: Word)
    requires 0x2000 <= l < 0x4000
    ensures Pdi(l) == 0 && (Pti(l) == 2 || Pti(l) == 3) && l == 4096 * Pti(l) + l % 4096
  {
  }

  lemma GuestShape()
    ensures var g := UserGuest(); g.pg && !LargePages(g.cr4) && |g.mem| == 0x40_0000 && g.mem == FourMegabytes() && Base(g.cr3) == 0 && Sized(g.mem)
  {
    ZeroEntry(UserGuest().cr3);
  }

  /** The two entries that map linear page `page` on itself. */
  lemma Entries(page: nat) returns (pde: Word, pte: Word)
    requires page == 2 || page == 3
    ensures var m := UserGuest().mem;
      |m| == 0x40_0000 && pde == Dword(m, 0) && P(pde) && Base(pde) == 1 && pte == Dword(m, 4096 + 4 * page) && P(pte) && Base(pte) == page
  {
    GuestShape();
    DirectoryEntries(0);
    TableEntry(page);
    hide Dword, P, Base, FourMegabytes, LargePages, UserGuest, ByteAt;
    pde, pte := Dword(UserGuest().mem, 0), Dword(UserGuest().mem, 4096 + 4 * page);
    EntryBits(pde, 1);
    EntryBits(pte, page);
  }

  /** A linear page that maps on itself. */
  lemma PageIdentity(l: Word, page: nat)
    requires (page == 2 || page == 3) && Pdi(l) == 0 && Pti(l) == page
    ensures Translate(UserGuest(), l) == page * 4096 + l % 4096
  {
    GuestShape();
    hide Dword, P, Base, FourMegabytes, LargePages, Pdi, Pti, UserGuest, Translate, ByteAt, WalkTables;
    var pde, pte := Entries(page);
    FirstTableWalk(UserGuest().mem, UserGuest().cr3, l, pde, pte);
    WalkersAgree(UserGuest(), l);
  }

  /** Linear pages 2 and 3 are where they seem to be. */
  lemma Identity(l: Word)
    requires 0x2000 <= l < 0x4000
    ensures Translate(UserGuest(), l) == l
  {
    hide Translate, UserGuest;
    InPage(l);
    PageIdentity(l, Pti(l));
  }

  lemma StackIsNoTable()
    ensures !TablePage(UserGuest(), 3)
  {
    GuestShape();
    hide Dword, P, Base, FourMegabytes, LargePages, UserGuest, PointsAt, PdeOf, ByteAt;
    var g := UserGuest();
    forall pdi: nat | pdi < 1024
      ensures !PointsAt(g, pdi, 3)
    {
      NotPointedAt(g, pdi);
    }
  }

  lemma NotPointedAt(g: Guest, pdi: nat)
    requires g == UserGuest() && pdi < 1024
    ensures !PointsAt(g, pdi, 3)
  {
    GuestShape();
    DirectoryEntries(pdi);
    hide Dword, P, Base, FourMegabytes, LargePages, UserGuest, ByteAt, PdeOf, EntryAddr;
    DirectoryEntry(g, pdi, 4 * pdi);
    if pdi == 0 {
      EntryBits(PdeOf(g, pdi), 1);
    } else {
      ZeroEntry(PdeOf(g, pdi));
    }
  }

  lemma DirectoryEntry(g: Guest, pdi: nat, addr: nat)
    requires Sized(g.mem) && pdi < 1024 && Base(g.cr3) == 0 && addr == 4 * pdi && 4096 <= |g.mem|
    ensures PdeOf(g, pdi) == Dword(g.mem, addr)
  {
    hide Dword, Base;
    assert EntryAddr(0, pdi) == addr;
  }

  // ---------------------------------------------------------------- what is laid out there

  predicate BytesFrom(b: seq<Byte>, l: int) {
    && |b| == 8 && b[0] == ByteAt(l) && b[1] == ByteAt(l + 1) && b[2] == ByteAt(l + 2) && b[3] == ByteAt(l + 3)
    && b[5] == ByteAt(l + 5) && b[6] == ByteAt(l + 6) && b[7] == ByteAt(l + 7)
  }

  lemma FetchAt(l: Word)
    requires l % 8 == 0 && 0x2000 <= l < 0x4000
    ensures var r := Fetch(UserGuest(), l); r.Ok? && BytesFrom(r.value, l)
  {
    hide ByteAt, Translate;
    Identity(l);
    assert l + 8 <= 0x4000;
  }

  lemma SlotAddress(sel: Selector)
    requires 16 <= sel < 48
    ensures DescriptorAddr(UserEnv(), sel) == 0x2000 + sel / 8 * 8
  {
  }

  lemma StackWords()
    ensures ReadDword(UserGuest(), 0x2204) == Ok(0x3800) && ReadWord(UserGuest(), 0x2208) == Ok(0x18)
  {
    Identity(0x2204);
    Identity(0x2208);
    GuestShape();
    StackDwords();
    hide Translate, ReadDword, ReadWord, Dword, UserGuest, FourMegabytes, ByteAt;
    ReadBack(UserGuest(), 0x2204);
    ReadBack(UserGuest(), 0x2208);
  }

  lemma StackDwords()
    ensures Dword(FourMegabytes(), 0x2204) == 0x3800 && Dword(FourMegabytes(), 0x2208) == 0x18
  {
  }

  /** A busy 32-bit TSS of 104 bytes in the first 64 kilobytes. */
  predicate TaskAt(tr: Descriptor, base: nat) {
    tr.typ == 11 && tr.baseLow == base && tr.baseMed == 0 && tr.baseHigh == 0 && tr.limitLow == 103 && tr.limitHigh == 0 && tr.g == 0
  }

  /** Tables where the registers say, pages 2 and 3 mapped on themselves, and page 3 no page table. */
  ghost predicate Laid(g: Guest, env: Env) {
    && Sized(g.mem) && |g.mem| >= 0x4000 && env.linux
    && env.gdtrLimit == 0x3f && env.idtrBase == 0x2100 && env.idtrLimit == 0xff
    && TaskAt(env.tr, 0x2200)
    && (forall sel: Selector | 16 <= sel < 48 :: DescriptorAddr(env, sel) == 0x2000 + sel / 8 * 8)
    && (forall l: Word | l % 8 == 0 && 0x2000 <= l < 0x4000 :: Fetch(g, l).Ok? && BytesFrom(Fetch(g, l).value, l))
    && (forall l: Word | 0x2000 <= l < 0x4000 :: Translate(g, l) == l)
    && !TablePage(g, 3)
    && ReadDword(g, 0x2204) == Ok(0x3800) && ReadWord(g, 0x2208) == Ok(0x18)
  }

  lemma EnvFields()
    ensures var env := UserEnv();
      && env.linux && env.gdtrLimit == 0x3f && env.idtrBase == 0x2100 && env.idtrLimit == 0xff
      && TaskAt(env.tr, 0x2200)
  {
  }

  lemma UserLaid()
    ensures Laid(UserGuest(), UserEnv())
  {
    GuestShape();
    EnvFields();
    hide UserGuest, UserEnv, ByteAt, BytesFrom, Fetch, Translate, DescriptorAddr, TablePage, ReadDword, ReadWord, FourMegabytes;
    StackWords();
    StackIsNoTable();
    forall sel: Selector | 16 <= sel < 48
      ensures DescriptorAddr(UserEnv(), sel) == 0x2000 + sel / 8 * 8
    {
      SlotAddress(sel);
    }
    forall l: Word | l % 8 == 0 && 0x2000 <= l < 0x4000
      ensures Fetch(UserGuest(), l).Ok? && BytesFrom(Fetch(UserGuest(), l).value, l)
    {
      FetchAt(l);
    }
    forall l: Word | 0x2000 <= l < 0x4000
      ensures Translate(UserGuest(), l) == l
    {
      Identity(l);
    }
  }

  // ---------------------------------------------------------------- segments, gate and stack of any such guest

  /** The descriptor at `l`, from its access byte: code or data, ring and present bit. */
  lemma AccessOf(b: seq<Byte>, access: nat, typ: nat, dpl: nat)
    requires |b| == 8 && b[5] == access && access == typ + 32 * dpl + 128 && typ < 32 && dpl < 4
    ensures DecodeDescriptor(b).typ == typ && DecodeDescriptor(b).dpl == dpl && DecodeDescriptor(b).p == 1
  {
    assert access % 32 == typ && access / 32 == dpl + 4 && access / 128 == 1;
  }

  lemma GateFrom(b: seq<Byte>)
    requires |b| == 8 && b[0] == 0x30 && b[1] == 0x8f && b[2] == 0x10 && b[3] == 0 && b[5] == 0xee && b[6] == 0x10 && b[7] == 0xc0
    ensures var gate := DecodeGate(b); gate.offset == 0xc010_8f30 && gate.selector == 0x10 && gate.typ == 14 && gate.dpl == 3 && gate.p == 1
  {
  }

  /** The segment a selector names, from the access byte of its descriptor. */
  lemma SegmentFrom(g: Guest, env: Env, sel: Selector, l: Word, access: nat, typ: nat, dpl: nat)
    requires Sized(g.mem) && !Ti(sel) && !Null(sel) && Rpl(sel) == dpl && sel / 8 * 8 + 7 <= env.gdtrLimit && DescriptorAddr(env, sel) == l
    requires Fetch(g, l).Ok? && Fetch(g, l).value[5] == access == typ + 32 * dpl + 128 && typ < 32
    ensures SegmentOk(g, env, sel, typ)
  {
    hide Fetch, DecodeDescriptor, DescriptorAddr, Ti, Null, Rpl;
    AccessOf(Fetch(g, l).value, access, typ, dpl);
  }

  /** A segment of this GDT: its selector, slot, access byte, type and ring. */
  predicate Described(sel: Selector, slot: nat, access: nat, typ: nat, dpl: nat) {
    && sel == 8 * slot + dpl && 2 <= slot <= 5 && (dpl == 0 || dpl == 3)
    && ByteAt(0x2000 + 8 * slot + 5) == access == typ + 32 * dpl + 128 && typ < 32
  }

  lemma SelectorParts(sel: Selector, slot: nat, dpl: nat)
    requires sel == 8 * slot + dpl && 2 <= slot <= 5 && (dpl == 0 || dpl == 3)
    ensures !Ti(sel) && !Null(sel) && Rpl(sel) == dpl && sel / 8 * 8 == 8 * slot && Index(sel) == slot && 16 <= sel < 48
    ensures (0x2000 + 8 * slot) % 8 == 0
  {
  }

  lemma SegmentLaid(g: Guest, env: Env, sel: Selector, slot: nat, access: nat, typ: nat, dpl: nat)
    requires Laid(g, env) && Described(sel, slot, access, typ, dpl)
    ensures SegmentOk(g, env, sel, typ) && !Null(sel) && Rpl(sel) == dpl && Index(sel) == slot && Below(g, env, sel, 0x37ec)
  {
    hide Fetch, Translate, DescriptorAddr, TablePage, ReadDword, ReadWord, ByteAt, SegmentOk, Ti, Null, Rpl, Index;
    SelectorParts(sel, slot, dpl);
    SegmentFrom(g, env, sel, 0x2000 + 8 * slot, access, typ, dpl);
  }

  lemma Segments(g: Guest, env: Env)
    requires Laid(g, env)
    ensures SegmentOk(g, env, 0x10, 0x1a) && SegmentOk(g, env, 0x18, 0x12) && SegmentOk(g, env, 0x23, 0x1a) && SegmentOk(g, env, 0x2b, 0x12)
    ensures Index(0x10) == 2 && Index(0x18) == 3 && Index(0x23) == 4 && Index(0x2b) == 5 && Rpl(0x10) == Rpl(0x18) == 0 && !Null(0x18)
    ensures Below(g, env, 0x10, 0x37ec) && Below(g, env, 0x23, 0x37ec) && Below(g, env, 0x2b, 0x37ec)
  {
    hide Laid, SegmentOk, Below, Index, Rpl, Null;
    SegmentLaid(g, env, 0x10, 2, 0x9a, 0x1a, 0);
    SegmentLaid(g, env, 0x18, 3, 0x92, 0x12, 0);
    SegmentLaid(g, env, 0x23, 4, 0xfa, 0x1a, 3);
    SegmentLaid(g, env, 0x2b, 5, 0xf2, 0x12, 3);
  }

  lemma GatePlace(base: Word, vector: nat, b: seq<Byte>)
    requires vector < 32 && base == 0x2100
    ensures Wrap(base + vector * 8) == base + vector * 8 && base % 8 == 0 && (base + vector * 8) % 8 == 0
    ensures BytesFrom(b, base + vector * 8) ==> DecodeGate(b) == Gate(0xc010_8f30, 0x10, 14, 3, 1)
  {
    hide DecodeGate, GateByte;
    if BytesFrom(b, base + vector * 8) {
      Offsets(base, vector);
      GateNumbers();
      GateFrom(b);
    }
  }

  lemma Offsets(base: Word, vector: nat)
    requires base == 0x2100
    ensures var l := base + vector * 8;
      l % 8 == 0 && (l + 1) % 8 == 1 && (l + 2) % 8 == 2 && (l + 3) % 8 == 3 && (l + 5) % 8 == 5 && (l + 6) % 8 == 6 && (l + 7) % 8 == 7
  {
  }

  lemma GateNumbers()
    ensures GateByte(0) == 0x30 && GateByte(1) == 0x8f && GateByte(2) == 0x10 && GateByte(3) == 0 && GateByte(5) == 0xee && GateByte(6) == 0x10 && GateByte(7) == 0xc0
  {
  }

  /** Every one of the 32 vectors has its gate. */
  lemma GateLaid(c: Cpu, vector: nat, soft: bool)
    requires Privilege.Shaped(c) && c.cpl <= 3 && Laid(c.g, c.env) && vector < 32
    ensures GateOf(c, vector, soft) == Ok(Gate(0xc010_8f30, 0x10, 14, 3, 1))
  {
    hide Fetch, FetchBySelector, Translate, DescriptorAddr, TablePage, ReadDword, ReadWord, ByteAt, BytesFrom, Rpl, Index, Null, Below, Wrap, DecodeGate;
    Segments(c.g, c.env);
    GatePlace(c.env.idtrBase, vector, Fetch(c.g, c.env.idtrBase + vector * 8).value);
  }

  lemma TssFrom(c: Cpu, espAt: Word, ssAt: Word, esp: Word, ss: Selector)
    requires Privilege.Shaped(c) && c.env.tr.typ == 11 && 11 <= SegmentLimit(c.env.tr)
    requires Wrap(SegmentBase(c.env.tr) + 4) == espAt && Wrap(SegmentBase(c.env.tr) + 8) == ssAt
    requires ReadDword(c.g, espAt) == Ok(esp) && ReadWord(c.g, ssAt) == Ok(ss)
    requires !Null(ss) && Rpl(ss) == 0 && SegmentOk(c.g, c.env, ss, 0x12)
    ensures TssStack(c) == Ok((esp, ss))
  {
    hide ReadDword, ReadWord, FetchBySelector, Wrap, SegmentBase, SegmentLimit, Null, Rpl;
  }

  lemma NoWrap(x: int)
    requires 0 <= x < 0x1_0000_0000
    ensures Wrap(x) == x
  {
  }

  lemma TaskSegment(tr: Descriptor)
    requires tr.baseMed == 0 && tr.baseHigh == 0 && tr.limitHigh == 0 && tr.g == 0
    ensures SegmentBase(tr) == tr.baseLow && SegmentLimit(tr) == tr.limitLow
  {
  }

  lemma TssLaid(c: Cpu)
    requires Privilege.Shaped(c) && Laid(c.g, c.env)
    ensures TssStack(c) == Ok((0x3800, 0x18))
  {
    hide Fetch, Translate, DescriptorAddr, TablePage, ReadDword, ReadWord, ByteAt, SegmentOk, Rpl, Index, Null, Below, Wrap, SegmentBase, SegmentLimit, TssStack;
    Segments(c.g, c.env);
    TaskSegment(c.env.tr);
    NoWrap(SegmentBase(c.env.tr) + 4);
    NoWrap(SegmentBase(c.env.tr) + 8);
    TssFrom(c, 0x2204, 0x2208, 0x3800, 0x18);
  }

  lemma StackLaid(g: Guest, env: Env)
    requires Laid(g, env)
    ensures StackOk(g, 0x37ec)
  {
    hide Fetch, Translate, DescriptorAddr, TablePage, ReadDword, ReadWord, ByteAt;
    forall l: Word | 0x37ec <= l <= 0x37ec + 16
      ensures Fits(g, l) && !TablePage(g, Translate(g, l) / 4096) && 0x37ec <= Translate(g, l)
    {
      assert l / 4096 == 3 && l % 4096 <= 0xffc;
    }
  }

  lemma ReturnFrom(c: Cpu, cs: Selector)
    requires Privilege.Shaped(c) && c.cpl == 3 && cs == WithRpl(c.ctx.cs, 3)
    requires SegmentOk(c.g, c.env, cs, 0x1a) && SegmentOk(c.g, c.env, c.ctx.ss, 0x12) && Index(cs) == 4 && Index(c.ctx.ss) == 5
    ensures CanReturn(c)
  {
    hide SegmentOk, Index, WithRpl;
  }

  lemma LaidGate(c: Cpu, vector: nat, soft: bool)
    requires Privilege.Shaped(c) && Laid(c.g, c.env) && vector < 32
    ensures GateGood(c, vector, soft, 0x37ec)
  {
    hide Laid, GateOf, Below, SegmentOk, Index, Rpl, Null;
    Segments(c.g, c.env);
    GateLaid(c, vector, soft);
  }

  lemma LaidStack(c: Cpu)
    requires Privilege.Shaped(c) && Laid(c.g, c.env)
    ensures StackGood(c, 0x3800, 0x18)
  {
    hide Laid, TssStack, StackOk, Below, SegmentOk, Index, Rpl, Null;
    Segments(c.g, c.env);
    TssLaid(c);
    StackLaid(c.g, c.env);
  }

  lemma LaidReturn(c: Cpu)
    requires Privilege.Shaped(c) && c.cpl == 3 && Laid(c.g, c.env) && WithRpl(c.ctx.cs, 3) == 0x23 && c.ctx.ss == 0x2b
    ensures CanReturn(c) && Below(c.g, c.env, WithRpl(c.ctx.cs, 3), 0x37ec) && Below(c.g, c.env, c.ctx.ss, 0x37ec)
  {
    hide Laid, CanReturn, Below, SegmentOk, Index, Rpl, Null, WithRpl;
    Segments(c.g, c.env);
    ReturnFrom(c, 0x23);
  }

  /** A settled user program in segments 0x23 and 0x2b of such a guest can take any of the 32 vectors. */
  lemma LaidCanTake(c: Cpu, vector: nat, soft: bool)
    requires Settled(c) && c.cpl == 3 && DataSelectorsUserOrNull(c.ctx) && Laid(c.g, c.env) && vector < 32
    requires WithRpl(c.ctx.cs, 3) == 0x23 && c.ctx.ss == 0x2b
    ensures CanTake(c, vector, soft, 0x3800, 0x18)
  {
    SettledIsShaped(c);
    hide Laid, Settled, CanReturn, GateGood, Below, DataSelectorsUserOrNull, WithRpl, TssStack, StackOk, Index;
    LaidReturn(c);
    LaidGate(c, vector, soft);
    LaidStack(c);
  }

  lemma SettledIsShaped(c: Cpu)
    requires Settled(c)
    ensures Privilege.Shaped(c)
  {
  }

  // ---------------------------------------------------------------- the concrete guest

  lemma UserFields()
    ensures var c := User();
      c.g == UserGuest() && c.env == UserEnv() && c.g.pg && c.cpl == 3 && WithRpl(c.ctx.cs, 3) == 0x23 && c.ctx.ss == 0x2b
  {
  }

  /** There is such a guest, in ring 3 with paging on: it takes any of its 32 vectors, by INT or not, at 0xc0108f30, and comes back. */
  lemma RoundTripHappens(vector: nat, soft: bool) returns (c: Cpu)
    requires vector < 32
    ensures c.cpl == 3 && c.g.pg && CanTake(c, vector, soft, 0x3800, 0x18)
    ensures SwitchStack(c).Ok? && Interrupt(c, vector, soft, None).Ok? && Interrupt(c, vector, soft, None).value.ctx.eip == 0xc010_8f30
    ensures var r := Iret(ErrorPopped(Interrupt(c, vector, soft, None).value, None));
      r.Ok? && Restored(c, None, r.value)
  {
    hide User, UserGuest, UserEnv, Laid, Runnable, Vip, Vif, GateOf, CanTake, SwitchStack, Interrupt, Iret, Restored, DataSelectorsUserOrNull, WithRpl,
      InterruptFrame, PushAll, KernelFlags, GateFlags, ImageFlags;
    UserFields();
    UserIsSettled();
    UserLaid();
    c := User();
    LaidCanTake(c, vector, soft);
    TakesInterrupt(c, vector, soft, 0x3800, 0x18);
    InterruptEnters(c, vector, soft, None);
    GateLaid(c, vector, soft);
  }
}
