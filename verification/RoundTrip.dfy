/**
 Interrupt delivery and IRET undo each other: what `doGuestInterrupt` pushes
 through translated guest memory, `doIRET` pops back exactly.
 */
module RoundTrip {
  import opened Words
  import opened Eflags
  import opened GuestTables
  import opened GuestAccess
  import opened Privilege

  // ---------------------------------------------------------------- stores that miss the page tables

  /** The guest page holds the live page directory or a page table it points at. */
  predicate TablePage(g: Guest, page: nat)
    requires Sized(g.mem)
  {
    g.pg && (page == Base(g.cr3) || exists pdi: nat :: pdi < 1024 && PointsAt(g, pdi, page))
  }

  predicate PointsAt(g: Guest, pdi: nat, page: nat)
    requires Sized(g.mem) && pdi < 1024
  {
    P(PdeOf(g, pdi)) && Base(PdeOf(g, pdi)) == page
  }

  lemma OtherPage(m: Memory, p: nat, v: Word, page: nat, index: nat)
    requires Sized(m) && p + 4 <= |m| && p % 4096 <= 0xffc && page < Pages(m) && page != p / 4096 && index < 1024
    ensures EntryAddr(page, index) + 4 <= |m|
    ensures Dword(PutDword(m, p, v), EntryAddr(page, index)) == Dword(m, EntryAddr(page, index))
  {
    EntryInside(m, page, index);
    PutDwordExact(m, p, v);
    var a := EntryAddr(page, index);
    assert a + 4 <= p || p + 4 <= a by {
      assert p == p / 4096 * 4096 + p % 4096;
      assert a == page * 4096 + index * 4;
    }
  }

  /** A store outside the live tables changes no translation, and no page's standing as a table. */
  lemma StoreMissesTables(g: Guest, p: nat, v: Word)
    requires Sized(g.mem) && p + 4 <= |g.mem| && p % 4096 <= 0xffc && !TablePage(g, p / 4096)
    ensures forall l: Word :: Translate(g.(mem := PutDword(g.mem, p, v)), l) == Translate(g, l)
    ensures forall page: nat :: TablePage(g.(mem := PutDword(g.mem, p, v)), page) == TablePage(g, page)
  {
    var g' := g.(mem := PutDword(g.mem, p, v));
    hide Dword, PutDword, P, Base, EntryAddr;
    forall pdi: nat | pdi < 1024 && g.pg
      ensures PdeOf(g', pdi) == PdeOf(g, pdi)
    {
      if Base(g.cr3) < Pages(g.mem) {
        OtherPage(g.mem, p, v, Base(g.cr3), pdi);
      }
    }
    forall l: Word
      ensures Translate(g', l) == Translate(g, l)
    {
      StoreMissesWalk(g, p, v, l);
    }
    forall page: nat
      ensures TablePage(g', page) == TablePage(g, page)
    {
      hide PdeOf;
      forall pdi: nat | pdi < 1024 && g.pg
        ensures PointsAt(g', pdi, page) == PointsAt(g, pdi, page)
      {
      }
    }
  }

  lemma StoreMissesWalk(g: Guest, p: nat, v: Word, l: Word)
    requires Sized(g.mem) && p + 4 <= |g.mem| && p % 4096 <= 0xffc && !TablePage(g, p / 4096)
    ensures Translate(g.(mem := PutDword(g.mem, p, v)), l) == Translate(g, l)
  {
    hide Dword, PutDword, P, Base, EntryAddr;
    EntryInside(g.mem, Base(g.cr3), Pdi(l));
    if g.pg && Base(g.cr3) < Pages(g.mem) {
      OtherPage(g.mem, p, v, Base(g.cr3), Pdi(l));
      var pde := Dword(g.mem, PdeAddr(g.cr3, l));
      EntryInside(g.mem, Base(pde), Pti(l));
      if P(pde) && Base(pde) < Pages(g.mem) {
        assert PointsAt(g, Pdi(l), Base(pde));
        OtherPage(g.mem, p, v, Base(pde), Pti(l));
      }
    }
  }

  // ---------------------------------------------------------------- pushing a frame

  /** Pushed dwords whose physical places do not overlap one another. */
  ghost predicate Apart(g: Guest, writes: seq<(Word, Word)>)
    requires Sized(g.mem)
  {
    forall i, j | 0 <= i < j < |writes| ::
      Translate(g, writes[i].0) + 4 <= Translate(g, writes[j].0) || Translate(g, writes[j].0) + 4 <= Translate(g, writes[i].0)
  }

  ghost predicate MissTables(g: Guest, writes: seq<(Word, Word)>)
    requires Sized(g.mem)
  {
    forall i | 0 <= i < |writes| :: !TablePage(g, Translate(g, writes[i].0) / 4096)
  }

  /** Byte `k` of physical memory belongs to one of the pushed dwords. */
  predicate Hit(g: Guest, writes: seq<(Word, Word)>, k: nat)
    requires Sized(g.mem)
  {
    exists i :: 0 <= i < |writes| && Translate(g, writes[i].0) <= k < Translate(g, writes[i].0) + 4
  }

  /** The same translation, and every pushed dword in its place. */
  ghost predicate Holds(g: Guest, writes: seq<(Word, Word)>, g': Guest)
    requires Sized(g.mem) && Sized(g'.mem)
  {
    && |g'.mem| == |g.mem|
    && (forall l: Word :: Translate(g', l) == Translate(g, l))
    && (forall i | 0 <= i < |writes| :: Landed(g, writes[i], g'))
  }

  /** What pushing leaves: the frame in its place, and every other byte as it was. */
  ghost predicate Pushed(g: Guest, writes: seq<(Word, Word)>, g': Guest)
    requires Sized(g.mem) && Sized(g'.mem)
  {
    && Holds(g, writes, g')
    && (forall k: nat | k < |g.mem| && !Hit(g, writes, k) :: g'.mem[k] == g.mem[k])
  }

  predicate Landed(g: Guest, w: (Word, Word), g': Guest)
    requires Sized(g.mem) && Sized(g'.mem) && |g'.mem| == |g.mem|
  {
    var p := Translate(g, w.0);
    p + 4 <= |g.mem| && p % 4096 <= 0xffc && Dword(g'.mem, p) == w.1
  }

  lemma {:induction false} PushAllLands(g: Guest, writes: seq<(Word, Word)>)
    requires Sized(g.mem) && PushAll(g, writes).Ok? && MissTables(g, writes) && Apart(g, writes)
    ensures Pushed(g, writes, PushAll(g, writes).value)
    decreases |writes|
  {
    hide Translate, TablePage, PutDword, Hit, Landed;
    if writes != [] {
      var (a, v) := writes[0];
      var rest := writes[1..];
      var g1 := WriteDword(g, a, v).value;
      var g' := PushAll(g, writes).value;
      StoreMissesTables(g, Translate(g, a), v);
      forall i | 0 <= i < |rest|
        ensures !TablePage(g1, Translate(g1, rest[i].0) / 4096)
      {
        assert rest[i] == writes[i + 1];
      }
      PushAllLands(g1, rest);
      FirstStays(g, writes, g1, g');
      forall i | 0 <= i < |writes|
        ensures Landed(g, writes[i], g')
      {
        if i > 0 {
          assert writes[i] == rest[i - 1];
          LandedSame(g, g1, rest[i - 1], g');
        }
      }
      forall k: nat | k < |g.mem| && !Hit(g, writes, k)
        ensures g'.mem[k] == g.mem[k]
      {
        MissesBoth(g, writes, g1, k);
      }
    }
  }

  lemma LandedSame(g: Guest, g1: Guest, w: (Word, Word), g': Guest)
    requires Sized(g.mem) && Sized(g1.mem) && Sized(g'.mem) && |g'.mem| == |g1.mem| == |g.mem|
    requires Translate(g1, w.0) == Translate(g, w.0) && Landed(g1, w, g')
    ensures Landed(g, w, g')
  {
  }

  lemma MissesBoth(g: Guest, writes: seq<(Word, Word)>, g1: Guest, k: nat)
    requires Sized(g.mem) && Sized(g1.mem) && |writes| > 0 && k < |g.mem|
    requires WriteDword(g, writes[0].0, writes[0].1) == Ok(g1)
    requires forall l: Word :: Translate(g1, l) == Translate(g, l)
    requires !Hit(g, writes, k)
    ensures k < |g1.mem| && g1.mem[k] == g.mem[k] && !Hit(g1, writes[1..], k)
  {
    hide Translate, PutDword;
    PutDwordExact(g.mem, Translate(g, writes[0].0), writes[0].1);
    assert !(Translate(g, writes[0].0) <= k < Translate(g, writes[0].0) + 4);
    assert forall i | 0 <= i < |writes[1..]| :: writes[1..][i] == writes[i + 1];
  }

  /** The first dword survives the pushes after it. */
  lemma FirstStays(g: Guest, writes: seq<(Word, Word)>, g1: Guest, g': Guest)
    requires Sized(g.mem) && Sized(g1.mem) && Sized(g'.mem) && |writes| > 0 && Apart(g, writes)
    requires WriteDword(g, writes[0].0, writes[0].1) == Ok(g1)
    requires forall l: Word :: Translate(g1, l) == Translate(g, l)
    requires Pushed(g1, writes[1..], g')
    ensures Landed(g, writes[0], g')
  {
    hide Translate, PutDword;
    var p := Translate(g, writes[0].0);
    PutDwordExact(g.mem, p, writes[0].1);
    forall k: nat | p <= k < p + 4
      ensures g'.mem[k] == g1.mem[k]
    {
      assert forall i | 0 <= i < |writes[1..]| :: writes[1..][i] == writes[i + 1];
      assert !Hit(g1, writes[1..], k);
    }
  }

  // ---------------------------------------------------------------- reading it back

  lemma ReadBack(g: Guest, l: Word)
    requires Sized(g.mem) && Translate(g, l) + 4 <= |g.mem| && Translate(g, l) % 4096 <= 0xffc
    ensures ReadDword(g, l) == Ok(Dword(g.mem, Translate(g, l)))
    ensures ReadWord(g, l) == Ok(Dword(g.mem, Translate(g, l)) % 0x1_0000)
  {
    hide Translate, ReadBytes;
    var p := Translate(g, l);
    OffsetKept(g, l);
    WithinPage(g, l, 4);
    WithinPage(g, l, 2);
    LittleEndianUnfolds(g.mem[p..p + 4]);
    LittleEndianUnfolds(g.mem[p..p + 2]);
    LowHalf(g.mem, p);
  }

  lemma OffsetKept(g: Guest, l: Word)
    requires Sized(g.mem) && Translate(g, l) < |g.mem|
    ensures Translate(g, l) % 4096 == l % 4096
  {
    hide Translate, TranslatedPage;
    TranslateByPage(g, l);
    Whole(g.mem, TranslatedPage(g, l).value, l % 4096);
  }

  /** Two dwords of one frame, a few dwords apart, never share a physical byte, however pages map. */
  lemma FrameWordsApart(g: Guest, a: Word, b: Word, n: int)
    requires Sized(g.mem) && b == Wrap(a + 4 * n) && n != 0 && -6 <= n <= 6
    requires Translate(g, a) + 4 <= |g.mem| && Translate(g, a) % 4096 <= 0xffc
    requires Translate(g, b) + 4 <= |g.mem| && Translate(g, b) % 4096 <= 0xffc
    ensures Translate(g, a) + 4 <= Translate(g, b) || Translate(g, b) + 4 <= Translate(g, a)
  {
    hide Translate, TranslatedPage;
    var p, q := Translate(g, a), Translate(g, b);
    TranslateByPage(g, a);
    TranslateByPage(g, b);
    Whole(g.mem, TranslatedPage(g, a).value, a % 4096);
    Whole(g.mem, TranslatedPage(g, b).value, b % 4096);
    OffsetsApart(a, b, n);
  }

  lemma OffsetsApart(a: Word, b: Word, n: int)
    requires b == Wrap(a + 4 * n) && n != 0 && -6 <= n <= 6 && a % 4096 <= 0xffc && b % 4096 <= 0xffc
    ensures a % 4096 + 4 <= b % 4096 || b % 4096 + 4 <= a % 4096
  {
    if a + 4 * n < 0 {
      assert b == a + 4 * n + 0x1_0000_0000;
      Distance(a, b, 4 * n, 0x10_0000);
    } else if a + 4 * n >= 0x1_0000_0000 {
      assert b == a + 4 * n - 0x1_0000_0000;
      Distance(a, b, 4 * n, -0x10_0000);
    } else {
      assert b == a + 4 * n;
      Distance(a, b, 4 * n, 0);
    }
  }

  /** Offsets in a page of two addresses `d` apart, any number of whole pages aside. */
  lemma Distance(a: nat, b: nat, d: int, pages: int)
    requires b == a + d + 4096 * pages && -24 <= d <= 24
    ensures b % 4096 - a % 4096 == d || b % 4096 - a % 4096 == d + 4096 || b % 4096 - a % 4096 == d - 4096
  {
    var q := a / 4096;
    var o := a % 4096;
    assert a == 4096 * q + o;
    var r := b / 4096;
    assert b == 4096 * r + b % 4096;
    assert 4096 * (r - q - pages) == o + d - b % 4096;
  }

  /** Successful pushes all land inside memory and inside a page. */
  lemma {:induction false} PushAllPlaces(g: Guest, writes: seq<(Word, Word)>)
    requires Sized(g.mem) && PushAll(g, writes).Ok? && MissTables(g, writes)
    ensures forall i | 0 <= i < |writes| :: Fits(g, writes[i].0)
    decreases |writes|
  {
    hide Translate, TablePage, PutDword;
    if writes != [] {
      var (a, v) := writes[0];
      var rest := writes[1..];
      var g1 := WriteDword(g, a, v).value;
      StoreMissesTables(g, Translate(g, a), v);
      forall i | 0 <= i < |rest|
        ensures !TablePage(g1, Translate(g1, rest[i].0) / 4096)
      {
        assert rest[i] == writes[i + 1];
      }
      PushAllPlaces(g1, rest);
      forall i | 0 <= i < |writes|
        ensures Fits(g, writes[i].0)
      {
        if i > 0 {
          assert writes[i] == rest[i - 1];
        }
      }
    }
  }

  predicate Fits(g: Guest, l: Word)
    requires Sized(g.mem)
  {
    Translate(g, l) + 4 <= |g.mem| && Translate(g, l) % 4096 <= 0xffc
  }

  /** Dwords pushed one below the other, the first at `bottom + 4 * top`. */
  predicate Ladder(writes: seq<(Word, Word)>, bottom: Word, top: int) {
    && |writes| <= 6
    && forall i | 0 <= i < |writes| :: writes[i].0 == Wrap(bottom + 4 * (top - i))
  }

  lemma LadderApart(g: Guest, writes: seq<(Word, Word)>, bottom: Word, top: int)
    requires Sized(g.mem) && Ladder(writes, bottom, top)
    requires forall i | 0 <= i < |writes| :: Fits(g, writes[i].0)
    ensures Apart(g, writes)
  {
    hide Translate;
    forall i, j | 0 <= i < j < |writes|
      ensures Translate(g, writes[i].0) + 4 <= Translate(g, writes[j].0) || Translate(g, writes[j].0) + 4 <= Translate(g, writes[i].0)
    {
      Steps(bottom + 4 * (top - i), i - j);
      FrameWordsApart(g, writes[i].0, writes[j].0, i - j);
    }
  }

  lemma Steps(a: int, n: int)
    ensures Wrap(Wrap(a) + 4 * n) == Wrap(a + 4 * n)
  {
  }

  /** A pushed dword reads back through the unchanged translation. */
  lemma FrameReads(g: Guest, writes: seq<(Word, Word)>, g': Guest, i: nat)
    requires Sized(g.mem) && Sized(g'.mem) && Holds(g, writes, g') && i < |writes|
    ensures ReadDword(g', writes[i].0) == Ok(writes[i].1)
    ensures ReadWord(g', writes[i].0) == Ok(writes[i].1 % 0x1_0000)
  {
    hide Translate, ReadDword, ReadWord, Dword, Hit;
    assert Landed(g, writes[i], g');
    ReadBack(g', writes[i].0);
  }

  /** No pushed dword overlaps the guest descriptor a selector names. */
  ghost predicate DescriptorMissed(g: Guest, env: Env, writes: seq<(Word, Word)>, sel: Selector)
    requires Sized(g.mem)
  {
    var p := Translate(g, DescriptorAddr(env, sel));
    forall k: nat | p <= k < p + 8 :: !Hit(g, writes, k)
  }

  lemma FetchStable(g: Guest, env: Env, writes: seq<(Word, Word)>, g': Guest, sel: Selector)
    requires Sized(g.mem) && Sized(g'.mem) && Pushed(g, writes, g') && DescriptorMissed(g, env, writes, sel)
    ensures FetchBySelector(g', env, sel) == FetchBySelector(g, env, sel)
  {
    hide Translate, DecodeDescriptor, Hit, Landed, DescriptorAddr;
    var p := Translate(g, DescriptorAddr(env, sel));
    assert Translate(g', DescriptorAddr(env, sel)) == p;
    if p + 7 < |g.mem| {
      assert g'.mem[p..p + 8] == g.mem[p..p + 8];
    }
  }

  // ---------------------------------------------------------------- the states in question

  /** A guest CPU that may run, with no VIP and its stack segment pushed down. */
  ghost predicate Settled(c: Cpu) {
    Resumable(c) && !Vip(c.ctx.eflags) && Rpl(c.ctx.ss) == 3
  }

  predicate SegmentOk(g: Guest, env: Env, sel: Selector, typ: nat)
    requires Sized(g.mem)
  {
    var d := FetchBySelector(g, env, sel);
    d.Ok? && d.value.typ == typ && d.value.p != 0
  }

  /** The interrupted code and stack segments are ones IRET accepts. */
  ghost predicate CanReturn(c: Cpu)
    requires Privilege.Shaped(c)
  {
    var cs := WithRpl(c.ctx.cs, c.cpl);
    && SegmentOk(c.g, c.env, cs, 0x1a)
    && SlotAllowed(true, c.cpl, true, Index(cs))
    && (c.cpl == 3 ==> SegmentOk(c.g, c.env, c.ctx.ss, 0x12) && Index(c.ctx.ss) == 5)
  }

  /** The words of the frame and the descriptors they name are still readable. */
  ghost predicate FrameIntact(c: Cpu, t: Cpu, bottom: Word)
    requires Privilege.Shaped(c) && Privilege.Shaped(t)
  {
    var cs := WithRpl(c.ctx.cs, c.cpl);
    && Popped(t) == Ok((c.ctx.eip, cs, ImageFlags(c.ctx.eflags, c.cpl == 0)))
    && FetchBySelector(t.g, t.env, cs) == FetchBySelector(c.g, c.env, cs)
    && (c.cpl == 3 ==>
          && ReadDword(t.g, Wrap(bottom + 12)) == Ok(c.ctx.esp)
          && ReadWord(t.g, Wrap(bottom + 16)) == Ok(c.ctx.ss)
          && FetchBySelector(t.g, t.env, c.ctx.ss) == FetchBySelector(c.g, c.env, c.ctx.ss))
  }

  /** The state `t` in which a handler executes IRET: back at its frame, in ring 0. */
  ghost predicate HandlerReturns(c: Cpu, t: Cpu, bottom: Word)
    requires Privilege.Shaped(c)
  {
    && Privilege.Shaped(t) && t.env == c.env && t.cpl == 0 && t.monCr4 == 2 && t.ctx.esp == bottom
    && Returnable(t.ctx.eflags, c.ctx.eflags)
    && FrameIntact(c, t, bottom)
    && (c.cpl == 0 ==> t.ctx.ss == c.ctx.ss && bottom == Wrap(c.ctx.esp - 12))
    && (c.cpl == 3 ==> DataSelectorsUserOrNull(t.ctx))
  }

  lemma SelectorAccepted(c: Cpu, code: bool, sel: Selector)
    requires Privilege.Shaped(c) && c.env.linux && FetchBySelector(c.g, c.env, sel).Ok? && (Rpl(sel) == 0 || Rpl(sel) == 3)
    requires SlotAllowed(true, c.cpl, code, Index(sel))
    ensures SelectorUpdated(c, code, sel).Ok?
  {
    hide Fetch, DescriptorAddr, DecodeDescriptor;
  }

  lemma ReturnToRestores(c: Cpu, t: Cpu, bottom: Word)
    requires Settled(c) && CanReturn(c) && HandlerReturns(c, t, bottom)
    ensures var cs := WithRpl(c.ctx.cs, c.cpl);
      var r := ReturnTo(t, c.ctx.eip, cs);
      && r.Ok? && !ReturnSelectorBad(cs, 0)
      && r.value == t.(gdt := r.value.gdt, cpl := c.cpl, ctx := t.ctx.(eip := c.ctx.eip, cs := c.ctx.cs, esp := c.ctx.esp, ss := c.ctx.ss))
  {
    hide FetchBySelector, SelectorUpdated, ReadDword, ReadWord, Popped, DataSelectorsUserOrNull, Runnable, Returnable, Vif, Vip, ImageFlags;
    var cs := WithRpl(c.ctx.cs, c.cpl);
    if c.cpl == 3 {
      var t1 := t.(cpl := 3, ctx := t.ctx.(ss := PushedDown(c.ctx.ss), esp := c.ctx.esp));
      SelectorAccepted(t1, false, c.ctx.ss);
      DataSelectorsKept(t.ctx, t1.ctx);
      var t2 := SelectorUpdated(t1, false, c.ctx.ss).value;
      DataSelectorsKept(t.ctx, t2.ctx);
      SelectorAccepted(t2.(ctx := t2.ctx.(cs := PushedDown(cs), eip := c.ctx.eip)), true, cs);
    } else {
      var t1 := t.(ctx := t.ctx.(esp := Wrap(t.ctx.esp + 12)));
      assert t1.ctx.esp == c.ctx.esp;
      SelectorAccepted(t1.(ctx := t1.ctx.(cs := PushedDown(cs), eip := c.ctx.eip)), true, cs);
    }
  }

  lemma DataSelectorsKept(a: Context, b: Context)
    requires a.ds == b.ds && a.es == b.es && a.fs == b.fs && a.gs == b.gs
    ensures DataSelectorsUserOrNull(a) == DataSelectorsUserOrNull(b)
  {
  }

  /** Whatever the handler did in between, IRET restores the interrupted EIP, CS, EFLAGS, ESP, SS, CPL and CR4. */
  lemma IretRestores(c: Cpu, t: Cpu, bottom: Word)
    requires Settled(c) && CanReturn(c) && HandlerReturns(c, t, bottom)
    ensures var r := Iret(t);
      && r.Ok?
      && r.value.cpl == c.cpl && r.value.monCr4 == c.monCr4 && r.value.g == t.g && r.value.env == t.env
      && r.value.ctx == c.ctx.(ds := t.ctx.ds, es := t.ctx.es, fs := t.ctx.fs, gs := t.ctx.gs)
  {
    ReturnToRestores(c, t, bottom);
    FlagsReturn(c.ctx.eflags, t.ctx.eflags, c.cpl == 0);
    hide Returnable, Runnable, ReturnTo, Popped, ReturnFlags, ReturnRefused, ImageFlags, FetchBySelector, CanReturn, ReturnSelectorBad;
  }

  // ---------------------------------------------------------------- there and back

  /** The frame `doGuestInterrupt` pushes. */
  function InterruptFrame(c: Cpu, error: Option<Word>): seq<(Word, Word)>
    requires Privilege.Shaped(c) && SwitchStack(c).Ok?
  {
    Frame(c, SwitchStack(c).value.1, ImageFlags(c.ctx.eflags, c.env.linux && c.cpl == 0), error)
  }

  /** The frame lies outside the live page tables and the descriptors to return through. */
  ghost predicate FrameClear(c: Cpu, error: Option<Word>)
    requires Privilege.Shaped(c) && SwitchStack(c).Ok?
  {
    var frame := InterruptFrame(c, error);
    && MissTables(c.g, frame)
    && DescriptorMissed(c.g, c.env, frame, WithRpl(c.ctx.cs, c.cpl))
    && (c.cpl == 3 ==> DescriptorMissed(c.g, c.env, frame, c.ctx.ss))
  }

  lemma FrameIsLadder(c: Cpu, bottom: Word, image: bv32, error: Option<Word>)
    requires Privilege.Shaped(c)
    ensures Ladder(Frame(c, bottom, image, error), bottom, if c.cpl == 0 then 2 else 4)
  {
  }

  lemma FramePushed(c: Cpu, error: Option<Word>)
    requires Privilege.Shaped(c) && SwitchStack(c).Ok? && FrameClear(c, error)
    requires PushAll(c.g, InterruptFrame(c, error)).Ok?
    ensures Pushed(c.g, InterruptFrame(c, error), PushAll(c.g, InterruptFrame(c, error)).value)
  {
    hide Frame, SwitchStack, Ladder, Apart, Fits, DescriptorMissed, MissTables, Pushed, PushAll;
    var frame := InterruptFrame(c, error);
    PushAllPlaces(c.g, frame);
    FrameIsLadder(c, SwitchStack(c).value.1, ImageFlags(c.ctx.eflags, c.env.linux && c.cpl == 0), error);
    LadderApart(c.g, frame, SwitchStack(c).value.1, if c.cpl == 0 then 2 else 4);
    PushAllLands(c.g, frame);
  }

  /** What delivery leaves, in full: ring 0 under PVI, on the handler, the frame pushed and nothing else touched. */
  ghost predicate Entered(c: Cpu, error: Option<Word>, gate: Gate, h: Cpu)
    requires Privilege.Shaped(c)
  {
    && SwitchStack(c).Ok? && PushAll(c.g, InterruptFrame(c, error)).Ok?
    && Privilege.Shaped(h)
    && h.g == PushAll(c.g, InterruptFrame(c, error)).value
    && h.env == c.env && h.cpl == 0 && h.monCr4 == 2
    && h.ctx == c.ctx.(
      eip := gate.offset, cs := PushedDown(gate.selector), ss := h.ctx.ss,
      esp := BelowError(SwitchStack(c).value.1, error),
      eflags := KernelFlags(GateFlags(ImageFlags(c.ctx.eflags, c.cpl == 0), gate.typ == 14)))
    && Rpl(h.ctx.ss) == (if c.cpl == 0 then Rpl(c.ctx.ss) else 3)
    && (c.cpl == 0 ==> h.ctx.ss == c.ctx.ss)
  }

  lemma InterruptEnters(c: Cpu, vector: nat, soft: bool, error: Option<Word>)
    requires Privilege.Shaped(c) && c.env.linux && (c.cpl == 0 || c.cpl == 3) && Interrupt(c, vector, soft, error).Ok?
    ensures GateOf(c, vector, soft).Ok?
    ensures Entered(c, error, GateOf(c, vector, soft).value, Interrupt(c, vector, soft, error).value)
  {
    hide GateOf, TssStack, SelectorUpdated, PushAll, Frame, GateFlags, KernelFlags, ImageFlags;
  }

  lemma FrameIndexed(c: Cpu, bottom: Word, image: bv32, error: Option<Word>)
    requires Privilege.Shaped(c)
    ensures var f, n := Frame(c, bottom, image, error), if c.cpl == 0 then 0 else 2;
      && |f| >= n + 3
      && f[n] == (Wrap(bottom + 8), AsWord(image)) && f[n + 1] == (Wrap(bottom + 4), WithRpl(c.ctx.cs, c.cpl)) && f[n + 2] == (bottom, c.ctx.eip)
      && (c.cpl != 0 ==> f[0] == (Wrap(bottom + 16), c.ctx.ss) && f[1] == (Wrap(bottom + 12), c.ctx.esp))
  {
  }

  lemma FramePops(c: Cpu, bottom: Word, image: bv32, error: Option<Word>, t: Cpu)
    requires Privilege.Shaped(c) && Privilege.Shaped(t) && t.ctx.esp == bottom
    requires Holds(c.g, Frame(c, bottom, image, error), t.g)
    ensures Popped(t) == Ok((c.ctx.eip, WithRpl(c.ctx.cs, c.cpl), image))
  {
    hide Holds, ReadDword, ReadWord, Frame, Translate, WithRpl;
    var f := Frame(c, bottom, image, error);
    var n := if c.cpl == 0 then 0 else 2;
    FrameIndexed(c, bottom, image, error);
    FrameReads(c.g, f, t.g, n);
    FrameReads(c.g, f, t.g, n + 1);
    FrameReads(c.g, f, t.g, n + 2);
    hide Popped;
    PoppedWords(t, c.ctx.eip, WithRpl(c.ctx.cs, c.cpl), image);
  }

  lemma PoppedWords(t: Cpu, eip: Word, cs: Selector, image: bv32)
    requires Privilege.Shaped(t)
    requires ReadDword(t.g, t.ctx.esp) == Ok(eip) && ReadWord(t.g, Wrap(t.ctx.esp + 4)) == Ok(cs as int)
    requires ReadDword(t.g, Wrap(t.ctx.esp + 8)) == Ok(AsWord(image))
    ensures Popped(t) == Ok((eip, cs, image))
  {
    hide ReadDword, ReadWord, Translate, AsFlags, AsWord;
    FlagsSurviveMemory(image);
  }

  lemma FramePopsStack(c: Cpu, bottom: Word, image: bv32, error: Option<Word>, g': Guest)
    requires Privilege.Shaped(c) && Sized(g'.mem) && c.cpl != 0
    requires Holds(c.g, Frame(c, bottom, image, error), g')
    ensures ReadDword(g', Wrap(bottom + 12)) == Ok(c.ctx.esp) && ReadWord(g', Wrap(bottom + 16)) == Ok(c.ctx.ss)
  {
    hide Holds, ReadDword, ReadWord, Frame, Translate, WithRpl;
    var f := Frame(c, bottom, image, error);
    FrameIndexed(c, bottom, image, error);
    FrameReads(c.g, f, g', 0);
    FrameReads(c.g, f, g', 1);
  }

  function AtFrame(c: Cpu, h: Cpu): (t: Cpu)
    requires Privilege.Shaped(c) && SwitchStack(c).Ok?
  {
    h.(ctx := h.ctx.(esp := SwitchStack(c).value.1))
  }

  /** Wherever the frame still holds and the descriptors still stand, the handler can return. */
  lemma StillIntact(c: Cpu, error: Option<Word>, t: Cpu, bottom: Word)
    requires Privilege.Shaped(c) && Privilege.Shaped(t) && t.env == c.env && t.ctx.esp == bottom
    requires Holds(c.g, Frame(c, bottom, ImageFlags(c.ctx.eflags, c.cpl == 0), error), t.g)
    requires FetchBySelector(t.g, t.env, WithRpl(c.ctx.cs, c.cpl)) == FetchBySelector(c.g, c.env, WithRpl(c.ctx.cs, c.cpl))
    requires c.cpl == 3 ==> FetchBySelector(t.g, t.env, c.ctx.ss) == FetchBySelector(c.g, c.env, c.ctx.ss)
    ensures FrameIntact(c, t, bottom)
  {
    hide Translate, Holds, Frame, Popped, ReadDword, ReadWord, FetchBySelector, ImageFlags;
    FramePops(c, bottom, ImageFlags(c.ctx.eflags, c.cpl == 0), error, t);
    if c.cpl == 3 {
      FramePopsStack(c, bottom, ImageFlags(c.ctx.eflags, c.cpl == 0), error, t.g);
    }
  }

  lemma DeliveredIntact(c: Cpu, error: Option<Word>, t: Cpu)
    requires Settled(c) && SwitchStack(c).Ok? && FrameClear(c, error)
    requires Privilege.Shaped(t) && t.env == c.env && t.ctx.esp == SwitchStack(c).value.1
    requires Pushed(c.g, InterruptFrame(c, error), t.g)
    ensures FrameIntact(c, t, SwitchStack(c).value.1)
  {
    hide Holds, Hit, Frame, FetchBySelector, SwitchStack, DescriptorMissed, MissTables, FrameIntact, ImageFlags, Runnable, Vip, Vif;
    FetchStable(c.g, c.env, InterruptFrame(c, error), t.g, WithRpl(c.ctx.cs, c.cpl));
    if c.cpl == 3 {
      FetchStable(c.g, c.env, InterruptFrame(c, error), t.g, c.ctx.ss);
    }
    StillIntact(c, error, t, SwitchStack(c).value.1);
  }

  lemma SameStack(c: Cpu)
    requires Privilege.Shaped(c) && c.cpl == 0
    ensures SwitchStack(c) == Ok((c, Wrap(c.ctx.esp - 12)))
  {
  }

  /** The handler's state once it has popped the error code, if there was one. */
  function ErrorPopped(h: Cpu, error: Option<Word>): (t: Cpu)
    ensures Privilege.Shaped(h) ==> Privilege.Shaped(t)
  {
    if error.None? then h else h.(ctx := h.ctx.(esp := Wrap(h.ctx.esp + 4)))
  }

  /** The saved context, CPL and CR4 are those of `c`; in memory only the frame differs. */
  ghost predicate Restored(c: Cpu, error: Option<Word>, r: Cpu)
    requires Privilege.Shaped(c) && Privilege.Shaped(r) && SwitchStack(c).Ok?
  {
    && r.ctx == c.ctx && r.cpl == c.cpl && r.monCr4 == c.monCr4 && r.env == c.env
    && Pushed(c.g, InterruptFrame(c, error), r.g)
  }

  /**
   Interrupt/IRET round trip: delivery through any gate, in ring 0 or ring 3, with or
   without an error code (popped by the handler), followed by IRET, restores EIP, CS,
   EFLAGS, ESP, SS and every other saved register, the CPL and the monitor's CR4.
   */
  lemma InterruptIretRoundTrip(c: Cpu, vector: nat, soft: bool, error: Option<Word>)
    requires Settled(c) && CanReturn(c) && (c.cpl == 3 ==> DataSelectorsUserOrNull(c.ctx))
    requires Interrupt(c, vector, soft, error).Ok? && SwitchStack(c).Ok? && FrameClear(c, error)
    ensures var r := Iret(ErrorPopped(Interrupt(c, vector, soft, error).value, error));
      r.Ok? && Restored(c, error, r.value)
  {
    hide Interrupt, GateOf, FetchBySelector, SwitchStack, CanReturn, FrameClear, FrameIntact, Iret, Pushed, Frame, PushAll, GateFlags, KernelFlags, ImageFlags,
      DataSelectorsUserOrNull, InterruptFrame, Runnable, Returnable, Vip, Vif;
    InterruptEnters(c, vector, soft, error);
    var h := Interrupt(c, vector, soft, error).value;
    var t := AtFrame(c, h);
    assert ErrorPopped(h, error) == t;
    FramePushed(c, error);
    DeliveryKeeps(c.ctx.eflags, GateOf(c, vector, soft).value.typ == 14, c.cpl == 0);
    DataSelectorsKept(c.ctx, t.ctx);
    DeliveredIntact(c, error, t);
    if c.cpl == 0 {
      SameStack(c);
    }
    IretRestores(c, t, SwitchStack(c).value.1);
  }
}
