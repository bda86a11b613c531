/**
 Delivery and return read off guest memory: which handler is entered, on which stack, with which error code, and
 where IRET goes.
 */
module Delivery {
  import opened Words
  import opened GuestTables
  import opened GuestAccess
  import opened Eflags
  import opened Privilege
  import opened Descriptors
  import opened RoundTrip

  /** The access byte of the guest descriptor a selector names, which lies inside the GDT and inside memory. */
  ghost predicate AccessIs(g: Guest, env: Env, sel: Selector, access: nat)
    requires Sized(g.mem)
  {
    var p := Translate(g, Wrap(env.gdtrBase + sel / 8 * 8));
    sel / 8 * 8 + 7 <= env.gdtrLimit && p % 8 == 0 && p + 8 <= |g.mem| && g.mem[p + 5] == access
  }

  /** A fetched descriptor of this type, at the selector's own ring and present, is one access byte. */
  lemma AccessIff(g: Guest, env: Env, sel: Selector, typ: nat)
    requires Sized(g.mem) && typ < 32
    ensures var d := FetchBySelector(g, env, sel);
      (d.Ok? && d.value.typ == typ && d.value.p != 0) <==> sel / 4 % 2 == 0 && sel >= 4 && AccessIs(g, env, sel, typ + 32 * (sel % 4) + 128)
  {
    hide Fetch, Translate, Wrap, Join2;
    var p := Translate(g, DescriptorAddr(env, sel));
    FetchedIff(g, DescriptorAddr(env, sel));
    NullIff(sel);
    if p + 8 <= |g.mem| {
      AccessSplits(g.mem[p + 5], typ, sel % 4);
    }
  }

  lemma AccessSplits(x: Byte, typ: nat, dpl: nat)
    requires typ < 32 && dpl < 4
    ensures x == typ + 32 * dpl + 128 <==> x % 32 == typ && x / 32 % 4 == dpl && x / 128 != 0
  {
    AccessByte(x);
    if x == typ + 32 * dpl + 128 {
      assert x / 32 == dpl + 4;
    }
  }

  /**
   The gate of a vector, byte by byte: inside an aligned IDT, present, a 32-bit interrupt or trap gate, open to the interrupted ring
   for INT, and leading to a present ring-0 code segment.
   */
  ghost predicate GateAt(c: Cpu, vector: nat, soft: bool, eip: Word, cs: Selector, interruptGate: bool)
    requires Privilege.Shaped(c)
  {
    var p, m := Translate(c.g, Wrap(c.env.idtrBase + 8 * vector)), c.g.mem;
    && 8 * vector + 7 <= c.env.idtrLimit && c.env.idtrBase % 8 == 0 && p % 8 == 0 && p + 8 <= |m|
    && eip == Word16(m, p) + 0x1_0000 * Word16(m, p + 6)
    && Word16(m, p + 2) % 8 == 0 && Word16(m, p + 2) > 0 && cs == Word16(m, p + 2) + 3 && AccessIs(c.g, c.env, cs, 0x9a)
    && m[p + 5] / 128 == 1 && m[p + 5] % 32 == (if interruptGate then 14 else 15) && (soft ==> c.cpl <= m[p + 5] / 32 % 4)
  }

  /** An interrupt finds its gate exactly when there is one. */
  lemma GateOnMemory(c: Cpu, vector: nat, soft: bool, eip: Word, cs: Selector, interruptGate: bool)
    requires Privilege.Shaped(c)
    ensures var r := GateOf(c, vector, soft);
      r.Ok? && eip == r.value.offset && cs == PushedDown(r.value.selector) && interruptGate == (r.value.typ == 14)
      <==> GateAt(c, vector, soft, eip, cs, interruptGate)
  {
    hide FetchBySelector, Fetch, AccessIs, Translate, Wrap;
    FetchedIff(c.g, Wrap(c.env.idtrBase + vector * 8));
    var p := Translate(c.g, Wrap(c.env.idtrBase + vector * 8));
    if p + 8 <= |c.g.mem| {
      var sel := Word16(c.g.mem, p + 2);
      AccessIff(c.g, c.env, sel, 0x1a);
      Aligned(sel, cs);
      SameAccess(c.g, c.env, sel, cs, 0x9a);
    }
  }

  lemma Aligned(sel: Selector, cs: Selector)
    ensures Rpl(sel) == 0 && sel / 4 % 2 == 0 <==> sel % 8 == 0
    ensures sel % 4 == 0 ==> PushedDown(sel) == sel + 3
  {
  }

  lemma SameAccess(g: Guest, env: Env, sel: Selector, sel': Selector, access: nat)
    requires Sized(g.mem)
    ensures sel % 8 == 0 && sel' == sel + 3 ==> AccessIs(g, env, sel', access) == AccessIs(g, env, sel, access)
  {
    hide Translate, Wrap;
    if sel % 8 == 0 && sel' == sel + 3 {
      assert sel' / 8 == sel / 8;
    }
  }

  /**
   The handler: EIP is the gate's first and last word, CS its second word at RPL 3, in ring 0 with VM, RF, NT and TF clear, and the
   guest's interrupts are off through an interrupt gate, as they were through a trap gate.
   */
  lemma HandlerAddress(c: Cpu, vector: nat, soft: bool, error: Option<Word>) returns (interruptGate: bool)
    requires Privilege.Shaped(c) && c.env.linux && (c.cpl == 0 || c.cpl == 3) && Interrupt(c, vector, soft, error).Ok?
    ensures var h := Interrupt(c, vector, soft, error).value;
      && GateAt(c, vector, soft, h.ctx.eip, h.ctx.cs, interruptGate) && h.cpl == 0
      && GuestIf(h.ctx.eflags, true) == (!interruptGate && GuestIf(c.ctx.eflags, c.cpl == 0)) && Clear(h.ctx.eflags, 0x0003_4100)
  {
    hide Interrupt, GateOf, GateAt, FetchBySelector, SwitchStack, PushAll, InterruptFrame, KernelFlags, GateFlags, ImageFlags, GuestIf, Clear;
    InterruptEnters(c, vector, soft, error);
    interruptGate := GateOf(c, vector, soft).value.typ == 14;
    var h := Interrupt(c, vector, soft, error).value;
    GateOnMemory(c, vector, soft, h.ctx.eip, h.ctx.cs, interruptGate);
    DeliveryMasks(c.ctx.eflags, interruptGate, c.cpl == 0);
    DeliveryClears(c.ctx.eflags, interruptGate, c.cpl == 0);
  }

  /** The kernel stack of a busy TSS that has room for it: ESP0 at offset 4 and SS0, a present ring-0 data segment, at offset 8. */
  ghost predicate StackAt(c: Cpu, esp: Word, ss: Selector)
    requires Privilege.Shaped(c)
  {
    var base := c.env.tr.baseLow + 0x1_0000 * c.env.tr.baseMed + 0x100_0000 * c.env.tr.baseHigh;
    var raw := ReadWord(c.g, Wrap(base + 8));
    && c.env.tr.typ == 11 && 11 <= SegmentLimit(c.env.tr)
    && ReadDword(c.g, Wrap(base + 4)) == Ok(esp) && raw.Ok?
    && raw.value % 8 == 0 && raw.value > 0 && ss == raw.value + 3 && AccessIs(c.g, c.env, ss, 0x92)
  }

  lemma StackOnMemory(c: Cpu, esp: Word, ss: Selector)
    requires Privilege.Shaped(c)
    ensures TssStack(c).Ok? && esp == TssStack(c).value.0 && ss == PushedDown(TssStack(c).value.1) <==> StackAt(c, esp, ss)
  {
    hide FetchBySelector, AccessIs, ReadDword, ReadWord, Translate, Wrap, Null;
    var raw := ReadWord(c.g, Wrap(SegmentBase(c.env.tr) + 8));
    if raw.Ok? {
      NullIff(raw.value);
      AccessIff(c.g, c.env, raw.value, 0x12);
      Aligned(raw.value, ss);
      SameAccess(c.g, c.env, raw.value, ss, 0x92);
    }
  }

  lemma StackEntered(c: Cpu, vector: nat, soft: bool, error: Option<Word>)
    requires Privilege.Shaped(c) && c.cpl != 0 && Interrupt(c, vector, soft, error).Ok?
    ensures var h := Interrupt(c, vector, soft, error).value;
      && TssStack(c).Ok? && h.ctx.ss == PushedDown(TssStack(c).value.1)
      && h.ctx.esp == BelowError(Wrap(TssStack(c).value.0 - 20), error)
  {
    hide GateOf, TssStack, FetchBySelector, SelectorUpdated, PushAll, Frame, HandlerFlags, ImageFlags, PushedDown, Wrap;
  }

  /** The handler's stack: from ring 3 the one the TSS names, from ring 0 the one in use, below the frame. */
  lemma HandlerStack(c: Cpu, vector: nat, soft: bool, error: Option<Word>)
    requires Privilege.Shaped(c) && c.env.linux && (c.cpl == 0 || c.cpl == 3) && Interrupt(c, vector, soft, error).Ok?
    ensures var h := Interrupt(c, vector, soft, error).value;
      var size := if error.None? then 0 else 4;
      if c.cpl == 0 then h.ctx.ss == c.ctx.ss && h.ctx.esp == Wrap(c.ctx.esp - 12 - size)
      else exists top: Word :: StackAt(c, top, h.ctx.ss) && h.ctx.esp == Wrap(top - 20 - size)
  {
    hide Interrupt, GateOf, TssStack, FetchBySelector, StackAt, PushAll, InterruptFrame, KernelFlags, GateFlags, ImageFlags, SelectorUpdated, Wrap;
    if c.cpl == 0 {
      InterruptEnters(c, vector, soft, error);
      WrapTwice(c.ctx.esp - 12);
    } else {
      StackEntered(c, vector, soft, error);
      StackOnMemory(c, TssStack(c).value.0, PushedDown(TssStack(c).value.1));
      WrapTwice(TssStack(c).value.0 - 20);
    }
  }

  lemma WrapTwice(x: int)
    ensures Wrap(Wrap(x) - 4) == Wrap(x - 4)
  {
  }

  /** The handler finds its error code on top of its stack. */
  lemma ErrorCodeReads(c: Cpu, vector: nat, soft: bool, code: Word)
    requires Privilege.Shaped(c) && c.env.linux && (c.cpl == 0 || c.cpl == 3)
    requires Interrupt(c, vector, soft, Some(code)).Ok? && SwitchStack(c).Ok? && FrameClear(c, Some(code))
    ensures var h := Interrupt(c, vector, soft, Some(code)).value; ReadDword(h.g, h.ctx.esp) == Ok(code)
  {
    hide Interrupt, GateOf, SwitchStack, PushAll, Pushed, FrameClear, KernelFlags, GateFlags, ImageFlags, ReadDword, ReadWord, Translate, Holds;
    InterruptEnters(c, vector, soft, Some(code));
    FramePushed(c, Some(code));
    PushedHolds(c.g, InterruptFrame(c, Some(code)), Interrupt(c, vector, soft, Some(code)).value.g);
    FrameReads(c.g, InterruptFrame(c, Some(code)), Interrupt(c, vector, soft, Some(code)).value.g, |InterruptFrame(c, Some(code))| - 1);
  }

  lemma PushedHolds(g: Guest, writes: seq<(Word, Word)>, g': Guest)
    requires Sized(g.mem) && Sized(g'.mem) && Pushed(g, writes, g')
    ensures Holds(g, writes, g')
  {
  }

  // ---------------------------------------------------------------- return

  /** The code segment, stack and level a return loads. */
  ghost predicate Loads(c: Cpu, r: Cpu, eip: Word, cs: Selector)
    requires Privilege.Shaped(c)
  {
    && r.ctx.eip == eip && r.ctx.cs == cs / 4 * 4 + 3 && AccessIs(c.g, c.env, cs, if cs % 4 == 0 then 0x9a else 0xfa)
    && (if cs % 4 == c.cpl then r.cpl == c.cpl && r.ctx.ss == c.ctx.ss && r.ctx.esp == Wrap(c.ctx.esp + 12)
        else
          var esp, ss := ReadDword(c.g, Wrap(c.ctx.esp + 12)), ReadWord(c.g, Wrap(c.ctx.esp + 16));
          && r.cpl == 3 && esp == Ok(r.ctx.esp) && ss.Ok? && ss.value % 4 == 3 && r.ctx.ss == ss.value
          && AccessIs(c.g, c.env, ss.value, 0xf2) && DataSelectorsUserOrNull(c.ctx))
    && r.ctx == c.ctx.(eip := r.ctx.eip, cs := r.ctx.cs, ss := r.ctx.ss, esp := r.ctx.esp, eflags := r.ctx.eflags)
    && r.g == c.g && r.env == c.env
  }

  lemma ReturnLoads(c: Cpu, eip: Word, cs: Selector)
    requires Privilege.Shaped(c) && (cs % 4 == 0 || cs % 4 == 3) && c.cpl <= cs % 4 && (c.cpl == 0 || c.cpl == 3)
    ensures ReturnTo(c, eip, cs).Ok? ==> Loads(c, ReturnTo(c, eip, cs).value, eip, cs)
  {
    hide ReadDword, ReadWord, Wrap, FetchBySelector, SelectorUpdated, AccessIs, Translate;
    AccessIff(c.g, c.env, cs, 0x1a);
    var ss := ReadWord(c.g, Wrap(c.ctx.esp + 16));
    if ss.Ok? {
      AccessIff(c.g, c.env, ss.value, 0x12);
    }
  }

  /**
   What IRET pops at ESP: EIP, CS and the flags, then ESP and SS if it returns to ring 3. The flags have IOPL=0 and VM=0, IF equal to VIF
   for a return to ring 0 and set for one to ring 3; the code segment is a present GDT segment of ring 0 or 3, never further in. NT must
   be clear before.
   */
  ghost predicate ReturnsTo(c: Cpu, r: Cpu)
    requires Privilege.Shaped(c)
  {
    var eip, cs, raw := ReadDword(c.g, c.ctx.esp), ReadWord(c.g, Wrap(c.ctx.esp + 4)), ReadDword(c.g, Wrap(c.ctx.esp + 8));
    && eip.Ok? && cs.Ok? && raw.Ok? && Clear(c.ctx.eflags, 0x0000_4000) && Clear(AsFlags(raw.value), 0x0002_3000)
    && (cs.value % 4 == 0 ==> If(AsFlags(raw.value)) == Vif(AsFlags(raw.value))) && (c.cpl == 0 && cs.value % 4 == 3 ==> If(AsFlags(raw.value)))
    && cs.value / 4 % 2 == 0 && (cs.value % 4 == 0 || cs.value % 4 == 3) && c.cpl <= cs.value % 4
    && Loads(c, r, eip.value, cs.value)
  }

  lemma IretPops(c: Cpu)
    requires Privilege.Shaped(c) && (c.cpl == 0 || c.cpl == 3) && Iret(c).Ok?
    ensures ReturnsTo(c, Iret(c).value)
  {
    hide ReadDword, ReadWord, Wrap, ReturnTo, AccessIs, DataSelectorsUserOrNull, ReturnFlags, Clear, AsFlags, If, Vif, Pvi;
    var (eip, cs, image) := Popped(c).value;
    ReturnLoads(c, eip, cs);
  }
}
