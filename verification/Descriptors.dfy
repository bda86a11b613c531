/**
 What guest activity may do to the monitor's own GDT: it never reaches slot 0 or the
 monitor's slots 16 to 18, nor leaves the table, and what it installs has DPL 3.
 */
module Descriptors {
  import opened Words
  import opened GuestTables
  import opened GuestAccess
  import opened Eflags
  import opened Privilege

  /** Every slot is untouched, or is a guest slot now holding a ring-3 descriptor. */
  ghost predicate Guarded(before: seq<Descriptor>, after: seq<Descriptor>) {
    && |before| == |after| == 512
    && forall slot | 0 <= slot < 512 ::
         after[slot] == before[slot] || (slot != 0 && !MonitorSlot(slot) && after[slot].dpl == 3)
  }

  lemma GuardedChain(a: seq<Descriptor>, b: seq<Descriptor>, c: seq<Descriptor>)
    requires Guarded(a, b) && Guarded(b, c)
    ensures Guarded(a, c)
  {
  }

  /** An allowed slot lies inside the GDT and is not one of the monitor's, in either VM mode. */
  lemma AllowedSlotIsGuest(linux: bool, cpl: nat, code: bool, slot: nat)
    requires SlotAllowed(linux, cpl, code, slot)
    ensures 0 < slot < 512 && !MonitorSlot(slot)
  {
  }

  /** The slot a selector names holds the eight bytes of the guest's own descriptor, with DPL 3. */
  ghost predicate Shows(g: Guest, env: Env, gdt: seq<Descriptor>, sel: Selector)
    requires Sized(g.mem)
  {
    var p := Translate(g, Wrap(env.gdtrBase + sel / 8 * 8));
    p + 8 <= |g.mem| && sel / 8 < |gdt| && gdt[sel / 8] == DecodeDescriptor(g.mem[p..p + 8]).(dpl := 3)
  }

  /** No slot but these two has changed. */
  ghost predicate OnlySlots(before: seq<Descriptor>, after: seq<Descriptor>, a: Selector, b: Selector) {
    |before| == |after| && forall slot | 0 <= slot < |before| && slot != a / 8 && slot != b / 8 :: after[slot] == before[slot]
  }

  /** `sel | 3` names the slot `sel` names. */
  lemma SameSlot(g: Guest, env: Env, gdt: seq<Descriptor>, sel: Selector)
    requires Sized(g.mem)
    ensures PushedDown(sel) / 8 == sel / 8 && Shows(g, env, gdt, PushedDown(sel)) == Shows(g, env, gdt, sel)
  {
    hide Translate, DecodeDescriptor, Wrap, PushedDown, Rpl;
    Eighths(sel);
    Eighths(PushedDown(sel));
  }

  lemma Eighths(sel: Selector)
    ensures sel / 8 == sel / 4 / 2
  {
  }

  lemma SelectorUpdatedGuards(c: Cpu, code: bool, sel: Selector)
    requires Shaped(c) && SelectorUpdated(c, code, sel).Ok?
    ensures var gdt := SelectorUpdated(c, code, sel).value.gdt;
      && Guarded(c.gdt, gdt) && OnlySlots(c.gdt, gdt, sel, sel)
      && (code || !Null(sel) ==> Shows(c.g, c.env, gdt, sel))
      && (!code && Null(sel) ==> gdt == c.gdt)
  {
    hide Translate, DecodeDescriptor, Wrap;
    if code || !Null(sel) {
      AllowedSlotIsGuest(c.env.linux, c.cpl, code, Index(sel));
    }
  }

  /** What is demanded of the selector, the guest's descriptor and the slot, by mode and privilege level. */
  ghost predicate Admitted(c: Cpu, code: bool, sel: Selector)
    requires Shaped(c)
  {
    var p, slot := Translate(c.g, Wrap(c.env.gdtrBase + sel / 8 * 8)), sel / 8;
    && sel / 4 % 2 == 0 && 8 * slot + 7 <= c.env.gdtrLimit && p % 8 == 0 && p + 8 <= |c.g.mem|
    && c.g.mem[p + 5] / 32 % 4 == sel % 4
    && (if !c.env.linux then sel % 4 == 3 && (0 < slot < 16 || 18 < slot < 512)
        else
          && (sel % 4 == 0 || sel % 4 == 3)
          && (if code then slot == (if c.cpl == 0 then 2 else 4) else slot == 5 || (c.cpl == 0 && slot == 3)))
  }

  /** A selector is accepted exactly when it is admitted, or is a null data selector. */
  lemma SelectorUpdatedIff(c: Cpu, code: bool, sel: Selector)
    requires Shaped(c)
    ensures SelectorUpdated(c, code, sel).Ok? <==> (!code && sel < 4) || Admitted(c, code, sel)
  {
    hide Fetch, Translate, Wrap, Join2, Null, MonitorSlot, SlotAllowed;
    FetchedIff(c.g, DescriptorAddr(c.env, sel));
    NullIff(sel);
    SlotAllowedIff(c.env.linux, c.cpl, code, sel / 8);
  }

  lemma FetchedIff(g: Guest, l: Word)
    requires Sized(g.mem)
    ensures var p := Translate(g, l);
      && (Fetch(g, l).Ok? <==> p % 8 == 0 && p + 8 <= |g.mem|)
      && (Fetch(g, l).Ok? ==> Fetch(g, l).value == g.mem[p..p + 8])
  {
    hide Translate;
  }

  lemma NullIff(sel: Selector)
    ensures Null(sel) <==> sel < 4
    ensures sel / 4 % 2 == 0 && sel / 8 == 0 ==> sel < 4
  {
  }

  lemma SlotAllowedIff(linux: bool, cpl: nat, code: bool, slot: nat)
    ensures SlotAllowed(linux, cpl, code, slot) <==>
      if !linux then 0 < slot < 16 || 18 < slot < 512
      else if code then slot == (if cpl == 0 then 2 else 4)
      else slot == 5 || (cpl == 0 && slot == 3)
  {
  }

  /** A segment load installs the descriptor it names and touches no other slot. */
  lemma LoadSegmentGuards(c: Cpu, seg: Segment, sel: Selector)
    requires Shaped(c) && LoadSegment(c, seg, sel).Ok?
    ensures var gdt := LoadSegment(c, seg, sel).value.gdt;
      Guarded(c.gdt, gdt) && OnlySlots(c.gdt, gdt, sel, sel) && Shows(c.g, c.env, gdt, sel)
  {
    hide SelectorUpdated, Fetch, Guarded, OnlySlots, Shows, Translate;
    SelectorUpdatedGuards(c.(ctx := Selected(c.ctx, seg, sel)), seg == CS, sel);
  }

  lemma SwitchStackGuards(c: Cpu)
    requires Shaped(c) && SwitchStack(c).Ok?
    ensures var c1 := SwitchStack(c).value.0;
      && Guarded(c.gdt, c1.gdt)
      && (if c.cpl == 0 then c1.gdt == c.gdt else OnlySlots(c.gdt, c1.gdt, c1.ctx.ss, c1.ctx.ss) && Shows(c.g, c.env, c1.gdt, c1.ctx.ss))
  {
    hide SelectorUpdated, ReadDword, ReadWord, FetchBySelector, Translate, Shows;
    if c.cpl != 0 {
      var (esp, ss) := TssStack(c).value;
      SelectorUpdatedGuards(c.(cpl := 0, ctx := c.ctx.(ss := PushedDown(ss), esp := esp)), false, ss);
      SameSlot(c.g, c.env, SwitchStack(c).value.0.gdt, ss);
    }
  }

  /**
   Delivery installs the descriptors of the handler's code segment, as guest memory has them once the frame is pushed, and of
   its stack if that changed; no other slot changes.
   */
  lemma InterruptGuards(c: Cpu, vector: nat, soft: bool, error: Option<Word>)
    requires Shaped(c) && Interrupt(c, vector, soft, error).Ok?
    ensures var h := Interrupt(c, vector, soft, error).value;
      && Guarded(c.gdt, h.gdt) && Shows(h.g, h.env, h.gdt, h.ctx.cs)
      && OnlySlots(c.gdt, h.gdt, h.ctx.cs, if c.cpl == 0 then h.ctx.cs else h.ctx.ss)
      && (c.cpl != 0 && h.ctx.ss / 8 != h.ctx.cs / 8 ==> Shows(c.g, c.env, h.gdt, h.ctx.ss))
  {
    hide SelectorUpdated, SwitchStack, GateOf, PushAll, Frame, HandlerFlags, ImageFlags, Guarded, Translate, DecodeDescriptor, Wrap;
    SwitchStackGuards(c);
    var gate := GateOf(c, vector, soft).value;
    var (c1, bottom) := SwitchStack(c).value;
    var esp := BelowError(bottom, error);
    var g := PushAll(c1.g, Frame(c, bottom, ImageFlags(c.ctx.eflags, c.env.linux && c.cpl == 0), error)).value;
    var c2 := c1.(g := g, ctx := c1.ctx.(esp := esp, cs := PushedDown(gate.selector), eip := gate.offset));
    SelectorUpdatedGuards(c2, true, gate.selector);
    var gdt := SelectorUpdated(c2, true, gate.selector).value.gdt;
    SameSlot(g, c.env, gdt, gate.selector);
    GuardedChain(c.gdt, c1.gdt, gdt);
  }

  lemma ReturnStackGuards(c: Cpu, cs: Selector)
    requires Shaped(c) && ReturnStack(c, cs).Ok?
    ensures var c1 := ReturnStack(c, cs).value;
      Guarded(c.gdt, c1.gdt) && OnlySlots(c.gdt, c1.gdt, c1.ctx.ss, c1.ctx.ss) && Shows(c.g, c.env, c1.gdt, c1.ctx.ss) && c1.g == c.g && c1.env == c.env
  {
    hide SelectorUpdated, ReadDword, ReadWord, FetchBySelector, Guarded, DataSelectorsUserOrNull, Shows, Translate;
    var esp := ReadDword(c.g, Wrap(c.ctx.esp + 12)).value;
    var ss := ReadWord(c.g, Wrap(c.ctx.esp + 16)).value;
    SelectorUpdatedGuards(c.(cpl := 3, ctx := c.ctx.(ss := PushedDown(ss), esp := esp)), false, ss);
    SameSlot(c.g, c.env, ReturnStack(c, cs).value.gdt, ss);
  }

  /** What a return installs: the code segment's descriptor, and the stack's if that changes. */
  ghost predicate Returned(c: Cpu, r: Cpu, outer: bool)
    requires Shaped(c)
  {
    && Guarded(c.gdt, r.gdt) && Shows(c.g, c.env, r.gdt, r.ctx.cs)
    && OnlySlots(c.gdt, r.gdt, r.ctx.cs, if outer then r.ctx.ss else r.ctx.cs)
    && (outer && r.ctx.ss / 8 != r.ctx.cs / 8 ==> Shows(c.g, c.env, r.gdt, r.ctx.ss))
  }

  lemma ReturnToGuards(c: Cpu, eip: Word, cs: Selector)
    requires Shaped(c) && ReturnTo(c, eip, cs).Ok?
    ensures Returned(c, ReturnTo(c, eip, cs).value, Rpl(cs) > c.cpl)
  {
    hide SelectorUpdated, ReturnStack, FetchBySelector, Guarded, Translate, DecodeDescriptor, Wrap;
    var c1 := if Rpl(cs) > c.cpl then ReturnStack(c, cs).value else c.(ctx := c.ctx.(esp := Wrap(c.ctx.esp + 12)));
    if Rpl(cs) > c.cpl {
      ReturnStackGuards(c, cs);
    }
    var c2 := c1.(ctx := c1.ctx.(cs := PushedDown(cs), eip := eip));
    SelectorUpdatedGuards(c2, true, cs);
    var gdt := SelectorUpdated(c2, true, cs).value.gdt;
    SameSlot(c.g, c.env, gdt, cs);
    if Rpl(cs) > c.cpl {
      GuardedChain(c.gdt, c1.gdt, gdt);
    }
  }

  /** IRET installs the descriptors of the code segment it returns to, and of the stack if it returns outwards; no other slot changes. */
  lemma IretGuards(c: Cpu)
    requires Shaped(c) && Iret(c).Ok?
    ensures Popped(c).Ok? && Returned(c, Iret(c).value, Rpl(Popped(c).value.1) > c.cpl)
  {
    hide ReturnTo, Popped, ReturnFlags, ReturnRefused, ReturnSelectorBad, Returned, Guarded, OnlySlots, Shows, Translate;
    var (eip, cs, image) := Popped(c).value;
    ReturnToGuards(c, eip, cs);
    ReturnedSame(c, ReturnTo(c, eip, cs).value, Iret(c).value, Rpl(cs) > c.cpl);
  }

  lemma ReturnedSame(c: Cpu, r: Cpu, r': Cpu, outer: bool)
    requires Shaped(c) && Returned(c, r, outer) && r'.gdt == r.gdt && r'.ctx == r.ctx.(eflags := r'.ctx.eflags)
    ensures Returned(c, r', outer)
  {
    hide Guarded, OnlySlots, Shows, Translate;
  }
}
