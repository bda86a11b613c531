/**
 When a ring-3 guest can take an interrupt at all: what its gate, its TSS and its kernel stack must be like
 for delivery to succeed, and so for the round trip to happen.
 */
module InterruptTaken {
  import opened Words
  import opened GuestTables
  import opened GuestAccess
  import opened Eflags
  import opened Privilege
  import opened RoundTrip

  /** Five dwords from `bottom` up fit, are not page tables, and lie at or above `bottom` in memory. */
  ghost predicate StackOk(g: Guest, bottom: Word)
    requires Sized(g.mem)
  {
    && bottom + 16 < 0x1_0000_0000
    && forall l: Word | bottom <= l <= bottom + 16 ::
         Fits(g, l) && !TablePage(g, Translate(g, l) / 4096) && bottom <= Translate(g, l)
  }

  predicate Below(g: Guest, env: Env, sel: Selector, bottom: Word)
    requires Sized(g.mem)
  {
    Translate(g, DescriptorAddr(env, sel)) + 8 <= bottom
  }

  /** A gate to the kernel's code segment, open to INT if it is one, whose descriptor lies below the stack. */
  ghost predicate GateGood(c: Cpu, vector: nat, soft: bool, bottom: Word)
    requires Privilege.Shaped(c)
  {
    && GateOf(c, vector, soft).Ok? && Index(GateOf(c, vector, soft).value.selector) == 2
    && Below(c.g, c.env, GateOf(c, vector, soft).value.selector, bottom)
  }

  /** A kernel stack in the TSS with room for a frame. */
  ghost predicate StackGood(c: Cpu, esp: Word, ss: Selector)
    requires Privilege.Shaped(c)
  {
    TssStack(c) == Ok((esp, ss)) && Index(ss) == 3 && 20 <= esp && StackOk(c.g, esp - 20)
  }

  /** A ring-3 guest with a gate, a kernel stack and descriptors, the last all below the stack. */
  ghost predicate CanTake(c: Cpu, vector: nat, soft: bool, esp: Word, ss: Selector) {
    && Settled(c) && c.cpl == 3 && DataSelectorsUserOrNull(c.ctx) && CanReturn(c)
    && StackGood(c, esp, ss) && GateGood(c, vector, soft, esp - 20)
    && Below(c.g, c.env, WithRpl(c.ctx.cs, 3), esp - 20) && Below(c.g, c.env, c.ctx.ss, esp - 20)
  }

  lemma Switches(c: Cpu, esp: Word, ss: Selector)
    requires Privilege.Shaped(c) && c.env.linux && c.cpl == 3 && TssStack(c) == Ok((esp, ss)) && Index(ss) == 3 && 20 <= esp
    ensures SwitchStack(c).Ok?
    ensures SwitchStack(c).value.1 == esp - 20 && SwitchStack(c).value.0.cpl == 0
  {
    hide TssStack, SelectorUpdated, FetchBySelector, Rpl, Index, Wrap, PushedDown;
    SelectorAccepted(c.(cpl := 0, ctx := c.ctx.(ss := PushedDown(ss), esp := esp)), false, ss);
    BelowTop(esp);
  }

  lemma BelowTop(esp: Word)
    requires 20 <= esp
    ensures Wrap(esp - 20) == esp - 20
  {
  }

  /** The frame of a ring-3 interrupt is the five dwords from its bottom up. */
  lemma FrameRange(c: Cpu, bottom: Word, i: nat)
    requires Privilege.Shaped(c) && c.cpl == 3 && SwitchStack(c).Ok? && SwitchStack(c).value.1 == bottom && bottom + 16 < 0x1_0000_0000
    requires i < |InterruptFrame(c, None)|
    ensures bottom <= InterruptFrame(c, None)[i].0 <= bottom + 16
  {
    hide SwitchStack, ImageFlags, AsWord, WithRpl;
  }

  /** Pushes that fit and miss the live tables succeed. */
  lemma {:induction false} PushesSucceed(g: Guest, writes: seq<(Word, Word)>)
    requires Sized(g.mem) && MissTables(g, writes) && forall i | 0 <= i < |writes| :: Fits(g, writes[i].0)
    ensures PushAll(g, writes).Ok?
    decreases |writes|
  {
    hide Translate, TablePage, PutDword;
    if writes != [] {
      var (a, v) := writes[0];
      var rest := writes[1..];
      assert Fits(g, writes[0].0);
      StoreMissesTables(g, Translate(g, a), v);
      var g1 := WriteDword(g, a, v).value;
      forall i | 0 <= i < |rest|
        ensures !TablePage(g1, Translate(g1, rest[i].0) / 4096) && Fits(g1, rest[i].0)
      {
        assert rest[i] == writes[i + 1];
        assert Fits(g, writes[i + 1].0);
      }
      PushesSucceed(g1, rest);
    }
  }

  /** A stack that is fit for it takes any frame within it, and no descriptor below it is touched. */
  lemma StackTakes(g: Guest, env: Env, bottom: Word, writes: seq<(Word, Word)>)
    requires Sized(g.mem) && StackOk(g, bottom) && forall i | 0 <= i < |writes| :: bottom <= writes[i].0 <= bottom + 16
    ensures MissTables(g, writes) && PushAll(g, writes).Ok?
    ensures forall sel: Selector | Below(g, env, sel, bottom) :: DescriptorMissed(g, env, writes, sel)
  {
    hide Translate, Fits, TablePage, PushAll, DescriptorAddr;
    forall i | 0 <= i < |writes|
      ensures Fits(g, writes[i].0) && !TablePage(g, Translate(g, writes[i].0) / 4096) && bottom <= Translate(g, writes[i].0)
    {
    }
    PushesSucceed(g, writes);
  }

  lemma FrameFits(c: Cpu, vector: nat, soft: bool, esp: Word, ss: Selector)
    requires CanTake(c, vector, soft, esp, ss)
    ensures SwitchStack(c).Ok? && SwitchStack(c).value.0.cpl == 0
    ensures FrameClear(c, None) && PushAll(c.g, InterruptFrame(c, None)).Ok?
    ensures DescriptorMissed(c.g, c.env, InterruptFrame(c, None), GateOf(c, vector, soft).value.selector)
  {
    hide TssStack, SwitchStack, GateOf, PushAll, MissTables, DescriptorMissed, InterruptFrame, CanReturn, StackOk, Below, DataSelectorsUserOrNull;
    Switches(c, esp, ss);
    assert esp - 20 + 16 < 0x1_0000_0000;
    var frame := InterruptFrame(c, None);
    forall i | 0 <= i < |frame|
      ensures esp - 20 <= frame[i].0 <= esp - 20 + 16
    {
      FrameRange(c, esp - 20, i);
    }
    StackTakes(c.g, c.env, esp - 20, frame);
  }

  /** With the frame pushed, the handler's code segment is still there to load. */
  lemma HandlerLoads(c: Cpu, vector: nat, soft: bool, esp: Word, ss: Selector, c2: Cpu)
    requires CanTake(c, vector, soft, esp, ss) && SwitchStack(c).Ok? && PushAll(c.g, InterruptFrame(c, None)).Ok?
    requires Privilege.Shaped(c2) && c2.cpl == 0 && c2.env == c.env && c2.g == PushAll(c.g, InterruptFrame(c, None)).value
    ensures SelectorUpdated(c2, true, GateOf(c, vector, soft).value.selector).Ok?
  {
    hide TssStack, SwitchStack, GateOf, PushAll, FrameClear, DescriptorMissed, InterruptFrame, SelectorUpdated, FetchBySelector, Pushed, CanReturn, StackOk, Below, Index, Rpl;
    FrameFits(c, vector, soft, esp, ss);
    FramePushed(c, None);
    FetchStable(c.g, c.env, InterruptFrame(c, None), c2.g, GateOf(c, vector, soft).value.selector);
    SelectorAccepted(c2, true, GateOf(c, vector, soft).value.selector);
  }

  /** Delivery, from its parts. */
  lemma Delivers(c: Cpu, vector: nat, soft: bool)
    requires Privilege.Shaped(c) && c.env.linux && GateOf(c, vector, soft).Ok? && SwitchStack(c).Ok? && SwitchStack(c).value.0.cpl == 0
    requires PushAll(c.g, InterruptFrame(c, None)).Ok?
    requires forall c2: Cpu | Privilege.Shaped(c2) && c2.cpl == 0 && c2.env == c.env && c2.g == PushAll(c.g, InterruptFrame(c, None)).value ::
      SelectorUpdated(c2, true, GateOf(c, vector, soft).value.selector).Ok?
    ensures Interrupt(c, vector, soft, None).Ok?
  {
    hide GateOf, SwitchStack, PushAll, Frame, SelectorUpdated, ImageFlags, GateFlags, KernelFlags;
  }

  /** Every such guest takes the interrupt, and the round trip brings it back. */
  lemma TakesInterrupt(c: Cpu, vector: nat, soft: bool, esp: Word, ss: Selector)
    requires CanTake(c, vector, soft, esp, ss)
    ensures SwitchStack(c).Ok? && Interrupt(c, vector, soft, None).Ok?
    ensures var r := Iret(ErrorPopped(Interrupt(c, vector, soft, None).value, None));
      r.Ok? && Restored(c, None, r.value)
  {
    hide TssStack, GateOf, SwitchStack, PushAll, FrameClear, InterruptFrame, SelectorUpdated, Interrupt, CanReturn, StackOk, Below, DescriptorMissed, Index, Iret, Restored, DataSelectorsUserOrNull;
    FrameFits(c, vector, soft, esp, ss);
    forall c2: Cpu | Privilege.Shaped(c2) && c2.cpl == 0 && c2.env == c.env && c2.g == PushAll(c.g, InterruptFrame(c, None)).value
      ensures SelectorUpdated(c2, true, GateOf(c, vector, soft).value.selector).Ok?
    {
      HandlerLoads(c, vector, soft, esp, ss, c2);
    }
    Delivers(c, vector, soft);
    InterruptIretRoundTrip(c, vector, soft, None);
  }
}
