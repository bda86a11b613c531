/**
 The round trip is about something: a ring-0 guest, paging off, with one code segment and one
 interrupt gate, takes an interrupt and returns from it.
 */
module RoundTripWitness {
  import opened Words
  import opened GuestTables
  import opened GuestAccess
  import opened Eflags
  import opened Privilege
  import opened RoundTrip

  /** Four megabytes: a GDT at 0 whose slot 2 is ring-0 code, and an IDT at 0x100 whose first gate leads there. */
  function ByteAt(i: int): Byte {
    if i == 21 then 0x9a else if i == 0x102 then 0x10 else if i == 0x105 then 0x8e else 0
  }

  function FourMegabytes(): (m: Memory)
    ensures |m| == 0x40_0000 && forall i | 0 <= i < |m| :: m[i] == ByteAt(i)
  {
    seq(0x40_0000, i => ByteAt(i))
  }

  function Zero(): Descriptor {
    Descriptor(0, 0, 0, 0, 0, 0, 0, 0, 0, 0, 0, 0)
  }

  /** CS in slot 2, ESP at 0x800, interrupts enabled. */
  function Running(): (c: Cpu)
    ensures |c.gdt| == 512
  {
    Cpu(Guest(FourMegabytes(), false, false, 0, 0), Env(true, 0, 0x3f, 0x100, 0xff, Zero()),
        Context(0x400, 0x13, 0x0008_0202, 0x800, 0x1b, 0, 0, 0, 0), 0, 2, seq(512, _ => Zero()))
  }

  lemma RunningIsSettled()
    ensures Settled(Running())
  {
  }

  /** Without paging a fetch gives the eight bytes of the page. */
  lemma FetchPage(p: Word)
    requires p % 8 == 0 && p + 8 <= 4096
    ensures Fetch(Running().g, p).Ok?
    ensures Fetch(Running().g, p).value[2] == ByteAt(p + 2)
    ensures Fetch(Running().g, p).value[3] == ByteAt(p + 3)
    ensures Fetch(Running().g, p).value[5] == ByteAt(p + 5)
  {
    hide ByteAt;
  }

  lemma CodeFrom(b: seq<Byte>)
    requires |b| == 8 && b[5] == 0x9a
    ensures DecodeDescriptor(b).typ == 0x1a && DecodeDescriptor(b).dpl == 0 && DecodeDescriptor(b).p == 1
  {
  }

  lemma GateFrom(b: seq<Byte>)
    requires |b| == 8 && b[2] == 0x10 && b[3] == 0 && b[5] == 0x8e
    ensures var gate := DecodeGate(b); gate.selector == 0x10 && gate.typ == 14 && gate.dpl == 0 && gate.p == 1
  {
  }

  lemma CodeSegment()
    ensures FetchBySelector(Running().g, Running().env, 0x10).Ok?
    ensures FetchBySelector(Running().g, Running().env, 0x10).value.typ == 0x1a
    ensures FetchBySelector(Running().g, Running().env, 0x10).value.p == 1
  {
    hide Fetch, DecodeDescriptor, FourMegabytes;
    FetchPage(16);
    CodeFrom(Fetch(Running().g, 16).value);
  }

  lemma GateFound()
    ensures GateOf(Running(), 0, false).Ok? && GateOf(Running(), 0, false).value.selector == 0x10
  {
    hide FetchBySelector, Fetch, DecodeGate, FourMegabytes;
    CodeSegment();
    FetchPage(0x100);
    GateFrom(Fetch(Running().g, 0x100).value);
  }

  /** Without paging a push fails only at the end of memory or of a page. */
  lemma {:induction false} UnpagedPushes(g: Guest, writes: seq<(Word, Word)>)
    requires Sized(g.mem) && !g.pg
    requires forall i | 0 <= i < |writes| :: writes[i].0 + 4 <= |g.mem| && writes[i].0 % 4096 <= 0xffc
    ensures PushAll(g, writes).Ok? && MissTables(g, writes)
    decreases |writes|
  {
    hide PutDword;
    if writes != [] {
      UnpagedPushes(WriteDword(g, writes[0].0, writes[0].1).value, writes[1..]);
    }
  }

  lemma FrameFits()
    ensures SwitchStack(Running()).Ok? && FrameClear(Running(), None)
    ensures PushAll(Running().g, InterruptFrame(Running(), None)).Ok?
  {
    hide AsWord, ImageFlags, PushAll;
    var frame := InterruptFrame(Running(), None);
    assert |frame| == 3 && frame[0].0 == 0x7fc && frame[1].0 == 0x7f8 && frame[2].0 == 0x7f4;
    UnpagedPushes(Running().g, frame);
  }

  lemma HandlerEntered()
    ensures Interrupt(Running(), 0, false, None).Ok?
  {
    var c := Running();
    GateFound();
    FrameFits();
    CodeSegment();
    hide FetchBySelector, PushAll, FrameClear, Frame, GateOf, ImageFlags, SelectorUpdated, Pushed;
    var frame := InterruptFrame(c, None);
    FramePushed(c, None);
    var g := PushAll(c.g, frame).value;
    assert DescriptorMissed(c.g, c.env, frame, 0x10) by {
      MissesCode();
    }
    FetchStable(c.g, c.env, frame, g, 0x10);
    var gate := GateOf(c, 0, false).value;
    var c1 := c.(g := g, ctx := c.ctx.(esp := SwitchStack(c).value.1, cs := PushedDown(gate.selector), eip := gate.offset));
    SelectorAccepted(c1, true, 0x10);
  }

  lemma MissesCode()
    ensures SwitchStack(Running()).Ok? && DescriptorMissed(Running().g, Running().env, InterruptFrame(Running(), None), 0x10)
  {
    hide DescriptorMissed, Frame;
    FrameFits();
    assert FrameClear(Running(), None);
  }

  /** All that the round trip asks for holds of this guest, so it does come back. */
  lemma RoundTripHappens()
    ensures Settled(Running()) && CanReturn(Running()) && SwitchStack(Running()).Ok? && FrameClear(Running(), None)
    ensures Interrupt(Running(), 0, false, None).Ok?
    ensures var r := Iret(Interrupt(Running(), 0, false, None).value);
      r.Ok? && r.value.ctx == Running().ctx && r.value.cpl == 0
  {
    RunningIsSettled();
    FrameFits();
    HandlerEntered();
    assert CanReturn(Running()) by {
      CodeSegment();
    }
    hide Settled, CanReturn, FrameClear, Interrupt, Iret, Frame, Pushed, SwitchStack;
    InterruptIretRoundTrip(Running(), 0, false, None);
  }
}
