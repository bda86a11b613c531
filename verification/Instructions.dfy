/**
 Where the guest goes on after an instruction the monitor carried out for it, and after a fault it passed on.
 */
module Instructions {
  import opened Words
  import opened GuestTables
  import opened GuestAccess
  import opened Eflags
  import opened Privilege
  import opened RoundTrip
  import opened Delivery
  import opened Resume
  import Io
  import Pic
  import Clock

  /** The hypotheses of the round trip on the interrupted state: it may run, and IRET accepts its segments. */
  ghost predicate Returns(c: Cpu) {
    Settled(c) && CanReturn(c) && (c.cpl == 3 ==> DataSelectorsUserOrNull(c.ctx))
  }

  lemma AdvancedReturns(c: Cpu, len: nat)
    requires Returns(c)
    ensures Returns(Advance(c, len))
  {
    hide Runnable, Vip, Vif, DataSelectorsUserOrNull, SegmentOk, SlotAllowed, Wrap;
    DataSelectorsKept(c.ctx, Advance(c, len).ctx);
  }

  /** The handler of `h` pops any error code and returns to the context `ctx` of `c`, in its ring. */
  ghost predicate ComesBack(c: Cpu, ctx: Context, error: Option<Word>, h: Cpu)
    requires Privilege.Shaped(h)
  {
    var r := Iret(ErrorPopped(h, error));
    r.Ok? && r.value.ctx == ctx && r.value.cpl == c.cpl && r.value.monCr4 == c.monCr4
  }

  lemma DeliveryComesBack(c: Cpu, vector: nat, soft: bool, error: Option<Word>)
    requires Returns(c) && Interrupt(c, vector, soft, error).Ok? && SwitchStack(c).Ok? && FrameClear(c, error)
    ensures ComesBack(c, c.ctx, error, Interrupt(c, vector, soft, error).value)
  {
    assert Privilege.Shaped(c);
    hide Interrupt, SwitchStack, FrameClear, CanReturn, Settled, Iret, InterruptFrame, DataSelectorsUserOrNull, Pushed;
    InterruptIretRoundTrip(c, vector, soft, error);
  }

  /** `int $n`, in ring 3 or in the kernel: the handler is the one gate n names, and its IRET returns behind the instruction. */
  lemma IntReturnsBehind(vm: Vm, vector: nat, memory: Memory, len: nat)
    requires Returns(vm.c) && (vm.c.cpl == 3 || vector != 0xff)
    requires GuestFault(vm, Protection(Int(vector, memory), len)).Ok?
    requires SwitchStack(Advance(vm.c, len)).Ok? && FrameClear(Advance(vm.c, len), None)
    ensures var h := GuestFault(vm, Protection(Int(vector, memory), len)).value.c;
      && ComesBack(vm.c, vm.c.ctx.(eip := Wrap(vm.c.ctx.eip + len)), None, h)
      && exists interruptGate :: GateAt(Advance(vm.c, len), vector, true, h.ctx.eip, h.ctx.cs, interruptGate)
  {
    hide Interrupt, SwitchStack, FrameClear, CanReturn, Iret, DataSelectorsUserOrNull, Runnable, Vip, Vif, GateAt, GuestIf, Wrap, ComesBack;
    AdvancedReturns(vm.c, len);
    DeliveryComesBack(Advance(vm.c, len), vector, true, None);
    var interruptGate := HandlerAddress(Advance(vm.c, len), vector, true, None);
    ComesBackAs(Advance(vm.c, len), vm.c, Advance(vm.c, len).ctx, None, GuestFault(vm, Protection(Int(vector, memory), len)).value.c);
  }

  lemma ComesBackAs(c: Cpu, c': Cpu, ctx: Context, error: Option<Word>, h: Cpu)
    requires Privilege.Shaped(h) && ComesBack(c, ctx, error, h) && c'.cpl == c.cpl && c'.monCr4 == c.monCr4
    ensures ComesBack(c', ctx, error, h)
  {
    hide Iret;
  }

  // ---------------------------------------------------------------- hardware interrupts

  /** An interrupt goes to the gate of the highest-priority line, which is in service from then on. */
  lemma DeliverEnters(vm: Vm) returns (line: nat, interruptGate: bool)
    requires Privilege.Shaped(vm.c) && vm.c.env.linux && (vm.c.cpl == 0 || vm.c.cpl == 3) && Pic.Inv(vm.io.pic) && Deliver(vm).Ok?
    ensures line < 8 && line in vm.io.pic.master.irr && line !in vm.io.pic.master.imr
    ensures forall k: nat | k < line :: k !in vm.io.pic.master.irr || k in vm.io.pic.master.imr
    ensures var r := Deliver(vm).value;
      && line in r.io.pic.master.isr && line !in r.io.pic.master.irr && r.c.cpl == 0
      && GateAt(vm.c, vm.io.pic.master.vectorOffset + line, false, r.c.ctx.eip, r.c.ctx.cs, interruptGate)
  {
    hide Interrupt, GateAt, GuestIf, Pic.Acknowledge, Pic.Inv;
    var (pic, vector) := Pic.Acknowledge(vm.io.pic).value;
    line := Pic.AcknowledgePicksHighestPriority(vm.io.pic);
    interruptGate := HandlerAddress(vm.c, vector, false, None);
  }

  /** And comes back to where the guest was. */
  lemma DeliverComesBack(vm: Vm)
    requires Returns(vm.c) && Deliver(vm).Ok? && SwitchStack(vm.c).Ok? && FrameClear(vm.c, None)
    ensures ComesBack(vm.c, vm.c.ctx, None, Deliver(vm).value.c)
  {
    hide Interrupt, SwitchStack, FrameClear, CanReturn, Settled, Iret, DataSelectorsUserOrNull, Pic.Acknowledge, ComesBack;
    DeliveryComesBack(vm.c, Pic.Acknowledge(vm.io.pic).value.1, false, None);
  }

  /** The state in which a trapped STI is interrupted: behind the instruction, interrupts enabled. */
  function AfterSti(c: Cpu, len: nat): Cpu {
    WithFlags(Advance(c, len), SetVif(c.ctx.eflags))
  }

  /** A trapped STI takes the pending interrupt, and its handler returns behind the STI with interrupts on. */
  lemma StiReturnsBehind(vm: Vm, len: nat)
    requires Returns(vm.c) && vm.c.cpl == 0 && Emulate(vm, Sti, len).Ok?
    requires SwitchStack(AfterSti(vm.c, len)).Ok? && FrameClear(AfterSti(vm.c, len), None)
    ensures ComesBack(vm.c, AfterSti(vm.c, len).ctx, None, Emulate(vm, Sti, len).value.c)
    ensures AfterSti(vm.c, len).ctx.eip == Wrap(vm.c.ctx.eip + len) && Vif(AfterSti(vm.c, len).ctx.eflags)
  {
    hide Interrupt, SwitchStack, FrameClear, CanReturn, Runnable, Vip, Iret, DataSelectorsUserOrNull, Deliver, ComesBack, Wrap, SetVif, Vif;
    var c := AfterSti(vm.c, len);
    StiSettles(vm.c, len);
    DeliverComesBack(vm.(c := c));
    ComesBackAs(c, vm.c, c.ctx, None, Emulate(vm, Sti, len).value.c);
  }

  lemma StiSettles(c: Cpu, len: nat)
    requires Returns(c) && c.cpl == 0
    ensures Returns(AfterSti(c, len)) && Vif(AfterSti(c, len).ctx.eflags)
  {
    VifSet(c.ctx.eflags);
    hide Runnable, Vip, Vif, SetVif, DataSelectorsUserOrNull, SegmentOk, SlotAllowed, Wrap;
    SetVifKeeps(c.ctx.eflags);
  }

  lemma VifSet(e: bv32)
    ensures Vif(SetVif(e))
  {
  }

  // ---------------------------------------------------------------- faults passed on

  /** A fault the guest is to handle restarts the instruction: #NM goes through gate 7, a page fault through gate 14. */
  lemma NoMathRestarts(vm: Vm, instr: Instr, len: nat)
    requires Returns(vm.c) && vm.c.cpl == 3 && GuestFault(vm, NoMath(instr, len)).Ok? && SwitchStack(vm.c).Ok? && FrameClear(vm.c, None)
    ensures var h := GuestFault(vm, NoMath(instr, len)).value.c;
      ComesBack(vm.c, vm.c.ctx, None, h) && exists interruptGate :: GateAt(vm.c, 7, false, h.ctx.eip, h.ctx.cs, interruptGate)
  {
    hide Interrupt, SwitchStack, FrameClear, CanReturn, Iret, DataSelectorsUserOrNull, Runnable, Vip, Vif, GateAt, GuestIf, ComesBack;
    DeliveryComesBack(vm.c, 7, false, None);
    var interruptGate := HandlerAddress(vm.c, 7, false, None);
  }

  /** The code the guest sees: the hardware's in ring 3, and outside it the hardware's without the user bit. */
  function Shown(code: Word, cpl: nat): Word {
    if cpl == 3 then code else code - 4 * (code / 4 % 2)
  }

  lemma PageFaultRestarts(vm: Vm, mem: Memory, code: Word)
    requires Privilege.Shaped(vm.c) && |mem| == |vm.c.g.mem| && GuestFault(vm, PageFault(mem, Some(code))).Ok?
    requires var c := vm.c.(g := vm.c.g.(mem := mem));
      Returns(c) && SwitchStack(c).Ok? && FrameClear(c, Some(Shown(code, c.cpl)))
    ensures var c, shown := vm.c.(g := vm.c.g.(mem := mem)), Shown(code, vm.c.cpl);
      var h := GuestFault(vm, PageFault(mem, Some(code))).value.c;
      && ComesBack(c, vm.c.ctx, Some(shown), h) && ReadDword(h.g, h.ctx.esp) == Ok(shown)
      && exists interruptGate :: GateAt(c, 14, false, h.ctx.eip, h.ctx.cs, interruptGate)
  {
    hide Interrupt, SwitchStack, FrameClear, CanReturn, Iret, DataSelectorsUserOrNull, Runnable, Vip, Vif, GateAt, GuestIf, ComesBack, ReadDword;
    var c, shown := vm.c.(g := vm.c.g.(mem := mem)), Shown(code, vm.c.cpl);
    assert ClearUser(code) == code - 4 * (code / 4 % 2);
    DeliveryComesBack(c, 14, false, Some(shown));
    ErrorCodeReads(c, 14, false, shown);
    var interruptGate := HandlerAddress(c, 14, false, Some(shown));
  }

  // ---------------------------------------------------------------- instructions that only move on

  /** HLT, port accesses, table and control register loads and the HAL call move EIP behind the instruction, and no other register. */
  lemma MovesOn(vm: Vm, instr: Instr, len: nat)
    requires Privilege.Shaped(vm.c) && (instr.Hlt? || instr.Port? || instr.Configure? || (instr.Int? && instr.vector == 0xff))
    requires Emulate(vm, instr, len).Ok?
    ensures var r := Emulate(vm, instr, len).value;
      && r.c == vm.c.(ctx := vm.c.ctx.(eip := Wrap(vm.c.ctx.eip + len)), g := r.c.g, env := r.c.env)
      && (match instr
          case Configure(g, env) => r.c.g == g && r.c.env == env
          case Int(_, memory) => r.c.g == vm.c.g.(mem := memory) && r.c.env == vm.c.env
          case _ => r.c.g == vm.c.g && r.c.env == vm.c.env)
      && (match instr
          case Hlt => Vif(vm.c.ctx.eflags)
          case Port(op) => !op.Irq? && !op.Iac? && !op.Clocks? && Io.Step(vm.io, op).Ok? && r.io == Io.Step(vm.io, op).value.0
          case _ => r.io == vm.io)
  {
    hide Interrupt, Iret, LoadSegment, Halted, Io.Step, Deliver, Wrap, Vif;
  }

  /** HLT is carried out exactly when the guest can be interrupted and some clock will bring up INTR, and ends with INTR up. */
  lemma HaltEndsIff(vm: Vm, len: nat)
    requires Privilege.Shaped(vm.c) && Io.Inv(vm.io)
    ensures Emulate(vm, Hlt, len).Ok? <==>
      Vif(vm.c.ctx.eflags) && exists n: nat :: Clock.Singles(vm.io, n).Ok? && Clock.Singles(vm.io, n).value.pic.intr
    ensures Emulate(vm, Hlt, len).Ok? ==> Emulate(vm, Hlt, len).value.io.pic.intr
  {
    hide Interrupt, Iret, LoadSegment, Io.Step, Deliver, Wrap, Vif, Clock.Singles, Clock.WillWake, Clock.HaltClocks, Io.Inv;
    Clock.HaltTerminatesIff(vm.io);
  }

  /** The emulated IRET is IRET, and touches no device. */
  lemma IretEmulated(vm: Vm, len: nat)
    requires Privilege.Shaped(vm.c) && vm.c.cpl == 0 && Emulate(vm, ReturnFromInterrupt, len).Ok?
    ensures var r := Emulate(vm, ReturnFromInterrupt, len).value; ReturnsTo(vm.c, r.c) && r.io == vm.io
  {
    hide Interrupt, Iret, LoadSegment, Io.Step, Deliver, Wrap, ReturnsTo, Halted;
    IretPops(vm.c);
  }

  function SegmentIn(ctx: Context, seg: Segment): Selector {
    match seg
    case ES => ctx.es
    case CS => ctx.cs
    case SS => ctx.ss
    case DS => ctx.ds
    case FS => ctx.fs
    case GS => ctx.gs
  }

  /** Six registers, of which only one has changed. */
  ghost predicate OneSegment(ctx: Context, ctx': Context, seg: Segment, sel: Selector) {
    SegmentIn(ctx', seg) == sel / 4 * 4 + 3 && forall s: Segment | s != seg :: SegmentIn(ctx', s) == SegmentIn(ctx, s)
  }

  /** A segment load changes that register, pushed down, and ESP as the instruction does, and moves on. */
  lemma LoadMovesOn(vm: Vm, seg: Segment, sel: Selector, esp: Word, len: nat)
    requires Privilege.Shaped(vm.c) && Emulate(vm, LoadRegister(seg, sel, esp), len).Ok?
    ensures var r := Emulate(vm, LoadRegister(seg, sel, esp), len).value;
      && seg != CS && OneSegment(vm.c.ctx, r.c.ctx, seg, sel)
      && r.c.ctx.eip == Wrap(vm.c.ctx.eip + len) && r.c.ctx.esp == esp && r.c.ctx.eflags == vm.c.ctx.eflags
      && r.c.g == vm.c.g && r.c.cpl == vm.c.cpl && r.io == vm.io
  {
    hide SelectorUpdated, FetchBySelector, Wrap, Interrupt, Iret, Deliver, Halted, Io.Step;
  }

  /** A far jump goes to its offset in its segment. */
  lemma JumpGoes(vm: Vm, offset: Word, target: Selector, len: nat)
    requires Privilege.Shaped(vm.c) && Emulate(vm, JumpFar(offset, target), len).Ok?
    ensures var r := Emulate(vm, JumpFar(offset, target), len).value;
      && OneSegment(vm.c.ctx, r.c.ctx, CS, target)
      && r.c.ctx.eip == offset && r.c.ctx.esp == vm.c.ctx.esp && r.c.ctx.eflags == vm.c.ctx.eflags
      && r.c.g == vm.c.g && r.c.cpl == vm.c.cpl && r.io == vm.io
  {
    hide SelectorUpdated, FetchBySelector, Wrap, Interrupt, Iret, Deliver, Halted, Io.Step;
  }

  // ---------------------------------------------------------------- time

  /** 980 cycles of overhead are taken off; more than 100 left become whole clocks of 100, and fewer are carried over. */
  lemma ClocksDue(cycles: nat)
    ensures var (clocks, carried) := PitClocks(cycles);
      && (cycles <= 1080 ==> clocks.None? && carried == Max(980, cycles) - 980)
      && (cycles > 1080 ==> clocks.Some? && carried == 0)
      && (1080 < cycles < 0x1_0000_0000 ==> 100 * clocks.value <= cycles - 980 < 100 * (clocks.value + 1))
  {
  }

  /** The devices just before the guest runs: timers moved on by the clocks due, and a request of user space pending or in service. */
  lemma TimePasses(vm: Vm, halIrq: Option<nat>)
    requires Inside(vm) && PreGuest(vm, halIrq).Ok?
    ensures var r, clocks := PreGuest(vm, halIrq).value, PitClocks(vm.cycles).0;
      && r.cycles == PitClocks(vm.cycles).1
      && (if clocks.None? then r.io.timers == vm.io.timers
          else Io.ExpireAll(vm.io, clocks.value).Ok? && r.io.timers == Io.ExpireAll(vm.io, clocks.value).value.timers)
      && (halIrq.Some? ==> halIrq.value == 3 && (3 in r.io.pic.master.irr || 3 in r.io.pic.master.isr))
  {
    hide PitClocks, Io.ExpireAll, Pic.Raise, Pic.Acknowledge, Interrupt, Vif, Vip, SetVip, Runnable, If;
    var clocks := PitClocks(vm.cycles).0;
    var io1 := if clocks.Some? then Io.ExpireAll(vm.io, clocks.value).value else vm.io;
    Pic.RaiseRecords(io1.pic, 3);
    var io := Tick(vm.io, clocks, halIrq).value;
    if io.pic.intr && Vif(vm.c.ctx.eflags) {
      AcknowledgeMoves(io.pic);
    }
  }

  /** An acknowledgement takes a request out of the pending ones only into service. */
  lemma AcknowledgeMoves(s: Pic.Pics)
    requires Pic.Acknowledge(s).Ok?
    ensures var s' := Pic.Acknowledge(s).value.0; forall line | line in s.master.irr :: line in s'.master.irr || line in s'.master.isr
  {
  }
}
