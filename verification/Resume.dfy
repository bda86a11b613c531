/**
 The monitor between two runs of guest code, in Linux mode: an exit is handled, time
 passes, pending interrupts are delivered, and the guest is resumed.
 */
module Resume {
  import opened Words
  import opened GuestTables
  import opened Eflags
  import opened Privilege
  import opened Descriptors
  import opened RoundTrip
  import Entry
  import Pic
  import Io
  import Clock

  datatype Vm = Vm(c: Cpu, io: Io.Devices, cycles: nat)

  /** Kernel instructions `emulateSysInstr` carries out. */
  datatype Instr =
    | Hlt
    | Sti
    /** From the kernel `int $0xff` calls the host's HAL, which may leave `memory` behind. */
    | Int(vector: nat, memory: Memory)
    | ReturnFromInterrupt
    | LoadRegister(seg: Segment, sel: Selector, esp: Word)
    | JumpFar(offset: Word, target: Selector)
    | Port(op: Io.Op)
    /** Loads of table and control registers, and everything that only moves on. */
    | Configure(g: Guest, env: Env)

  /** How control comes back from guest code. */
  datatype Exit =
    | HostInterrupt(mem: Memory)
    | PageFault(mem: Memory, injected: Option<Word>)
    | Protection(instr: Instr, len: nat)
    | NoMath(instr: Instr, len: nat)
    | Unhandled

  /**
   One stay outside the guest: the CPU as guest code left it, why it left, what the monitor finds, and
   INTR as user space hands it back if control went that far.
   */
  datatype Visit = Visit(ran: Cpu, exit: Exit, elapsed: nat, reload: Option<bool>, halIrq: Option<nat>)

  // ---------------------------------------------------------------- guest code

  /**
   What guest code can do while it runs in real ring 3: anything to memory and registers,
   but only unprivileged changes of EFLAGS, and its CS keeps RPL 3.
   */
  ghost predicate GuestRan(c: Cpu, c': Cpu) {
    && Privilege.Shaped(c')
    && |c'.g.mem| == |c.g.mem| && c'.g == c.g.(mem := c'.g.mem)
    && c'.env == c.env && c'.cpl == c.cpl && c'.monCr4 == c.monCr4 && c'.gdt == c.gdt
    && UserChange(c.ctx.eflags, c'.ctx.eflags, c.monCr4 == 2)
    && Rpl(c'.ctx.cs) == 3
  }

  // ---------------------------------------------------------------- handling an exit

  function Advance(c: Cpu, len: nat): Cpu {
    c.(ctx := c.ctx.(eip := Wrap(c.ctx.eip + len)))
  }

  function WithFlags(c: Cpu, eflags: bv32): Cpu {
    c.(ctx := c.ctx.(eflags := eflags))
  }

  /** Acknowledge INTR and deliver the vector. */
  function Deliver(vm: Vm): (r: Outcome<Vm>)
    requires Privilege.Shaped(vm.c)
    ensures r.Ok? ==> Privilege.Shaped(r.value.c)
  {
    var (pic, vector) :- Pic.Acknowledge(vm.io.pic);
    var c :- Interrupt(vm.c, vector, false, None);
    Ok(vm.(c := c, io := vm.io.(pic := pic)))
  }

  /** Memory of the same size may be rewritten by user space and by A/D bits. */
  function Rewritten(c: Cpu, mem: Memory): Outcome<Cpu> {
    if |mem| != |c.g.mem| then Panic else Ok(c.(g := c.g.(mem := mem)))
  }

  /** HLT without a wake-up spins for ever, and like a panic has no state to resume from. */
  function Halted(io: Io.Devices): Outcome<Io.Devices> {
    if !Clock.WillWake(io) then Panic else Clock.Singles(io, Clock.HaltClocks(io))
  }

  /** `emulateSysInstr`, once the instruction has been decoded. */
  function Emulate(vm: Vm, instr: Instr, len: nat): (r: Outcome<Vm>)
    requires Privilege.Shaped(vm.c)
    ensures r.Ok? ==> Privilege.Shaped(r.value.c)
  {
    var next := Advance(vm.c, len);
    match instr
    case Hlt =>
      if !Vif(vm.c.ctx.eflags) then Panic
      else
        var io :- Halted(vm.io);
        Ok(vm.(c := next, io := io))
    case Sti =>
      if !vm.io.pic.intr then Panic else Deliver(vm.(c := WithFlags(next, SetVif(next.ctx.eflags))))
    case Int(vector, memory) =>
      var c :- if vector == 0xff then Rewritten(next, memory) else Interrupt(next, vector, true, None);
      Ok(vm.(c := c))
    case ReturnFromInterrupt =>
      var c :- Iret(vm.c);
      Ok(vm.(c := c))
    case LoadRegister(seg, sel, esp) =>
      if seg == CS then Panic
      else
        var c :- LoadSegment(vm.c, seg, sel);
        Ok(vm.(c := Advance(c.(ctx := c.ctx.(esp := esp)), len)))
    case JumpFar(offset, target) =>
      var c :- LoadSegment(vm.c, CS, target);
      Ok(vm.(c := c.(ctx := c.ctx.(eip := offset))))
    case Port(op) =>
      if !op.PicOut? && !op.PitOut? && !op.PitIn? then Panic
      else
        var (io, _) :- Io.Step(vm.io, op);
        Ok(vm.(c := next, io := io))
    case Configure(g, env) =>
      if |g.mem| != |vm.c.g.mem| || env.linux != vm.c.env.linux then Panic
      else Ok(vm.(c := next.(g := g, env := env)))
  }

  /** `doGuestFault` for #UD and #GP, #NM and #PF. */
  function GuestFault(vm: Vm, exit: Exit): (r: Outcome<Vm>)
    requires Privilege.Shaped(vm.c)
    ensures r.Ok? ==> Privilege.Shaped(r.value.c)
  {
    match exit
    case Protection(instr, len) =>
      if vm.c.cpl == 0 then Emulate(vm, instr, len)
      else if !instr.Int? then Panic
      else
        var c :- Interrupt(Advance(vm.c, len), instr.vector, true, None);
        Ok(vm.(c := c))
    case NoMath(instr, len) =>
      if vm.c.cpl == 0 then Emulate(vm, instr, len)
      else
        var c :- Interrupt(vm.c, 7, false, None);
        Ok(vm.(c := c))
    case PageFault(mem, injected) =>
      var c :- Rewritten(vm.c, mem);
      if injected.None? then Ok(vm.(c := c))
      else
        var c1 :- Interrupt(c, 14, false, Some(if c.cpl == 3 then injected.value else ClearUser(injected.value)));
        Ok(vm.(c := c1))
    case _ => Panic
  }

  /** The error code of a fault in pushed-down ring 0 must not say user mode. */
  function ClearUser(code: Word): Word {
    if code / 4 % 2 == 1 then code - 4 else code
  }

  /** The sanity checks `handleGuestFault` starts with. */
  predicate FaultChecks(c: Cpu) {
    If(c.ctx.eflags) && Clear(c.ctx.eflags, 0x0002_0000)
  }

  /** `handleInt` and `handleGuestFault`; both take VIP back first. */
  function Handle(vm: Vm, exit: Exit): (r: Outcome<Vm>)
    requires Privilege.Shaped(vm.c)
    ensures r.Ok? ==> Privilege.Shaped(r.value.c)
  {
    var vm1 := vm.(c := WithFlags(vm.c, SetVip(vm.c.ctx.eflags, false)));
    if exit.HostInterrupt? then
      var c :- Rewritten(vm1.c, exit.mem);
      Ok(vm1.(c := c))
    else if !FaultChecks(vm.c) then Panic
    else GuestFault(vm1, exit)
  }

  // ---------------------------------------------------------------- just before the guest

  /** Clocks due after so many cycles, and the cycles carried over: 980 of overhead, 100 to a clock. */
  function PitClocks(cycles: nat): (Option<nat>, nat) {
    var left := if cycles > 980 then cycles - 980 else 0;
    if left > 100 then (Some(left % 0x1_0000_0000 / 100), 0) else (None, left)
  }

  /** Time passes and user space's interrupt request is taken over. */
  function Tick(io: Io.Devices, clocks: Option<nat>, halIrq: Option<nat>): Outcome<Io.Devices> {
    var io1 :- if clocks.Some? then Io.ExpireAll(io, clocks.value) else Ok(io);
    if halIrq.None? then Ok(io1)
    else if halIrq.value != 3 then Panic
    else
      var pic :- Pic.Raise(io1.pic, 3);
      Ok(io1.(pic := pic))
  }

  /** `preGuest` up to its last check. */
  function Prepared(vm: Vm, halIrq: Option<nat>): (r: Outcome<Vm>)
    requires Privilege.Shaped(vm.c)
    ensures r.Ok? ==> Privilege.Shaped(r.value.c)
  {
    var (clocks, cycles) := PitClocks(vm.cycles);
    var io :- Tick(vm.io, clocks, halIrq);
    var vm1 := vm.(io := io, cycles := cycles);
    var vm2 :- if io.pic.intr && Vif(vm.c.ctx.eflags) then Deliver(vm1) else Ok(vm1);
    Ok(vm2.(c := WithFlags(vm2.c, SetVip(vm2.c.ctx.eflags, vm2.io.pic.intr))))
  }

  /** `preGuest`, which panics rather than resume the guest with IF=0. */
  function PreGuest(vm: Vm, halIrq: Option<nat>): (r: Outcome<Vm>)
    requires Privilege.Shaped(vm.c)
    ensures r.Ok? ==> Privilege.Shaped(r.value.c)
  {
    var vm1 :- Prepared(vm, halIrq);
    if !If(vm1.c.ctx.eflags) then Panic else Ok(vm1)
  }

  /** From one resumption of the guest to the next. */
  function Next(vm: Vm, visit: Visit): (r: Outcome<Vm>)
    requires Privilege.Shaped(visit.ran)
    ensures r.Ok? ==> Privilege.Shaped(r.value.c)
  {
    var vm1 :- Handle(Left(vm, visit), visit.exit);
    PreGuest(Reloaded(vm1, visit.reload), visit.halIrq)
  }

  /** The machine as guest code leaves it. */
  function Left(vm: Vm, visit: Visit): Vm {
    vm.(c := visit.ran, cycles := vm.cycles + visit.elapsed)
  }

  /** Every EXECUTE call takes INTR from the window user space can write. */
  function Reloaded(vm: Vm, reload: Option<bool>): Vm {
    if reload.None? then vm else vm.(io := vm.io.(pic := vm.io.pic.(intr := reload.value)))
  }

  // ---------------------------------------------------------------- invariants

  /** While the monitor works on an exit, VIP is down. */
  ghost predicate Inside(vm: Vm) {
    Resumable(vm.c) && !Vip(vm.c.ctx.eflags)
  }

  /** When guest code runs, VIP shows INTR, and no deliverable interrupt has been held back. */
  ghost predicate Resumed(vm: Vm) {
    && Resumable(vm.c)
    && Vip(vm.c.ctx.eflags) == vm.io.pic.intr
    && !(Vip(vm.c.ctx.eflags) && Vif(vm.c.ctx.eflags))
  }

  ghost predicate Kept(vm: Vm, vm': Vm) {
    Inside(vm') && Guarded(vm.c.gdt, vm'.c.gdt)
  }

  lemma GuardedSame(gdt: seq<Descriptor>)
    requires |gdt| == 512
    ensures Guarded(gdt, gdt)
  {
  }

  /** The parts of the context that `Resumable` does not look at. */
  ghost predicate SameStanding(c: Cpu, c': Cpu) {
    && Privilege.Shaped(c') && c'.env.linux == c.env.linux && c'.cpl == c.cpl && c'.monCr4 == c.monCr4
    && c'.ctx.eflags == c.ctx.eflags && Rpl(c'.ctx.cs) == 3
  }

  lemma StandingKeeps(vm: Vm, vm': Vm)
    requires Inside(vm) && SameStanding(vm.c, vm'.c) && vm'.c.gdt == vm.c.gdt
    ensures Kept(vm, vm')
  {
    hide Runnable, Vif, Vip;
    GuardedSame(vm.c.gdt);
  }

  lemma InterruptKeeps(vm: Vm, c: Cpu, vector: nat, soft: bool, error: Option<Word>, vm': Vm)
    requires Inside(vm.(c := c)) && c.gdt == vm.c.gdt
    requires Interrupt(c, vector, soft, error) == Ok(vm'.c)
    ensures Kept(vm, vm') && vm'.c.cpl == 0
  {
    hide Interrupt, Guarded, SwitchStack, PushAll, InterruptFrame, KernelFlags, GateFlags, ImageFlags, Runnable, Vip, Returnable, GateOf;
    InterruptEnters(c, vector, soft, error);
    InterruptGuards(c, vector, soft, error);
    DeliveryKeeps(c.ctx.eflags, GateOf(c, vector, soft).value.typ == 14, c.cpl == 0);
  }

  /** IRET keeps the invariant and ends in the ring of the CS it popped. */
  lemma IretKeeps(vm: Vm, vm': Vm)
    requires Inside(vm) && Iret(vm.c) == Ok(vm'.c)
    ensures Kept(vm, vm')
    ensures Popped(vm.c).Ok? && vm'.c.cpl == Rpl(Popped(vm.c).value.1)
  {
    hide Guarded, Popped, Runnable, Vif, Vip, ReturnFlags, ReturnTo, ReturnRefused, Rpl;
    IretGuards(vm.c);
    var (eip, cs, image) := Popped(vm.c).value;
    ReturnToLevel(vm.c, eip, cs);
    RingOfReturn(cs, vm.c.cpl);
    ReturnKeeps(vm.c.ctx.eflags, image, Rpl(cs) == 0);
    assert WithoutPvi(2) == 0;
  }

  lemma RingOfReturn(cs: Selector, cpl: nat)
    requires !ReturnSelectorBad(cs, cpl)
    ensures (Rpl(cs) == 0 || Rpl(cs) == 3) && cpl <= Rpl(cs)
  {
  }

  lemma ReturnToLevel(c: Cpu, eip: Word, cs: Selector)
    requires Privilege.Shaped(c) && ReturnTo(c, eip, cs).Ok? && !ReturnSelectorBad(cs, c.cpl) && (c.cpl == 0 || c.cpl == 3)
    ensures var r := ReturnTo(c, eip, cs).value;
      r.cpl == Rpl(cs) && r.env == c.env && r.monCr4 == c.monCr4 && Rpl(r.ctx.cs) == 3 && r.ctx.eflags == c.ctx.eflags
  {
    hide SelectorUpdated, FetchBySelector, DataSelectorsUserOrNull;
  }

  lemma LoadKeeps(vm: Vm, seg: Segment, sel: Selector)
    requires Inside(vm) && LoadSegment(vm.c, seg, sel).Ok?
    ensures Kept(vm, vm.(c := LoadSegment(vm.c, seg, sel).value))
    ensures SameStanding(vm.c, LoadSegment(vm.c, seg, sel).value)
  {
    hide SelectorUpdated, FetchBySelector, Guarded, Runnable, Vif, Vip;
    LoadSegmentGuards(vm.c, seg, sel);
  }

  lemma DeliverKeeps(vm: Vm)
    requires Inside(vm) && Deliver(vm).Ok?
    ensures Kept(vm, Deliver(vm).value) && !Deliver(vm).value.io.pic.intr && Deliver(vm).value.c.cpl == 0
  {
    hide Interrupt, Kept;
    var (pic, vector) := Pic.Acknowledge(vm.io.pic).value;
    InterruptKeeps(vm, vm.c, vector, false, None, Deliver(vm).value);
  }

  // ---------------------------------------------------------------- every exit keeps them

  lemma StiDelivers(vm: Vm, len: nat)
    requires Inside(vm) && vm.c.cpl == 0 && Emulate(vm, Sti, len).Ok?
    ensures Kept(vm, Emulate(vm, Sti, len).value)
  {
    hide Deliver, Vif, Vip, Runnable, Guarded, SetVif;
    SetVifKeeps(vm.c.ctx.eflags);
    var next := Advance(vm.c, len);
    DeliverKeeps(vm.(c := WithFlags(next, SetVif(next.ctx.eflags))));
  }

  lemma EmulateKeeps(vm: Vm, instr: Instr, len: nat)
    requires Inside(vm) && vm.c.cpl == 0 && Emulate(vm, instr, len).Ok?
    ensures Kept(vm, Emulate(vm, instr, len).value)
  {
    hide Kept, Io.Step, Deliver, Vif, Vip, Runnable, Interrupt, Iret, LoadSegment, Halted;
    var vm' := Emulate(vm, instr, len).value;
    match instr
    case Hlt => StandingKeeps(vm, vm');
    case Sti => StiDelivers(vm, len);
    case Int(vector, _) =>
      if vector == 0xff {
        StandingKeeps(vm, vm');
      } else {
        InterruptKeeps(vm, Advance(vm.c, len), vector, true, None, vm');
      }
    case ReturnFromInterrupt => IretKeeps(vm, vm');
    case LoadRegister(seg, sel, esp) => LoadKeeps(vm, seg, sel); KeptAcross(vm, vm.(c := LoadSegment(vm.c, seg, sel).value), vm');
    case JumpFar(offset, target) => LoadKeeps(vm, CS, target); KeptAcross(vm, vm.(c := LoadSegment(vm.c, CS, target).value), vm');
    case Port(op) => StandingKeeps(vm, vm');
    case Configure(_, _) => StandingKeeps(vm, vm');
  }

  lemma KeptAcross(vm: Vm, vm1: Vm, vm': Vm)
    requires Kept(vm, vm1) && SameStanding(vm1.c, vm'.c) && vm'.c.gdt == vm1.c.gdt
    ensures Kept(vm, vm')
  {
    hide Inside, Guarded;
    StandingKeeps(vm1, vm');
    GuardedChain(vm.c.gdt, vm1.c.gdt, vm'.c.gdt);
  }

  lemma GuestFaultKeeps(vm: Vm, exit: Exit)
    requires Inside(vm) && GuestFault(vm, exit).Ok?
    ensures Kept(vm, GuestFault(vm, exit).value)
  {
    hide Kept, Emulate, Vif, Vip, Runnable, Interrupt;
    var vm' := GuestFault(vm, exit).value;
    match exit
    case Protection(instr, len) =>
      if vm.c.cpl == 0 {
        EmulateKeeps(vm, instr, len);
      } else {
        InterruptKeeps(vm, Advance(vm.c, len), instr.vector, true, None, vm');
      }
    case NoMath(instr, len) =>
      if vm.c.cpl == 0 {
        EmulateKeeps(vm, instr, len);
      } else {
        InterruptKeeps(vm, vm.c, 7, false, None, vm');
      }
    case PageFault(mem, injected) =>
      var c := Rewritten(vm.c, mem).value;
      if injected.None? {
        StandingKeeps(vm, vm');
      } else {
        var code := if c.cpl == 3 then injected.value else ClearUser(injected.value);
        InterruptKeeps(vm, c, 14, false, Some(code), vm');
      }
    case _ =>
  }

  lemma HandleKeeps(vm: Vm, exit: Exit)
    requires Resumable(vm.c) && Handle(vm, exit).Ok?
    ensures Kept(vm, Handle(vm, exit).value)
  {
    hide Kept, GuestFault, Vif, Vip, Runnable, SetVip, FaultChecks;
    SetVipKeeps(vm.c.ctx.eflags, false);
    var vm1 := vm.(c := WithFlags(vm.c, SetVip(vm.c.ctx.eflags, false)));
    assert Inside(vm1);
    if exit.HostInterrupt? {
      StandingKeeps(vm1, Handle(vm, exit).value);
    } else {
      GuestFaultKeeps(vm1, exit);
    }
    KeptFrom(vm, vm1, Handle(vm, exit).value);
  }

  lemma KeptFrom(vm: Vm, vm1: Vm, vm': Vm)
    requires Kept(vm1, vm') && vm.c.gdt == vm1.c.gdt
    ensures Kept(vm, vm')
  {
  }

  /** Time and requests put nothing in service. */
  lemma TickServes(io: Io.Devices, clocks: Option<nat>, halIrq: Option<nat>)
    requires Tick(io, clocks, halIrq).Ok?
    ensures Tick(io, clocks, halIrq).value.pic.master.isr == io.pic.master.isr
  {
    hide Io.Expire;
  }

  /**
   `preGuest` leaves a state fit to run, delivering every interrupt the guest accepts, and
   so its final IF check never fires.
   */
  lemma PreGuestResumes(vm: Vm, halIrq: Option<nat>)
    requires Inside(vm)
    ensures PreGuest(vm, halIrq) == Prepared(vm, halIrq)
    ensures PreGuest(vm, halIrq).Ok? ==> Resumed(PreGuest(vm, halIrq).value) && Guarded(vm.c.gdt, PreGuest(vm, halIrq).value.c.gdt)
  {
    hide Guarded, Deliver, Tick, PitClocks, Vif, Vip, Runnable, SetVip;
    if Prepared(vm, halIrq).Ok? {
      var (clocks, cycles) := PitClocks(vm.cycles);
      var vm1 := vm.(io := Tick(vm.io, clocks, halIrq).value, cycles := cycles);
      var vm2 := if vm1.io.pic.intr && Vif(vm.c.ctx.eflags) then Deliver(vm1).value else vm1;
      if vm1.io.pic.intr && Vif(vm.c.ctx.eflags) {
        DeliverKeeps(vm1);
      } else {
        GuardedSame(vm.c.gdt);
      }
      SetVipKeeps(vm2.c.ctx.eflags, vm2.io.pic.intr);
      RunnableHasIf(SetVip(vm2.c.ctx.eflags, vm2.io.pic.intr));
    }
  }

  lemma RunnableHasIf(e: bv32)
    requires Runnable(e)
    ensures If(e)
  {
  }

  // ---------------------------------------------------------------- whole runs

  lemma GuestRanKeeps(c: Cpu, c': Cpu)
    requires Resumable(c) && GuestRan(c, c')
    ensures Resumable(c') && Vip(c'.ctx.eflags) == Vip(c.ctx.eflags)
  {
    hide Runnable, Vif, Vip, UserChange;
    UserChangeKeeps(c.ctx.eflags, c'.ctx.eflags, c.monCr4 == 2);
  }

  lemma NextResumes(vm: Vm, visit: Visit)
    requires Resumed(vm) && GuestRan(vm.c, visit.ran) && Next(vm, visit).Ok?
    ensures Resumed(Next(vm, visit).value) && Guarded(vm.c.gdt, Next(vm, visit).value.c.gdt)
  {
    hide Resumable, Guarded, Handle, PreGuest, Vif, Vip, UserChange;
    GuestRanKeeps(vm.c, visit.ran);
    HandleKeeps(Left(vm, visit), visit.exit);
    var vm1 := Handle(Left(vm, visit), visit.exit).value;
    PreGuestResumes(Reloaded(vm1, visit.reload), visit.halIrq);
    GuardedChain(vm.c.gdt, vm1.c.gdt, Next(vm, visit).value.c.gdt);
  }

  /** The states at which guest code is resumed, one after the other. */
  ghost predicate IsRun(start: Vm, vms: seq<Vm>, halIrq: Option<nat>, visits: seq<Visit>)
    requires Privilege.Shaped(start.c)
  {
    && |vms| == |visits| + 1
    && PreGuest(start, halIrq) == Ok(vms[0])
    && forall i | 0 <= i < |visits| :: GuestRan(vms[i].c, visits[i].ran) && Next(vms[i], visits[i]) == Ok(vms[i + 1])
  }

  /**
   The virtual-interrupt invariant at every resumption of every run: IF=1, IOPL=0, VM=0, ring 0
   or 3, PVI on exactly in ring 0, VIF clear in ring 3, CS at RPL 3, VIP equal to INTR and
   never together with VIF; and the monitor's descriptors are as they were at the start. It
   asks nothing of the devices, nor of what user space does to INTR on the way.
   */
  lemma {:induction false} EveryResumption(start: Vm, vms: seq<Vm>, halIrq: Option<nat>, visits: seq<Visit>, i: nat)
    requires Inside(start) && IsRun(start, vms, halIrq, visits) && i < |vms|
    ensures Resumed(vms[i]) && Guarded(start.c.gdt, vms[i].c.gdt)
    decreases i
  {
    hide Inside, Resumed, Guarded, PreGuest, Next, UserChange;
    if i == 0 {
      PreGuestResumes(start, halIrq);
    } else {
      EveryResumption(start, vms, halIrq, visits, i - 1);
      assert GuestRan(vms[i - 1].c, visits[i - 1].ran) && Next(vms[i - 1], visits[i - 1]) == Ok(vms[i - 1 + 1]);
      NextResumes(vms[i - 1], visits[i - 1]);
      GuardedChain(start.c.gdt, vms[i - 1].c.gdt, vms[i].c.gdt);
    }
  }

  /** The same from the host's first load of a state it accepts, whatever the devices. */
  lemma EveryResumptionFromEntry(gdt: seq<Descriptor>, cpu: Entry.GuestCpu, start: Vm, vms: seq<Vm>, halIrq: Option<nat>, visits: seq<Visit>, i: nat)
    requires Entry.Formed(cpu) && |gdt| == 512 && Privilege.Shaped(start.c) && start.c.env.linux && Entry.Refusal(true, true, cpu).None?
    requires start.c == Entry.Loaded(start.c.env, start.c.g, gdt, cpu)
    requires IsRun(start, vms, halIrq, visits) && i < |vms|
    ensures Resumed(vms[i])
    ensures forall slot | 0 <= slot < 512 && (slot == 0 || MonitorSlot(slot)) :: vms[i].c.gdt[slot] == gdt[slot]
  {
    hide Resumable, IsRun, Resumed, Entry.Refusal, Entry.Installed, Entry.SegmentRefusal, Vip;
    RefusalCoversSegments(cpu);
    Entry.LoadedResumable(start.c.env, start.c.g, gdt, cpu);
    EveryResumption(start, vms, halIrq, visits, i);
    Entry.EntryKeepsMonitorSlots(true, Entry.Level(cpu), cpu.sreg, gdt);
  }

  lemma RefusalCoversSegments(cpu: Entry.GuestCpu)
    requires Entry.Formed(cpu) && Entry.Refusal(true, true, cpu).None?
    ensures Entry.SegmentRefusal(true, Entry.Level(cpu), cpu.sreg, 0).None?
  {
    hide FlagsAccepted, Entry.SegmentRefusal;
  }

  /** Nor do the checks at the top of `handleGuestFault` ever fire. */
  lemma FaultChecksHold(vm: Vm, ran: Cpu)
    requires Resumed(vm) && GuestRan(vm.c, ran)
    ensures FaultChecks(ran)
  {
    hide UserChange;
    GuestRanKeeps(vm.c, ran);
  }

  /**
   The CPU traps an STI only under VIP, so the emulated STI always finds INTR up, and can
   acknowledge it exactly when the mask has not hidden the request.
   */
  lemma StiFindsIntr(vm: Vm, ran: Cpu)
    requires Resumed(vm) && GuestRan(vm.c, ran) && Vip(ran.ctx.eflags)
    ensures vm.io.pic.intr
    ensures Io.Inv(vm.io) ==> (Pic.Acknowledge(vm.io.pic).Ok? <==> Pic.IntrBacked(vm.io.pic))
  {
    hide Pic.Inv, Pic.Acknowledge, Pic.IntrBacked, UserChange, Resumable, Vip, Vif;
    GuestRanKeeps(vm.c, ran);
    if Io.Inv(vm.io) {
      Pic.AcknowledgePanicsIff(vm.io.pic);
    }
  }

  /** Every frame pushed while the monitor works on an exit carries flags that IRET accepts and gives back. */
  lemma FramesAreReturnable(vm: Vm, t: bv32)
    requires Inside(vm) && Returnable(t, vm.c.ctx.eflags)
    ensures var image := ImageFlags(vm.c.ctx.eflags, vm.c.cpl == 0);
      && Clear(image, 0x0002_3000)
      && !ReturnRefused(image, 2, 0, vm.c.cpl)
      && ReturnFlags(t, image, vm.c.cpl == 0) == vm.c.ctx.eflags
  {
    hide Clear, ImageFlags, ReturnRefused, ReturnFlags, Returnable, Vif, Vip, Runnable;
    FlagsReturn(vm.c.ctx.eflags, t, vm.c.cpl == 0);
  }

  // ---------------------------------------------------------------- no interrupts in ring 3

  /** The devices after the time that has passed and user space's request, just before delivery. */
  function Ticked(vm: Vm, halIrq: Option<nat>): Outcome<Io.Devices> {
    Tick(vm.io, PitClocks(vm.cycles).0, halIrq)
  }

  /** Time and requests never lower INTR. */
  lemma TickRaises(io: Io.Devices, clocks: Option<nat>, halIrq: Option<nat>)
    requires Tick(io, clocks, halIrq).Ok?
    ensures io.pic.intr ==> Tick(io, clocks, halIrq).value.pic.intr
  {
    hide Io.Expire;
  }

  /**
   `preGuest` delivers an interrupt, that is, puts a line in service, exactly when INTR is up and the guest
   is in ring 0 with VIF set.
   */
  lemma DeliversIff(vm: Vm, halIrq: Option<nat>)
    requires Inside(vm) && PreGuest(vm, halIrq).Ok?
    ensures Ticked(vm, halIrq).Ok?
    ensures PreGuest(vm, halIrq).value.io.pic.master.isr != vm.io.pic.master.isr
      <==> Ticked(vm, halIrq).value.pic.intr && vm.c.cpl == 0 && Vif(vm.c.ctx.eflags)
  {
    hide Tick, PitClocks, Vif, Vip, Runnable, SetVip, If, Interrupt, Pic.FirstLine;
    TickServes(vm.io, PitClocks(vm.cycles).0, halIrq);
  }

  /** In ring 3 VIF is clear, so nothing is delivered: only VIP follows INTR. */
  lemma Ring3IsNeverInterrupted(vm: Vm, halIrq: Option<nat>)
    requires Inside(vm) && vm.c.cpl == 3 && PreGuest(vm, halIrq).Ok?
    ensures var r := PreGuest(vm, halIrq).value;
      && r.c == WithFlags(vm.c, SetVip(vm.c.ctx.eflags, r.io.pic.intr))
      && r.io.pic.master.isr == vm.io.pic.master.isr
      && (vm.io.pic.intr ==> r.io.pic.intr)
  {
    hide Tick, PitClocks, Vif, Vip, Runnable, SetVip;
    TickServes(vm.io, PitClocks(vm.cycles).0, halIrq);
    TickRaises(vm.io, PitClocks(vm.cycles).0, halIrq);
  }

  /** A visit the guest has not asked for: a host interrupt, or a page fault the monitor fills; INTR is left alone. */
  predicate Unasked(visit: Visit) {
    && (visit.exit.HostInterrupt? || (visit.exit.PageFault? && visit.exit.injected.None?))
    && visit.reload.None?
  }

  lemma UnaskedVisit(vm: Vm, visit: Visit)
    requires Resumed(vm) && vm.c.cpl == 3 && GuestRan(vm.c, visit.ran) && Unasked(visit) && Next(vm, visit).Ok?
    ensures var r := Next(vm, visit).value;
      && r.c.cpl == 3 && r.io.pic.master.isr == vm.io.pic.master.isr
      && (vm.io.pic.intr ==> r.io.pic.intr)
  {
    hide Resumable, Guarded, PreGuest, Vif, Vip, UserChange, SetVip, FaultChecks;
    GuestRanKeeps(vm.c, visit.ran);
    HandleKeeps(Left(vm, visit), visit.exit);
    Ring3IsNeverInterrupted(Handle(Left(vm, visit), visit.exit).value, visit.halIrq);
  }

  /**
   A user program is never interrupted: over any run of host interrupts and filled page faults, however long and
   however high INTR, it stays in ring 3, nothing goes in service, and INTR once up stays up.
   */
  lemma {:induction false} UserRunsOn(start: Vm, vms: seq<Vm>, halIrq: Option<nat>, visits: seq<Visit>, j: nat, i: nat)
    requires Inside(start) && IsRun(start, vms, halIrq, visits) && j <= i < |vms| && vms[j].c.cpl == 3
    requires forall k | j <= k < i :: Unasked(visits[k])
    ensures vms[i].c.cpl == 3 && vms[i].io.pic.master.isr == vms[j].io.pic.master.isr
    ensures vms[j].io.pic.intr ==> vms[i].io.pic.intr
    decreases i
  {
    hide Inside, Resumed, PreGuest, Next, UserChange, Unasked;
    if j < i {
      UserRunsOn(start, vms, halIrq, visits, j, i - 1);
      EveryResumption(start, vms, halIrq, visits, i - 1);
      assert GuestRan(vms[i - 1].c, visits[i - 1].ran) && Next(vms[i - 1], visits[i - 1]) == Ok(vms[i - 1 + 1]) && Unasked(visits[i - 1]);
      UnaskedVisit(vms[i - 1], visits[i - 1]);
    }
  }

  // ---------------------------------------------------------------- the devices over whole runs

  lemma HaltedKeeps(io: Io.Devices)
    requires Io.Inv(io) && Halted(io).Ok?
    ensures Io.Inv(Halted(io).value)
  {
    hide Io.Inv, Clock.WillWake, Clock.HaltClocks, Clock.Singles;
    SinglesKeep(io, Clock.HaltClocks(io));
  }

  lemma {:induction false} SinglesKeep(io: Io.Devices, n: nat)
    requires Io.Inv(io)
    ensures Clock.Singles(io, n).Ok? && Io.Inv(Clock.Singles(io, n).value)
  {
    hide Io.Inv, Io.ExpireAll;
    if n > 0 {
      SinglesKeep(io, n - 1);
      Io.ExpireAllKeeps(Clock.Singles(io, n - 1).value, 1);
    }
  }

  lemma TickKeeps(io: Io.Devices, clocks: Option<nat>, halIrq: Option<nat>)
    requires Io.Inv(io) && Tick(io, clocks, halIrq).Ok?
    ensures Io.Inv(Tick(io, clocks, halIrq).value)
  {
    hide Pic.Inv, Pic.IntrBacked, Io.ExpireAll;
    if clocks.Some? {
      Io.ExpireAllKeeps(io, clocks.value);
    }
    var io1 := if clocks.Some? then Io.ExpireAll(io, clocks.value).value else io;
    if halIrq.Some? {
      Pic.RaiseKeeps(io1.pic, 3);
    }
  }

  lemma DeliverServes(vm: Vm)
    requires Privilege.Shaped(vm.c) && Io.Inv(vm.io) && Deliver(vm).Ok?
    ensures Io.Inv(Deliver(vm).value.io)
  {
    hide Pic.Inv, Pic.IntrBacked, Pic.Acknowledge, Interrupt;
    Pic.AcknowledgeKeeps(vm.io.pic);
  }

  lemma EmulateServes(vm: Vm, instr: Instr, len: nat)
    requires Privilege.Shaped(vm.c) && Io.Inv(vm.io) && Emulate(vm, instr, len).Ok?
    ensures Io.Inv(Emulate(vm, instr, len).value.io)
  {
    hide Io.Inv, Io.Step, Deliver, Interrupt, Iret, LoadSegment, Halted, Vif;
    match instr
    case Hlt => HaltedKeeps(vm.io);
    case Sti =>
      var next := Advance(vm.c, len);
      DeliverServes(vm.(c := WithFlags(next, SetVif(next.ctx.eflags))));
    case Port(op) => Io.StepKeeps(vm.io, op);
    case _ =>
  }

  lemma HandleServes(vm: Vm, exit: Exit)
    requires Privilege.Shaped(vm.c) && Io.Inv(vm.io) && Handle(vm, exit).Ok?
    ensures Io.Inv(Handle(vm, exit).value.io)
  {
    hide Io.Inv, Emulate, Interrupt, FaultChecks, SetVip;
    var vm1 := vm.(c := WithFlags(vm.c, SetVip(vm.c.ctx.eflags, false)));
    if (exit.Protection? || exit.NoMath?) && vm.c.cpl == 0 {
      EmulateServes(vm1, exit.instr, exit.len);
    }
  }

  lemma PreGuestServes(vm: Vm, halIrq: Option<nat>)
    requires Privilege.Shaped(vm.c) && Io.Inv(vm.io) && PreGuest(vm, halIrq).Ok?
    ensures Io.Inv(PreGuest(vm, halIrq).value.io)
  {
    hide Io.Inv, Deliver, Tick, PitClocks, Vif, SetVip, If;
    var (clocks, cycles) := PitClocks(vm.cycles);
    TickKeeps(vm.io, clocks, halIrq);
    var vm1 := vm.(io := Tick(vm.io, clocks, halIrq).value, cycles := cycles);
    if vm1.io.pic.intr && Vif(vm.c.ctx.eflags) {
      DeliverServes(vm1);
    }
  }

  /** User space hands INTR back as it was shown it. */
  ghost predicate LeavesIntr(vm: Vm, visit: Visit) {
    && Privilege.Shaped(visit.ran)
    && (visit.reload.Some? && Handle(Left(vm, visit), visit.exit).Ok? ==>
          visit.reload.value == Handle(Left(vm, visit), visit.exit).value.io.pic.intr)
  }

  /** If user space leaves INTR alone, no interrupt is lost in any run of the whole machine. */
  lemma {:induction false} DevicesKept(start: Vm, vms: seq<Vm>, halIrq: Option<nat>, visits: seq<Visit>, i: nat)
    requires Privilege.Shaped(start.c) && Io.Inv(start.io) && IsRun(start, vms, halIrq, visits) && i < |vms|
    requires forall k | 0 <= k < |visits| :: LeavesIntr(vms[k], visits[k])
    ensures Io.Inv(vms[i].io)
    decreases i
  {
    hide Io.Inv, PreGuest, Handle, UserChange;
    if i == 0 {
      PreGuestServes(start, halIrq);
    } else {
      DevicesKept(start, vms, halIrq, visits, i - 1);
      var vm, visit := vms[i - 1], visits[i - 1];
      assert GuestRan(vm.c, visit.ran) && Next(vm, visit) == Ok(vms[i - 1 + 1]) && LeavesIntr(vm, visit);
      HandleServes(Left(vm, visit), visit.exit);
      var vm1 := Handle(Left(vm, visit), visit.exit).value;
      assert Reloaded(vm1, visit.reload) == vm1;
      PreGuestServes(vm1, visit.halIrq);
    }
  }
}
