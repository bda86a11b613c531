/**
 The monitor's CPU emulation as it runs: the saved context, privilege level, CR4 and GDT
 are updated in place, and guest memory is reached through the shared window. Every method
 is proved against the value-level operations of `Privilege` and `Resume`; one that
 answers `ok == false` has panicked, and its state is dead.
 */
module Emulator {
  import opened Words
  import opened GuestTables
  import opened GuestAccess
  import opened Eflags
  import opened Privilege
  import Pic
  import Io
  import Clock
  import IoBus
  import Resume

  /** An aligned descriptor lies in one page, and the source's bounds tests refuse exactly those outside memory. */
  lemma DescriptorBounds(m: Memory, p: Word)
    requires Sized(m) && p % 8 == 0
    ensures p % 4096 + 8 <= 4096
    ensures p >= Wrap(|m| - 7) || p / 4096 >= Pages(m) <==> p + 7 >= |m|
  {
    InsidePage(p);
    Whole(m, p / 4096, p % 4096);
    if |m| > 0 {
      assert |m| >= 4096;
      assert Wrap(|m| - 7) == |m| - 7;
    }
  }

  lemma InsidePage(p: nat)
    requires p % 8 == 0
    ensures p % 4096 + 8 <= 4096
  {
    var q := p / 8;
    assert p == 8 * q && q == 512 * (q / 512) + q % 512;
    assert p == 4096 * (q / 512) + 8 * (q % 512);
  }

  /** Pushing in two stages. */
  lemma {:induction false} PushAllConcat(g: Guest, a: seq<(Word, Word)>, b: seq<(Word, Word)>)
    requires Sized(g.mem)
    ensures PushAll(g, a + b) == if PushAll(g, a).Panic? then Panic else PushAll(PushAll(g, a).value, b)
    decreases |a|
  {
    hide WriteDword;
    if a == [] {
      assert a + b == b;
    } else {
      assert (a + b)[1..] == a[1..] + b;
      var g1 := WriteDword(g, a[0].0, a[0].1);
      if g1.Ok? {
        PushAllConcat(g1.value, a[1..], b);
      }
    }
  }

  /** The stack is loaded and ESP stands at the bottom of the frame to come. */
  function Roomy(switched: (Cpu, Word)): Cpu {
    switched.0.(ctx := switched.0.ctx.(esp := switched.1))
  }

  class Core {
    const mem: Accessor
    const bus: IoBus.Bus
    const gdt: array<Descriptor>
    var env: Env
    var ctx: Context
    var cpl: nat
    var monCr4: bv32
    var cycles: nat

    ghost predicate Valid()
      reads this, mem
    {
      mem.Valid() && gdt.Length == 512 && cpl < 4
    }

    ghost function View(): (c: Cpu)
      requires Valid()
      reads this, mem, gdt
      ensures Privilege.Shaped(c)
    {
      Cpu(mem.g, env, ctx, cpl, monCr4, gdt[..])
    }

    constructor (mem: Accessor, bus: IoBus.Bus, gdt: array<Descriptor>, c: Cpu)
      requires mem.Valid() && gdt.Length == 512 && c.g == mem.g && c.gdt == gdt[..] && c.cpl < 4
      ensures Valid() && this.mem == mem && this.bus == bus && this.gdt == gdt && cycles == 0
      ensures View() == c
    {
      this.mem, this.bus, this.gdt := mem, bus, gdt;
      env, ctx, cpl, monCr4, cycles := c.env, c.ctx, c.cpl, c.monCr4, 0;
    }

    /** `fetchGuestDescByLAddr`. */
    method FetchGuestDescByLAddr(l: Word) returns (r: Outcome<seq<Byte>>)
      requires Valid()
      modifies mem`window
      ensures r == Fetch(mem.g, l)
    {
      var p := mem.TranslateLinToPhy(l);
      if p == NOT_AVAILABLE || p % 8 != 0 {
        return Panic;
      }
      DescriptorBounds(mem.g.mem, p);
      Whole(mem.g.mem, p / 4096, p % 4096);
      hide Wrap, Pages, Translate;
      if p >= Wrap(|mem.g.mem| - 7) {
        return Panic;
      }
      var opened_ := mem.OpenPage(p / 4096);
      if !opened_ {
        return Panic;
      }
      var bytes := mem.CopyOut(p % 4096, 8);
      return Ok(bytes);
    }

    /** `fetchGuestDescBySel`. */
    method FetchGuestDescBySel(sel: Selector) returns (r: Outcome<Descriptor>)
      requires Valid()
      modifies mem`window
      ensures r == FetchBySelector(mem.g, env, sel)
    {
      if Ti(sel) || Null(sel) || sel / 8 * 8 + 7 > env.gdtrLimit {
        return Panic;
      }
      var bytes := FetchGuestDescByLAddr(DescriptorAddr(env, sel));
      if bytes.Panic? {
        return Panic;
      }
      var d := DecodeDescriptor(bytes.value);
      if d.dpl != Rpl(sel) {
        return Panic;
      }
      return Ok(d);
    }

    /** `guestSelectorUpdated`. */
    method GuestSelectorUpdated(code: bool, sel: Selector) returns (ok: bool)
      requires Valid()
      modifies mem`window, gdt
      ensures ok == SelectorUpdated(old(View()), code, sel).Ok?
      ensures ok ==> View() == SelectorUpdated(old(View()), code, sel).value
    {
      hide Fetch, DecodeDescriptor, DescriptorAddr;
      if !code && Null(sel) {
        return true;
      }
      if Ti(sel) || Index(sel) == 0 || sel / 8 * 8 + 7 > env.gdtrLimit {
        return false;
      }
      var bytes := FetchGuestDescByLAddr(DescriptorAddr(env, sel));
      if bytes.Panic? {
        return false;
      }
      var d := DecodeDescriptor(bytes.value);
      if env.linux {
        if Rpl(sel) != d.dpl || (d.dpl != 0 && d.dpl != 3) {
          return false;
        }
      } else if Rpl(sel) != 3 || d.dpl != 3 {
        return false;
      }
      if !SlotAllowed(env.linux, cpl, code, Index(sel)) {
        return false;
      }
      gdt[Index(sel)] := d;
      if d.dpl != 3 {
        gdt[Index(sel)] := d.(dpl := 3);
      }
      return true;
    }

    /** `loadGuestSegment`. */
    method LoadGuestSegment(seg: Segment, sel: Selector) returns (ok: bool)
      requires Valid()
      modifies this`ctx, mem`window, gdt
      ensures ok == LoadSegment(old(View()), seg, sel).Ok?
      ensures ok ==> View() == LoadSegment(old(View()), seg, sel).value
    {
      hide FetchBySelector, SelectorUpdated;
      var d := FetchGuestDescBySel(sel);
      if d.Panic? {
        return false;
      }
      match seg {
      case ES => ctx := ctx.(es := PushedDown(sel));
      case CS => ctx := ctx.(cs := PushedDown(sel));
      case SS => ctx := ctx.(ss := PushedDown(sel));
      case DS => ctx := ctx.(ds := PushedDown(sel));
      case FS => ctx := ctx.(fs := PushedDown(sel));
      case GS => ctx := ctx.(gs := PushedDown(sel));
      }
      ok := GuestSelectorUpdated(seg == CS, sel);
    }

    // -------------------------------------------------------------- doGuestInterrupt

    /** The gate, and the code segment it leads to. */
    method FetchGate(vector: nat, soft: bool) returns (r: Outcome<Gate>)
      requires Valid()
      modifies mem`window
      ensures r == GateOf(View(), vector, soft)
    {
      hide Fetch, FetchBySelector, DecodeGate;
      if vector * 8 + 7 > env.idtrLimit || env.idtrBase % 8 != 0 {
        return Panic;
      }
      var bytes := FetchGuestDescByLAddr(Wrap(env.idtrBase + vector * 8));
      if bytes.Panic? {
        return Panic;
      }
      var gate := DecodeGate(bytes.value);
      if gate.p == 0 || (gate.typ != 14 && gate.typ != 15) || (soft && gate.dpl < cpl) {
        return Panic;
      }
      var d := FetchGuestDescBySel(gate.selector);
      if d.Panic? || d.value.typ != 0x1a || d.value.dpl != 0 || d.value.p == 0 {
        return Panic;
      }
      return Ok(gate);
    }

    /** SS and ESP for ring 0, out of the guest's TSS. */
    method FetchTssStack() returns (r: Outcome<(Word, Selector)>)
      requires Valid()
      modifies mem`window
      ensures r == TssStack(View())
    {
      hide ReadDword, ReadWord, FetchBySelector;
      if env.tr.typ != 11 || 4 + 7 > SegmentLimit(env.tr) {
        return Panic;
      }
      var esp := mem.GetGuestDWord(Wrap(SegmentBase(env.tr) + 4));
      if esp.Panic? {
        return Panic;
      }
      var ss := mem.GetGuestWord(Wrap(SegmentBase(env.tr) + 8));
      if ss.Panic? || Null(ss.value) || Rpl(ss.value) != 0 {
        return Panic;
      }
      var d := FetchGuestDescBySel(ss.value);
      if d.Panic? || d.value.typ != 0x12 || d.value.dpl != 0 || d.value.p == 0 {
        return Panic;
      }
      return Ok((esp.value, ss.value));
    }

    /** Load the kernel stack if the interrupt comes from an outer ring, and make room for the frame. */
    method MakeRoom() returns (ok: bool)
      requires Valid()
      modifies this`ctx, this`cpl, mem`window, gdt
      ensures ok == SwitchStack(old(View())).Ok?
      ensures ok ==> Valid() && View() == Roomy(SwitchStack(old(View())).value)
    {
      hide TssStack, SelectorUpdated;
      if cpl != 0 {
        var stack := FetchTssStack();
        if stack.Panic? {
          return false;
        }
        cpl := 0;
        ctx := ctx.(ss := PushedDown(stack.value.1), esp := stack.value.0);
        ok := GuestSelectorUpdated(false, stack.value.1);
        if !ok {
          return;
        }
        ctx := ctx.(esp := Wrap(ctx.esp - 20));
      } else {
        ctx := ctx.(esp := Wrap(ctx.esp - 12));
      }
      return true;
    }

    /** One more dword of the frame. */
    method Push(a: Word, v: Word, ghost g0: Guest, ghost pushed: seq<(Word, Word)>) returns (ok: bool)
      requires Valid() && Sized(g0.mem) && PushAll(g0, pushed) == Ok(mem.g)
      modifies mem
      ensures ok == PushAll(g0, pushed + [(a, v)]).Ok?
      ensures ok ==> Valid() && PushAll(g0, pushed + [(a, v)]) == Ok(mem.g)
    {
      hide WriteDword;
      PushAllConcat(g0, pushed, [(a, v)]);
      ghost var g := mem.g;
      assert PushAll(g, [(a, v)]) == WriteDword(g, a, v) by {
        assert [(a, v)][1..] == [];
      }
      ok := mem.WriteGuestDWord(a, v);
    }

    /** The frame of an interrupt that came from state `c`. */
    method PushFrame(ghost c: Cpu, fromCpl: nat, oldSs: Selector, oldEsp: Word, image: bv32, error: Option<Word>) returns (ok: bool)
      requires Valid() && Privilege.Shaped(c)
      requires c.cpl == fromCpl && c.ctx == ctx.(ss := oldSs, esp := oldEsp)
      modifies this`ctx, mem
      ensures ok == PushAll(old(mem.g), Frame(c, old(ctx.esp), image, error)).Ok?
      ensures ok ==> Valid() && PushAll(old(mem.g), Frame(c, old(ctx.esp), image, error)) == Ok(mem.g)
      ensures ok ==> ctx == old(ctx).(esp := BelowError(old(ctx.esp), error))
    {
      hide PushAll, WithRpl, AsWord;
      var esp: int := ctx.esp;
      ghost var g0 := mem.g;
      ghost var frame := Frame(c, esp, image, error);
      ghost var pushed: seq<(Word, Word)> := [];
      PushNothing(g0);
      if fromCpl != 0 {
        Rest(g0, frame, 1);
        ok := Push(Wrap(esp + 16), oldSs, g0, pushed);
        assert pushed + [frame[0]] == frame[..1];
        pushed := frame[..1];
        if !ok {
          return;
        }
        Rest(g0, frame, 2);
        ok := Push(Wrap(esp + 12), oldEsp, g0, pushed);
        assert pushed + [frame[1]] == frame[..2];
        pushed := frame[..2];
        if !ok {
          return;
        }
      }
      ghost var n := |pushed|;
      Rest(g0, frame, n + 1);
      ok := Push(Wrap(esp + 8), AsWord(image), g0, pushed);
      assert pushed + [frame[n]] == frame[..n + 1];
      if !ok {
        return;
      }
      Rest(g0, frame, n + 2);
      ok := Push(Wrap(esp + 4), WithRpl(ctx.cs, fromCpl), g0, frame[..n + 1]);
      assert frame[..n + 1] + [frame[n + 1]] == frame[..n + 2];
      if !ok {
        return;
      }
      Rest(g0, frame, n + 3);
      ok := Push(esp, ctx.eip, g0, frame[..n + 2]);
      assert frame[..n + 2] + [frame[n + 2]] == frame[..n + 3];
      if !ok {
        return;
      }
      if error.Some? {
        ctx := ctx.(esp := Wrap(ctx.esp - 4));
        ok := Push(ctx.esp, error.value, g0, frame[..n + 3]);
        assert frame[..n + 3] + [frame[n + 3]] == frame;
      } else {
        assert frame[..n + 3] == frame;
      }
    }

    /** Push the frame on the loaded stack and go to the handler; `c1` is the CPU before ESP moved. */
    method Enter(ghost c: Cpu, ghost c1: Cpu, fromCpl: nat, oldSs: Selector, oldEsp: Word, image: bv32, error: Option<Word>, gate: Gate) returns (ok: bool)
      requires Valid() && Privilege.Shaped(c) && Privilege.Shaped(c1)
      requires View() == Roomy((c1, ctx.esp)) && c.cpl == fromCpl && c.ctx == ctx.(ss := oldSs, esp := oldEsp)
      modifies this`ctx, mem, gdt
      ensures ok == EnterHandler(c1, Frame(c, old(ctx.esp), image, error), BelowError(old(ctx.esp), error), gate).Ok?
      ensures ok ==> Valid() && Ok(View()) == EnterHandler(c1, Frame(c, old(ctx.esp), image, error), BelowError(old(ctx.esp), error), gate)
    {
      hide PushAll, Frame, SelectorUpdated;
      ok := PushFrame(c, fromCpl, oldSs, oldEsp, image, error);
      if !ok {
        return;
      }
      ctx := ctx.(cs := PushedDown(gate.selector), eip := gate.offset);
      ok := GuestSelectorUpdated(true, gate.selector);
    }

    /** EFLAGS and CR4 for the handler. */
    method SetHandlerFlags(image: bv32, interruptGate: bool) returns (ok: bool)
      requires Valid()
      modifies this`ctx, this`monCr4
      ensures ok == Started(old(View()), image, interruptGate).Ok?
      ensures ok ==> Ok(View()) == Started(old(View()), image, interruptGate)
    {
      hide GateFlags, KernelFlags, If, SetIf;
      var eflags := GateFlags(image, interruptGate);
      if env.linux && cpl == 0 {
        ctx := ctx.(eflags := KernelFlags(eflags));
        monCr4 := 2;
      } else if !If(eflags) {
        return false;
      } else {
        ctx := ctx.(eflags := SetIf(eflags));
        monCr4 := 0;
      }
      return true;
    }

    /** `doGuestInterrupt`. */
    method DoGuestInterrupt(vector: nat, soft: bool, error: Option<Word>) returns (ok: bool)
      requires Valid()
      modifies this`ctx, this`cpl, this`monCr4, mem, gdt
      ensures ok == Interrupt(old(View()), vector, soft, error).Ok?
      ensures ok ==> Valid() && View() == Interrupt(old(View()), vector, soft, error).value
    {
      hide GateOf, SwitchStack, EnterHandler, Started, Frame, ImageFlags;
      ghost var c := View();
      var gate := FetchGate(vector, soft);
      if gate.Panic? {
        return false;
      }
      var fromCpl, oldSs, oldEsp := cpl, ctx.ss, ctx.esp;
      var image := ImageFlags(ctx.eflags, env.linux && cpl == 0);
      ok := MakeRoom();
      if !ok {
        return;
      }
      SwitchStackFrame(c);
      ok := Enter(c, SwitchStack(c).value.0, fromCpl, oldSs, oldEsp, image, error, gate.value);
      if !ok {
        return;
      }
      ok := SetHandlerFlags(image, gate.value.typ == 14);
    }

    // -------------------------------------------------------------- doIRET

    /** The words every IRET pops. */
    method PopFrame() returns (r: Outcome<(Word, Selector, bv32)>)
      requires Valid()
      modifies mem`window
      ensures r == Popped(View())
    {
      hide ReadDword, ReadWord, AsFlags;
      var eip := mem.GetGuestDWord(ctx.esp);
      if eip.Panic? {
        return Panic;
      }
      var cs := mem.GetGuestWord(Wrap(ctx.esp + 4));
      if cs.Panic? {
        return Panic;
      }
      var raw := mem.GetGuestDWord(Wrap(ctx.esp + 8));
      if raw.Panic? {
        return Panic;
      }
      return Ok((eip.value, cs.value, AsFlags(raw.value)));
    }

    /** SS and ESP for a return to ring 3, and the check of the data segments that stay loaded. */
    method PopStack(cs: Selector) returns (ok: bool)
      requires Valid()
      modifies this`ctx, this`cpl, mem`window, gdt
      ensures ok == ReturnStack(old(View()), cs).Ok?
      ensures ok ==> Valid() && View() == ReturnStack(old(View()), cs).value
    {
      hide ReadDword, ReadWord, FetchBySelector, SelectorUpdated, DataSelectorsUserOrNull;
      var esp := mem.GetGuestDWord(Wrap(ctx.esp + 12));
      if esp.Panic? {
        return false;
      }
      var ss := mem.GetGuestWord(Wrap(ctx.esp + 16));
      if ss.Panic? || Null(ss.value) || Rpl(ss.value) != Rpl(cs) {
        return false;
      }
      var d := FetchGuestDescBySel(ss.value);
      if d.Panic? || d.value.typ != 0x12 || d.value.dpl != Rpl(cs) || d.value.p == 0 {
        return false;
      }
      cpl := 3;
      ctx := ctx.(ss := PushedDown(ss.value), esp := esp.value);
      ok := GuestSelectorUpdated(false, ss.value);
      if ok {
        ok := DataSelectorsUserOrNull(ctx);
      }
    }

    /** Load the return stack and code segment. */
    method LoadReturn(eip: Word, cs: Selector) returns (ok: bool)
      requires Valid()
      modifies this`ctx, this`cpl, mem`window, gdt
      ensures ok == ReturnTo(old(View()), eip, cs).Ok?
      ensures ok ==> Valid() && View() == ReturnTo(old(View()), eip, cs).value
    {
      hide FetchBySelector, SelectorUpdated, ReturnStack;
      var d := FetchGuestDescBySel(cs);
      if d.Panic? || d.value.typ != 0x1a || d.value.dpl != Rpl(cs) || d.value.p == 0 {
        return false;
      }
      if Rpl(cs) > cpl {
        ok := PopStack(cs);
        if !ok {
          return;
        }
      } else {
        ctx := ctx.(esp := Wrap(ctx.esp + 12));
      }
      ctx := ctx.(cs := PushedDown(cs), eip := eip);
      ok := GuestSelectorUpdated(true, cs);
    }

    /** `doIRET`. */
    method DoIret() returns (ok: bool)
      requires Valid()
      modifies this`ctx, this`cpl, this`monCr4, mem`window, gdt
      ensures ok == Iret(old(View())).Ok?
      ensures ok ==> Valid() && View() == Iret(old(View())).value
    {
      hide Popped, ReturnTo, ReturnFlags, ReturnRefused, ReturnSelectorBad, Clear, WithoutPvi;
      var fromCpl := cpl;
      if !Clear(ctx.eflags, 0x0000_4000) {
        return false;
      }
      var popped := PopFrame();
      if popped.Panic? {
        return false;
      }
      var (eip, cs, image) := popped.value;
      if !Clear(image, 0x0002_3000) || ReturnSelectorBad(cs, cpl) {
        return false;
      }
      ok := LoadReturn(eip, cs);
      if !ok || ReturnRefused(image, monCr4, fromCpl, Rpl(cs)) {
        return false;
      }
      if fromCpl < Rpl(cs) {
        monCr4 := WithoutPvi(monCr4);
      }
      ctx := ctx.(eflags := ReturnFlags(ctx.eflags, image, Rpl(cs) == 0));
    }

    // -------------------------------------------------------------- between runs of guest code

    ghost function Machine(): (vm: Resume.Vm)
      requires Valid() && bus.Valid()
      reads this, mem, gdt, bus, bus.timer
      ensures Privilege.Shaped(vm.c)
    {
      Resume.Vm(View(), bus.View(), cycles)
    }

    /** Clocks for the cycles that have passed, and user space's interrupt request. */
    method PassTime(halIrq: Option<nat>) returns (ok: bool)
      requires bus.Valid()
      modifies this`cycles, bus, bus.timer
      ensures ok == Resume.Tick(old(bus.View()), Resume.PitClocks(old(cycles)).0, halIrq).Ok?
      ensures ok ==> bus.Valid() && Ok(bus.View()) == Resume.Tick(old(bus.View()), Resume.PitClocks(old(cycles)).0, halIrq)
      ensures ok ==> cycles == Resume.PitClocks(old(cycles)).1 && bus.timer == old(bus.timer)
    {
      hide Io.ExpireAll, Pic.Raise;
      if cycles > 980 {
        cycles := cycles - 980;
      } else {
        cycles := 0;
      }
      if cycles > 100 {
        var clocks := cycles % 0x1_0000_0000 / 100;
        cycles := 0;
        ok := bus.PitExpireClocks(clocks);
        if !ok {
          return;
        }
      }
      if halIrq.Some? {
        if halIrq.value != 3 {
          return false;
        }
        ok := bus.PicIrq(3);
        return;
      }
      return true;
    }

    /** Acknowledge INTR and deliver the vector. */
    method DeliverInterrupt() returns (ok: bool)
      requires Valid() && bus.Valid()
      modifies this`ctx, this`cpl, this`monCr4, mem, gdt, bus`master, bus`intr
      ensures ok == Resume.Deliver(old(Machine())).Ok?
      ensures ok ==> Valid() && Ok(Machine()) == Resume.Deliver(old(Machine()))
    {
      hide Pic.Acknowledge, Interrupt;
      var vector := bus.PicIac();
      if vector.Panic? {
        return false;
      }
      ok := DoGuestInterrupt(vector.value, false, None);
    }

    /** `preGuest`. */
    method PreGuest(halIrq: Option<nat>) returns (ok: bool)
      requires Valid() && bus.Valid()
      modifies this, mem, gdt, bus, bus.timer
      ensures ok == Resume.PreGuest(old(Machine()), halIrq).Ok?
      ensures ok ==> Valid() && bus.Valid() && Ok(Machine()) == Resume.PreGuest(old(Machine()), halIrq)
    {
      hide Resume.Tick, Resume.PitClocks, Resume.Deliver, SetVip, Vif;
      ok := PassTime(halIrq);
      if !ok {
        return;
      }
      if bus.intr && Vif(ctx.eflags) {
        ok := DeliverInterrupt();
        if !ok {
          return;
        }
      }
      ctx := ctx.(eflags := SetVip(ctx.eflags, bus.intr));
      return If(ctx.eflags);
    }

    /** The HLT instruction. */
    method Halt(len: nat) returns (ok: bool)
      requires Valid() && bus.Valid() && Io.Inv(bus.View()) && Clock.WillWake(bus.View())
      modifies this`ctx, bus, bus.timer
      ensures ok == Resume.Emulate(old(Machine()), Resume.Hlt, len).Ok?
      ensures ok ==> Valid() && bus.Valid() && Ok(Machine()) == Resume.Emulate(old(Machine()), Resume.Hlt, len)
    {
      hide Io.Inv, Clock.WillWake, Clock.HaltClocks, Clock.Singles, Vif;
      if !Vif(ctx.eflags) {
        return false;
      }
      ghost var clocks := bus.Halt();
      ctx := ctx.(eip := Wrap(ctx.eip + len));
      return true;
    }

    /** The STI instruction, which traps when an interrupt is pending. */
    method EnableInterrupts(len: nat) returns (ok: bool)
      requires Valid() && bus.Valid()
      modifies this`ctx, this`cpl, this`monCr4, mem, gdt, bus`master, bus`intr
      ensures ok == Resume.Emulate(old(Machine()), Resume.Sti, len).Ok?
      ensures ok ==> Valid() && Ok(Machine()) == Resume.Emulate(old(Machine()), Resume.Sti, len)
    {
      hide Resume.Deliver, SetVif;
      ctx := ctx.(eip := Wrap(ctx.eip + len));
      ctx := ctx.(eflags := SetVif(ctx.eflags));
      if !bus.intr {
        return false;
      }
      ok := DeliverInterrupt();
    }

    /** INT from the kernel; vector 0xff is the call to the host's HAL. */
    method SoftwareInterrupt(vector: nat, memory: Memory, len: nat) returns (ok: bool)
      requires Valid() && bus.Valid()
      modifies this`ctx, this`cpl, this`monCr4, mem, gdt
      ensures ok == Resume.Emulate(old(Machine()), Resume.Int(vector, memory), len).Ok?
      ensures ok ==> Valid() && Ok(Machine()) == Resume.Emulate(old(Machine()), Resume.Int(vector, memory), len)
    {
      hide Interrupt;
      ctx := ctx.(eip := Wrap(ctx.eip + len));
      if vector == 0xff {
        ok := |memory| == |mem.g.mem|;
        if ok {
          mem.g := mem.g.(mem := memory);
        }
      } else {
        ok := DoGuestInterrupt(vector, true, None);
      }
    }

    /** MOV to a segment register, POP DS and LSS. */
    method LoadRegister(seg: Segment, sel: Selector, esp: Word, len: nat) returns (ok: bool)
      requires Valid() && bus.Valid()
      modifies this`ctx, mem`window, gdt
      ensures ok == Resume.Emulate(old(Machine()), Resume.LoadRegister(seg, sel, esp), len).Ok?
      ensures ok ==> Valid() && Ok(Machine()) == Resume.Emulate(old(Machine()), Resume.LoadRegister(seg, sel, esp), len)
    {
      hide LoadSegment;
      if seg == CS {
        return false;
      }
      ok := LoadGuestSegment(seg, sel);
      ctx := ctx.(esp := esp, eip := Wrap(ctx.eip + len));
    }

    /** A port access to the devices. */
    method AccessPort(op: Io.Op) returns (ok: bool)
      requires Valid() && bus.Valid() && (op.PicOut? || op.PitOut? || op.PitIn?)
      modifies bus`master, bus`slave, bus`intr, bus.timer
      ensures ok == Io.Step(old(bus.View()), op).Ok?
      ensures ok ==> Ok((bus.View(), None)) == Io.Step(old(bus.View()), op)
    {
      hide Pic.Out, Io.OutPit, Io.InPit;
      match op
      case PicOut(port, val) => ok := bus.PicOutp(port, val);
      case PitOut(port, val) => ok := bus.PitOutp(port, val);
      case PitIn(port) =>
        var value := bus.PitInp(port);
        ok := value.Ok?;
    }

    /**
     `emulateSysInstr` on a decoded instruction. The loop of HLT only comes back if
     something will wake it.
     */
    method EmulateSysInstr(instr: Resume.Instr, len: nat) returns (ok: bool)
      requires Valid() && bus.Valid()
      requires instr.Hlt? ==> Io.Inv(bus.View()) && Clock.WillWake(bus.View())
      modifies this, mem, gdt, bus, bus.timer
      ensures ok == Resume.Emulate(old(Machine()), instr, len).Ok?
      ensures ok ==> Valid() && bus.Valid() && Ok(Machine()) == Resume.Emulate(old(Machine()), instr, len)
    {
      hide Io.Inv, Io.Step, Clock.WillWake, Resume.Deliver, Resume.Halted, Interrupt, Iret, LoadSegment, SetVif, Vif;
      match instr
      case Hlt =>
        ok := Halt(len);
      case Sti =>
        ok := EnableInterrupts(len);
      case Int(vector, memory) =>
        ok := SoftwareInterrupt(vector, memory, len);
      case ReturnFromInterrupt =>
        ok := DoIret();
      case LoadRegister(seg, sel, esp) =>
        ok := LoadRegister(seg, sel, esp, len);
      case JumpFar(offset, target) =>
        ok := LoadGuestSegment(CS, target);
        ctx := ctx.(eip := offset);
      case Port(op) =>
        if !op.PicOut? && !op.PitOut? && !op.PitIn? {
          return false;
        }
        ok := AccessPort(op);
        ctx := ctx.(eip := Wrap(ctx.eip + len));
      case Configure(g', env') =>
        ok := |g'.mem| == |mem.g.mem| && env'.linux == env.linux;
        if ok {
          ctx := ctx.(eip := Wrap(ctx.eip + len));
          mem.g := g';
          env := env';
        }
    }

    /** The machine once the cycles guest code has used are on the account. */
    ghost function Charged(elapsed: nat): (vm: Resume.Vm)
      requires Valid() && bus.Valid()
      reads this, mem, gdt, bus, bus.timer
      ensures Privilege.Shaped(vm.c)
    {
      Machine().(cycles := cycles + elapsed)
    }

    /** `doGuestFault`, on faults that have been classified. */
    method DoGuestFault(exit: Resume.Exit) returns (ok: bool)
      requires Valid() && bus.Valid()
      requires (exit.Protection? || exit.NoMath?) && exit.instr.Hlt? ==> Io.Inv(bus.View()) && Clock.WillWake(bus.View())
      modifies this, mem, gdt, bus, bus.timer
      ensures ok == Resume.GuestFault(old(Machine()), exit).Ok?
      ensures ok ==> Valid() && bus.Valid() && Ok(Machine()) == Resume.GuestFault(old(Machine()), exit)
    {
      hide Io.Inv, Clock.WillWake, Resume.Emulate, Interrupt;
      match exit
      case Protection(instr, len) =>
        if cpl == 0 {
          ok := EmulateSysInstr(instr, len);
        } else if instr.Int? {
          ctx := ctx.(eip := Wrap(ctx.eip + len));
          ok := DoGuestInterrupt(instr.vector, true, None);
        } else {
          return false;
        }
      case NoMath(instr, len) =>
        if cpl == 0 {
          ok := EmulateSysInstr(instr, len);
        } else {
          ok := DoGuestInterrupt(7, false, None);
        }
      case PageFault(memory, injected) =>
        if |memory| != |mem.g.mem| {
          return false;
        }
        mem.g := mem.g.(mem := memory);
        ok := true;
        if injected.Some? {
          var code := if cpl == 3 then injected.value else Resume.ClearUser(injected.value);
          ok := DoGuestInterrupt(14, false, Some(code));
        }
      case _ =>
        return false;
    }

    /** `handleGuestFault`, `elapsed` cycles after `t0`. */
    method HandleGuestFault(exit: Resume.Exit, elapsed: nat) returns (ok: bool)
      requires Valid() && bus.Valid() && !exit.HostInterrupt?
      requires (exit.Protection? || exit.NoMath?) && exit.instr.Hlt? ==> Io.Inv(bus.View()) && Clock.WillWake(bus.View())
      modifies this, mem, gdt, bus, bus.timer
      ensures ok == Resume.Handle(old(Charged(elapsed)), exit).Ok?
      ensures ok ==> Valid() && bus.Valid() && Ok(Machine()) == Resume.Handle(old(Charged(elapsed)), exit)
    {
      hide Io.Inv, Clock.WillWake, Resume.GuestFault, SetVip, Clear, If;
      cycles := cycles + elapsed;
      if !If(ctx.eflags) || !Clear(ctx.eflags, 0x0002_0000) {
        return false;
      }
      ctx := ctx.(eflags := SetVip(ctx.eflags, false));
      ok := DoGuestFault(exit);
    }

    /**
     `handleInt`: an interrupt out of guest code ends its run, one out of monitor code touches nothing
     but what the host and user space may do to memory meanwhile.
     */
    method HandleInt(fromGuest: bool, memory: Memory, elapsed: nat) returns (ok: bool)
      requires Valid() && bus.Valid()
      modifies this`ctx, this`cycles, mem
      ensures ok == (|memory| == |old(mem.g.mem)|)
      ensures ok && fromGuest ==> Valid() && Ok(Machine()) == Resume.Handle(old(Charged(elapsed)), Resume.HostInterrupt(memory))
      ensures ok && !fromGuest ==> Valid() && Machine() == old(Machine()).(c := old(View()).(g := old(mem.g).(mem := memory)))
    {
      hide SetVip;
      if fromGuest {
        cycles := cycles + elapsed;
        ctx := ctx.(eflags := SetVip(ctx.eflags, false));
      }
      ok := |memory| == |mem.g.mem|;
      if ok {
        mem.g := mem.g.(mem := memory);
      }
    }
  }

  lemma SwitchStackFrame(c: Cpu)
    requires Privilege.Shaped(c) && SwitchStack(c).Ok?
    ensures var (c1, bottom) := SwitchStack(c).value;
      c1.g == c.g && c1.env == c.env && c1.monCr4 == c.monCr4 && c1.ctx.(ss := c.ctx.ss, esp := c.ctx.esp) == c.ctx
  {
    hide TssStack, SelectorUpdated;
  }

  lemma PushNothing(g: Guest)
    requires Sized(g.mem)
    ensures PushAll(g, []) == Ok(g)
  {
  }

  /** A frame whose beginning cannot be pushed cannot be pushed. */
  lemma Rest(g: Guest, frame: seq<(Word, Word)>, n: nat)
    requires Sized(g.mem) && n <= |frame|
    ensures PushAll(g, frame[..n]).Panic? ==> PushAll(g, frame).Panic?
  {
    hide PushAll;
    PushAllConcat(g, frame[..n], frame[n..]);
    assert frame[..n] + frame[n..] == frame;
  }
}
