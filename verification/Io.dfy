/**
 The 82C54 timers in front of the interrupt controllers, and runs of the
 emulated devices.
 */
module Io {
  import opened Words
  import Pic

  /**
   One counter.  The OUT pin and the BCD flag are never consulted by the
   operations below.
   */
  datatype Timer = Timer(
    mode: nat,
    latch16: bool,
    inputValue: nat,
    inputToggle: bool,
    outputValue: nat,
    outputToggle: bool,
    outputFull: bool,
    counterMax: nat,
    counter: nat,
    active: bool,
    gate: bool)

  const IDLE := Timer(0, false, 0, false, 0, false, false, 0, 0, false, true)

  type Timers = ts: seq<Timer> | |ts| == 3 witness [IDLE, IDLE, IDLE]

  datatype Devices = Devices(pic: Pic.Pics, timers: Timers)

  /** State left by `hostInitLinuxIOEnvironment`. */
  const POWER_ON := Devices(Pic.POWER_ON, [IDLE, IDLE, IDLE])

  // ---------------------------------------------------------------- operations

  /** One timer's share of `pitExpireClocks`: the timer afterwards, and whether it expired. */
  function Expire(t: Timer, clocks: nat): Outcome<(Timer, bool)> {
    if !t.active then Ok((t, false))
    else if t.counter > clocks then Ok((t.(counter := t.counter - clocks), false))
    else if t.mode == 0 then Ok((t.(counter := 0, active := false), true))
    else if t.mode == 2 then Ok((t.(counter := t.counterMax), true))
    else Panic
  }

  /** `pitExpireClocks`: only timer 0 is wired to an interrupt line. */
  function ExpireAll(d: Devices, clocks: nat): Outcome<Devices>
  {
    var (t0, fired) :- Expire(d.timers[0], clocks);
    var (t1, _) :- Expire(d.timers[1], clocks);
    var (t2, _) :- Expire(d.timers[2], clocks);
    Ok(Devices(if fired then Pic.RaiseMaster(d.pic, 0) else d.pic, [t0, t1, t2]))
  }

  /** Bitwise or. */
  function BitOr(a: nat, b: nat): nat {
    if a == 0 then b else if b == 0 then a
    else 2 * BitOr(a / 2, b / 2) + (if a % 2 == 1 || b % 2 == 1 then 1 else 0)
  }

  /** A byte written to a counter port. */
  function WriteCount(t: Timer, val: Word): Outcome<Timer> {
    if !t.latch16 then Panic
    else if !t.inputToggle then Ok(t.(inputValue := val, inputToggle := true))
    else
      var count := BitOr(t.inputValue, Wrap(0x100 * val));
      var t1 := t.(inputValue := 0, inputToggle := false, counterMax := count, outputFull := false, outputToggle := false);
      if t.mode == 0 then Ok(t1.(counter := count, active := true))
      else if t.mode == 2 && count != 1 then
        Ok(if t.gate && !t.active then t1.(counter := count, active := true) else t1)
      else Panic
  }

  /** The command byte on port 0x43, already split into its fields. */
  function Command(t: Timer, rw: nat, mode: nat, bcd: nat): Outcome<Timer> {
    if mode > 5 || bcd != 0 then Panic
    else if rw == 0 then
      if t.outputFull then Panic
      else Ok(t.(outputFull := true, outputValue := t.counter, outputToggle := false))
    else if rw != 3 || (mode != 0 && mode != 2) then Panic
    else Ok(t.(mode := mode, latch16 := true, inputValue := 0, inputToggle := false))
  }

  /** `pitOutp`. */
  function OutPit(d: Devices, port: nat, val: Word): Outcome<Devices>
  {
    if 0x40 <= port <= 0x42 then
      var t :- WriteCount(d.timers[port - 0x40], val);
      Ok(d.(timers := d.timers[port - 0x40 := t]))
    else if port == 0x43 then
      var id := val / 64 % 4;
      if id >= 3 then Panic
      else
        var t :- Command(d.timers[id], val / 16 % 4, val / 2 % 8, val % 2);
        Ok(d.(timers := d.timers[id := t]))
    else if port == 0x61 then
      if (val % 2 == 1) == d.timers[2].gate then Ok(d) else Panic
    else Panic
  }

  /** The counter byte a read of port 0x40 takes out of the latch, low half first. */
  function ReadLatch(t: Timer): Outcome<(Timer, nat)> {
    if !t.outputFull then Panic
    else if !t.outputToggle then Ok((t.(outputToggle := true), t.outputValue % 0x100))
    else Ok((t.(outputFull := false, outputToggle := false), t.outputValue / 0x100 % 0x100))
  }

  /** `pitInp` on the counter port. */
  function InPit(d: Devices, port: nat): Outcome<(Devices, nat)> {
    if port != 0x40 then Panic
    else
      var (t, value) :- ReadLatch(d.timers[0]);
      Ok((d.(timers := d.timers[0 := t]), value))
  }

  // ---------------------------------------------------------------- runs

  datatype Op = Irq(irq: nat) | Iac | PicOut(port: nat, val: nat) | PitOut(pitPort: nat, pitVal: Word) | PitIn(inPort: nat) | Clocks(clocks: nat)

  /** One device operation, with the vector it hands to the CPU, if any. */
  function Step(d: Devices, op: Op): Outcome<(Devices, Option<nat>)>
  {
    match op
    case Irq(irq) => var p :- Pic.Raise(d.pic, irq); Ok((d.(pic := p), None))
    case Iac => var (p, vector) :- Pic.Acknowledge(d.pic); Ok((d.(pic := p), Some(vector)))
    case PicOut(port, val) => var p :- Pic.Out(d.pic, port, val); Ok((d.(pic := p), None))
    case PitOut(port, val) => var d1 :- OutPit(d, port, val); Ok((d1, None))
    case PitIn(port) => var (d1, _) :- InPit(d, port); Ok((d1, None))
    case Clocks(n) => var d1 :- ExpireAll(d, n); Ok((d1, None))
  }

  /** Active timers count in a mode the expiry code understands. */
  predicate ModesOk(d: Devices) {
    forall i | 0 <= i < 3 :: d.timers[i].mode == 0 || d.timers[i].mode == 2
  }

  ghost predicate Inv(d: Devices) {
    ModesOk(d) && Pic.Inv(d.pic)
  }

  lemma OutPitKeeps(d: Devices, port: nat, val: Word)
    requires ModesOk(d) && OutPit(d, port, val).Ok?
    ensures ModesOk(OutPit(d, port, val).value)
    ensures OutPit(d, port, val).value.pic == d.pic
  {
    hide BitOr;
  }

  lemma ExpireAllKeeps(d: Devices, n: nat)
    requires Inv(d)
    ensures ExpireAll(d, n).Ok? && Inv(ExpireAll(d, n).value)
    ensures ExpireAll(d, n).value.pic == d.pic || ExpireAll(d, n).value.pic == Pic.RaiseMaster(d.pic, 0)
    ensures ExpireAll(d, n).value.pic.master.vectorOffset == d.pic.master.vectorOffset
  {
    hide Expire, Pic.Inv, Pic.RaiseMaster, Pic.IntrBacked;
    ExpireKeepsMode(d.timers[0], n);
    ExpireKeepsMode(d.timers[1], n);
    ExpireKeepsMode(d.timers[2], n);
    Pic.RaiseMasterKeeps(d.pic, 0);
  }

  lemma ExpireKeepsMode(t: Timer, n: nat)
    requires t.mode == 0 || t.mode == 2
    ensures Expire(t, n).Ok? && Expire(t, n).value.0.mode == t.mode
  {
  }

  lemma StepKeeps(d: Devices, op: Op)
    requires Inv(d) && Step(d, op).Ok?
    ensures Inv(Step(d, op).value.0)
    ensures Step(d, op).value.0.pic.master.vectorOffset == d.pic.master.vectorOffset
  {
    hide OutPit, ExpireAll, Pic.Raise, Pic.Acknowledge, Pic.Out, Pic.Inv, Pic.IntrBacked;
    match op
    case Irq(irq) => Pic.RaiseKeeps(d.pic, irq);
    case Iac => Pic.AcknowledgeKeeps(d.pic);
    case PicOut(port, val) => Pic.OutKeeps(d.pic, port, val);
    case PitOut(port, val) => OutPitKeeps(d, port, val);
    case PitIn(port) =>
    case Clocks(n) => ExpireAllKeeps(d, n);
  }

  function Run(d: Devices, ops: seq<Op>): Outcome<Devices>
    decreases ops
  {
    if ops == [] then Ok(d)
    else
      var (d1, _) :- Step(d, ops[0]);
      Run(d1, ops[1..])
  }

  /**
   No lost interrupts, over every run of the devices from power-on; and the
   clock never meets a timer mode it does not know.
   */
  lemma {:induction false} RunKeeps(d: Devices, ops: seq<Op>)
    requires Inv(d) && Run(d, ops).Ok?
    ensures Inv(Run(d, ops).value)
    ensures forall n: nat :: ExpireAll(Run(d, ops).value, n).Ok?
    decreases ops
  {
    if ops == [] {
      forall n: nat {
        ExpireAllKeeps(d, n);
      }
    } else {
      hide Step, Inv;
      StepKeeps(d, ops[0]);
      RunKeeps(Step(d, ops[0]).value.0, ops[1..]);
    }
  }

  lemma PowerOnRuns(ops: seq<Op>)
    requires Run(POWER_ON, ops).Ok?
    ensures Inv(Run(POWER_ON, ops).value)
    ensures forall n: nat :: ExpireAll(Run(POWER_ON, ops).value, n).Ok?
  {
    assert Pic.Unmasked(Pic.POWER_ON.master) == {};
    RunKeeps(POWER_ON, ops);
  }

  // ---------------------------------------------------------------- the counter latch

  lemma ExpireKeepsLatch(t: Timer, n: nat)
    requires Expire(t, n).Ok?
    ensures var t' := Expire(t, n).value.0;
      t'.outputFull == t.outputFull && t'.outputToggle == t.outputToggle && t'.outputValue == t.outputValue
  {
  }

  /**
   Latch, read, read: whatever clocks pass in between, the two bytes are the counter as it stood at the
   latch command, modulo 16 bits, and the latch is free for the next command.
   */
  lemma LatchReadsBack(t: Timer, mode: nat, n0: nat, n1: nat)
    requires !t.outputFull && mode <= 5 && (t.mode == 0 || t.mode == 2)
    ensures var t1 := Command(t, 0, mode, 0).value;
      && Command(t, 0, mode, 0).Ok? && Expire(t1, n0).Ok?
      && var r0 := ReadLatch(Expire(t1, n0).value.0);
      && r0.Ok? && Expire(r0.value.0, n1).Ok?
      && var r1 := ReadLatch(Expire(r0.value.0, n1).value.0);
      && r1.Ok?
      && r0.value.1 + 0x100 * r1.value.1 == t.counter % 0x1_0000
      && !r1.value.0.outputFull
  {
    var t1 := Command(t, 0, mode, 0).value;
    ExpireKeepsLatch(t1, n0);
    var t2 := ReadLatch(Expire(t1, n0).value.0).value.0;
    ExpireKeepsLatch(t2, n1);
    TwoBytes(t.counter);
  }

  lemma TwoBytes(c: nat)
    ensures c % 0x100 + 0x100 * (c / 0x100 % 0x100) == c % 0x1_0000
  {
    var q := c / 0x100;
    assert c == 0x100 * q + c % 0x100;
    assert q == 0x100 * (q / 0x100) + q % 0x100;
    LowPart(c % 0x100 + 0x100 * (q % 0x100), q / 0x100);
  }

  // ---------------------------------------------------------------- spurious INTR

  predicate HidesPending(d: Devices, op: Op) {
    op.PicOut? && Pic.HidesPending(d.pic, op.port, op.val)
  }

  /** No step of the run masks away the last request behind a raised INTR. */
  predicate NeverHides(d: Devices, ops: seq<Op>)
    decreases ops
  {
    ops == [] || (!HidesPending(d, ops[0]) &&
                  (Step(d, ops[0]).Ok? ==> NeverHides(Step(d, ops[0]).value.0, ops[1..])))
  }

  lemma StepBacked(d: Devices, op: Op)
    requires Inv(d) && Step(d, op).Ok? && Pic.IntrBacked(d.pic)
    ensures Pic.IntrBacked(Step(d, op).value.0.pic) <==> !HidesPending(d, op)
  {
    hide OutPit, ExpireAll, Pic.Raise, Pic.RaiseMaster, Pic.Acknowledge, Pic.Out;
    match op
    case Irq(irq) => Pic.RaiseKeeps(d.pic, irq);
    case Iac => Pic.AcknowledgeKeeps(d.pic);
    case PicOut(port, val) => Pic.OutKeeps(d.pic, port, val);
    case PitOut(port, val) => OutPitKeeps(d, port, val);
    case PitIn(port) =>
    case Clocks(n) => ExpireAllKeeps(d, n); Pic.RaiseMasterKeeps(d.pic, 0);
  }

  /** Short of such a mask write, an acknowledge panics exactly when INTR is low. */
  lemma {:induction false} AcknowledgeSafe(d: Devices, ops: seq<Op>)
    requires Inv(d) && Pic.IntrBacked(d.pic) && Run(d, ops).Ok? && NeverHides(d, ops)
    ensures Pic.Acknowledge(Run(d, ops).value.pic).Ok? <==> Run(d, ops).value.pic.intr
    decreases ops
  {
    if ops != [] {
      hide Step, Inv, HidesPending;
      StepKeeps(d, ops[0]);
      StepBacked(d, ops[0]);
      AcknowledgeSafe(Step(d, ops[0]).value.0, ops[1..]);
    }
  }

  /** The mask write does reach the panic: unmask, raise line 3, mask again, acknowledge. */
  lemma SpuriousInterruptPanics()
    ensures var ops := [PicOut(0x21, 0), Irq(3), PicOut(0x21, 0xff)];
      Run(POWER_ON, ops).Ok? && Run(POWER_ON, ops + [Iac]).Panic? && Run(POWER_ON, ops).value.pic.intr
  {
    var d1 := Step(POWER_ON, PicOut(0x21, 0)).value.0;
    var d2 := Step(d1, Irq(3)).value.0;
    var d3 := Step(d2, PicOut(0x21, 0xff)).value.0;
    var ops := [PicOut(0x21, 0), Irq(3), PicOut(0x21, 0xff)];
    assert 3 !in Pic.Register(0);
    assert d2.pic.intr;
    assert 3 in Pic.Register(0xff);
    assert Pic.Unmasked(d3.pic.master) == {};
    assert ops[1..][1..][1..] == [];
    var all := ops + [Iac];
    assert all[1..][1..][1..] == [Iac];
    assert Step(d3, Iac).Panic?;
    assert Run(d3, [Iac]).Panic?;
    assert Run(d2, all[1..][1..]).Panic?;
    assert Run(d1, all[1..]).Panic?;
  }

  // ---------------------------------------------------------------- conservation

  /** Accepted raises: steps at which the line's request bit goes from 0 to 1. */
  function Raises(d: Devices, ops: seq<Op>, line: nat): nat
    requires Run(d, ops).Ok?
    decreases ops
  {
    if ops == [] then 0
    else
      var d1 := Step(d, ops[0]).value.0;
      Bit(line !in d.pic.master.irr && line in d1.pic.master.irr) + Raises(d1, ops[1..], line)
  }

  /** Acknowledgements: steps that hand the CPU this line's vector. */
  function Acks(d: Devices, ops: seq<Op>, line: nat): nat
    requires Run(d, ops).Ok?
    decreases ops
  {
    if ops == [] then 0
    else
      var (d1, vector) := Step(d, ops[0]).value;
      Bit(vector == Some(d.pic.master.vectorOffset + line)) + Acks(d1, ops[1..], line)
  }

  predicate NoReset(ops: seq<Op>) {
    forall i | 0 <= i < |ops| && ops[i].PicOut? :: !Pic.IsReset(ops[i].port, ops[i].val)
  }

  lemma StepConserves(d: Devices, op: Op, line: nat)
    requires Inv(d) && Step(d, op).Ok? && line < 8
    requires op.PicOut? ==> !Pic.IsReset(op.port, op.val)
    ensures var (d1, vector) := Step(d, op).value;
      Bit(line in d.pic.master.irr) + Bit(line !in d.pic.master.irr && line in d1.pic.master.irr)
      == Bit(vector == Some(d.pic.master.vectorOffset + line)) + Bit(line in d1.pic.master.irr)
  {
    hide OutPit, ExpireAll, Pic.Raise, Pic.RaiseMaster, Pic.Acknowledge, Pic.Out;
    match op
    case Irq(irq) => Pic.RaiseKeeps(d.pic, irq);
    case Iac => var acked := Pic.AcknowledgePicksHighestPriority(d.pic);
    case PicOut(port, val) => Pic.OutKeeps(d.pic, port, val);
    case PitOut(port, val) => OutPitKeeps(d, port, val);
    case PitIn(port) =>
    case Clocks(n) => ExpireAllKeeps(d, n); Pic.RaiseMasterKeeps(d.pic, 0);
  }

  /** Between resets, every accepted raise of a line is acknowledged once or is still pending. */
  lemma {:induction false} InterruptsConserved(d: Devices, ops: seq<Op>, line: nat)
    requires Inv(d) && Run(d, ops).Ok? && NoReset(ops) && line < 8
    ensures Bit(line in d.pic.master.irr) + Raises(d, ops, line)
         == Acks(d, ops, line) + Bit(line in Run(d, ops).value.pic.master.irr)
    decreases ops
  {
    if ops != [] {
      hide Step, Inv;
      StepKeeps(d, ops[0]);
      StepConserves(d, ops[0], line);
      InterruptsConserved(Step(d, ops[0]).value.0, ops[1..], line);
    }
  }

  // ---------------------------------------------------------------- raises over runs

  /** A raised line stays pending, through any run without a reset, until its vector is acknowledged. */
  lemma RaisedStaysPending(d: Devices, line: nat, ops: seq<Op>)
    requires Inv(d) && line < 8 && NoReset(ops)
    ensures Step(d, Irq(line)).Ok?
    ensures var d1 := Step(d, Irq(line)).value.0;
      Run(d1, ops).Ok? && Acks(d1, ops, line) == 0 ==> line in Run(d1, ops).value.pic.master.irr
  {
    hide Pic.Inv, Pic.Raise, Run, Acks, Raises;
    Pic.RaiseRecords(d.pic, line);
    StepKeeps(d, Irq(line));
    var d1 := Step(d, Irq(line)).value.0;
    if Run(d1, ops).Ok? {
      InterruptsConserved(d1, ops, line);
    }
  }

  // ---------------------------------------------------------------- programming a timer

  lemma {:induction false} OrDisjoint(a: nat, b: nat, bits: nat, scale: nat)
    requires scale == Scale(bits) && a < scale
    ensures BitOr(a, scale * b) == a + scale * b
    decreases bits
  {
    if bits > 0 && a > 0 && b > 0 {
      var half := Scale(bits - 1);
      assert scale * b == 2 * (half * b);
      OrDisjoint(a / 2, b, bits - 1, half);
      assert (scale * b) / 2 == half * b && (scale * b) % 2 == 0;
      assert half * b > 0;
    }
  }

  function Scale(bits: nat): nat {
    if bits == 0 then 1 else 2 * Scale(bits - 1)
  }

  /** Low byte, then high byte: the count is `low + 256 * high`, in force at once in mode 0. */
  lemma CountWritten(t: Timer, low: nat, high: nat)
    requires low < 256 && high < 256 && t.latch16 && !t.inputToggle
    requires t.mode == 0 || (t.mode == 2 && low + 256 * high != 1)
    ensures WriteCount(t, low).Ok? && WriteCount(WriteCount(t, low).value, high).Ok?
    ensures var t' := WriteCount(WriteCount(t, low).value, high).value;
      && t'.counterMax == low + 256 * high && t'.mode == t.mode && !t'.inputToggle
      && (t.mode == 0 ==> t'.counter == low + 256 * high && t'.active)
      && (t.mode == 2 && t.gate && !t.active ==> t'.counter == low + 256 * high && t'.active)
      && (t.mode == 2 && t.active ==> t'.counter == t.counter && t'.active)
  {
    hide BitOr;
    assert Scale(8) == 256;
    OrDisjoint(low, high, 8, Scale(8));
    hide Scale;
  }

  /** A command byte addresses its own timer and sets the mode it names. */
  lemma CommandSets(d: Devices, id: nat, mode: nat)
    requires id < 3 && (mode == 0 || mode == 2)
    ensures var r := OutPit(d, 0x43, 64 * id + 48 + 2 * mode);
      && r.Ok? && r.value.pic == d.pic
      && r.value.timers[id].mode == mode && r.value.timers[id].latch16 && !r.value.timers[id].inputToggle
      && forall k | 0 <= k < 3 && k != id :: r.value.timers[k] == d.timers[k]
  {
    CommandFields(id, mode);
  }

  lemma CommandFields(id: nat, mode: nat)
    requires id < 3 && (mode == 0 || mode == 2)
    ensures var val := 64 * id + 48 + 2 * mode; val / 64 % 4 == id && val / 16 % 4 == 3 && val / 2 % 8 == mode && val % 2 == 0
  {
  }

  /** What `pitOutp` accepts; anything else panics. */
  lemma OutPitAccepts(d: Devices, port: nat, val: Word)
    requires port == 0x40 || port == 0x41 || port == 0x42 ==> val < 256 && d.timers[port - 0x40].inputValue < 256
    ensures OutPit(d, port, val).Ok? <==>
      if port == 0x40 || port == 0x41 || port == 0x42 then
        var t := d.timers[port - 0x40];
        t.latch16 && (t.inputToggle ==> t.mode == 0 || (t.mode == 2 && t.inputValue + 256 * val != 1))
      else if port == 0x43 then
        var id, rw, mode := val / 64 % 4, val / 16 % 4, val / 2 % 8;
        id < 3 && val % 2 == 0 && ((rw == 0 && mode <= 5 && !d.timers[id].outputFull) || (rw == 3 && (mode == 0 || mode == 2)))
      else port == 0x61 && (val % 2 == 1) == d.timers[2].gate
  {
    hide BitOr;
    if 0x40 <= port <= 0x42 {
      assert Scale(8) == 256;
      OrDisjoint(d.timers[port - 0x40].inputValue, val, 8, Scale(8));
    }
    hide Scale;
  }

  /** A port write changes one timer at most, a counter write the timer of its port, and the gate never. */
  lemma OutPitLocal(d: Devices, port: nat, val: Word)
    requires OutPit(d, port, val).Ok?
    ensures var d' := OutPit(d, port, val).value;
      && d'.pic == d.pic
      && (forall k | 0 <= k < 3 :: d'.timers[k].gate == d.timers[k].gate)
      && (forall k | 0 <= k < 3 && (if port == 0x43 then k != val / 64 % 4 else port != 0x40 + k) :: d'.timers[k] == d.timers[k])
  {
    hide BitOr;
  }
}
