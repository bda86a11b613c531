/**
 The pair of 8259A interrupt controllers: request, mask and in-service
 registers, the INTR line to the guest CPU, and the operations of `io.c` on them.

 A register is the set of the lines whose bit is 1.  Requests and services only
 ever use bits 0..7, so the bits of a mask above 7 cannot matter.
 */
module Pic {
  import opened Words

  datatype Chip = Chip(imr: set<nat>, isr: set<nat>, irr: set<nat>, vectorOffset: nat)

  datatype Pics = Pics(master: Chip, slave: Chip, intr: bool)

  predicate TestBit(val: nat, k: nat)
    requires k < 8
  {
    if k == 0 then val % 2 == 1 else TestBit(val / 2, k - 1)
  }

  /** The register a port write of `val` stores. */
  function Register(val: nat): set<nat> {
    set line: nat | line < 8 && TestBit(val, line)
  }

  /** State left by `hostInitLinuxIOEnvironment` after `hostInitMonitor`. */
  const POWER_ON := Pics(Chip(Register(0xff), {}, {}, 0x20), Chip(Register(0xfb), {}, {}, 0x28), false)

  /** Requests that are raised and not masked out. */
  function Unmasked(c: Chip): set<nat> {
    c.irr - c.imr
  }

  // ---------------------------------------------------------------- operations

  /** `picIrq` on a master line, `irqNum <= 7`. */
  function RaiseMaster(s: Pics, line: nat): Pics {
    if line in s.master.irr then s
    else
      var s1 := s.(master := s.master.(irr := s.master.irr + {line}));
      if line in s.master.imr || s.master.isr != {} then s1 else s1.(intr := true)
  }

  /** `picIrq` on any line; the slave's output is line 2 of the master. */
  function Raise(s: Pics, irq: nat): Outcome<Pics> {
    if irq > 15 then Panic
    else if irq <= 7 then Ok(RaiseMaster(s, irq))
    else
      var line := irq - 8;
      if line in s.slave.irr then Ok(s)
      else
        var s1 := s.(slave := s.slave.(irr := s.slave.irr + {line}));
        if line in s.slave.imr || s.slave.isr != {} then Ok(s1) else Ok(RaiseMaster(s1, 2))
  }

  /** `picServiceMaster`. */
  function Service(s: Pics): Pics {
    if s.master.isr == {} && Unmasked(s.master) != {} then s.(intr := true) else s
  }

  /** The first requested line at or after `line`; 8 when none of 0..7 is requested. */
  function FirstLine(requests: set<nat>, line: nat): nat
    requires line <= 8
    decreases 8 - line
  {
    if line == 8 || line in requests then line else FirstLine(requests, line + 1)
  }

  /** `picIAC`: the CPU acknowledges INTR and reads an interrupt vector. */
  function Acknowledge(s: Pics): Outcome<(Pics, nat)> {
    var requests := Unmasked(s.master);
    if !s.intr || s.master.isr != {} || requests == {} then Panic
    else
      var line := FirstLine(requests, 0);
      var m := s.master.(irr := s.master.irr - {line}, isr := s.master.isr + {line});
      Ok((Pics(m, s.slave, false), s.master.vectorOffset + line))
  }

  /** Specific EOI. */
  function EndOfInterrupt(s: Pics, line: nat): Outcome<Pics> {
    if line !in s.master.isr then Panic
    else Ok(Service(s.(master := s.master.(isr := s.master.isr - {line}), intr := false)))
  }

  /** ICW1, the reset command, on the master's command port. */
  predicate IsReset(port: nat, val: nat) {
    port == 0x20 && TestBit(val, 4)
  }

  /** `picOutp`; of the EOI commands the source knows those for lines 0 and 3 only. */
  function Out(s: Pics, port: nat, val: nat): Outcome<Pics> {
    if port == 0x20 then
      if TestBit(val, 4) then
        if TestBit(val, 1) || TestBit(val, 3) then Panic
        else Ok(s.(master := s.master.(imr := {}, isr := {}, irr := {}), intr := false))
      else if TestBit(val, 3) then Panic
      else if val == 0x60 then EndOfInterrupt(s, 0)
      else if val == 0x63 then EndOfInterrupt(s, 3)
      else Panic
    else if port == 0x21 then
      Ok(Service(s.(master := s.master.(imr := Register(val)))))
    else if port == 0xa0 then
      if TestBit(val, 4) && !TestBit(val, 1) && !TestBit(val, 3) then
        Ok(s.(slave := s.slave.(imr := {}, isr := {}, irr := {})))
      else Panic
    else if port == 0xa1 then
      Ok(s.(slave := s.slave.(imr := Register(val))))
    else Panic
  }

  // ---------------------------------------------------------------- invariant

  /** No interrupt is lost: an idle controller with an unmasked request drives INTR. */
  ghost predicate Inv(s: Pics) {
    && (forall line | line in s.master.irr :: line < 8)
    && (s.master.isr == {} || exists line: nat | line < 8 :: s.master.isr == {line})
    && (s.intr ==> s.master.isr == {})
    && (s.master.isr == {} && Unmasked(s.master) != {} ==> s.intr)
  }

  /** INTR is backed by a request the CPU can actually be given. */
  predicate IntrBacked(s: Pics) {
    s.intr ==> Unmasked(s.master) != {}
  }

  /** A mask write that hides every pending request while INTR is already high. */
  predicate HidesPending(s: Pics, port: nat, val: nat) {
    port == 0x21 && s.intr && s.master.irr - Register(val) == {}
  }

  lemma {:induction false} FirstLineIsLowest(requests: set<nat>, line: nat)
    requires line <= 8
    ensures line <= FirstLine(requests, line) <= 8
    ensures FirstLine(requests, line) < 8 ==> FirstLine(requests, line) in requests
    ensures forall j | line <= j < FirstLine(requests, line) :: j !in requests
    decreases 8 - line
  {
    if line < 8 && line !in requests {
      FirstLineIsLowest(requests, line + 1);
    }
  }

  /** Each acknowledgement delivers the lowest-numbered unmasked pending line and moves only it. */
  lemma AcknowledgePicksHighestPriority(s: Pics) returns (line: nat)
    requires Inv(s) && Acknowledge(s).Ok?
    ensures var (s', vector) := Acknowledge(s).value;
      && vector == s.master.vectorOffset + line
      && line < 8 && line in s.master.irr && line !in s.master.imr
      && (forall j | 0 <= j < line && j in s.master.irr :: j in s.master.imr)
      && s'.master == s.master.(irr := s.master.irr - {line}, isr := {line})
      && s'.slave == s.slave && !s'.intr
  {
    FirstLineIsLowest(Unmasked(s.master), 0);
    line := FirstLine(Unmasked(s.master), 0);
  }

  // ---------------------------------------------------------------- every operation keeps it

  lemma RaiseMasterKeeps(s: Pics, line: nat)
    requires Inv(s) && line < 8
    ensures Inv(RaiseMaster(s, line))
    ensures IntrBacked(s) ==> IntrBacked(RaiseMaster(s, line))
    ensures s.master.irr <= RaiseMaster(s, line).master.irr
    ensures RaiseMaster(s, line).master.vectorOffset == s.master.vectorOffset
  {
    var s' := RaiseMaster(s, line);
    if s'.master.irr != s.master.irr && line !in s.master.imr {
      assert line in Unmasked(s'.master);
    } else {
      assert Unmasked(s'.master) == Unmasked(s.master);
    }
  }

  lemma RaiseKeeps(s: Pics, irq: nat)
    requires Inv(s) && Raise(s, irq).Ok?
    ensures Inv(Raise(s, irq).value)
    ensures IntrBacked(s) ==> IntrBacked(Raise(s, irq).value)
    ensures s.master.irr <= Raise(s, irq).value.master.irr
    ensures Raise(s, irq).value.master.vectorOffset == s.master.vectorOffset
  {
    hide RaiseMaster;
    if irq <= 7 {
      RaiseMasterKeeps(s, irq);
    } else {
      RaiseMasterKeeps(s.(slave := s.slave.(irr := s.slave.irr + {irq - 8})), 2);
    }
  }

  lemma AcknowledgeKeeps(s: Pics)
    requires Inv(s) && Acknowledge(s).Ok?
    ensures Inv(Acknowledge(s).value.0) && IntrBacked(Acknowledge(s).value.0)
    ensures Acknowledge(s).value.0.master.vectorOffset == s.master.vectorOffset
  {
    var line := AcknowledgePicksHighestPriority(s);
  }

  lemma OutKeeps(s: Pics, port: nat, val: nat)
    requires Inv(s) && Out(s, port, val).Ok?
    ensures Inv(Out(s, port, val).value)
    ensures IntrBacked(s) ==> (IntrBacked(Out(s, port, val).value) <==> !HidesPending(s, port, val))
    ensures !IsReset(port, val) ==> Out(s, port, val).value.master.irr == s.master.irr
    ensures Out(s, port, val).value.master.vectorOffset == s.master.vectorOffset
  {
    if port == 0x20 && !TestBit(val, 4) {
      var line := if val == 0x60 then 0 else 3;
      assert s.master.isr - {line} == {};
    }
  }

  /**
   With INTR high, the acknowledge panics exactly when the mask hides every
   request, so a backed INTR can always be acknowledged.
   */
  lemma AcknowledgePanicsIff(s: Pics)
    requires Inv(s) && s.intr
    ensures Acknowledge(s).Panic? <==> !IntrBacked(s)
  {
  }

  // ---------------------------------------------------------------- what the operations do

  /**
   A raise records its line, whatever is masked or in service, and touches no other line; a request new to an idle slave, and not masked
   there, also raises line 2; above 15 it panics.
   */
  lemma RaiseRecords(s: Pics, irq: nat)
    ensures Raise(s, irq).Ok? <==> irq <= 15
    ensures irq <= 7 ==> var s' := Raise(s, irq).value;
      irq in s'.master.irr && s' == s.(master := s.master.(irr := s.master.irr + {irq}), intr := s'.intr)
    ensures 8 <= irq <= 15 ==> var s' := Raise(s, irq).value;
      && irq - 8 in s'.slave.irr && s'.slave == s.slave.(irr := s.slave.irr + {irq - 8})
      && s'.master == s.master.(irr := s'.master.irr) && s.master.irr <= s'.master.irr <= s.master.irr + {2}
      && (2 in s'.master.irr <==> 2 in s.master.irr || (irq - 8 !in s.slave.irr && irq - 8 !in s.slave.imr && s.slave.isr == {}))
    ensures irq <= 15 && s.intr ==> Raise(s, irq).value.intr
  {
    if irq <= 7 && irq in s.master.irr {
      assert s.master.irr + {irq} == s.master.irr;
    }
    if 8 <= irq <= 15 && irq - 8 in s.slave.irr {
      assert s.slave.irr + {irq - 8} == s.slave.irr;
    }
  }

  /** The EOI of an interrupt in service, lines 0 and 3: it ends that service alone, and INTR shows what is left. */
  lemma EoiServes(s: Pics, line: nat)
    requires line == 0 || line == 3
    ensures Out(s, 0x20, 0x60 + line).Ok? <==> line in s.master.isr
    ensures line in s.master.isr ==> var s' := Out(s, 0x20, 0x60 + line).value;
      && s' == s.(master := s.master.(isr := s.master.isr - {line}), intr := s'.intr)
      && (s'.intr <==> s.master.isr == {line} && exists pending :: pending in s.master.irr && pending !in s.master.imr)
  {
    assert !TestBit(0x60, 4) && !TestBit(0x60, 3) && !TestBit(0x63, 4) && !TestBit(0x63, 3);
    if line in s.master.isr {
      assert s.master.isr - {line} == {} <==> s.master.isr == {line};
      SomePending(s.master.(isr := s.master.isr - {line}));
    }
  }

  lemma SomePending(c: Chip)
    ensures Unmasked(c) != {} <==> exists pending :: pending in c.irr && pending !in c.imr
  {
    if Unmasked(c) != {} {
      var pending :| pending in Unmasked(c);
      assert pending in c.irr && pending !in c.imr;
    } else {
      assert forall pending :: pending in c.irr && pending !in c.imr ==> pending in Unmasked(c);
    }
  }

  /** So a request that arrives while another is in service is not lost: INTR goes up at the EOI. */
  lemma DeferredRaise(s: Pics, served: nat, line: nat)
    requires s.master.isr == {served} && (served == 0 || served == 3) && line < 8 && line !in s.master.imr
    ensures Raise(s, line).Ok? && Out(Raise(s, line).value, 0x20, 0x60 + served).Ok?
    ensures var s' := Out(Raise(s, line).value, 0x20, 0x60 + served).value;
      s'.intr && line in s'.master.irr && s'.master.isr == {}
  {
    hide Raise, Out;
    RaiseRecords(s, line);
    EoiServes(Raise(s, line).value, served);
    assert line in Raise(s, line).value.master.irr;
  }

  /** A mask write sets exactly the bits written to its own chip, and ICW1 clears the chip it goes to. */
  lemma MaskAndReset(s: Pics, val: nat)
    ensures Out(s, 0x21, val).Ok? && var s' := Out(s, 0x21, val).value;
      && (forall line :: line in s'.master.imr <==> 0 <= line < 8 && TestBit(val, line))
      && s' == s.(master := s.master.(imr := s'.master.imr), intr := s'.intr) && (s.intr ==> s'.intr)
    ensures Out(s, 0xa1, val).Ok? && var s' := Out(s, 0xa1, val).value;
      && (forall line :: line in s'.slave.imr <==> 0 <= line < 8 && TestBit(val, line))
      && s' == s.(slave := s.slave.(imr := s'.slave.imr))
    ensures Out(s, 0x20, 0x11) == Ok(s.(master := Chip({}, {}, {}, s.master.vectorOffset), intr := false))
    ensures Out(s, 0xa0, 0x11) == Ok(s.(slave := Chip({}, {}, {}, s.slave.vectorOffset)))
  {
    assert TestBit(0x11, 4) && !TestBit(0x11, 1) && !TestBit(0x11, 3);
  }

  /** The port writes the source knows: ICW1 alone, the two EOIs of a line in service, and the masks. */
  lemma OutAccepts(s: Pics, port: nat, val: nat)
    ensures Out(s, port, val).Ok? <==>
      || (port == 0x20 && val / 16 % 2 == 1 && val / 2 % 2 == 0 && val / 8 % 2 == 0)
      || (port == 0x20 && ((val == 0x60 && 0 in s.master.isr) || (val == 0x63 && 3 in s.master.isr)))
      || (port == 0xa0 && val / 16 % 2 == 1 && val / 2 % 2 == 0 && val / 8 % 2 == 0)
      || port == 0x21 || port == 0xa1
  {
    hide Service, Register, TestBit;
    BitsTested(val);
    BitsTested(0x60);
    BitsTested(0x63);
  }

  lemma BitsTested(val: nat)
    ensures TestBit(val, 1) == (val / 2 % 2 == 1) && TestBit(val, 3) == (val / 8 % 2 == 1) && TestBit(val, 4) == (val / 16 % 2 == 1)
  {
    assert val / 2 / 2 / 2 == val / 8 && val / 2 / 2 / 2 / 2 == val / 16;
    assert TestBit(val / 2 / 2, 1) == TestBit(val / 2 / 2 / 2, 0);
    assert TestBit(val / 2 / 2 / 2, 1) == TestBit(val / 2 / 2 / 2 / 2, 0);
  }
}
