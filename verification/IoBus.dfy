/**
 The emulated devices as the monitor holds them: registers updated in place.
 Every method is proved against the value-level operations of `Pic` and `Io`.
 A method that answers `ok == false` has panicked, and its state is dead.
 */
module IoBus {
  import opened Words
  import Pic
  import Io
  import Clock

  class Bus {
    var master: Pic.Chip
    var slave: Pic.Chip
    var intr: bool
    var timer: array<Io.Timer>

    ghost predicate Valid()
      reads this
    {
      timer.Length == 3
    }

    function Pics(): Pic.Pics
      reads this
    {
      Pic.Pics(master, slave, intr)
    }

    ghost function View(): Io.Devices
      requires Valid()
      reads this, timer
    {
      Io.Devices(Pics(), timer[..])
    }

    constructor ()
      ensures Valid() && fresh(timer) && View() == Io.POWER_ON
    {
      master := Pic.POWER_ON.master;
      slave := Pic.POWER_ON.slave;
      intr := false;
      timer := new Io.Timer[3](_ => Io.IDLE);
    }

    /** `picIrq`. */
    method PicIrq(irq: nat) returns (ok: bool)
      modifies this`master, this`slave, this`intr
      ensures ok == Pic.Raise(old(Pics()), irq).Ok?
      ensures ok ==> Pics() == Pic.Raise(old(Pics()), irq).value
      decreases irq
    {
      if irq > 15 {
        return false;
      }
      if irq <= 7 {
        if irq in master.irr {
          return true;
        }
        master := master.(irr := master.irr + {irq});
        if irq in master.imr {
          return true;
        }
        if master.isr != {} {
          return true;
        }
        intr := true;
      } else {
        if irq - 8 in slave.irr {
          return true;
        }
        slave := slave.(irr := slave.irr + {irq - 8});
        if irq - 8 in slave.imr {
          return true;
        }
        if slave.isr != {} {
          return true;
        }
        var cascaded := PicIrq(2);
      }
      return true;
    }

    /** `picServiceMaster`. */
    method PicServiceMaster()
      modifies this`intr
      ensures Pics() == Pic.Service(old(Pics()))
    {
      if master.isr != {} {
        return;
      }
      if master.irr - master.imr == {} {
        return;
      }
      intr := true;
    }

    /** `picIAC`, with its priority scan. */
    method PicIac() returns (r: Outcome<nat>)
      modifies this`master, this`intr
      ensures match Pic.Acknowledge(old(Pics()))
              case Panic => r.Panic?
              case Ok((s, vector)) => r == Ok(vector) && Pics() == s
    {
      if !intr || master.isr != {} {
        return Panic;
      }
      var requests := master.irr - master.imr;
      if requests == {} {
        return Panic;
      }
      var bit := 0;
      while bit <= 7 && bit !in requests
        invariant bit <= 8
        invariant Pic.FirstLine(requests, 0) == Pic.FirstLine(requests, bit)
      {
        bit := bit + 1;
      }
      master := master.(irr := master.irr - {bit});
      master := master.(isr := master.isr + {bit});
      intr := false;
      return Ok(master.vectorOffset + bit);
    }

    /** `picOutp`. */
    method PicOutp(port: nat, val: nat) returns (ok: bool)
      modifies this`master, this`slave, this`intr
      ensures ok == Pic.Out(old(Pics()), port, val).Ok?
      ensures ok ==> Pics() == Pic.Out(old(Pics()), port, val).value
    {
      match port
      case 0x20 =>
        if Pic.TestBit(val, 4) {
          master := master.(imr := {}, isr := {}, irr := {});
          intr := false;
          return !(Pic.TestBit(val, 1) || Pic.TestBit(val, 3));
        }
        if Pic.TestBit(val, 3) || (val != 0x60 && val != 0x63) {
          return false;
        }
        if val - 0x60 !in master.isr {
          return false;
        }
        master := master.(isr := master.isr - {val - 0x60});
        intr := false;
        PicServiceMaster();
        return true;
      case 0x21 =>
        master := master.(imr := Pic.Register(val));
        PicServiceMaster();
        return true;
      case 0xa0 =>
        if !Pic.TestBit(val, 4) {
          return false;
        }
        slave := slave.(imr := {}, isr := {}, irr := {});
        return !(Pic.TestBit(val, 1) || Pic.TestBit(val, 3));
      case 0xa1 =>
        slave := slave.(imr := Pic.Register(val));
        return true;
      case _ =>
        return false;
    }

    /** One timer's turn in `pitExpireClocks`; timer 0 raises IRQ 0. */
    method ExpireTimer(id: nat, clocks: nat) returns (ok: bool)
      requires Valid() && id < 3
      modifies this`master, this`slave, this`intr, timer
      ensures ok == Io.Expire(old(timer[id]), clocks).Ok?
      ensures ok ==> timer[..] == old(timer[..])[id := Io.Expire(old(timer[id]), clocks).value.0]
      ensures ok ==> Pics() == if id == 0 && Io.Expire(old(timer[id]), clocks).value.1 then Pic.RaiseMaster(old(Pics()), 0) else old(Pics())
    {
      hide Pic.RaiseMaster;
      if !timer[id].active {
        return true;
      }
      if timer[id].counter > clocks {
        timer[id] := timer[id].(counter := timer[id].counter - clocks);
        return true;
      }
      if timer[id].mode == 0 {
        timer[id] := timer[id].(counter := 0, active := false);
      } else if timer[id].mode == 2 {
        timer[id] := timer[id].(counter := timer[id].counterMax);
      } else {
        return false;
      }
      if id == 0 {
        var raised := PicIrq(0);
      }
      return true;
    }

    /** `pitExpireClocks`. */
    method PitExpireClocks(clocks: nat) returns (ok: bool)
      requires Valid()
      modifies this`master, this`slave, this`intr, timer
      ensures ok == Io.ExpireAll(old(View()), clocks).Ok?
      ensures ok ==> View() == Io.ExpireAll(old(View()), clocks).value
    {
      hide Pic.RaiseMaster, Io.Expire;
      ghost var was := timer[..];
      ghost var pics := Pics();
      for id := 0 to 3
        invariant forall k | 0 <= k < id :: Io.Expire(was[k], clocks).Ok? && timer[k] == Io.Expire(was[k], clocks).value.0
        invariant forall k | id <= k < 3 :: timer[k] == was[k]
        invariant Pics() == if id > 0 && Io.Expire(was[0], clocks).value.1 then Pic.RaiseMaster(pics, 0) else pics
      {
        ok := ExpireTimer(id, clocks);
        if !ok {
          return;
        }
      }
      return true;
    }

    /** The counter and command ports of `pitOutp`. */
    method PitOutp(port: nat, val: Word) returns (ok: bool)
      requires Valid()
      modifies timer
      ensures ok == Io.OutPit(old(View()), port, val).Ok?
      ensures ok ==> View() == Io.OutPit(old(View()), port, val).value
    {
      if 0x40 <= port <= 0x42 {
        ok := WriteCount(port - 0x40, val);
      } else if port == 0x43 {
        ok := Command(val);
      } else {
        return port == 0x61 && (val % 2 == 1) == timer[2].gate;
      }
    }

    /** The counter port of `pitInp`. */
    method PitInp(port: nat) returns (r: Outcome<nat>)
      requires Valid()
      modifies timer
      ensures match Io.InPit(old(View()), port)
              case Panic => r.Panic?
              case Ok((d, value)) => r == Ok(value) && View() == d
    {
      if port != 0x40 || !timer[0].outputFull {
        return Panic;
      }
      if !timer[0].outputToggle {
        timer[0] := timer[0].(outputToggle := true);
        return Ok(timer[0].outputValue % 0x100);
      }
      timer[0] := timer[0].(outputFull := false, outputToggle := false);
      return Ok(timer[0].outputValue / 0x100 % 0x100);
    }

    method WriteCount(id: nat, val: Word) returns (ok: bool)
      requires Valid() && id < 3
      modifies timer
      ensures ok == Io.WriteCount(old(timer[id]), val).Ok?
      ensures ok ==> timer[..] == old(timer[..])[id := Io.WriteCount(old(timer[id]), val).value]
    {
      var t := timer[id];
      if !t.latch16 {
        return false;
      }
      if !t.inputToggle {
        timer[id] := t.(inputValue := val, inputToggle := true);
        return true;
      }
      t := t.(counterMax := Io.BitOr(t.inputValue, Wrap(0x100 * val)));
      t := t.(inputValue := 0, inputToggle := false, outputFull := false, outputToggle := false);
      if t.mode == 0 {
        t := t.(counter := t.counterMax, active := true);
      } else if t.mode == 2 && t.counterMax != 1 {
        if t.gate && !t.active {
          t := t.(counter := t.counterMax, active := true);
        }
      } else {
        return false;
      }
      timer[id] := t;
      return true;
    }

    method Command(val: Word) returns (ok: bool)
      requires Valid()
      modifies timer
      ensures ok == Io.OutPit(old(View()), 0x43, val).Ok?
      ensures ok ==> View() == Io.OutPit(old(View()), 0x43, val).value
    {
      var id, rw, mode, bcd := val / 64 % 4, val / 16 % 4, val / 2 % 8, val % 2;
      if id == 3 || mode > 5 || bcd == 1 {
        return false;
      }
      if rw == 0 {
        if timer[id].outputFull {
          return false;
        }
        timer[id] := timer[id].(outputFull := true, outputValue := timer[id].counter, outputToggle := false);
        return true;
      }
      if rw != 3 || (mode != 0 && mode != 2) {
        return false;
      }
      timer[id] := timer[id].(mode := mode, latch16 := true, inputValue := 0, inputToggle := false);
      return true;
    }

    /**
     The loop of the HLT instruction.  It runs forever when the guest can never
     wake (`Clock.HaltTerminatesIff`), so waking is what it needs to return.
     */
    method Halt() returns (ghost clocks: nat)
      requires Valid() && Io.Inv(View()) && Clock.WillWake(View())
      modifies this`master, this`slave, this`intr, timer
      ensures intr
      ensures clocks == Clock.HaltClocks(old(View()))
      ensures Clock.Singles(old(View()), clocks) == Ok(View())
    {
      hide Io.Inv, Io.ExpireAll, Clock.WillWake, Clock.HaltClocks, Pic.Inv;
      ghost var start := View();
      Clock.IntrAfter(start, 0);
      clocks := 0;
      while !intr
        invariant Clock.Singles(start, clocks) == Ok(View())
        invariant clocks <= Clock.HaltClocks(start)
        invariant intr ==> clocks == Clock.HaltClocks(start)
        decreases Clock.HaltClocks(start) - clocks
      {
        Clock.IntrAfter(start, clocks);
        Clock.IntrAfter(start, clocks + 1);
        assert Clock.Singles(start, clocks + 1) == Io.ExpireAll(View(), 1);
        var ok := PitExpireClocks(1);
        clocks := clocks + 1;
      }
    }
  }
}
