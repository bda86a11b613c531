/**
 A ring-3 guest with an interrupt pending, unmasked and driving INTR, that is resumed without it.
 */
module PendingWitness {
  import opened Words
  import opened Eflags
  import opened Privilege
  import opened RoundTrip
  import Pic
  import Io
  import Resume
  import UserWitness

  /** The devices at power-on, unmasked, with a request on line 3. */
  function Pending(): Io.Devices {
    Io.POWER_ON.(pic := Pic.POWER_ON.(master := Pic.POWER_ON.master.(imr := {}, irr := {3}), intr := true))
  }

  lemma {:induction false} NoBits(k: nat)
    requires k < 8
    ensures !Pic.TestBit(0, k)
  {
    if k > 0 {
      NoBits(k - 1);
    }
  }

  /** They are what unmasking and raising line 3 leads to. */
  lemma PendingArises()
    ensures Io.Run(Io.POWER_ON, [Io.PicOut(0x21, 0), Io.Irq(3)]) == Ok(Pending())
  {
    forall line: nat | line < 8
      ensures !Pic.TestBit(0, line)
    {
      NoBits(line);
    }
    assert Pic.Register(0) == {};
    var ops := [Io.PicOut(0x21, 0), Io.Irq(3)];
    assert ops[1..] == [Io.Irq(3)] && ops[1..][1..] == [];
    var d1 := Io.Step(Io.POWER_ON, ops[0]).value.0;
    assert Pic.Unmasked(d1.pic.master) == {} && d1.pic.master.irr + {3} == {3};
    assert Io.Step(d1, Io.Irq(3)) == Ok((Pending(), None));
    assert Io.Run(Pending(), []) == Ok(Pending());
    assert Io.Run(d1, ops[1..]) == Ok(Pending());
  }

  /** Resuming it: no time has passed and nothing is asked, so only the delivery condition decides. */
  lemma ResumesWithout(vm: Resume.Vm)
    requires Resume.Inside(vm) && vm.c.cpl == 3 && vm.cycles == 0
    ensures Resume.PreGuest(vm, None).Ok?
    ensures Resume.PreGuest(vm, None).value.io == vm.io
  {
    hide Vip, Runnable, SetVip, Vif;
    Resume.PreGuestResumes(vm, None);
  }

  lemma PendingFields()
    ensures var pic := Pending().pic;
      pic.intr && 3 in pic.master.irr && 3 !in pic.master.imr && pic.master.isr == {}
    ensures Pic.IntrBacked(Pending().pic) && Io.Inv(Pending())
  {
    assert 3 in Pic.Unmasked(Pending().pic.master);
  }

  /**
   There is a user program with a deliverable request behind INTR, and `preGuest` resumes it in ring 3
   with the devices as they were.
   */
  lemma PendingInRing3() returns (vm: Resume.Vm)
    ensures Resume.Inside(vm) && vm.c.cpl == 3 && Io.Inv(vm.io)
    ensures vm.io.pic.intr && Pic.IntrBacked(vm.io.pic) && vm.io.pic.master.isr == {}
    ensures Resume.PreGuest(vm, None).Ok?
    ensures Resume.PreGuest(vm, None).value.io == vm.io && Resume.PreGuest(vm, None).value.c.cpl == 3
  {
    hide UserWitness.User, Pending, Settled, Resumable, Vip, Io.Inv, Pic.IntrBacked;
    vm := Resume.Vm(UserWitness.User(), Pending(), 0);
    UserWitness.UserFields();
    UserWitness.UserIsSettled();
    SettledParts(vm.c);
    PendingFields();
    ResumesWithout(vm);
    Resume.Ring3IsNeverInterrupted(vm, None);
  }

  lemma SettledParts(c: Cpu)
    requires Settled(c)
    ensures Resumable(c) && !Vip(c.ctx.eflags)
  {
  }
}
