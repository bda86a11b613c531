/**
 A system call that happens: a ring-3 program with paging on executes INT and comes back behind it.
 */
module SystemCallWitness {
  import opened Words
  import opened Eflags
  import opened Privilege
  import opened RoundTrip
  import opened InterruptTaken
  import opened Resume
  import opened Instructions
  import UserWitness
  import Io

  /** The program in which INT has been stepped past can take the interrupt. */
  lemma AdvancedTakes(c: Cpu, vector: nat, len: nat)
    requires c == UserWitness.User() && vector < 32
    ensures CanTake(Advance(c, len), vector, true, 0x3800, 0x18) && Returns(c) && c.cpl == 3 && c.g.pg
  {
    UserWitness.UserFields();
    UserWitness.UserIsSettled();
    UserWitness.UserLaid();
    hide UserWitness.User, UserWitness.UserGuest, UserWitness.UserEnv, UserWitness.Laid, CanTake, CanReturn, Runnable, Vip, Vif,
      DataSelectorsUserOrNull, WithRpl, Wrap;
    UserWitness.LaidReturn(c);
    DataSelectorsKept(c.ctx, Advance(c, len).ctx);
    UserWitness.LaidCanTake(Advance(c, len), vector, true);
  }

  /** INT from ring 3, of any length and through any of the 32 gates, returns behind itself. */
  lemma SystemCallReturns(vector: nat, memory: Memory, len: nat) returns (vm: Vm)
    requires vector < 32
    ensures vm.c.cpl == 3 && vm.c.g.pg && Returns(vm.c) && GuestFault(vm, Protection(Int(vector, memory), len)).Ok?
    ensures ComesBack(vm.c, vm.c.ctx.(eip := Wrap(vm.c.ctx.eip + len)), None, GuestFault(vm, Protection(Int(vector, memory), len)).value.c)
  {
    hide UserWitness.User, CanTake, Settled, CanReturn, SwitchStack, Interrupt, Iret, Restored, FrameClear, PushAll, InterruptFrame,
      DescriptorMissed, GateOf, DataSelectorsUserOrNull, ComesBack, Wrap;
    var c := UserWitness.User();
    AdvancedTakes(c, vector, len);
    vm := Vm(c, Io.POWER_ON, 0);
    TakesInterrupt(Advance(c, len), vector, true, 0x3800, 0x18);
    FrameFits(Advance(c, len), vector, true, 0x3800, 0x18);
    IntReturnsBehind(vm, vector, memory, len);
  }
}
