/**
 A user-mode state that passes every check of the first entry and leaves a ring-0 descriptor in the GDT.
 */
module EntryWitness {
  import opened Words
  import opened GuestTables
  import opened Eflags
  import opened Privilege
  import opened Entry

  function UserCode(): Descriptor {
    Descriptor(0, 0, 0, 0x1a, 3, 1, 0, 0, 0, 1, 0, 0)
  }

  /** User code in slot 4, and DS in slot 5 with a ring-0 descriptor. */
  function MixedSegments(): seq<SegmentRegister> {
    var none := SegmentRegister(0, UserCode());
    [none, SegmentRegister(0x23, UserCode()), none, SegmentRegister(0x28, UserCode().(dpl := 0, typ := 0x12)), none, none]
  }

  function MixedCpu(): GuestCpu {
    GuestCpu(General(0, 0, 0, 0, 0, 0, 0), 0, 0, 0x0000_0202, 0x0000_0033, 0, MixedSegments())
  }

  lemma MixedSegmentsPass()
    ensures SegmentRefusal(true, 3, MixedSegments(), 0).None?
  {
  }

  lemma MixedInstalled(gdt: seq<Descriptor>)
    requires |gdt| == 512
    ensures forall k | 0 <= k < 6 && !Null(MixedSegments()[k].sel) :: Index(MixedSegments()[k].sel) < |gdt|
    ensures Installed(gdt, 3, MixedSegments(), 6)[5].dpl == 0
  {
    InstalledSlots(gdt, 3, MixedSegments(), 6);
    assert LastInSlot(MixedSegments(), 3, 6);
  }

  lemma MixedControls()
    ensures MixedCpu().cr0 & 0x6000_0033 == 0x0000_0033 && MixedCpu().cr4 & 0x0000_077f == 0 && FlagsAccepted(MixedCpu().eflags, false)
  {
  }

  /** In Linux mode the checks do not demand DPL 3: this whole state is accepted, and leaves DPL 0 in slot 5. */
  lemma Ring0DataAccepted(env: Env, g: Guest, gdt: seq<Descriptor>)
    requires |gdt| == 512 && env.linux
    ensures Formed(MixedCpu()) && Level(MixedCpu()) == 3 && Refusal(true, true, MixedCpu()).None?
    ensures SegmentRefusal(true, 3, MixedCpu().sreg, 0).None? && Loaded(env, g, gdt, MixedCpu()).gdt[5].dpl == 0
  {
    MixedSegmentsPass();
    MixedInstalled(gdt);
    MixedControls();
    hide SegmentRefusal, Installed, FlagsAccepted;
  }
}
