/**
 First entry into the guest: the checks the host makes of the CPU state user
 space asks for, the descriptors it installs and the context it loads.
 */
module Entry {
  import opened Words
  import opened GuestTables
  import opened Eflags
  import opened Privilege
  import opened Descriptors

  datatype SegmentRegister = SegmentRegister(sel: Selector, des: Descriptor)

  /** General registers other than ESP. */
  datatype General = General(eax: Word, ecx: Word, edx: Word, ebx: Word, ebp: Word, esi: Word, edi: Word)

  /** The CPU state as user space hands it over, with segment registers in the order ES, CS, SS, DS, FS, GS. */
  datatype GuestCpu = GuestCpu(general: General, esp: Word, eip: Word, eflags: bv32, cr0: bv32, cr4: bv32, sreg: seq<SegmentRegister>)

  const CODE := 1

  datatype NoExecute = BadMethod | BadCr0 | BadCr4 | BadCodeSegment | BadSelector | BadFlags

  ghost predicate Formed(cpu: GuestCpu) {
    |cpu.sreg| == 6
  }

  /** The guest's privilege level is that of its code descriptor. */
  function Level(cpu: GuestCpu): nat
    requires Formed(cpu)
  {
    cpu.sreg[CODE].des.dpl
  }

  // ---------------------------------------------------------------- checks

  /** One segment register may be loaded. */
  predicate SegmentAccepted(linux: bool, cpl: nat, code: bool, r: SegmentRegister) {
    || (!code && Null(r.sel))
    || (&& !Ti(r.sel)
        && (if linux then Rpl(r.sel) == r.des.dpl && (r.des.dpl == 0 || r.des.dpl == 3) else Rpl(r.sel) == 3 && r.des.dpl == 3)
        && SlotAllowed(linux, cpl, code, Index(r.sel)))
  }

  /** The first segment register refused, from `s` on. */
  function SegmentRefusal(linux: bool, cpl: nat, sreg: seq<SegmentRegister>, s: nat): (r: Option<NoExecute>)
    requires s <= |sreg|
    ensures r.None? <==> forall k | s <= k < |sreg| :: SegmentAccepted(linux, cpl, k == CODE, sreg[k])
    decreases |sreg| - s
  {
    if s == |sreg| then None
    else if SegmentAccepted(linux, cpl, s == CODE, sreg[s]) then SegmentRefusal(linux, cpl, sreg, s + 1)
    else Some(if s == CODE then BadCodeSegment else BadSelector)
  }

  /** Why the host refuses to run this state, in the order it asks. */
  function Refusal(linux: bool, native: bool, cpu: GuestCpu): Option<NoExecute>
    requires Formed(cpu)
  {
    if !native then Some(BadMethod)
    else if cpu.cr0 & 0x6000_0033 != 0x0000_0033 then Some(BadCr0)
    else if cpu.cr4 & 0x0000_077f != 0 then Some(BadCr4)
    else
      var bad := SegmentRefusal(linux, Level(cpu), cpu.sreg, 0);
      if bad.Some? then bad
      else if FlagsAccepted(cpu.eflags, linux && Level(cpu) == 0) then None
      else Some(BadFlags)
  }

  method CheckSegments(linux: bool, cpl: nat, sreg: seq<SegmentRegister>) returns (r: Option<NoExecute>)
    requires |sreg| == 6
    ensures r == SegmentRefusal(linux, cpl, sreg, 0)
  {
    for s := 0 to 6
      invariant SegmentRefusal(linux, cpl, sreg, 0) == SegmentRefusal(linux, cpl, sreg, s)
    {
      if !SegmentAccepted(linux, cpl, s == CODE, sreg[s]) {
        return Some(if s == CODE then BadCodeSegment else BadSelector);
      }
    }
    return None;
  }

  // ---------------------------------------------------------------- descriptors

  /** What is installed for one register: kernel descriptors are pushed down, user ones are taken as they are. */
  function Virtualized(cpl: nat, des: Descriptor): Descriptor {
    if cpl == 0 then des.(dpl := 3) else des
  }

  /** The GDT after the descriptors of the first `n` registers have been installed. */
  function Installed(gdt: seq<Descriptor>, cpl: nat, sreg: seq<SegmentRegister>, n: nat): (r: seq<Descriptor>)
    requires n <= |sreg| && forall k | 0 <= k < |sreg| && !Null(sreg[k].sel) :: Index(sreg[k].sel) < |gdt|
    ensures |r| == |gdt|
  {
    if n == 0 then gdt
    else
      var g := Installed(gdt, cpl, sreg, n - 1);
      if Null(sreg[n - 1].sel) then g else g[Index(sreg[n - 1].sel) := Virtualized(cpl, sreg[n - 1].des)]
  }

  method InstallDescriptors(gdt: array<Descriptor>, cpl: nat, sreg: seq<SegmentRegister>)
    requires |sreg| == 6 && forall k | 0 <= k < |sreg| && !Null(sreg[k].sel) :: Index(sreg[k].sel) < gdt.Length
    modifies gdt
    ensures gdt[..] == Installed(old(gdt[..]), cpl, sreg, 6)
  {
    for s := 0 to 6
      invariant gdt[..] == Installed(old(gdt[..]), cpl, sreg, s)
    {
      if !Null(sreg[s].sel) {
        gdt[Index(sreg[s].sel)] := sreg[s].des;
        if cpl == 0 {
          gdt[Index(sreg[s].sel)] := gdt[Index(sreg[s].sel)].(dpl := 3);
        }
      }
    }
  }

  /** Register `k` is the last of the first `n` to use its slot, so its descriptor is the one that stays. */
  predicate LastInSlot(sreg: seq<SegmentRegister>, k: nat, n: nat)
    requires k < n <= |sreg|
  {
    && !Null(sreg[k].sel)
    && forall j | k < j < n && !Null(sreg[j].sel) :: Index(sreg[j].sel) != Index(sreg[k].sel)
  }

  /** What the first `n` registers leave: the last one naming a slot decides it, and no other slot changes. */
  ghost predicate SlotsOf(gdt: seq<Descriptor>, cpl: nat, sreg: seq<SegmentRegister>, n: nat, r: seq<Descriptor>)
    requires n <= |sreg| && |r| == |gdt| && forall k | 0 <= k < |sreg| && !Null(sreg[k].sel) :: Index(sreg[k].sel) < |gdt|
  {
    && (forall k: nat | k < n && LastInSlot(sreg, k, n) :: r[Index(sreg[k].sel)] == Virtualized(cpl, sreg[k].des))
    && (forall slot | 0 <= slot < |gdt| && (forall k | 0 <= k < n && !Null(sreg[k].sel) :: Index(sreg[k].sel) != slot) ::
          r[slot] == gdt[slot])
  }

  lemma NextSlot(gdt: seq<Descriptor>, cpl: nat, sreg: seq<SegmentRegister>, n: nat, before: seq<Descriptor>, after: seq<Descriptor>)
    requires 0 < n <= |sreg| && |before| == |after| == |gdt| && forall k | 0 <= k < |sreg| && !Null(sreg[k].sel) :: Index(sreg[k].sel) < |gdt|
    requires SlotsOf(gdt, cpl, sreg, n - 1, before)
    requires after == if Null(sreg[n - 1].sel) then before else before[Index(sreg[n - 1].sel) := Virtualized(cpl, sreg[n - 1].des)]
    ensures SlotsOf(gdt, cpl, sreg, n, after)
  {
    hide Null, Index, Virtualized;
    forall k: nat | k < n && LastInSlot(sreg, k, n)
      ensures after[Index(sreg[k].sel)] == Virtualized(cpl, sreg[k].des)
    {
      if k < n - 1 {
        assert LastInSlot(sreg, k, n - 1);
      }
    }
  }

  lemma {:induction false} InstalledSlots(gdt: seq<Descriptor>, cpl: nat, sreg: seq<SegmentRegister>, n: nat)
    requires n <= |sreg| && forall k | 0 <= k < |sreg| && !Null(sreg[k].sel) :: Index(sreg[k].sel) < |gdt|
    ensures SlotsOf(gdt, cpl, sreg, n, Installed(gdt, cpl, sreg, n))
  {
    if n > 0 {
      InstalledSlots(gdt, cpl, sreg, n - 1);
      hide SlotsOf;
      NextSlot(gdt, cpl, sreg, n, Installed(gdt, cpl, sreg, n - 1), Installed(gdt, cpl, sreg, n));
    }
  }

  lemma AcceptedSlots(linux: bool, cpl: nat, sreg: seq<SegmentRegister>)
    requires |sreg| == 6 && SegmentRefusal(linux, cpl, sreg, 0).None?
    ensures forall k | 0 <= k < 6 && !Null(sreg[k].sel) :: 0 < Index(sreg[k].sel) < 512 && !MonitorSlot(Index(sreg[k].sel))
  {
    forall k | 0 <= k < 6 && !Null(sreg[k].sel)
      ensures 0 < Index(sreg[k].sel) < 512 && !MonitorSlot(Index(sreg[k].sel))
    {
      assert SegmentAccepted(linux, cpl, k == CODE, sreg[k]);
      AllowedSlotIsGuest(linux, cpl, k == CODE, Index(sreg[k].sel));
    }
  }

  /** An accepted entry leaves slot 0 and the monitor's slots alone and stays inside the GDT. */
  lemma EntryKeepsMonitorSlots(linux: bool, cpl: nat, sreg: seq<SegmentRegister>, gdt: seq<Descriptor>)
    requires |sreg| == 6 && |gdt| == 512 && SegmentRefusal(linux, cpl, sreg, 0).None?
    ensures forall k | 0 <= k < 6 && !Null(sreg[k].sel) :: Index(sreg[k].sel) < |gdt|
    ensures |Installed(gdt, cpl, sreg, 6)| == 512
    ensures forall slot | 0 <= slot < 512 && (slot == 0 || MonitorSlot(slot)) :: Installed(gdt, cpl, sreg, 6)[slot] == gdt[slot]
  {
    AcceptedSlots(linux, cpl, sreg);
    InstalledSlots(gdt, cpl, sreg, 6);
  }

  /** Every register's slot ends up with a ring-3 descriptor. */
  ghost predicate EntryInstallsRing3(gdt: seq<Descriptor>, sreg: seq<SegmentRegister>) {
    forall k | 0 <= k < |sreg| && !Null(sreg[k].sel) :: Index(sreg[k].sel) < |gdt| ==> gdt[Index(sreg[k].sel)].dpl == 3
  }

  /**
   Entry installs only ring-3 descriptors exactly when the guest enters in ring 0, or
   the last register naming each slot brings a ring-3 descriptor of its own.
   */
  lemma EntryRing3Iff(linux: bool, cpl: nat, sreg: seq<SegmentRegister>, gdt: seq<Descriptor>)
    requires |sreg| == 6 && |gdt| == 512 && SegmentRefusal(linux, cpl, sreg, 0).None?
    ensures forall k | 0 <= k < 6 && !Null(sreg[k].sel) :: Index(sreg[k].sel) < |gdt|
    ensures EntryInstallsRing3(Installed(gdt, cpl, sreg, 6), sreg)
      <==> cpl == 0 || forall k: nat | k < 6 && LastInSlot(sreg, k, 6) :: sreg[k].des.dpl == 3
  {
    AcceptedSlots(linux, cpl, sreg);
    InstalledSlots(gdt, cpl, sreg, 6);
    var r := Installed(gdt, cpl, sreg, 6);
    if cpl == 0 || forall k: nat | k < 6 && LastInSlot(sreg, k, 6) :: sreg[k].des.dpl == 3 {
      forall k | 0 <= k < 6 && !Null(sreg[k].sel)
        ensures r[Index(sreg[k].sel)].dpl == 3
      {
        var last := LastOf(sreg, k, 6);
      }
    }
  }

  lemma {:induction false} LastOf(sreg: seq<SegmentRegister>, k: nat, n: nat) returns (last: nat)
    requires k < n <= |sreg| && !Null(sreg[k].sel)
    ensures k <= last < n && LastInSlot(sreg, last, n) && Index(sreg[last].sel) == Index(sreg[k].sel)
    decreases n
  {
    if !Null(sreg[n - 1].sel) && Index(sreg[n - 1].sel) == Index(sreg[k].sel) {
      last := n - 1;
    } else {
      last := LastOf(sreg, k, n - 1);
      assert LastInSlot(sreg, last, n);
    }
  }

  /** In normal mode the checks already demand it. */
  lemma NormalEntryRing3(cpl: nat, sreg: seq<SegmentRegister>)
    requires |sreg| == 6 && SegmentRefusal(false, cpl, sreg, 0).None?
    ensures forall k | 0 <= k < 6 && !Null(sreg[k].sel) :: sreg[k].des.dpl == 3
  {
    assert forall k | 0 <= k < 6 :: SegmentAccepted(false, cpl, k == CODE, sreg[k]);
  }

  // ---------------------------------------------------------------- the context

  function LoadedSelector(cpl: nat, r: SegmentRegister): Selector {
    if cpl == 0 then PushedDown(r.sel) else r.sel
  }

  function LoadedContext(linux: bool, cpu: GuestCpu): Context
    requires Formed(cpu)
  {
    var cpl := Level(cpu);
    Context(
      cpu.eip, LoadedSelector(cpl, cpu.sreg[1]), LoadedFlags(cpu.eflags, linux && cpl == 0), cpu.esp,
      LoadedSelector(cpl, cpu.sreg[2]), LoadedSelector(cpl, cpu.sreg[3]), LoadedSelector(cpl, cpu.sreg[0]),
      LoadedSelector(cpl, cpu.sreg[4]), LoadedSelector(cpl, cpu.sreg[5]))
  }

  /** The CPU the host loads from a state it accepts. */
  function Loaded(env: Env, g: Guest, gdt: seq<Descriptor>, cpu: GuestCpu): (c: Cpu)
    requires Formed(cpu) && |gdt| == 512 && SegmentRefusal(env.linux, Level(cpu), cpu.sreg, 0).None?
  {
    AcceptedSlots(env.linux, Level(cpu), cpu.sreg);
    Cpu(g, env, LoadedContext(env.linux, cpu), Level(cpu), if env.linux && Level(cpu) == 0 then 2 else 0,
        Installed(gdt, Level(cpu), cpu.sreg, 6))
  }

  /** A state that passes the checks can be resumed. */
  lemma LoadedResumable(env: Env, g: Guest, gdt: seq<Descriptor>, cpu: GuestCpu)
    requires Formed(cpu) && |gdt| == 512 && Sized(g.mem) && env.linux && Refusal(true, true, cpu).None?
    ensures Resumable(Loaded(env, g, gdt, cpu))
    ensures !Vip(Loaded(env, g, gdt, cpu).ctx.eflags)
  {
    hide Installed, Vif, Vip, Runnable, FlagsAccepted, LoadedFlags;
    assert SegmentAccepted(true, Level(cpu), true, cpu.sreg[CODE]);
    LoadedKeeps(cpu.eflags, Level(cpu) == 0);
  }

  /**
   What the guest sees of itself is what was asked for: its CS as `doGuestInterrupt` would push
   it, and its flags image but for VIF, which mirrors IF in ring 0.
   */
  lemma LoadedLooksAsAsked(linux: bool, cpu: GuestCpu)
    requires Formed(cpu) && Refusal(linux, true, cpu).None?
    ensures var ctx, cpl := LoadedContext(linux, cpu), Level(cpu);
      && cpl < 4
      && WithRpl(ctx.cs, cpl) == cpu.sreg[1].sel
      && SameOutside(ImageFlags(ctx.eflags, linux && cpl == 0), cpu.eflags, 0x0008_0000)
      && ctx.eip == cpu.eip && ctx.esp == cpu.esp
      && (cpl == 0 ==>
            && ctx.ss == cpu.sreg[2].sel / 4 * 4 + 3 && ctx.ds == cpu.sreg[3].sel / 4 * 4 + 3 && ctx.es == cpu.sreg[0].sel / 4 * 4 + 3
            && ctx.fs == cpu.sreg[4].sel / 4 * 4 + 3 && ctx.gs == cpu.sreg[5].sel / 4 * 4 + 3)
      && (cpl != 0 ==> [ctx.es, ctx.cs, ctx.ss, ctx.ds, ctx.fs, ctx.gs] == seq(6, i requires 0 <= i < 6 && Formed(cpu) => cpu.sreg[i].sel))
  {
    hide Vif, Vip, Runnable, FlagsAccepted, LoadedFlags, ImageFlags, SameOutside;
    assert SegmentAccepted(linux, Level(cpu), true, cpu.sreg[CODE]);
    LoadedImage(cpu.eflags, linux && Level(cpu) == 0);
  }

  /**
   What the checks of the first entry amount to: native execution, PE=MP=ET=NE=1 and CD=NW=0, no CR4 feature, every
   segment acceptable, and in EFLAGS bit 1 set, TF, IOPL, NT, RF, VM, VIF and VIP clear, and IF set outside ring 0.
   */
  lemma AcceptedIff(linux: bool, native: bool, cpu: GuestCpu)
    requires Formed(cpu)
    ensures Refusal(linux, native, cpu).None? <==>
      && native
      && Bits(cpu.cr0, 0x33) && cpu.cr0 & 0x6000_0000 == 0 && cpu.cr4 & 0x0000_077f == 0
      && (forall k | 0 <= k < 6 :: SegmentAccepted(linux, Level(cpu), k == CODE, cpu.sreg[k]))
      && Bits(cpu.eflags, 2) && cpu.eflags & 0x001b_7100 == 0 && ((linux && Level(cpu) == 0) || If(cpu.eflags))
  {
    hide SegmentAccepted;
  }

  predicate Bits(e: bv32, mask: bv32) {
    e & mask == mask
  }
}
