/**
 The guest's interrupt flag under PVI. Guest ring 0 really runs in ring 3, with
 its IF kept in VIF and the real IF always set so that the host gets its interrupts.
 */
module Eflags {

  // Bit masks: IF 0x200, IOPL 0x3000, NT 0x4000, VM 0x20000, VIF 0x80000, VIP 0x100000;
  // {VM,RF,NT,TF} 0x34100; 0x254dd5 are the bits IRET passes through, and 0x3d4fd5
  // those together with IF, VIF and VIP, which it sets by other rules.

  /** What must hold of the real EFLAGS whenever guest code runs: IF=1, IOPL=0, VM=0. */
  predicate Runnable(e: bv32) {
    If(e) && Clear(e, 0x0002_3000)
  }

  predicate Clear(e: bv32, mask: bv32) { e & mask == 0 }
  predicate If(e: bv32) { e & 0x0000_0200 != 0 }
  predicate Vif(e: bv32) { e & 0x0008_0000 != 0 }
  predicate Vip(e: bv32) { e & 0x0010_0000 != 0 }

  function SetIf(e: bv32): bv32 { e | 0x0000_0200 }
  function ClearIf(e: bv32): bv32 { e & !0x0000_0200 }
  function SetVif(e: bv32): bv32 { e | 0x0008_0000 }
  function ClearVif(e: bv32): bv32 { e & !0x0008_0000 }
  function SetVip(e: bv32, on: bool): bv32 { if on then e | 0x0010_0000 else e & !0x0010_0000 }

  /** The image pushed on the guest's stack: in ring 0 the guest's IF lives in VIF. */
  function ImageFlags(e: bv32, virtual_: bool): bv32 {
    if !virtual_ then e else if Vif(e) then SetIf(e) else ClearIf(e)
  }

  /** Entering a handler clears VM, RF, NT and TF, and IF through an interrupt gate. */
  function GateFlags(image: bv32, interruptGate: bool): bv32 {
    if interruptGate then image & !0x0003_4300 else image & !0x0003_4100
  }

  /** Guest ring 0 runs with its IF in VIF and the real IF set. */
  function KernelFlags(e: bv32): bv32 {
    SetIf(if If(e) then SetVif(e) else ClearVif(e))
  }

  predicate Pvi(cr4: bv32) { cr4 & 2 != 0 }

  /** CR4 with PVI off. */
  function WithoutPvi(cr4: bv32): bv32 {
    cr4 & !2
  }

  /** The checks IRET makes of the flags image and of the monitor's CR4. */
  predicate ReturnRefused(image: bv32, monCr4: bv32, fromCpl: nat, toRpl: nat) {
    if toRpl == 0 then If(image) != Vif(image) || !Pvi(monCr4)
    else if fromCpl < toRpl then !If(image) || !Pvi(monCr4)
    else image & 0x0018_0000 != 0 || Pvi(monCr4)
  }

  /** EFLAGS after IRET: pass-through bits from the image, VIF from its IF, VIP clear, real IF set. */
  function ReturnFlags(e: bv32, image: bv32, toKernel: bool): bv32 {
    var e1 := if toKernel && If(image) then SetVif(e) else ClearVif(e);
    var e2 := SetIf(SetVip(e1, false));
    PassThrough(e2, image)
  }

  function PassThrough(e: bv32, image: bv32): bv32 {
    (e & !0x0025_4dd5) | (image & 0x0025_4dd5)
  }

  // ---------------------------------------------------------------- delivery and return

  /** From `t`, IRET with the right image can restore `e`: NT is clear, and no bit differs that it would not set. */
  predicate Returnable(t: bv32, e: bv32) {
    Clear(t, 0x0000_4000) && SameOutside(t, e, 0x003d_4fd5)
  }

  predicate SameOutside(a: bv32, b: bv32, mask: bv32) { a & !mask == b & !mask }

  lemma ImageChanges(e: bv32, kernel: bool)
    ensures SameOutside(ImageFlags(e, kernel), e, 0x0000_0200)
  {
    if kernel && Vif(e) {
      assert ImageFlags(e, kernel) == SetIf(e);
    } else if kernel {
      assert ImageFlags(e, kernel) == ClearIf(e);
    }
  }

  lemma GateChanges(e: bv32, interruptGate: bool)
    ensures SameOutside(GateFlags(e, interruptGate), e, 0x0003_4300)
    ensures Clear(GateFlags(e, interruptGate), 0x0003_4100)
  {
  }

  lemma KernelChanges(e: bv32)
    ensures SameOutside(KernelFlags(e), e, 0x0008_0200)
    ensures If(KernelFlags(e))
  {
  }

  /** Delivery disturbs no bit that IRET will not set again, and leaves flags that may run. */
  lemma DeliveryKeeps(e: bv32, interruptGate: bool, kernel: bool)
    requires Runnable(e)
    ensures var h := KernelFlags(GateFlags(ImageFlags(e, kernel), interruptGate));
      Runnable(h) && Returnable(h, e) && Vip(h) == Vip(e)
  {
    hide ImageFlags, GateFlags, KernelFlags, Runnable, Returnable, Vip, SameOutside, Clear;
    var image := ImageFlags(e, kernel);
    var entry := GateFlags(image, interruptGate);
    ImageChanges(e, kernel);
    GateChanges(image, interruptGate);
    KernelChanges(entry);
    ChangesAddUp(e, image, entry, KernelFlags(entry));
  }

  lemma ChangesAddUp(e: bv32, image: bv32, entry: bv32, h: bv32)
    requires Runnable(e) && SameOutside(image, e, 0x0000_0200)
    requires SameOutside(entry, image, 0x0003_4300) && Clear(entry, 0x0003_4100)
    requires SameOutside(h, entry, 0x0008_0200) && If(h)
    ensures Runnable(h) && Returnable(h, e) && Vip(h) == Vip(e)
  {
  }

  /** The interrupt flag as the guest sees it: VIF in ring 0, the real IF outside it. */
  predicate GuestIf(e: bv32, kernel: bool) {
    if kernel then Vif(e) else If(e)
  }

  lemma ImageCarriesIf(e: bv32, kernel: bool)
    ensures If(ImageFlags(e, kernel)) == GuestIf(e, kernel)
  {
    if kernel && Vif(e) {
      assert ImageFlags(e, kernel) == SetIf(e);
    } else if kernel {
      assert ImageFlags(e, kernel) == ClearIf(e);
    }
  }

  lemma GateMasksIf(image: bv32, interruptGate: bool)
    ensures If(GateFlags(image, interruptGate)) == (!interruptGate && If(image))
  {
  }

  lemma KernelFlagsVirtual(e: bv32)
    ensures Vif(KernelFlags(e)) == If(e)
  {
  }

  /** The handler starts with the guest's interrupts off through an interrupt gate, as they were through a trap gate. */
  lemma DeliveryMasks(e: bv32, interruptGate: bool, kernel: bool)
    ensures var h := KernelFlags(GateFlags(ImageFlags(e, kernel), interruptGate));
      GuestIf(h, true) == (!interruptGate && GuestIf(e, kernel))
  {
    hide ImageFlags, GateFlags, KernelFlags, Clear, Vif;
    ImageCarriesIf(e, kernel);
    GateMasksIf(ImageFlags(e, kernel), interruptGate);
    KernelFlagsVirtual(GateFlags(ImageFlags(e, kernel), interruptGate));
  }

  /** The handler starts with VM, RF, NT and TF clear. */
  lemma DeliveryClears(e: bv32, interruptGate: bool, kernel: bool)
    ensures Clear(KernelFlags(GateFlags(ImageFlags(e, kernel), interruptGate)), 0x0003_4100)
  {
    hide ImageFlags, GateFlags, KernelFlags, SameOutside, Clear;
    GateChanges(ImageFlags(e, kernel), interruptGate);
    KernelChanges(GateFlags(ImageFlags(e, kernel), interruptGate));
    StillClear(GateFlags(ImageFlags(e, kernel), interruptGate), KernelFlags(GateFlags(ImageFlags(e, kernel), interruptGate)));
  }

  lemma StillClear(e: bv32, e': bv32)
    requires Clear(e, 0x0003_4100) && SameOutside(e', e, 0x0008_0200)
    ensures Clear(e', 0x0003_4100)
  {
  }

  lemma UserFlagsReturn(e: bv32, t: bv32)
    requires Runnable(e) && !Vip(e) && !Vif(e) && Returnable(t, e)
    ensures PassThrough(SetIf(SetVip(ClearVif(t), false)), e) == e
  {
  }

  lemma EnabledFlagsReturn(e: bv32, t: bv32)
    requires Runnable(e) && !Vip(e) && Vif(e) && Returnable(t, e)
    ensures If(SetIf(e)) && Vif(SetIf(e)) && Clear(SetIf(e), 0x0002_3000)
    ensures PassThrough(SetIf(SetVip(SetVif(t), false)), SetIf(e)) == e
  {
  }

  lemma DisabledFlagsReturn(e: bv32, t: bv32)
    requires Runnable(e) && !Vip(e) && !Vif(e) && Returnable(t, e)
    ensures !If(ClearIf(e)) && !Vif(ClearIf(e)) && Clear(ClearIf(e), 0x0002_3000)
    ensures PassThrough(SetIf(SetVip(ClearVif(t), false)), ClearIf(e)) == e
  {
    DisabledImage(e);
    hide Returnable, SetIf, SetVip, ClearVif, PassThrough, ClearIf;
    IfDoesNotPass(SetIf(SetVip(ClearVif(t), false)), e);
    UserFlagsReturn(e, t);
  }

  lemma DisabledImage(e: bv32)
    requires Runnable(e) && !Vif(e)
    ensures !If(ClearIf(e)) && !Vif(ClearIf(e)) && Clear(ClearIf(e), 0x0002_3000)
  {
  }

  lemma IfDoesNotPass(e: bv32, image: bv32)
    ensures PassThrough(e, ClearIf(image)) == PassThrough(e, image)
  {
  }

  lemma PviIsOn()
    ensures Pvi(2)
  {
  }

  /** The image of settled flags is accepted, and gives back those flags over any the handler leaves. */
  lemma FlagsReturn(e: bv32, t: bv32, kernel: bool)
    requires Runnable(e) && !Vip(e) && (!kernel ==> !Vif(e))
    requires Returnable(t, e)
    ensures var image := ImageFlags(e, kernel);
      && ReturnFlags(t, image, kernel) == e
      && Clear(image, 0x0002_3000)
      && !ReturnRefused(image, 2, 0, if kernel then 0 else 3)
      && Clear(t, 0x0000_4000)
  {
    hide Clear, If, Vif, Vip, SetIf, ClearIf, SetVif, ClearVif, SetVip, PassThrough, SameOutside, Pvi;
    PviIsOn();
    if !kernel {
      UserFlagsReturn(e, t);
    } else if Vif(e) {
      EnabledFlagsReturn(e, t);
    } else {
      DisabledFlagsReturn(e, t);
    }
  }

  /** Whatever image IRET accepts, the flags it leaves may run, with VIF clear outside ring 0. */
  lemma ReturnKeeps(e: bv32, image: bv32, toKernel: bool)
    requires Runnable(e)
    ensures Runnable(ReturnFlags(e, image, toKernel)) && !Vip(ReturnFlags(e, image, toKernel))
    ensures !toKernel ==> !Vif(ReturnFlags(e, image, toKernel))
  {
    hide Clear, If, Vif, Vip, SetIf, SetVif, ClearVif, SetVip, PassThrough, Runnable;
    ReturnedWith(e, image, SetVif(e));
    ReturnedWith(e, image, ClearVif(e));
    ReturnedWithout(e, image);
  }

  lemma ReturnedWith(e: bv32, image: bv32, e1: bv32)
    requires Runnable(e) && (e1 == SetVif(e) || e1 == ClearVif(e))
    ensures Runnable(PassThrough(SetIf(SetVip(e1, false)), image)) && !Vip(PassThrough(SetIf(SetVip(e1, false)), image))
  {
  }

  lemma ReturnedWithout(e: bv32, image: bv32)
    ensures !Vif(PassThrough(SetIf(SetVip(ClearVif(e), false)), image))
  {
  }

  // ---------------------------------------------------------------- between resumptions

  lemma SetVipKeeps(e: bv32, on: bool)
    ensures Runnable(SetVip(e, on)) == Runnable(e)
    ensures Vif(SetVip(e, on)) == Vif(e)
    ensures Vip(SetVip(e, on)) == on
  {
    if on {
      assert SetVip(e, on) == e | 0x0010_0000;
    } else {
      assert SetVip(e, on) == e & !0x0010_0000;
    }
  }

  /** What code in real ring 3 with IOPL 0 can do to EFLAGS; STI and CLI reach VIF under PVI. */
  predicate UserChange(e: bv32, e': bv32, pvi: bool) {
    if pvi then e' & !0x002d_4dd5 == e & !0x002d_4dd5 else e' & !0x0025_4dd5 == e & !0x0025_4dd5
  }

  lemma UserChangeKeeps(e: bv32, e': bv32, pvi: bool)
    requires UserChange(e, e', pvi)
    ensures Runnable(e') == Runnable(e)
    ensures Vip(e') == Vip(e)
    ensures !pvi ==> Vif(e') == Vif(e)
  {
  }

  /** EFLAGS the host loads for the first entry. */
  function LoadedFlags(e: bv32, virtual_: bool): bv32 {
    if virtual_ && If(e) then SetVif(SetIf(e)) else SetIf(e)
  }

  /** The test the host makes of the EFLAGS user space asks for. */
  predicate FlagsAccepted(e: bv32, virtual_: bool) {
    if virtual_ then e & 0x001b_7102 == 0x0000_0002 else e & 0x001b_7302 == 0x0000_0202
  }

  lemma LoadedKeeps(e: bv32, virtual_: bool)
    requires FlagsAccepted(e, virtual_)
    ensures Runnable(LoadedFlags(e, virtual_)) && !Vip(LoadedFlags(e, virtual_))
    ensures Vif(LoadedFlags(e, virtual_)) == (virtual_ && If(e))
  {
  }

  lemma KernelImageOn(e: bv32)
    requires FlagsAccepted(e, true) && If(e)
    ensures Vif(SetVif(SetIf(e))) && SameOutside(SetIf(SetVif(SetIf(e))), e, 0x0008_0000)
  {
  }

  lemma KernelImageOff(e: bv32)
    requires FlagsAccepted(e, true) && !If(e)
    ensures !Vif(SetIf(e)) && SameOutside(ClearIf(SetIf(e)), e, 0x0008_0000)
  {
  }

  lemma UserImage(e: bv32)
    requires FlagsAccepted(e, false)
    ensures SameOutside(SetIf(e), e, 0x0008_0000)
  {
  }

  /** The guest's own view of the loaded flags is what was asked for, VIF apart. */
  lemma LoadedImage(e: bv32, virtual_: bool)
    requires FlagsAccepted(e, virtual_)
    ensures SameOutside(ImageFlags(LoadedFlags(e, virtual_), virtual_), e, 0x0008_0000)
  {
    hide SameOutside, FlagsAccepted, If, Vif, SetIf, ClearIf, SetVif;
    if !virtual_ {
      UserImage(e);
    } else if If(e) {
      KernelImageOn(e);
    } else {
      KernelImageOff(e);
    }
  }

  lemma SetVifKeeps(e: bv32)
    ensures Runnable(SetVif(e)) == Runnable(e) && Vip(SetVif(e)) == Vip(e)
  {
  }
}
