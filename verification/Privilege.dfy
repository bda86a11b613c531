/**
 Guest privilege on real ring 3: descriptors pushed down to the monitor's GDT,
 interrupts delivered into the guest, and IRET back out of them.
 */
module Privilege {
  import opened Words
  import opened Eflags
  import opened GuestTables
  import opened GuestAccess

  // ---------------------------------------------------------------- descriptors

  datatype Descriptor = Descriptor(
    limitLow: nat, baseLow: nat, baseMed: nat, typ: nat, dpl: nat, p: nat,
    limitHigh: nat, avl: nat, reserved: nat, db: nat, g: nat, baseHigh: nat)

  datatype Gate = Gate(offset: Word, selector: Selector, typ: nat, dpl: nat, p: nat)

  function DecodeDescriptor(b: seq<Byte>): Descriptor
    requires |b| == 8
  {
    Descriptor(Join2(b[0], b[1]), Join2(b[2], b[3]), b[4], b[5] % 32, b[5] / 32 % 4, b[5] / 128,
               b[6] % 16, b[6] / 16 % 2, b[6] / 32 % 2, b[6] / 64 % 2, b[6] / 128, b[7])
  }

  function DecodeGate(b: seq<Byte>): Gate
    requires |b| == 8
  {
    Gate(Join4(b[0], b[1], b[6], b[7]), Join2(b[2], b[3]), b[5] % 32, b[5] / 32 % 4, b[5] / 128)
  }

  /** The eight bytes of a descriptor, as Intel lays them out. */
  function EncodeDescriptor(d: Descriptor): seq<int> {
    [d.limitLow % 0x100, d.limitLow / 0x100, d.baseLow % 0x100, d.baseLow / 0x100, d.baseMed,
     d.typ + 32 * d.dpl + 128 * d.p, d.limitHigh + 16 * d.avl + 32 * d.reserved + 64 * d.db + 128 * d.g, d.baseHigh]
  }

  /** Decoding loses nothing: the fields are the whole descriptor, and no two share a bit. */
  lemma DescriptorBytes(b: seq<Byte>)
    requires |b| == 8
    ensures EncodeDescriptor(DecodeDescriptor(b)) == b
    ensures DecodeDescriptor(b).dpl < 4 && DecodeDescriptor(b).typ < 32 && DecodeDescriptor(b).p < 2
  {
    AccessByte(b[5]);
    FlagsByte(b[6]);
    var d := DecodeDescriptor(b);
    assert d.limitLow % 0x100 == b[0] && d.limitLow / 0x100 == b[1];
    assert d.baseLow % 0x100 == b[2] && d.baseLow / 0x100 == b[3];
  }

  /** The eight bytes of a gate; byte 4 carries nothing. */
  function EncodeGate(gate: Gate, unused: int): seq<int> {
    [gate.offset % 0x100, gate.offset / 0x100 % 0x100, gate.selector % 0x100, gate.selector / 0x100, unused,
     gate.typ + 32 * gate.dpl + 128 * gate.p, gate.offset / 0x1_0000 % 0x100, gate.offset / 0x100_0000]
  }

  /** Decoding a gate loses nothing: the offset is split around the selector. */
  lemma GateBytes(b: seq<Byte>)
    requires |b| == 8
    ensures EncodeGate(DecodeGate(b), b[4]) == b
  {
    AccessByte(b[5]);
    JoinedBytes(b[0], b[1], b[6], b[7]);
    JoinedPair(b[2], b[3]);
    hide Join2, Join4;
  }

  lemma JoinedPair(b0: Byte, b1: Byte)
    ensures Join2(b0, b1) % 0x100 == b0 && Join2(b0, b1) / 0x100 == b1
  {
  }

  lemma JoinedBytes(b0: Byte, b1: Byte, b2: Byte, b3: Byte)
    ensures var w := Join4(b0, b1, b2, b3); w % 0x100 == b0 && w / 0x100 % 0x100 == b1 && w / 0x1_0000 % 0x100 == b2 && w / 0x100_0000 == b3
  {
    var w := Join4(b0, b1, b2, b3);
    assert w / 0x100 == b1 + 0x100 * b2 + 0x1_0000 * b3;
    assert w / 0x1_0000 == b2 + 0x100 * b3;
  }

  lemma AccessByte(x: Byte)
    ensures x == x % 32 + 32 * (x / 32 % 4) + 128 * (x / 128)
  {
    assert x / 128 == x / 32 / 4;
  }

  lemma FlagsByte(x: Byte)
    ensures x == x % 16 + 16 * (x / 16 % 2) + 32 * (x / 32 % 2) + 64 * (x / 64 % 2) + 128 * (x / 128)
  {
    var q := x / 16;
    assert x / 32 == q / 2 && x / 64 == q / 4 && x / 128 == q / 8;
    Nibble(q);
  }

  lemma Nibble(q: nat)
    requires q < 16
    ensures q == q % 2 + 2 * (q / 2 % 2) + 4 * (q / 4 % 2) + 8 * (q / 8)
  {
  }

  function SegmentBase(d: Descriptor): int {
    d.baseLow + 0x1_0000 * d.baseMed + 0x100_0000 * d.baseHigh
  }

  function SegmentLimit(d: Descriptor): int {
    var raw := d.limitLow + 0x1_0000 * d.limitHigh;
    if d.g != 0 then raw * 4096 + 0xfff else raw
  }

  // ---------------------------------------------------------------- selectors

  type Selector = s: int | 0 <= s < 0x1_0000

  function Rpl(sel: Selector): (r: nat)
    ensures r < 4
  {
    sel % 4
  }

  predicate Ti(sel: Selector) { sel / 4 % 2 == 1 }
  function Index(sel: Selector): nat { sel / 8 }
  predicate Null(sel: Selector) { sel / 4 == 0 }

  /** The selector with its RPL replaced. */
  function WithRpl(sel: Selector, rpl: nat): (r: Selector)
    requires rpl < 4
    ensures Rpl(r) == rpl && r / 4 == sel / 4
    ensures Rpl(sel) == rpl ==> r == sel
  {
    sel / 4 * 4 + rpl
  }

  /** `sel | 3`: every guest selector runs pushed down to ring 3. */
  function PushedDown(sel: Selector): (r: Selector)
    ensures Rpl(r) == 3 && r / 4 == sel / 4
  {
    WithRpl(sel, 3)
  }

  /** The monitor keeps its own code, data and TSS descriptors in these slots. */
  predicate MonitorSlot(slot: nat) { 16 <= slot <= 18 }

  /**
   Where a guest selector may point, by VM mode, privilege level and kind of
   segment: Linux has kernel code and data in slots 2 and 3, user ones in 4 and 5.
   */
  predicate SlotAllowed(linux: bool, cpl: nat, code: bool, slot: nat) {
    if !linux then slot != 0 && !MonitorSlot(slot) && slot < 512
    else if cpl == 0 then (if code then slot == 2 else slot == 3 || slot == 5)
    else (if code then slot == 4 else slot == 5)
  }

  // ---------------------------------------------------------------- state

  /** Table registers and mode, none of which interrupts or IRET change. */
  datatype Env = Env(linux: bool, gdtrBase: Word, gdtrLimit: nat, idtrBase: Word, idtrLimit: nat, tr: Descriptor)

  /** `guestStackContext`. */
  datatype Context = Context(eip: Word, cs: Selector, eflags: bv32, esp: Word, ss: Selector, ds: Selector, es: Selector, fs: Selector, gs: Selector)

  datatype Cpu = Cpu(g: Guest, env: Env, ctx: Context, cpl: nat, monCr4: bv32, gdt: seq<Descriptor>)

  ghost predicate Shaped(c: Cpu) {
    Sized(c.g.mem) && |c.gdt| == 512 && c.cpl < 4
  }

  /**
   What must hold of a Linux-mode guest whenever its code runs: IF=1, IOPL=0, VM=0,
   guest ring 0 or 3, PVI on exactly in ring 0, VIF clear outside it, CS pushed down.
   */
  ghost predicate Resumable(c: Cpu) {
    && Shaped(c) && c.env.linux
    && (c.cpl == 0 || c.cpl == 3)
    && Runnable(c.ctx.eflags)
    && c.monCr4 == (if c.cpl == 0 then 2 else 0)
    && (c.cpl == 3 ==> !Vif(c.ctx.eflags))
    && Rpl(c.ctx.cs) == 3
  }

  // ---------------------------------------------------------------- fetching

  /** `fetchGuestDescByLAddr`. */
  function Fetch(g: Guest, l: Word): (r: Outcome<seq<Byte>>)
    requires Sized(g.mem)
    ensures r.Ok? ==> |r.value| == 8
  {
    var p := Translate(g, l);
    if p == NOT_AVAILABLE || p % 8 != 0 || p + 7 >= |g.mem| then Panic
    else Ok(g.mem[p..p + 8])
  }

  function DescriptorAddr(env: Env, sel: Selector): Word {
    Wrap(env.gdtrBase + sel / 8 * 8)
  }

  /** `fetchGuestDescBySel`. */
  function FetchBySelector(g: Guest, env: Env, sel: Selector): (r: Outcome<Descriptor>)
    requires Sized(g.mem)
    ensures r.Ok? ==> r.value.dpl == Rpl(sel) && !Ti(sel) && !Null(sel)
  {
    if Ti(sel) || Null(sel) || sel / 8 * 8 + 7 > env.gdtrLimit then Panic
    else
      var b :- Fetch(g, DescriptorAddr(env, sel));
      var d := DecodeDescriptor(b);
      if d.dpl != Rpl(sel) then Panic else Ok(d)
  }

  /** `guestSelectorUpdated`: validate, and install the descriptor with DPL 3. */
  function SelectorUpdated(c: Cpu, code: bool, sel: Selector): (r: Outcome<Cpu>)
    requires Shaped(c)
    ensures r.Ok? ==> Shaped(r.value) && r.value == c.(gdt := r.value.gdt)
  {
    if !code && Null(sel) then Ok(c)
    else if Ti(sel) || Index(sel) == 0 || sel / 8 * 8 + 7 > c.env.gdtrLimit then Panic
    else
      var b :- Fetch(c.g, DescriptorAddr(c.env, sel));
      var d := DecodeDescriptor(b);
      if c.env.linux && (Rpl(sel) != d.dpl || (d.dpl != 0 && d.dpl != 3)) then Panic
      else if !c.env.linux && (Rpl(sel) != 3 || d.dpl != 3) then Panic
      else if !SlotAllowed(c.env.linux, c.cpl, code, Index(sel)) then Panic
      else Ok(c.(gdt := c.gdt[Index(sel) := d.(dpl := 3)]))
  }

  /** EFLAGS on entry to the handler; without PVI the real IF must already be set. */
  function HandlerFlags(image: bv32, interruptGate: bool, virtual_: bool): Outcome<bv32> {
    var e := GateFlags(image, interruptGate);
    if virtual_ then Ok(KernelFlags(e))
    else if !If(e) then Panic
    else Ok(SetIf(e))
  }

  // ---------------------------------------------------------------- doGuestInterrupt

  /** Pushes in the order the source makes them. */
  function PushAll(g: Guest, writes: seq<(Word, Word)>): (r: Outcome<Guest>)
    requires Sized(g.mem)
    ensures r.Ok? ==> Sized(r.value.mem) && |r.value.mem| == |g.mem| && r.value == g.(mem := r.value.mem)
    decreases |writes|
  {
    if writes == [] then Ok(g)
    else
      var g1 :- WriteDword(g, writes[0].0, writes[0].1);
      PushAll(g1, writes[1..])
  }

  /** The gate an interrupt goes through, once it has passed every check. */
  function GateOf(c: Cpu, vector: nat, soft: bool): (r: Outcome<Gate>)
    requires Shaped(c)
    ensures r.Ok? ==> Rpl(r.value.selector) == 0 && FetchBySelector(c.g, c.env, r.value.selector).Ok?
  {
    if vector * 8 + 7 > c.env.idtrLimit || c.env.idtrBase % 8 != 0 then Panic
    else
      var b :- Fetch(c.g, Wrap(c.env.idtrBase + vector * 8));
      var gate := DecodeGate(b);
      if gate.p == 0 || (gate.typ != 14 && gate.typ != 15) || (soft && gate.dpl < c.cpl) then Panic
      else
        var d :- FetchBySelector(c.g, c.env, gate.selector);
        if d.typ != 0x1a || d.dpl != 0 || d.p == 0 then Panic else Ok(gate)
  }

  /** The kernel stack the guest's TSS names. */
  function TssStack(c: Cpu): (r: Outcome<(Word, Selector)>)
    requires Shaped(c)
    ensures r.Ok? ==> Rpl(r.value.1) == 0 && FetchBySelector(c.g, c.env, r.value.1).Ok?
  {
    if c.env.tr.typ != 11 || 4 + 7 > SegmentLimit(c.env.tr) then Panic
    else
      var esp :- ReadDword(c.g, Wrap(SegmentBase(c.env.tr) + 4));
      var ss :- ReadWord(c.g, Wrap(SegmentBase(c.env.tr) + 8));
      if Null(ss) || Rpl(ss) != 0 then Panic
      else
        var d :- FetchBySelector(c.g, c.env, ss);
        if d.typ != 0x12 || d.dpl != 0 || d.p == 0 then Panic else Ok((esp, ss))
  }

  /** The CPU with the kernel stack loaded, and the bottom of the frame to push. */
  function SwitchStack(c: Cpu): (r: Outcome<(Cpu, Word)>)
    requires Shaped(c)
    ensures r.Ok? ==> Shaped(r.value.0) && r.value.0.g == c.g && r.value.0.env == c.env
  {
    if c.cpl == 0 then Ok((c, Wrap(c.ctx.esp - 12)))
    else
      var (esp, ss) :- TssStack(c);
      var c1 :- SelectorUpdated(c.(cpl := 0, ctx := c.ctx.(ss := PushedDown(ss), esp := esp)), false, ss);
      Ok((c1, Wrap(esp - 20)))
  }

  /** The frame: SS and ESP if the stack changed, then EFLAGS, CS, EIP, then any error code. */
  function Frame(c: Cpu, bottom: Word, image: bv32, error: Option<Word>): seq<(Word, Word)>
    requires Shaped(c)
  {
    (if c.cpl == 0 then [] else [(Wrap(bottom + 16), c.ctx.ss), (Wrap(bottom + 12), c.ctx.esp)])
    + [(Wrap(bottom + 8), AsWord(image)), (Wrap(bottom + 4), WithRpl(c.ctx.cs, c.cpl)), (bottom, c.ctx.eip)]
    + (if error.None? then [] else [(Wrap(bottom - 4), error.value)])
  }

  /** ESP after the frame, with any error code below it. */
  function BelowError(bottom: Word, error: Option<Word>): Word {
    if error.None? then bottom else Wrap(bottom - 4)
  }

  /** Push the frame on the loaded stack and enter the handler. */
  function EnterHandler(c: Cpu, frame: seq<(Word, Word)>, esp: Word, gate: Gate): (r: Outcome<Cpu>)
    requires Shaped(c)
    ensures r.Ok? ==> Shaped(r.value) && r.value.cpl == c.cpl && r.value.env == c.env
  {
    var g :- PushAll(c.g, frame);
    var ctx := c.ctx.(esp := esp, cs := PushedDown(gate.selector), eip := gate.offset);
    SelectorUpdated(c.(g := g, ctx := ctx), true, gate.selector)
  }

  /** EFLAGS and the monitor's CR4 for the handler. */
  function Started(c: Cpu, image: bv32, interruptGate: bool): (r: Outcome<Cpu>)
    requires Shaped(c)
    ensures r.Ok? ==> Shaped(r.value)
  {
    hide HandlerFlags;
    var virtual_ := c.env.linux && c.cpl == 0;
    var flags :- HandlerFlags(image, interruptGate, virtual_);
    Ok(c.(ctx := c.ctx.(eflags := flags), monCr4 := if virtual_ then 2 else 0))
  }

  /** `doGuestInterrupt`. */
  function Interrupt(c: Cpu, vector: nat, soft: bool, error: Option<Word>): (r: Outcome<Cpu>)
    requires Shaped(c)
    ensures r.Ok? ==> Shaped(r.value)
  {
    hide Fetch, FetchBySelector, SelectorUpdated, Translate;
    var gate :- GateOf(c, vector, soft);
    var (c1, bottom) :- SwitchStack(c);
    var image := ImageFlags(c.ctx.eflags, c.env.linux && c.cpl == 0);
    var esp := BelowError(bottom, error);
    var c2 :- EnterHandler(c1, Frame(c, bottom, image, error), esp, gate);
    Started(c2, image, gate.typ == 14)
  }

  // ---------------------------------------------------------------- doIRET

  /** A data selector that may be live in ring 3. */
  predicate UserOrNull(sel: Selector) {
    Null(sel) || Index(sel) == 5
  }

  predicate DataSelectorsUserOrNull(ctx: Context) {
    UserOrNull(ctx.gs) && UserOrNull(ctx.fs) && UserOrNull(ctx.ds) && UserOrNull(ctx.es)
  }

  /** The stack an IRET to ring 3 returns to. */
  function ReturnStack(c: Cpu, cs: Selector): (r: Outcome<Cpu>)
    requires Shaped(c)
    ensures r.Ok? ==> Shaped(r.value)
  {
    var esp :- ReadDword(c.g, Wrap(c.ctx.esp + 12));
    var ss :- ReadWord(c.g, Wrap(c.ctx.esp + 16));
    if Null(ss) || Rpl(ss) != Rpl(cs) then Panic
    else
      var d :- FetchBySelector(c.g, c.env, ss);
      if d.typ != 0x12 || d.dpl != Rpl(cs) || d.p == 0 then Panic
      else
        var c1 :- SelectorUpdated(c.(cpl := 3, ctx := c.ctx.(ss := PushedDown(ss), esp := esp)), false, ss);
        if !DataSelectorsUserOrNull(c1.ctx) then Panic else Ok(c1)
  }

  /** The three dwords every IRET pops. */
  function Popped(c: Cpu): (r: Outcome<(Word, Selector, bv32)>)
    requires Shaped(c)
  {
    var eip :- ReadDword(c.g, c.ctx.esp);
    var cs :- ReadWord(c.g, Wrap(c.ctx.esp + 4));
    var raw :- ReadDword(c.g, Wrap(c.ctx.esp + 8));
    Ok((eip, cs, AsFlags(raw)))
  }

  predicate ReturnSelectorBad(cs: Selector, cpl: nat) {
    Null(cs) || (Rpl(cs) != 0 && Rpl(cs) != 3) || Ti(cs) || Rpl(cs) < cpl
  }

  /** Load the return stack and code segment. */
  function ReturnTo(c: Cpu, eip: Word, cs: Selector): (r: Outcome<Cpu>)
    requires Shaped(c)
    ensures r.Ok? ==> Shaped(r.value)
  {
    var d :- FetchBySelector(c.g, c.env, cs);
    if d.typ != 0x1a || d.dpl != Rpl(cs) || d.p == 0 then Panic
    else
      var c1 :- if Rpl(cs) > c.cpl then ReturnStack(c, cs) else Ok(c.(ctx := c.ctx.(esp := Wrap(c.ctx.esp + 12))));
      SelectorUpdated(c1.(ctx := c1.ctx.(cs := PushedDown(cs), eip := eip)), true, cs)
  }

  /** `doIRET`. */
  function Iret(c: Cpu): (r: Outcome<Cpu>)
    requires Shaped(c)
    ensures r.Ok? ==> Shaped(r.value)
  {
    hide ReturnTo, ReadDword, ReadWord, ReturnFlags, ReturnRefused;
    if !Clear(c.ctx.eflags, 0x0000_4000) then Panic
    else
      var (eip, cs, image) :- Popped(c);
      if !Clear(image, 0x0002_3000) || ReturnSelectorBad(cs, c.cpl) then Panic
      else
        var c1 :- ReturnTo(c, eip, cs);
        if ReturnRefused(image, c.monCr4, c.cpl, Rpl(cs)) then Panic
        else Ok(c1.(
          ctx := c1.ctx.(eflags := ReturnFlags(c1.ctx.eflags, image, Rpl(cs) == 0)),
          monCr4 := if c.cpl < Rpl(cs) then WithoutPvi(c.monCr4) else c.monCr4))
  }

  datatype Segment = ES | CS | SS | DS | FS | GS

  /** The context with one segment register loaded, pushed down to ring 3. */
  function Selected(ctx: Context, seg: Segment, sel: Selector): Context {
    var down := PushedDown(sel);
    match seg
    case ES => ctx.(es := down)
    case CS => ctx.(cs := down)
    case SS => ctx.(ss := down)
    case DS => ctx.(ds := down)
    case FS => ctx.(fs := down)
    case GS => ctx.(gs := down)
  }

  /** `loadGuestSegment`. */
  function LoadSegment(c: Cpu, seg: Segment, sel: Selector): (r: Outcome<Cpu>)
    requires Shaped(c)
    ensures r.Ok? ==> Shaped(r.value)
  {
    var d :- FetchBySelector(c.g, c.env, sel);
    SelectorUpdated(c.(ctx := Selected(c.ctx, seg, sel)), seg == CS, sel)
  }
}
