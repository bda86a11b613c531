/**
 Interrupts inside interrupt handlers, to any depth: while each frame misses what the handlers above it still
 need, every IRET finds its own frame, and the outermost context comes back.
 */
module Nesting {
  import opened Words
  import opened GuestTables
  import opened GuestAccess
  import opened Eflags
  import opened Privilege
  import opened RoundTrip

  /** One interrupt, and the interrupts its handler takes before it returns. */
  datatype Trip = Trip(vector: nat, soft: bool, error: Option<Word>, inner: seq<Trip>)

  /** Each trip in turn: deliver, take the inner ones, pop the error code, return. */
  function RunAll(c: Cpu, trips: seq<Trip>): (r: Outcome<Cpu>)
    requires Privilege.Shaped(c)
    ensures r.Ok? ==> Privilege.Shaped(r.value)
    decreases trips
  {
    hide Interrupt, Iret;
    if trips == [] then Ok(c)
    else
      var trip := trips[0];
      var h :- Interrupt(c, trip.vector, trip.soft, trip.error);
      var t :- RunAll(h, trip.inner);
      var r :- Iret(ErrorPopped(t, trip.error));
      RunAll(r, trips[1..])
  }

  // ---------------------------------------------------------------- bytes to be left alone

  /** The bytes of a frame. */
  ghost function FrameBytes(g: Guest, writes: seq<(Word, Word)>): set<nat>
    requires Sized(g.mem)
  {
    set k: nat | k < |g.mem| && Hit(g, writes, k)
  }

  /** The bytes of the descriptor a selector names. */
  ghost function DescriptorBytes(g: Guest, env: Env, sel: Selector): set<nat>
    requires Sized(g.mem)
  {
    set k: nat | k < |g.mem| && InDescriptor(g, env, sel, k)
  }

  predicate InDescriptor(g: Guest, env: Env, sel: Selector, k: nat)
    requires Sized(g.mem)
  {
    Translate(g, DescriptorAddr(env, sel)) <= k < Translate(g, DescriptorAddr(env, sel)) + 8
  }

  /** What the return to `c` depends on: its frame and the descriptors it loads. */
  ghost function Own(c: Cpu, error: Option<Word>): set<nat>
    requires Privilege.Shaped(c) && SwitchStack(c).Ok?
  {
    FrameBytes(c.g, InterruptFrame(c, error))
    + DescriptorBytes(c.g, c.env, WithRpl(c.ctx.cs, c.cpl))
    + (if c.cpl == 3 then DescriptorBytes(c.g, c.env, c.ctx.ss) else {})
  }

  /** Same translation, and the same bytes at the places in `guard`. */
  ghost predicate Alike(g: Guest, g': Guest, guard: set<nat>)
    requires Sized(g.mem) && Sized(g'.mem)
  {
    && |g'.mem| == |g.mem|
    && (forall l: Word :: Translate(g', l) == Translate(g, l))
    && (forall k | k in guard && k < |g.mem| :: g'.mem[k] == g.mem[k])
  }

  lemma AlikeChain(g: Guest, g1: Guest, g2: Guest, guard: set<nat>, more: set<nat>)
    requires Sized(g.mem) && Sized(g1.mem) && Sized(g2.mem) && Alike(g, g1, guard) && Alike(g1, g2, more) && guard <= more
    ensures Alike(g, g2, guard)
  {
    hide Translate;
  }

  /** A frame that misses the guarded bytes leaves them alone. */
  lemma PushedAlike(g: Guest, writes: seq<(Word, Word)>, g': Guest, guard: set<nat>)
    requires Sized(g.mem) && Sized(g'.mem) && Pushed(g, writes, g') && guard !! FrameBytes(g, writes)
    ensures Alike(g, g', guard)
  {
    hide Translate, Hit, Landed;
    forall k | k in guard && k < |g.mem|
      ensures g'.mem[k] == g.mem[k]
    {
      assert k !in FrameBytes(g, writes);
    }
  }

  /** A frame whose bytes are guarded still holds. */
  lemma StillHolds(g: Guest, writes: seq<(Word, Word)>, g1: Guest, g2: Guest, guard: set<nat>)
    requires Sized(g.mem) && Sized(g1.mem) && Sized(g2.mem) && Holds(g, writes, g1) && Alike(g1, g2, guard)
    requires FrameBytes(g, writes) <= guard
    ensures Holds(g, writes, g2)
  {
    hide Translate;
    forall i | 0 <= i < |writes|
      ensures Landed(g, writes[i], g2)
    {
      var p := Translate(g, writes[i].0);
      assert Landed(g, writes[i], g1);
      forall k: nat | p <= k < p + 4
        ensures g2.mem[k] == g1.mem[k]
      {
        assert Hit(g, writes, k);
        assert k in FrameBytes(g, writes);
      }
    }
  }

  /** A guarded descriptor is fetched as before. */
  lemma StillFetched(g: Guest, env: Env, g': Guest, sel: Selector, guard: set<nat>)
    requires Sized(g.mem) && Sized(g'.mem) && Alike(g, g', guard) && DescriptorBytes(g, env, sel) <= guard
    ensures FetchBySelector(g', env, sel) == FetchBySelector(g, env, sel)
  {
    hide Translate, DecodeDescriptor, DescriptorAddr;
    var p := Translate(g, DescriptorAddr(env, sel));
    assert Translate(g', DescriptorAddr(env, sel)) == p;
    if p + 7 < |g.mem| {
      forall k: nat | p <= k < p + 8
        ensures g'.mem[k] == g.mem[k]
      {
        assert k in DescriptorBytes(g, env, sel);
      }
      assert g'.mem[p..p + 8] == g.mem[p..p + 8];
    }
  }

  // ---------------------------------------------------------------- orderly nesting

  /** Delivery at `c` is one the round trip covers, and its frame misses the guarded bytes. */
  ghost predicate Deliverable(c: Cpu, trip: Trip, guard: set<nat>)
    requires Privilege.Shaped(c)
  {
    && Settled(c) && CanReturn(c) && (c.cpl == 3 ==> DataSelectorsUserOrNull(c.ctx))
    && Interrupt(c, trip.vector, trip.soft, trip.error).Ok? && SwitchStack(c).Ok? && FrameClear(c, trip.error)
    && guard !! FrameBytes(c.g, InterruptFrame(c, trip.error))
  }

  /** Every delivery of the run is, with the bytes the enclosing handlers still need guarded. */
  ghost predicate Orderly(c: Cpu, trips: seq<Trip>, guard: set<nat>)
    requires Privilege.Shaped(c)
    decreases trips
  {
    trips == [] || (
      && Deliverable(c, trips[0], guard)
      && var h := Interrupt(c, trips[0].vector, trips[0].soft, trips[0].error).value;
      && Orderly(h, trips[0].inner, guard + Own(c, trips[0].error))
      && (RunAll(h, trips[0].inner).Ok? ==>
            var r := Iret(ErrorPopped(RunAll(h, trips[0].inner).value, trips[0].error));
            r.Ok? ==> Orderly(r.value, trips[1..], guard)))
  }

  /** The same context, level and CR4, over memory that is alike at the guarded bytes. */
  ghost predicate Back(c: Cpu, r: Cpu, guard: set<nat>)
    requires Privilege.Shaped(c) && Privilege.Shaped(r)
  {
    && r.ctx == c.ctx && r.cpl == c.cpl && r.monCr4 == c.monCr4 && r.env == c.env
    && Alike(c.g, r.g, guard)
  }

  /** Delivery guards what it has to: the frame holds, and the guarded bytes stand. */
  lemma Delivered(c: Cpu, trip: Trip, guard: set<nat>)
    requires Privilege.Shaped(c) && Deliverable(c, trip, guard)
    ensures var h := Interrupt(c, trip.vector, trip.soft, trip.error).value;
      && GateOf(c, trip.vector, trip.soft).Ok? && Entered(c, trip.error, GateOf(c, trip.vector, trip.soft).value, h)
      && Pushed(c.g, InterruptFrame(c, trip.error), h.g)
      && Alike(c.g, h.g, guard)
  {
    hide Interrupt, GateOf, FetchBySelector, SwitchStack, PushAll, InterruptFrame, Pushed, Alike, FrameClear, CanReturn, FrameBytes, KernelFlags, GateFlags, ImageFlags;
    InterruptEnters(c, trip.vector, trip.soft, trip.error);
    FramePushed(c, trip.error);
    PushedAlike(c.g, InterruptFrame(c, trip.error), PushAll(c.g, InterruptFrame(c, trip.error)).value, guard);
  }

  /** After the inner interrupts the handler is still in a position to return to `c`. */
  lemma StillReturns(c: Cpu, error: Option<Word>, gate: Gate, h: Cpu, t: Cpu, guard: set<nat>)
    requires Settled(c) && Entered(c, error, gate, h) && FrameClear(c, error) && (c.cpl == 3 ==> DataSelectorsUserOrNull(c.ctx))
    requires Pushed(c.g, InterruptFrame(c, error), h.g)
    requires Privilege.Shaped(t) && Back(h, t, guard) && Own(c, error) <= guard
    ensures HandlerReturns(c, AtFrame(c, t), SwitchStack(c).value.1)
  {
    hide Translate, Pushed, Frame, PushAll, FrameClear, FrameIntact, Runnable, Returnable, GateFlags, KernelFlags, ImageFlags, TssStack, SelectorUpdated,
      DataSelectorsUserOrNull, Alike, Own;
    DeliveryKeeps(c.ctx.eflags, gate.typ == 14, c.cpl == 0);
    DataSelectorsKept(c.ctx, AtFrame(c, t).ctx);
    InnerLeavesIntact(c, error, h, AtFrame(c, t), guard);
  }

  lemma InnerLeavesIntact(c: Cpu, error: Option<Word>, h: Cpu, t: Cpu, guard: set<nat>)
    requires Settled(c) && SwitchStack(c).Ok? && FrameClear(c, error) && Privilege.Shaped(h) && Privilege.Shaped(t)
    requires t.env == c.env && t.ctx.esp == SwitchStack(c).value.1
    requires Pushed(c.g, InterruptFrame(c, error), h.g) && Alike(h.g, t.g, guard) && Own(c, error) <= guard
    ensures FrameIntact(c, t, SwitchStack(c).value.1)
  {
    hide Translate, Holds, Hit, Frame, ImageFlags, Runnable, Vip, Vif, FetchBySelector, SwitchStack, DescriptorMissed, MissTables, FrameIntact, Alike, FrameBytes, DescriptorBytes;
    StillHolds(c.g, InterruptFrame(c, error), h.g, t.g, guard);
    SelectorStands(c, error, h, t, WithRpl(c.ctx.cs, c.cpl), guard);
    if c.cpl == 3 {
      SelectorStands(c, error, h, t, c.ctx.ss, guard);
    }
    StillIntact(c, error, t, SwitchStack(c).value.1);
  }

  lemma SelectorStands(c: Cpu, error: Option<Word>, h: Cpu, t: Cpu, sel: Selector, guard: set<nat>)
    requires Privilege.Shaped(c) && Privilege.Shaped(h) && Privilege.Shaped(t) && SwitchStack(c).Ok?
    requires Pushed(c.g, InterruptFrame(c, error), h.g) && DescriptorMissed(c.g, c.env, InterruptFrame(c, error), sel)
    requires Alike(h.g, t.g, guard) && DescriptorBytes(c.g, c.env, sel) <= guard
    ensures FetchBySelector(t.g, c.env, sel) == FetchBySelector(c.g, c.env, sel)
  {
    SameDescriptorBytes(c.g, c.env, InterruptFrame(c, error), h.g, sel);
    hide Translate, Pushed, Alike, InterruptFrame, FetchBySelector, SwitchStack, DescriptorMissed, DescriptorBytes;
    FetchStable(c.g, c.env, InterruptFrame(c, error), h.g, sel);
    StillFetched(h.g, c.env, t.g, sel, guard);
  }

  lemma SameDescriptorBytes(g: Guest, env: Env, writes: seq<(Word, Word)>, g': Guest, sel: Selector)
    requires Sized(g.mem) && Sized(g'.mem) && Pushed(g, writes, g')
    ensures DescriptorBytes(g', env, sel) == DescriptorBytes(g, env, sel)
  {
    hide Translate, Hit, Landed, DescriptorAddr;
  }

  /** One trip, given that its inner trips come back. */
  lemma TripReturns(c: Cpu, trip: Trip, t: Cpu, guard: set<nat>)
    requires Privilege.Shaped(c) && Privilege.Shaped(t) && Deliverable(c, trip, guard)
    requires Back(Interrupt(c, trip.vector, trip.soft, trip.error).value, t, guard + Own(c, trip.error))
    ensures Iret(ErrorPopped(t, trip.error)).Ok? && Back(c, Iret(ErrorPopped(t, trip.error)).value, guard)
  {
    hide Interrupt, GateOf, FetchBySelector, SwitchStack, PushAll, InterruptFrame, Pushed, Alike, FrameClear, CanReturn, FrameBytes, KernelFlags, GateFlags, ImageFlags,
      Own, Iret, HandlerReturns, DataSelectorsUserOrNull;
    Delivered(c, trip, guard);
    var h := Interrupt(c, trip.vector, trip.soft, trip.error).value;
    StillReturns(c, trip.error, GateOf(c, trip.vector, trip.soft).value, h, t, guard + Own(c, trip.error));
    IretRestores(c, AtFrame(c, t), SwitchStack(c).value.1);
    assert ErrorPopped(t, trip.error) == AtFrame(c, t);
    AlikeChain(c.g, h.g, t.g, guard, guard + Own(c, trip.error));
  }

  /**
   The round trip to any depth: an orderly run of interrupts, each with any interrupts inside its handler,
   brings back the context, CPL and CR4, and leaves the guarded bytes and every translation alone.
   */
  lemma {:induction false} NestedRoundTrip(c: Cpu, trips: seq<Trip>, guard: set<nat>)
    requires Privilege.Shaped(c) && Orderly(c, trips, guard)
    ensures RunAll(c, trips).Ok? && Back(c, RunAll(c, trips).value, guard)
    decreases trips
  {
    hide Interrupt, Iret, Deliverable, Alike, Own;
    if trips == [] {
      AlikeSelf(c.g, guard);
    } else {
      var trip := trips[0];
      assert Interrupt(c, trip.vector, trip.soft, trip.error).Ok? && SwitchStack(c).Ok? by {
        DeliverableParts(c, trip, guard);
      }
      var h := Interrupt(c, trip.vector, trip.soft, trip.error).value;
      NestedRoundTrip(h, trip.inner, guard + Own(c, trip.error));
      var t := RunAll(h, trip.inner).value;
      TripReturns(c, trip, t, guard);
      var r := Iret(ErrorPopped(t, trip.error)).value;
      NestedRoundTrip(r, trips[1..], guard);
      AlikeChain(c.g, r.g, RunAll(c, trips).value.g, guard, guard);
    }
  }

  lemma DeliverableParts(c: Cpu, trip: Trip, guard: set<nat>)
    requires Privilege.Shaped(c) && Deliverable(c, trip, guard)
    ensures Interrupt(c, trip.vector, trip.soft, trip.error).Ok? && SwitchStack(c).Ok?
  {
    hide Interrupt, SwitchStack, FrameClear, Settled, CanReturn;
  }

  lemma AlikeSelf(g: Guest, guard: set<nat>)
    requires Sized(g.mem)
    ensures Alike(g, g, guard)
  {
    hide Translate;
  }
}
