/**
 What holds of the shadow in every reachable state: it is coherent with the
 guest's tables, maps only pinned pages, and is exact about write permission.
 */
module ShadowTheorems {
  import opened Words
  import opened GuestTables
  import opened Shadow
  import opened ShadowFill
  import opened ShadowRuns
  import Q = PinQueue

  /** A run: the states passed through, and the events between them. */
  ghost predicate IsRun(trace: seq<Vm>, events: seq<Event>) {
    && |trace| == |events| + 1
    && Agrees(trace[0])
    && forall k | 0 <= k < |events| :: Shaped(trace[k]) && Step(trace[k], events[k]) == Ok(trace[k + 1])
  }

  /** A shadow that agrees with the guest's tables as they are; an empty one does. */
  ghost predicate Agrees(vm: Vm) {
    && Inv(vm)
    && (forall l: Word | LeafFor(vm, l).p :: LeafMatches(vm, vm, l))
    && (forall i | 0 <= i < 1024 && i != vm.cfg.monPdi && vm.sh.dir[i].p :: DirMatches(vm, vm, i))
  }

  lemma EmptyAgrees(vm: Vm)
    requires Inv(vm) && PresentPdes(vm.sh, vm.cfg.monPdi) == {}
    ensures Agrees(vm)
  {
    hide LeafMatches, DirMatches, PinInv;
    forall i | 0 <= i < 1024 && i != vm.cfg.monPdi
      ensures !vm.sh.dir[i].p
    {
      assert i !in PresentPdes(vm.sh, vm.cfg.monPdi);
    }
  }

  lemma OneStep(trace: seq<Vm>, events: seq<Event>, n: nat)
    requires IsRun(trace, events) && n < |events| && Inv(trace[n])
    ensures StepPost(trace[n], events[n], trace[n + 1]) && Shaped(trace[n + 1])
  {
    assert Step(trace[n], events[n]) == Ok(trace[n + 1]);
    hide Inv, StepPost, Step, Agrees, ShapedPins;
    StepKeeps(trace[n], events[n]);
  }

  /** The invariants hold in every state of every run. */
  lemma {:induction false} RunKeeps(trace: seq<Vm>, events: seq<Event>, n: nat)
    requires IsRun(trace, events) && n < |trace|
    ensures |trace| == |events| + 1 && Inv(trace[n])
    ensures forall k | 0 <= k <= n :: Shaped(trace[k]) && trace[k].cfg == trace[n].cfg && |trace[k].g.mem| == |trace[n].g.mem|
    ensures forall k | 0 <= k <= n :: trace[k].sh.stamp <= trace[n].sh.stamp
  {
    if n == 0 {
      hide LeafMatches, DirMatches;
    } else {
      RunKeeps(trace, events, n - 1);
      OneStep(trace, events, n - 1);
      assert StepFrame(trace[n - 1], events[n - 1], trace[n]) && Inv(trace[n]) && Shaped(trace[n]);
      hide IsRun, Inv, StepPost, KeepsPins, SameTables, ShapedPins;
    }
  }

  /** Moment `j` lies after the last flush of the page of `l` before moment `n`. */
  ghost predicate SinceFlush(trace: seq<Vm>, events: seq<Event>, j: nat, n: nat, l: Word) {
    && j <= n < |trace| == |events| + 1
    && trace[j].sh.stamp == trace[n].sh.stamp
    && forall k | j <= k < n :: !Flushes(events[k], l)
  }

  /**
   Shadow coherence: in every reachable state, a present entry for `l` holds the
   pinned frame of a page that the guest's own walk of `l` gave at some moment
   since `l` was last flushed, with the write permission of that moment.
   */
  lemma {:induction false} ShadowCoherence(trace: seq<Vm>, events: seq<Event>, n: nat, l: Word) returns (j: nat)
    requires IsRun(trace, events) && n < |trace|
    requires Shaped(trace[n]) && LeafFor(trace[n], l).p
    ensures SinceFlush(trace, events, j, n, l)
    ensures Shaped(trace[j]) && trace[j].cfg == trace[n].cfg && |trace[j].g.mem| == |trace[n].g.mem|
    ensures LeafMatches(trace[n], trace[j], l)
  {
    hide IsRun, Inv, LeafMatches, StepFrame, StepPost, LeafFor, ShapedPins, Flushes;
    RunKeeps(trace, events, n);
    j := n;
    if n == 0 {
      StartMatches(trace, events, l);
    } else {
      RunKeeps(trace, events, n - 1);
      OneStep(trace, events, n - 1);
      LeafCases(trace[n - 1], events[n - 1], trace[n], l);
      if !LeafMatches(trace[n], trace[n], l) {
        j := ShadowCoherence(trace, events, n - 1, l);
        StillMatches(trace[n - 1], trace[n], trace[j], events[n - 1], l);
      }
    }
  }

  lemma StartMatches(trace: seq<Vm>, events: seq<Event>, l: Word)
    requires IsRun(trace, events) && Shaped(trace[0]) && LeafFor(trace[0], l).p
    ensures LeafMatches(trace[0], trace[0], l)
  {
    hide LeafMatches, DirMatches, Inv, Step, LeafFor, ShapedPins;
  }

  lemma LeafCases(vm: Vm, ev: Event, vm': Vm, l: Word)
    requires Shaped(vm) && StepPost(vm, ev, vm') && LeafFor(vm', l).p
    ensures Shaped(vm') && vm'.cfg == vm.cfg && |vm'.g.mem| == |vm.g.mem|
    ensures LeafMatches(vm', vm', l) || (vm'.sh.stamp == vm.sh.stamp && !Flushes(ev, l) && LeafFor(vm', l) == LeafFor(vm, l))
  {
    assert Shaped(vm') && StepLeaves(vm, ev, vm');
    hide Inv, LeafFor, LeafMatches, ShapedPins, StepDirs;
  }

  lemma DirCases(vm: Vm, ev: Event, vm': Vm, i: nat)
    requires Shaped(vm) && StepPost(vm, ev, vm') && i < 1024 && i != vm'.cfg.monPdi && vm'.sh.dir[i].p
    ensures Shaped(vm') && vm'.cfg == vm.cfg
    ensures DirMatches(vm', vm', i) || (vm'.sh.stamp == vm.sh.stamp && vm'.sh.dir[i] == vm.sh.dir[i])
  {
    assert Shaped(vm') && StepDirs(vm, vm');
    hide Inv, DirMatches, ShapedPins, StepLeaves;
  }

  lemma StillMatches(before: Vm, now: Vm, then_: Vm, ev: Event, l: Word)
    requires Shaped(before) && Shaped(now) && Shaped(then_) && StepPost(before, ev, now) && now.sh.stamp == before.sh.stamp
    requires then_.cfg == before.cfg && |then_.g.mem| == |before.g.mem|
    requires LeafFor(now, l) == LeafFor(before, l) && LeafMatches(before, then_, l)
    ensures LeafMatches(now, then_, l)
  {
    hide LeafFor, GuestPage, ShapedPins, SameTables, Inv, StepLeaves, StepDirs;
  }

  /**
   Likewise a present directory entry carries the write permission the guest's entry had at some moment since
   the last reset; INVLPG does not refresh it.
   */
  lemma {:induction false} DirCoherence(trace: seq<Vm>, events: seq<Event>, n: nat, i: nat) returns (j: nat)
    requires IsRun(trace, events) && n < |trace| && i < 1024
    requires Shaped(trace[n]) && i != trace[n].cfg.monPdi && trace[n].sh.dir[i].p
    ensures j <= n && trace[j].sh.stamp == trace[n].sh.stamp
    ensures Shaped(trace[j]) && DirMatches(trace[n], trace[j], i)
  {
    hide IsRun, Inv, StepFrame, StepPost, FillRw, PdeOf, ShapedPins;
    RunKeeps(trace, events, n);
    j := n;
    if n == 0 {
      StartDirMatches(trace, events, i);
    } else {
      RunKeeps(trace, events, n - 1);
      OneStep(trace, events, n - 1);
      DirCases(trace[n - 1], events[n - 1], trace[n], i);
      if !DirMatches(trace[n], trace[n], i) {
        j := DirCoherence(trace, events, n - 1, i);
      }
    }
  }

  lemma StartDirMatches(trace: seq<Vm>, events: seq<Event>, i: nat)
    requires IsRun(trace, events) && Shaped(trace[0]) && i < 1024 && i != trace[0].cfg.monPdi && trace[0].sh.dir[i].p
    ensures DirMatches(trace[0], trace[0], i)
  {
    hide LeafMatches, DirMatches, Inv, Step, LeafFor, ShapedPins;
  }

  /** No reachable shadow entry points at a frame other than that of a page now pinned. */
  lemma NoUnpinnedMapping(trace: seq<Vm>, events: seq<Event>, n: nat, l: Word) returns (page: nat)
    requires IsRun(trace, events) && n < |trace|
    requires Shaped(trace[n]) && LeafFor(trace[n], l).p
    ensures page < |trace[n].pins.pinned| && trace[n].pins.pinned[page]
    ensures page in Q.Fifo(trace[n].pins.queue)
    ensures LeafFor(trace[n], l).base == trace[n].pins.frame[page]
  {
    var j := ShadowCoherence(trace, events, n, l);
    RunKeeps(trace, events, n);
    page := GuestPage(trace[j].g, l).value;
    hide IsRun, SinceFlush, HeapInv, GuestPage;
  }

  // ---------------------------------------------------------------- guest tables left alone

  /** The guest's translation of `l` is the same in both, A and D bits aside. */
  ghost predicate SameWalkAt(g: Guest, g': Guest, l: Word)
    requires Sized(g.mem) && Sized(g'.mem)
  {
    && g'.pg == g.pg && g'.wp == g.wp
    && GuestPage(g', l) == GuestPage(g, l)
    && SameEntry(PteOf(g', l), PteOf(g, l))
    && SameEntry(PdeOf(g', Pdi(l)), PdeOf(g, Pdi(l)))
  }

  /** Since `l` was last flushed before `n`, the guest has left its translation of `l` alone. */
  ghost predicate Unedited(trace: seq<Vm>, events: seq<Event>, n: nat, l: Word) {
    && n < |trace| == |events| + 1
    && forall k: nat | k < n && SinceFlush(trace, events, k, n, l) && events[k].GuestRuns? && Sized(events[k].mem) && Sized(trace[k].g.mem) ::
         SameWalkAt(trace[k].g, trace[k].g.(mem := events[k].mem), l)
  }

  /** Since the last reset before `n`, the guest has left one directory entry alone; INVLPG does not refresh these. */
  ghost predicate UneditedDir(trace: seq<Vm>, events: seq<Event>, n: nat, pdi: nat)
    requires pdi < 1024
  {
    && n < |trace| == |events| + 1
    && forall k: nat | k < n && trace[k].sh.stamp == trace[n].sh.stamp && events[k].GuestRuns? && Sized(events[k].mem) && Sized(trace[k].g.mem) ::
         SameEntry(PdeOf(trace[k].g.(mem := events[k].mem), pdi), PdeOf(trace[k].g, pdi))
  }

  lemma SameTablesSameWalk(g: Guest, m: Memory, l: Word)
    requires Sized(g.mem) && SameTables(g.mem, m)
    ensures SameWalkAt(g, g.(mem := m), l)
  {
    TablesDecideTranslation(g, m, l);
    TablesDecideWalk(g.mem, m, g.cr3, l);
    if Base(g.cr3) < Pages(g.mem) {
      SameAt(g.mem, m, Base(g.cr3), Pdi(l));
    }
  }

  /** Between two moments of one stamp no step resets the shadow. */
  lemma BetweenResets(trace: seq<Vm>, events: seq<Event>, j: nat, n: nat)
    requires IsRun(trace, events) && j < n < |trace| && trace[j].sh.stamp == trace[n].sh.stamp
    ensures trace[j + 1].sh.stamp == trace[j].sh.stamp && StepFrame(trace[j], events[j], trace[j + 1])
  {
    hide IsRun, StepLeaves, StepDirs, Inv;
    RunKeeps(trace, events, j);
    RunKeeps(trace, events, j + 1);
    RunKeeps(trace, events, n);
    OneStep(trace, events, j);
  }

  lemma {:induction false} UneditedWalk(trace: seq<Vm>, events: seq<Event>, j: nat, n: nat, l: Word)
    requires IsRun(trace, events) && SinceFlush(trace, events, j, n, l) && Unedited(trace, events, n, l)
    requires forall k | 0 <= k <= n :: Shaped(trace[k])
    ensures Shaped(trace[j]) && Shaped(trace[n]) && SameWalkAt(trace[j].g, trace[n].g, l)
    decreases n - j
  {
    hide IsRun, Inv, ShapedPins, ShapedTables, Flushes, KeepsPins;
    if j < n {
      BetweenResets(trace, events, j, n);
      var vm, vm' := trace[j], trace[j + 1];
      assert SameWalkAt(vm.g, vm'.g, l) by {
        if !events[j].GuestRuns? {
          SameTablesSameWalk(vm.g, vm'.g.mem, l);
        }
      }
      UneditedWalk(trace, events, j + 1, n, l);
    }
  }

  lemma {:induction false} UneditedDirEntry(trace: seq<Vm>, events: seq<Event>, j: nat, n: nat, pdi: nat)
    requires IsRun(trace, events) && j <= n < |trace| && pdi < 1024
    requires forall k | 0 <= k <= n :: Shaped(trace[k])
    requires trace[j].sh.stamp == trace[n].sh.stamp && UneditedDir(trace, events, n, pdi)
    ensures trace[j].g.pg == trace[n].g.pg && trace[j].g.wp == trace[n].g.wp
    ensures Shaped(trace[j]) && Shaped(trace[n]) && SameEntry(PdeOf(trace[j].g, pdi), PdeOf(trace[n].g, pdi))
    decreases n - j
  {
    hide IsRun, Inv, ShapedPins, ShapedTables, KeepsPins;
    if j < n {
      BetweenResets(trace, events, j, n);
      var vm, vm' := trace[j], trace[j + 1];
      assert SameEntry(PdeOf(vm'.g, pdi), PdeOf(vm.g, pdi)) by {
        if !events[j].GuestRuns? && Base(vm.g.cr3) < Pages(vm.g.mem) {
          SameAt(vm.g.mem, vm'.g.mem, Base(vm.g.cr3), pdi);
        }
      }
      UneditedDirEntry(trace, events, j + 1, n, pdi);
    }
  }

  /** With the guest's translation left alone since the last flush of `l`, a present entry is the current walk. */
  lemma ShadowIsCurrentWalk(trace: seq<Vm>, events: seq<Event>, n: nat, l: Word)
    requires IsRun(trace, events) && n < |trace|
    requires forall k | 0 <= k <= n :: Shaped(trace[k])
    requires LeafFor(trace[n], l).p && Unedited(trace, events, n, l)
    ensures var vm := trace[n];
      match GuestPage(vm.g, l)
      case None => false
      case Some(page) => page < |vm.pins.pinned| && vm.pins.pinned[page] && LeafFor(vm, l).base == vm.pins.frame[page]
  {
    var j := ShadowCoherence(trace, events, n, l);
    UneditedWalk(trace, events, j, n, l);
    hide IsRun, Unedited, GuestPage, LeafFor;
  }

  /** What the guest allows a write at `l`, and what the shadow lets hardware do. */
  predicate GuestMayWrite(g: Guest, l: Word)
    requires Sized(g.mem)
  {
    Rw(PdeOf(g, Pdi(l))) && Rw(PteOf(g, l))
  }

  predicate HardwareMayWrite(vm: Vm, l: Word)
    requires Shaped(vm)
  {
    vm.sh.dir[Pdi(l)].rw && LeafFor(vm, l).rw
  }

  /**
   Write-permission exactness: at every mapped address the shadow allows a write
   exactly when the guest's two entries do and the page is not read-only,
   whichever privilege level filled either entry.
   */
  lemma WritePermissionExact(trace: seq<Vm>, events: seq<Event>, n: nat, l: Word)
    requires IsRun(trace, events) && n < |trace|
    requires forall k | 0 <= k <= n :: Shaped(trace[k])
    requires LeafFor(trace[n], l).p && Unedited(trace, events, n, l) && UneditedDir(trace, events, n, Pdi(l))
    requires trace[n].g.pg && trace[n].g.wp
    ensures var vm := trace[n];
      match GuestPage(vm.g, l)
      case None => false
      case Some(page) => page < |vm.cfg.ro| && (HardwareMayWrite(vm, l) <==> GuestMayWrite(vm.g, l) && !vm.cfg.ro[page])
    ensures trace[n].sh.dir[Pdi(l)].us && LeafFor(trace[n], l).us
  {
    var j := ShadowCoherence(trace, events, n, l);
    var i := DirCoherence(trace, events, n, Pdi(l));
    UneditedWalk(trace, events, j, n, l);
    UneditedDirEntry(trace, events, i, n, Pdi(l));
    SameEntryDecides(PteOf(trace[j].g, l), PteOf(trace[n].g, l));
    SameEntryDecides(PdeOf(trace[i].g, Pdi(l)), PdeOf(trace[n].g, Pdi(l)));
    hide IsRun, Unedited, UneditedDir, GuestPage, Leaf, PteOf, PdeOf, Rw;
  }

  /**
   Hence a hardware fault on an already present entry is the guest's own fault
   and is reported as one, unless the page is read-only and the guest would
   allow the write, where the monitor has no answer and panics.
   */
  lemma PresentFaultIsGuestFault(trace: seq<Vm>, events: seq<Event>, n: nat, l: Word, error: Word, f0: Option<nat>, f1: Option<nat>, f2: Option<nat>)
    requires IsRun(trace, events) && n < |trace|
    requires forall k | 0 <= k <= n :: Shaped(trace[k])
    requires LeafFor(trace[n], l).p && Unedited(trace, events, n, l) && UneditedDir(trace, events, n, Pdi(l))
    requires trace[n].g.pg && trace[n].g.wp
    requires error / 2 % 2 == 1 && !HardwareMayWrite(trace[n], l)
    requires MapLin(trace[n], l, trace[n].cpl == 3, true, f0, f1, f2).Ok?
    ensures var vm := trace[n];
      var result := MapLin(vm, l, vm.cpl == 3, true, f0, f1, f2).value.0;
      match GuestPage(vm.g, l)
      case None => false
      case Some(page) =>
        && page < |vm.cfg.ro|
        && (result.Exception? <==> !GuestAllows(vm.g, l, vm.cpl == 3, true))
        && (!vm.cfg.ro[page] ==> result == Exception(FaultCode(vm.g, l, vm.cpl == 3, true)))
        && (!result.Exception? ==> vm.cfg.ro[page] && GuestPageFault(vm, l, error, f0, f1, f2).Panic?)
  {
    var vm, us := trace[n], trace[n].cpl == 3;
    WritePermissionExact(trace, events, n, l);
    RunKeeps(trace, events, n);
    assert PinInv(vm.pins);
    PresentFault(vm, l, error, us, f0, f1, f2);
    hide IsRun, Unedited, UneditedDir, Inv, MapLin;
  }

  lemma PresentFault(vm: Vm, l: Word, error: Word, us: bool, f0: Option<nat>, f1: Option<nat>, f2: Option<nat>)
    requires Shaped(vm) && PinInv(vm.pins) && vm.g.pg && vm.g.wp && us == (vm.cpl == 3) && error / 2 % 2 == 1
    requires GuestPage(vm.g, l).Some? && GuestPage(vm.g, l).value < |vm.cfg.ro|
    requires !GuestMayWrite(vm.g, l) || vm.cfg.ro[GuestPage(vm.g, l).value]
    requires MapLin(vm, l, us, true, f0, f1, f2).Ok?
    ensures var result := MapLin(vm, l, us, true, f0, f1, f2).value.0;
      && (result.Exception? <==> !GuestAllows(vm.g, l, us, true))
      && (!vm.cfg.ro[GuestPage(vm.g, l).value] ==> result == Exception(FaultCode(vm.g, l, us, true)))
      && (!result.Exception? ==> vm.cfg.ro[GuestPage(vm.g, l).value] && GuestPageFault(vm, l, error, f0, f1, f2).Panic?)
  {
    hide SameTables, PinInv, WalkTables, FaultCode, GuestMayWrite, GuestPage, ShapedPins;
    ConsultIsArchitectural(vm, l, us, true, f0, f1);
    var (access, vm1) := Consult(vm, l, us, true, f0, f1).value;
    if access.Granted? {
      GrantedMayWrite(vm.g, l, us);
      ReadOnlyRefusesWrite(vm1, Pdi(l), Pti(l), access.page, access.pde, access.pte, f2);
    }
    hide Consult, Fill, GuestAllows, Dropped, KeepsPins;
  }

  lemma GrantedMayWrite(g: Guest, l: Word, us: bool)
    requires Sized(g.mem) && g.pg && g.wp && GuestAllows(g, l, us, true)
    ensures GuestMayWrite(g, l)
  {
  }

  lemma ReadOnlyRefusesWrite(vm: Vm, pdi: nat, pti: nat, page: nat, pde: Word, pte: Word, f2: Option<nat>)
    requires Shaped(vm) && pdi < 1024 && pti < 1024 && page < |vm.cfg.ro| && vm.cfg.ro[page]
    requires Fill(vm, pdi, pti, true, page, pde, pte, f2).Ok?
    ensures var result := Fill(vm, pdi, pti, true, page, pde, pte, f2).value.0;
      result == AlreadyMapped || result == Emulate || result == MonConflict
  {
    hide Pinned;
  }

  // ---------------------------------------------------------------- the ring over whole runs

  function Requested(requests: seq<(nat, nat)>): seq<nat> {
    if requests == [] then [] else Requested(requests[..|requests| - 1]) + [requests[|requests| - 1].0]
  }

  /** Successful pin requests, each for a page not pinned at the time, from nothing pinned. */
  ghost predicate IsPinRun(states: seq<Pins>, requests: seq<(nat, nat)>) {
    && |states| == |requests| + 1
    && states[0].queue == Q.Empty() && (forall i | 0 <= i < |states[0].pinned| :: !states[0].pinned[i])
    && ShapedPins(states[0], |states[0].pinned|)
    && forall k | 0 <= k < |requests| ::
         && ShapedPins(states[k], |states[k].pinned|)
         && requests[k].0 < |states[k].pinned| && !states[k].pinned[requests[k].0]
         && states[k + 1] == Pin(states[k], requests[k].0, requests[k].1)
  }

  /**
   The ring refines a bounded first-in first-out queue: after any such run the
   pinned pages are exactly the last 1024 requested, in order, without
   repetition, and the next victim is the one requested longest ago.
   */
  lemma {:induction false} PinRunIsFifo(states: seq<Pins>, requests: seq<(nat, nat)>, n: nat)
    requires IsPinRun(states, requests) && n < |states|
    ensures ShapedPins(states[n], |states[n].pinned|) && PinInv(states[n])
    ensures states[n].queue == Q.EnqueueAll(Requested(requests[..n]))
    ensures Q.Fifo(states[n].queue) == Q.Recent(Requested(requests[..n]))
    ensures |Requested(requests[..n])| == n
    ensures n >= 1024 ==> Q.Full(states[n].queue) && Victim(states[n].queue) == Requested(requests[..n])[n - 1024]
  {
    hide Q.Fifo, Q.Recent, PinInv, ShapedPins, Q.Enqueue;
    var reqs := Requested(requests[..n]);
    if n > 0 {
      PinRunIsFifo(states, requests, n - 1);
      PinRunStep(states, requests, n - 1);
      assert requests[..n][..n - 1] == requests[..n - 1];
      assert reqs[..n - 1] == Requested(requests[..n - 1]);
    } else {
      PinRunStart(states, requests);
      assert requests[..0] == [];
    }
    Q.RingIsSlidingWindow(reqs);
    if n >= 1024 {
      Q.VictimIsLeastRecent(reqs);
    }
  }

  lemma PinRunStart(states: seq<Pins>, requests: seq<(nat, nat)>)
    requires IsPinRun(states, requests)
    ensures ShapedPins(states[0], |states[0].pinned|) && PinInv(states[0]) && states[0].queue == Q.Empty()
  {
  }

  lemma PinRunStep(states: seq<Pins>, requests: seq<(nat, nat)>, n: nat)
    requires IsPinRun(states, requests) && n < |requests|
    requires ShapedPins(states[n], |states[n].pinned|) && PinInv(states[n])
    ensures ShapedPins(states[n + 1], |states[n + 1].pinned|) && PinInv(states[n + 1])
    ensures Q.Valid(states[n].queue) && states[n + 1].queue == Q.Enqueue(states[n].queue, requests[n].0)
  {
    hide Q.Fifo, PinInv, Q.Enqueue;
    var (page, frame) := requests[n];
    assert states[n + 1] == Pin(states[n], page, frame);
    PinShaped(states[n], page);
    PinKeeps(states[n], page, frame);
  }
}
