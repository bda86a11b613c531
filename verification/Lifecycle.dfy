/**
 The life of a VM as user space drives it through ioctl calls, and the request
 protocol between monitor, host kernel and user space.
 */
module Lifecycle {
  import opened Words
  import opened Privilege
  import Entry

  /** The bits of `vmState`. */
  datatype Bit = FdOpened | MemAllocated | GuestCpuid | PhyMem | PrintBuffer | CpuWindow | InitMonitor | MapMonitor | Panicked

  const READY: set<Bit> := {FdOpened, MemAllocated, GuestCpuid, PhyMem, PrintBuffer, CpuWindow, InitMonitor, MapMonitor}

  const REGISTERED: set<Bit> := {PhyMem, PrintBuffer, CpuWindow}

  /** `mon_request`: what the monitor asks of the host, and, while unanswered, of user space. */
  datatype Request = NoRequest | FlushPrintBuf | Redirect | RemapMonitor | GuestFault | PinUserPage | MonitorPanic | HalCall | CyclesUpdate | Bogus

  /** The guest CPU saved on the monitor's stack. */
  datatype Saved = Saved(ctx: Context, general: Entry.General)

  /** The VM as the host kernel holds it, with the CPU window it shares with user space. */
  datatype Host = Host(
    state: set<Bit>, request: Request, megs: nat, linux: bool,
    saved: Saved, cpl: nat, intr: bool,
    user: Entry.GuestCpu, userIntr: bool)

  /** One trip to the monitor and back: what it asked for, and how it left the guest. */
  datatype Trip = Trip(hostIf: bool, request: Request, saved: Saved, cpl: nat, intr: bool, idle: bool, pinned: bool)

  datatype Reply = Success | Invalid | BadAddress | Busy | NoMemory | Refused(why: Entry.NoExecute) | WrongState | Crashed

  datatype Message = Message(megs: nat, memory: Word, log: Word, cpu: Word)

  /** How far the allocations of a registration get. */
  datatype Allocation = NoCpuPage | NoLogPage | NoPages | Allocated

  /** What the host OS makes possible for a registration. */
  datatype Resources = Resources(allocation: Allocation, guestInit: bool, monitorInit: bool, monitorMap: bool, zeroed: Entry.GuestCpu)

  datatype Call =
    | Cpuid(copied: bool)
    | Register(copied: bool, msg: Message, resources: Resources)
    | Unregister
    | LinuxMode
    | Teardown
    | Execute(copied: bool, native: bool, trips: seq<Trip>, copiedOut: bool)
    | ResetCount
    | Unknown
    /** Not a call: user space writes to the shared CPU window. */
    | WindowWrite(cpu: Entry.GuestCpu, cpuIntr: bool)

  ghost predicate Formed(h: Host) {
    Entry.Formed(h.user)
  }

  // ---------------------------------------------------------------- registration

  /** Two page-sized regions of user memory overlap, as the source tests it. */
  predicate Overlap(a: Word, b: Word) {
    || a <= b <= a + 4095
    || a <= b + 4095 <= a + 4095
  }

  /** The checks on the message; of the three regions only the two windows are compared. */
  predicate MessageOk(msg: Message) {
    && msg.megs % 4 == 0
    && msg.memory % 4096 == 0 && msg.log % 4096 == 0 && msg.cpu % 4096 == 0
    && !Overlap(msg.log, msg.cpu) && !Overlap(msg.cpu, msg.log)
  }

  /** `hostUnallocVmPages`; of the state bits it takes back only one. */
  function Unallocated(h: Host): Host {
    h.(state := h.state - {PhyMem}, megs := 0)
  }

  /** `hostAllocVmPages`. */
  function Allocate(h: Host, megs: nat, allocation: Allocation): (Host, bool) {
    var h1 := h.(megs := megs, state := h.state + {PhyMem});
    match allocation
    case NoCpuPage => (Unallocated(h1), false)
    case NoLogPage => (Unallocated(h1.(state := h1.state + {CpuWindow})), false)
    case NoPages => (Unallocated(h1.(state := h1.state + {CpuWindow, PrintBuffer})), false)
    case Allocated => (h1.(state := h1.state + {CpuWindow, PrintBuffer, MemAllocated}), true)
  }

  /** The VM is open and nothing more, so memory may be registered. */
  predicate Accepting(h: Host) {
    h.state - {GuestCpuid} == {FdOpened} && h.megs == 0
  }

  /** `hostIoctlRegisterMem`. */
  function RegisterMem(h: Host, msg: Message, res: Resources): (Host, Reply) {
    if !Accepting(h) then (h, Busy)
    else if !MessageOk(msg) then (h, Invalid)
    else
      var (h1, complete) := Allocate(h, msg.megs, res.allocation);
      if !complete then (h1, NoMemory)
      else if !res.guestInit then (Unallocated(h1), BadAddress)
      else
        var h2 := h1.(intr := false);
        if !res.monitorInit then (Unallocated(h2), BadAddress)
        else
          var h3 := h2.(user := res.zeroed, userIntr := false, request := NoRequest, state := h2.state + {InitMonitor});
          if !res.monitorMap then (Unallocated(h3), BadAddress)
          else (h3.(state := h3.state + {MapMonitor}), Success)
  }

  // ---------------------------------------------------------------- execution

  function Crash(h: Host): Host {
    h.(state := h.state + {Panicked}, request := MonitorPanic)
  }

  /** Back to user space, with the request left for it and INTR shown to it. */
  function ToUser(h: Host): Host {
    h.(userIntr := h.intr)
  }

  /** For a HAL call user space is also shown the general registers. */
  function ShowRegisters(h: Host): Host {
    h.(user := h.user.(general := h.saved.general, esp := h.saved.ctx.esp))
  }

  /** The trip leaves the guest as it stopped, and asks for something. */
  function Travel(h: Host, t: Trip): Host {
    h.(request := t.request, saved := t.saved, cpl := t.cpl, intr := t.intr)
  }

  /** One turn of the request loop: what the host makes of the request, and its reply if it returns. */
  function Turn(h: Host, t: Trip): (Host, Option<Reply>) {
    if !t.hostIf then (Crash(h), Some(Crashed))
    else
      var h1 := Travel(h, t);
      match t.request
      case Redirect => if t.idle then (h1.(request := NoRequest), None) else (ToUser(h1), Some(Success))
      case FlushPrintBuf => (ToUser(h1), Some(Success))
      case Bogus => (ToUser(h1), Some(Success))
      case HalCall => (ToUser(ShowRegisters(h1)), Some(Success))
      case PinUserPage => if t.pinned then (h1, None) else (Crash(h1), Some(Crashed))
      case _ => (Crash(h1), Some(Crashed))
  }

  /** The request loop of `hostIoctlExecute` over the trips it makes; `None` if it has not returned by then. */
  function RunTrips(h: Host, trips: seq<Trip>): Option<(Host, Reply)>
    decreases |trips|
  {
    if trips == [] then None
    else
      var (h1, reply) := Turn(h, trips[0]);
      if reply.Some? then Some((h1, reply.value)) else RunTrips(h1, trips[1..])
  }

  /** The requests user space answers by calling EXECUTE again. */
  predicate Resumes(r: Request) {
    r == HalCall || r == FlushPrintBuf || r == Bogus || r == Redirect
  }

  /** The state in which an answered request re-enters the monitor. */
  function Resumption(h: Host): Host {
    var h1 := h.(intr := h.userIntr, request := NoRequest);
    if h.request == HalCall then h1.(saved := h1.saved.(general := h.user.general)) else h1
  }

  /** The state in which the guest is entered for the first time. */
  function FullLoad(h: Host): Host
    requires Formed(h)
  {
    h.(intr := h.userIntr, cpl := Entry.Level(h.user), saved := Saved(Entry.LoadedContext(h.linux, h.user), h.user.general))
  }

  /** `hostIoctlExecute`. */
  function Executed(h: Host, native: bool, trips: seq<Trip>): Option<(Host, Reply)>
    requires Formed(h)
  {
    if h.state != READY then Some((Crash(h), WrongState))
    else if Resumes(h.request) then RunTrips(Resumption(h), trips)
    else if h.request != NoRequest then Some((Crash(h.(intr := h.userIntr)), WrongState))
    else
      var refusal := Entry.Refusal(h.linux, native, h.user);
      if refusal.Some? then
        Some((h.(intr := h.userIntr, cpl := if native then Entry.Level(h.user) else h.cpl), Refused(refusal.value)))
      else RunTrips(FullLoad(h), trips)
  }

  /** `hostIoctlGeneric`. */
  function Ioctl(h: Host, call: Call): (r: Option<(Host, Reply)>)
    requires Formed(h)
  {
    match call
    case Cpuid(copied) =>
      if GuestCpuid in h.state then Some((h, Invalid))
      else if !copied then Some((h, BadAddress))
      else Some((h.(state := h.state + {GuestCpuid}), Success))
    case Register(copied, msg, resources) =>
      if !copied then Some((h, BadAddress)) else Some(RegisterMem(h, msg, resources))
    case Unregister => Some((h.(state := h.state - REGISTERED), Success))
    case LinuxMode => Some((h.(linux := true), Success))
    case Teardown =>
      if h.state * REGISTERED != {} then Some((h, Busy)) else Some((Unallocated(h).(state := {FdOpened}), Success))
    case Execute(copied, native, trips, copiedOut) =>
      if !copied then Some((h, BadAddress))
      else
        var r := Executed(h, native, trips);
        if r.None? then None else Some((r.value.0, if copiedOut then r.value.1 else BadAddress))
    case ResetCount => Some((h, Success))
    case Unknown => Some((h, Invalid))
    case WindowWrite(cpu, intr) => Some((h.(user := cpu, userIntr := intr), Success))
  }

  // ---------------------------------------------------------------- what one call does

  /** What the loop returns with: an unanswered request and INTR shown to user space, or a panic. */
  ghost predicate LoopPost(h: Host, r: (Host, Reply)) {
    && r.0.linux == h.linux && r.0.megs == h.megs
    && (r.1 == Success || r.1 == Crashed)
    && (r.1 == Success ==>
          && r.0.state == h.state && Resumes(r.0.request) && r.0.userIntr == r.0.intr
          && (if r.0.request == HalCall then r.0.user == h.user.(general := r.0.saved.general, esp := r.0.saved.ctx.esp) else r.0.user == h.user))
    && (r.1 == Crashed ==> r.0.state == h.state + {Panicked} && r.0.request == MonitorPanic && r.0.user == h.user)
  }

  lemma CrashPost(h: Host, h1: Host)
    requires h1.state == h.state && h1.linux == h.linux && h1.megs == h.megs && h1.user == h.user
    ensures LoopPost(h, (Crash(h1), Crashed))
  {
  }

  lemma ReturnPost(h: Host, h1: Host)
    requires h1.state == h.state && h1.linux == h.linux && h1.megs == h.megs && h1.user == h.user && Resumes(h1.request)
    ensures LoopPost(h, (if h1.request == HalCall then ToUser(ShowRegisters(h1)) else ToUser(h1), Success))
  {
  }

  lemma TurnPost(h: Host, t: Trip)
    ensures var (h1, reply) := Turn(h, t);
      if reply.Some? then LoopPost(h, (h1, reply.value))
      else h1.state == h.state && h1.linux == h.linux && h1.megs == h.megs && h1.user == h.user
  {
    hide LoopPost, Crash, ToUser, ShowRegisters;
    CrashPost(h, h);
    CrashPost(h, Travel(h, t));
    if Resumes(t.request) {
      ReturnPost(h, Travel(h, t));
    }
  }

  lemma {:induction false} LoopReturns(h: Host, trips: seq<Trip>)
    requires RunTrips(h, trips).Some?
    ensures LoopPost(h, RunTrips(h, trips).value)
    decreases |trips|
  {
    hide Turn;
    TurnPost(h, trips[0]);
    var (h1, reply) := Turn(h, trips[0]);
    if reply.None? {
      LoopReturns(h1, trips[1..]);
    }
  }

  predicate Registers(h: Host, call: Call)
  {
    call.Register? && call.copied && RegisterMem(h, call.msg, call.resources).1 == Success
  }

  predicate SetsCpuid(h: Host, call: Call) {
    call.Cpuid? && call.copied && GuestCpuid !in h.state
  }

  predicate TearsDown(h: Host, call: Call) {
    call.Teardown? && h.state * REGISTERED == {}
  }

  /** EXECUTE reaches the loop that runs the guest. */
  predicate Enters(h: Host, call: Call)
    requires Formed(h)
  {
    && call.Execute? && call.copied && h.state == READY
    && (Resumes(h.request) || (h.request == NoRequest && Entry.Refusal(h.linux, call.native, h.user).None?))
  }

  /** EXECUTE loads the full CPU state from user space. */
  predicate Loads(h: Host, call: Call)
    requires Formed(h)
  {
    Enters(h, call) && h.request == NoRequest
  }

  /** EXECUTE comes back in the panic state. */
  predicate Crashes(call: Call, h': Host) {
    call.Execute? && call.copied && Panicked in h'.state
  }

  /** Which bits may be there after a call, and why. */
  ghost predicate Ledger(h: Host, call: Call, h': Host)
    requires Formed(h)
  {
    && (MapMonitor in h'.state ==> Registers(h, call) || (MapMonitor in h.state && !TearsDown(h, call)))
    && (PhyMem in h'.state && MapMonitor in h'.state && !Registers(h, call) ==> PhyMem in h.state && !call.Unregister?)
    && (GuestCpuid in h'.state ==> SetsCpuid(h, call) || (GuestCpuid in h.state && !TearsDown(h, call)))
    && (Panicked in h.state && !TearsDown(h, call) ==> Panicked in h'.state)
    && (Registers(h, call) ==> h.state - {GuestCpuid} == {FdOpened})
    && (MapMonitor in h'.state && h'.request == NoRequest && !Registers(h, call) ==> h.request == NoRequest && !Loads(h, call))
  }

  lemma ExecutedLedger(h: Host, call: Call)
    requires Formed(h) && call.Execute? && Ioctl(h, call).Some?
    ensures Ledger(h, call, Ioctl(h, call).value.0)
  {
    hide Entry.Refusal, RunTrips, Entry.LoadedContext;
    if call.copied && h.state == READY {
      if Resumes(h.request) {
        LoopReturns(Resumption(h), call.trips);
      } else if h.request == NoRequest && Entry.Refusal(h.linux, call.native, h.user).None? {
        LoopReturns(FullLoad(h), call.trips);
      }
    }
  }

  lemma CallLedger(h: Host, call: Call)
    requires Formed(h) && Ioctl(h, call).Some?
    ensures Ledger(h, call, Ioctl(h, call).value.0)
  {
    hide Executed, RegisterMem;
    match call
    case Execute(_, _, _, _) => ExecutedLedger(h, call);
    case Register(_, _, _) => RegisterLedger(h, call);
    case Teardown => assert PhyMem in REGISTERED;
    case Unregister => assert PhyMem in REGISTERED;
    case _ =>
  }

  /** What a registration that is not refused outright does to the bits the ledger follows. */
  lemma RegisterBits(h: Host, msg: Message, res: Resources)
    requires Accepting(h)
    ensures var (h1, reply) := RegisterMem(h, msg, res);
      && (reply == Success <==> MapMonitor in h1.state)
      && (GuestCpuid in h1.state <==> GuestCpuid in h.state)
      && MapMonitor !in h.state && Panicked !in h.state
  {
    hide MessageOk;
    assert MapMonitor !in h.state - {GuestCpuid};
    assert Panicked !in h.state - {GuestCpuid};
  }

  /** A registration that is not refused outright starts from a VM that is merely open. */
  lemma RegisterLedger(h: Host, call: Call)
    requires Formed(h) && call.Register?
    ensures Ledger(h, call, Ioctl(h, call).value.0)
    ensures Registers(h, call) ==> MapMonitor !in h.state && MapMonitor in Ioctl(h, call).value.0.state
  {
    if Accepting(h) {
      RegisterBits(h, call.msg, call.resources);
    } else {
      assert RegisterMem(h, call.msg, call.resources) == (h, Busy);
    }
    hide RegisterMem;
  }

  // ---------------------------------------------------------------- whole lives

  /** The VM just after its device was opened. */
  ghost predicate Opened(h: Host) {
    h.state == {FdOpened} && h.request == NoRequest && h.megs == 0 && !h.intr && !h.linux
  }

  ghost predicate IsLife(hs: seq<Host>, calls: seq<Call>) {
    && |hs| == |calls| + 1
    && Opened(hs[0])
    && (forall i | 0 <= i < |hs| :: Formed(hs[i]))
    && forall i | 0 <= i < |calls| :: Ioctl(hs[i], calls[i]).Some? && Ioctl(hs[i], calls[i]).value.0 == hs[i + 1]
  }

  lemma LifeLedger(hs: seq<Host>, calls: seq<Call>, i: nat)
    requires IsLife(hs, calls) && i < |calls|
    ensures Ledger(hs[i], calls[i], hs[i + 1])
  {
    hide Ioctl, Ledger;
    CallLedger(hs[i], calls[i]);
  }

  /** Since call `j`, nothing has taken the registration back and nothing has panicked. */
  ghost predicate Undisturbed(hs: seq<Host>, calls: seq<Call>, j: int, i: nat)
    requires -1 <= j < i < |hs| == |calls| + 1
  {
    forall k | j < k < i :: !calls[k].Unregister? && !TearsDown(hs[k], calls[k]) && !Crashes(calls[k], hs[k + 1])
  }

  lemma {:induction false} MappedMeansRegistered(hs: seq<Host>, calls: seq<Call>, i: nat) returns (j: nat)
    requires IsLife(hs, calls) && i < |hs|
    requires PhyMem in hs[i].state && MapMonitor in hs[i].state && Panicked !in hs[i].state
    ensures j < i && Registers(hs[j], calls[j]) && Undisturbed(hs, calls, j, i)
    decreases i
  {
    hide Ioctl, Registers, Entry.Formed;
    assert i > 0;
    LifeLedger(hs, calls, i - 1);
    if Registers(hs[i - 1], calls[i - 1]) {
      j := i - 1;
    } else {
      j := MappedMeansRegistered(hs, calls, i - 1);
    }
  }

  lemma {:induction false} CpuidMeansSet(hs: seq<Host>, calls: seq<Call>, i: nat) returns (m: nat)
    requires IsLife(hs, calls) && i < |hs| && GuestCpuid in hs[i].state
    ensures m < i && SetsCpuid(hs[m], calls[m])
    ensures forall k | m < k < i :: !TearsDown(hs[k], calls[k])
    decreases i
  {
    hide Ioctl, Registers, SetsCpuid, Entry.Formed;
    LifeLedger(hs, calls, i - 1);
    if SetsCpuid(hs[i - 1], calls[i - 1]) {
      m := i - 1;
    } else {
      m := CpuidMeansSet(hs, calls, i - 1);
    }
  }

  /**
   Lifecycle safety: EXECUTE enters the guest only if a registration has fully succeeded with no
   unregister, teardown or panic since, and the CPUID has been set with no teardown since.
   */
  lemma EntersOnlyWhenReady(hs: seq<Host>, calls: seq<Call>, i: nat) returns (j: nat, m: nat)
    requires IsLife(hs, calls) && i < |calls| && Enters(hs[i], calls[i])
    ensures j < i && Registers(hs[j], calls[j]) && Undisturbed(hs, calls, j, i)
    ensures m < i && SetsCpuid(hs[m], calls[m]) && forall k | m < k < i :: !TearsDown(hs[k], calls[k])
  {
    hide Ioctl, Registers, SetsCpuid, Undisturbed, TearsDown;
    j := MappedMeansRegistered(hs, calls, i);
    m := CpuidMeansSet(hs, calls, i);
  }

  /** A panic is final until teardown: the guest is not entered again, nor memory registered. */
  lemma {:induction false} PanicIsSticky(hs: seq<Host>, calls: seq<Call>, i: nat, k: nat)
    requires IsLife(hs, calls) && i < k < |hs| && Crashes(calls[i], hs[i + 1])
    requires forall t | i < t < k :: !TearsDown(hs[t], calls[t])
    ensures Panicked in hs[k].state
    ensures k < |calls| ==> !Enters(hs[k], calls[k]) && !Registers(hs[k], calls[k])
    decreases k
  {
    hide Ioctl, Entry.Refusal, RegisterMem;
    if k > i + 1 {
      PanicIsSticky(hs, calls, i, k - 1);
      LifeLedger(hs, calls, k - 1);
    }
    if k < |calls| {
      LifeLedger(hs, calls, k);
    }
  }

  /** Between two successful registrations lies a teardown. */
  lemma {:induction false} TeardownBetweenRegistrations(hs: seq<Host>, calls: seq<Call>, j: nat, k: nat) returns (t: nat)
    requires IsLife(hs, calls) && j < k < |calls| && Registers(hs[j], calls[j]) && Registers(hs[k], calls[k])
    ensures j < t < k && TearsDown(hs[t], calls[t])
  {
    hide RegisterMem, Entry.Formed, RunTrips, Entry.Refusal;
    RegisterLedger(hs[j], calls[j]);
    RegisterLedger(hs[k], calls[k]);
    t := MappedUntilTeardown(hs, calls, j + 1, k);
  }

  lemma {:induction false} MappedUntilTeardown(hs: seq<Host>, calls: seq<Call>, i: nat, k: nat) returns (t: nat)
    requires IsLife(hs, calls) && i <= k < |calls| && MapMonitor in hs[i].state && MapMonitor !in hs[k].state
    ensures i <= t < k && TearsDown(hs[t], calls[t])
    decreases k - i
  {
    hide Registers, Entry.Formed, RunTrips, Entry.Refusal, RegisterMem;
    if TearsDown(hs[i], calls[i]) {
      t := i;
    } else {
      MapStays(hs[i], calls[i]);
      t := MappedUntilTeardown(hs, calls, i + 1, k);
    }
  }

  lemma MapStays(h: Host, call: Call)
    requires Formed(h) && Ioctl(h, call).Some? && MapMonitor in h.state && !TearsDown(h, call)
    ensures MapMonitor in Ioctl(h, call).value.0.state
  {
    hide Entry.Refusal, RunTrips, MessageOk, Entry.LoadedContext;
    if call.Execute? && call.copied && h.state == READY {
      if Resumes(h.request) {
        LoopReturns(Resumption(h), call.trips);
      } else if h.request == NoRequest && Entry.Refusal(h.linux, call.native, h.user).None? {
        LoopReturns(FullLoad(h), call.trips);
      }
    }
  }

  // ---------------------------------------------------------------- failed registrations

  /** A set of state bits, bit by bit. */
  lemma OpenBits(state: set<Bit>)
    ensures state - {GuestCpuid} == {FdOpened} <==> FdOpened in state && forall b | b in state :: b == FdOpened || b == GuestCpuid
  {
    if state - {GuestCpuid} == {FdOpened} {
      assert FdOpened in state - {GuestCpuid};
      forall b | b in state
        ensures b == FdOpened || b == GuestCpuid
      {
        assert b == GuestCpuid || b in state - {GuestCpuid};
      }
    }
  }

  /** The ordinary shutdown: UNREGISTER and then TEARDOWN succeed from any state, and leave a VM that accepts a registration. */
  lemma ShutdownSucceeds(h: Host)
    requires Formed(h)
    ensures var u := Ioctl(h, Unregister);
      && u.Some? && u.value.1 == Success && (forall b :: b in u.value.0.state <==> b in h.state && b != PhyMem && b != PrintBuffer && b != CpuWindow)
      && u.value.0 == h.(state := u.value.0.state)
      && var t := Ioctl(u.value.0, Teardown);
      && t.Some? && t.value.1 == Success && Accepting(t.value.0) && t.value.0 == h.(state := {FdOpened}, megs := 0)
  {
    assert (h.state - REGISTERED) * REGISTERED == {};
    OpenBits({FdOpened});
  }

  /** The bits a failed registration leaves, by the point at which it failed. */
  lemma BitsLeft(h: Host, msg: Message, res: Resources)
    requires Accepting(h) && MessageOk(msg) && RegisterMem(h, msg, res).1 != Success
    ensures var h1 := RegisterMem(h, msg, res).0;
      && h1.megs == 0 && h1.user == (if res.allocation == Allocated && res.guestInit && res.monitorInit then res.zeroed else h.user)
      && (CpuWindow in h1.state <==> res.allocation != NoCpuPage)
      && (MemAllocated in h1.state <==> res.allocation == Allocated)
      && (forall b | b in h1.state :: b in h.state || b == CpuWindow || b == PrintBuffer || (res.allocation == Allocated && (b == MemAllocated || b == InitMonitor)))
      && (forall b | b in h.state :: b in h1.state)
      && (res.allocation == NoCpuPage ==> PrintBuffer !in h1.state)
  {
    hide MessageOk;
    OpenBits(h.state);
    match res.allocation {
      case NoCpuPage =>
      case NoLogPage =>
      case NoPages =>
      case Allocated =>
    }
  }

  /**
   What a failed registration leaves behind, call by call. At once a retry, and a teardown, are accepted exactly
   when not even the CPU window had been pinned; after UNREGISTER a retry is accepted exactly when
   the allocation itself had failed; and after UNREGISTER and TEARDOWN it always is.
   */
  lemma FailedRegistrationSticks(h: Host, msg: Message, res: Resources, again: Message, res': Resources)
    requires Formed(h) && Accepting(h) && MessageOk(msg) && RegisterMem(h, msg, res).1 != Success && Entry.Formed(res.zeroed)
    ensures var h1 := Ioctl(h, Register(true, msg, res)).value.0;
      && Formed(h1)
      && (Ioctl(h1, Register(true, again, res')).value.1 == Busy <==> res.allocation != NoCpuPage)
      && (Ioctl(h1, Teardown).value.1 == Busy <==> res.allocation != NoCpuPage)
      && var h2 := Ioctl(h1, Unregister).value.0;
      && (Ioctl(h2, Register(true, again, res')).value.1 == Busy <==> res.allocation == Allocated)
      && Ioctl(h2, Teardown).value.1 == Success
      && Ioctl(Ioctl(h2, Teardown).value.0, Register(true, again, res')).value.1 != Busy
  {
    hide RegisterMem, MessageOk, Accepting, Executed;
    var h1 := RegisterMem(h, msg, res).0;
    BitsLeft(h, msg, res);
    ShutdownSucceeds(h1);
    var h2 := Ioctl(h1, Unregister).value.0;
    AcceptingBits(h);
    AcceptingBits(h1);
    AcceptingBits(h2);
    BusyIff(h1, again, res');
    BusyIff(h2, again, res');
    BusyIff(Ioctl(h2, Teardown).value.0, again, res');
    TeardownBusyIff(h1);
  }

  lemma AcceptingBits(h: Host)
    ensures Accepting(h) <==> h.megs == 0 && FdOpened in h.state && forall b | b in h.state :: b == FdOpened || b == GuestCpuid
  {
    OpenBits(h.state);
  }

  lemma BusyIff(h: Host, msg: Message, res: Resources)
    ensures RegisterMem(h, msg, res).1 == Busy <==> !Accepting(h)
  {
    hide MessageOk;
  }

  lemma TeardownBusyIff(h: Host)
    requires Formed(h)
    ensures Ioctl(h, Teardown).value.1 == Busy <==> PhyMem in h.state || PrintBuffer in h.state || CpuWindow in h.state
  {
    if PhyMem in h.state || PrintBuffer in h.state || CpuWindow in h.state {
      assert PhyMem in h.state * REGISTERED || PrintBuffer in h.state * REGISTERED || CpuWindow in h.state * REGISTERED;
    }
  }

  /** What the registration message must be: whole multiples of four megabytes, page-aligned, with two different windows. */
  lemma MessageMeans(msg: Message)
    ensures MessageOk(msg) <==>
      msg.megs % 4 == 0 && msg.memory % 4096 == 0 && msg.log % 4096 == 0 && msg.cpu % 4096 == 0 && msg.log != msg.cpu
  {
    if msg.log % 4096 == 0 && msg.cpu % 4096 == 0 && msg.log != msg.cpu {
      assert msg.log + 4096 <= msg.cpu || msg.cpu + 4096 <= msg.log;
    }
  }

  // ---------------------------------------------------------------- the request protocol

  /** Between two full loads of the CPU state lies a successful registration. */
  lemma {:induction false} RegistrationBetweenLoads(hs: seq<Host>, calls: seq<Call>, i: nat, k: nat) returns (j: nat)
    requires IsLife(hs, calls) && i < k < |calls| && Loads(hs[i], calls[i]) && Loads(hs[k], calls[k])
    ensures i < j < k && Registers(hs[j], calls[j])
  {
    hide Ioctl, Registers, Entry.Refusal;
    j := FreshMeansRegistered(hs, calls, i, k);
  }

  lemma {:induction false} FreshMeansRegistered(hs: seq<Host>, calls: seq<Call>, i: nat, k: nat) returns (j: nat)
    requires IsLife(hs, calls) && i < k < |hs| && Loads(hs[i], calls[i])
    requires MapMonitor in hs[k].state && hs[k].request == NoRequest
    ensures i < j < k && Registers(hs[j], calls[j])
    decreases k
  {
    hide Ioctl, Registers, Enters;
    LifeLedger(hs, calls, k - 1);
    LoadIsNoRegistration(hs[i], calls[i]);
    if Registers(hs[k - 1], calls[k - 1]) {
      j := k - 1;
    } else {
      j := FreshMeansRegistered(hs, calls, i, k - 1);
    }
  }

  lemma LoadIsNoRegistration(h: Host, call: Call)
    requires Formed(h) && Loads(h, call)
    ensures !Registers(h, call)
  {
  }

  /** EXECUTE came back with a request for user space to answer. */
  predicate ComesBack(h: Host, call: Call, h': Host)
    requires Formed(h)
  {
    Enters(h, call) && Panicked !in h'.state
  }

  /** Calls that are neither EXECUTE nor a teardown leave the stopped guest alone. */
  ghost predicate Idle(hs: seq<Host>, calls: seq<Call>, i: nat, k: nat)
    requires i < k < |hs| == |calls| + 1
  {
    forall t | i < t < k :: !calls[t].Execute? && !TearsDown(hs[t], calls[t])
  }

  lemma BackWithRequest(h: Host, call: Call)
    requires Formed(h) && Ioctl(h, call).Some? && ComesBack(h, call, Ioctl(h, call).value.0)
    ensures var h' := Ioctl(h, call).value.0;
      && h'.state == READY && Resumes(h'.request) && h'.userIntr == h'.intr
      && (h'.request == HalCall ==> h'.user.general == h'.saved.general)
  {
    hide RunTrips, Entry.Refusal, Entry.LoadedContext;
    if Resumes(h.request) {
      LoopReturns(Resumption(h), call.trips);
    } else {
      LoopReturns(FullLoad(h), call.trips);
    }
  }

  lemma IdleCall(h: Host, call: Call)
    requires Formed(h) && !call.Execute? && !TearsDown(h, call) && MapMonitor in h.state && Ioctl(h, call).Some?
    ensures var h' := Ioctl(h, call).value.0;
      && MapMonitor in h'.state && h'.request == h.request && h'.saved == h.saved && h'.intr == h.intr
      && (!call.WindowWrite? ==> h'.user == h.user && h'.userIntr == h.userIntr)
  {
    hide MessageOk;
    assert MapMonitor in h.state - {GuestCpuid};
  }

  lemma {:induction false} IdleKeeps(hs: seq<Host>, calls: seq<Call>, i: nat, k: nat)
    requires IsLife(hs, calls) && i < k < |hs| && Idle(hs, calls, i, k) && ComesBack(hs[i], calls[i], hs[i + 1])
    ensures MapMonitor in hs[k].state && hs[k].request == hs[i + 1].request && hs[k].saved == hs[i + 1].saved && hs[k].intr == hs[i + 1].intr
    ensures Resumption(hs[k]).intr == hs[k].userIntr
    ensures (forall t | i < t < k && calls[t].WindowWrite? :: calls[t].cpuIntr == hs[i + 1].intr) ==> hs[k].userIntr == hs[i + 1].intr
    ensures (forall t | i < t < k :: !calls[t].WindowWrite?) ==> hs[k].user == hs[i + 1].user
    decreases k
  {
    hide Executed, RegisterMem, Enters;
    if k == i + 1 {
      BackWithRequest(hs[i], calls[i]);
    } else {
      IdleKeeps(hs, calls, i, k - 1);
      assert !calls[k - 1].Execute? && !TearsDown(hs[k - 1], calls[k - 1]);
      IdleCall(hs[k - 1], calls[k - 1]);
    }
  }

  /**
   The request protocol across two successive EXECUTE calls: the guest resumes with exactly the
   context it stopped with, except that after a HAL call the general registers other than ESP
   come from user space; if user space leaves INTR alone it survives the trip, and if it
   leaves the window alone altogether the whole context does.
   */
  lemma ContextSurvives(hs: seq<Host>, calls: seq<Call>, i: nat, k: nat)
    requires IsLife(hs, calls) && i < k < |calls| && ComesBack(hs[i], calls[i], hs[i + 1])
    requires Idle(hs, calls, i, k) && Enters(hs[k], calls[k])
    ensures Resumes(hs[k].request) && hs[k].request == hs[i + 1].request
    ensures Executed(hs[k], calls[k].native, calls[k].trips) == RunTrips(Resumption(hs[k]), calls[k].trips)
    ensures var stopped := hs[i + 1].saved;
      Resumption(hs[k]).saved == stopped.(general := if hs[i + 1].request == HalCall then hs[k].user.general else stopped.general)
    ensures Resumption(hs[k]).intr == hs[k].userIntr
    ensures (forall t | i < t < k && calls[t].WindowWrite? :: calls[t].cpuIntr == hs[i + 1].intr) ==> Resumption(hs[k]).intr == hs[i + 1].intr
    ensures (forall t | i < t < k :: !calls[t].WindowWrite?) ==> Resumption(hs[k]).saved == hs[i + 1].saved
  {
    hide RunTrips, Entry.Refusal, Idle, Entry.LoadedContext, RegisterMem;
    IdleKeeps(hs, calls, i, k);
    BackWithRequest(hs[i], calls[i]);
  }

  /**
   The first entry: the guest starts with the context user space asked for, its general registers and ESP,
   the level of its code segment, and INTR as the window shows it; nothing else of the VM changes.
   */
  lemma FirstEntryLoads(h: Host, call: Call)
    requires Formed(h) && Loads(h, call)
    ensures Executed(h, call.native, call.trips) == RunTrips(FullLoad(h), call.trips)
    ensures var f := FullLoad(h);
      && f.saved.general == h.user.general && f.saved.ctx.esp == h.user.esp && f.saved.ctx.eip == h.user.eip
      && f.cpl == h.user.sreg[1].des.dpl && WithRpl(f.saved.ctx.cs, f.cpl) == h.user.sreg[1].sel
      && f.intr == h.userIntr
      && f == h.(saved := f.saved, cpl := f.cpl, intr := f.intr)
  {
    hide RunTrips, Entry.Refusal;
    NativeAccepted(h.linux, call.native, h.user);
    Entry.LoadedLooksAsAsked(h.linux, h.user);
  }

  /**
   EXECUTE that does not reach the guest: out of order it panics the VM; a state that is refused is answered with the reason, and
   changes nothing but INTR and the level; and a reply that cannot be copied out is the only thing lost.
   */
  lemma ExecuteRefused(h: Host, native: bool, trips: seq<Trip>, copied: bool, copiedOut: bool)
    requires Formed(h)
    ensures !copied ==> Ioctl(h, Execute(copied, native, trips, copiedOut)) == Some((h, BadAddress))
    ensures copied && (h.state != READY || !(Resumes(h.request) || h.request == NoRequest)) ==>
      var r := Ioctl(h, Execute(copied, native, trips, true));
      r.Some? && r.value.1 == WrongState && r.value.0.request == MonitorPanic && r.value.0 == h.(state := h.state + {Panicked}, request := MonitorPanic, intr := r.value.0.intr)
    ensures copied && h.state == READY && h.request == NoRequest && Entry.Refusal(h.linux, native, h.user).Some? ==>
      var r := Ioctl(h, Execute(copied, native, trips, true));
      r == Some((h.(intr := h.userIntr, cpl := if native then h.user.sreg[1].des.dpl else h.cpl), Refused(Entry.Refusal(h.linux, native, h.user).value)))
    ensures copied && Ioctl(h, Execute(copied, native, trips, true)).Some? ==>
      Ioctl(h, Execute(copied, native, trips, false)) == Some((Ioctl(h, Execute(copied, native, trips, true)).value.0, BadAddress))
  {
    hide RunTrips, Entry.Refusal, Resumption, FullLoad;
  }

  /** A call that is refused changes nothing, EXECUTE and a registration that ran out of resources apart. */
  lemma RefusedChangesNothing(h: Host, call: Call)
    requires Formed(h) && Ioctl(h, call).Some? && !call.Execute?
    ensures var (h', reply) := Ioctl(h, call).value;
      && (reply == Busy || reply == Invalid ==> h' == h)
      && (call.Cpuid? && GuestCpuid in h.state ==> reply == Invalid)
      && ((call.Cpuid? || call.Register?) && !call.copied ==> reply != Success && h' == h)
      && (call.Unknown? ==> reply == Invalid)
  {
    hide MessageOk, Allocate, Accepting;
  }

  /** The ordinary start: Linux mode, registration and CPUID make a newly opened VM ready, with its windows cleared and nothing asked. */
  lemma StartSucceeds(h: Host, msg: Message, res: Resources)
    requires Formed(h) && Accepting(h) && GuestCpuid !in h.state && MessageOk(msg) && Entry.Formed(res.zeroed)
    requires res.allocation == Allocated && res.guestInit && res.monitorInit && res.monitorMap
    ensures Ioctl(h, LinuxMode) == Some((h.(linux := true), Success))
    ensures var r := Ioctl(h.(linux := true), Register(true, msg, res));
      && r.Some? && r.value.1 == Success && r.value.0 == h.(
        linux := true, state := r.value.0.state, megs := msg.megs, user := res.zeroed, userIntr := false, intr := false, request := NoRequest)
      && Ioctl(r.value.0, Cpuid(true)) == Some((r.value.0.(state := READY), Success))
  {
    hide MessageOk, Executed, Unallocated, RunTrips, Overlap;
    OpenBits(h.state);
    var r := Ioctl(h.(linux := true), Register(true, msg, res)).value.0;
    assert forall b :: b in r.state + {GuestCpuid} <==> b in READY;
    assert r.state + {GuestCpuid} == READY;
  }

  /** The trips after which the host goes straight back to the monitor: a host interrupt with nothing else to run, and a page that could be pinned. */
  predicate GoesBack(t: Trip) {
    t.hostIf && ((t.request == Redirect && t.idle) || (t.request == PinUserPage && t.pinned))
  }

  /** The trips user space must see to. */
  predicate ForUser(t: Trip) {
    t.hostIf && (t.request == FlushPrintBuf || t.request == Bogus || t.request == HalCall || (t.request == Redirect && !t.idle))
  }

  /**
   The loop ends with the first trip that does not go straight back, in success if user space is to see to it and in a panic
   if not; the guest is left as that trip left it.
   */
  lemma {:induction false} LoopStopsAt(h: Host, trips: seq<Trip>, k: nat)
    requires k < |trips| && !GoesBack(trips[k]) && forall i | 0 <= i < k :: GoesBack(trips[i])
    ensures var r := RunTrips(h, trips);
      && r.Some? && r.value.1 == (if ForUser(trips[k]) then Success else Crashed)
      && (trips[k].hostIf ==> r.value.0.saved == trips[k].saved && r.value.0.cpl == trips[k].cpl && r.value.0.intr == trips[k].intr)
      && (ForUser(trips[k]) ==> r.value.0.request == trips[k].request)
    decreases k
  {
    if k > 0 {
      assert GoesBack(trips[0]);
      LoopStopsAt(Turn(h, trips[0]).0, trips[1..], k - 1);
    }
  }

  // ---------------------------------------------------------------- the host kernel's own form

  /** The host side of one VM, updated in place by every call. */
  class HostVm {
    var state: set<Bit>
    var request: Request
    var megs: nat
    var linux: bool
    var saved: Saved
    var cpl: nat
    var intr: bool
    var user: Entry.GuestCpu
    var userIntr: bool

    function View(): Host
      reads this
    {
      Host(state, request, megs, linux, saved, cpl, intr, user, userIntr)
    }

    /** `hostDeviceOpen`. */
    constructor (saved: Saved, user: Entry.GuestCpu)
      ensures Opened(View()) && this.user == user && this.saved == saved
    {
      state, request, megs, linux := {FdOpened}, NoRequest, 0, false;
      this.saved, cpl, intr := saved, 0, false;
      this.user, userIntr := user, false;
    }

    method UnallocVmPages()
      modifies this`state, this`megs
      ensures View() == Unallocated(old(View()))
    {
      state := state - {PhyMem};
      megs := 0;
    }

    method AllocVmPages(n: nat, allocation: Allocation) returns (ok: bool)
      modifies this`state, this`megs
      ensures (View(), ok) == Allocate(old(View()), n, allocation)
    {
      megs := n;
      state := state + {PhyMem};
      if allocation == NoCpuPage {
        UnallocVmPages();
        return false;
      }
      state := state + {CpuWindow};
      if allocation == NoLogPage {
        UnallocVmPages();
        return false;
      }
      state := state + {PrintBuffer};
      assert state == old(state) + {PhyMem} + {CpuWindow, PrintBuffer};
      if allocation == NoPages {
        UnallocVmPages();
        return false;
      }
      state := state + {MemAllocated};
      assert state == old(state) + {PhyMem} + {CpuWindow, PrintBuffer, MemAllocated};
      return true;
    }

    /** `hostIoctlRegisterMem`. */
    method IoctlRegisterMem(msg: Message, res: Resources) returns (reply: Reply)
      modifies this
      ensures (View(), reply) == RegisterMem(old(View()), msg, res)
    {
      hide MessageOk, Allocate;
      if state - {GuestCpuid} != {FdOpened} || megs != 0 {
        return Busy;
      }
      if !MessageOk(msg) {
        return Invalid;
      }
      var ok := AllocVmPages(msg.megs, res.allocation);
      if !ok {
        return NoMemory;
      }
      if !res.guestInit {
        UnallocVmPages();
        return BadAddress;
      }
      intr := false;
      if res.monitorInit {
        user, userIntr := res.zeroed, false;
        state := state + {InitMonitor};
        request := NoRequest;
        if res.monitorMap {
          state := state + {MapMonitor};
          return Success;
        }
      }
      UnallocVmPages();
      return BadAddress;
    }

    method EnterPanic()
      modifies this`state, this`request
      ensures View() == Crash(old(View()))
    {
      state := state + {Panicked};
      request := MonitorPanic;
    }

    /** One trip and the host's answer to the request it brings back. */
    method TakeTurn(t: Trip) returns (reply: Option<Reply>)
      modifies this
      ensures (View(), reply) == Turn(old(View()), t)
    {
      if !t.hostIf {
        EnterPanic();
        return Some(Crashed);
      }
      request, saved, cpl, intr := t.request, t.saved, t.cpl, t.intr;
      match request
      case Redirect =>
        if t.idle {
          request := NoRequest;
          return None;
        }
        userIntr := intr;
        return Some(Success);
      case FlushPrintBuf =>
        userIntr := intr;
        return Some(Success);
      case Bogus =>
        userIntr := intr;
        return Some(Success);
      case HalCall =>
        user := user.(general := saved.general, esp := saved.ctx.esp);
        userIntr := intr;
        return Some(Success);
      case PinUserPage =>
        if t.pinned {
          return None;
        }
        EnterPanic();
        return Some(Crashed);
      case _ =>
        EnterPanic();
        return Some(Crashed);
    }

    /** The loop of `hostIoctlExecute`: it answers what it can and returns with the rest. */
    method ExecuteLoop(trips: seq<Trip>) returns (reply: Option<Reply>)
      modifies this
      ensures reply.None? ==> RunTrips(old(View()), trips).None?
      ensures reply.Some? ==> RunTrips(old(View()), trips) == Some((View(), reply.value))
    {
      hide Turn;
      ghost var start := View();
      for i := 0 to |trips|
        invariant RunTrips(start, trips) == RunTrips(View(), trips[i..])
      {
        assert trips[i..][1..] == trips[i + 1..];
        reply := TakeTurn(trips[i]);
        if reply.Some? {
          return;
        }
      }
      return None;
    }

    /** `hostIoctlExecute`. */
    method IoctlExecute(native: bool, trips: seq<Trip>) returns (reply: Option<Reply>)
      requires Formed(View())
      modifies this
      ensures reply.None? ==> Executed(old(View()), native, trips).None?
      ensures reply.Some? ==> Executed(old(View()), native, trips) == Some((View(), reply.value))
    {
      hide RunTrips, Entry.Refusal, Entry.LoadedContext;
      if state != READY {
        EnterPanic();
        return Some(WrongState);
      }
      intr := userIntr;
      if request == HalCall {
        saved := saved.(general := user.general);
        request := NoRequest;
        reply := ExecuteLoop(trips);
        return;
      }
      if request == FlushPrintBuf || request == Bogus || request == Redirect {
        request := NoRequest;
        reply := ExecuteLoop(trips);
        return;
      }
      if request != NoRequest {
        EnterPanic();
        return Some(WrongState);
      }
      var refusal := Entry.Refusal(linux, native, user);
      if native {
        cpl := Entry.Level(user);
      }
      if refusal.Some? {
        return Some(Refused(refusal.value));
      }
      NativeAccepted(linux, native, user);
      saved := Saved(Entry.LoadedContext(linux, user), user.general);
      reply := ExecuteLoop(trips);
    }

    /** `hostIoctlGeneric`; answers `None` when EXECUTE does not return within its trips. */
    method IoctlGeneric(call: Call) returns (reply: Option<Reply>)
      requires Formed(View())
      modifies this
      ensures reply.None? ==> Ioctl(old(View()), call).None?
      ensures reply.Some? ==> Ioctl(old(View()), call) == Some((View(), reply.value))
    {
      hide Executed, RegisterMem;
      match call
      case Cpuid(copied) =>
        if GuestCpuid in state {
          return Some(Invalid);
        }
        if !copied {
          return Some(BadAddress);
        }
        state := state + {GuestCpuid};
        return Some(Success);
      case Register(copied, msg, resources) =>
        if !copied {
          return Some(BadAddress);
        }
        var r := IoctlRegisterMem(msg, resources);
        return Some(r);
      case Unregister =>
        state := state - REGISTERED;
        return Some(Success);
      case LinuxMode =>
        linux := true;
        return Some(Success);
      case Teardown =>
        if state * REGISTERED != {} {
          return Some(Busy);
        }
        UnallocVmPages();
        state := {FdOpened};
        return Some(Success);
      case Execute(copied, native, trips, copiedOut) =>
        if !copied {
          return Some(BadAddress);
        }
        reply := IoctlExecute(native, trips);
        if reply.Some? && !copiedOut {
          reply := Some(BadAddress);
        }
      case ResetCount =>
        return Some(Success);
      case Unknown =>
        return Some(Invalid);
      case WindowWrite(cpu, cpuIntr) =>
        user, userIntr := cpu, cpuIntr;
        return Some(Success);
    }
  }

  lemma NativeAccepted(linux: bool, native: bool, cpu: Entry.GuestCpu)
    requires Entry.Formed(cpu) && Entry.Refusal(linux, native, cpu).None?
    ensures native
  {
    hide Entry.SegmentRefusal;
  }
}
