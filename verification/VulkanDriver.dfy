/** VulkanDriver: the bookkeeping half of the adapter, and its blocking calls into the render thread. */
module VulkanDriver {
  import opened Common
  import opened GraphicsApi
  import opened CommandStreams
  import opened GpuDriver
  import opened Allocations
  import opened RenderThread

  /**
   * The driver's tables. The device list is only ever searched, so it is kept as a set here;
   * `accepted` is a history variable: the batches the driver said Ok to.
   */
  datatype Vulkan = Vulkan(
    devices: set<ObjectId>,
    allocations: map<ObjectId, Allocation>,
    vramAvailable: map<ObjectId, u64>,
    nextAddress: map<ObjectId, u64>,
    faults: map<ObjectId, Fault>,
    accepted: seq<Batch>)

  /** What a blocking request hears: the queue was closed, the reply sender was dropped, or an answer. */
  datatype Reply = NotRunning | Stopped | Finished(outcome: Outcome)

  const STOPPED: string := "Vulkan render thread stopped before replying"

  /** How the adapter reports a reply to its caller. */
  function AnswerOf(reply: Reply): Answer {
    match reply
    case NotRunning => Refuse
    case Stopped => Lose(STOPPED)
    case Finished(Success) => Accept
    case Finished(DeviceLost(message)) => Lose("device lost: " + message)
    case Finished(_) => Refuse
  }

  /** The faults a submit to `device` leaves once the backend call made for it has ended. */
  ghost function LeftBy(faults: map<ObjectId, Fault>, device: ObjectId, outcome: Outcome): map<ObjectId, Fault> {
    match outcome
    case Success => faults
    case DeviceLost(message) => faults[device := Fault(device, 0, "device lost: " + message)]
    case Failure => faults
    case Panic => faults[device := Fault(device, 0, "Vulkan render thread stopped before replying")]
  }

  /** One more backend call was made, of this work. */
  ghost predicate OneMoreCall(before: seq<BackendCall>, after: seq<BackendCall>, work: Work) {
    |after| == |before| + 1 && after[..|before|] == before && after[|before|].work == work
  }

  predicate Works(reply: Reply) { reply == Finished(Success) }

  function Opened(ids: seq<ObjectId>, vram: u64): Vulkan {
    Vulkan((set id | id in ids), map[], map id | id in ids :: vram, map id | id in ids :: 0, map[], [])
  }

  function NextOn(v: Vulkan, device: ObjectId): u64 {
    if device in v.nextAddress then v.nextAddress[device] else 0
  }

  function RecordFault(v: Vulkan, device: ObjectId, description: string): Vulkan {
    if device in v.devices then v.(faults := v.faults[device := Fault(device, 0, description)]) else v
  }

  /** One call, given how the render thread answered it. */
  function Step(v: Vulkan, c: Call): (Vulkan, Result<()>) {
    match c
    case Allocate(device, size, memory, id) =>
      if device !in v.devices || device !in v.vramAvailable then (v, Err(Device))
      else if size > v.vramAvailable[device] then (v, Err(Memory))
      else
        (v.(allocations := v.allocations[id := Allocation(id, device, memory, size, NextOn(v, device))],
            nextAddress := v.nextAddress[device := WrappingAdd(NextOn(v, device), size)],
            vramAvailable := v.vramAvailable[device := v.vramAvailable[device] - size]), Ok(()))
    case Free(id) =>
      if id !in v.allocations then (v, Err(Memory))
      else
        var a := v.allocations[id];
        var removed := v.(allocations := v.allocations - {id});
        if a.device !in v.vramAvailable then (removed, Err(Device))
        else
          (removed.(vramAvailable := v.vramAvailable[a.device := WrappingAdd(v.vramAvailable[a.device], a.size)]), Ok(()))
    case Submit(device, workload, ops, answer) =>
      if device !in v.devices || device in v.faults then (v, Err(Device))
      else
        (match answer
         case Accept => (v.(accepted := v.accepted + [Batch(device, workload, ops)]), Ok(()))
         case Refuse => (v, Err(Device))
         case Lose(description) => (RecordFault(v, device, description), Err(Device)))
    case Reset(device, works) =>
      if device !in v.devices || !works then (v, Err(Device))
      else (v.(faults := v.faults - {device}), Ok(()))
    case MarkFaulted(device, description) =>
      (RecordFault(v, device, description), Ok(()))
  }

  ghost predicate Link(states: seq<Vulkan>, calls: seq<Call>, i: nat)
    requires i < |calls| < |states|
  {
    states[i + 1] == Step(states[i], calls[i]).0
  }

  /** states[i] is the driver before calls[i]. */
  ghost predicate IsRun(states: seq<Vulkan>, calls: seq<Call>) {
    |states| == |calls| + 1 && forall i: nat :: i < |calls| ==> Link(states, calls, i)
  }

  /** The three per-device tables and the device list agree. */
  ghost predicate Valid(v: Vulkan) {
    && (forall g :: g in v.vramAvailable <==> g in v.devices)
    && (forall g :: g in v.nextAddress <==> g in v.devices)
    && (forall g :: g in v.faults ==> g in v.devices)
    && (forall id :: id in v.allocations ==> v.allocations[id].device in v.devices)
  }

  lemma StepKeepsValid(v: Vulkan, c: Call)
    requires Valid(v)
    ensures Valid(Step(v, c).0)
  {
  }

  class VulkanGpuDriver {
    const devices: seq<ObjectId>
    var allocations: map<ObjectId, Allocation>
    var vramAvailable: map<ObjectId, u64>
    var nextAddress: map<ObjectId, u64>
    var faults: map<ObjectId, Fault>
    ghost var accepted: seq<Batch>
    var thread: Thread

    ghost function State(): Vulkan
      reads this
    {
      Vulkan((set id | id in devices), allocations, vramAvailable, nextAddress, faults, accepted)
    }

    constructor (ids: seq<ObjectId>, vram: u64)
      ensures State() == Opened(ids, vram)
      ensures thread == Spawned
    {
      devices := ids;
      allocations := map[];
      vramAvailable := map id | id in ids :: vram;
      nextAddress := map id | id in ids :: 0;
      faults := map[];
      accepted := [];
      thread := Spawned;
    }

    /** Opening fails when adapters cannot be listed, when there are none, and when no thread can be spawned. */
    static method WithBackend(adapters: Option<seq<ObjectId>>, spawns: bool, vram: u64)
      returns (r: Result<VulkanGpuDriver>)
      ensures r.Ok? <==> adapters.Some? && adapters.value != [] && spawns
      ensures r.Ok? ==> fresh(r.value) && r.value.State() == Opened(adapters.value, vram) && Quiet(r.value.thread)
      ensures r.Err? ==> r.error == Device
    {
      if adapters.None? {
        return Err(Device);
      }
      if adapters.value == [] {
        return Err(Device);
      }
      if !spawns {
        return Err(Device);
      }
      var driver := new VulkanGpuDriver(adapters.value, vram);
      return Ok(driver);
    }

    method AllocateVram(device: ObjectId, size: u64, memory: MemoryClass, newId: ObjectId)
      returns (r: Result<Allocation>)
      modifies this`allocations, this`vramAvailable, this`nextAddress
      ensures State() == Step(old(State()), Allocate(device, size, memory, newId)).0
      ensures r.Ok? <==> Step(old(State()), Allocate(device, size, memory, newId)).1.Ok?
      ensures r.Ok? ==> newId in allocations && r.value == allocations[newId]
      ensures r.Ok? ==> r.value.id == newId && r.value.device == device && r.value.memory == memory && r.value.size == size
      ensures r.Err? ==> r.error == Step(old(State()), Allocate(device, size, memory, newId)).1.error
    {
      if device !in devices {
        return Err(Device);
      }
      if device !in vramAvailable {
        return Err(Device);
      }
      if size > vramAvailable[device] {
        return Err(Memory);
      }
      var next := if device in nextAddress then nextAddress[device] else 0;
      var allocation := Allocation(newId, device, memory, size, next);
      nextAddress := nextAddress[device := WrappingAdd(next, size)];
      vramAvailable := vramAvailable[device := vramAvailable[device] - size];
      allocations := allocations[newId := allocation];
      return Ok(allocation);
    }

    method FreeVram(allocation: ObjectId) returns (r: Result<()>)
      modifies this`allocations, this`vramAvailable
      ensures (State(), r) == Step(old(State()), Free(allocation))
    {
      if allocation !in allocations {
        return Err(Memory);
      }
      var a := allocations[allocation];
      allocations := allocations - {allocation};
      if a.device !in vramAvailable {
        return Err(Device);
      }
      vramAvailable := vramAvailable[a.device := WrappingAdd(vramAvailable[a.device], a.size)];
      return Ok(());
    }

    /** The worker moves on its own between two calls. */
    method WorkerMoves(step: WorkerStep)
      requires Quiet(thread) && Enabled(thread, step)
      modifies this`thread
      ensures Quiet(thread) && thread == Moved(old(thread), step)
    {
      QuietStays(thread, step);
      thread := Moved(thread, step);
    }

    /** Sends a request and blocks on its private reply channel, whatever the worker does meanwhile. */
    method RequestAndWait(work: Work) returns (reply: Reply)
      requires Quiet(thread)
      modifies this`thread
      ensures Quiet(thread)
      ensures reply.NotRunning? <==> !old(thread).open
      ensures reply.Finished? ==> !reply.outcome.Panic? && thread.worker.Idle?
      ensures reply.Finished? ==> thread.calls == old(thread).calls + [BackendCall(work, reply.outcome)]
      ensures !reply.Finished? ==> Gone(thread.worker)
      ensures !reply.Finished? ==>
                (thread.calls == old(thread).calls || thread.calls == old(thread).calls + [BackendCall(work, Panic)])
      ensures Gone(old(thread).worker) ==> !reply.Finished? && thread.calls == old(thread).calls
    {
      var k := thread.nextReply;
      ghost var before := thread.calls;
      RequestIsPending(thread, work);
      thread := OpenReply(thread);
      if !thread.open {
        thread := Send(thread, Request(work, k));
        return NotRunning;
      }
      thread := Send(thread, Request(work, k));
      while thread.slots[k].Waiting?
        invariant Pending(thread, k, work, before)
        invariant Gone(old(thread).worker) ==> Gone(thread.worker) && thread.calls == before
        decreases Distance(thread, k)
      {
        RequestProgresses(thread, k, work, before);
        var step :| Enabled(thread, step);
        PendingStays(thread, step, k, work, before);
        thread := Moved(thread, step);
      }
      reply := if thread.slots[k].Replied? then Finished(thread.slots[k].outcome) else Stopped;
    }

    method Submit(device: ObjectId, workload: WorkloadClass, ops: seq<DriverOp>)
      returns (r: Result<()>, ghost reply: Reply)
      requires Quiet(thread)
      modifies this`faults, this`accepted, this`thread
      ensures (State(), r) == Step(old(State()), Call.Submit(device, workload, ops, AnswerOf(reply)))
      ensures Quiet(thread)
      ensures device !in devices || device in old(faults) ==> r.Err? && thread == old(thread) && faults == old(faults)
      ensures r.Ok? ==> thread.calls == old(thread).calls + [BackendCall(Execute(ops), Success)]
      ensures thread.calls == old(thread).calls || OneMoreCall(old(thread).calls, thread.calls, Execute(ops))
      ensures OneMoreCall(old(thread).calls, thread.calls, Execute(ops)) ==>
                var outcome := thread.calls[|old(thread).calls|].outcome;
                (r.Ok? <==> outcome == Success) && faults == LeftBy(old(faults), device, outcome)
      ensures thread.calls == old(thread).calls && device in devices && device !in old(faults) ==>
                r.Err? && Gone(thread.worker)
                && faults == if old(thread).open then LeftBy(old(faults), device, Panic) else old(faults)
      ensures Gone(old(thread).worker) ==> r.Err? && thread.calls == old(thread).calls
    {
      reply := NotRunning;
      if device !in devices {
        return Err(Device), reply;
      }
      if device in faults {
        return Err(Device), reply;
      }
      var heard := RequestAndWait(Execute(ops));
      reply := heard;
      match heard {
        case NotRunning =>
          r := Err(Device);
        case Stopped =>
          RecordFaultOn(device, STOPPED);
          r := Err(Device);
        case Finished(Success) =>
          accepted := accepted + [Batch(device, workload, ops)];
          r := Ok(());
        case Finished(DeviceLost(message)) =>
          RecordFaultOn(device, "device lost: " + message);
          r := Err(Device);
        case Finished(_) =>
          r := Err(Device);
      }
    }

    method ResetDevice(device: ObjectId) returns (r: Result<()>, ghost reply: Reply)
      requires Quiet(thread)
      modifies this`faults, this`thread
      ensures (State(), r) == Step(old(State()), Reset(device, Works(reply)))
      ensures Quiet(thread)
      ensures r.Ok? ==> device in devices && thread.calls == old(thread).calls + [BackendCall(Recreate, Success)]
      ensures thread.calls == old(thread).calls || OneMoreCall(old(thread).calls, thread.calls, Recreate)
      ensures OneMoreCall(old(thread).calls, thread.calls, Recreate) ==>
                (r.Ok? <==> thread.calls[|old(thread).calls|].outcome == Success)
      ensures faults == if r.Ok? then old(faults) - {device} else old(faults)
      ensures Gone(old(thread).worker) ==> r.Err? && thread.calls == old(thread).calls
    {
      reply := NotRunning;
      if device !in devices {
        return Err(Device), reply;
      }
      var heard := RequestAndWait(Recreate);
      reply := heard;
      match heard {
        case Finished(Success) =>
          faults := faults - {device};
          r := Ok(());
        case _ =>
          r := Err(Device);
      }
    }

    method RecordFaultOn(device: ObjectId, description: string)
      modifies this`faults
      ensures State() == RecordFault(old(State()), device, description)
    {
      if device in devices {
        faults := faults[device := Fault(device, 0, description)];
      }
    }

    method MarkFaulted(device: ObjectId, description: string)
      modifies this`faults
      ensures State() == Step(old(State()), Call.MarkFaulted(device, description)).0
    {
      RecordFaultOn(device, description);
    }

    method FaultStatus(device: ObjectId) returns (r: Result<Option<Fault>>)
      ensures r == if device !in devices then Err(Device)
                   else if device in faults then Ok(Some(faults[device])) else Ok(None)
    {
      if device !in devices {
        return Err(Device);
      }
      if device in faults {
        return Ok(Some(faults[device]));
      }
      return Ok(None);
    }
  }

  // ---------- The trait's contract ----------

  ghost function View(v: Vulkan): Driver
    requires Valid(v)
  {
    Driver(
      map g | g in v.vramAvailable :: Gpu(v.vramAvailable[g], if g in v.faults then Some(v.faults[g]) else None),
      ClaimsOf(v.allocations),
      v.accepted)
  }

  lemma AllocateRefinesContract(v: Vulkan, device: ObjectId, size: u64, memory: MemoryClass, id: ObjectId)
    requires Valid(v)
    ensures var c := Allocate(device, size, memory, id);
            && View(Step(v, c).0) == Apply(View(v), c).0 && Step(v, c).1 == Apply(View(v), c).1
  {
    var v' := Step(v, Allocate(device, size, memory, id)).0;
    if device in v.devices && size <= v.vramAvailable[device] {
      assert ClaimsOf(v'.allocations) == ClaimsOf(v.allocations)[id := Claim(device, memory, size)];
      assert View(v').gpus == AllocateVram(View(v), device, size, memory, id).0.gpus;
    }
  }

  lemma FreeRefinesContract(v: Vulkan, id: ObjectId)
    requires Valid(v)
    ensures View(Step(v, Free(id)).0) == Apply(View(v), Free(id)).0
    ensures Step(v, Free(id)).1 == Apply(View(v), Free(id)).1
  {
    var v' := Step(v, Free(id)).0;
    if id in v.allocations {
      assert ClaimsOf(v'.allocations) == ClaimsOf(v.allocations) - {id};
      assert View(v').gpus == FreeVram(View(v), id).0.gpus;
    }
  }

  lemma FaultRefinesContract(v: Vulkan, device: ObjectId, description: string)
    requires Valid(v)
    ensures View(RecordFault(v, device, description)) == Mark(View(v), device, description)
  {
    var v' := RecordFault(v, device, description);
    assert View(v').gpus == Mark(View(v), device, description).gpus;
  }

  /** The Vulkan driver is an instance of the trait's contract, whatever the render thread answers. */
  lemma StepRefinesContract(v: Vulkan, c: Call)
    requires Valid(v)
    ensures Valid(Step(v, c).0)
    ensures View(Step(v, c).0) == Apply(View(v), c).0
    ensures Step(v, c).1 == Apply(View(v), c).1
  {
    StepKeepsValid(v, c);
    match c
    case Allocate(device, size, memory, id) => AllocateRefinesContract(v, device, size, memory, id);
    case Free(id) => FreeRefinesContract(v, id);
    case Submit(device, _, _, answer) =>
      if answer.Lose? {
        FaultRefinesContract(v, device, answer.description);
      }
    case Reset(device, works) =>
      assert View(Step(v, c).0).gpus == Apply(View(v), c).0.gpus;
    case MarkFaulted(device, description) => FaultRefinesContract(v, device, description);
  }

  // ---------- Addresses ----------

  /** Bytes one call adds to g: the size of an allocation that succeeds. */
  ghost function Grows(v: Vulkan, c: Call, g: ObjectId): nat {
    if c.Allocate? && c.device == g && Step(v, c).1.Ok? then c.size else 0
  }

  /** Bytes allocated on g by the first n calls of a run, freed since or not. */
  ghost function EverAllocated(states: seq<Vulkan>, calls: seq<Call>, g: ObjectId, n: nat): nat
    requires n <= |calls| && |states| == |calls| + 1
  {
    if n == 0 then 0 else EverAllocated(states, calls, g, n - 1) + Grows(states[n - 1], calls[n - 1], g)
  }

  ghost predicate DrawsUnused(states: seq<Vulkan>, calls: seq<Call>)
    requires |states| == |calls| + 1
  {
    forall i :: 0 <= i < |calls| && calls[i].Allocate? ==> calls[i].id !in states[i].allocations
  }

  lemma WrapOnce(x: nat, y: nat)
    ensures Wrap(Wrap(x) + y) == Wrap(x + y)
  {
  }

  lemma NextAfterStep(v: Vulkan, c: Call, g: ObjectId)
    ensures NextOn(Step(v, c).0, g) == Wrap(NextOn(v, g) + Grows(v, c, g))
  {
  }

  /** The next address on g is the number of bytes ever allocated there, modulo 2^64. */
  lemma {:induction false} NextAddressIsEverAllocated(states: seq<Vulkan>, calls: seq<Call>, g: ObjectId, n: nat)
    requires IsRun(states, calls) && n <= |calls|
    requires NextOn(states[0], g) == 0
    ensures NextOn(states[n], g) == Wrap(EverAllocated(states, calls, g, n))
  {
    if n == 0 {
    } else {
      NextAddressIsEverAllocated(states, calls, g, n - 1);
      NextAfterStep(states[n - 1], calls[n - 1], g);
      WrapOnce(EverAllocated(states, calls, g, n - 1), Grows(states[n - 1], calls[n - 1], g));
      assert Link(states, calls, n - 1);
    }
  }

  /** One call keeps ranges on g apart and below `top`, as long as the next address is `top` and nothing passes 2^64. */
  lemma StepKeepsApart(v: Vulkan, c: Call, g: ObjectId, top: nat)
    requires DisjointOn(v.allocations, g) && BelowOn(v.allocations, g, top)
    requires c.Allocate? ==> c.id !in v.allocations
    requires NextOn(v, g) == top || Grows(v, c, g) == 0
    requires top + Grows(v, c, g) <= 0x1_0000_0000_0000_0000
    ensures DisjointOn(Step(v, c).0.allocations, g)
    ensures BelowOn(Step(v, c).0.allocations, g, top + Grows(v, c, g))
  {
    var v' := Step(v, c).0;
    if c.Allocate? && Step(v, c).1.Ok? {
      var a := v'.allocations[c.id];
      assert v'.allocations == v.allocations[c.id := a];
      AppendKeepsDisjoint(v.allocations, a, g, top);
    } else {
      assert forall i :: i in v'.allocations ==> i in v.allocations && v'.allocations[i] == v.allocations[i];
    }
  }

  /**
   * While at most 2^64 bytes were ever allocated on g, live ranges on g never overlap, whatever the
   * order of frees, and all end at or below the bytes ever allocated.
   */
  lemma {:induction false} AddressesNeverOverlap(states: seq<Vulkan>, calls: seq<Call>, g: ObjectId, n: nat)
    requires IsRun(states, calls) && DrawsUnused(states, calls) && n <= |calls|
    requires NextOn(states[0], g) == 0 && states[0].allocations == map[]
    requires EverAllocated(states, calls, g, n) <= 0x1_0000_0000_0000_0000
    ensures DisjointOn(states[n].allocations, g)
    ensures BelowOn(states[n].allocations, g, EverAllocated(states, calls, g, n))
  {
    if n == 0 {
    } else {
      var top := EverAllocated(states, calls, g, n - 1);
      AddressesNeverOverlap(states, calls, g, n - 1);
      NextAddressIsEverAllocated(states, calls, g, n - 1);
      StepKeepsApart(states[n - 1], calls[n - 1], g, top);
      assert Link(states, calls, n - 1);
    }
  }

  /**
   * The addresses the free VRAM spans from the next address on, past 2^64 and on from 0 if need be,
   * meet no live range: none starts among them, and none reaches over the next address.
   */
  ghost predicate ClearAhead(v: Vulkan, g: ObjectId)
    requires g in v.vramAvailable
  {
    v.vramAvailable[g] == 0 ||
    forall i :: i in v.allocations && v.allocations[i].device == g && v.allocations[i].size > 0 ==>
      var a := v.allocations[i];
      WrappingSub(a.address, NextOn(v, g)) >= v.vramAvailable[g] && WrappingSub(NextOn(v, g), a.address) >= a.size
  }

  ghost predicate KeepsApart(v: Vulkan, g: ObjectId, size: u64, memory: MemoryClass, id: ObjectId) {
    id !in v.allocations ==> DisjointOn(Step(v, Allocate(g, size, memory, id)).0.allocations, g)
  }

  lemma ClearAheadKeepsApart(v: Vulkan, g: ObjectId, size: u64, memory: MemoryClass, id: ObjectId)
    requires Valid(v) && g in v.devices && DisjointOn(v.allocations, g) && ClearAhead(v, g)
    ensures KeepsApart(v, g, size, memory, id)
  {
    var after := Step(v, Allocate(g, size, memory, id)).0.allocations;
    if id !in v.allocations && size <= v.vramAvailable[g] {
      forall i, j | i in after && j in after && i != j && after[i].device == g && after[j].device == g
        ensures !Overlap(after[i], after[j])
      {
        OverlapIff(after[i], after[j]);
      }
    }
  }

  lemma BlockedAheadOverlaps(v: Vulkan, g: ObjectId, id: ObjectId)
    requires Valid(v) && g in v.devices && !ClearAhead(v, g) && id !in v.allocations
    ensures !KeepsApart(v, g, v.vramAvailable[g], DeviceLocal, id)
  {
    var after := Step(v, Allocate(g, v.vramAvailable[g], DeviceLocal, id)).0.allocations;
    var i :| i in v.allocations && v.allocations[i].device == g && v.allocations[i].size > 0
             && (WrappingSub(v.allocations[i].address, NextOn(v, g)) < v.vramAvailable[g]
                 || WrappingSub(NextOn(v, g), v.allocations[i].address) < v.allocations[i].size);
    assert after[i] == v.allocations[i];
    OverlapIff(after[i], after[id]);
  }

  /**
   * Exactly when the driver's next address is sound, wrapped or not: every allocation it would make
   * next keeps live ranges apart iff none of them meets the addresses the free VRAM spans from there.
   */
  lemma NextAddressIsSoundIff(v: Vulkan, g: ObjectId, newId: ObjectId)
    requires Valid(v) && g in v.devices && DisjointOn(v.allocations, g) && newId !in v.allocations
    ensures (forall size: u64, memory, id :: KeepsApart(v, g, size, memory, id)) <==> ClearAhead(v, g)
  {
    if ClearAhead(v, g) {
      forall size: u64, memory, id ensures KeepsApart(v, g, size, memory, id) {
        ClearAheadKeepsApart(v, g, size, memory, id);
      }
    } else {
      BlockedAheadOverlaps(v, g, newId);
    }
  }

  function OneGpu(allocations: map<ObjectId, Allocation>, available: u64, next: u64): Vulkan {
    Vulkan({0}, allocations, map[0 := available], map[0 := next], map[], [])
  }

  function OnGpu0(id: ObjectId, size: u64, address: u64): Allocation {
    Allocation(id, 0, DeviceLocal, size, address)
  }

  /** A run on one GPU of 2^64 - 1 bytes: a small allocation stays, a huge one comes and goes, then one more. */
  function WrapState(i: nat): Vulkan {
    if i == 0 then OneGpu(map[], 0xFFFF_FFFF_FFFF_FFFF, 0)
    else if i == 1 then OneGpu(map[1 := OnGpu0(1, 10, 0)], 0xFFFF_FFFF_FFFF_FFF5, 10)
    else if i == 2 then
      OneGpu(map[1 := OnGpu0(1, 10, 0), 2 := OnGpu0(2, 0xFFFF_FFFF_FFFF_FFF5, 10)], 0, 0xFFFF_FFFF_FFFF_FFFF)
    else if i == 3 then OneGpu(map[1 := OnGpu0(1, 10, 0)], 0xFFFF_FFFF_FFFF_FFF5, 0xFFFF_FFFF_FFFF_FFFF)
    else OneGpu(map[1 := OnGpu0(1, 10, 0), 3 := OnGpu0(3, 3, 0xFFFF_FFFF_FFFF_FFFF)], 0xFFFF_FFFF_FFFF_FFF2, 2)
  }

  function WrapCall(i: nat): Call {
    if i == 0 then Allocate(0, 10, DeviceLocal, 1)
    else if i == 1 then Allocate(0, 0xFFFF_FFFF_FFFF_FFF5, DeviceLocal, 2)
    else if i == 2 then Free(2)
    else Allocate(0, 3, DeviceLocal, 3)
  }

  lemma WrapStep(i: nat)
    requires i < 4
    ensures Step(WrapState(i), WrapCall(i)).0 == WrapState(i + 1)
    ensures WrapCall(i).Allocate? ==> WrapCall(i).id !in WrapState(i).allocations
  {
    if i == 2 {
      assert WrapState(2).allocations - {2} == WrapState(3).allocations;
    }
  }

  /** Past 2^64 bytes a range wraps: three bytes from 2^64 - 1 on reach address 0, which is still live. */
  lemma AddressesOverlapAfterWrap()
    ensures exists states: seq<Vulkan>, calls: seq<Call> :: IsRun(states, calls) && DrawsUnused(states, calls)
              && states[0] == Opened([0], 0xFFFF_FFFF_FFFF_FFFF)
              && !DisjointOn(states[|calls|].allocations, 0)
  {
    var states, calls := seq(5, (i: nat) => WrapState(i)), seq(4, (i: nat) => WrapCall(i));
    forall i | 0 <= i < 4
      ensures Link(states, calls, i)
      ensures calls[i].Allocate? ==> calls[i].id !in states[i].allocations
    {
      WrapStep(i);
    }
    assert IsRun(states, calls) && DrawsUnused(states, calls);
    assert states[0] == Opened([0], 0xFFFF_FFFF_FFFF_FFFF);
    var last := states[|calls|].allocations;
    assert Holds(last[1], 0) && Holds(last[3], 0);
    assert Overlap(last[1], last[3]);
  }
}
