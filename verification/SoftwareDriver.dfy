/** SoftwareGpuDriver: the reference driver, one record per device and one allocation table. */
module SoftwareDriver {
  import opened Common
  import opened GraphicsApi
  import opened CommandStreams
  import opened GpuDriver
  import opened Allocations

  datatype DeviceState = DeviceState(total: u64, available: u64, fault: Option<Fault>)

  /** The driver's tables; `accepted` is a history variable, the source keeps no record of batches. */
  datatype Software = Software(
    devices: map<ObjectId, DeviceState>, allocations: map<ObjectId, Allocation>, accepted: seq<Batch>)

  function Opened(ids: seq<ObjectId>, vram: u64): Software {
    Software(map id | id in ids :: DeviceState(vram, vram, None), map[], [])
  }

  /** Bytes in use on a device, which is also where its next allocation goes. */
  function UsedOn(s: Software, device: ObjectId): u64
    requires device in s.devices
  {
    WrappingSub(s.devices[device].total, s.devices[device].available)
  }

  function Allocated(s: Software, device: ObjectId, size: u64, memory: MemoryClass, id: ObjectId): Software
    requires device in s.devices && size <= s.devices[device].available
  {
    var state := s.devices[device];
    s.(devices := s.devices[device := state.(available := state.available - size)],
       allocations := s.allocations[id := Allocation(id, device, memory, size, UsedOn(s, device))])
  }

  function WithFault(s: Software, device: ObjectId, fault: Option<Fault>): Software {
    if device in s.devices then s.(devices := s.devices[device := s.devices[device].(fault := fault)]) else s
  }

  function Step(s: Software, c: Call): (Software, Result<()>) {
    match c
    case Allocate(device, size, memory, id) =>
      if device !in s.devices then (s, Err(Device))
      else if size > s.devices[device].available then (s, Err(Memory))
      else (Allocated(s, device, size, memory, id), Ok(()))
    case Free(id) =>
      if id !in s.allocations then (s, Err(Memory))
      else
        var a := s.allocations[id];
        var removed := s.(allocations := s.allocations - {id});
        if a.device !in s.devices then (removed, Err(Device))
        else
          var state := s.devices[a.device];
          (removed.(devices := s.devices[a.device := state.(available := WrappingAdd(state.available, a.size))]), Ok(()))
    case Submit(device, workload, ops, _) =>
      if device !in s.devices || s.devices[device].fault.Some? then (s, Err(Device))
      else (s.(accepted := s.accepted + [Batch(device, workload, ops)]), Ok(()))
    case Reset(device, _) =>
      if device !in s.devices then (s, Err(Device)) else (WithFault(s, device, None), Ok(()))
    case MarkFaulted(device, description) =>
      (WithFault(s, device, Some(Fault(device, 0, description))), Ok(()))
  }

  ghost predicate Link(states: seq<Software>, calls: seq<Call>, i: nat)
    requires i < |calls| < |states|
  {
    states[i + 1] == Step(states[i], calls[i]).0
  }

  /** states[i] is the driver before calls[i]. */
  ghost predicate IsRun(states: seq<Software>, calls: seq<Call>) {
    |states| == |calls| + 1 && forall i: nat :: i < |calls| ==> Link(states, calls, i)
  }

  class SoftwareGpuDriver {
    var devices: map<ObjectId, DeviceState>
    var allocations: map<ObjectId, Allocation>
    ghost var accepted: seq<Batch>

    ghost function State(): Software
      reads this
    {
      Software(devices, allocations, accepted)
    }

    constructor WithDevices(ids: seq<ObjectId>, vram: u64)
      ensures State() == Opened(ids, vram)
    {
      devices := map[];
      allocations := map[];
      accepted := [];
      new;
      for i := 0 to |ids|
        invariant devices == map id | id in ids[..i] :: DeviceState(vram, vram, None)
        invariant allocations == map[] && accepted == []
      {
        devices := devices[ids[i] := DeviceState(vram, vram, None)];
        assert ids[..i + 1] == ids[..i] + [ids[i]];
      }
      assert ids[..|ids|] == ids;
    }

    method AllocateVram(device: ObjectId, size: u64, memory: MemoryClass, newId: ObjectId)
      returns (r: Result<Allocation>)
      modifies this
      ensures State() == Step(old(State()), Allocate(device, size, memory, newId)).0
      ensures r.Ok? <==> device in old(devices) && size <= old(devices)[device].available
      ensures r.Ok? ==> newId in allocations && r.value == allocations[newId]
      ensures r.Ok? ==> r.value.id == newId && r.value.device == device && r.value.memory == memory && r.value.size == size
      ensures r.Err? ==> r.error == if device in old(devices) then Memory else Device
    {
      if device !in devices {
        return Err(Device);
      }
      var state := devices[device];
      if size > state.available {
        return Err(Memory);
      }
      var allocation := Allocation(newId, device, memory, size, WrappingSub(state.total, state.available));
      devices := devices[device := state.(available := state.available - size)];
      allocations := allocations[newId := allocation];
      return Ok(allocation);
    }

    method FreeVram(allocation: ObjectId) returns (r: Result<()>)
      modifies this
      ensures (State(), r) == Step(old(State()), Free(allocation))
    {
      if allocation !in allocations {
        return Err(Memory);
      }
      var a := allocations[allocation];
      allocations := allocations - {allocation};
      if a.device !in devices {
        return Err(Device);
      }
      var state := devices[a.device];
      devices := devices[a.device := state.(available := WrappingAdd(state.available, a.size))];
      return Ok(());
    }

    method Submit(device: ObjectId, workload: WorkloadClass, ops: seq<DriverOp>) returns (r: Result<()>)
      modifies this
      ensures (State(), r) == Step(old(State()), Call.Submit(device, workload, ops, Accept))
    {
      if device !in devices {
        return Err(Device);
      }
      if devices[device].fault.Some? {
        return Err(Device);
      }
      accepted := accepted + [Batch(device, workload, ops)];
      return Ok(());
    }

    method FaultStatus(device: ObjectId) returns (r: Result<Option<Fault>>)
      ensures r == if device in devices then Ok(devices[device].fault) else Err(Device)
    {
      if device !in devices {
        return Err(Device);
      }
      return Ok(devices[device].fault);
    }

    method InjectFault(device: ObjectId, address: u64, description: string)
      modifies this
      ensures State() == WithFault(old(State()), device, Some(Fault(device, address, description)))
    {
      if device in devices {
        devices := devices[device := devices[device].(fault := Some(Fault(device, address, description)))];
      }
    }

    method ClearFault(device: ObjectId)
      modifies this
      ensures State() == WithFault(old(State()), device, None)
    {
      if device in devices {
        devices := devices[device := devices[device].(fault := None)];
      }
    }

    method ResetDevice(device: ObjectId) returns (r: Result<()>)
      modifies this
      ensures (State(), r) == Step(old(State()), Reset(device, true))
    {
      if device !in devices {
        return Err(Device);
      }
      devices := devices[device := devices[device].(fault := None)];
      return Ok(());
    }

    method MarkFaulted(device: ObjectId, description: string)
      modifies this
      ensures State() == Step(old(State()), Call.MarkFaulted(device, description)).0
    {
      InjectFault(device, 0, description);
    }
  }

  // ---------- The trait's contract ----------

  ghost function View(s: Software): Driver {
    Driver(map g | g in s.devices :: Gpu(s.devices[g].available, s.devices[g].fault), ClaimsOf(s.allocations), s.accepted)
  }

  /** A driver that never refuses, never loses a device and always resets. */
  ghost predicate NeverFails(c: Call) {
    && (c.Submit? ==> c.answer == Accept)
    && (c.Reset? ==> c.works)
  }

  lemma AllocateRefinesContract(s: Software, device: ObjectId, size: u64, memory: MemoryClass, id: ObjectId)
    ensures var c := Allocate(device, size, memory, id);
            && View(Step(s, c).0) == Apply(View(s), c).0 && Step(s, c).1 == Apply(View(s), c).1
  {
    var s' := Step(s, Allocate(device, size, memory, id)).0;
    if device in s.devices && size <= s.devices[device].available {
      assert ClaimsOf(s'.allocations) == ClaimsOf(s.allocations)[id := Claim(device, memory, size)];
      assert View(s').gpus == AllocateVram(View(s), device, size, memory, id).0.gpus;
    }
  }

  lemma FreeRefinesContract(s: Software, id: ObjectId)
    ensures View(Step(s, Free(id)).0) == Apply(View(s), Free(id)).0
    ensures Step(s, Free(id)).1 == Apply(View(s), Free(id)).1
  {
    var s' := Step(s, Free(id)).0;
    if id in s.allocations {
      assert ClaimsOf(s'.allocations) == ClaimsOf(s.allocations) - {id};
      assert View(s').gpus == FreeVram(View(s), id).0.gpus;
    }
  }

  lemma FaultRefinesContract(s: Software, device: ObjectId, fault: Option<Fault>)
    ensures View(WithFault(s, device, fault)) == SetFault(View(s), device, fault)
  {
    assert View(WithFault(s, device, fault)).gpus == SetFault(View(s), device, fault).gpus;
  }

  /** The software driver is the instance of the trait's contract that never fails on its own. */
  lemma StepRefinesContract(s: Software, c: Call)
    requires NeverFails(c)
    ensures View(Step(s, c).0) == Apply(View(s), c).0
    ensures Step(s, c).1 == Apply(View(s), c).1
  {
    match c
    case Allocate(device, size, memory, id) => AllocateRefinesContract(s, device, size, memory, id);
    case Free(id) => FreeRefinesContract(s, id);
    case Submit(_, _, _, _) =>
    case Reset(device, _) => FaultRefinesContract(s, device, None);
    case MarkFaulted(device, description) => FaultRefinesContract(s, device, Some(Fault(device, 0, description)));
  }

  // ---------- Addresses ----------

  ghost predicate WithinTotal(s: Software, g: ObjectId) {
    g in s.devices && s.devices[g].available <= s.devices[g].total
  }

  ghost predicate Covers(a: Allocation, g: ObjectId, x: nat) {
    a.device == g && a.address <= x < a.address + a.size
  }

  ghost predicate InUse(allocations: map<ObjectId, Allocation>, g: ObjectId, x: nat) {
    exists i :: i in allocations && Covers(allocations[i], g, x)
  }

  /** The live ranges on g tile [0, used): apart, below `used`, and leaving no gap. */
  ghost predicate Tiled(s: Software, g: ObjectId) {
    && WithinTotal(s, g)
    && DisjointOn(s.allocations, g)
    && BelowOn(s.allocations, g, UsedOn(s, g))
    && forall x: nat :: x < UsedOn(s, g) ==> InUse(s.allocations, g, x)
  }

  /** The freed allocation is empty or the topmost one: the guard of a last-in-first-out caller. */
  ghost predicate FreesTop(s: Software, c: Call, g: ObjectId) {
    c.Free? && c.allocation in s.allocations && s.allocations[c.allocation].device == g && g in s.devices ==>
      var a := s.allocations[c.allocation];
      a.size == 0 || a.address + a.size == UsedOn(s, g)
  }

  /** The driver would accept `size` bytes on g next, at an address that is in use. */
  ghost predicate NextOverlaps(s: Software, g: ObjectId, size: u64) {
    && g in s.devices && size <= s.devices[g].available
    && exists i :: i in s.allocations && s.allocations[i].device == g
         && Overlap(s.allocations[i], Allocation(i, g, DeviceLocal, size, UsedOn(s, g)))
  }

  lemma TiledNeverOverlapsNext(s: Software, g: ObjectId, size: u64)
    requires Tiled(s, g)
    ensures !NextOverlaps(s, g, size)
  {
  }

  /** What was in use below `used` still is once `a` is added. */
  lemma AddedKeepsInUse(
      before: map<ObjectId, Allocation>, after: map<ObjectId, Allocation>, a: Allocation, g: ObjectId, used: nat)
    requires a.id !in before && after == before[a.id := a]
    requires forall x: nat :: x < used ==> InUse(before, g, x)
    ensures forall x: nat :: x < used ==> InUse(after, g, x)
  {
    forall x: nat | x < used ensures InUse(after, g, x) {
      assert InUse(before, g, x);
      var i :| i in before && Covers(before[i], g, x);
      assert i in after && Covers(after[i], g, x);
    }
  }

  /** And if `a` starts at `used`, its range is in use too. */
  lemma AppendedIsInUse(
      before: map<ObjectId, Allocation>, after: map<ObjectId, Allocation>, a: Allocation, g: ObjectId, used: nat)
    requires a.id !in before && after == before[a.id := a] && a.device == g && a.address == used
    requires forall x: nat :: x < used ==> InUse(before, g, x)
    ensures forall x: nat :: x < used + a.size ==> InUse(after, g, x)
  {
    AddedKeepsInUse(before, after, a, g, used);
    forall x: nat | used <= x < used + a.size ensures InUse(after, g, x) {
      assert Covers(after[a.id], g, x);
    }
  }

  lemma AllocateHereKeepsTiled(s: Software, g: ObjectId, size: u64, memory: MemoryClass, id: ObjectId)
    requires Tiled(s, g) && id !in s.allocations && size <= s.devices[g].available
    ensures Tiled(Allocated(s, g, size, memory, id), g)
  {
    var s' := Allocated(s, g, size, memory, id);
    var a := s'.allocations[id];
    assert UsedOn(s', g) == UsedOn(s, g) + size;
    AppendKeepsDisjoint(s.allocations, a, g, UsedOn(s, g));
    AppendedIsInUse(s.allocations, s'.allocations, a, g, UsedOn(s, g));
  }

  lemma AllocateElsewhereKeepsTiled(
      s: Software, device: ObjectId, size: u64, memory: MemoryClass, id: ObjectId, g: ObjectId)
    requires Tiled(s, g) && id !in s.allocations && device != g
    requires device in s.devices && size <= s.devices[device].available
    ensures Tiled(Allocated(s, device, size, memory, id), g)
  {
    var s' := Allocated(s, device, size, memory, id);
    assert UsedOn(s', g) == UsedOn(s, g);
    AppendKeepsDisjoint(s.allocations, s'.allocations[id], g, UsedOn(s, g));
    AddedKeepsInUse(s.allocations, s'.allocations, s'.allocations[id], g, UsedOn(s, g));
  }

  lemma AllocateKeepsTiled(s: Software, c: Call, g: ObjectId)
    requires Tiled(s, g) && c.Allocate? && c.id !in s.allocations
    ensures Tiled(Step(s, c).0, g)
  {
    if c.device in s.devices && c.size <= s.devices[c.device].available {
      if c.device == g {
        AllocateHereKeepsTiled(s, g, c.size, c.memory, c.id);
      } else {
        AllocateElsewhereKeepsTiled(s, c.device, c.size, c.memory, c.id, g);
      }
    }
  }

  lemma FreeTopKeepsTiled(s: Software, id: ObjectId, g: ObjectId)
    requires Tiled(s, g) && id in s.allocations
    requires var a := s.allocations[id]; a.device == g && a.size > 0 && a.address + a.size == UsedOn(s, g)
    ensures Tiled(Step(s, Free(id)).0, g)
  {
    var s' := Step(s, Free(id)).0;
    var a := s.allocations[id];
    var used := UsedOn(s, g);
    assert s'.devices[g].available == s.devices[g].available + a.size;
    assert UsedOn(s', g) == a.address;
    assert BelowOn(s'.allocations, g, a.address) by {
      forall i | i in s'.allocations && s'.allocations[i].device == g && s'.allocations[i].size > 0
        ensures s'.allocations[i].address + s'.allocations[i].size <= a.address
      {
        assert s.allocations[i].address + s.allocations[i].size <= used;
        OverlapUnwrapped(s.allocations[i], a);
      }
    }
    forall x: nat | x < UsedOn(s', g) ensures InUse(s'.allocations, g, x) {
      assert InUse(s.allocations, g, x);
      var i :| i in s.allocations && Covers(s.allocations[i], g, x);
      assert i in s'.allocations && Covers(s'.allocations[i], g, x);
    }
  }

  lemma FreeAsideKeepsTiled(s: Software, id: ObjectId, g: ObjectId)
    requires Tiled(s, g) && id in s.allocations
    requires s.allocations[id].device != g || s.allocations[id].size == 0
    ensures Tiled(Step(s, Free(id)).0, g)
  {
    var s' := Step(s, Free(id)).0;
    assert g in s'.devices && UsedOn(s', g) == UsedOn(s, g);
    forall x: nat | x < UsedOn(s', g) ensures InUse(s'.allocations, g, x) {
      assert InUse(s.allocations, g, x);
      var i :| i in s.allocations && Covers(s.allocations[i], g, x);
      assert i in s'.allocations && Covers(s'.allocations[i], g, x);
    }
  }

  lemma FreeKeepsTiled(s: Software, id: ObjectId, g: ObjectId)
    requires Tiled(s, g) && FreesTop(s, Free(id), g)
    ensures Tiled(Step(s, Free(id)).0, g)
  {
    if id in s.allocations {
      if s.allocations[id].device == g && s.allocations[id].size > 0 {
        FreeTopKeepsTiled(s, id, g);
      } else {
        FreeAsideKeepsTiled(s, id, g);
      }
    }
  }

  /** Freeing anything else makes the driver hand out a range that is in use. */
  lemma OtherFreeBreaks(s: Software, id: ObjectId, g: ObjectId)
    requires Tiled(s, g) && !FreesTop(s, Free(id), g)
    ensures NextOverlaps(Step(s, Free(id)).0, g, s.allocations[id].size)
  {
    var s' := Step(s, Free(id)).0;
    var a := s.allocations[id];
    var used := UsedOn(s, g);
    assert a.address + a.size < used;
    assert s'.devices[g].available == s.devices[g].available + a.size;
    assert UsedOn(s', g) == used - a.size;
    assert InUse(s.allocations, g, used - 1);
    var i :| i in s.allocations && Covers(s.allocations[i], g, used - 1);
    assert i != id;
    assert i in s'.allocations && s'.allocations[i] == s.allocations[i];
    OverlapUnwrapped(s'.allocations[i], Allocation(i, g, DeviceLocal, a.size, UsedOn(s', g)));
  }

  /**
   * Exactly when the software driver's addresses stay sound: from a tiled device, a free leaves
   * every next allocation clear of the live ranges iff it frees the topmost allocation or an empty one.
   */
  lemma AddressesSoundIffLastInFirstOut(s: Software, id: ObjectId, g: ObjectId)
    requires Tiled(s, g)
    ensures (forall size: u64 :: !NextOverlaps(Step(s, Free(id)).0, g, size)) <==> FreesTop(s, Free(id), g)
  {
    var s' := Step(s, Free(id)).0;
    if FreesTop(s, Free(id), g) {
      FreeKeepsTiled(s, id, g);
      forall size: u64 ensures !NextOverlaps(s', g, size) {
        TiledNeverOverlapsNext(s', g, size);
      }
    } else {
      OtherFreeBreaks(s, id, g);
    }
  }

  /** Every free on g frees the top of it, and ids are not drawn while in use. */
  ghost predicate LastInFirstOut(states: seq<Software>, calls: seq<Call>, g: ObjectId)
    requires |states| > |calls|
  {
    forall i :: 0 <= i < |calls| ==>
      FreesTop(states[i], calls[i], g) && (calls[i].Allocate? ==> calls[i].id !in states[i].allocations)
  }

  /** Over any run whose frees on g are last in, first out, live ranges on g tile [0, used). */
  lemma {:induction false} LastInFirstOutTiles(states: seq<Software>, calls: seq<Call>, g: ObjectId, n: nat)
    requires IsRun(states, calls) && n <= |calls|
    requires Tiled(states[0], g) && LastInFirstOut(states, calls, g)
    ensures Tiled(states[n], g)
  {
    if n == 0 {
    } else {
      LastInFirstOutTiles(states, calls, g, n - 1);
      var now, c := states[n - 1], calls[n - 1];
      assert Link(states, calls, n - 1);
      assert FreesTop(now, c, g);
      match c
      case Allocate(_, _, _, _) => AllocateKeepsTiled(now, c, g);
      case Free(id) => FreeKeepsTiled(now, id, g);
      case _ =>
        assert states[n].allocations == now.allocations && UsedOn(states[n], g) == UsedOn(now, g);
    }
  }

  lemma OpenedIsTiled(ids: seq<ObjectId>, vram: u64, g: ObjectId)
    requires g in ids
    ensures Tiled(Opened(ids, vram), g)
  {
  }

  function OnGpu0(id: ObjectId, address: u64): Allocation {
    Allocation(id, 0, DeviceLocal, 10, address)
  }

  function OneGpu(available: u64, allocations: map<ObjectId, Allocation>): Software {
    Software(map[0 := DeviceState(100, available, None)], allocations, [])
  }

  /** Two allocations of ten bytes; the first is freed and a third made. */
  function OverlapState(i: nat): Software {
    if i == 0 then OneGpu(100, map[])
    else if i == 1 then OneGpu(90, map[1 := OnGpu0(1, 0)])
    else if i == 2 then OneGpu(80, map[1 := OnGpu0(1, 0), 2 := OnGpu0(2, 10)])
    else if i == 3 then OneGpu(90, map[2 := OnGpu0(2, 10)])
    else OneGpu(80, map[2 := OnGpu0(2, 10), 3 := OnGpu0(3, 10)])
  }

  function OverlapCall(i: nat): Call {
    if i == 0 then Allocate(0, 10, DeviceLocal, 1)
    else if i == 1 then Allocate(0, 10, DeviceLocal, 2)
    else if i == 2 then Free(1)
    else Allocate(0, 10, DeviceLocal, 3)
  }

  lemma OverlapStep(i: nat)
    requires i < 4
    ensures Step(OverlapState(i), OverlapCall(i)).0 == OverlapState(i + 1)
    ensures OverlapCall(i).Allocate? ==> OverlapCall(i).id !in OverlapState(i).allocations
  {
    if i == 2 {
      assert OverlapState(2).allocations - {1} == OverlapState(3).allocations;
    }
  }

  /** Freed first in, first out, from a newly opened driver: the third allocation is laid over the second. */
  lemma FirstInFirstOutOverlaps()
    ensures exists states: seq<Software>, calls: seq<Call> :: IsRun(states, calls)
              && (forall i :: 0 <= i < |calls| && calls[i].Allocate? ==> calls[i].id !in states[i].allocations)
              && states[0] == Opened([0], 100) && !DisjointOn(states[|calls|].allocations, 0)
  {
    var states, calls := seq(5, (i: nat) => OverlapState(i)), seq(4, (i: nat) => OverlapCall(i));
    forall i | 0 <= i < 4
      ensures Link(states, calls, i)
      ensures calls[i].Allocate? ==> calls[i].id !in states[i].allocations
    {
      OverlapStep(i);
    }
    assert IsRun(states, calls);
    assert states[0] == Opened([0], 100);
    var last := states[|calls|].allocations;
    assert Holds(last[2], 10) && Holds(last[3], 10);
    assert Overlap(last[2], last[3]);
  }
}
