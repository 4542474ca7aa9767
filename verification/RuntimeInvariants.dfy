/** What every runtime operation keeps: the coupling of object tables and driver, and VRAM conservation. */
module RuntimeInvariants {
  import opened Common
  import opened GraphicsApi
  import opened CommandStreams
  import opened Ledger
  import opened GpuDriver
  import opened RuntimeCore

  /** Ids drawn by an operation are new, and distinct. */
  ghost predicate DrawsNew(s: State, op: Op) {
    && Drawn(op) !! s.used
    && (op.CreateDevice? ==>
          var q := op.queueIds;
          op.newId != q.0 && op.newId != q.1 && op.newId != q.2 && q.0 != q.1 && q.0 != q.2 && q.1 != q.2)
  }

  ghost predicate IdsAreUsed(s: State) {
    && s.devices.Keys <= s.used && s.resources.Keys <= s.used && s.shaders.Keys <= s.used
    && s.pipelines.Keys <= s.used && s.timelines.Keys <= s.used && s.driver.claims.Keys <= s.used
  }

  /** A live resource is an allocation on its device's GPU, of the size asked for. */
  ghost predicate Backed(s: State, id: ObjectId)
    requires id in s.resources
  {
    var r := s.resources[id];
    && r.device in s.devices
    && id in s.driver.claims
    && s.driver.claims[id] == Claim(s.devices[r.device].gpu, r.memory, ResourceSize(r.kind))
  }

  /** Tear-down closure: grants match devices, devices name known GPUs, and every object names a live device. */
  ghost predicate Closed(s: State) {
    && s.deviceCaps.Keys == s.devices.Keys
    && (forall d :: d in s.devices ==> s.devices[d].gpu in s.driver.gpus)
    && (forall id :: id in s.shaders ==> s.shaders[id].device in s.devices)
    && (forall id :: id in s.pipelines ==> s.pipelines[id].device in s.devices)
  }

  ghost predicate Coupled(s: State) {
    && IdsAreUsed(s) && Closed(s)
    && (forall id :: id in s.resources ==> Backed(s, id))
  }

  lemma InitialIsCoupled(driver: Driver, used: set<ObjectId>)
    requires driver.claims.Keys <= used
    ensures Coupled(Initial(driver, used))
  {
  }

  /** Resources that keep their entry, their device's GPU and their allocation stay backed. */
  lemma BackingIsKept(s: State, s': State)
    requires forall id :: id in s.resources ==> Backed(s, id)
    requires forall id :: id in s'.resources ==> id in s.resources && s'.resources[id] == s.resources[id]
    requires forall id :: id in s'.resources ==>
               id in s'.driver.claims && id in s.driver.claims && s'.driver.claims[id] == s.driver.claims[id]
    requires forall id :: id in s'.resources ==>
               var d := s'.resources[id].device;
               d in s.devices ==> d in s'.devices && s'.devices[d].gpu == s.devices[d].gpu
    ensures forall id :: id in s'.resources ==> Backed(s', id)
  {
    forall id | id in s'.resources ensures Backed(s', id) {
      assert Backed(s, id);
    }
  }

  lemma AddDeviceKeepsCoupled(s: State, s': State, id: ObjectId, device: GraphicsDevice, caps: CapabilitySet)
    requires Coupled(s) && id !in s.used && s.used <= s'.used && id in s'.used
    requires s'.devices == s.devices[id := device] && s'.deviceCaps == s.deviceCaps[id := caps]
    requires device.gpu in s.driver.gpus && s'.driver == s.driver && s'.resources == s.resources
    requires s'.shaders == s.shaders && s'.pipelines == s.pipelines && s'.timelines == s.timelines
    ensures Coupled(s')
  {
    forall j | j in s.resources ensures s.resources[j].device in s.devices {
      assert Backed(s, j);
    }
    BackingIsKept(s, s');
  }

  lemma CreateDeviceKeepsCoupled(
      s: State, gpu: ObjectId, caps: CapabilitySet, id: ObjectId, q: (ObjectId, ObjectId, ObjectId))
    requires Coupled(s) && id !in s.used
    ensures Coupled(DeviceCreated(s, gpu, caps, id, q).0)
  {
    var (s', reply) := DeviceCreated(s, gpu, caps, id, q);
    if reply.Made? {
      AddDeviceKeepsCoupled(s, s', id, DeviceFor(gpu, id, q), caps);
    } else {
      TablesAloneKeepCoupled(s, s');
    }
  }

  lemma CreateTimelineKeepsCoupled(s: State, device: ObjectId, id: ObjectId)
    requires Coupled(s)
    ensures Coupled(TimelineCreated(s, device, id).0)
  {
    BackingIsKept(s, TimelineCreated(s, device, id).0);
  }

  lemma CreateShaderKeepsCoupled(s: State, device: ObjectId, stage: ShaderStage, ir: seq<bv8>, id: ObjectId)
    requires Coupled(s)
    ensures Coupled(ShaderCreated(s, device, stage, ir, id).0)
  {
    BackingIsKept(s, ShaderCreated(s, device, stage, ir, id).0);
  }

  lemma CreatePipelineKeepsCoupled(s: State, device: ObjectId, shader: ObjectId, workload: WorkloadClass, id: ObjectId)
    requires Coupled(s)
    ensures Coupled(PipelineCreated(s, device, shader, workload, id).0)
  {
    BackingIsKept(s, PipelineCreated(s, device, shader, workload, id).0);
  }

  lemma AddResourceKeepsCoupled(s: State, s': State, id: ObjectId, r: Resource)
    requires Coupled(s) && id !in s.used && s'.used == s.used + {id} && r.device in s.devices
    requires s' == s.(used := s'.used, driver := s'.driver, resources := s.resources[id := r])
    requires s'.driver.gpus.Keys == s.driver.gpus.Keys
    requires s'.driver.claims
          == s.driver.claims[id := Claim(s.devices[r.device].gpu, r.memory, ResourceSize(r.kind))]
    ensures Coupled(s')
  {
    BackingIsKept(s, s'.(resources := s.resources));
    forall j | j in s'.resources ensures Backed(s', j) {
      if j != id {
        assert Backed(s'.(resources := s.resources), j);
      }
    }
  }

  lemma AllocateFrame(d: Driver, device: ObjectId, size: u64, memory: MemoryClass, id: ObjectId)
    ensures var (d', r) := AllocateVram(d, device, size, memory, id);
            && d'.gpus.Keys == d.gpus.Keys
            && d'.claims == if r.Ok? then d.claims[id := Claim(device, memory, size)] else d.claims
  {
  }

  lemma CreateResourceKeepsCoupled(s: State, device: ObjectId, kind: ResourceKind, memory: MemoryClass, id: ObjectId)
    requires Coupled(s) && id !in s.used
    ensures Coupled(ResourceCreated(s, device, kind, memory, id).0)
  {
    var (s', reply) := ResourceCreated(s, device, kind, memory, id);
    if device !in s.devices {
      TablesAloneKeepCoupled(s, s');
      return;
    }
    AllocateFrame(s.driver, s.devices[device].gpu, ResourceSize(kind), memory, id);
    if reply.Made? {
      AddResourceKeepsCoupled(s, s', id, Resource(id, device, kind, memory));
    } else {
      TablesAloneKeepCoupled(s, s');
    }
  }

  lemma FreeKeepsCoupled(s: State, id: ObjectId)
    requires Coupled(s)
    ensures Coupled(ResourceFreed(s, id).0)
  {
    BackingIsKept(s, ResourceFreed(s, id).0);
  }

  /** Only audit, faults, accepted batches and timelines differ. */
  lemma TablesAloneKeepCoupled(s: State, s': State)
    requires Coupled(s) && s.used <= s'.used
    requires s'.driver.claims == s.driver.claims && s'.driver.gpus.Keys == s.driver.gpus.Keys
    requires s'.devices == s.devices && s'.deviceCaps == s.deviceCaps && s'.resources == s.resources
    requires s'.shaders == s.shaders && s'.pipelines == s.pipelines && s'.timelines.Keys == s.timelines.Keys
    ensures Coupled(s')
  {
    BackingIsKept(s, s');
  }

  /** What a fault or an accepted batch leaves alone. */
  ghost predicate LedgerKept(d: Driver, d': Driver) {
    && d'.claims == d.claims && d'.gpus.Keys == d.gpus.Keys
    && forall g :: g in d.gpus ==> d'.gpus[g].available == d.gpus[g].available
  }

  lemma SubmitKeepsLedger(d: Driver, gpu: ObjectId, workload: WorkloadClass, ops: seq<DriverOp>, outcome: SubmitOutcome)
    ensures LedgerKept(d, SubmitToDriver(d, gpu, workload, ops, outcome).0)
  {
  }

  lemma SubmitFrame(
      s: State, queue: QueueHandle, stream: CommandStream, timeline: ObjectId, signal: u64, outcome: SubmitOutcome)
    ensures var s' := Submitted(s, queue, stream, timeline, signal, outcome).0;
            && LedgerKept(s.driver, s'.driver)
            && s' == s.(audit := s'.audit, driver := s'.driver, timelines := s'.timelines)
            && s'.timelines.Keys == s.timelines.Keys
  {
    if stream.device in s.devices {
      SubmitKeepsLedger(s.driver, s.devices[stream.device].gpu, queue.workload, TranslateOps(stream.ops), outcome);
    }
  }

  lemma DropDeviceKeepsCoupled(s: State, s': State, device: ObjectId)
    requires Coupled(s) && s'.used == s.used && s'.timelines == s.timelines
    requires s'.driver.claims == s.driver.claims && s'.driver.gpus.Keys == s.driver.gpus.Keys
    requires s'.devices == s.devices - {device} && s'.deviceCaps == s.deviceCaps - {device}
    requires s'.resources == ResourcesBut(s.resources, device)
    requires s'.shaders == ShadersBut(s.shaders, device)
    requires s'.pipelines == PipelinesBut(s.pipelines, device)
    ensures Coupled(s')
  {
    assert s'.resources.Keys <= s.resources.Keys && s'.shaders.Keys <= s.shaders.Keys;
    assert s'.pipelines.Keys <= s.pipelines.Keys;
    BackingIsKept(s, s');
  }

  lemma RecoverKeepsCoupled(s: State, device: ObjectId, caps: CapabilitySet, works: bool)
    requires Coupled(s)
    ensures Coupled(Recovered(s, device, caps, works).0)
  {
    var (s', reply) := Recovered(s, device, caps, works);
    if reply == Done {
      DropDeviceKeepsCoupled(s, s', device);
    } else {
      TablesAloneKeepCoupled(s, s');
    }
  }

  lemma CreateKeepsCoupled(s: State, op: Op)
    requires Coupled(s) && DrawsNew(s, op)
    requires op.CreateDevice? || op.CreateTimeline? || op.CreateCommandStream? || op.CreateResource?
             || op.CreateShaderModule? || op.CreatePipeline?
    ensures Coupled(Step(s, op).0)
  {
    match op
    case CreateDevice(gpu, caps, id, q) => CreateDeviceKeepsCoupled(s, gpu, caps, id, q);
    case CreateTimeline(device, id) => CreateTimelineKeepsCoupled(s, device, id);
    case CreateCommandStream(device, _, id) => TablesAloneKeepCoupled(s, StreamCreated(s, device, id).0);
    case CreateResource(device, kind, memory, id) => CreateResourceKeepsCoupled(s, device, kind, memory, id);
    case CreateShaderModule(device, stage, ir, id) => CreateShaderKeepsCoupled(s, device, stage, ir, id);
    case CreatePipeline(device, shader, workload, id) => CreatePipelineKeepsCoupled(s, device, shader, workload, id);
  }

  lemma SetFaultKeepsLedger(d: Driver, gpu: ObjectId, fault: Option<Fault>)
    ensures LedgerKept(d, SetFault(d, gpu, fault))
  {
  }

  lemma SetFaultKeepsCoupled(s: State, gpu: ObjectId, fault: Option<Fault>)
    requires Coupled(s)
    ensures Coupled(s.(driver := SetFault(s.driver, gpu, fault)))
  {
    SetFaultKeepsLedger(s.driver, gpu, fault);
    TablesAloneKeepCoupled(s, s.(driver := SetFault(s.driver, gpu, fault)));
  }

  lemma DriverMutKeepsCoupled(s: State, caps: CapabilitySet, gpu: ObjectId, fault: Option<Fault>)
    requires Coupled(s)
    ensures Coupled(FaultSet(s, caps, gpu, fault).0)
  {
    if GpuAdmin in caps {
      SetFaultKeepsCoupled(s, gpu, fault);
    }
  }

  lemma SubmitKeepsCoupled(
      s: State, queue: QueueHandle, stream: CommandStream, timeline: ObjectId, signal: u64, outcome: SubmitOutcome)
    requires Coupled(s)
    ensures Coupled(Submitted(s, queue, stream, timeline, signal, outcome).0)
  {
    SubmitFrame(s, queue, stream, timeline, signal, outcome);
    TablesAloneKeepCoupled(s, Submitted(s, queue, stream, timeline, signal, outcome).0);
  }

  /** Every operation keeps the tables coupled to each other and to the driver. */
  lemma StepKeepsCoupled(s: State, op: Op)
    requires Coupled(s) && DrawsNew(s, op)
    ensures Coupled(Step(s, op).0)
  {
    match op
    case SubmitStream(queue, stream, timeline, signal, outcome) =>
      SubmitKeepsCoupled(s, queue, stream, timeline, signal, outcome);
    case FreeResource(id) => FreeKeepsCoupled(s, id);
    case RecoverDevice(device, caps, works) => RecoverKeepsCoupled(s, device, caps, works);
    case InjectFault(caps, gpu, address, description) =>
      DriverMutKeepsCoupled(s, caps, gpu, Some(Fault(gpu, address, description)));
    case ClearFault(caps, gpu) => DriverMutKeepsCoupled(s, caps, gpu, None);
    case _ => CreateKeepsCoupled(s, op);
  }

  /** free_resource succeeds exactly for a live resource: the driver never disagrees with the table. */
  lemma FreeSucceedsIffLive(s: State, id: ObjectId, totals: map<ObjectId, u64>)
    requires Coupled(s) && Conserved(s.driver, totals)
    ensures ResourceFreed(s, id).1 == Done <==> id in s.resources
  {
    if id in s.resources {
      assert Backed(s, id);
      FreeIsExact(s.driver, id, totals);
    }
  }

  // ---------- The driver is only reached through its trait ----------

  /** The trait calls an operation makes, in order. */
  ghost function TraitCalls(s: State, op: Op): seq<Call> {
    match op
    case CreateResource(device, kind, memory, id) =>
      if device in s.devices then [Allocate(s.devices[device].gpu, ResourceSize(kind), memory, id)] else []
    case FreeResource(id) => if id in s.resources then [Free(id)] else []
    case RecoverDevice(device, caps, works) =>
      if GpuAdmin in caps && device in s.devices then [Reset(s.devices[device].gpu, works)] else []
    case SubmitStream(queue, stream, timeline, signal, outcome) =>
      if stream.target == queue.workload && stream.device in s.deviceCaps
         && GpuCommandSubmit in s.deviceCaps[stream.device] && stream.device in s.devices
         && timeline in s.timelines && signal > s.timelines[timeline]
         && Accepts(ObjectsOf(s), stream.device, None, stream.ops)
      then
        var gpu := s.devices[stream.device].gpu;
        match outcome
        case Answers(answer) => [Submit(gpu, queue.workload, TranslateOps(stream.ops), answer)]
        case Panics(message) => [MarkFaulted(gpu, message)]
      else []
    case _ => []
  }

  lemma AfterOne(d: Driver, c: Call)
    ensures After(d, [c]) == Apply(d, c).0
  {
    assert [c][..0] == [];
  }

  lemma SubmitDriverChange(
      s: State, queue: QueueHandle, stream: CommandStream, timeline: ObjectId, signal: u64, outcome: SubmitOutcome)
    ensures var calls := TraitCalls(s, SubmitStream(queue, stream, timeline, signal, outcome));
            && |calls| <= 1
            && Submitted(s, queue, stream, timeline, signal, outcome).0.driver
               == if calls == [] then s.driver else Apply(s.driver, calls[0]).0
  {
  }

  lemma CreatesReachNoDriver(s: State, op: Op)
    requires op.CreateDevice? || op.CreateTimeline? || op.CreateCommandStream? || op.CreateShaderModule? || op.CreatePipeline?
    ensures Step(s, op).0.driver == s.driver && TraitCalls(s, op) == []
  {
  }

  lemma ResourceDriverChange(s: State, op: Op)
    requires op.CreateResource? || op.FreeResource? || op.RecoverDevice?
    ensures |TraitCalls(s, op)| <= 1
    ensures Step(s, op).0.driver == if TraitCalls(s, op) == [] then s.driver else Apply(s.driver, TraitCalls(s, op)[0]).0
  {
  }

  /**
   * Apart from driver_mut, an operation changes the driver exactly by its trait calls, so whatever
   * implements the trait's contract (SoftwareDriver, VulkanDriver, FallbackDriver) carries the runtime.
   */
  lemma DriverChangesByTraitCalls(s: State, op: Op)
    requires !op.InjectFault? && !op.ClearFault?
    ensures Step(s, op).0.driver == After(s.driver, TraitCalls(s, op))
    ensures |TraitCalls(s, op)| <= 1
  {
    var calls := TraitCalls(s, op);
    if op.SubmitStream? {
      SubmitDriverChange(s, op.queue, op.stream, op.timeline, op.signal, op.outcome);
    } else if op.CreateResource? || op.FreeResource? || op.RecoverDevice? {
      ResourceDriverChange(s, op);
    } else {
      CreatesReachNoDriver(s, op);
    }
    if calls != [] {
      assert calls == [calls[0]];
      AfterOne(s.driver, calls[0]);
    }
  }

  lemma TraitCallDrawsUnused(s: State, op: Op)
    requires Coupled(s) && DrawsNew(s, op)
    ensures forall c :: c in TraitCalls(s, op) ==> DrawsUnused(s.driver, c)
  {
    if op.CreateResource? {
      assert op.newId in Drawn(op);
    }
  }

  lemma DriverMutConserves(s: State, op: Op, totals: map<ObjectId, u64>)
    requires Conserved(s.driver, totals) && (op.InjectFault? || op.ClearFault?)
    ensures Conserved(Step(s, op).0.driver, totals)
  {
    FaultsDoNotMoveVram(s.driver, Step(s, op).0.driver, totals);
  }

  /** And every operation conserves VRAM on every GPU. */
  lemma StepConserves(s: State, op: Op, totals: map<ObjectId, u64>)
    requires Coupled(s) && DrawsNew(s, op) && Conserved(s.driver, totals)
    ensures Conserved(Step(s, op).0.driver, totals)
  {
    if op.InjectFault? || op.ClearFault? {
      DriverMutConserves(s, op, totals);
    } else {
      DriverChangesByTraitCalls(s, op);
      var calls := TraitCalls(s, op);
      if calls != [] {
        assert calls == [calls[0]];
        AfterOne(s.driver, calls[0]);
        TraitCallDrawsUnused(s, op);
        ApplyConserves(s.driver, calls[0], totals);
      }
    }
  }

  lemma FaultsDoNotMoveVram(d: Driver, d': Driver, totals: map<ObjectId, u64>)
    requires Conserved(d, totals) && d'.claims == d.claims && d'.gpus.Keys == d.gpus.Keys
    requires forall g :: g in d.gpus ==> d'.gpus[g].available == d.gpus[g].available
    ensures Conserved(d', totals)
  {
    forall g | g in d'.gpus ensures totals[g] == d'.gpus[g].available + Outstanding(d', g) {
      assert totals[g] == d.gpus[g].available + Outstanding(d, g);
    }
  }

  // ---------- Where the VRAM is ----------

  /** Bytes of the live resources of the devices on GPU g, as the runtime's own tables have them. */
  ghost function LiveSizes(s: State, g: ObjectId): map<ObjectId, nat> {
    map id | id in s.resources && s.resources[id].device in s.devices && s.devices[s.resources[id].device].gpu == g
      :: ResourceSize(s.resources[id].kind)
  }

  /** Allocations on g that no live resource stands for. */
  ghost function StrandedSizes(s: State, g: ObjectId): map<ObjectId, nat> {
    map id | id in s.driver.claims && id !in s.resources && s.driver.claims[id].device == g :: s.driver.claims[id].size
  }

  ghost function Live(s: State, g: ObjectId): nat { SumOf(LiveSizes(s, g)) }

  ghost function Stranded(s: State, g: ObjectId): nat { SumOf(StrandedSizes(s, g)) }

  lemma LiveSizesAreClaims(s: State, g: ObjectId)
    requires Coupled(s)
    ensures LiveSizes(s, g) == Within(SizesOn(s.driver.claims, g), s.resources.Keys)
  {
    var live, inside := LiveSizes(s, g), Within(SizesOn(s.driver.claims, g), s.resources.Keys);
    forall id ensures id in live <==> id in inside {
      if id in s.resources {
        assert Backed(s, id);
      }
    }
    forall id | id in inside ensures live[id] == inside[id] {
      assert Backed(s, id);
    }
  }

  /** A GPU's VRAM is free, or in live resources, or stranded. */
  lemma VramIsAccountedFor(s: State, totals: map<ObjectId, u64>, g: ObjectId)
    requires Coupled(s) && Conserved(s.driver, totals) && g in s.driver.gpus
    ensures totals[g] == s.driver.gpus[g].available + Live(s, g) + Stranded(s, g)
  {
    var all := SizesOn(s.driver.claims, g);
    SumSplit(all, s.resources.Keys);
    LiveSizesAreClaims(s, g);
    assert all - s.resources.Keys == StrandedSizes(s, g);
    assert totals[g] == s.driver.gpus[g].available + Outstanding(s.driver, g);
  }

  ghost function DroppedSizes(s: State, device: ObjectId): map<ObjectId, nat> {
    map id | id in s.resources && s.resources[id].device == device :: ResourceSize(s.resources[id].kind)
  }

  /** The bytes of a device's resources when the operation is a successful recovery of it, on GPU g. */
  ghost function Strands(s: State, op: Op, g: ObjectId): nat {
    if op.RecoverDevice? && Step(s, op).1 == Done && op.device in s.devices && s.devices[op.device].gpu == g
    then SumOf(DroppedSizes(s, op.device)) else 0
  }

  /** Dropping a device's table entries strands exactly their bytes, on its GPU. */
  lemma DropStrands(s: State, s': State, device: ObjectId, g: ObjectId)
    requires Coupled(s) && device in s.devices && s'.driver.claims == s.driver.claims
    requires s'.resources == ResourcesBut(s.resources, device)
    ensures Stranded(s', g) == Stranded(s, g) + if s.devices[device].gpu == g then SumOf(DroppedSizes(s, device)) else 0
  {
    var after, dropped := StrandedSizes(s', g), DroppedSizes(s, device);
    SumSplit(after, dropped.Keys);
    forall id | id in s.resources ensures Backed(s, id) {
    }
    assert after - dropped.Keys == StrandedSizes(s, g) by {
      assert (after - dropped.Keys).Keys == StrandedSizes(s, g).Keys;
    }
    var inside := Within(after, dropped.Keys);
    assert inside == if s.devices[device].gpu == g then dropped else map[] by {
      assert inside.Keys == if s.devices[device].gpu == g then dropped.Keys else {};
    }
  }

  lemma SameClaimsStrandTheSame(s: State, s': State, g: ObjectId)
    requires s'.driver.claims == s.driver.claims && s'.resources == s.resources
    ensures Stranded(s', g) == Stranded(s, g)
  {
  }

  lemma CreateStrandsNothing(s: State, device: ObjectId, kind: ResourceKind, memory: MemoryClass, id: ObjectId, g: ObjectId)
    requires id !in s.driver.claims && id !in s.resources
    ensures Stranded(ResourceCreated(s, device, kind, memory, id).0, g) == Stranded(s, g)
  {
    var (s', reply) := ResourceCreated(s, device, kind, memory, id);
    if reply.Made? {
      assert s'.driver.claims.Keys == s.driver.claims.Keys + {id} && s'.resources.Keys == s.resources.Keys + {id};
      assert StrandedSizes(s', g) == StrandedSizes(s, g);
    } else {
      SameClaimsStrandTheSame(s, s', g);
    }
  }

  lemma RemovedFromBothStrandsNothing(s: State, s': State, id: ObjectId, g: ObjectId)
    requires s'.driver.claims == s.driver.claims - {id} && s'.resources == s.resources - {id} && id in s.resources
    ensures Stranded(s', g) == Stranded(s, g)
  {
    assert StrandedSizes(s', g) == StrandedSizes(s, g);
  }

  lemma FreeStrandsNothing(s: State, id: ObjectId, g: ObjectId)
    requires Coupled(s)
    ensures Stranded(ResourceFreed(s, id).0, g) == Stranded(s, g)
  {
    var s' := ResourceFreed(s, id).0;
    if id in s.resources {
      assert Backed(s, id);
      RemovedFromBothStrandsNothing(s, s', id, g);
    }
  }

  /** The operations that leave allocations and resources alone. */
  ghost predicate KeepsObjects(op: Op) {
    op.CreateDevice? || op.CreateTimeline? || op.CreateCommandStream? || op.CreateShaderModule? || op.CreatePipeline?
    || op.InjectFault? || op.ClearFault?
  }

  lemma CreatesKeepResources(s: State, op: Op)
    requires op.CreateDevice? || op.CreateTimeline? || op.CreateCommandStream? || op.CreateShaderModule? || op.CreatePipeline?
    ensures Step(s, op).0.resources == s.resources
  {
  }

  lemma FaultSetFrame(s: State, caps: CapabilitySet, gpu: ObjectId, fault: Option<Fault>)
    ensures var s' := FaultSet(s, caps, gpu, fault).0;
            s' == s.(driver := s'.driver) && s'.driver.claims == s.driver.claims && s'.driver.accepted == s.driver.accepted
  {
  }

  lemma KeepsObjectsFrame(s: State, op: Op)
    requires KeepsObjects(op)
    ensures Step(s, op).0.driver.claims == s.driver.claims && Step(s, op).0.resources == s.resources
  {
    match op
    case InjectFault(caps, gpu, address, description) =>
      FaultSetFrame(s, caps, gpu, Some(Fault(gpu, address, description)));
    case ClearFault(caps, gpu) => FaultSetFrame(s, caps, gpu, None);
    case _ =>
      CreatesReachNoDriver(s, op);
      CreatesKeepResources(s, op);
  }

  lemma RecoverStrands(s: State, op: Op, g: ObjectId)
    requires Coupled(s) && op.RecoverDevice?
    ensures Stranded(Step(s, op).0, g) == Stranded(s, g) + Strands(s, op, g)
  {
    var (s', reply) := Recovered(s, op.device, op.caps, op.works);
    if reply == Done {
      DropStrands(s, s', op.device, g);
    } else {
      SameClaimsStrandTheSame(s, s', g);
    }
  }

  lemma SubmitStrandsNothing(s: State, op: Op, g: ObjectId)
    requires op.SubmitStream?
    ensures Stranded(Step(s, op).0, g) == Stranded(s, g)
  {
    SubmitFrame(s, op.queue, op.stream, op.timeline, op.signal, op.outcome);
    SameClaimsStrandTheSame(s, Step(s, op).0, g);
  }

  /**
   * Stranded VRAM never comes back, and grows only by recovery, by exactly the sizes of the
   * recovered device's resources: recovery drops their table entries and frees none of them.
   */
  lemma StrandedGrowsOnlyByRecovery(s: State, op: Op, g: ObjectId)
    requires Coupled(s) && DrawsNew(s, op)
    ensures Stranded(Step(s, op).0, g) == Stranded(s, g) + Strands(s, op, g)
  {
    if op.RecoverDevice? {
      RecoverStrands(s, op, g);
    } else if op.CreateResource? {
      assert op.newId in Drawn(op);
      CreateStrandsNothing(s, op.device, op.kind, op.memory, op.newId, g);
    } else if op.FreeResource? {
      FreeStrandsNothing(s, op.resource, g);
    } else if op.SubmitStream? {
      SubmitStrandsNothing(s, op, g);
    } else {
      KeepsObjectsFrame(s, op);
      SameClaimsStrandTheSame(s, Step(s, op).0, g);
    }
  }

  /** Recovery gives a GPU all its VRAM back exactly when none of it is in use, the device's own resources included. */
  lemma RecoveryReturnsVramIff(s: State, op: Op, totals: map<ObjectId, u64>)
    requires Coupled(s) && Conserved(s.driver, totals) && op.RecoverDevice? && Step(s, op).1 == Done
    ensures var g := s.devices[op.device].gpu;
            && Step(s, op).0.driver.gpus[g].available == s.driver.gpus[g].available
            && (Step(s, op).0.driver.gpus[g].available == totals[g] <==> Live(s, g) == 0 && Stranded(s, g) == 0)
  {
    VramIsAccountedFor(s, totals, s.devices[op.device].gpu);
  }

  // ---------- All or nothing ----------

  /** Object tables, timelines, allocations, free VRAM and accepted batches are the same. */
  ghost predicate SameButAuditAndFaults(s: State, s': State) {
    && s'.devices == s.devices && s'.deviceCaps == s.deviceCaps && s'.resources == s.resources
    && s'.shaders == s.shaders && s'.pipelines == s.pipelines && s'.timelines == s.timelines
    && s'.driver.accepted == s.driver.accepted && LedgerKept(s.driver, s'.driver)
  }

  lemma FailedSubmit(
      s: State, queue: QueueHandle, stream: CommandStream, timeline: ObjectId, signal: u64, outcome: SubmitOutcome)
    requires Submitted(s, queue, stream, timeline, signal, outcome).1.Failed?
    ensures var s' := Submitted(s, queue, stream, timeline, signal, outcome).0;
            && s' == s.(audit := s'.audit, driver := s'.driver)
            && LedgerKept(s.driver, s'.driver) && s'.driver.accepted == s.driver.accepted
            && forall g :: g in s.driver.gpus && s'.driver.gpus[g] != s.driver.gpus[g] ==>
                 stream.device in s.devices && g == s.devices[stream.device].gpu
  {
    if stream.device in s.devices {
      SubmitKeepsLedger(s.driver, s.devices[stream.device].gpu, queue.workload, TranslateOps(stream.ops), outcome);
    }
  }

  lemma FailedCreate(s: State, op: Op)
    requires !op.SubmitStream? && !op.FreeResource? && !op.RecoverDevice? && Step(s, op).1.Failed?
    ensures var s' := Step(s, op).0; s' == s.(audit := s'.audit, used := s'.used)
  {
    match op
    case CreateDevice(gpu, caps, id, q) => assert Step(s, op) == DeviceCreated(s, gpu, caps, id, q);
    case CreateTimeline(device, id) => assert Step(s, op) == TimelineCreated(s, device, id);
    case CreateCommandStream(device, _, id) => assert Step(s, op) == StreamCreated(s, device, id);
    case CreateResource(device, kind, memory, id) => assert Step(s, op) == ResourceCreated(s, device, kind, memory, id);
    case CreateShaderModule(device, stage, ir, id) => assert Step(s, op) == ShaderCreated(s, device, stage, ir, id);
    case CreatePipeline(device, shader, workload, id) =>
      assert Step(s, op) == PipelineCreated(s, device, shader, workload, id);
    case InjectFault(caps, gpu, address, description) =>
      assert Step(s, op) == FaultSet(s, caps, gpu, Some(Fault(gpu, address, description)));
    case ClearFault(caps, gpu) => assert Step(s, op) == FaultSet(s, caps, gpu, None);
  }

  lemma FailedRecover(s: State, device: ObjectId, caps: CapabilitySet, works: bool)
    requires Recovered(s, device, caps, works).1.Failed?
    ensures var s' := Recovered(s, device, caps, works).0; s' == s.(audit := s'.audit)
  {
  }

  /** An operation that fails changed nothing but the audit log and, for a submit, its own GPU's fault. */
  lemma FailureChangesNothing(s: State, op: Op, totals: map<ObjectId, u64>)
    requires Coupled(s) && Conserved(s.driver, totals) && Step(s, op).1.Failed?
    ensures SameButAuditAndFaults(s, Step(s, op).0)
    ensures !op.SubmitStream? ==> Step(s, op).0.driver == s.driver
    ensures op.SubmitStream? ==> forall g :: g in s.driver.gpus && Step(s, op).0.driver.gpus[g] != s.driver.gpus[g] ==>
              op.stream.device in s.devices && g == s.devices[op.stream.device].gpu
  {
    if op.FreeResource? {
      FreeSucceedsIffLive(s, op.resource, totals);
      assert Step(s, op).0 == s;
    } else if op.SubmitStream? {
      FailedSubmit(s, op.queue, op.stream, op.timeline, op.signal, op.outcome);
    } else if op.RecoverDevice? {
      FailedRecover(s, op.device, op.caps, op.works);
    } else {
      FailedCreate(s, op);
    }
  }
}
