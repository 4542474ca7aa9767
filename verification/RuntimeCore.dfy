/**
 * GraphicsRuntime: object tables, capability gates, audit log, timelines, panic containment and
 * recovery over any GpuDriver. `Step` says what each operation does to the whole state; the class
 * does it in place and is proved to do exactly that.
 */
module RuntimeCore {
  import opened Common
  import opened GraphicsApi
  import opened CommandStreams
  import opened GpuDriver

  datatype AuditEntry = AuditEntry(actor: ObjectId, action: string, authorized: bool)

  /** `used` holds every id drawn so far: `ObjectId::new` never draws one twice. */
  datatype State = State(
    driver: Driver,
    devices: map<ObjectId, GraphicsDevice>,
    deviceCaps: map<ObjectId, CapabilitySet>,
    resources: map<ObjectId, Resource>,
    shaders: map<ObjectId, ShaderModule>,
    pipelines: map<ObjectId, Pipeline>,
    timelines: map<ObjectId, u64>,
    audit: seq<AuditEntry>,
    used: set<ObjectId>)

  /** How a driver's submit ends: it returns, or it panics and the panic is caught. */
  datatype SubmitOutcome = Answers(answer: Answer) | Panics(message: string)

  datatype Op =
    | CreateDevice(gpu: ObjectId, caps: CapabilitySet, newId: ObjectId, queueIds: (ObjectId, ObjectId, ObjectId))
    | CreateTimeline(device: ObjectId, newId: ObjectId)
    | CreateCommandStream(device: ObjectId, target: WorkloadClass, newId: ObjectId)
    | CreateResource(device: ObjectId, kind: ResourceKind, memory: MemoryClass, newId: ObjectId)
    | CreateShaderModule(device: ObjectId, stage: ShaderStage, ir: seq<bv8>, newId: ObjectId)
    | CreatePipeline(device: ObjectId, shader: ObjectId, workload: WorkloadClass, newId: ObjectId)
    | SubmitStream(queue: QueueHandle, stream: CommandStream, timeline: ObjectId, signal: u64, outcome: SubmitOutcome)
    | FreeResource(resource: ObjectId)
    | RecoverDevice(device: ObjectId, caps: CapabilitySet, works: bool)
    | InjectFault(caps: CapabilitySet, gpu: ObjectId, address: u64, description: string)
    | ClearFault(caps: CapabilitySet, gpu: ObjectId)

  datatype Reply = Done | Made(id: ObjectId) | Failed(error: Error)

  function Initial(driver: Driver, used: set<ObjectId>): State {
    State(driver, map[], map[], map[], map[], map[], map[], [], used)
  }

  function ObjectsOf(s: State): Objects {
    Objects(s.pipelines, s.resources)
  }

  function Drawn(op: Op): set<ObjectId> {
    match op
    case CreateDevice(_, _, id, q) => {id, q.0, q.1, q.2}
    case CreateTimeline(_, id) => {id}
    case CreateCommandStream(_, _, id) => {id}
    case CreateResource(_, _, _, id) => {id}
    case CreateShaderModule(_, _, _, id) => {id}
    case CreatePipeline(_, _, _, id) => {id}
    case _ => {}
  }

  function Audited(s: State, actor: ObjectId, action: string, authorized: bool): State {
    s.(audit := s.audit + [AuditEntry(actor, action, authorized)])
  }

  /** Ids count as used even when the call they were meant for fails. */
  function Drew(s: State, ids: set<ObjectId>): State {
    s.(used := s.used + ids)
  }

  function DeviceFor(gpu: ObjectId, id: ObjectId, q: (ObjectId, ObjectId, ObjectId)): GraphicsDevice {
    GraphicsDevice(id, gpu, [QueueHandle(q.0, Graphics), QueueHandle(q.1, WorkloadClass.Compute), QueueHandle(q.2, Transfer)])
  }

  function SubmitToDriver(d: Driver, gpu: ObjectId, workload: WorkloadClass, ops: seq<DriverOp>, outcome: SubmitOutcome)
    : (Driver, Result<()>)
  {
    match outcome
    case Answers(answer) => SubmitBatch(d, gpu, workload, ops, answer)
    case Panics(message) => (Mark(d, gpu, message), Err(Device))
  }

  ghost function Submitted(
      s: State, queue: QueueHandle, stream: CommandStream, timeline: ObjectId, signal: u64, outcome: SubmitOutcome)
    : (State, Reply)
  {
    if stream.target != queue.workload || stream.device !in s.deviceCaps then (s, Failed(Device))
    else
      var granted := GpuCommandSubmit in s.deviceCaps[stream.device];
      var logged := Audited(s, stream.device, "submit", granted);
      if !granted then (logged, Failed(Security))
      else if stream.device !in s.devices || timeline !in s.timelines then (logged, Failed(Device))
      else if signal <= s.timelines[timeline] then (logged, Failed(Device))
      else if !Accepts(ObjectsOf(s), stream.device, None, stream.ops) then (logged, Failed(Device))
      else
        var (d, r) := SubmitToDriver(s.driver, s.devices[stream.device].gpu, queue.workload, TranslateOps(stream.ops), outcome);
        if r.Err? then (logged.(driver := d), Failed(r.error))
        else (logged.(driver := d, timelines := s.timelines[timeline := signal]), Done)
  }

  /** `retain(|_, object| object.device != device)` on each object table. */
  function ResourcesBut(resources: map<ObjectId, Resource>, device: ObjectId): map<ObjectId, Resource> {
    map id | id in resources && resources[id].device != device :: resources[id]
  }

  function ShadersBut(shaders: map<ObjectId, ShaderModule>, device: ObjectId): map<ObjectId, ShaderModule> {
    map id | id in shaders && shaders[id].device != device :: shaders[id]
  }

  function PipelinesBut(pipelines: map<ObjectId, Pipeline>, device: ObjectId): map<ObjectId, Pipeline> {
    map id | id in pipelines && pipelines[id].device != device :: pipelines[id]
  }

  function Recovered(s: State, device: ObjectId, caps: CapabilitySet, works: bool): (State, Reply) {
    var granted := GpuAdmin in caps;
    var logged := Audited(s, device, "recover_device", granted);
    if !granted then (logged, Failed(Security))
    else if device !in s.devices then (logged, Failed(Device))
    else
      var (d, r) := ResetDevice(s.driver, s.devices[device].gpu, works);
      if r.Err? then (logged.(driver := d), Failed(r.error))
      else
        (logged.(
           driver := d,
           devices := s.devices - {device},
           deviceCaps := s.deviceCaps - {device},
           resources := ResourcesBut(s.resources, device),
           shaders := ShadersBut(s.shaders, device),
           pipelines := PipelinesBut(s.pipelines, device)), Done)
  }

  function DeviceCreated(s0: State, gpu: ObjectId, caps: CapabilitySet, id: ObjectId, q: (ObjectId, ObjectId, ObjectId))
    : (State, Reply)
  {
    var s := Drew(s0, {id, q.0, q.1, q.2});
    var granted := GpuMemoryAlloc in caps;
    var logged := Audited(s, gpu, "create_device", granted);
    if !granted then (logged, Failed(Security))
    else if gpu !in s.driver.gpus then (logged, Failed(Device))
    else
      (logged.(devices := s.devices[id := DeviceFor(gpu, id, q)], deviceCaps := s.deviceCaps[id := caps]), Made(id))
  }

  function TimelineCreated(s0: State, device: ObjectId, id: ObjectId): (State, Reply) {
    var s := Drew(s0, {id});
    if device !in s.devices then (s, Failed(Device))
    else (s.(timelines := s.timelines[id := 0]), Made(id))
  }

  /** A stream is the caller's: the runtime keeps nothing of it. */
  function StreamCreated(s0: State, device: ObjectId, id: ObjectId): (State, Reply) {
    var s := Drew(s0, {id});
    if device !in s.devices then (s, Failed(Device)) else (s, Made(id))
  }

  function ResourceCreated(s0: State, device: ObjectId, kind: ResourceKind, memory: MemoryClass, id: ObjectId)
    : (State, Reply)
  {
    var s := Drew(s0, {id});
    if device !in s.devices then (s, Failed(Device))
    else
      var (d, r) := AllocateVram(s.driver, s.devices[device].gpu, ResourceSize(kind), memory, id);
      if r.Err? then (s.(driver := d), Failed(r.error))
      else (s.(driver := d, resources := s.resources[id := Resource(id, device, kind, memory)]), Made(id))
  }

  function ShaderCreated(s0: State, device: ObjectId, stage: ShaderStage, ir: seq<bv8>, id: ObjectId): (State, Reply) {
    var s := Drew(s0, {id});
    if device !in s.devices then (s, Failed(Device))
    else (s.(shaders := s.shaders[id := ShaderModule(id, device, stage, ir)]), Made(id))
  }

  function PipelineCreated(s0: State, device: ObjectId, shader: ObjectId, workload: WorkloadClass, id: ObjectId)
    : (State, Reply)
  {
    var s := Drew(s0, {id});
    if device !in s.devices || shader !in s.shaders then (s, Failed(Device))
    else (s.(pipelines := s.pipelines[id := Pipeline(id, device, workload, shader)]), Made(id))
  }

  function ResourceFreed(s: State, id: ObjectId): (State, Reply) {
    if id !in s.resources then (s, Failed(Memory))
    else
      var (d, r) := FreeVram(s.driver, id);
      (s.(resources := s.resources - {id}, driver := d), if r.Ok? then Done else Failed(r.error))
  }

  /** driver_mut: only an admin reaches the driver, here to set or clear a fault. */
  function FaultSet(s: State, caps: CapabilitySet, gpu: ObjectId, fault: Option<Fault>): (State, Reply) {
    if GpuAdmin !in caps then (s, Failed(Security))
    else (s.(driver := SetFault(s.driver, gpu, fault)), Done)
  }

  /** One operation on the runtime, and what its caller hears. */
  ghost function Step(s: State, op: Op): (State, Reply) {
    match op
    case CreateDevice(gpu, caps, id, q) => DeviceCreated(s, gpu, caps, id, q)
    case CreateTimeline(device, id) => TimelineCreated(s, device, id)
    case CreateCommandStream(device, _, id) => StreamCreated(s, device, id)
    case CreateResource(device, kind, memory, id) => ResourceCreated(s, device, kind, memory, id)
    case CreateShaderModule(device, stage, ir, id) => ShaderCreated(s, device, stage, ir, id)
    case CreatePipeline(device, shader, workload, id) => PipelineCreated(s, device, shader, workload, id)
    case SubmitStream(queue, stream, timeline, signal, outcome) =>
      Submitted(s, queue, stream, timeline, signal, outcome)
    case FreeResource(id) => ResourceFreed(s, id)
    case RecoverDevice(device, caps, works) => Recovered(s, device, caps, works)
    case InjectFault(caps, gpu, address, description) =>
      FaultSet(s, caps, gpu, Some(Fault(gpu, address, description)))
    case ClearFault(caps, gpu) => FaultSet(s, caps, gpu, None)
  }

  function Wait(s: State, timeline: ObjectId, value: u64): Result<()> {
    if timeline !in s.timelines then Err(Device)
    else if s.timelines[timeline] >= value then Ok(())
    else Err(Device)
  }

  class GraphicsRuntime {
    var driver: Driver
    var devices: map<ObjectId, GraphicsDevice>
    var deviceCaps: map<ObjectId, CapabilitySet>
    var resources: map<ObjectId, Resource>
    var shaders: map<ObjectId, ShaderModule>
    var pipelines: map<ObjectId, Pipeline>
    var timelines: map<ObjectId, u64>
    var audit: seq<AuditEntry>
    ghost var used: set<ObjectId>

    ghost function Whole(): State
      reads this
    {
      State(driver, devices, deviceCaps, resources, shaders, pipelines, timelines, audit, used)
    }

    constructor (driver: Driver, ghost used: set<ObjectId>)
      ensures Whole() == Initial(driver, used)
    {
      this.driver := driver;
      this.used := used;
      devices := map[];
      deviceCaps := map[];
      resources := map[];
      shaders := map[];
      pipelines := map[];
      timelines := map[];
      audit := [];
    }

    method Log(actor: ObjectId, action: string, authorized: bool)
      modifies this`audit
      ensures audit == old(audit) + [AuditEntry(actor, action, authorized)]
    {
      audit := audit + [AuditEntry(actor, action, authorized)];
    }

    method CreateDevice(gpu: ObjectId, caps: CapabilitySet, newId: ObjectId, queueIds: (ObjectId, ObjectId, ObjectId))
      returns (r: Result<GraphicsDevice>)
      modifies this
      ensures (Whole(), ReplyOf(r, newId)) == Step(old(Whole()), Op.CreateDevice(gpu, caps, newId, queueIds))
      ensures r.Ok? ==> newId in devices && r.value == devices[newId]
    {
      used := used + Drawn(Op.CreateDevice(gpu, caps, newId, queueIds));
      var authorized := RequireCapability(caps, GpuMemoryAlloc);
      Log(gpu, "create_device", authorized.Ok?);
      if authorized.Err? {
        return Err(authorized.error);
      }
      if gpu !in driver.gpus {
        return Err(Device);
      }
      var device := DeviceFor(gpu, newId, queueIds);
      devices := devices[newId := device];
      deviceCaps := deviceCaps[newId := caps];
      return Ok(device);
    }

    method CreateTimeline(device: ObjectId, newId: ObjectId) returns (r: Result<Timeline>)
      modifies this
      ensures (Whole(), ReplyOf(r, newId)) == Step(old(Whole()), Op.CreateTimeline(device, newId))
      ensures r.Ok? ==> r.value == Timeline(newId, device, 0)
    {
      used := used + {newId};
      if device !in devices {
        return Err(Device);
      }
      timelines := timelines[newId := 0];
      return Ok(Timeline(newId, device, 0));
    }

    method CreateCommandStream(device: ObjectId, target: WorkloadClass, newId: ObjectId) returns (r: Result<CommandStream>)
      modifies this
      ensures (Whole(), ReplyOf(r, newId)) == Step(old(Whole()), Op.CreateCommandStream(device, target, newId))
      ensures r.Ok? ==> r.value == CommandStream(newId, device, target, [])
    {
      used := used + {newId};
      if device !in devices {
        return Err(Device);
      }
      return Ok(CommandStream(newId, device, target, []));
    }

    method CreateResource(device: ObjectId, kind: ResourceKind, memory: MemoryClass, newId: ObjectId)
      returns (r: Result<Resource>)
      modifies this
      ensures (Whole(), ReplyOf(r, newId)) == Step(old(Whole()), Op.CreateResource(device, kind, memory, newId))
      ensures r.Ok? ==> newId in resources && r.value == resources[newId]
    {
      used := used + {newId};
      if device !in devices {
        return Err(Device);
      }
      var gpu := devices[device].gpu;
      var (d, reserved) := AllocateVram(driver, gpu, ResourceSize(kind), memory, newId);
      driver := d;
      if reserved.Err? {
        return Err(reserved.error);
      }
      var resource := Resource(newId, device, kind, memory);
      resources := resources[newId := resource];
      return Ok(resource);
    }

    method CreateShaderModule(device: ObjectId, stage: ShaderStage, ir: seq<bv8>, newId: ObjectId)
      returns (r: Result<ShaderModule>)
      modifies this
      ensures (Whole(), ReplyOf(r, newId)) == Step(old(Whole()), Op.CreateShaderModule(device, stage, ir, newId))
      ensures r.Ok? ==> newId in shaders && r.value == shaders[newId]
    {
      used := used + {newId};
      if device !in devices {
        return Err(Device);
      }
      var shader := ShaderModule(newId, device, stage, ir);
      shaders := shaders[newId := shader];
      return Ok(shader);
    }

    method CreatePipeline(device: ObjectId, shader: ObjectId, workload: WorkloadClass, newId: ObjectId)
      returns (r: Result<Pipeline>)
      modifies this
      ensures (Whole(), ReplyOf(r, newId)) == Step(old(Whole()), Op.CreatePipeline(device, shader, workload, newId))
      ensures r.Ok? ==> newId in pipelines && r.value == pipelines[newId]
    {
      used := used + {newId};
      if device !in devices {
        return Err(Device);
      }
      if shader !in shaders {
        return Err(Device);
      }
      var pipeline := Pipeline(newId, device, workload, shader);
      pipelines := pipelines[newId := pipeline];
      return Ok(pipeline);
    }

    /** A driver call under catch_unwind: a caught panic is recorded as a fault of the GPU. */
    method SubmitCatchingPanics(gpu: ObjectId, workload: WorkloadClass, ops: seq<DriverOp>, outcome: SubmitOutcome)
      returns (r: Result<()>)
      modifies this`driver
      ensures (driver, r) == SubmitToDriver(old(driver), gpu, workload, ops, outcome)
    {
      match outcome {
        case Answers(answer) =>
          var (d, result) := SubmitBatch(driver, gpu, workload, ops, answer);
          driver := d;
          r := result;
        case Panics(message) =>
          driver := Mark(driver, gpu, message);
          r := Err(Device);
      }
    }

    method Submit(queue: QueueHandle, stream: CommandStream, timeline: ObjectId, signal: u64, outcome: SubmitOutcome)
      returns (r: Result<()>)
      modifies this
      ensures (Whole(), DoneOf(r)) == Step(old(Whole()), SubmitStream(queue, stream, timeline, signal, outcome))
    {
      if stream.target != queue.workload {
        return Err(Device);
      }
      if stream.device !in deviceCaps {
        return Err(Device);
      }
      var authorized := RequireCapability(deviceCaps[stream.device], GpuCommandSubmit);
      Log(stream.device, "submit", authorized.Ok?);
      if authorized.Err? {
        return Err(authorized.error);
      }
      if stream.device !in devices {
        return Err(Device);
      }
      var gpu := devices[stream.device].gpu;
      if timeline !in timelines {
        return Err(Device);
      }
      if signal <= timelines[timeline] {
        return Err(Device);
      }
      var valid := ValidateStream(stream, pipelines, resources);
      if valid.Err? {
        return Err(valid.error);
      }
      var submitted := SubmitCatchingPanics(gpu, queue.workload, TranslateOps(stream.ops), outcome);
      if submitted.Err? {
        return Err(submitted.error);
      }
      timelines := timelines[timeline := signal];
      return Ok(());
    }

    method FreeResource(resource: ObjectId) returns (r: Result<()>)
      modifies this
      ensures (Whole(), DoneOf(r)) == Step(old(Whole()), Op.FreeResource(resource))
    {
      if resource !in resources {
        return Err(Memory);
      }
      resources := resources - {resource};
      var (d, freed) := FreeVram(driver, resource);
      driver := d;
      return freed;
    }

    method RecoverDevice(device: ObjectId, caps: CapabilitySet, works: bool) returns (r: Result<()>)
      modifies this
      ensures (Whole(), DoneOf(r)) == Step(old(Whole()), Op.RecoverDevice(device, caps, works))
    {
      var authorized := RequireCapability(caps, GpuAdmin);
      Log(device, "recover_device", authorized.Ok?);
      if authorized.Err? {
        return Err(authorized.error);
      }
      if device !in devices {
        return Err(Device);
      }
      var (d, reset) := ResetDevice(driver, devices[device].gpu, works);
      driver := d;
      if reset.Err? {
        return Err(reset.error);
      }
      devices := devices - {device};
      deviceCaps := deviceCaps - {device};
      resources := ResourcesBut(resources, device);
      shaders := ShadersBut(shaders, device);
      pipelines := PipelinesBut(pipelines, device);
      return Ok(());
    }

    /** driver_mut(caps)?.inject_fault(..) */
    method InjectFault(caps: CapabilitySet, gpu: ObjectId, address: u64, description: string) returns (r: Result<()>)
      modifies this
      ensures (Whole(), DoneOf(r)) == Step(old(Whole()), Op.InjectFault(caps, gpu, address, description))
    {
      r := RequireCapability(caps, GpuAdmin);
      if r.Ok? {
        driver := SetFault(driver, gpu, Some(Fault(gpu, address, description)));
      }
    }

    /** driver_mut(caps)?.clear_fault(..) */
    method ClearFault(caps: CapabilitySet, gpu: ObjectId) returns (r: Result<()>)
      modifies this
      ensures (Whole(), DoneOf(r)) == Step(old(Whole()), Op.ClearFault(caps, gpu))
    {
      r := RequireCapability(caps, GpuAdmin);
      if r.Ok? {
        driver := SetFault(driver, gpu, None);
      }
    }

    method TimelineValue(timeline: ObjectId) returns (r: Result<u64>)
      ensures r == if timeline in timelines then Ok(timelines[timeline]) else Err(Device)
    {
      if timeline !in timelines {
        return Err(Device);
      }
      return Ok(timelines[timeline]);
    }

    method WaitFor(timeline: ObjectId, value: u64) returns (r: Result<()>)
      ensures r == Wait(Whole(), timeline, value)
    {
      var current := TimelineValue(timeline);
      if current.Err? {
        return Err(current.error);
      }
      if current.value >= value {
        return Ok(());
      }
      return Err(Device);
    }
  }

  function ReplyOf<T>(r: Result<T>, id: ObjectId): Reply {
    match r case Ok(_) => Made(id) case Err(e) => Failed(e)
  }

  function DoneOf(r: Result<()>): Reply {
    match r case Ok(_) => Done case Err(e) => Failed(e)
  }
}
