/**
 * When each operation of the runtime succeeds, with which class of error it fails otherwise, and
 * exactly what a success adds: stated against the tables, the formats and the executing machine.
 */
module RuntimeOutcomes {
  import opened Common
  import opened GraphicsApi
  import opened CommandStreams
  import opened GpuDriver
  import opened RuntimeCore
  import opened RuntimeInvariants
  import opened RuntimeHistories
  import opened RuntimeContainment

  // ---------- Creations ----------

  ghost predicate Known(s: State, gpu: ObjectId) { gpu in s.driver.gpus }

  /** A device is made for a known GPU and a caller who may allocate, with one queue of each class. */
  lemma CreateDeviceMakes(s: State, gpu: ObjectId, caps: CapabilitySet, id: ObjectId, q: (ObjectId, ObjectId, ObjectId))
    ensures var (s', reply) := Step(s, CreateDevice(gpu, caps, id, q));
            && (reply == Made(id) <==> GpuMemoryAlloc in caps && Known(s, gpu))
            && (reply == Failed(Security) <==> GpuMemoryAlloc !in caps)
            && (reply == Made(id) || reply == Failed(Security) || reply == Failed(Device))
            && (reply == Made(id) ==>
                  var queues := [QueueHandle(q.0, Graphics), QueueHandle(q.1, WorkloadClass.Compute), QueueHandle(q.2, Transfer)];
                  && s'.devices == s.devices[id := GraphicsDevice(id, gpu, queues)]
                  && s'.deviceCaps == s.deviceCaps[id := caps])
  {
  }

  lemma CreateTimelineMakes(s: State, device: ObjectId, id: ObjectId)
    ensures var (s', reply) := Step(s, CreateTimeline(device, id));
            && reply == (if device in s.devices then Made(id) else Failed(Device))
            && s' == s.(used := s.used + {id},
                        timelines := if device in s.devices then s.timelines[id := 0] else s.timelines)
  {
  }

  lemma CreateCommandStreamMakes(s: State, device: ObjectId, target: WorkloadClass, id: ObjectId)
    ensures var (s', reply) := Step(s, CreateCommandStream(device, target, id));
            && reply == (if device in s.devices then Made(id) else Failed(Device)) && s' == s.(used := s.used + {id})
  {
  }

  /**
   * A resource is made on a live device exactly when all channels of all its texels, modulo 2^64, fit
   * in what its GPU has free; that much is then taken, in the resource's name.
   */
  lemma CreateResourceMakes(s: State, device: ObjectId, kind: ResourceKind, memory: MemoryClass, id: ObjectId)
    requires Coupled(s)
    ensures var (s', reply) := Step(s, CreateResource(device, kind, memory, id));
            var size := Wrap(IdealSize(kind));
            && (reply == Failed(Device) <==> device !in s.devices)
            && (device in s.devices ==>
                  var gpu := s.devices[device].gpu;
                  && Known(s, gpu)
                  && reply == (if size <= s.driver.gpus[gpu].available then Made(id) else Failed(Memory))
                  && (reply == Made(id) ==>
                        && s'.resources == s.resources[id := Resource(id, device, kind, memory)]
                        && s'.driver.claims == s.driver.claims[id := Claim(gpu, memory, size)]
                        && s'.driver.gpus[gpu] == Gpu(s.driver.gpus[gpu].available - size, s.driver.gpus[gpu].fault)))
  {
    ResourceSizeIsIdealModulo(kind);
    assert Step(s, CreateResource(device, kind, memory, id)) == ResourceCreated(s, device, kind, memory, id);
  }

  lemma CreateShaderModuleMakes(s: State, device: ObjectId, stage: ShaderStage, ir: seq<bv8>, id: ObjectId)
    ensures var (s', reply) := Step(s, CreateShaderModule(device, stage, ir, id));
            && reply == (if device in s.devices then Made(id) else Failed(Device))
            && s' == s.(used := s.used + {id},
                        shaders := if device in s.devices then s.shaders[id := ShaderModule(id, device, stage, ir)] else s.shaders)
  {
  }

  lemma CreatePipelineMakes(s: State, device: ObjectId, shader: ObjectId, workload: WorkloadClass, id: ObjectId)
    ensures var (s', reply) := Step(s, CreatePipeline(device, shader, workload, id));
            var fine := device in s.devices && shader in s.shaders;
            && reply == (if fine then Made(id) else Failed(Device))
            && s' == s.(used := s.used + {id},
                        pipelines := if fine then s.pipelines[id := Pipeline(id, device, workload, shader)] else s.pipelines)
  {
  }

  // ---------- Submission, freeing, recovery, waiting ----------

  ghost predicate Healthy(s: State, device: ObjectId) {
    device in s.devices && Known(s, s.devices[device].gpu) && s.driver.gpus[s.devices[device].gpu].fault.None?
  }

  ghost predicate Granted(s: State, device: ObjectId, capability: Capability) {
    device in s.deviceCaps && capability in s.deviceCaps[device]
  }

  /** The whole stream can be executed. */
  ghost predicate Executable(s: State, stream: CommandStream) {
    exists trace :: Executes(ObjectsOf(s), stream.device, stream.ops, trace)
  }

  lemma ExecutableIffAccepted(s: State, stream: CommandStream)
    ensures Executable(s, stream) <==> Accepts(ObjectsOf(s), stream.device, None, stream.ops)
  {
    ExecutesIffAccepted(ObjectsOf(s), stream.device, stream.ops, Events(None, stream.ops));
    forall trace
      ensures Executes(ObjectsOf(s), stream.device, stream.ops, trace) ==>
                Accepts(ObjectsOf(s), stream.device, None, stream.ops)
    {
      ExecutesIffAccepted(ObjectsOf(s), stream.device, stream.ops, trace);
    }
  }

  /**
   * A submit succeeds exactly when the classes match, the device was granted submission, the timeline
   * would move forward, the stream executes to its end, the GPU has no fault and the driver accepts;
   * it is a security error exactly for a matching submit to a live device without the grant.
   */
  lemma SubmitSucceedsIff(
      s: State, queue: QueueHandle, stream: CommandStream, timeline: ObjectId, signal: u64, outcome: SubmitOutcome)
    requires Coupled(s)
    ensures var reply := Step(s, SubmitStream(queue, stream, timeline, signal, outcome)).1;
            && (reply == Done <==>
                  && stream.target == queue.workload && Granted(s, stream.device, GpuCommandSubmit)
                  && timeline in s.timelines && signal > s.timelines[timeline] && Executable(s, stream)
                  && Healthy(s, stream.device) && outcome == Answers(Accept))
            && (reply == Failed(Security) <==>
                  && stream.target == queue.workload && stream.device in s.devices
                  && !Granted(s, stream.device, GpuCommandSubmit))
            && (reply == Done || reply == Failed(Security) || reply == Failed(Device))
  {
    ExecutableIffAccepted(s, stream);
    assert Step(s, SubmitStream(queue, stream, timeline, signal, outcome))
        == Submitted(s, queue, stream, timeline, signal, outcome);
  }

  /** Recovery succeeds exactly for an admin, on a live device, if the driver resets it. */
  lemma RecoverSucceedsIff(s: State, device: ObjectId, caps: CapabilitySet, works: bool)
    requires Coupled(s)
    ensures var (s', reply) := Step(s, RecoverDevice(device, caps, works));
            && (reply == Done <==> GpuAdmin in caps && device in s.devices && works)
            && (reply == Failed(Security) <==> GpuAdmin !in caps)
            && (reply == Done || reply == Failed(Security) || reply == Failed(Device))
  {
    assert Step(s, RecoverDevice(device, caps, works)) == Recovered(s, device, caps, works);
  }

  lemma LiveIsClaimed(s: State, id: ObjectId)
    requires Coupled(s) && id in s.resources
    ensures s.resources[id].device in s.devices
    ensures id in s.driver.claims
    ensures s.driver.claims[id].device == s.devices[s.resources[id].device].gpu
    ensures s.driver.claims[id].size == Wrap(IdealSize(s.resources[id].kind))
  {
    assert Backed(s, id);
    ResourceSizeIsIdealModulo(s.resources[id].kind);
  }

  /** Freeing gives the GPU back just the resource's bytes; an unknown id is a memory error. */
  lemma FreeGivesBack(s: State, id: ObjectId, totals: map<ObjectId, u64>)
    requires Coupled(s) && Conserved(s.driver, totals)
    ensures id !in s.resources ==> ResourceFreed(s, id) == (s, Failed(Memory))
    ensures id in s.resources ==>
              var (s', reply) := ResourceFreed(s, id);
              && reply == Done && s'.resources == s.resources - {id} && s'.driver.claims == s.driver.claims - {id}
              && s.resources[id].device in s.devices
              && var gpu := s.devices[s.resources[id].device].gpu;
                 && gpu in s.driver.gpus && gpu in s'.driver.gpus
                 && s'.driver.gpus[gpu].available
                    == s.driver.gpus[gpu].available + Wrap(IdealSize(s.resources[id].kind))
  {
    if id in s.resources {
      LiveIsClaimed(s, id);
      FreeIsExact(s.driver, id, totals);
    }
  }

  /** A wait fails only with a device error. */
  lemma WaitFailsAsDevice(s: State, timeline: ObjectId, value: u64)
    ensures Wait(s, timeline, value).Ok? <==> timeline in s.timelines && s.timelines[timeline] >= value
    ensures Wait(s, timeline, value).Err? ==> Wait(s, timeline, value).error == Device
  {
  }

  /** A reply says whether the method's result was Ok, and with which class of error it was not. */
  lemma RepliesAreResults<T>(r: Result<T>, done: Result<()>, id: ObjectId)
    ensures (ReplyOf(r, id) == Made(id) <==> r.Ok?) && (DoneOf(done) == Done <==> done.Ok?)
    ensures forall e :: (ReplyOf(r, id) == Failed(e) <==> r == Err(e)) && (DoneOf(done) == Failed(e) <==> done == Err(e))
  {
  }

  // ---------- Queues ----------

  /** One queue of each workload class, in the order they are made, with ids of their own. */
  ghost predicate HasEveryQueue(d: GraphicsDevice) {
    && |d.queues| == 3
    && d.queues[0].workload == Graphics && d.queues[1].workload == WorkloadClass.Compute && d.queues[2].workload == Transfer
    && d.queues[0].id != d.queues[1].id && d.queues[0].id != d.queues[2].id && d.queues[1].id != d.queues[2].id
  }

  ghost predicate EveryDeviceQueued(s: State) {
    forall d :: d in s.devices ==> s.devices[d].id == d && HasEveryQueue(s.devices[d])
  }

  lemma CreateKeepsQueues(s: State, gpu: ObjectId, caps: CapabilitySet, id: ObjectId, q: (ObjectId, ObjectId, ObjectId))
    requires EveryDeviceQueued(s) && q.0 != q.1 && q.0 != q.2 && q.1 != q.2
    ensures EveryDeviceQueued(DeviceCreated(s, gpu, caps, id, q).0)
  {
  }

  lemma RecoverKeepsQueues(s: State, device: ObjectId, caps: CapabilitySet, works: bool)
    requires EveryDeviceQueued(s)
    ensures EveryDeviceQueued(Recovered(s, device, caps, works).0)
  {
  }

  lemma StepKeepsQueues(s: State, op: Op)
    requires EveryDeviceQueued(s) && DrawsNew(s, op)
    ensures EveryDeviceQueued(Step(s, op).0)
  {
    match op
    case CreateDevice(gpu, caps, id, q) => CreateKeepsQueues(s, gpu, caps, id, q);
    case RecoverDevice(device, caps, works) => RecoverKeepsQueues(s, device, caps, works);
    case SubmitStream(queue, stream, timeline, signal, outcome) =>
      SubmitFrame(s, queue, stream, timeline, signal, outcome);
    case _ => OthersKeepDevices(s, op);
  }

  /** In every reachable state every device has exactly one queue of each class. */
  lemma {:induction false} RunKeepsQueues(states: seq<State>, ops: seq<Op>, replies: seq<Reply>, n: nat)
    requires IsRun(states, ops, replies) && n <= |ops| && EveryDeviceQueued(states[0])
    ensures EveryDeviceQueued(states[n])
  {
    if n == 0 {
    } else {
      RunKeepsQueues(states, ops, replies, n - 1);
      assert Link(states, ops, replies, n - 1);
      StepKeepsQueues(states[n - 1], ops[n - 1]);
    }
  }

  /**
   * A stream of any class has just one queue of its own device on which submit gets past the class
   * check, and so to its audited verdict.
   */
  lemma StreamHasItsQueue(s: State, stream: CommandStream, timeline: ObjectId, signal: u64, outcome: SubmitOutcome)
    returns (k: nat)
    requires Coupled(s) && EveryDeviceQueued(s) && stream.device in s.devices
    ensures k < 3 == |s.devices[stream.device].queues|
    ensures forall j :: 0 <= j < 3 ==>
              (Submitted(s, s.devices[stream.device].queues[j], stream, timeline, signal, outcome).0.audit == s.audit
               <==> j != k)
  {
    var queues := s.devices[stream.device].queues;
    k := match stream.target case Graphics => 0 case Compute => 1 case Transfer => 2;
    forall j | 0 <= j < 3
      ensures Submitted(s, queues[j], stream, timeline, signal, outcome).0.audit == s.audit <==> j != k
    {
      SubmitAudits(s, queues[j], stream, timeline, signal, outcome);
    }
  }

  // ---------- Where faults come from ----------

  /** Without GpuAdmin driver_mut reaches nothing; with it, the named GPU's fault is just the one given, or none. */
  lemma DriverMutIsGated(s: State, op: Op)
    requires op.InjectFault? || op.ClearFault?
    ensures GpuAdmin !in op.caps ==> Step(s, op) == (s, Failed(Security))
    ensures GpuAdmin in op.caps ==>
              var (s', reply) := Step(s, op);
              && reply == Done && s' == s.(driver := s'.driver) && s'.driver == s.driver.(gpus := s'.driver.gpus)
              && s'.driver.gpus.Keys == s.driver.gpus.Keys
              && forall g :: g in s.driver.gpus ==>
                   s'.driver.gpus[g] ==
                   if g != op.gpu then s.driver.gpus[g]
                   else Gpu(s.driver.gpus[g].available,
                            if op.InjectFault? then Some(Fault(g, op.address, op.description)) else None)
  {
  }

  /** The fault the operation puts on g: an admin's, a caught panic's or a lost device's. */
  ghost function Brings(s: State, op: Op, g: ObjectId): Option<Fault> {
    match op
    case InjectFault(caps, gpu, address, description) =>
      if GpuAdmin in caps && gpu == g then Some(Fault(g, address, description)) else None
    case SubmitStream(_, stream, _, _, outcome) =>
      if !ReachesDriver(s, op) || !OnGpu(s, stream.device, g) then None
      else (match outcome
            case Panics(message) => Some(Fault(g, 0, message))
            case Answers(Lose(text)) => Some(Fault(g, 0, text))
            case _ => None)
    case _ => None
  }

  lemma SubmitBrings(s: State, op: Op, g: ObjectId)
    requires op.SubmitStream? && g in s.driver.gpus && s.driver.gpus[g].fault.None?
    ensures g in Step(s, op).0.driver.gpus && Step(s, op).0.driver.gpus[g].fault == Brings(s, op, g)
  {
  }

  lemma OthersBringNothing(s: State, op: Op, g: ObjectId)
    requires !op.SubmitStream? && !op.InjectFault? && g in s.driver.gpus && s.driver.gpus[g].fault.None?
    ensures g in Step(s, op).0.driver.gpus && Step(s, op).0.driver.gpus[g].fault.None?
  {
    match op
    case CreateResource(device, kind, memory, id) => assert Step(s, op) == ResourceCreated(s, device, kind, memory, id);
    case FreeResource(id) => assert Step(s, op) == ResourceFreed(s, id);
    case RecoverDevice(device, caps, works) => assert Step(s, op) == Recovered(s, device, caps, works);
    case ClearFault(caps, gpu) => DriverMutIsGated(s, op);
    case _ => CreatesReachNoDriver(s, op);
  }

  /** A healthy GPU gets a fault exactly by what brings one, and exactly that fault. */
  lemma FaultIsBrought(s: State, op: Op, g: ObjectId)
    requires g in s.driver.gpus && s.driver.gpus[g].fault.None?
    ensures g in Step(s, op).0.driver.gpus && Step(s, op).0.driver.gpus[g].fault == Brings(s, op, g)
  {
    if op.SubmitStream? {
      SubmitBrings(s, op, g);
    } else if op.InjectFault? {
      DriverMutIsGated(s, op);
    } else {
      OthersBringNothing(s, op, g);
    }
  }

  ghost predicate BroughtAt(states: seq<State>, ops: seq<Op>, g: ObjectId, i: nat)
    requires i < |ops| && i < |states|
  {
    Brings(states[i], ops[i], g).Some?
  }

  lemma NewFaultIsBrought(s: State, op: Op, g: ObjectId)
    requires g in s.driver.gpus && !Faulted(s, g) && Faulted(Step(s, op).0, g)
    ensures Brings(s, op, g).Some?
  {
    FaultIsBrought(s, op, g);
  }

  /** Over a run, a fault on a GPU that was healthy was brought by some operation since. */
  lemma {:induction false} FaultHasACause(
      states: seq<State>, ops: seq<Op>, replies: seq<Reply>, g: ObjectId, n: nat) returns (i: nat)
    requires IsRun(states, ops, replies) && n <= |ops|
    requires g in states[0].driver.gpus && !Faulted(states[0], g) && Faulted(states[n], g)
    ensures i < n && BroughtAt(states, ops, g, i)
  {
    if Faulted(states[n - 1], g) {
      i := FaultHasACause(states, ops, replies, g, n - 1);
    } else {
      i := n - 1;
      assert Link(states, ops, replies, i);
      GpusStay(states, ops, replies, i);
      NewFaultIsBrought(states[i], ops[i], g);
    }
  }

  lemma CallKeepsGpus(d: Driver, c: Call)
    ensures Apply(d, c).0.gpus.Keys == d.gpus.Keys
  {
  }

  lemma StepKeepsGpus(s: State, op: Op)
    ensures Step(s, op).0.driver.gpus.Keys == s.driver.gpus.Keys
  {
    if op.InjectFault? || op.ClearFault? {
      DriverMutIsGated(s, op);
    } else {
      var calls := TraitCalls(s, op);
      DriverChangesByTraitCalls(s, op);
      if calls != [] {
        assert calls == [calls[0]];
        AfterOne(s.driver, calls[0]);
        CallKeepsGpus(s.driver, calls[0]);
      }
    }
  }

  lemma {:induction false} GpusStay(states: seq<State>, ops: seq<Op>, replies: seq<Reply>, n: nat)
    requires IsRun(states, ops, replies) && n <= |ops|
    ensures states[n].driver.gpus.Keys == states[0].driver.gpus.Keys
  {
    if n > 0 {
      GpusStay(states, ops, replies, n - 1);
      assert Link(states, ops, replies, n - 1);
      StepKeepsGpus(states[n - 1], ops[n - 1]);
    }
  }
}
