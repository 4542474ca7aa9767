/** Faults, tear-down and stream stability over whole runs of the runtime. */
module RuntimeContainment {
  import opened Common
  import opened GraphicsApi
  import opened CommandStreams
  import opened GpuDriver
  import opened RuntimeCore
  import opened RuntimeInvariants
  import opened RuntimeHistories

  // ---------- Fault containment ----------

  ghost predicate Faulted(s: State, g: ObjectId) {
    g in s.driver.gpus && s.driver.gpus[g].fault.Some?
  }

  ghost predicate OnGpu(s: State, device: ObjectId, g: ObjectId) {
    device in s.devices && s.devices[device].gpu == g
  }

  /** An operation that presents GpuAdmin and clears g's fault. */
  ghost predicate Clears(s: State, op: Op, g: ObjectId) {
    match op
    case RecoverDevice(device, caps, works) => GpuAdmin in caps && OnGpu(s, device, g) && works
    case ClearFault(caps, gpu) => GpuAdmin in caps && gpu == g
    case _ => false
  }

  lemma SubmitToFaulted(
      s: State, queue: QueueHandle, stream: CommandStream, timeline: ObjectId, signal: u64, outcome: SubmitOutcome, g: ObjectId)
    requires Faulted(s, g)
    ensures var (s', reply) := Submitted(s, queue, stream, timeline, signal, outcome);
            Faulted(s', g) && (OnGpu(s, stream.device, g) ==> reply.Failed? && s'.timelines == s.timelines)
  {
  }

  lemma RecoverFaulted(s: State, device: ObjectId, caps: CapabilitySet, works: bool, g: ObjectId)
    requires Faulted(s, g)
    ensures Faulted(Recovered(s, device, caps, works).0, g) <==> !(GpuAdmin in caps && OnGpu(s, device, g) && works)
  {
  }

  lemma ResourceOpsKeepFaults(s: State, op: Op, g: ObjectId)
    requires Faulted(s, g) && (op.CreateResource? || op.FreeResource?)
    ensures Faulted(Step(s, op).0, g)
  {
  }

  lemma DriverMutFaults(s: State, op: Op, g: ObjectId)
    requires Faulted(s, g) && (op.InjectFault? || op.ClearFault?)
    ensures Faulted(Step(s, op).0, g) <==> !Clears(s, op, g)
  {
  }

  /** A fault goes away exactly by an operation that presents GpuAdmin and clears it. */
  lemma FaultClearedIff(s: State, op: Op, g: ObjectId)
    requires Faulted(s, g)
    ensures Faulted(Step(s, op).0, g) <==> !Clears(s, op, g)
  {
    if op.SubmitStream? {
      SubmitToFaulted(s, op.queue, op.stream, op.timeline, op.signal, op.outcome, g);
    } else if op.RecoverDevice? {
      RecoverFaulted(s, op.device, op.caps, op.works, g);
    } else if op.CreateResource? || op.FreeResource? {
      ResourceOpsKeepFaults(s, op, g);
    } else if op.InjectFault? || op.ClearFault? {
      DriverMutFaults(s, op, g);
    } else {
      CreatesReachNoDriver(s, op);
    }
  }

  /**
   * Containment: from any fault on g until an admin clears it, however long, g stays faulted, and no
   * submission of any device on g succeeds or moves a timeline.
   */
  lemma {:induction false} FaultsAreContained(states: seq<State>, ops: seq<Op>, replies: seq<Reply>, g: ObjectId, n: nat)
    requires IsRun(states, ops, replies) && n <= |ops| && Faulted(states[0], g)
    requires forall i :: 0 <= i < n ==> !Clears(states[i], ops[i], g)
    ensures Faulted(states[n], g)
    ensures forall i :: 0 <= i < n && ops[i].SubmitStream? && OnGpu(states[i], ops[i].stream.device, g) ==>
              replies[i].Failed? && states[i + 1].timelines == states[i].timelines
  {
    if n == 0 {
    } else {
      FaultsAreContained(states, ops, replies, g, n - 1);
      var s, op := states[n - 1], ops[n - 1];
      assert Link(states, ops, replies, n - 1);
      FaultClearedIff(s, op, g);
      if op.SubmitStream? {
        SubmitToFaulted(s, op.queue, op.stream, op.timeline, op.signal, op.outcome, g);
      }
    }
  }

  /** The submit passes every check of the runtime, so the driver is called. */
  ghost predicate ReachesDriver(s: State, op: Op) {
    op.SubmitStream? && TraitCalls(s, op) != []
  }

  /** A caught panic and a lost device always leave a fault: mark_faulted is never a silent no-op. */
  lemma PanicAndLossAreRecorded(s: State, op: Op)
    requires Coupled(s) && ReachesDriver(s, op)
    requires op.outcome.Panics? || op.outcome.answer.Lose?
    ensures op.stream.device in s.devices && Faulted(Step(s, op).0, s.devices[op.stream.device].gpu)
    ensures Step(s, op).1.Failed?
  {
    var g := s.devices[op.stream.device].gpu;
    assert g in s.driver.gpus;
  }

  /** The submission panics, or loses the device. */
  ghost predicate Fails(outcome: SubmitOutcome) { outcome.Panics? || outcome.answer.Lose? }

  /**
   * "One context's failure does not take down others" is true of the bookkeeping exactly across GPUs:
   * after a submission that panics or loses its device, another one whose driver answers it as before,
   * and that would have succeeded, still does iff it is for another GPU. A driver whose answers to one
   * GPU depend on what happened on another keeps less: see SharedRenderThread for VulkanDriver.
   */
  lemma FailureBlocksExactlyItsGpu(s: State, failing: Op, other: Op)
    requires Coupled(s) && ReachesDriver(s, failing) && Fails(failing.outcome)
    requires other.SubmitStream? && Step(s, other).1 == Done
    ensures failing.stream.device in s.devices && other.stream.device in s.devices
    ensures Step(Step(s, failing).0, other).1 == Done <==>
            s.devices[other.stream.device].gpu != s.devices[failing.stream.device].gpu
  {
    PanicAndLossAreRecorded(s, failing);
    SubmitReachesDriver(s, other.queue, other.stream, other.timeline, other.signal, other.outcome);
    var s1 := Step(s, failing).0;
    var f, g := s.devices[failing.stream.device].gpu, s.devices[other.stream.device].gpu;
    FailureFrame(s, failing, g);
    if g == f {
      SubmitToFaulted(s1, other.queue, other.stream, other.timeline, other.signal, other.outcome, g);
    } else {
      SameSubmitSucceeds(s, s1, other);
    }
  }

  lemma FailureFrame(s: State, op: Op, g: ObjectId)
    requires Coupled(s) && ReachesDriver(s, op) && Fails(op.outcome)
    ensures op.stream.device in s.devices
    ensures var s' := Step(s, op).0;
            && s' == s.(audit := s'.audit, driver := s'.driver) && s'.driver.gpus.Keys == s.driver.gpus.Keys
            && (g in s.driver.gpus && g != s.devices[op.stream.device].gpu ==> s'.driver.gpus[g] == s.driver.gpus[g])
  {
  }

  lemma SameSubmitSucceeds(s: State, s1: State, op: Op)
    requires op.SubmitStream? && Step(s, op).1 == Done
    requires s1 == s.(audit := s1.audit, driver := s1.driver)
    requires op.stream.device in s.devices
    requires s.devices[op.stream.device].gpu in s1.driver.gpus && s.devices[op.stream.device].gpu in s.driver.gpus
    requires s1.driver.gpus[s.devices[op.stream.device].gpu] == s.driver.gpus[s.devices[op.stream.device].gpu]
    ensures Step(s1, op).1 == Done
  {
    assert ObjectsOf(s1) == ObjectsOf(s);
  }

  // ---------- Tear-down ----------

  ghost predicate NamesDevice(op: Op, d: ObjectId) {
    match op
    case CreateTimeline(device, _) => device == d
    case CreateCommandStream(device, _, _) => device == d
    case CreateResource(device, _, _, _) => device == d
    case CreateShaderModule(device, _, _, _) => device == d
    case CreatePipeline(device, _, _, _) => device == d
    case SubmitStream(_, stream, _, _, _) => stream.device == d
    case RecoverDevice(device, _, _) => device == d
    case _ => false
  }

  /** Recovery removes the target device with its objects, and nothing else but its fault. */
  lemma RecoveryRemovesExactly(s: State, device: ObjectId, caps: CapabilitySet, works: bool)
    requires Recovered(s, device, caps, works).1 == Done
    ensures var s' := Recovered(s, device, caps, works).0;
            && device in s.devices && s'.devices == s.devices - {device} && s'.deviceCaps == s.deviceCaps - {device}
            && (forall id :: id in s'.resources <==> id in s.resources && s.resources[id].device != device)
            && (forall id :: id in s'.shaders <==> id in s.shaders && s.shaders[id].device != device)
            && (forall id :: id in s'.pipelines <==> id in s.pipelines && s.pipelines[id].device != device)
            && Unaltered(ObjectsOf(s), ObjectsOf(s')) && s'.timelines == s.timelines
            && s'.driver.claims == s.driver.claims && s'.driver.accepted == s.driver.accepted
  {
  }

  lemma OthersFailOnDead(s: State, op: Op, d: ObjectId)
    requires d !in s.devices && NamesDevice(op, d) && !op.SubmitStream? && !op.RecoverDevice?
    ensures Step(s, op).1.Failed?
  {
  }

  /** A used id that is no device names no device after any operation, and every operation naming it fails. */
  lemma DeadDeviceStaysDead(s: State, op: Op, d: ObjectId)
    requires DrawsNew(s, op) && d in s.used && d !in s.devices && d !in s.deviceCaps
    ensures var (s', reply) := Step(s, op);
            d in s'.used && d !in s'.devices && d !in s'.deviceCaps && (NamesDevice(op, d) ==> reply.Failed?)
  {
    UsedOnlyGrows(s, op);
    DeviceStep(s, op, d);
    assert Registers(s, d, None);
    if op.CreateDevice? {
      assert op.newId in Drawn(op);
    } else if NamesDevice(op, d) && !op.SubmitStream? && !op.RecoverDevice? {
      OthersFailOnDead(s, op, d);
    }
  }

  lemma UsedOnlyGrows(s: State, op: Op)
    ensures s.used <= Step(s, op).0.used
  {
    match op
    case CreateDevice(gpu, caps, id, q) => assert Step(s, op) == DeviceCreated(s, gpu, caps, id, q);
    case CreateTimeline(device, id) => assert Step(s, op) == TimelineCreated(s, device, id);
    case CreateCommandStream(device, _, id) => assert Step(s, op) == StreamCreated(s, device, id);
    case CreateResource(device, kind, memory, id) => assert Step(s, op) == ResourceCreated(s, device, kind, memory, id);
    case CreateShaderModule(device, stage, ir, id) => assert Step(s, op) == ShaderCreated(s, device, stage, ir, id);
    case CreatePipeline(device, shader, workload, id) =>
      assert Step(s, op) == PipelineCreated(s, device, shader, workload, id);
    case FreeResource(id) => assert Step(s, op) == ResourceFreed(s, id);
    case RecoverDevice(device, caps, works) => assert Step(s, op) == Recovered(s, device, caps, works);
    case InjectFault(caps, gpu, address, description) =>
      assert Step(s, op) == FaultSet(s, caps, gpu, Some(Fault(gpu, address, description)));
    case ClearFault(caps, gpu) => assert Step(s, op) == FaultSet(s, caps, gpu, None);
    case SubmitStream(queue, stream, timeline, signal, outcome) =>
      SubmitFrame(s, queue, stream, timeline, signal, outcome);
  }

  /** The id of a recovered device is rejected by every later operation, in every continuation. */
  lemma {:induction false} RecoveredIdIsDead(states: seq<State>, ops: seq<Op>, replies: seq<Reply>, d: ObjectId, n: nat)
    requires IsRun(states, ops, replies) && 0 < n <= |ops| && Coupled(states[0])
    requires ops[0].RecoverDevice? && ops[0].device == d && replies[0] == Done
    ensures d in states[n].used && d !in states[n].devices && d !in states[n].deviceCaps
    ensures forall i :: 1 <= i < n && NamesDevice(ops[i], d) ==> replies[i].Failed?
  {
    assert Link(states, ops, replies, n - 1);
    if n == 1 {
      RecoveryRemovesExactly(states[0], d, ops[0].caps, ops[0].works);
      assert states[1].used == states[0].used;
    } else {
      RecoveredIdIsDead(states, ops, replies, d, n - 1);
      DeadDeviceStaysDead(states[n - 1], ops[n - 1], d);
    }
  }

  /** After a recovery, a surviving pipeline's shader is live exactly when it was not the recovered device's. */
  lemma ShaderSurvivesIff(s: State, device: ObjectId, caps: CapabilitySet, works: bool, p: ObjectId)
    requires Recovered(s, device, caps, works).1 == Done
    requires p in s.pipelines && s.pipelines[p].device != device && s.pipelines[p].shader in s.shaders
    ensures var s' := Recovered(s, device, caps, works).0;
            && p in s'.pipelines
            && (s'.pipelines[p].shader in s'.shaders <==> s.shaders[s.pipelines[p].shader].device != device)
  {
  }

  /** Every live pipeline's shader is live, and of the pipeline's own device. */
  ghost predicate ShadersLive(s: State) {
    forall p :: p in s.pipelines ==>
      s.pipelines[p].shader in s.shaders && s.shaders[s.pipelines[p].shader].device == s.pipelines[p].device
  }

  /** The check create_pipeline does not make. */
  ghost predicate PipelineOfOwnShader(s: State, op: Op) {
    op.CreatePipeline? && op.shader in s.shaders ==> s.shaders[op.shader].device == op.device
  }

  lemma CreateShaderKeepsShadersLive(s: State, device: ObjectId, stage: ShaderStage, ir: seq<bv8>, id: ObjectId)
    requires ShadersLive(s) && id !in s.shaders
    ensures ShadersLive(ShaderCreated(s, device, stage, ir, id).0)
  {
  }

  lemma CreatePipelineKeepsShadersLive(s: State, device: ObjectId, shader: ObjectId, workload: WorkloadClass, id: ObjectId)
    requires ShadersLive(s) && (shader in s.shaders ==> s.shaders[shader].device == device)
    ensures ShadersLive(PipelineCreated(s, device, shader, workload, id).0)
  {
  }

  lemma RecoverKeepsShadersLive(s: State, device: ObjectId, caps: CapabilitySet, works: bool)
    requires ShadersLive(s)
    ensures ShadersLive(Recovered(s, device, caps, works).0)
  {
  }

  lemma ResourceOpsKeepShaders(s: State, op: Op)
    requires op.CreateResource? || op.FreeResource?
    ensures Step(s, op).0.shaders == s.shaders && Step(s, op).0.pipelines == s.pipelines
  {
  }

  lemma CreatesKeepShaders(s: State, op: Op)
    requires op.CreateDevice? || op.CreateTimeline? || op.CreateCommandStream?
    ensures Step(s, op).0.shaders == s.shaders && Step(s, op).0.pipelines == s.pipelines
  {
    match op
    case CreateDevice(gpu, caps, id, q) => assert Step(s, op) == DeviceCreated(s, gpu, caps, id, q);
    case CreateTimeline(device, id) => assert Step(s, op) == TimelineCreated(s, device, id);
    case CreateCommandStream(device, _, id) => assert Step(s, op) == StreamCreated(s, device, id);
  }

  lemma DriverMutKeepsShaders(s: State, op: Op)
    requires op.InjectFault? || op.ClearFault?
    ensures Step(s, op).0.shaders == s.shaders && Step(s, op).0.pipelines == s.pipelines
  {
  }

  lemma StepKeepsShadersLive(s: State, op: Op)
    requires Coupled(s) && DrawsNew(s, op) && ShadersLive(s) && PipelineOfOwnShader(s, op)
    ensures ShadersLive(Step(s, op).0)
  {
    if op.CreateShaderModule? {
      assert op.newId in Drawn(op);
      CreateShaderKeepsShadersLive(s, op.device, op.stage, op.ir, op.newId);
    } else if op.CreatePipeline? {
      CreatePipelineKeepsShadersLive(s, op.device, op.shader, op.workload, op.newId);
    } else if op.RecoverDevice? {
      RecoverKeepsShadersLive(s, op.device, op.caps, op.works);
    } else if op.SubmitStream? {
      SubmitFrame(s, op.queue, op.stream, op.timeline, op.signal, op.outcome);
    } else if op.CreateResource? || op.FreeResource? {
      ResourceOpsKeepShaders(s, op);
    } else if op.InjectFault? || op.ClearFault? {
      DriverMutKeepsShaders(s, op);
    } else {
      CreatesKeepShaders(s, op);
    }
  }

  /** While every pipeline is made from a shader of its own device, every live pipeline's shader is live. */
  lemma {:induction false} RunKeepsShadersLive(states: seq<State>, ops: seq<Op>, replies: seq<Reply>, n: nat)
    requires IsRun(states, ops, replies) && n <= |ops| && Coupled(states[0]) && ShadersLive(states[0])
    requires forall i :: 0 <= i < n ==> PipelineOfOwnShader(states[i], ops[i])
    ensures ShadersLive(states[n])
  {
    if n == 0 {
    } else {
      RunKeepsShadersLive(states, ops, replies, n - 1);
      RunKeepsCoupled(states, ops, replies, n - 1);
      assert Link(states, ops, replies, n - 1);
      StepKeepsShadersLive(states[n - 1], ops[n - 1]);
    }
  }

  // ---------- Stability of accepted streams ----------

  lemma CreateAltersNoObject(s: State, op: Op)
    requires Coupled(s) && DrawsNew(s, op) && (op.CreateResource? || op.CreatePipeline?)
    ensures Unaltered(ObjectsOf(s), ObjectsOf(Step(s, op).0))
  {
    assert op.newId in Drawn(op);
  }

  lemma CreatesAlterNoObject(s: State, op: Op)
    requires op.CreateDevice? || op.CreateTimeline? || op.CreateCommandStream? || op.CreateShaderModule?
    ensures ObjectsOf(Step(s, op).0) == ObjectsOf(s)
  {
    match op
    case CreateDevice(gpu, caps, id, q) => assert Step(s, op) == DeviceCreated(s, gpu, caps, id, q);
    case CreateTimeline(device, id) => assert Step(s, op) == TimelineCreated(s, device, id);
    case CreateCommandStream(device, _, id) => assert Step(s, op) == StreamCreated(s, device, id);
    case CreateShaderModule(device, stage, ir, id) => assert Step(s, op) == ShaderCreated(s, device, stage, ir, id);
  }

  lemma DriverMutAltersNoObject(s: State, op: Op)
    requires op.InjectFault? || op.ClearFault?
    ensures ObjectsOf(Step(s, op).0) == ObjectsOf(s)
  {
  }

  lemma OpAltersNoObject(s: State, op: Op)
    requires Coupled(s) && DrawsNew(s, op)
    ensures Unaltered(ObjectsOf(s), ObjectsOf(Step(s, op).0))
  {
    if op.CreateResource? || op.CreatePipeline? {
      CreateAltersNoObject(s, op);
    } else if op.SubmitStream? {
      SubmitFrame(s, op.queue, op.stream, op.timeline, op.signal, op.outcome);
    } else if op.RecoverDevice? {
      assert Step(s, op) == Recovered(s, op.device, op.caps, op.works);
    } else if op.FreeResource? {
      assert Step(s, op) == ResourceFreed(s, op.resource);
    } else if op.InjectFault? || op.ClearFault? {
      DriverMutAltersNoObject(s, op);
    } else {
      CreatesAlterNoObject(s, op);
    }
  }

  lemma {:induction false} AcceptedNamesLive(
      o: Objects, device: ObjectId, bound: Option<ObjectId>, stream: seq<GraphicsOp>)
    requires Accepts(o, device, bound, stream)
    ensures forall op :: op in stream ==> NamesLive(o, op)
    decreases |stream|
  {
    if stream == [] {
    } else {
      AcceptedNamesLive(o, device, BoundAfterOp(bound, stream[0]), stream[1..]);
      assert stream == [stream[0]] + stream[1..];
    }
  }

  ghost predicate NamesResource(op: GraphicsOp, id: ObjectId) {
    (op.BindResource? && op.resource == id) || (op.Copy? && (op.src == id || op.dst == id))
  }

  /** The op names a pipeline or resource of device d. */
  ghost predicate NamesObjectOf(s: State, d: ObjectId, op: GraphicsOp) {
    match op
    case BindPipeline(p) => LivePipeline(ObjectsOf(s), d, p)
    case BindResource(_, r) => LiveResource(ObjectsOf(s), d, r)
    case Copy(src, dst) => LiveResource(ObjectsOf(s), d, src) || LiveResource(ObjectsOf(s), d, dst)
    case _ => false
  }

  /** The runtime operation takes away something the stream op names. */
  ghost predicate Threatens(s: State, op: Op, streamOp: GraphicsOp) {
    match op
    case FreeResource(id) => id in s.resources && NamesResource(streamOp, id)
    case RecoverDevice(device, _, _) => Step(s, op).1 == Done && NamesObjectOf(s, device, streamOp)
    case _ => false
  }

  /** No entry of the object tables goes. */
  ghost predicate KeepsEntries(o: Objects, o': Objects) {
    o.pipelines.Keys <= o'.pipelines.Keys && o.resources.Keys <= o'.resources.Keys
  }

  lemma OthersKeepEntries(s: State, op: Op)
    requires !op.FreeResource? && !op.RecoverDevice?
    ensures KeepsEntries(ObjectsOf(s), ObjectsOf(Step(s, op).0))
  {
    match op
    case SubmitStream(queue, stream, timeline, signal, outcome) =>
      SubmitFrame(s, queue, stream, timeline, signal, outcome);
    case CreateResource(device, kind, memory, id) => assert Step(s, op) == ResourceCreated(s, device, kind, memory, id);
    case CreatePipeline(device, shader, workload, id) =>
      assert Step(s, op) == PipelineCreated(s, device, shader, workload, id);
    case InjectFault(_, _, _, _) => DriverMutAltersNoObject(s, op);
    case ClearFault(_, _) => DriverMutAltersNoObject(s, op);
    case _ => CreatesAlterNoObject(s, op);
  }

  lemma ThreatIsLoss(s: State, op: Op, streamOp: GraphicsOp)
    requires NamesLive(ObjectsOf(s), streamOp)
    ensures NamesLive(ObjectsOf(Step(s, op).0), streamOp) <==> !Threatens(s, op, streamOp)
  {
    match op
    case FreeResource(id) => assert Step(s, op) == ResourceFreed(s, id);
    case RecoverDevice(device, caps, works) => assert Step(s, op) == Recovered(s, device, caps, works);
    case _ => OthersKeepEntries(s, op);
  }

  /**
   * An accepted stream stays accepted across an operation exactly when the operation takes away
   * nothing it names: a resource freed, or an object of a device recovered.
   */
  lemma StreamStaysIff(s: State, op: Op, device: ObjectId, stream: seq<GraphicsOp>)
    requires Coupled(s) && DrawsNew(s, op) && Accepts(ObjectsOf(s), device, None, stream)
    ensures Accepts(ObjectsOf(Step(s, op).0), device, None, stream) <==>
            forall o :: o in stream ==> !Threatens(s, op, o)
  {
    AcceptedNamesLive(ObjectsOf(s), device, None, stream);
    OpAltersNoObject(s, op);
    StaysAcceptedIff(ObjectsOf(s), ObjectsOf(Step(s, op).0), device, None, stream);
    forall o | o in stream ensures NamesLive(ObjectsOf(Step(s, op).0), o) <==> !Threatens(s, op, o) {
      ThreatIsLoss(s, op, o);
    }
  }

  ghost predicate LeavesStream(s: State, op: Op, stream: seq<GraphicsOp>) {
    forall o :: o in stream ==> !Threatens(s, op, o)
  }

  /** So over a whole run: as long as nothing it names is taken away, an accepted stream stays accepted. */
  lemma {:induction false} RunKeepsStream(
      states: seq<State>, ops: seq<Op>, replies: seq<Reply>, device: ObjectId, stream: seq<GraphicsOp>, n: nat)
    requires IsRun(states, ops, replies) && n <= |ops| && Coupled(states[0])
    requires Accepts(ObjectsOf(states[0]), device, None, stream)
    requires forall i :: 0 <= i < n ==> LeavesStream(states[i], ops[i], stream)
    ensures Accepts(ObjectsOf(states[n]), device, None, stream)
  {
    if n == 0 {
    } else {
      RunKeepsStream(states, ops, replies, device, stream, n - 1);
      RunKeepsCoupled(states, ops, replies, n - 1);
      assert Link(states, ops, replies, n - 1);
      assert LeavesStream(states[n - 1], ops[n - 1], stream);
      StreamStaysIff(states[n - 1], ops[n - 1], device, stream);
    }
  }

  lemma {:induction false} AcceptedBindsOwn(
      o: Objects, device: ObjectId, bound: Option<ObjectId>, stream: seq<GraphicsOp>)
    requires Accepts(o, device, bound, stream)
    ensures forall op :: op in stream ==>
              (op.BindPipeline? ==> LivePipeline(o, device, op.pipeline))
              && (op.BindResource? ==> LiveResource(o, device, op.resource))
    decreases |stream|
  {
    if stream == [] {
    } else {
      AcceptedBindsOwn(o, device, BoundAfterOp(bound, stream[0]), stream[1..]);
      assert stream == [stream[0]] + stream[1..];
    }
  }

  /** An accepted stream of another device survives a recovery exactly when none of its copies names a resource of the recovered one. */
  lemma StreamSurvivesRecoveryIff(
      s: State, target: ObjectId, caps: CapabilitySet, works: bool, device: ObjectId, stream: seq<GraphicsOp>)
    requires Coupled(s) && Accepts(ObjectsOf(s), device, None, stream) && device != target
    requires Recovered(s, target, caps, works).1 == Done
    ensures Accepts(ObjectsOf(Recovered(s, target, caps, works).0), device, None, stream) <==>
            forall op :: op in stream && op.Copy? ==>
              !LiveResource(ObjectsOf(s), target, op.src) && !LiveResource(ObjectsOf(s), target, op.dst)
  {
    var o, o' := ObjectsOf(s), ObjectsOf(Recovered(s, target, caps, works).0);
    RecoveryRemovesExactly(s, target, caps, works);
    AcceptedNamesLive(o, device, None, stream);
    AcceptedBindsOwn(o, device, None, stream);
    StaysAcceptedIff(o, o', device, None, stream);
    forall op | op in stream
      ensures NamesLive(o', op) <==>
              (op.Copy? ==> !LiveResource(o, target, op.src) && !LiveResource(o, target, op.dst))
    {
      assert NamesLive(o, op);
    }
  }
}
