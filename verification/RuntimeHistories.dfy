/** What holds over whole runs of the runtime, stated against the history of operations and replies. */
module RuntimeHistories {
  import opened Common
  import opened GraphicsApi
  import opened CommandStreams
  import opened GpuDriver
  import opened RuntimeCore
  import opened RuntimeInvariants

  /** states[i] is the runtime before ops[i], which is answered by replies[i]. */
  ghost predicate Link(states: seq<State>, ops: seq<Op>, replies: seq<Reply>, i: nat)
    requires i < |ops| == |replies| < |states|
  {
    DrawsNew(states[i], ops[i]) && (states[i + 1], replies[i]) == Step(states[i], ops[i])
  }

  ghost predicate IsRun(states: seq<State>, ops: seq<Op>, replies: seq<Reply>) {
    && |states| == |ops| + 1 && |replies| == |ops|
    && forall i: nat :: i < |ops| ==> Link(states, ops, replies, i)
  }

  /** A runtime that has just been opened over some driver. */
  ghost predicate Fresh(s: State) {
    s == Initial(s.driver, s.used) && s.driver.claims.Keys <= s.used
  }

  /** In every reachable state the tables are coupled and VRAM is conserved. */
  lemma {:induction false} RunKeepsInvariants(
      states: seq<State>, ops: seq<Op>, replies: seq<Reply>, totals: map<ObjectId, u64>, n: nat)
    requires IsRun(states, ops, replies) && n <= |ops|
    requires Coupled(states[0]) && Conserved(states[0].driver, totals)
    ensures Coupled(states[n]) && Conserved(states[n].driver, totals)
  {
    if n == 0 {
    } else {
      RunKeepsInvariants(states, ops, replies, totals, n - 1);
      assert Link(states, ops, replies, n - 1);
      StepKeepsCoupled(states[n - 1], ops[n - 1]);
      StepConserves(states[n - 1], ops[n - 1], totals);
    }
  }

  lemma {:induction false} RunKeepsCoupled(states: seq<State>, ops: seq<Op>, replies: seq<Reply>, n: nat)
    requires IsRun(states, ops, replies) && n <= |ops| && Coupled(states[0])
    ensures Coupled(states[n])
  {
    if n == 0 {
    } else {
      RunKeepsCoupled(states, ops, replies, n - 1);
      assert Link(states, ops, replies, n - 1);
      StepKeepsCoupled(states[n - 1], ops[n - 1]);
    }
  }

  // ---------- Stranded VRAM ----------

  ghost function StrandedBy(states: seq<State>, ops: seq<Op>, g: ObjectId, n: nat): nat
    requires n <= |ops| < |states|
  {
    if n == 0 then 0 else StrandedBy(states, ops, g, n - 1) + Strands(states[n - 1], ops[n - 1], g)
  }

  lemma {:induction false} RunStrands(states: seq<State>, ops: seq<Op>, replies: seq<Reply>, g: ObjectId, n: nat)
    requires IsRun(states, ops, replies) && n <= |ops| && Coupled(states[0])
    ensures Stranded(states[n], g) == Stranded(states[0], g) + StrandedBy(states, ops, g, n)
  {
    if n == 0 {
    } else {
      RunStrands(states, ops, replies, g, n - 1);
      RunKeepsCoupled(states, ops, replies, n - 1);
      assert Link(states, ops, replies, n - 1);
      StrandedGrowsOnlyByRecovery(states[n - 1], ops[n - 1], g);
    }
  }

  /**
   * Conservation over runs: a GPU's total is its free VRAM, its live resources, what was stranded
   * to begin with, and the resources of every device recovered on it since.
   */
  lemma RunAccountsForVram(
      states: seq<State>, ops: seq<Op>, replies: seq<Reply>, totals: map<ObjectId, u64>, g: ObjectId, n: nat)
    requires IsRun(states, ops, replies) && n <= |ops|
    requires Coupled(states[0]) && Conserved(states[0].driver, totals) && g in totals
    ensures g in states[n].driver.gpus
    ensures totals[g] == states[n].driver.gpus[g].available + Live(states[n], g)
                         + Stranded(states[0], g) + StrandedBy(states, ops, g, n)
  {
    RunKeepsInvariants(states, ops, replies, totals, n);
    RunStrands(states, ops, replies, g, n);
    VramIsAccountedFor(states[n], totals, g);
  }

  // ---------- Timelines ----------

  ghost predicate SignalsNow(op: Op, reply: Reply, t: ObjectId) {
    op.SubmitStream? && op.timeline == t && reply == Done
  }

  /** The values successfully signalled on t, in order. */
  ghost function Signals(ops: seq<Op>, replies: seq<Reply>, t: ObjectId, n: nat): seq<u64>
    requires n <= |ops| == |replies|
  {
    if n == 0 then []
    else
      Signals(ops, replies, t, n - 1)
      + if SignalsNow(ops[n - 1], replies[n - 1], t) then [ops[n - 1].signal] else []
  }

  ghost function LastOr0(values: seq<u64>): u64 {
    if values == [] then 0 else values[|values| - 1]
  }

  ghost predicate StrictlyIncreasing(values: seq<u64>) {
    (values != [] ==> values[0] > 0) && forall i, j :: 0 <= i < j < |values| ==> values[i] < values[j]
  }

  lemma AppendKeepsIncreasing(values: seq<u64>, x: u64)
    requires StrictlyIncreasing(values) && x > LastOr0(values)
    ensures StrictlyIncreasing(values + [x]) && LastOr0(values + [x]) == x
  {
  }

  ghost predicate SomeAtLeast(values: seq<u64>, v: u64) {
    exists i :: 0 <= i < |values| && values[i] >= v
  }

  lemma LastIsGreatest(values: seq<u64>, v: u64)
    requires StrictlyIncreasing(values)
    ensures LastOr0(values) >= v <==> v == 0 || SomeAtLeast(values, v)
  {
    if SomeAtLeast(values, v) {
      var i :| 0 <= i < |values| && values[i] >= v;
      assert values[i] <= values[|values| - 1];
    }
  }

  /** The timeline table shows exactly what was signalled on t. */
  ghost predicate Shows(timelines: map<ObjectId, u64>, t: ObjectId, values: seq<u64>) {
    if t in timelines then timelines[t] == LastOr0(values) else values == []
  }

  lemma SubmitMovesTimeline(
      s: State, queue: QueueHandle, stream: CommandStream, timeline: ObjectId, signal: u64, outcome: SubmitOutcome)
    ensures var (s', reply) := Submitted(s, queue, stream, timeline, signal, outcome);
            if reply == Done
            then timeline in s.timelines && signal > s.timelines[timeline] && s'.timelines == s.timelines[timeline := signal]
            else s'.timelines == s.timelines
  {
  }

  lemma OthersKeepTimelines(s: State, op: Op)
    requires !op.SubmitStream?
    ensures var (s', reply) := Step(s, op);
            s'.timelines == if op.CreateTimeline? && reply.Made? then s.timelines[op.newId := 0] else s.timelines
  {
  }

  lemma NewIdIsNoTimeline(s: State, op: Op)
    requires Coupled(s) && DrawsNew(s, op) && op.CreateTimeline?
    ensures op.newId !in s.timelines
  {
    assert op.newId in Drawn(op);
  }

  /** What an operation does to the timeline table, by its reply. */
  ghost predicate MovesTimelines(before: map<ObjectId, u64>, op: Op, reply: Reply, after: map<ObjectId, u64>) {
    if op.SubmitStream? && reply == Done then
      op.timeline in before && op.signal > before[op.timeline] && after == before[op.timeline := op.signal]
    else if op.CreateTimeline? && reply.Made? then op.newId !in before && after == before[op.newId := 0]
    else after == before
  }

  lemma TimelineLink(states: seq<State>, ops: seq<Op>, replies: seq<Reply>, i: nat)
    requires IsRun(states, ops, replies) && i < |ops| && Coupled(states[0])
    ensures MovesTimelines(states[i].timelines, ops[i], replies[i], states[i + 1].timelines)
  {
    RunKeepsCoupled(states, ops, replies, i);
    var s, op := states[i], ops[i];
    assert Link(states, ops, replies, i);
    if op.SubmitStream? {
      SubmitMovesTimeline(s, op.queue, op.stream, op.timeline, op.signal, op.outcome);
    } else {
      OthersKeepTimelines(s, op);
      if op.CreateTimeline? {
        NewIdIsNoTimeline(s, op);
      }
    }
  }

  lemma OthersKeepShown(
      before: map<ObjectId, u64>, op: Op, reply: Reply, after: map<ObjectId, u64>, t: ObjectId, values: seq<u64>)
    requires MovesTimelines(before, op, reply, after) && !SignalsNow(op, reply, t) && Shows(before, t, values)
    ensures Shows(after, t, values) && (t in before ==> t in after)
  {
  }

  lemma MoveKeepsShown(
      before: map<ObjectId, u64>, op: Op, reply: Reply, after: map<ObjectId, u64>, t: ObjectId, values: seq<u64>)
    requires MovesTimelines(before, op, reply, after) && StrictlyIncreasing(values) && Shows(before, t, values)
    ensures var values' := values + if SignalsNow(op, reply, t) then [op.signal] else [];
            StrictlyIncreasing(values') && Shows(after, t, values')
    ensures t in before ==> t in after
  {
    if SignalsNow(op, reply, t) {
      AppendKeepsIncreasing(values, op.signal);
      assert after[t] == op.signal;
    } else {
      assert values + [] == values;
      OthersKeepShown(before, op, reply, after, t, values);
    }
  }

  ghost predicate TimelineMove(states: seq<State>, ops: seq<Op>, replies: seq<Reply>, i: nat)
    requires i < |ops| == |replies| < |states|
  {
    MovesTimelines(states[i].timelines, ops[i], replies[i], states[i + 1].timelines)
  }

  lemma {:induction false} MovesAreShown(states: seq<State>, ops: seq<Op>, replies: seq<Reply>, t: ObjectId, n: nat)
    requires n <= |ops| == |replies| < |states| && states[0].timelines == map[]
    requires forall i: nat :: i < n ==> TimelineMove(states, ops, replies, i)
    ensures StrictlyIncreasing(Signals(ops, replies, t, n))
    ensures Shows(states[n].timelines, t, Signals(ops, replies, t, n))
  {
    if n == 0 {
    } else {
      MovesAreShown(states, ops, replies, t, n - 1);
      assert TimelineMove(states, ops, replies, n - 1);
      MoveKeepsShown(states[n - 1].timelines, ops[n - 1], replies[n - 1], states[n].timelines, t,
                     Signals(ops, replies, t, n - 1));
    }
  }

  /**
   * Timelines are history-exact: a timeline exists only once created; its value is the last one
   * successfully signalled, or 0; and the values signalled on it strictly increase. So failed and
   * panicking submits never move one.
   */
  lemma TimelinesAreHistory(states: seq<State>, ops: seq<Op>, replies: seq<Reply>, t: ObjectId, n: nat)
    requires IsRun(states, ops, replies) && n <= |ops| && Coupled(states[0]) && states[0].timelines == map[]
    ensures StrictlyIncreasing(Signals(ops, replies, t, n))
    ensures Shows(states[n].timelines, t, Signals(ops, replies, t, n))
  {
    forall i: nat | i < n ensures TimelineMove(states, ops, replies, i) {
      TimelineLink(states, ops, replies, i);
    }
    MovesAreShown(states, ops, replies, t, n);
  }

  /** wait(t, v) on a known timeline succeeds exactly when v is 0 or some submit so far signalled at least v. */
  lemma WaitIsHistory(states: seq<State>, ops: seq<Op>, replies: seq<Reply>, t: ObjectId, v: u64, n: nat)
    requires IsRun(states, ops, replies) && n <= |ops| && Coupled(states[0]) && states[0].timelines == map[]
    ensures Wait(states[n], t, v).Ok? <==>
            t in states[n].timelines && (v == 0 || SomeAtLeast(Signals(ops, replies, t, n), v))
  {
    TimelinesAreHistory(states, ops, replies, t, n);
    var values := Signals(ops, replies, t, n);
    LastIsGreatest(values, v);
    assert t in states[n].timelines ==> states[n].timelines[t] == LastOr0(values);
  }

  /** Once a wait succeeds, it succeeds for ever: no value falls and no timeline, recovered device or not, goes. */
  lemma {:induction false} WaitStaysTrue(
      states: seq<State>, ops: seq<Op>, replies: seq<Reply>, t: ObjectId, v: u64, m: nat, n: nat)
    requires IsRun(states, ops, replies) && m <= n <= |ops|
    requires Coupled(states[0]) && Wait(states[m], t, v).Ok?
    ensures Wait(states[n], t, v).Ok?
    decreases n
  {
    if m < n {
      WaitStaysTrue(states, ops, replies, t, v, m, n - 1);
      TimelineLink(states, ops, replies, n - 1);
    }
  }

  // ---------- Devices, grants, audit ----------

  datatype Registration = Registration(gpu: ObjectId, caps: CapabilitySet)

  /** What the history says of a device: created, with which grant, and not recovered since. */
  ghost function RegistrationOf(ops: seq<Op>, replies: seq<Reply>, d: ObjectId, n: nat): Option<Registration>
    requires n <= |ops| == |replies|
  {
    if n == 0 then None
    else
      var op, reply := ops[n - 1], replies[n - 1];
      if op.CreateDevice? && op.newId == d && reply == Made(d) then Some(Registration(op.gpu, op.caps))
      else if op.RecoverDevice? && op.device == d && reply == Done then None
      else RegistrationOf(ops, replies, d, n - 1)
  }

  ghost predicate Registers(s: State, d: ObjectId, r: Option<Registration>) {
    match r
    case None => d !in s.devices && d !in s.deviceCaps
    case Some(reg) => d in s.devices && d in s.deviceCaps && s.devices[d].gpu == reg.gpu && s.deviceCaps[d] == reg.caps
  }

  lemma OthersKeepDevices(s: State, op: Op)
    requires !op.CreateDevice? && !op.RecoverDevice? && !op.SubmitStream?
    ensures Step(s, op).0.devices == s.devices && Step(s, op).0.deviceCaps == s.deviceCaps
    ensures Step(s, op).0.audit == s.audit
  {
    match op
    case CreateTimeline(device, id) => assert Step(s, op) == TimelineCreated(s, device, id);
    case CreateCommandStream(device, _, id) => assert Step(s, op) == StreamCreated(s, device, id);
    case CreateResource(device, kind, memory, id) => assert Step(s, op) == ResourceCreated(s, device, kind, memory, id);
    case CreateShaderModule(device, stage, ir, id) => assert Step(s, op) == ShaderCreated(s, device, stage, ir, id);
    case CreatePipeline(device, shader, workload, id) =>
      assert Step(s, op) == PipelineCreated(s, device, shader, workload, id);
    case FreeResource(id) => assert Step(s, op) == ResourceFreed(s, id);
    case InjectFault(caps, gpu, address, description) =>
      FaultSetFrame(s, caps, gpu, Some(Fault(gpu, address, description)));
    case ClearFault(caps, gpu) => FaultSetFrame(s, caps, gpu, None);
  }

  lemma CreateRegisters(
      s: State, gpu: ObjectId, caps: CapabilitySet, id: ObjectId, q: (ObjectId, ObjectId, ObjectId), d: ObjectId)
    ensures var (s', reply) := DeviceCreated(s, gpu, caps, id, q);
            if id == d && reply == Made(d) then Registers(s', d, Some(Registration(gpu, caps)))
            else SameEntry(s, s', d)
  {
  }

  lemma RecoverRegisters(s: State, device: ObjectId, caps: CapabilitySet, works: bool, d: ObjectId)
    ensures var (s', reply) := Recovered(s, device, caps, works);
            if device == d && reply == Done then Registers(s', d, None) else SameEntry(s, s', d)
  {
  }

  /** d is registered in s' as it is in s. */
  ghost predicate SameEntry(s: State, s': State, d: ObjectId) {
    && (d in s'.devices <==> d in s.devices) && (d in s.devices ==> s'.devices[d] == s.devices[d])
    && (d in s'.deviceCaps <==> d in s.deviceCaps) && (d in s.deviceCaps ==> s'.deviceCaps[d] == s.deviceCaps[d])
  }

  lemma DeviceStep(s: State, op: Op, d: ObjectId)
    ensures var (s', reply) := Step(s, op);
            if op.CreateDevice? && op.newId == d && reply == Made(d) then Registers(s', d, Some(Registration(op.gpu, op.caps)))
            else if op.RecoverDevice? && op.device == d && reply == Done then Registers(s', d, None)
            else SameEntry(s, s', d)
  {
    match op
    case CreateDevice(gpu, caps, id, q) => CreateRegisters(s, gpu, caps, id, q, d);
    case RecoverDevice(device, caps, works) => RecoverRegisters(s, device, caps, works, d);
    case SubmitStream(queue, stream, timeline, signal, outcome) =>
      SubmitFrame(s, queue, stream, timeline, signal, outcome);
    case _ => OthersKeepDevices(s, op);
  }

  /** The device table and the grants are exactly what the history of creations and recoveries says. */
  lemma {:induction false} DevicesAreHistory(states: seq<State>, ops: seq<Op>, replies: seq<Reply>, d: ObjectId, n: nat)
    requires IsRun(states, ops, replies) && n <= |ops| && Fresh(states[0])
    ensures Registers(states[n], d, RegistrationOf(ops, replies, d, n))
  {
    if n == 0 {
    } else {
      DevicesAreHistory(states, ops, replies, d, n - 1);
      assert Link(states, ops, replies, n - 1);
      DeviceStep(states[n - 1], ops[n - 1], d);
    }
  }

  /** The entry one operation leaves, as a function of the history alone. */
  ghost function AuditBy(ops: seq<Op>, replies: seq<Reply>, i: nat): seq<AuditEntry>
    requires i < |ops| == |replies|
  {
    match ops[i]
    case CreateDevice(gpu, caps, _, _) => [AuditEntry(gpu, "create_device", GpuMemoryAlloc in caps)]
    case RecoverDevice(device, caps, _) => [AuditEntry(device, "recover_device", GpuAdmin in caps)]
    case SubmitStream(queue, stream, _, _, _) =>
      var reg := RegistrationOf(ops, replies, stream.device, i);
      if stream.target == queue.workload && reg.Some?
      then [AuditEntry(stream.device, "submit", GpuCommandSubmit in reg.value.caps)] else []
    case _ => []
  }

  ghost function AuditOf(ops: seq<Op>, replies: seq<Reply>, n: nat): seq<AuditEntry>
    requires n <= |ops| == |replies|
  {
    if n == 0 then [] else AuditOf(ops, replies, n - 1) + AuditBy(ops, replies, n - 1)
  }

  lemma SubmitAudits(
      s: State, queue: QueueHandle, stream: CommandStream, timeline: ObjectId, signal: u64, outcome: SubmitOutcome)
    ensures Submitted(s, queue, stream, timeline, signal, outcome).0.audit
         == s.audit + if stream.target == queue.workload && stream.device in s.deviceCaps
                      then [AuditEntry(stream.device, "submit", GpuCommandSubmit in s.deviceCaps[stream.device])] else []
  {
  }

  lemma CreateAudits(s: State, gpu: ObjectId, caps: CapabilitySet, id: ObjectId, q: (ObjectId, ObjectId, ObjectId))
    ensures DeviceCreated(s, gpu, caps, id, q).0.audit == s.audit + [AuditEntry(gpu, "create_device", GpuMemoryAlloc in caps)]
  {
  }

  lemma RecoverAudits(s: State, device: ObjectId, caps: CapabilitySet, works: bool)
    ensures Recovered(s, device, caps, works).0.audit
         == s.audit + [AuditEntry(device, "recover_device", GpuAdmin in caps)]
  {
  }

  lemma AuditLink(states: seq<State>, ops: seq<Op>, replies: seq<Reply>, i: nat)
    requires IsRun(states, ops, replies) && i < |ops| && Fresh(states[0])
    ensures states[i + 1].audit == states[i].audit + AuditBy(ops, replies, i)
  {
    var s, op := states[i], ops[i];
    assert Link(states, ops, replies, i);
    match op
    case CreateDevice(gpu, caps, id, q) => CreateAudits(s, gpu, caps, id, q);
    case RecoverDevice(device, caps, works) => RecoverAudits(s, device, caps, works);
    case SubmitStream(queue, stream, timeline, signal, outcome) =>
      DevicesAreHistory(states, ops, replies, stream.device, i);
      SubmitAudits(s, queue, stream, timeline, signal, outcome);
    case _ => OthersKeepDevices(s, op);
  }

  /**
   * The audit log is exactly a function of the history: one entry per device creation and recovery
   * and per submit whose class matches and whose device is registered, each with the capability verdict.
   */
  lemma {:induction false} AuditIsHistory(states: seq<State>, ops: seq<Op>, replies: seq<Reply>, n: nat)
    requires IsRun(states, ops, replies) && n <= |ops| && Fresh(states[0])
    ensures states[n].audit == AuditOf(ops, replies, n)
  {
    if n == 0 {
    } else {
      AuditIsHistory(states, ops, replies, n - 1);
      AuditLink(states, ops, replies, n - 1);
    }
  }

  /** An audited success left a true entry; an audited denial changed nothing else. */
  lemma VerdictsMeanWhatTheySay(s: State, op: Op)
    requires op.CreateDevice? || op.RecoverDevice? || op.SubmitStream?
    ensures var (s', reply) := Step(s, op);
            && (!reply.Failed? ==> |s'.audit| == |s.audit| + 1 && s'.audit[|s.audit|].authorized)
            && (|s'.audit| > |s.audit| && !s'.audit[|s.audit|].authorized ==>
                  reply == Failed(Security) && s' == s.(audit := s'.audit, used := s'.used))
  {
    if op.CreateDevice? {
      assert Step(s, op) == DeviceCreated(s, op.gpu, op.caps, op.newId, op.queueIds);
    } else if op.RecoverDevice? {
      assert Step(s, op) == Recovered(s, op.device, op.caps, op.works);
    } else {
      SubmitAudits(s, op.queue, op.stream, op.timeline, op.signal, op.outcome);
    }
  }

  // ---------- What reached the driver ----------

  /** The batch a successful submit stands for, by the history alone. */
  ghost function AcceptedBy(ops: seq<Op>, replies: seq<Reply>, i: nat): seq<Batch>
    requires i < |ops| == |replies|
  {
    var op := ops[i];
    if op.SubmitStream? && replies[i] == Done then
      match RegistrationOf(ops, replies, op.stream.device, i)
      case None => []
      case Some(reg) => [Batch(reg.gpu, op.queue.workload, TranslateOps(op.stream.ops))]
    else []
  }

  ghost function AcceptedOf(ops: seq<Op>, replies: seq<Reply>, n: nat): seq<Batch>
    requires n <= |ops| == |replies|
  {
    if n == 0 then [] else AcceptedOf(ops, replies, n - 1) + AcceptedBy(ops, replies, n - 1)
  }

  lemma SubmitReachesDriver(
      s: State, queue: QueueHandle, stream: CommandStream, timeline: ObjectId, signal: u64, outcome: SubmitOutcome)
    ensures var (s', reply) := Submitted(s, queue, stream, timeline, signal, outcome);
            && (reply == Done ==> stream.device in s.devices && Accepts(ObjectsOf(s), stream.device, None, stream.ops))
            && s'.driver.accepted == s.driver.accepted + if reply == Done
                 then [Batch(s.devices[stream.device].gpu, queue.workload, TranslateOps(stream.ops))] else []
  {
  }

  lemma OthersReachNothing(s: State, op: Op)
    requires !op.SubmitStream?
    ensures Step(s, op).0.driver.accepted == s.driver.accepted
  {
    match op
    case CreateResource(device, kind, memory, id) =>
      assert Step(s, op) == ResourceCreated(s, device, kind, memory, id);
    case FreeResource(id) => assert Step(s, op) == ResourceFreed(s, id);
    case RecoverDevice(device, caps, works) => assert Step(s, op) == Recovered(s, device, caps, works);
    case InjectFault(caps, gpu, address, description) =>
      FaultSetFrame(s, caps, gpu, Some(Fault(gpu, address, description)));
    case ClearFault(caps, gpu) => FaultSetFrame(s, caps, gpu, None);
    case _ => CreatesReachNoDriver(s, op);
  }

  lemma AcceptedLink(states: seq<State>, ops: seq<Op>, replies: seq<Reply>, i: nat)
    requires IsRun(states, ops, replies) && i < |ops| && Fresh(states[0])
    ensures states[i + 1].driver.accepted == states[i].driver.accepted + AcceptedBy(ops, replies, i)
  {
    var s, op := states[i], ops[i];
    assert Link(states, ops, replies, i);
    if op.SubmitStream? {
      DevicesAreHistory(states, ops, replies, op.stream.device, i);
      SubmitReachesDriver(s, op.queue, op.stream, op.timeline, op.signal, op.outcome);
    } else {
      OthersReachNothing(s, op);
    }
  }

  /** The driver accepted exactly the translations of the successful submits, once each, in order, on their devices' GPUs. */
  lemma {:induction false} AcceptedIsHistory(states: seq<State>, ops: seq<Op>, replies: seq<Reply>, n: nat)
    requires IsRun(states, ops, replies) && n <= |ops| && Fresh(states[0])
    ensures states[n].driver.accepted == states[0].driver.accepted + AcceptedOf(ops, replies, n)
  {
    if n == 0 {
    } else {
      AcceptedIsHistory(states, ops, replies, n - 1);
      AcceptedLink(states, ops, replies, n - 1);
    }
  }

  /** And each of them means what its stream does: a whole execution, on live objects, erased to driver ops. */
  lemma AcceptedMeansExecuted(s: State, op: Op) returns (trace: seq<Event>)
    requires op.SubmitStream? && Step(s, op).1 == Done
    ensures Executes(ObjectsOf(s), op.stream.device, op.stream.ops, trace)
    ensures forall e :: e in trace ==> EventIsSafe(ObjectsOf(s), op.stream.device, e)
    ensures op.stream.device in s.devices
    ensures Step(s, op).0.driver.accepted
         == s.driver.accepted + [Batch(s.devices[op.stream.device].gpu, op.queue.workload, Erase(trace))]
  {
    SubmitReachesDriver(s, op.queue, op.stream, op.timeline, op.signal, op.outcome);
    trace := Events(None, op.stream.ops);
    ExecutesIffAccepted(ObjectsOf(s), op.stream.device, op.stream.ops, trace);
    ExecutionIsSafe(ObjectsOf(s), op.stream.device, op.stream.ops, trace);
    TranslationPreservesMeaning(ObjectsOf(s), op.stream.device, op.stream.ops, trace);
  }
}
