/** Short runs from a newly opened runtime that show where the code falls short of what it promises. */
module RuntimeWitnesses {
  import opened Common
  import opened GraphicsApi
  import opened CommandStreams
  import opened Ledger
  import opened GpuDriver
  import opened RuntimeCore
  import opened RuntimeInvariants
  import opened RuntimeHistories
  import opened RuntimeContainment
  import opened RuntimeOverDrivers
  import opened RuntimeOverThread
  import opened SharedRenderThread
  import R = RenderThread
  import T = ThreadProtocol
  import V = VulkanDriver

  const EVERYTHING: CapabilitySet := {GpuMemoryAlloc, GpuCommandSubmit, GpuAdmin}

  /** One GPU, numbered 0, with 100 bytes. */
  function Start(): State {
    Initial(Driver(map[0 := Gpu(100, None)], map[], []), {0})
  }

  lemma OneMore(states: seq<State>, ops: seq<Op>, replies: seq<Reply>, op: Op)
    requires IsRun(states, ops, replies) && DrawsNew(states[|ops|], op)
    ensures var (s, reply) := Step(states[|ops|], op); IsRun(states + [s], ops + [op], replies + [reply])
  {
    var (s, reply) := Step(states[|ops|], op);
    var states', ops', replies' := states + [s], ops + [op], replies + [reply];
    forall i: nat | i < |ops'| ensures Link(states', ops', replies', i) {
      if i < |ops| {
        assert Link(states, ops, replies, i);
      }
    }
  }

  function FirstDevice(): Op { CreateDevice(0, EVERYTHING, 1, (11, 12, 13)) }

  function SecondDevice(): Op { CreateDevice(0, EVERYTHING, 2, (21, 22, 23)) }

  function WithFirst(): State {
    var s := Start();
    s.(devices := map[1 := DeviceFor(0, 1, (11, 12, 13))], deviceCaps := map[1 := EVERYTHING],
       audit := [AuditEntry(0, "create_device", true)], used := {0, 1, 11, 12, 13})
  }

  function WithBoth(): State {
    var s := WithFirst();
    s.(devices := s.devices[2 := DeviceFor(0, 2, (21, 22, 23))], deviceCaps := s.deviceCaps[2 := EVERYTHING],
       audit := s.audit + [AuditEntry(0, "create_device", true)], used := s.used + {2, 21, 22, 23})
  }

  lemma OpenFirst() returns (states: seq<State>, ops: seq<Op>, replies: seq<Reply>)
    ensures IsRun(states, ops, replies) && ops == [FirstDevice()]
    ensures Fresh(states[0]) && states[0] == Start() && states[1] == WithFirst()
  {
    OneMore([Start()], [], [], FirstDevice());
    states, ops, replies := [Start()] + [Step(Start(), FirstDevice()).0], [FirstDevice()], [Step(Start(), FirstDevice()).1];
    assert Step(Start(), FirstDevice()) == DeviceCreated(Start(), 0, EVERYTHING, 1, (11, 12, 13));
    assert [] + [FirstDevice()] == ops && [] + [Step(Start(), FirstDevice()).1] == replies;
  }

  /** Two devices, 1 and 2, on the one GPU. */
  lemma OpenBoth() returns (states: seq<State>, ops: seq<Op>, replies: seq<Reply>)
    ensures IsRun(states, ops, replies) && Fresh(states[0]) && states[0] == Start() && |ops| == 2 && states[2] == WithBoth()
  {
    states, ops, replies := OpenFirst();
    OneMore(states, ops, replies, SecondDevice());
    assert Step(WithFirst(), SecondDevice()) == DeviceCreated(WithFirst(), 0, EVERYTHING, 2, (21, 22, 23));
    states, ops, replies := states + [Step(WithFirst(), SecondDevice()).0], ops + [SecondDevice()],
                            replies + [Step(WithFirst(), SecondDevice()).1];
  }

  // ---------- One context's panic takes down another ----------

  function SubmitOf(device: ObjectId, outcome: SubmitOutcome): Op {
    SubmitStream(QueueHandle(11, Graphics), CommandStream(31, device, Graphics, []), 30, 1, outcome)
  }

  function WithTimeline(): State {
    var s := WithBoth();
    s.(timelines := map[30 := 0], used := s.used + {30})
  }

  lemma PanicOnFirst()
    ensures var (s, reply) := Step(WithTimeline(), SubmitOf(1, Panics("lost")));
            reply.Failed? && s.driver.gpus == map[0 := Gpu(100, Some(Fault(0, 0, "lost")))]
            && s == WithTimeline().(audit := s.audit, driver := s.driver)
    ensures DrawsNew(WithTimeline(), SubmitOf(1, Panics("lost")))
  {
  }

  lemma SecondWouldSucceed()
    ensures Step(WithTimeline(), SubmitOf(2, Answers(Accept))).1 == Done
  {
  }

  /** A submission that panics on device 1 fails one on device 2, of the same GPU, that would have succeeded. */
  lemma PanicTakesDownAnother() returns (states: seq<State>, ops: seq<Op>, replies: seq<Reply>)
    ensures IsRun(states, ops, replies) && Fresh(states[0]) && |ops| == 5
    ensures ops[3] == SubmitOf(1, Panics("lost")) && ops[4] == SubmitOf(2, Answers(Accept))
    ensures Step(states[3], ops[4]).1 == Done && replies[4].Failed?
  {
    states, ops, replies := OpenBoth();
    var timeline := CreateTimeline(1, 30);
    OneMore(states, ops, replies, timeline);
    assert Step(WithBoth(), timeline) == TimelineCreated(WithBoth(), 1, 30);
    states, ops, replies := states + [WithTimeline()], ops + [timeline], replies + [Made(30)];
    PanicOnFirst();
    SecondWouldSucceed();
    var (s, failed) := Step(WithTimeline(), SubmitOf(1, Panics("lost")));
    OneMore(states, ops, replies, SubmitOf(1, Panics("lost")));
    states, ops, replies := states + [s], ops + [SubmitOf(1, Panics("lost"))], replies + [failed];
    OneMore(states, ops, replies, SubmitOf(2, Answers(Accept)));
    SubmitToFaulted(s, QueueHandle(11, Graphics), CommandStream(31, 2, Graphics, []), 30, 1, Answers(Accept), 0);
    states, ops, replies := states + [Step(s, SubmitOf(2, Answers(Accept))).0], ops + [SubmitOf(2, Answers(Accept))],
                            replies + [Step(s, SubmitOf(2, Answers(Accept))).1];
  }

  // ---------- A live pipeline without its shader ----------

  /** A pipeline of device 1 over a shader of device 2 stays when device 2 is recovered; the shader does not. */
  lemma PipelineOutlivesShader() returns (states: seq<State>, ops: seq<Op>, replies: seq<Reply>)
    ensures IsRun(states, ops, replies) && Fresh(states[0]) && |ops| == 5 && replies[4] == Done
    ensures 41 in states[5].pipelines && states[5].pipelines[41].device == 1 && 1 in states[5].devices
    ensures states[5].pipelines[41].shader == 40 && 40 !in states[5].shaders
  {
    states, ops, replies := OpenBoth();
    var makeShader, makePipeline := CreateShaderModule(2, Vertex, [], 40), CreatePipeline(1, 40, Graphics, 41);
    var recover := RecoverDevice(2, EVERYTHING, true);
    OneMore(states, ops, replies, makeShader);
    var (s3, r3) := ShaderCreated(WithBoth(), 2, Vertex, [], 40);
    assert Step(WithBoth(), makeShader) == (s3, r3);
    states, ops, replies := states + [s3], ops + [makeShader], replies + [r3];
    OneMore(states, ops, replies, makePipeline);
    var (s4, r4) := PipelineCreated(s3, 1, 40, Graphics, 41);
    assert Step(s3, makePipeline) == (s4, r4);
    states, ops, replies := states + [s4], ops + [makePipeline], replies + [r4];
    OneMore(states, ops, replies, recover);
    var (s5, r5) := Recovered(s4, 2, EVERYTHING, true);
    assert Step(s4, recover) == (s5, r5);
    states, ops, replies := states + [s5], ops + [recover], replies + [r5];
  }

  // ---------- Recovery strands bytes ----------

  lemma SingleSum(m: map<ObjectId, nat>, k: ObjectId)
    requires m.Keys == {k}
    ensures SumOf(m) == m[k]
  {
    SumTakeOut(m, k);
    assert m - {k} == map[];
  }

  /** Recovering a device that holds 40 of a GPU's 100 bytes leaves 60 free, and 40 that nothing stands for. */
  lemma RecoveryStrandsBytes() returns (states: seq<State>, ops: seq<Op>, replies: seq<Reply>)
    ensures IsRun(states, ops, replies) && Fresh(states[0]) && |ops| == 3 && replies[2] == Done
    ensures states[0].driver.gpus == map[0 := Gpu(100, None)] && states[3].driver.gpus == map[0 := Gpu(60, None)]
    ensures states[3].resources == map[] && Stranded(states[3], 0) == 40
  {
    states, ops, replies := OpenFirst();
    var makeBuffer, recover := CreateResource(1, Buffer(40), DeviceLocal, 50), RecoverDevice(1, EVERYTHING, true);
    OneMore(states, ops, replies, makeBuffer);
    var (s2, r2) := ResourceCreated(WithFirst(), 1, Buffer(40), DeviceLocal, 50);
    assert Step(WithFirst(), makeBuffer) == (s2, r2);
    states, ops, replies := states + [s2], ops + [makeBuffer], replies + [r2];
    OneMore(states, ops, replies, recover);
    var (s3, r3) := Recovered(s2, 1, EVERYTHING, true);
    assert Step(s2, recover) == (s3, r3);
    states, ops, replies := states + [s3], ops + [recover], replies + [r3];
    assert s3.resources == map[];
    SingleSum(StrandedSizes(s3, 0), 50);
  }

  // ---------- No recovery from a backend panic ----------

  function OneGpuDriver(): V.Vulkan { V.Opened([0], 100) }

  lemma StartShowsDriver()
    ensures V.Valid(OneGpuDriver()) && V.View(OneGpuDriver()) == Start().driver
  {
    assert V.View(OneGpuDriver()).gpus == Start().driver.gpus;
  }

  /** The thread's side: a submit panics the backend, and a reset finds the worker dying. */
  lemma PanicThenReset() returns (sys: seq<T.System>, moves: seq<T.Move>, m: nat)
    ensures T.IsRun(sys, moves) && sys[0] == T.Initial(OneGpuDriver()) && m <= |moves|
    ensures sys[m].client.Ready? && T.EndsInPanic(sys[m].thread.calls)
    ensures T.CallsOf(sys[m].log) == [Submit(0, Graphics, [], Lose(V.STOPPED))]
    ensures sys[|moves|].client.Ready? && |sys[m].log| <= |sys[|moves|].log|
    ensures T.CallsOf(sys[|moves|].log[|sys[m].log|..]) == [Reset(0, false)]
  {
    var asked, ask := AskedOf(T.Initial(OneGpuDriver()), SubmitOn(0));
    var served, serve := ServedFrom(asked[|ask|], R.Panic);
    JoinRuns(asked, ask, served, serve);
    var before, first := asked + served[1..], ask + serve;
    m := |first|;
    assert T.Inv(before[0]);
    T.RunKeepsInv(before, first, m);
    var more, next := AbandonedFrom(before[m], T.ResetOf(0));
    JoinRuns(before, first, more, next);
    sys, moves := before + more[1..], first + next;
  }

  function LosingSubmit(): Op { SubmitOf(1, Answers(Lose(V.STOPPED))) }

  function Recover(): Op { RecoverDevice(1, EVERYTHING, false) }

  function OneTimeline(): State {
    var s := WithFirst();
    s.(timelines := map[30 := 0], used := s.used + {30})
  }

  lemma LosingSubmitStep()
    ensures var (s, reply) := Step(OneTimeline(), LosingSubmit());
            reply.Failed? && s == OneTimeline().(audit := s.audit, driver := s.driver)
            && s.driver.gpus.Keys == {0}
    ensures TraitCalls(OneTimeline(), LosingSubmit()) == [Submit(0, Graphics, [], Lose(V.STOPPED))]
  {
  }

  /** The runtime's side of the same run. */
  lemma LoseThenRecover() returns (states: seq<State>, ops: seq<Op>, replies: seq<Reply>)
    ensures IsRun(states, ops, replies) && Fresh(states[0]) && states[0] == Start() && |ops| == 4
    ensures ops[0] == FirstDevice() && ops[1] == CreateTimeline(1, 30) && ops[2] == LosingSubmit() && ops[3] == Recover()
    ensures TraitCalls(states[2], ops[2]) == [Submit(0, Graphics, [], Lose(V.STOPPED))]
    ensures TraitCalls(states[3], ops[3]) == [Reset(0, false)] && 1 in states[3].devices
  {
    states, ops, replies := OpenFirst();
    var timeline := CreateTimeline(1, 30);
    OneMore(states, ops, replies, timeline);
    assert Step(WithFirst(), timeline) == TimelineCreated(WithFirst(), 1, 30);
    states, ops, replies := states + [OneTimeline()], ops + [timeline], replies + [Made(30)];
    LosingSubmitStep();
    var (s, failed) := Step(OneTimeline(), LosingSubmit());
    OneMore(states, ops, replies, LosingSubmit());
    states, ops, replies := states + [s], ops + [LosingSubmit()], replies + [failed];
    OneMore(states, ops, replies, Recover());
    states, ops, replies := states + [Step(s, Recover()).0], ops + [Recover()], replies + [Step(s, Recover()).1];
  }

  /** A submit panics the backend, and an admin's recovery of the device, which is live, fails. */
  lemma PanickedDeviceIsNotRecovered()
    returns (states: seq<State>, ops: seq<Op>, replies: seq<Reply>, sys: seq<T.System>, moves: seq<T.Move>, at: seq<nat>)
    ensures OverThread(states, ops, replies, OneGpuDriver(), sys, moves, at) && |ops| == 4
    ensures Between(sys, at, 3) && T.EndsInPanic(sys[at[3]].thread.calls)
    ensures ops[3] == Recover() && 1 in states[3].devices && replies[3].Failed?
  {
    var m;
    states, ops, replies := LoseThenRecover();
    sys, moves, m := PanicThenReset();
    at := [0, 0, 0, m, |moves|];
    StartShowsDriver();
    assert sys[0].log[0..] == [] && sys[m].log[0..] == sys[m].log;
    forall i: nat | i < |ops| ensures ThroughTrait(ops[i]) && ThreadLink(states, ops, sys, at, i) {
    }
    NothingRecoversFromPanic(states, ops, replies, OneGpuDriver(), sys, moves, at, 3, 3);
  }
}
