/**
 * Whole runtime runs over the concrete drivers: each driver made the runtime's trait calls shows the
 * run's driver after every operation, and its own result of each call is what decides the reply.
 */
module RuntimeOverDrivers {
  import opened Common
  import opened GpuDriver
  import opened RuntimeCore
  import opened RuntimeInvariants
  import opened RuntimeHistories
  import S = SoftwareDriver
  import V = VulkanDriver
  import F = DriverEquivalence

  // ---------- What a driver's result decides ----------

  /** What the caller of an operation hears, given the driver's result of the trait call it made. */
  ghost function ReplyFrom(op: Op, result: Result<()>): Reply {
    match op
    case CreateResource(_, _, _, id) => ReplyOf(result, id)
    case SubmitStream(_, _, _, _, outcome) => if outcome.Panics? then Failed(Device) else DoneOf(result)
    case _ => DoneOf(result)
  }

  lemma SubmitReplyIsResult(s: State, op: Op)
    requires op.SubmitStream? && TraitCalls(s, op) != []
    ensures Step(s, op).1 == ReplyFrom(op, Apply(s.driver, TraitCalls(s, op)[0]).1)
  {
  }

  lemma ReplyIsResult(s: State, op: Op)
    requires !op.InjectFault? && !op.ClearFault? && TraitCalls(s, op) != []
    ensures Step(s, op).1 == ReplyFrom(op, Apply(s.driver, TraitCalls(s, op)[0]).1)
  {
    match op
    case CreateResource(device, kind, memory, id) => assert Step(s, op) == ResourceCreated(s, device, kind, memory, id);
    case FreeResource(id) => assert Step(s, op) == ResourceFreed(s, id);
    case RecoverDevice(device, caps, works) => assert Step(s, op) == Recovered(s, device, caps, works);
    case SubmitStream(_, _, _, _, _) => SubmitReplyIsResult(s, op);
  }

  /** The driver's result of the operation's trait call, if it makes one, is the one expected, and decides the reply. */
  ghost predicate Decides(s: State, op: Op, reply: Reply, result: Result<()>) {
    TraitCalls(s, op) != [] ==>
      result == Apply(s.driver, TraitCalls(s, op)[0]).1 && reply == ReplyFrom(op, result)
  }

  ghost function SoftwareDoes(s: S.Software, calls: seq<Call>): (S.Software, Result<()>) {
    if calls == [] then (s, Ok(())) else S.Step(s, calls[0])
  }

  ghost function VulkanDoes(v: V.Vulkan, calls: seq<Call>): (V.Vulkan, Result<()>) {
    if calls == [] then (v, Ok(())) else V.Step(v, calls[0])
  }

  ghost function FallbackDoes(f: F.Fallback, calls: seq<Call>): (F.Fallback, Result<()>) {
    if calls == [] then (f, Ok(())) else F.Step(f, calls[0])
  }

  /** An operation that does not go through driver_mut. */
  ghost predicate ThroughTrait(op: Op) { !op.InjectFault? && !op.ClearFault? }

  /** And is answered by a driver that neither fails nor panics of itself. */
  ghost predicate DriverBehaves(op: Op) {
    && ThroughTrait(op)
    && (op.SubmitStream? ==> op.outcome == Answers(Accept))
    && (op.RecoverDevice? ==> op.works)
  }

  // ---------- One operation ----------

  /** Over a driver that shows what the runtime's does, one operation changes the runtime's by one call at most. */
  lemma OneCall(s: State, op: Op)
    requires ThroughTrait(op)
    ensures |TraitCalls(s, op)| <= 1
    ensures Step(s, op).0.driver
         == if TraitCalls(s, op) == [] then s.driver else Apply(s.driver, TraitCalls(s, op)[0]).0
  {
    var calls := TraitCalls(s, op);
    DriverChangesByTraitCalls(s, op);
    if calls != [] {
      assert calls == [calls[0]];
      AfterOne(s.driver, calls[0]);
    }
  }

  lemma VulkanCarriesStep(s: State, op: Op, v: V.Vulkan)
    requires ThroughTrait(op) && V.Valid(v) && V.View(v) == s.driver
    ensures var (v', r) := VulkanDoes(v, TraitCalls(s, op));
            V.Valid(v') && V.View(v') == Step(s, op).0.driver && Decides(s, op, Step(s, op).1, r)
  {
    OneCall(s, op);
    if TraitCalls(s, op) != [] {
      V.StepRefinesContract(v, TraitCalls(s, op)[0]);
      ReplyIsResult(s, op);
    }
  }

  lemma BehavingCallsNeverFail(s: State, op: Op)
    requires DriverBehaves(op)
    ensures forall c :: c in TraitCalls(s, op) ==> S.NeverFails(c)
  {
  }

  lemma SoftwareCarriesStep(s: State, op: Op, sw: S.Software)
    requires DriverBehaves(op) && S.View(sw) == s.driver
    ensures var (sw', r) := SoftwareDoes(sw, TraitCalls(s, op));
            S.View(sw') == Step(s, op).0.driver && Decides(s, op, Step(s, op).1, r)
  {
    OneCall(s, op);
    if TraitCalls(s, op) != [] {
      BehavingCallsNeverFail(s, op);
      S.StepRefinesContract(sw, TraitCalls(s, op)[0]);
      ReplyIsResult(s, op);
    }
  }

  /** The operation's answers are those the chosen driver gives: software never refuses, loses or fails to reset. */
  ghost predicate GivenBy(f: F.Fallback, s: State, op: Op) {
    forall c :: c in TraitCalls(s, op) ==> F.Answered(f, c) == c
  }

  lemma FallbackCarriesStep(s: State, op: Op, f: F.Fallback)
    requires ThroughTrait(op) && F.Valid(f) && F.View(f) == s.driver && GivenBy(f, s, op)
    ensures var (f', r) := FallbackDoes(f, TraitCalls(s, op));
            && F.Valid(f') && F.View(f') == Step(s, op).0.driver && Decides(s, op, Step(s, op).1, r)
            && f'.Vulkan? == f.Vulkan? && F.FallbackReason(f') == F.FallbackReason(f)
  {
    OneCall(s, op);
    if TraitCalls(s, op) != [] {
      F.FallbackRefinesContract(f, TraitCalls(s, op)[0]);
      ReplyIsResult(s, op);
    }
  }

  // ---------- Whole runs ----------

  /** The Vulkan driver is made exactly the trait calls of the i-th operation. */
  ghost predicate VulkanLink(states: seq<State>, ops: seq<Op>, vs: seq<V.Vulkan>, i: nat)
    requires i < |ops| && i + 1 < |states| && i + 1 < |vs|
  {
    vs[i + 1] == VulkanDoes(vs[i], TraitCalls(states[i], ops[i])).0
  }

  ghost predicate VulkanDecides(states: seq<State>, ops: seq<Op>, replies: seq<Reply>, vs: seq<V.Vulkan>, i: nat)
    requires i < |ops| == |replies| && i < |states| && i < |vs|
  {
    Decides(states[i], ops[i], replies[i], VulkanDoes(vs[i], TraitCalls(states[i], ops[i])).1)
  }

  /**
   * Over any run of the runtime, lost devices, refusals and caught panics included, the Vulkan driver
   * made the run's trait calls shows the run's driver after every operation, and its results decide the replies.
   */
  lemma {:induction false} VulkanCarriesTheRun(
      states: seq<State>, ops: seq<Op>, replies: seq<Reply>, vs: seq<V.Vulkan>, n: nat)
    requires IsRun(states, ops, replies) && n <= |ops| && |vs| == |ops| + 1
    requires forall i: nat :: i < n ==> VulkanLink(states, ops, vs, i)
    requires forall i :: 0 <= i < n ==> ThroughTrait(ops[i])
    requires V.Valid(vs[0]) && V.View(vs[0]) == states[0].driver
    ensures V.Valid(vs[n]) && V.View(vs[n]) == states[n].driver
    ensures forall i: nat :: i < n ==> VulkanDecides(states, ops, replies, vs, i)
  {
    if n == 0 {
    } else {
      VulkanCarriesTheRun(states, ops, replies, vs, n - 1);
      assert Link(states, ops, replies, n - 1) && VulkanLink(states, ops, vs, n - 1);
      VulkanCarriesStep(states[n - 1], ops[n - 1], vs[n - 1]);
    }
  }

  ghost predicate SoftwareLink(states: seq<State>, ops: seq<Op>, sws: seq<S.Software>, i: nat)
    requires i < |ops| && i + 1 < |states| && i + 1 < |sws|
  {
    sws[i + 1] == SoftwareDoes(sws[i], TraitCalls(states[i], ops[i])).0
  }

  ghost predicate SoftwareDecides(states: seq<State>, ops: seq<Op>, replies: seq<Reply>, sws: seq<S.Software>, i: nat)
    requires i < |ops| == |replies| && i < |states| && i < |sws|
  {
    Decides(states[i], ops[i], replies[i], SoftwareDoes(sws[i], TraitCalls(states[i], ops[i])).1)
  }

  /**
   * A run over drivers that do not fail is carried by the software driver and by the Vulkan driver
   * alike: both show the run's driver after every operation, and the results of both decide the same replies.
   */
  lemma {:induction false} EitherDriverCarriesTheRun(
      states: seq<State>, ops: seq<Op>, replies: seq<Reply>, sws: seq<S.Software>, vs: seq<V.Vulkan>, n: nat)
    requires IsRun(states, ops, replies) && n <= |ops| && |sws| == |vs| == |ops| + 1
    requires forall i: nat :: i < n ==> SoftwareLink(states, ops, sws, i) && VulkanLink(states, ops, vs, i)
    requires forall i :: 0 <= i < n ==> DriverBehaves(ops[i])
    requires V.Valid(vs[0]) && S.View(sws[0]) == states[0].driver && V.View(vs[0]) == states[0].driver
    ensures V.Valid(vs[n]) && S.View(sws[n]) == states[n].driver && V.View(vs[n]) == states[n].driver
    ensures forall i: nat :: i < n ==>
              SoftwareDecides(states, ops, replies, sws, i) && VulkanDecides(states, ops, replies, vs, i)
  {
    if n == 0 {
    } else {
      EitherDriverCarriesTheRun(states, ops, replies, sws, vs, n - 1);
      assert Link(states, ops, replies, n - 1);
      assert SoftwareLink(states, ops, sws, n - 1) && VulkanLink(states, ops, vs, n - 1);
      SoftwareCarriesStep(states[n - 1], ops[n - 1], sws[n - 1]);
      VulkanCarriesStep(states[n - 1], ops[n - 1], vs[n - 1]);
    }
  }

  ghost predicate FallbackLink(states: seq<State>, ops: seq<Op>, fs: seq<F.Fallback>, i: nat)
    requires i < |ops| && i + 1 < |states| && i + 1 < |fs|
  {
    fs[i + 1] == FallbackDoes(fs[i], TraitCalls(states[i], ops[i])).0 && GivenBy(fs[i], states[i], ops[i])
  }

  ghost predicate FallbackDecides(states: seq<State>, ops: seq<Op>, replies: seq<Reply>, fs: seq<F.Fallback>, i: nat)
    requires i < |ops| == |replies| && i < |states| && i < |fs|
  {
    Decides(states[i], ops[i], replies[i], FallbackDoes(fs[i], TraitCalls(states[i], ops[i])).1)
  }

  /**
   * The runtime over FallbackDriver: whichever driver won at opening, it stays the one, shows the
   * run's driver after every operation, and its results decide the replies.
   */
  lemma {:induction false} FallbackCarriesTheRun(
      states: seq<State>, ops: seq<Op>, replies: seq<Reply>, fs: seq<F.Fallback>, n: nat)
    requires IsRun(states, ops, replies) && n <= |ops| && |fs| == |ops| + 1
    requires forall i: nat :: i < n ==> FallbackLink(states, ops, fs, i)
    requires forall i :: 0 <= i < n ==> ThroughTrait(ops[i])
    requires F.Valid(fs[0]) && F.View(fs[0]) == states[0].driver
    ensures F.Valid(fs[n]) && F.View(fs[n]) == states[n].driver
    ensures fs[n].Vulkan? == fs[0].Vulkan? && F.FallbackReason(fs[n]) == F.FallbackReason(fs[0])
    ensures forall i: nat :: i < n ==> FallbackDecides(states, ops, replies, fs, i)
  {
    if n == 0 {
    } else {
      FallbackCarriesTheRun(states, ops, replies, fs, n - 1);
      assert Link(states, ops, replies, n - 1) && FallbackLink(states, ops, fs, n - 1);
      FallbackCarriesStep(states[n - 1], ops[n - 1], fs[n - 1]);
    }
  }
}
