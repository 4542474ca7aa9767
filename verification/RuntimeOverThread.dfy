/**
 * The whole stack: a run of the runtime whose driver calls go through the bookkeeping of VulkanDriver
 * to the render thread and its backend, in any interleaving of caller and thread.
 */
module RuntimeOverThread {
  import opened Common
  import opened CommandStreams
  import opened GpuDriver
  import opened RenderThread
  import opened RuntimeCore
  import opened RuntimeInvariants
  import opened RuntimeHistories
  import opened RuntimeOverDrivers
  import V = VulkanDriver
  import T = ThreadProtocol
  import opened SharedRenderThread

  // ---------- Stretches of a thread run ----------

  /** From position a to position b of a thread run, the log only grows, and one call is one step of the tables. */
  lemma {:induction false} LogBetween(sys: seq<T.System>, moves: seq<T.Move>, a: nat, b: nat)
    requires T.IsRun(sys, moves) && a <= b <= |moves|
    ensures var s, s' := sys[a], sys[b];
            && |s.log| <= |s'.log| && s'.log[..|s.log|] == s.log
            && (|s'.log| == |s.log| ==> s'.driver == s.driver)
            && (|s'.log| == |s.log| + 1 ==>
                  var e := s'.log[|s.log|]; (s'.driver, e.result) == V.Step(s.driver, e.call))
    decreases b
  {
    if a < b {
      LogBetween(sys, moves, a, b - 1);
      assert T.Link(sys, moves, b - 1);
      T.MoveLogs(sys[b - 1], moves[b - 1]);
    }
  }

  /**
   * The i-th operation of the runtime takes the thread run from position at[i] to at[i + 1], between
   * calls at both ends, with just the operation's trait calls in between.
   */
  ghost predicate ThreadLink(states: seq<State>, ops: seq<Op>, sys: seq<T.System>, at: seq<nat>, i: nat)
    requires i < |ops| && i + 1 < |states| && i + 1 < |at|
  {
    && at[i] <= at[i + 1] < |sys| && sys[at[i]].client.Ready? && sys[at[i + 1]].client.Ready?
    && var before, after := sys[at[i]].log, sys[at[i + 1]].log;
       |before| <= |after| && T.CallsOf(after[|before|..]) == TraitCalls(states[i], ops[i])
  }

  /** A run of the runtime over a run of the thread protocol, from a driver just opened. */
  ghost predicate OverThread(
      states: seq<State>, ops: seq<Op>, replies: seq<Reply>, v: V.Vulkan, sys: seq<T.System>, moves: seq<T.Move>, at: seq<nat>)
  {
    && RuntimeHistories.IsRun(states, ops, replies) && T.IsRun(sys, moves) && sys[0] == T.Initial(v)
    && |at| == |ops| + 1 && at[0] == 0
    && (forall i: nat :: i < |ops| ==> ThroughTrait(ops[i]) && ThreadLink(states, ops, sys, at, i))
    && V.Valid(v) && V.View(v) == states[0].driver
  }

  ghost predicate Between(sys: seq<T.System>, at: seq<nat>, i: nat)
    requires i < |at|
  {
    at[i] < |sys| && sys[at[i]].client.Ready?
  }

  lemma PositionsAreReady(
      states: seq<State>, ops: seq<Op>, replies: seq<Reply>, v: V.Vulkan, sys: seq<T.System>, moves: seq<T.Move>, at: seq<nat>, i: nat)
    requires OverThread(states, ops, replies, v, sys, moves, at) && i <= |ops|
    ensures Between(sys, at, i)
  {
    if i > 0 {
      assert ThreadLink(states, ops, sys, at, i - 1);
    }
  }

  lemma {:induction false} PositionsIncrease(
      states: seq<State>, ops: seq<Op>, replies: seq<Reply>, v: V.Vulkan, sys: seq<T.System>, moves: seq<T.Move>, at: seq<nat>,
      i: nat, j: nat)
    requires OverThread(states, ops, replies, v, sys, moves, at) && i <= j <= |ops|
    ensures at[i] <= at[j]
    decreases j
  {
    if i < j {
      PositionsIncrease(states, ops, replies, v, sys, moves, at, i, j - 1);
      assert ThreadLink(states, ops, sys, at, j - 1);
    }
  }

  /** The driver's tables before each operation. */
  ghost function TablesAt(sys: seq<T.System>, at: seq<nat>): (vs: seq<V.Vulkan>)
    requires forall i: nat :: i < |at| ==> Between(sys, at, i)
    ensures |vs| == |at|
  {
    seq(|at|, (i: nat) requires i < |at| && Between(sys, at, i) => sys[at[i]].driver)
  }

  lemma ThreadLinkIsVulkanLink(
      states: seq<State>, ops: seq<Op>, replies: seq<Reply>, v: V.Vulkan, sys: seq<T.System>, moves: seq<T.Move>, at: seq<nat>, i: nat)
    requires OverThread(states, ops, replies, v, sys, moves, at) && i < |ops|
    ensures Between(sys, at, i) && Between(sys, at, i + 1)
    ensures sys[at[i + 1]].driver == VulkanDoes(sys[at[i]].driver, TraitCalls(states[i], ops[i])).0
    ensures TraitCalls(states[i], ops[i]) != [] ==>
              var before, after := sys[at[i]].log, sys[at[i + 1]].log;
              && |after| == |before| + 1 && after[|before|].call == TraitCalls(states[i], ops[i])[0]
              && after[|before|].result == VulkanDoes(sys[at[i]].driver, TraitCalls(states[i], ops[i])).1
  {
    assert ThreadLink(states, ops, sys, at, i);
    OneCall(states[i], ops[i]);
    LogBetween(sys, moves, at[i], at[i + 1]);
    var before, after := sys[at[i]].log, sys[at[i + 1]].log;
    if TraitCalls(states[i], ops[i]) != [] {
      assert T.CallsOf(after[|before|..])[0] == after[|before|..][0].call == after[|before|].call;
    }
  }

  /** The thread's own result of the i-th operation's trait call decides the reply. */
  ghost predicate ThreadDecides(
      states: seq<State>, ops: seq<Op>, replies: seq<Reply>, sys: seq<T.System>, at: seq<nat>, i: nat)
    requires i < |ops| == |replies| && i < |states| && i + 1 < |at|
  {
    && Between(sys, at, i) && Between(sys, at, i + 1)
    && (TraitCalls(states[i], ops[i]) != [] ==>
      && |sys[at[i]].log| < |sys[at[i + 1]].log|
      && Decides(states[i], ops[i], replies[i], sys[at[i + 1]].log[|sys[at[i]].log|].result))
  }

  /** Before the i-th operation the thread's driver shows what the runtime's does. */
  ghost predicate ThreadShows(states: seq<State>, sys: seq<T.System>, at: seq<nat>, i: nat)
    requires i < |states| && i < |at|
  {
    Between(sys, at, i) && V.Valid(sys[at[i]].driver) && V.View(sys[at[i]].driver) == states[i].driver
  }

  /**
   * Every interleaving carries the runtime: after every operation the driver shows what the run says,
   * and the result that came back through the thread decides the reply.
   */
  lemma ThreadCarriesTheRun(
      states: seq<State>, ops: seq<Op>, replies: seq<Reply>, v: V.Vulkan, sys: seq<T.System>, moves: seq<T.Move>, at: seq<nat>)
    requires OverThread(states, ops, replies, v, sys, moves, at)
    ensures forall i: nat :: i <= |ops| ==> ThreadShows(states, sys, at, i)
    ensures forall i: nat :: i < |ops| ==> ThreadDecides(states, ops, replies, sys, at, i)
  {
    forall i: nat | i <= |ops| ensures Between(sys, at, i) {
      PositionsAreReady(states, ops, replies, v, sys, moves, at, i);
    }
    var vs := TablesAt(sys, at);
    forall i: nat | i < |ops| ensures VulkanLink(states, ops, vs, i) {
      ThreadLinkIsVulkanLink(states, ops, replies, v, sys, moves, at, i);
    }
    forall i: nat | i <= |ops| ensures ThreadShows(states, sys, at, i) {
      assert Between(sys, at, i);
      VulkanCarriesTheRun(states, ops, replies, vs, i);
    }
    forall i: nat | i < |ops| ensures ThreadDecides(states, ops, replies, sys, at, i) {
      ThreadLinkIsVulkanLink(states, ops, replies, v, sys, moves, at, i);
      VulkanCarriesTheRun(states, ops, replies, vs, i + 1);
      assert VulkanDecides(states, ops, replies, vs, i);
    }
  }

  // ---------- The backend executes the successful submits ----------

  /** The translations of the successful submits, in order. */
  ghost function SubmittedOps(ops: seq<Op>, replies: seq<Reply>, n: nat): seq<seq<DriverOp>>
    requires n <= |ops| == |replies|
  {
    if n == 0 then []
    else
      SubmittedOps(ops, replies, n - 1)
      + if ops[n - 1].SubmitStream? && replies[n - 1] == Done then [TranslateOps(ops[n - 1].stream.ops)] else []
  }

  lemma {:induction false} SubmitsAreAccepted(states: seq<State>, ops: seq<Op>, replies: seq<Reply>, n: nat)
    requires RuntimeHistories.IsRun(states, ops, replies) && n <= |ops| && states[0].driver.accepted == []
    ensures T.OpsOf(states[n].driver.accepted) == SubmittedOps(ops, replies, n)
  {
    if n > 0 {
      SubmitsAreAccepted(states, ops, replies, n - 1);
      assert RuntimeHistories.Link(states, ops, replies, n - 1);
      var s, op := states[n - 1], ops[n - 1];
      if op.SubmitStream? {
        SubmitReachesDriver(s, op.queue, op.stream, op.timeline, op.signal, op.outcome);
        if replies[n - 1] == Done {
          var batch := Batch(s.devices[op.stream.device].gpu, op.queue.workload, TranslateOps(op.stream.ops));
          assert T.OpsOf(s.driver.accepted + [batch]) == T.OpsOf(s.driver.accepted) + [batch.ops];
        }
      } else {
        OthersReachNothing(s, op);
      }
    }
  }

  /**
   * End to end: whatever the interleaving, the backend has executed, with success, exactly the
   * translations of the runtime's successful submits, once each and in order.
   */
  lemma BackendExecutesTheSubmits(
      states: seq<State>, ops: seq<Op>, replies: seq<Reply>, v: V.Vulkan, sys: seq<T.System>, moves: seq<T.Move>, at: seq<nat>, n: nat)
    requires OverThread(states, ops, replies, v, sys, moves, at) && v.accepted == [] && n <= |ops|
    ensures Between(sys, at, n) && T.ExecutedOps(sys[at[n]].thread.calls) == SubmittedOps(ops, replies, n)
  {
    ThreadCarriesTheRun(states, ops, replies, v, sys, moves, at);
    assert ThreadShows(states, sys, at, n);
    T.AcceptedWereExecuted(v, sys, moves, at[n]);
    assert T.OpsOf(v.accepted) + T.ExecutedOps(sys[at[n]].thread.calls) == T.ExecutedOps(sys[at[n]].thread.calls);
    SubmitsAreAccepted(states, ops, replies, n);
  }

  // ---------- After a backend panic ----------

  lemma SilentSubmitOrRecoverFails(s: State, op: Op)
    requires (op.SubmitStream? || op.RecoverDevice?) && TraitCalls(s, op) == []
    ensures Step(s, op).1.Failed?
  {
  }

  lemma RefusedSubmitOrRecoverFails(s: State, op: Op, result: Result<()>)
    requires (op.SubmitStream? || op.RecoverDevice?) && TraitCalls(s, op) != []
    requires T.Asks(TraitCalls(s, op)[0]) ==> result.Err?
    requires Decides(s, op, Step(s, op).1, result)
    ensures Step(s, op).1.Failed?
  {
  }

  /**
   * Once the backend has panicked, no submit of any context on any GPU succeeds any more, and no
   * recovery does: a panicked render thread is not restarted.
   */
  lemma NothingRecoversFromPanic(
      states: seq<State>, ops: seq<Op>, replies: seq<Reply>, v: V.Vulkan, sys: seq<T.System>, moves: seq<T.Move>, at: seq<nat>,
      i: nat, j: nat)
    requires OverThread(states, ops, replies, v, sys, moves, at) && i <= j < |ops|
    requires Between(sys, at, i) && T.EndsInPanic(sys[at[i]].thread.calls)
    requires ops[j].SubmitStream? || ops[j].RecoverDevice?
    ensures replies[j].Failed?
  {
    assert RuntimeHistories.Link(states, ops, replies, j);
    if TraitCalls(states[j], ops[j]) == [] {
      SilentSubmitOrRecoverFails(states[j], ops[j]);
    } else {
      PositionsIncrease(states, ops, replies, v, sys, moves, at, i, j);
      ThreadCarriesTheRun(states, ops, replies, v, sys, moves, at);
      assert ThreadDecides(states, ops, replies, sys, at, j);
      ThreadLinkIsVulkanLink(states, ops, replies, v, sys, moves, at, j);
      assert ThreadLink(states, ops, sys, at, j);
      LateCallIsRefused(v, sys, moves, at[i], at[j], at[j + 1]);
      RefusedSubmitOrRecoverFails(states[j], ops[j], sys[at[j + 1]].log[|sys[at[j]].log|].result);
    }
  }

  lemma LateCallIsRefused(v: V.Vulkan, sys: seq<T.System>, moves: seq<T.Move>, a: nat, b: nat, c: nat)
    requires T.IsRun(sys, moves) && sys[0] == T.Initial(v) && a <= b <= c <= |moves|
    requires T.EndsInPanic(sys[a].thread.calls) && |sys[c].log| == |sys[b].log| + 1
    ensures T.Asks(sys[c].log[|sys[b].log|].call) ==> sys[c].log[|sys[b].log|].result.Err?
  {
    LogBetween(sys, moves, a, b);
    PanicEndsEveryGpu(v, sys, moves, a, c);
  }
}
