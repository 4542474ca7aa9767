/** Over a backend that starts and never fails, the whole interleaved Vulkan driver is the software driver. */
module HealthyBackend {
  import opened Common
  import opened GpuDriver
  import opened RenderThread
  import opened ThreadProtocol
  import opened DriverEquivalence
  import S = SoftwareDriver
  import V = VulkanDriver

  /** The worker starts, and every backend call succeeds. */
  ghost predicate Healthy(m: Move) {
    m.Worker? ==> (m.step.Start? ==> m.step.works) && (m.step.Finish? ==> m.step.outcome == Success)
  }

  /** Until it is told to shut down the worker is there, and whoever was answered was answered well. */
  ghost predicate StaysWell(s: System) {
    && Inv(s)
    && (s.client.Ready? || s.client.Blocked? ==> !Gone(s.thread.worker))
    && (s.client.Blocked? ==>
          s.thread.slots[s.client.reply].Waiting? || s.thread.slots[s.client.reply] == Replied(Success))
    && (forall i :: 0 <= i < |s.log| ==> S.NeverFails(s.log[i].call))
  }

  lemma HealthyMove(s: System, m: Move)
    requires StaysWell(s) && CanMove(s, m) && Healthy(m)
    ensures StaysWell(ThreadProtocol.After(s, m))
  {
    MoveKeepsInv(s, m);
    if m.Worker? && s.client.Blocked? {
      HealthyWorker(s, m.step);
    }
  }

  lemma HealthyWorker(s: System, step: WorkerStep)
    requires StaysWell(s) && s.client.Blocked? && Enabled(s.thread, step) && Healthy(Worker(step))
    ensures StaysWell(ThreadProtocol.After(s, Worker(step)))
  {
    MoveKeepsInv(s, Worker(step));
  }

  /** Every call completed over a healthy backend, from opening to shutdown, had an answer that never fails. */
  lemma {:induction false} HealthyCallsNeverFail(v: V.Vulkan, states: seq<System>, moves: seq<Move>, n: nat)
    requires ThreadProtocol.IsRun(states, moves) && states[0] == Initial(v) && n <= |moves|
    requires forall m :: m in moves ==> Healthy(m)
    ensures StaysWell(states[n])
  {
    if n == 0 {
    } else {
      HealthyCallsNeverFail(v, states, moves, n - 1);
      assert ThreadProtocol.Link(states, moves, n - 1);
      assert moves[n - 1] in moves;
      HealthyMove(states[n - 1], moves[n - 1]);
    }
  }

  /**
   * Bisimulation, down to the thread: in any interleaving over a healthy backend, a software driver
   * opened on the same devices and made the same calls gives every result the Vulkan driver gave, and
   * shows the same free VRAM, faults and allocations.
   */
  lemma HealthyThreadIsSoftware(
      ids: seq<ObjectId>, vram: u64, states: seq<System>, moves: seq<Move>, n: nat, sws: seq<S.Software>)
    requires ThreadProtocol.IsRun(states, moves) && states[0] == Initial(V.Opened(ids, vram)) && n <= |moves|
    requires forall m :: m in moves ==> Healthy(m)
    requires S.IsRun(sws, CallsOf(states[n].log)) && sws[0] == S.Opened(ids, vram)
    ensures var s := states[n];
            && V.Valid(s.driver) && S.View(sws[|s.log|]) == V.View(s.driver)
            && forall i :: 0 <= i < |s.log| ==> S.Step(sws[i], s.log[i].call).1 == s.log[i].result
  {
    var s := states[n];
    var calls := CallsOf(s.log);
    HealthyCallsNeverFail(V.Opened(ids, vram), states, moves, n);
    var tables := LogIsRun(V.Opened(ids, vram), states, moves, n);
    OpenedAgree(ids, vram);
    forall c | c in calls ensures S.NeverFails(c) {
      var i :| 0 <= i < |calls| && calls[i] == c;
    }
    DriversAgree(sws, tables, calls, |calls|);
    forall i | 0 <= i < |s.log| ensures S.Step(sws[i], s.log[i].call).1 == s.log[i].result {
      DriversAgree(sws, tables, calls, i + 1);
      assert calls[i] == s.log[i].call;
    }
  }
}
