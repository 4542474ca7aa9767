/**
 * One render thread serves every GPU of a VulkanDriver, so what the bookkeeping keeps apart the
 * thread does not: a backend panic on one GPU ends submission on all of them, for good.
 */
module SharedRenderThread {
  import opened Common
  import opened GraphicsApi
  import opened CommandStreams
  import opened GpuDriver
  import opened RenderThread
  import opened VulkanDriver
  import opened ThreadProtocol

  /** After a backend panic, no submit and no reset succeeds any more, on any device. */
  lemma PanicEndsEveryGpu(v: Vulkan, states: seq<System>, moves: seq<Move>, m: nat, n: nat)
    requires ThreadProtocol.IsRun(states, moves) && states[0] == Initial(v) && m <= n <= |moves|
    requires EndsInPanic(states[m].thread.calls)
    ensures states[n].thread.calls == states[m].thread.calls
    ensures |states[m].log| <= |states[n].log| && states[n].log[..|states[m].log|] == states[m].log
    ensures forall i :: |states[m].log| <= i < |states[n].log| && Asks(states[n].log[i].call) ==>
              states[n].log[i].result.Err?
  {
    RunKeepsInv(states, moves, m);
    PanickedIsGone(states[m]);
    GoneForever(states, moves, m, n);
  }

  lemma PanickedIsGone(s: System)
    requires Inv(s) && EndsInPanic(s.thread.calls)
    ensures Gone(s.thread.worker)
  {
    assert Sound(s.thread);
  }

  // ---------- When a request can still succeed ----------

  /** A run from s that makes request r and is answered Ok, by one successful backend call. */
  ghost predicate Succeeds(s: System, r: Request, states: seq<System>, moves: seq<Move>) {
    && ThreadProtocol.IsRun(states, moves) && states[0] == s && moves != [] && moves[0] == Ask(r)
    && states[|moves|].client.Ready?
    && states[|moves|].log == s.log + [Entry(CallOf(r, Finished(Success)), Ok(()), Some(Success))]
  }

  lemma JoinRuns(states: seq<System>, moves: seq<Move>, more: seq<System>, next: seq<Move>)
    requires ThreadProtocol.IsRun(states, moves) && ThreadProtocol.IsRun(more, next) && states[|moves|] == more[0]
    ensures ThreadProtocol.IsRun(states + more[1..], moves + next)
    ensures (states + more[1..])[0] == states[0] && (states + more[1..])[|moves + next|] == more[|next|]
  {
    var states', moves' := states + more[1..], moves + next;
    forall i: nat | i < |moves'| ensures ThreadProtocol.Link(states', moves', i) {
      if i < |moves| {
        assert ThreadProtocol.Link(states, moves, i);
      } else {
        assert ThreadProtocol.Link(more, next, i - |moves|);
      }
    }
  }

  /** The last three moves of a served request: the worker takes it, the backend ends, the caller returns. */
  lemma ServedFrom(y: System, outcome: Outcome) returns (states: seq<System>, moves: seq<Move>)
    requires Inv(y) && y.client.Blocked? && y.thread.slots[y.client.reply].Waiting? && y.thread.worker.Idle?
    ensures ThreadProtocol.IsRun(states, moves) && states[0] == y
    ensures var y', c := states[|moves|], CallOf(y.client.request, ServedReply(outcome));
            && y'.client.Ready? && (outcome.Panic? ==> y'.thread.worker.Dying?)
            && y'.driver == Step(y.driver, c).0 && y'.log == y.log + [Entry(c, Step(y.driver, c).1, Some(outcome))]
            && y'.thread.calls == y.thread.calls + [BackendCall(WorkOf(y.client.request), outcome)]
  {
    var k, r := y.client.reply, y.client.request;
    assert y.thread.queue == [RenderThread.Request(WorkOf(r), k)];
    var y1 := ThreadProtocol.After(y, Worker(Receive));
    assert y.thread.queue[1..] == [];
    var y2 := ThreadProtocol.After(y1, Worker(Finish(outcome)));
    assert y2.thread.calls[y.client.asked] == BackendCall(WorkOf(r), outcome);
    var y3 := ThreadProtocol.After(y2, Return);
    states, moves := [y, y1, y2, y3], [Worker(Receive), Worker(Finish(outcome)), Return];
    assert ThreadProtocol.Link(states, moves, 0) && ThreadProtocol.Link(states, moves, 1) && ThreadProtocol.Link(states, moves, 2);
  }

  /** Asking, and the worker's start if it has not started: then the request can be served. */
  lemma AskedOf(s: System, r: Request) returns (states: seq<System>, moves: seq<Move>)
    requires Inv(s) && s.client.Ready? && NeedsThread(s.driver, r) && !Gone(s.thread.worker)
    ensures ThreadProtocol.IsRun(states, moves) && states[0] == s && moves != [] && moves[0] == Ask(r)
    ensures var y := states[|moves|];
            && Inv(y) && y.client.Blocked? && y.client.request == r
            && y.log == s.log && y.driver == s.driver && y.thread.calls == s.thread.calls
            && y.thread.slots[y.client.reply].Waiting? && y.thread.worker.Idle?
  {
    var s1 := ThreadProtocol.After(s, Ask(r));
    MoveKeepsInv(s, Ask(r));
    if s.thread.worker.Idle? {
      states, moves := [s, s1], [Ask(r)];
      assert ThreadProtocol.Link(states, moves, 0);
    } else {
      var s2 := ThreadProtocol.After(s1, Worker(Start(true)));
      MoveKeepsInv(s1, Worker(Start(true)));
      states, moves := [s, s1, s2], [Ask(r), Worker(Start(true))];
      assert ThreadProtocol.Link(states, moves, 0) && ThreadProtocol.Link(states, moves, 1);
    }
  }

  lemma SucceedsWhileWorkerLives(s: System, r: Request)
    requires Inv(s) && s.client.Ready? && NeedsThread(s.driver, r) && !Gone(s.thread.worker)
    ensures exists states, moves :: Succeeds(s, r, states, moves)
  {
    var states, moves := AskedOf(s, r);
    var more, next := ServedFrom(states[|moves|], Success);
    JoinRuns(states, moves, more, next);
    assert Succeeds(s, r, states + more[1..], moves + next);
  }

  /**
   * A submit to an unfaulted device, or a reset of a known one, can still succeed exactly while the
   * worker is not gone, whatever was refused or lost on other devices before.
   */
  lemma RequestCanSucceedIff(s: System, r: Request)
    requires Inv(s) && s.client.Ready? && NeedsThread(s.driver, r)
    ensures (exists states, moves :: Succeeds(s, r, states, moves)) <==> !Gone(s.thread.worker)
  {
    if Gone(s.thread.worker) {
      forall states: seq<System>, moves: seq<Move> ensures !Succeeds(s, r, states, moves) {
        if Succeeds(s, r, states, moves) {
          GoneForever(states, moves, 0, |moves|);
          assert Asks(states[|moves|].log[|s.log|].call);
        }
      }
    } else {
      SucceedsWhileWorkerLives(s, r);
    }
  }

  // ---------- Two GPUs, one panic ----------

  /** A request that finds the worker dying: queued, dropped with the receiver, and answered with an error. */
  lemma AbandonedFrom(s: System, r: Request) returns (states: seq<System>, moves: seq<Move>)
    requires Inv(s) && s.client.Ready? && NeedsThread(s.driver, r) && s.thread.worker.Dying?
    ensures ThreadProtocol.IsRun(states, moves) && states[0] == s && moves == [Ask(r), Worker(DropReceiver), Return]
    ensures var s' := states[3];
            && s'.client.Ready? && s'.driver == Step(s.driver, CallOf(r, Stopped)).0
            && s'.log == s.log + [Entry(CallOf(r, Stopped), Step(s.driver, CallOf(r, Stopped)).1, None)]
  {
    var s1 := ThreadProtocol.After(s, Ask(r));
    MoveKeepsInv(s, Ask(r));
    var k := s.thread.nextReply;
    var t := s1.thread;
    assert t.queue == [RenderThread.Request(WorkOf(r), k)] && t.queue[1..] == [];
    assert DropQueued(t.slots, t.queue) == t.slots[k := Disconnected];
    var s2 := ThreadProtocol.After(s1, Worker(DropReceiver));
    var s3 := ThreadProtocol.After(s2, Return);
    states, moves := [s, s1, s2, s3], [Ask(r), Worker(DropReceiver), Return];
    assert ThreadProtocol.Link(states, moves, 0) && ThreadProtocol.Link(states, moves, 1) && ThreadProtocol.Link(states, moves, 2);
  }

  function TwoGpus(): Vulkan { Opened([0, 1], 100) }

  function SubmitOn(device: ObjectId): Request { SubmitTo(device, Graphics, []) }

  lemma PanicOnFirst() returns (states: seq<System>, moves: seq<Move>)
    ensures ThreadProtocol.IsRun(states, moves) && states[0] == Initial(TwoGpus())
    ensures var s := states[|moves|];
            && s.client.Ready? && s.thread.worker.Dying? && EndsInPanic(s.thread.calls)
            && |s.log| == 1 && s.driver.devices == {0, 1} && s.driver.faults.Keys == {0}
  {
    var asked, ask := AskedOf(Initial(TwoGpus()), SubmitOn(0));
    var served, serve := ServedFrom(asked[|ask|], Panic);
    JoinRuns(asked, ask, served, serve);
    states, moves := asked + served[1..], ask + serve;
  }

  /**
   * Opened on two GPUs, a submit to the first panics the backend; the second, which has no fault, is
   * then refused a submit, and is marked faulted for it.
   */
  lemma PanicOnOneGpuFailsTheOther() returns (states: seq<System>, moves: seq<Move>, m: nat)
    ensures ThreadProtocol.IsRun(states, moves) && states[0] == Initial(TwoGpus()) && m < |moves|
    ensures states[m].client.Ready? && EndsInPanic(states[m].thread.calls)
    ensures moves[m] == Ask(SubmitOn(1)) && NeedsThread(states[m].driver, SubmitOn(1))
    ensures var s := states[|moves|];
            && s.client.Ready? && |s.log| == 2 && 1 in s.driver.faults
            && s.log[1].call == CallOf(SubmitOn(1), Stopped) && s.log[1].result.Err?
  {
    var before, asked := PanicOnFirst();
    m := |asked|;
    assert Inv(before[0]);
    RunKeepsInv(before, asked, m);
    var more, next := AbandonedFrom(before[m], SubmitOn(1));
    JoinRuns(before, asked, more, next);
    states, moves := before + more[1..], asked + next;
  }
}
