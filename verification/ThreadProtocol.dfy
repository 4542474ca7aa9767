/**
 * The caller of VulkanDriver and its render thread as one interleaved system, and the atomic
 * driver it refines: a driver that calls the backend directly, in call order.
 */
module ThreadProtocol {
  import opened Common
  import opened GraphicsApi
  import opened CommandStreams
  import opened GpuDriver
  import opened RenderThread
  import opened VulkanDriver

  datatype Request = SubmitTo(device: ObjectId, workload: WorkloadClass, ops: seq<DriverOp>) | ResetOf(device: ObjectId)

  function WorkOf(r: Request): Work {
    match r
    case SubmitTo(_, _, ops) => Execute(ops)
    case ResetOf(_) => Recreate
  }

  /** What is written down as the reply to a request that is settled without one; it is never consulted. */
  const UNASKED: Reply := Finished(Success)

  /** The driver call a request is, once its reply is known. */
  function CallOf(r: Request, reply: Reply): Call {
    match r
    case SubmitTo(device, workload, ops) => Submit(device, workload, ops, AnswerOf(reply))
    case ResetOf(device) => Reset(device, Works(reply))
  }

  /** The request passes the checks that are made before the thread is asked. */
  predicate NeedsThread(v: Vulkan, r: Request) {
    r.device in v.devices && (r.SubmitTo? ==> r.device !in v.faults)
  }

  /** A completed call; `served` is a history variable: how the backend call made for it ended, if one was made. */
  datatype Entry = Entry(call: Call, result: Result<()>, served: Option<Outcome>)

  /** `asked` is a history variable: how many backend calls there were when the request was sent. */
  datatype Client = Ready | Blocked(request: Request, reply: nat, asked: nat) | Joining | Ended

  datatype System = System(driver: Vulkan, client: Client, thread: Thread, log: seq<Entry>)

  datatype Move =
    | Local(call: Call)         // a call that never involves the thread
    | Ask(request: Request)
    | Worker(step: WorkerStep)
    | Return                    // the blocked caller picks up its reply
    | Shut                      // drop: send Shutdown
    | Join                      // drop: the thread has ended

  function Initial(v: Vulkan): System {
    System(v, Ready, Spawned, [])
  }

  predicate StaysLocal(c: Call) { c.Allocate? || c.Free? || c.MarkFaulted? }

  predicate CanMove(s: System, m: Move) {
    match m
    case Local(c) => s.client.Ready? && StaysLocal(c)
    case Ask(_) => s.client.Ready?
    case Worker(step) => Enabled(s.thread, step)
    case Return =>
      s.client.Blocked? && s.client.reply in s.thread.slots && !s.thread.slots[s.client.reply].Waiting?
    case Shut => s.client.Ready?
    case Join => s.client.Joining? && s.thread.worker.Dead?
  }

  function Complete(v: Vulkan, log: seq<Entry>, c: Call, served: Option<Outcome>): (Vulkan, seq<Entry>) {
    (Step(v, c).0, log + [Entry(c, Step(v, c).1, served)])
  }

  function ReplyIn(slot: Slot): Reply {
    if slot.Replied? then Finished(slot.outcome) else Stopped
  }

  function ServedSince(calls: seq<BackendCall>, asked: nat): Option<Outcome> {
    if asked < |calls| then Some(calls[asked].outcome) else None
  }

  function After(s: System, m: Move): System
    requires CanMove(s, m)
  {
    match m
    case Local(c) =>
      var (v, log) := Complete(s.driver, s.log, c, None);
      s.(driver := v, log := log)
    case Ask(r) =>
      if !NeedsThread(s.driver, r) then
        var (v, log) := Complete(s.driver, s.log, CallOf(r, UNASKED), None);
        s.(driver := v, log := log)
      else
        var k := s.thread.nextReply;
        var asked := s.(thread := Send(OpenReply(s.thread), RenderThread.Request(WorkOf(r), k)));
        if s.thread.open then asked.(client := Blocked(r, k, |s.thread.calls|))
        else
          var (v, log) := Complete(s.driver, s.log, CallOf(r, NotRunning), None);
          asked.(driver := v, log := log)
    case Worker(step) => s.(thread := Moved(s.thread, step))
    case Return =>
      var reply := ReplyIn(s.thread.slots[s.client.reply]);
      var (v, log) := Complete(s.driver, s.log, CallOf(s.client.request, reply),
                               ServedSince(s.thread.calls, s.client.asked));
      s.(driver := v, log := log, client := Ready)
    case Shut => s.(thread := Send(s.thread, Shutdown), client := Joining)
    case Join => s.(client := Ended)
  }

  ghost predicate Inv(s: System) {
    match s.client
    case Ready => Quiet(s.thread)
    case Blocked(r, k, asked) =>
      && asked <= |s.thread.calls|
      && Pending(s.thread, k, WorkOf(r), s.thread.calls[..asked])
      && NeedsThread(s.driver, r)
    case Joining => Closing(s.thread)
    case Ended => Closing(s.thread) && s.thread.worker.Dead?
  }

  lemma BlockedWorkerKeepsInv(s: System, step: WorkerStep)
    requires Inv(s) && s.client.Blocked? && Enabled(s.thread, step)
    ensures Inv(After(s, Worker(step)))
  {
    var before := s.thread.calls[..s.client.asked];
    PendingStays(s.thread, step, s.client.reply, WorkOf(s.client.request), before);
    assert Moved(s.thread, step).calls[..s.client.asked] == before;
  }

  lemma MoveKeepsInv(s: System, m: Move)
    requires Inv(s) && CanMove(s, m)
    ensures Inv(After(s, m))
  {
    match m
    case Ask(r) =>
      RequestIsPending(s.thread, WorkOf(r));
      assert s.thread.calls[..|s.thread.calls|] == s.thread.calls;
    case Worker(step) =>
      match s.client {
        case Ready => QuietStays(s.thread, step);
        case Blocked(_, _, _) => BlockedWorkerKeepsInv(s, step);
        case Joining => ClosingStays(s.thread, step);
        case Ended =>
      }
    case _ =>
  }

  // ---------- The atomic driver ----------

  /** A driver whose calls reach the backend at once, while it lives, in call order. */
  datatype Atomic = Atomic(driver: Vulkan, calls: seq<BackendCall>, alive: bool, closed: bool, log: seq<Entry>)

  datatype AtomicStep =
    | Direct(call: Call)                          // settled without the backend
    | Serve(request: Request, outcome: Outcome)   // one backend call
    | Miss(request: Request, reply: Reply)        // the backend is gone
    | Stop                                        // the backend goes: before its first call, or after close
    | Close

  predicate Settled(v: Vulkan, c: Call) {
    match c
    case Submit(device, _, _, _) => device !in v.devices || device in v.faults
    case Reset(device, _) => device !in v.devices
    case _ => true
  }

  function ServedReply(outcome: Outcome): Reply {
    if outcome.Panic? then Stopped else Finished(outcome)
  }

  predicate Allows(a: Atomic, l: AtomicStep) {
    match l
    case Direct(c) => !a.closed && Settled(a.driver, c)
    case Serve(r, _) => !a.closed && a.alive && NeedsThread(a.driver, r)
    case Miss(r, reply) => !a.closed && !a.alive && NeedsThread(a.driver, r) && !reply.Finished?
    case Stop => a.alive && (a.calls == [] || a.closed)
    case Close => !a.closed
  }

  function Steps(a: Atomic, l: AtomicStep): Atomic {
    match l
    case Direct(c) =>
      var (v, log) := Complete(a.driver, a.log, c, None);
      a.(driver := v, log := log)
    case Serve(r, outcome) =>
      var (v, log) := Complete(a.driver, a.log, CallOf(r, ServedReply(outcome)), Some(outcome));
      a.(driver := v, log := log, calls := a.calls + [BackendCall(WorkOf(r), outcome)], alive := !outcome.Panic?)
    case Miss(r, reply) =>
      var (v, log) := Complete(a.driver, a.log, CallOf(r, reply), None);
      a.(driver := v, log := log)
    case Stop => a.(alive := false)
    case Close => a.(closed := true)
  }

  /** The atomic driver a system stands for: a blocked call takes effect when its reply is decided. */
  ghost function Abs(s: System): Atomic
    requires Inv(s)
  {
    var alive, closed := !Gone(s.thread.worker), s.client.Joining? || s.client.Ended?;
    if s.client.Blocked? && !s.thread.slots[s.client.reply].Waiting? then
      var (v, log) := Complete(s.driver, s.log,
        CallOf(s.client.request, ReplyIn(s.thread.slots[s.client.reply])),
        ServedSince(s.thread.calls, s.client.asked));
      Atomic(v, s.thread.calls, alive, closed, log)
    else
      Atomic(s.driver, s.thread.calls, alive, closed, s.log)
  }

  /** The atomic step a move of the system is, if it is one. */
  function StepOf(s: System, m: Move): Option<AtomicStep> {
    match m
    case Local(c) => Some(Direct(c))
    case Ask(r) =>
      if !NeedsThread(s.driver, r) then Some(Direct(CallOf(r, UNASKED)))
      else if !s.thread.open then Some(Miss(r, NotRunning))
      else None
    case Worker(step) =>
      (match step
       case Start(works) => if works then None else Some(Stop)
       case Receive => if s.thread.queue != [] && s.thread.queue[0].Shutdown? then Some(Stop) else None
       case Finish(outcome) => if s.client.Blocked? then Some(Serve(s.client.request, outcome)) else None
       case DropReceiver =>
         if s.client.Blocked? && s.thread.queue != [] then Some(Miss(s.client.request, Stopped)) else None)
    case Return => None
    case Shut => Some(Close)
    case Join => None
  }

  lemma WorkerMoveIsAtomic(s: System, step: WorkerStep)
    requires Inv(s) && Enabled(s.thread, step) && s.client.Blocked?
    requires Inv(After(s, Worker(step)))
    ensures match StepOf(s, Worker(step))
            case None => Abs(After(s, Worker(step))) == Abs(s)
            case Some(l) => Allows(Abs(s), l) && Abs(After(s, Worker(step))) == Steps(Abs(s), l)
  {
    var t, t', k := s.thread, Moved(s.thread, step), s.client.reply;
    if step.Finish? {
      assert t'.calls == t.calls + [BackendCall(WorkOf(s.client.request), step.outcome)];
      assert ServedSince(t'.calls, s.client.asked) == Some(step.outcome);
    }
    if step.DropReceiver? {
      if t.queue != [] {
        assert t.queue[1..] == [];
        assert t'.slots[k] == Disconnected;
      } else {
        assert t'.slots == t.slots;
      }
    }
  }

  /** Every move of the interleaved system is one step of the atomic driver, or none. */
  lemma MoveIsAtomic(s: System, m: Move)
    requires Inv(s) && CanMove(s, m)
    ensures Inv(After(s, m))
    ensures match StepOf(s, m)
            case None => Abs(After(s, m)) == Abs(s)
            case Some(l) => Allows(Abs(s), l) && Abs(After(s, m)) == Steps(Abs(s), l)
  {
    MoveKeepsInv(s, m);
    match m
    case Worker(step) =>
      if s.client.Blocked? {
        WorkerMoveIsAtomic(s, step);
      }
    case _ =>
  }

  // ---------- Whole runs ----------

  ghost predicate Link(states: seq<System>, moves: seq<Move>, i: nat)
    requires i < |moves| < |states|
  {
    CanMove(states[i], moves[i]) && states[i + 1] == After(states[i], moves[i])
  }

  /** states[i] is the system before moves[i]. */
  ghost predicate IsRun(states: seq<System>, moves: seq<Move>) {
    |states| == |moves| + 1 && forall i: nat :: i < |moves| ==> Link(states, moves, i)
  }

  ghost predicate AtomicLink(states: seq<Atomic>, steps: seq<AtomicStep>, i: nat)
    requires i < |steps| < |states|
  {
    Allows(states[i], steps[i]) && states[i + 1] == Steps(states[i], steps[i])
  }

  ghost predicate IsAtomicRun(states: seq<Atomic>, steps: seq<AtomicStep>) {
    |states| == |steps| + 1 && forall i: nat :: i < |steps| ==> AtomicLink(states, steps, i)
  }

  lemma ExtendAtomicRun(states: seq<Atomic>, steps: seq<AtomicStep>, l: AtomicStep)
    requires IsAtomicRun(states, steps) && Allows(states[|steps|], l)
    ensures IsAtomicRun(states + [Steps(states[|steps|], l)], steps + [l])
  {
    var states', steps' := states + [Steps(states[|steps|], l)], steps + [l];
    forall i: nat | i < |steps'| ensures AtomicLink(states', steps', i) {
      if i < |steps| {
        assert AtomicLink(states, steps, i);
      }
    }
  }

  lemma {:induction false} RunKeepsInv(states: seq<System>, moves: seq<Move>, n: nat)
    requires IsRun(states, moves) && Inv(states[0]) && n <= |moves|
    ensures Inv(states[n])
  {
    if n == 0 {
    } else {
      RunKeepsInv(states, moves, n - 1);
      assert Link(states, moves, n - 1);
      MoveKeepsInv(states[n - 1], moves[n - 1]);
    }
  }

  /**
   * Refinement: for every interleaving of caller and render thread there is a run of the atomic
   * driver that ends in the state the system stands for: same tables, same results, same backend calls.
   */
  lemma {:induction false} EveryInterleavingIsAtomic(states: seq<System>, moves: seq<Move>, n: nat)
    returns (atomic: seq<Atomic>, steps: seq<AtomicStep>)
    requires IsRun(states, moves) && Inv(states[0]) && n <= |moves|
    ensures Inv(states[0]) && Inv(states[n])
    ensures IsAtomicRun(atomic, steps) && atomic[0] == Abs(states[0]) && atomic[|steps|] == Abs(states[n])
  {
    RunKeepsInv(states, moves, n);
    if n == 0 {
      atomic, steps := [Abs(states[0])], [];
    } else {
      var a, ss := EveryInterleavingIsAtomic(states, moves, n - 1);
      var s, m := states[n - 1], moves[n - 1];
      assert Link(states, moves, n - 1);
      MoveIsAtomic(s, m);
      match StepOf(s, m)
      case None => atomic, steps := a, ss;
      case Some(l) =>
        ExtendAtomicRun(a, ss, l);
        atomic, steps := a + [Steps(Abs(s), l)], ss + [l];
    }
  }

  /** Between calls, what the atomic driver shows is what the system holds. */
  lemma ReadyShowsItself(s: System)
    requires Inv(s) && s.client.Ready?
    ensures Abs(s) == Atomic(s.driver, s.thread.calls, !Gone(s.thread.worker), false, s.log)
  {
  }

  // ---------- What the atomic driver guarantees ----------

  function WorkIn(c: Call): Work {
    if c.Submit? then Execute(c.ops) else Recreate
  }

  /** The backend calls a log accounts for. */
  function ServedIn(log: seq<Entry>): seq<BackendCall>
    decreases |log|
  {
    if log == [] then []
    else
      var e := log[|log| - 1];
      ServedIn(log[..|log| - 1]) + match e.served case None => [] case Some(o) => [BackendCall(WorkIn(e.call), o)]
  }

  lemma ServedAppends(log: seq<Entry>, e: Entry)
    ensures ServedIn(log + [e])
         == ServedIn(log) + match e.served case None => [] case Some(o) => [BackendCall(WorkIn(e.call), o)]
  {
    assert (log + [e])[..|log|] == log;
  }

  ghost predicate Asks(c: Call) { c.Submit? || c.Reset? }

  /** The request reached the backend, which ended in `outcome`: the driver heard just that. */
  ghost predicate WasServed(now: Vulkan, r: Request, outcome: Outcome, c: Call) {
    NeedsThread(now, r) && c == CallOf(r, ServedReply(outcome))
  }

  /** The request found the backend gone. */
  ghost predicate WasMissed(now: Vulkan, r: Request, reply: Reply, c: Call) {
    NeedsThread(now, r) && !reply.Finished? && c == CallOf(r, reply)
  }

  /**
   * What an entry says of the driver it met: the result is the driver's own. While the backend lived,
   * a call that had to ask was served by one backend call, and its answer is that call's outcome; once
   * it was gone, such a call went unserved. Calls settled without the backend made no backend call.
   */
  ghost predicate Faithful(now: Vulkan, e: Entry, live: bool) {
    && e.result == Step(now, e.call).1
    && match e.served
       case Some(outcome) => live && exists r :: WasServed(now, r, outcome, e.call)
       case None => Settled(now, e.call) || (!live && exists r, reply :: WasMissed(now, r, reply, e.call))
  }

  /** The log is a run of the driver's own calls from v to v'; the backend lived for its first `cut` entries. */
  ghost predicate Replays(v: Vulkan, log: seq<Entry>, v': Vulkan, cut: nat)
    decreases |log|
  {
    if log == [] then v == v'
    else
      var e := log[|log| - 1];
      exists now :: Replays(v, log[..|log| - 1], now, cut) && Faithful(now, e, |log| <= cut) && v' == Step(now, e.call).0
  }

  lemma ReplayAppends(v: Vulkan, log: seq<Entry>, now: Vulkan, c: Call, served: Option<Outcome>, cut: nat)
    requires Replays(v, log, now, cut)
    requires Faithful(now, Entry(c, Step(now, c).1, served), |log| < cut)
    ensures Replays(v, Complete(now, log, c, served).1, Complete(now, log, c, served).0, cut)
  {
    var log' := log + [Entry(c, Step(now, c).1, served)];
    assert log'[..|log'| - 1] == log && log'[|log'| - 1] == Entry(c, Step(now, c).1, served);
  }

  /** While the backend lives the cut is at, or past, the end: where exactly does not matter. */
  lemma {:induction false} ReplayUncut(v: Vulkan, log: seq<Entry>, v': Vulkan, cut: nat, cut': nat)
    requires Replays(v, log, v', cut) && |log| <= cut && |log| <= cut'
    ensures Replays(v, log, v', cut')
    decreases |log|
  {
    if log == [] {
    } else {
      var e := log[|log| - 1];
      var now :| Replays(v, log[..|log| - 1], now, cut) && Faithful(now, e, |log| <= cut) && v' == Step(now, e.call).0;
      ReplayUncut(v, log[..|log| - 1], now, cut, cut');
      assert Faithful(now, e, |log| <= cut');
    }
  }

  ghost predicate EndsInPanic(calls: seq<BackendCall>) {
    calls != [] && calls[|calls| - 1].outcome.Panic?
  }

  /** The log replays up to a cut where the backend went; nothing follows a panic, and the cut does at once. */
  ghost predicate AtomicInv(v: Vulkan, a: Atomic, cut: nat) {
    && Replays(v, a.log, a.driver, cut)
    && cut <= |a.log| && (a.alive ==> cut == |a.log|)
    && ServedIn(a.log) == a.calls
    && (forall i :: 0 <= i < |a.calls| && a.calls[i].outcome.Panic? ==> i == |a.calls| - 1 && !a.alive)
    && (EndsInPanic(a.calls) ==> 0 < cut && a.log[cut - 1].served == Some(Panic))
  }

  /** Where the backend goes, if it has gone after the step. */
  function CutAfter(a: Atomic, l: AtomicStep, cut: nat): nat {
    if l.Serve? || (l.Direct? && a.alive) then cut + 1 else cut
  }

  lemma DirectKeepsAtomicInv(v: Vulkan, a: Atomic, c: Call, cut: nat)
    requires AtomicInv(v, a, cut) && Allows(a, Direct(c))
    ensures AtomicInv(v, Steps(a, Direct(c)), CutAfter(a, Direct(c), cut))
  {
    var e := Entry(c, Step(a.driver, c).1, None);
    var cut' := CutAfter(a, Direct(c), cut);
    ServedAppends(a.log, e);
    if a.alive {
      ReplayUncut(v, a.log, a.driver, cut, cut');
    }
    assert Faithful(a.driver, e, |a.log| < cut');
    ReplayAppends(v, a.log, a.driver, c, None, cut');
    assert a.calls + [] == a.calls;
  }

  lemma ServeIsFaithful(v: Vulkan, r: Request, outcome: Outcome)
    requires NeedsThread(v, r)
    ensures var c := CallOf(r, ServedReply(outcome)); Faithful(v, Entry(c, Step(v, c).1, Some(outcome)), true)
  {
    assert WasServed(v, r, outcome, CallOf(r, ServedReply(outcome)));
  }

  lemma ServeKeepsAtomicInv(v: Vulkan, a: Atomic, r: Request, outcome: Outcome, cut: nat)
    requires AtomicInv(v, a, cut) && Allows(a, Serve(r, outcome))
    ensures AtomicInv(v, Steps(a, Serve(r, outcome)), cut + 1)
  {
    var c := CallOf(r, ServedReply(outcome));
    ServedAppends(a.log, Entry(c, Step(a.driver, c).1, Some(outcome)));
    ReplayUncut(v, a.log, a.driver, cut, cut + 1);
    ServeIsFaithful(a.driver, r, outcome);
    ReplayAppends(v, a.log, a.driver, c, Some(outcome), cut + 1);
  }

  lemma MissKeepsAtomicInv(v: Vulkan, a: Atomic, r: Request, reply: Reply, cut: nat)
    requires AtomicInv(v, a, cut) && Allows(a, Miss(r, reply))
    ensures AtomicInv(v, Steps(a, Miss(r, reply)), cut)
  {
    var c := CallOf(r, reply);
    var e := Entry(c, Step(a.driver, c).1, None);
    ServedAppends(a.log, e);
    assert WasMissed(a.driver, r, reply, c);
    assert Faithful(a.driver, e, false);
    ReplayAppends(v, a.log, a.driver, c, None, cut);
    assert a.calls + [] == a.calls;
  }

  lemma StepKeepsAtomicInv(v: Vulkan, a: Atomic, l: AtomicStep, cut: nat)
    requires AtomicInv(v, a, cut) && Allows(a, l)
    ensures AtomicInv(v, Steps(a, l), CutAfter(a, l, cut))
  {
    match l
    case Direct(c) => DirectKeepsAtomicInv(v, a, c, cut);
    case Serve(r, outcome) => ServeKeepsAtomicInv(v, a, r, outcome, cut);
    case Miss(r, reply) => MissKeepsAtomicInv(v, a, r, reply, cut);
    case Stop =>
    case Close =>
  }

  lemma {:induction false} AtomicRunKeepsInv(v: Vulkan, states: seq<Atomic>, steps: seq<AtomicStep>, n: nat) returns (cut: nat)
    requires IsAtomicRun(states, steps) && AtomicInv(v, states[0], 0) && n <= |steps|
    ensures AtomicInv(v, states[n], cut)
  {
    if n == 0 {
      cut := 0;
    } else {
      cut := AtomicRunKeepsInv(v, states, steps, n - 1);
      assert AtomicLink(states, steps, n - 1);
      StepKeepsAtomicInv(v, states[n - 1], steps[n - 1], cut);
      cut := CutAfter(states[n - 1], steps[n - 1], cut);
    }
  }

  /**
   * In every reachable state between calls: the tables and results are those of the calls run one
   * after the other. Up to some call, the last one so far while the worker lives, every submit and
   * reset that had to ask met a live backend exactly once and was answered as the backend ended; after
   * it none did, ever. The backend's calls are just these, in call order; if one panicked it is the last.
   */
  lemma CallsAreSequential(v: Vulkan, states: seq<System>, moves: seq<Move>, n: nat) returns (cut: nat)
    requires IsRun(states, moves) && states[0] == Initial(v) && n <= |moves|
    requires states[n].client.Ready?
    ensures var s := states[n];
            && Replays(v, s.log, s.driver, cut)
            && cut <= |s.log| && (!Gone(s.thread.worker) ==> cut == |s.log|)
            && ServedIn(s.log) == s.thread.calls
            && (EndsInPanic(s.thread.calls) ==> 0 < cut && s.log[cut - 1].served == Some(Panic))
            && (forall i :: 0 <= i < |s.thread.calls| && s.thread.calls[i].outcome.Panic? ==>
                  i == |s.thread.calls| - 1 && Gone(s.thread.worker))
  {
    assert Inv(states[0]);
    var atomic, steps := EveryInterleavingIsAtomic(states, moves, n);
    assert AtomicInv(v, atomic[0], 0);
    cut := AtomicRunKeepsInv(v, atomic, steps, |steps|);
    ReadyShowsItself(states[n]);
  }

  // ---------- What was accepted was executed ----------

  function OpsOf(batches: seq<Batch>): seq<seq<DriverOp>> {
    seq(|batches|, i requires 0 <= i < |batches| => batches[i].ops)
  }

  /** The ops of the backend calls that executed something and succeeded, in order. */
  function ExecutedOps(calls: seq<BackendCall>): seq<seq<DriverOp>>
    decreases |calls|
  {
    if calls == [] then []
    else
      var c := calls[|calls| - 1];
      ExecutedOps(calls[..|calls| - 1]) + if c.work.Execute? && c.outcome == Success then [c.work.ops] else []
  }

  ghost predicate AcceptedIsExecuted(v: Vulkan, a: Atomic) {
    OpsOf(a.driver.accepted) == OpsOf(v.accepted) + ExecutedOps(a.calls)
  }

  /** A call that is settled, or that missed the backend, adds no batch. */
  lemma UnservedAcceptsNothing(v: Vulkan, c: Call)
    requires Settled(v, c) || exists r, reply :: WasMissed(v, r, reply, c)
    ensures Step(v, c).0.accepted == v.accepted
  {
  }

  lemma ServeAccepts(v: Vulkan, a: Atomic, r: Request, outcome: Outcome)
    requires AcceptedIsExecuted(v, a) && Allows(a, Serve(r, outcome))
    ensures AcceptedIsExecuted(v, Steps(a, Serve(r, outcome)))
  {
    var a' := Steps(a, Serve(r, outcome));
    assert a'.calls[..|a'.calls| - 1] == a.calls;
    if r.SubmitTo? && outcome == Success {
      assert a'.driver.accepted == a.driver.accepted + [Batch(r.device, r.workload, r.ops)];
      assert OpsOf(a'.driver.accepted) == OpsOf(a.driver.accepted) + [r.ops];
    } else {
      assert a'.driver.accepted == a.driver.accepted;
    }
  }

  lemma StepKeepsAcceptedExecuted(v: Vulkan, a: Atomic, l: AtomicStep)
    requires AcceptedIsExecuted(v, a) && Allows(a, l)
    ensures AcceptedIsExecuted(v, Steps(a, l))
  {
    match l
    case Direct(c) => UnservedAcceptsNothing(a.driver, c);
    case Serve(r, outcome) => ServeAccepts(v, a, r, outcome);
    case Miss(r, reply) =>
      assert WasMissed(a.driver, r, reply, CallOf(r, reply));
      UnservedAcceptsNothing(a.driver, CallOf(r, reply));
    case Stop =>
    case Close =>
  }

  lemma {:induction false} AtomicRunAcceptsExecuted(v: Vulkan, states: seq<Atomic>, steps: seq<AtomicStep>, n: nat)
    requires IsAtomicRun(states, steps) && AcceptedIsExecuted(v, states[0]) && n <= |steps|
    ensures AcceptedIsExecuted(v, states[n])
  {
    if n == 0 {
    } else {
      AtomicRunAcceptsExecuted(v, states, steps, n - 1);
      assert AtomicLink(states, steps, n - 1);
      StepKeepsAcceptedExecuted(v, states[n - 1], steps[n - 1]);
    }
  }

  /** Between calls, the batches the driver said Ok to are exactly the ops the backend executed, once each, in order. */
  lemma AcceptedWereExecuted(v: Vulkan, states: seq<System>, moves: seq<Move>, n: nat)
    requires IsRun(states, moves) && states[0] == Initial(v) && n <= |moves|
    requires states[n].client.Ready?
    ensures OpsOf(states[n].driver.accepted) == OpsOf(v.accepted) + ExecutedOps(states[n].thread.calls)
  {
    assert Inv(states[0]);
    var atomic, steps := EveryInterleavingIsAtomic(states, moves, n);
    assert OpsOf(v.accepted) + [] == OpsOf(v.accepted);
    AtomicRunAcceptsExecuted(v, atomic, steps, |steps|);
    ReadyShowsItself(states[n]);
  }

  // ---------- The log is a run of the driver's tables ----------

  function CallsOf(log: seq<Entry>): seq<Call> {
    seq(|log|, i requires 0 <= i < |log| => log[i].call)
  }

  /** A move completes at most one call, and the tables change by exactly that call. */
  ghost predicate LogStep(s: System, s': System) {
    || (s'.driver == s.driver && s'.log == s.log)
    || (exists c, served :: (s'.driver, s'.log) == Complete(s.driver, s.log, c, served))
  }

  lemma MoveLogs(s: System, m: Move)
    requires CanMove(s, m)
    ensures LogStep(s, After(s, m))
  {
  }

  /** The tables come of the logged calls made one after the other, each with its logged result. */
  ghost predicate RunsTo(v: Vulkan, log: seq<Entry>, v': Vulkan, tables: seq<Vulkan>) {
    && VulkanDriver.IsRun(tables, CallsOf(log)) && tables[0] == v && tables[|log|] == v'
    && forall i :: 0 <= i < |log| ==> log[i].result == Step(tables[i], log[i].call).1
  }

  lemma OneMoreCall(v: Vulkan, log: seq<Entry>, now: Vulkan, tables: seq<Vulkan>, c: Call, served: Option<Outcome>)
    requires RunsTo(v, log, now, tables)
    ensures var (v', log') := Complete(now, log, c, served); RunsTo(v, log', v', tables + [v'])
  {
    var (v', log') := Complete(now, log, c, served);
    var tables' := tables + [v'];
    assert CallsOf(log') == CallsOf(log) + [c];
    forall i: nat | i < |log'| ensures VulkanDriver.Link(tables', CallsOf(log'), i) {
      if i < |log| {
        assert VulkanDriver.Link(tables, CallsOf(log), i);
      }
    }
  }

  /** At any point of any run, the tables and results are those of the logged calls made one after the other. */
  lemma {:induction false} LogIsRun(v: Vulkan, states: seq<System>, moves: seq<Move>, n: nat) returns (tables: seq<Vulkan>)
    requires IsRun(states, moves) && states[0] == Initial(v) && n <= |moves|
    ensures RunsTo(v, states[n].log, states[n].driver, tables)
  {
    if n == 0 {
      tables := [v];
    } else {
      tables := LogIsRun(v, states, moves, n - 1);
      var s, s' := states[n - 1], states[n];
      assert Link(states, moves, n - 1);
      MoveLogs(s, moves[n - 1]);
      if s'.driver != s.driver || s'.log != s.log {
        var c, served :| (s'.driver, s'.log) == Complete(s.driver, s.log, c, served);
        OneMoreCall(v, s.log, s.driver, tables, c, served);
        tables := tables + [s'.driver];
      }
    }
  }

  // ---------- What a call leaves behind ----------

  /**
   * A logged call by what it did: a submit that reached the backend succeeded iff the backend call
   * did, and left a fault iff that call lost the device or panicked; a reset that reached it cleared
   * the fault iff it succeeded. One that did not reach it failed, and left no fault but a stopped thread's.
   */
  ghost predicate Means(now: Vulkan, e: Entry, after: Vulkan) {
    match e.call
    case Submit(device, workload, ops, _) =>
      && after == now.(faults := after.faults, accepted := after.accepted)
      && (match e.served
          case Some(outcome) =>
            && device in now.devices && device !in now.faults
            && (e.result.Ok? <==> outcome == Success)
            && after.faults == LeftBy(now.faults, device, outcome)
            && after.accepted == if outcome == Success then now.accepted + [Batch(device, workload, ops)] else now.accepted
          case None =>
            && e.result.Err? && after.accepted == now.accepted
            && (device !in now.devices || device in now.faults ==> after.faults == now.faults)
            && (after.faults == now.faults || after.faults == LeftBy(now.faults, device, Panic)))
    case Reset(device, _) =>
      && after == now.(faults := after.faults)
      && (match e.served
          case Some(outcome) =>
            && device in now.devices && (e.result.Ok? <==> outcome == Success)
            && after.faults == if outcome == Success then now.faults - {device} else now.faults
          case None => e.result.Err? && after.faults == now.faults)
    case MarkFaulted(device, text) =>
      after == now.(faults := if device in now.devices then now.faults[device := Fault(device, 0, text)] else now.faults)
    case _ => e.served.None? && after.faults == now.faults && after.accepted == now.accepted
  }

  /** The reply the blocked caller picks up decides what its submit leaves: the backend's outcome, if one came. */
  lemma AnsweredLeaves(s: System, outcome: Outcome)
    requires Inv(s) && s.client.Blocked? && s.client.request.SubmitTo?
    requires s.thread.slots[s.client.reply] == Replied(outcome)
    ensures CanMove(s, Return)
    ensures var s', d := After(s, Return), s.client.request.device;
            && s'.driver.faults == LeftBy(s.driver.faults, d, outcome)
            && |s'.log| == |s.log| + 1 && s'.log[|s.log|].served == Some(outcome)
            && (s'.log[|s.log|].result.Ok? <==> outcome == Success)
  {
  }

  /** A dropped reply sender leaves a fault, whether the backend panicked or was never called. */
  lemma DroppedReplyLeavesFault(s: System)
    requires Inv(s) && s.client.Blocked? && s.client.request.SubmitTo?
    requires s.thread.slots[s.client.reply] == Disconnected
    ensures CanMove(s, Return)
    ensures var s', d := After(s, Return), s.client.request.device;
            && s'.driver.faults
               == s.driver.faults[d := Fault(d, 0, "Vulkan render thread stopped before replying")]
            && |s'.log| == |s.log| + 1 && s'.log[|s.log|].result.Err?
  {
  }

  /** A command that cannot be queued any more leaves none. */
  lemma RefusedCommandLeavesNoFault(s: System, r: Request)
    requires Inv(s) && s.client.Ready? && NeedsThread(s.driver, r) && !s.thread.open
    ensures var s' := After(s, Ask(r));
            && s'.driver == s.driver && s'.client.Ready?
            && |s'.log| == |s.log| + 1 && s'.log[|s.log|].result.Err? && s'.log[|s.log|].served == None
  {
  }

  /** A move completes no call, or one that means what it says. */
  ghost predicate MeantStep(s: System, s': System) {
    || (s'.driver == s.driver && s'.log == s.log)
    || (exists c, served ::
          && (s'.driver, s'.log) == Complete(s.driver, s.log, c, served)
          && Means(s.driver, Entry(c, Step(s.driver, c).1, served), s'.driver))
  }

  lemma AskMeans(s: System, r: Request)
    requires Inv(s) && s.client.Ready?
    ensures MeantStep(s, After(s, Ask(r)))
  {
    var s' := After(s, Ask(r));
    if s'.log != s.log {
      var c := CallOf(r, if NeedsThread(s.driver, r) then NotRunning else UNASKED);
      assert (s'.driver, s'.log) == Complete(s.driver, s.log, c, None);
      assert Means(s.driver, Entry(c, Step(s.driver, c).1, None), s'.driver);
    }
  }

  lemma ReturnMeans(s: System)
    requires Inv(s) && CanMove(s, Return)
    ensures MeantStep(s, After(s, Return))
  {
    var s' := After(s, Return);
    var r, slot := s.client.request, s.thread.slots[s.client.reply];
    var c, served := CallOf(r, ReplyIn(slot)), ServedSince(s.thread.calls, s.client.asked);
    assert (s'.driver, s'.log) == Complete(s.driver, s.log, c, served);
    assert slot.Replied? ==> served == Some(slot.outcome);
    assert Means(s.driver, Entry(c, Step(s.driver, c).1, served), s'.driver);
  }

  lemma MoveMeans(s: System, m: Move)
    requires Inv(s) && CanMove(s, m)
    ensures MeantStep(s, After(s, m))
  {
    match m
    case Local(c) =>
      assert (After(s, m).driver, After(s, m).log) == Complete(s.driver, s.log, c, None);
      assert Means(s.driver, Entry(c, Step(s.driver, c).1, None), After(s, m).driver);
    case Ask(r) => AskMeans(s, r);
    case Return => ReturnMeans(s);
    case _ =>
  }

  /** At any point of any run, every logged call meant what it says, from the tables it met to those it left. */
  lemma {:induction false} EntriesMean(v: Vulkan, states: seq<System>, moves: seq<Move>, n: nat) returns (tables: seq<Vulkan>)
    requires IsRun(states, moves) && states[0] == Initial(v) && n <= |moves|
    ensures RunsTo(v, states[n].log, states[n].driver, tables)
    ensures forall i :: 0 <= i < |states[n].log| ==> Means(tables[i], states[n].log[i], tables[i + 1])
  {
    if n == 0 {
      tables := [v];
    } else {
      tables := EntriesMean(v, states, moves, n - 1);
      var s, s' := states[n - 1], states[n];
      assert Link(states, moves, n - 1);
      RunKeepsInv(states, moves, n - 1);
      MoveMeans(s, moves[n - 1]);
      if s'.driver != s.driver || s'.log != s.log {
        var c, served :|
          && (s'.driver, s'.log) == Complete(s.driver, s.log, c, served)
          && Means(s.driver, Entry(c, Step(s.driver, c).1, served), s'.driver);
        OneMoreCall(v, s.log, s.driver, tables, c, served);
        tables := tables + [s'.driver];
      }
    }
  }

  // ---------- After the worker is gone ----------

  lemma GoneMove(s: System, m: Move)
    requires Inv(s) && CanMove(s, m) && Gone(s.thread.worker)
    ensures var s' := After(s, m);
            && Gone(s'.thread.worker) && s'.thread.calls == s.thread.calls
            && (s'.log == s.log || (|s'.log| == |s.log| + 1 && s'.log[..|s.log|] == s.log
                  && (Asks(s'.log[|s.log|].call) ==> s'.log[|s.log|].result.Err?)))
  {
  }

  /** Once the worker is gone, every submit and reset fails, and the backend is never called again. */
  lemma {:induction false} GoneForever(states: seq<System>, moves: seq<Move>, m: nat, n: nat)
    requires IsRun(states, moves) && Inv(states[0]) && m <= n <= |moves| && Gone(states[m].thread.worker)
    ensures var s, s' := states[m], states[n];
            && Gone(s'.thread.worker) && s'.thread.calls == s.thread.calls
            && |s.log| <= |s'.log| && s'.log[..|s.log|] == s.log
            && (forall i :: |s.log| <= i < |s'.log| && Asks(s'.log[i].call) ==> s'.log[i].result.Err?)
    decreases n
  {
    if m < n {
      GoneForever(states, moves, m, n - 1);
      RunKeepsInv(states, moves, n - 1);
      assert Link(states, moves, n - 1);
      GoneMove(states[n - 1], moves[n - 1]);
    }
  }

  // ---------- No stuck caller ----------

  /** An upper bound on the moves a blocked or joining caller can still see before it is released. */
  function Remaining(s: System): nat {
    match s.client
    case Ready => 0
    case Blocked(_, k, _) =>
      if k in s.thread.slots && s.thread.slots[k].Waiting? then 3 + Rank(s.thread.worker)
      else if s.thread.worker.Dying? then 2 else 1
    case Joining => 1 + Rank(s.thread.worker)
    case Ended => 0
  }

  ghost predicate Held(s: System) { s.client.Blocked? || s.client.Joining? }

  /** A held caller is never stuck: some move is possible, and every possible move brings its release closer. */
  lemma HeldCallerProgresses(s: System)
    requires Inv(s) && Held(s)
    ensures exists m :: CanMove(s, m)
    ensures forall m :: CanMove(s, m) ==> Remaining(After(s, m)) < Remaining(s)
  {
    match s.client
    case Blocked(r, k, asked) =>
      if s.thread.slots[k].Waiting? {
        RequestProgresses(s.thread, k, WorkOf(r), s.thread.calls[..asked]);
        var step :| Enabled(s.thread, step);
        assert CanMove(s, Worker(step));
      } else {
        assert CanMove(s, Return);
      }
      forall m | CanMove(s, m) ensures Remaining(After(s, m)) < Remaining(s) {
        HeldMoveDecreases(s, m);
      }
    case Joining =>
      var w := s.thread.worker;
      var m := if w.Starting? then Worker(Start(true)) else if w.Idle? then Worker(Receive)
               else if w.Dying? then Worker(DropReceiver) else Join;
      assert CanMove(s, m);
      forall m | CanMove(s, m) ensures Remaining(After(s, m)) < Remaining(s) {
        HeldMoveDecreases(s, m);
      }
  }

  lemma HeldMoveDecreases(s: System, m: Move)
    requires Inv(s) && Held(s) && CanMove(s, m)
    ensures Remaining(After(s, m)) < Remaining(s)
  {
    MoveKeepsInv(s, m);
  }

  /** No call, and no drop, holds its caller for more than seven moves, whatever the interleaving. */
  lemma {:induction false} HeldBriefly(states: seq<System>, moves: seq<Move>, n: nat)
    requires IsRun(states, moves) && Inv(states[0]) && n <= |moves|
    requires forall i :: 0 <= i <= n ==> Held(states[i])
    ensures Remaining(states[n]) + n <= Remaining(states[0]) <= 7
  {
    if n == 0 {
    } else {
      HeldBriefly(states, moves, n - 1);
      RunKeepsInv(states, moves, n - 1);
      assert Held(states[n - 1]) && Link(states, moves, n - 1);
      HeldMoveDecreases(states[n - 1], moves[n - 1]);
    }
  }

  /** The unbounded queue never holds more than one command, in any reachable state. */
  lemma QueueHoldsAtMostOne(states: seq<System>, moves: seq<Move>, v: Vulkan, n: nat)
    requires IsRun(states, moves) && states[0] == Initial(v) && n <= |moves|
    ensures |states[n].thread.queue| <= 1
  {
    RunKeepsInv(states, moves, n);
  }
}
