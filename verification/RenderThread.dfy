/**
 * The render thread of VulkanDriver and the two kinds of channel it shares with the caller: one
 * command queue and a private reply channel per request. Both channels are atomic FIFOs, and
 * dropping a receiver drops everything queued, hence the reply senders inside.
 */
module RenderThread {
  import opened Common
  import opened CommandStreams

  datatype Work = Execute(ops: seq<DriverOp>) | Recreate

  /** How a backend call ends; every error but a lost device is treated alike by the driver. */
  datatype Outcome = Success | DeviceLost(message: string) | Failure | Panic

  datatype Command = Request(work: Work, reply: nat) | Shutdown

  /** A reply channel as its receiver sees it. */
  datatype Slot = Waiting | Replied(outcome: Outcome) | Disconnected

  /**
   * Dying: the loop is left and any reply sender in hand is dropped, but the command receiver is
   * not yet: a command can still be queued, and will never be served.
   */
  datatype Worker = Starting | Idle | Executing(work: Work, reply: nat) | Dying | Dead

  datatype BackendCall = BackendCall(work: Work, outcome: Outcome)

  /** `calls` is a history variable: what the backend was asked, and how it ended. */
  datatype Thread = Thread(
    worker: Worker, queue: seq<Command>, open: bool, slots: map<nat, Slot>, nextReply: nat, calls: seq<BackendCall>)

  const Spawned := Thread(Starting, [], true, map[], 0, [])

  // ---------- The caller's side ----------

  /** A new reply channel, numbered t.nextReply. */
  function OpenReply(t: Thread): Thread {
    t.(slots := t.slots[t.nextReply := Waiting], nextReply := t.nextReply + 1)
  }

  /** Succeeds exactly while the receiver exists; on failure the command, and its reply sender, are dropped. */
  function Send(t: Thread, c: Command): Thread {
    if t.open then t.(queue := t.queue + [c])
    else if c.Request? then t.(slots := t.slots[c.reply := Disconnected])
    else t
  }

  // ---------- The worker's side ----------

  datatype WorkerStep = Start(works: bool) | Receive | Finish(outcome: Outcome) | DropReceiver

  predicate Enabled(t: Thread, s: WorkerStep) {
    match s
    case Start(_) => t.worker.Starting?
    case Receive => t.worker.Idle? && t.queue != []
    case Finish(_) => t.worker.Executing?
    case DropReceiver => t.worker.Dying?
  }

  function DropQueued(slots: map<nat, Slot>, queue: seq<Command>): map<nat, Slot>
    decreases |queue|
  {
    if queue == [] then slots
    else
      DropQueued(if queue[0].Request? then slots[queue[0].reply := Disconnected] else slots, queue[1..])
  }

  function Moved(t: Thread, s: WorkerStep): Thread
    requires Enabled(t, s)
  {
    match s
    case Start(works) => t.(worker := if works then Idle else Dying)
    case Receive =>
      var c := t.queue[0];
      t.(queue := t.queue[1..], worker := if c.Shutdown? then Dying else Executing(c.work, c.reply))
    case Finish(outcome) =>
      var called := t.calls + [BackendCall(t.worker.work, outcome)];
      if outcome.Panic? then
        t.(calls := called, slots := t.slots[t.worker.reply := Disconnected], worker := Dying)
      else
        t.(calls := called, slots := t.slots[t.worker.reply := Replied(outcome)], worker := Idle)
    case DropReceiver =>
      t.(worker := Dead, open := false, slots := DropQueued(t.slots, t.queue), queue := [])
  }

  predicate Gone(w: Worker) { w.Dying? || w.Dead? }

  // ---------- What holds between the two sides ----------

  ghost predicate Sound(t: Thread) {
    && (t.open <==> !t.worker.Dead?)
    && (!t.open ==> t.queue == [])
    && (forall k :: k in t.slots ==> k < t.nextReply)
    && (t.worker.Starting? ==> t.calls == [])
    && (forall i :: 0 <= i < |t.calls| && t.calls[i].outcome.Panic? ==> i == |t.calls| - 1 && Gone(t.worker))
  }

  ghost predicate NobodyWaitsBut(t: Thread, k: nat) {
    forall j :: j in t.slots && t.slots[j].Waiting? ==> j == k
  }

  /** No request is outstanding. */
  ghost predicate Quiet(t: Thread) {
    Sound(t) && t.queue == [] && !t.worker.Executing? && (forall j :: j in t.slots ==> !t.slots[j].Waiting?)
  }

  /** A request is outstanding on reply channel k; `before` is the backend history when it was made. */
  ghost predicate Pending(t: Thread, k: nat, work: Work, before: seq<BackendCall>) {
    && Sound(t) && k in t.slots && NobodyWaitsBut(t, k)
    && match t.slots[k]
       case Waiting =>
         && t.calls == before
         && ((t.queue == [Request(work, k)] && !t.worker.Executing? && !t.worker.Dead?)
             || (t.queue == [] && t.worker == Executing(work, k)))
       case Replied(outcome) =>
         t.queue == [] && t.worker.Idle? && !outcome.Panic? && t.calls == before + [BackendCall(work, outcome)]
       case Disconnected =>
         t.queue == [] && Gone(t.worker) && (t.calls == before || t.calls == before + [BackendCall(work, Panic)])
  }

  /** The caller has sent Shutdown and only waits for the thread to end. */
  ghost predicate Closing(t: Thread) {
    Sound(t) && ((t.queue == [Shutdown] && !t.worker.Executing? && !t.worker.Dead?) || (t.queue == [] && Gone(t.worker)))
  }

  /** A request to a thread whose receiver exists is outstanding at once; otherwise it is refused. */
  lemma RequestIsPending(t: Thread, work: Work)
    requires Quiet(t)
    ensures var t' := Send(OpenReply(t), Request(work, t.nextReply));
            if t.open then Pending(t', t.nextReply, work, t.calls) && t'.slots[t.nextReply].Waiting?
            else Quiet(t') && t'.calls == t.calls
  {
  }

  lemma QuietStays(t: Thread, s: WorkerStep)
    requires Quiet(t) && Enabled(t, s)
    ensures Quiet(Moved(t, s)) && Moved(t, s).calls == t.calls
  {
  }

  /** Whatever the worker does, an outstanding request stays accounted for. */
  lemma PendingStays(t: Thread, s: WorkerStep, k: nat, work: Work, before: seq<BackendCall>)
    requires Pending(t, k, work, before) && Enabled(t, s)
    ensures Pending(Moved(t, s), k, work, before)
  {
    if s.DropReceiver? && t.queue != [] {
      assert t.queue[1..] == [];
      assert DropQueued(t.slots, t.queue) == t.slots[k := Disconnected];
    }
    if s.Receive? {
      assert t.queue[1..] == [];
    }
  }

  lemma ClosingStays(t: Thread, s: WorkerStep)
    requires Closing(t) && Enabled(t, s)
    ensures Closing(Moved(t, s))
  {
    if t.queue != [] {
      assert t.queue[1..] == [];
      assert DropQueued(t.slots, t.queue) == t.slots;
    }
  }

  // ---------- Progress ----------

  function Rank(w: Worker): nat {
    match w
    case Starting => 4
    case Idle => 3
    case Executing(_, _) => 2
    case Dying => 1
    case Dead => 0
  }

  /** How many more worker steps an unanswered request can take. */
  function Distance(t: Thread, k: nat): nat {
    if k in t.slots && t.slots[k].Waiting? then 1 + Rank(t.worker) else 0
  }

  /** While the reply is outstanding the worker can move, and each move brings the reply closer. */
  lemma RequestProgresses(t: Thread, k: nat, work: Work, before: seq<BackendCall>)
    requires Pending(t, k, work, before) && t.slots[k].Waiting?
    ensures exists s :: Enabled(t, s)
    ensures forall s :: Enabled(t, s) ==> Distance(Moved(t, s), k) < Distance(t, k)
  {
    match t.worker
    case Starting => assert Enabled(t, Start(true));
    case Idle => assert Enabled(t, Receive);
    case Executing(_, _) => assert Enabled(t, Finish(Success));
    case Dying =>
      assert Enabled(t, DropReceiver);
      PendingStays(t, DropReceiver, k, work, before);
    case Dead =>
  }
}
