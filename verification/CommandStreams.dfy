/**
 * The command-stream checker and translator of crates/graphics_runtime, against an
 * operational semantics: a machine that executes a stream one op at a time, remembers the
 * bound pipeline, and sticks on an op whose requirements do not hold.
 */
module CommandStreams {
  import opened Common
  import opened GraphicsApi

  /** gpu_abstraction::DriverOp: what a driver is asked to execute. */
  datatype DriverOp =
    | DrawCmd(vertexCount: u32, instanceCount: u32)
    | DispatchCmd(x: u32, y: u32, z: u32)
    | CopyCmd(src: ObjectId, dst: ObjectId)
    | BarrierCmd

  /** The live object tables a stream is judged against. */
  datatype Objects = Objects(pipelines: map<ObjectId, Pipeline>, resources: map<ObjectId, Resource>)

  // ---------- Operational semantics ----------

  /** What executing an op does; draws and dispatches run with the pipeline bound at that moment. */
  datatype Event =
    | Drew(pipeline: ObjectId, vertexCount: u32, instanceCount: u32)
    | Dispatched(pipeline: ObjectId, x: u32, y: u32, z: u32)
    | Copied(src: ObjectId, dst: ObjectId)
    | Fenced

  datatype Machine = Machine(todo: seq<GraphicsOp>, bound: Option<ObjectId>, trace: seq<Event>)

  ghost predicate LivePipeline(o: Objects, device: ObjectId, p: ObjectId) {
    p in o.pipelines && o.pipelines[p].device == device
  }

  ghost predicate LiveResource(o: Objects, device: ObjectId, r: ObjectId) {
    r in o.resources && o.resources[r].device == device
  }

  /** One step of the machine; no step exists from a machine that sticks. */
  ghost predicate Steps(o: Objects, device: ObjectId, m: Machine, m': Machine) {
    m.todo != [] && m'.todo == m.todo[1..] &&
    match m.todo[0]
    case BindPipeline(p) =>
      LivePipeline(o, device, p) && m'.bound == Some(p) && m'.trace == m.trace
    case BindResource(_, r) =>
      LiveResource(o, device, r) && m'.bound == m.bound && m'.trace == m.trace
    case Draw(v, i) =>
      m.bound.Some? && m'.bound == m.bound && m'.trace == m.trace + [Drew(m.bound.value, v, i)]
    case Dispatch(x, y, z) =>
      m.bound.Some? && m'.bound == m.bound && m'.trace == m.trace + [Dispatched(m.bound.value, x, y, z)]
    case Copy(src, dst) =>
      src in o.resources && dst in o.resources && m'.bound == m.bound && m'.trace == m.trace + [Copied(src, dst)]
    case Barrier =>
      m'.bound == m.bound && m'.trace == m.trace + [Fenced]
  }

  ghost predicate IsExecution(o: Objects, device: ObjectId, run: seq<Machine>) {
    run != [] && forall i :: 0 <= i < |run| - 1 ==> Steps(o, device, run[i], run[i + 1])
  }

  /** Some run takes machine `m` to the end of its stream, leaving `bound` bound and `trace` executed. */
  ghost predicate Finishes(o: Objects, device: ObjectId, m: Machine, bound: Option<ObjectId>, trace: seq<Event>) {
    exists run :: IsExecution(o, device, run) && run[0] == m && run[|run| - 1] == Machine([], bound, trace)
  }

  /** The stream executes from the start to the end, doing exactly `trace`. */
  ghost predicate Executes(o: Objects, device: ObjectId, ops: seq<GraphicsOp>, trace: seq<Event>) {
    exists bound :: Finishes(o, device, Machine(ops, None, []), bound, trace)
  }

  // ---------- The checker's rules, op by op ----------

  ghost predicate OpOk(o: Objects, device: ObjectId, bound: Option<ObjectId>, op: GraphicsOp) {
    match op
    case BindPipeline(p) => LivePipeline(o, device, p)
    case BindResource(_, r) => LiveResource(o, device, r)
    case Draw(_, _) => bound.Some?
    case Dispatch(_, _, _) => bound.Some?
    case Copy(src, dst) => src in o.resources && dst in o.resources
    case Barrier => true
  }

  function BoundAfterOp(bound: Option<ObjectId>, op: GraphicsOp): Option<ObjectId> {
    if op.BindPipeline? then Some(op.pipeline) else bound
  }

  ghost predicate Accepts(o: Objects, device: ObjectId, bound: Option<ObjectId>, ops: seq<GraphicsOp>)
    decreases |ops|
  {
    ops == [] ||
    (OpOk(o, device, bound, ops[0]) && Accepts(o, device, BoundAfterOp(bound, ops[0]), ops[1..]))
  }

  ghost function BoundAfter(bound: Option<ObjectId>, ops: seq<GraphicsOp>): Option<ObjectId>
    decreases |ops|
  {
    if ops == [] then bound else BoundAfter(BoundAfterOp(bound, ops[0]), ops[1..])
  }

  ghost function OpEvents(bound: Option<ObjectId>, op: GraphicsOp): seq<Event> {
    match op
    case Draw(v, i) => if bound.Some? then [Drew(bound.value, v, i)] else []
    case Dispatch(x, y, z) => if bound.Some? then [Dispatched(bound.value, x, y, z)] else []
    case Copy(src, dst) => [Copied(src, dst)]
    case Barrier => [Fenced]
    case _ => []
  }

  ghost function Events(bound: Option<ObjectId>, ops: seq<GraphicsOp>): seq<Event>
    decreases |ops|
  {
    if ops == [] then [] else OpEvents(bound, ops[0]) + Events(BoundAfterOp(bound, ops[0]), ops[1..])
  }

  /** An accepted remainder has a run to its end, from any trace so far. */
  lemma {:induction false} AcceptedRun(o: Objects, device: ObjectId, m: Machine) returns (run: seq<Machine>)
    requires Accepts(o, device, m.bound, m.todo)
    ensures IsExecution(o, device, run) && run[0] == m
    ensures run[|run| - 1] == Machine([], BoundAfter(m.bound, m.todo), m.trace + Events(m.bound, m.todo))
    decreases |m.todo|
  {
    assert m.trace + [] == m.trace;
    if m.todo == [] {
      run := [m];
    } else {
      var op := m.todo[0];
      var next := Machine(m.todo[1..], BoundAfterOp(m.bound, op), m.trace + OpEvents(m.bound, op));
      assert Steps(o, device, m, next);
      var rest := AcceptedRun(o, device, next);
      PrependRun(o, device, m, rest);
      run := [m] + rest;
      assert (m.trace + OpEvents(m.bound, op)) + Events(next.bound, next.todo)
        == m.trace + (OpEvents(m.bound, op) + Events(next.bound, next.todo));
    }
  }

  lemma PrependRun(o: Objects, device: ObjectId, m: Machine, rest: seq<Machine>)
    requires IsExecution(o, device, rest) && Steps(o, device, m, rest[0])
    ensures IsExecution(o, device, [m] + rest)
  {
    var run := [m] + rest;
    forall i | 0 <= i < |run| - 1 ensures Steps(o, device, run[i], run[i + 1]) {
      if i > 0 {
        assert run[i] == rest[i - 1] && run[i + 1] == rest[i];
      }
    }
  }

  /** A machine that finishes was accepted, and could only finish one way. */
  lemma {:induction false} FinishedWasAccepted(o: Objects, device: ObjectId, run: seq<Machine>)
    requires IsExecution(o, device, run) && run[|run| - 1].todo == []
    ensures var m := run[0]; var last := run[|run| - 1];
            && Accepts(o, device, m.bound, m.todo)
            && last.bound == BoundAfter(m.bound, m.todo)
            && last.trace == m.trace + Events(m.bound, m.todo)
    decreases |run|
  {
    var m := run[0];
    if |run| == 1 {
      assert m.trace + [] == m.trace;
    } else {
      var rest := run[1..];
      assert IsExecution(o, device, rest) by {
        forall i | 0 <= i < |rest| - 1 ensures Steps(o, device, rest[i], rest[i + 1]) {
          assert Steps(o, device, run[i + 1], run[i + 2]);
        }
      }
      assert Steps(o, device, run[0], run[1]);
      FinishedWasAccepted(o, device, rest);
      var op := m.todo[0];
      assert rest[0].trace == m.trace + OpEvents(m.bound, op) by {
        assert m.trace + [] == m.trace;
      }
      assert (m.trace + OpEvents(m.bound, op)) + Events(rest[0].bound, rest[0].todo)
        == m.trace + Events(m.bound, m.todo);
    }
  }

  /**
   * The rules are sound and complete for the machine, and the machine is deterministic: a stream
   * executes with a given trace iff the rules admit it and the trace is the one its ops spell.
   */
  lemma ExecutesIffAccepted(o: Objects, device: ObjectId, ops: seq<GraphicsOp>, trace: seq<Event>)
    ensures Executes(o, device, ops, trace) <==>
            Accepts(o, device, None, ops) && trace == Events(None, ops)
  {
    var m := Machine(ops, None, []);
    if Executes(o, device, ops, trace) {
      var bound :| Finishes(o, device, m, bound, trace);
      var run :| IsExecution(o, device, run) && run[0] == m && run[|run| - 1] == Machine([], bound, trace);
      FinishedWasAccepted(o, device, run);
      assert [] + Events(None, ops) == Events(None, ops);
    }
    if Accepts(o, device, None, ops) && trace == Events(None, ops) {
      var run := AcceptedRun(o, device, m);
      assert m.trace + Events(None, ops) == trace;
      assert Finishes(o, device, m, BoundAfter(None, ops), trace);
    }
  }

  /** What an op names is there, and what it binds is the stream's device's own. */
  ghost predicate NamesWell(o: Objects, device: ObjectId, op: GraphicsOp) {
    match op
    case BindPipeline(p) => p in o.pipelines && o.pipelines[p].device == device
    case BindResource(_, r) => r in o.resources && o.resources[r].device == device
    case Copy(src, dst) => src in o.resources && dst in o.resources
    case _ => true
  }

  /** Op i draws or dispatches only after a pipeline was bound, in the stream or before it. */
  ghost predicate BoundBefore(bound: Option<ObjectId>, ops: seq<GraphicsOp>, i: nat)
    requires i < |ops|
  {
    ops[i].Draw? || ops[i].Dispatch? ==> bound.Some? || exists j :: 0 <= j < i && ops[j].BindPipeline?
  }

  ghost predicate WellFormed(o: Objects, device: ObjectId, bound: Option<ObjectId>, ops: seq<GraphicsOp>) {
    && (forall i :: 0 <= i < |ops| ==> NamesWell(o, device, ops[i]))
    && (forall i :: 0 <= i < |ops| ==> BoundBefore(bound, ops, i))
  }

  lemma WellFormedUnfolds(o: Objects, device: ObjectId, bound: Option<ObjectId>, ops: seq<GraphicsOp>)
    requires ops != []
    ensures WellFormed(o, device, bound, ops) <==>
            NamesWell(o, device, ops[0]) && BoundBefore(bound, ops, 0)
            && WellFormed(o, device, BoundAfterOp(bound, ops[0]), ops[1..])
  {
    var rest, bound' := ops[1..], BoundAfterOp(bound, ops[0]);
    assert forall i :: 0 <= i < |rest| ==> rest[i] == ops[i + 1];
    forall i: nat | i < |rest| ensures BoundBefore(bound', rest, i) <==> BoundBefore(bound, ops, i + 1) {
      if j :| 0 <= j < i + 1 && ops[j].BindPipeline? {
        if j > 0 {
          assert rest[j - 1].BindPipeline?;
        }
      }
      if j :| 0 <= j < i && rest[j].BindPipeline? {
        assert ops[j + 1].BindPipeline?;
      }
      if ops[0].BindPipeline? {
        assert bound'.Some?;
      }
    }
    if WellFormed(o, device, bound, ops) {
      forall i: nat | i < |rest| ensures NamesWell(o, device, rest[i]) && BoundBefore(bound', rest, i) {
        assert NamesWell(o, device, ops[i + 1]) && BoundBefore(bound, ops, i + 1);
      }
    }
    if NamesWell(o, device, ops[0]) && BoundBefore(bound, ops, 0) && WellFormed(o, device, bound', rest) {
      forall i: nat | i < |ops| ensures NamesWell(o, device, ops[i]) && BoundBefore(bound, ops, i) {
        if i > 0 {
          assert NamesWell(o, device, rest[i - 1]) && BoundBefore(bound', rest, i - 1);
        }
      }
    }
  }

  /**
   * The accepted streams, all at once: everything named is there, what is bound is the device's own,
   * and every draw and dispatch comes after some pipeline was bound. Nothing else is asked.
   */
  lemma {:induction false} AcceptedIffWellFormed(o: Objects, device: ObjectId, bound: Option<ObjectId>, ops: seq<GraphicsOp>)
    ensures Accepts(o, device, bound, ops) <==> WellFormed(o, device, bound, ops)
    decreases |ops|
  {
    if ops == [] {
    } else {
      AcceptedIffWellFormed(o, device, BoundAfterOp(bound, ops[0]), ops[1..]);
      WellFormedUnfolds(o, device, bound, ops);
    }
  }

  // ---------- The checker ----------

  lemma AcceptsFrom(o: Objects, device: ObjectId, bound: Option<ObjectId>, ops: seq<GraphicsOp>, i: nat)
    requires i < |ops|
    ensures Accepts(o, device, bound, ops[i..]) <==>
            OpOk(o, device, bound, ops[i]) && Accepts(o, device, BoundAfterOp(bound, ops[i]), ops[i + 1..])
  {
    assert ops[i..][0] == ops[i] && ops[i..][1..] == ops[i + 1..];
  }

  /** Accepts exactly the streams that execute to the end without sticking. */
  method ValidateStream(stream: CommandStream, pipelines: map<ObjectId, Pipeline>, resources: map<ObjectId, Resource>)
    returns (r: Result<()>)
    ensures r.Ok? <==> exists trace :: Executes(Objects(pipelines, resources), stream.device, stream.ops, trace)
    ensures r.Ok? <==> Accepts(Objects(pipelines, resources), stream.device, None, stream.ops)
    ensures r.Err? ==> r.error == Device
  {
    ghost var o := Objects(pipelines, resources);
    ExecutesIffAccepted(o, stream.device, stream.ops, Events(None, stream.ops));
    forall trace ensures Executes(o, stream.device, stream.ops, trace) ==> Accepts(o, stream.device, None, stream.ops) {
      ExecutesIffAccepted(o, stream.device, stream.ops, trace);
    }
    var bound: Option<ObjectId> := None;
    assert stream.ops[0..] == stream.ops;
    for i := 0 to |stream.ops|
      invariant Accepts(o, stream.device, None, stream.ops) <==> Accepts(o, stream.device, bound, stream.ops[i..])
    {
      AcceptsFrom(o, stream.device, bound, stream.ops, i);
      match stream.ops[i] {
        case BindPipeline(p) =>
          if p !in pipelines {
            return Err(Device);
          }
          if pipelines[p].device != stream.device {
            return Err(Device);
          }
          bound := Some(p);
        case BindResource(_, res) =>
          if res !in resources {
            return Err(Device);
          }
          if resources[res].device != stream.device {
            return Err(Device);
          }
        case Draw(_, _) =>
          if bound.None? {
            return Err(Device);
          }
        case Dispatch(_, _, _) =>
          if bound.None? {
            return Err(Device);
          }
        case Copy(src, dst) =>
          if src !in resources || dst !in resources {
            return Err(Device);
          }
        case Barrier =>
      }
    }
    return Ok(());
  }

  // ---------- The translator ----------

  function TranslateOp(op: GraphicsOp): Option<DriverOp> {
    match op
    case Draw(v, i) => Some(DrawCmd(v, i))
    case Dispatch(x, y, z) => Some(DispatchCmd(x, y, z))
    case Copy(src, dst) => Some(CopyCmd(src, dst))
    case Barrier => Some(BarrierCmd)
    case BindPipeline(_) => None
    case BindResource(_, _) => None
  }

  function TranslateOps(ops: seq<GraphicsOp>): seq<DriverOp> {
    if ops == [] then []
    else
      var first := TranslateOp(ops[0]);
      (if first.Some? then [first.value] else []) + TranslateOps(ops[1..])
  }

  /** Each op becomes the one driver op of its name, with the same arguments, or none if it binds. */
  lemma OneOpTranslates(op: GraphicsOp)
    ensures TranslateOps([op]) ==
            match op
            case Draw(vertices, instances) => [DrawCmd(vertices, instances)]
            case Dispatch(x, y, z) => [DispatchCmd(x, y, z)]
            case Copy(src, dst) => [CopyCmd(src, dst)]
            case Barrier => [BarrierCmd]
            case BindPipeline(_) => []
            case BindResource(_, _) => []
  {
    assert [op][1..] == [];
  }

  /** A driver sees an executed event without the pipeline it ran with. */
  ghost function EraseEvent(e: Event): DriverOp {
    match e
    case Drew(_, v, i) => DrawCmd(v, i)
    case Dispatched(_, x, y, z) => DispatchCmd(x, y, z)
    case Copied(src, dst) => CopyCmd(src, dst)
    case Fenced => BarrierCmd
  }

  ghost function Erase(trace: seq<Event>): seq<DriverOp> {
    seq(|trace|, i requires 0 <= i < |trace| => EraseEvent(trace[i]))
  }

  lemma EraseConcat(a: seq<Event>, b: seq<Event>)
    ensures Erase(a + b) == Erase(a) + Erase(b)
  {
  }

  lemma {:induction false} TranslationErases(o: Objects, device: ObjectId, bound: Option<ObjectId>, ops: seq<GraphicsOp>)
    requires Accepts(o, device, bound, ops)
    ensures TranslateOps(ops) == Erase(Events(bound, ops))
    decreases |ops|
  {
    if ops == [] {
    } else {
      TranslationErases(o, device, BoundAfterOp(bound, ops[0]), ops[1..]);
      EraseConcat(OpEvents(bound, ops[0]), Events(BoundAfterOp(bound, ops[0]), ops[1..]));
    }
  }

  /** Translation preserves meaning: the driver ops are what the stream's execution does, in order. */
  lemma TranslationPreservesMeaning(o: Objects, device: ObjectId, ops: seq<GraphicsOp>, trace: seq<Event>)
    requires Executes(o, device, ops, trace)
    ensures TranslateOps(ops) == Erase(trace)
  {
    ExecutesIffAccepted(o, device, ops, trace);
    TranslationErases(o, device, None, ops);
  }

  // ---------- What acceptance guarantees ----------

  ghost predicate BoundIsLive(o: Objects, device: ObjectId, bound: Option<ObjectId>) {
    bound.Some? ==> LivePipeline(o, device, bound.value)
  }

  ghost predicate EventIsSafe(o: Objects, device: ObjectId, e: Event) {
    match e
    case Drew(p, _, _) => LivePipeline(o, device, p)
    case Dispatched(p, _, _, _) => LivePipeline(o, device, p)
    case Copied(src, dst) => src in o.resources && dst in o.resources
    case Fenced => true
  }

  lemma {:induction false} EventsAreSafe(o: Objects, device: ObjectId, bound: Option<ObjectId>, ops: seq<GraphicsOp>)
    requires Accepts(o, device, bound, ops) && BoundIsLive(o, device, bound)
    ensures forall e :: e in Events(bound, ops) ==> EventIsSafe(o, device, e)
    decreases |ops|
  {
    if ops == [] {
    } else {
      EventsAreSafe(o, device, BoundAfterOp(bound, ops[0]), ops[1..]);
    }
  }

  /** Every executed draw and dispatch ran with a live pipeline of the stream's device, every copy on live resources. */
  lemma ExecutionIsSafe(o: Objects, device: ObjectId, ops: seq<GraphicsOp>, trace: seq<Event>)
    requires Executes(o, device, ops, trace)
    ensures forall e :: e in trace ==> EventIsSafe(o, device, e)
  {
    ExecutesIffAccepted(o, device, ops, trace);
    EventsAreSafe(o, device, None, ops);
  }

  /** The stream touches objects of its own device only. */
  ghost predicate OpIsConfined(o: Objects, device: ObjectId, op: GraphicsOp) {
    match op
    case BindPipeline(p) => LivePipeline(o, device, p)
    case BindResource(_, r) => LiveResource(o, device, r)
    case Copy(src, dst) => LiveResource(o, device, src) && LiveResource(o, device, dst)
    case _ => true
  }

  ghost predicate CopyIsConfined(o: Objects, device: ObjectId, op: GraphicsOp) {
    op.Copy? ==> LiveResource(o, device, op.src) && LiveResource(o, device, op.dst)
  }

  /** An accepted stream stays on its own device exactly when its copies do: copies are not checked for it. */
  lemma {:induction false} ConfinedIffCopiesAre(
      o: Objects, device: ObjectId, bound: Option<ObjectId>, ops: seq<GraphicsOp>)
    requires Accepts(o, device, bound, ops)
    ensures (forall op :: op in ops ==> OpIsConfined(o, device, op)) <==>
            (forall op :: op in ops ==> CopyIsConfined(o, device, op))
    decreases |ops|
  {
    if ops == [] {
    } else {
      ConfinedIffCopiesAre(o, device, BoundAfterOp(bound, ops[0]), ops[1..]);
      assert ops == [ops[0]] + ops[1..];
      assert forall op :: op in ops <==> op == ops[0] || op in ops[1..];
      assert OpIsConfined(o, device, ops[0]) <==> CopyIsConfined(o, device, ops[0]);
    }
  }

  /** A copy between any two resources of another device is accepted, though the stream's device owns neither. */
  lemma ForeignCopyIsAccepted(o: Objects, device: ObjectId, other: ObjectId, src: ObjectId, dst: ObjectId)
    requires other != device && src != dst && LiveResource(o, other, src) && LiveResource(o, other, dst)
    ensures Accepts(o, device, None, [Copy(src, dst)])
    ensures !LiveResource(o, device, src) && !LiveResource(o, device, dst)
    ensures Executes(o, device, [Copy(src, dst)], [Copied(src, dst)])
  {
    var ops := [Copy(src, dst)];
    assert ops[1..] == [];
    assert Events(None, ops) == [Copied(src, dst)] + Events(None, ops[1..]);
    ExecutesIffAccepted(o, device, ops, [Copied(src, dst)]);
  }

  // ---------- Composition and stability ----------

  /** Checking a concatenation is checking the parts, the second from the state the first leaves. */
  lemma {:induction false} AcceptsComposes(
      o: Objects, device: ObjectId, bound: Option<ObjectId>, a: seq<GraphicsOp>, b: seq<GraphicsOp>)
    ensures Accepts(o, device, bound, a + b) <==>
            Accepts(o, device, bound, a) && Accepts(o, device, BoundAfter(bound, a), b)
    decreases |a|
  {
    if a == [] {
      assert a + b == b;
    } else {
      AcceptsComposes(o, device, BoundAfterOp(bound, a[0]), a[1..], b);
      assert (a + b)[0] == a[0] && (a + b)[1..] == a[1..] + b;
    }
  }

  /** And the driver ops of a concatenation are those of the parts. */
  lemma {:induction false} TranslationComposes(a: seq<GraphicsOp>, b: seq<GraphicsOp>)
    ensures TranslateOps(a + b) == TranslateOps(a) + TranslateOps(b)
    decreases |a|
  {
    if a == [] {
      assert a + b == b;
    } else {
      TranslationComposes(a[1..], b);
      assert (a + b)[0] == a[0] && (a + b)[1..] == a[1..] + b;
    }
  }

  /** Every object an op names is live: what has to survive for the op to stay acceptable. */
  ghost predicate NamesLive(o: Objects, op: GraphicsOp) {
    match op
    case BindPipeline(p) => p in o.pipelines
    case BindResource(_, r) => r in o.resources
    case Copy(src, dst) => src in o.resources && dst in o.resources
    case _ => true
  }

  /** Nothing live in both tables was altered. */
  ghost predicate Unaltered(o: Objects, o': Objects) {
    && (forall p :: p in o.pipelines && p in o'.pipelines ==> o'.pipelines[p] == o.pipelines[p])
    && (forall r :: r in o.resources && r in o'.resources ==> o'.resources[r] == o.resources[r])
  }

  /** While entries are only added and removed, an accepted stream stays accepted iff all it names stays live. */
  lemma {:induction false} StaysAcceptedIff(
      o: Objects, o': Objects, device: ObjectId, bound: Option<ObjectId>, ops: seq<GraphicsOp>)
    requires Accepts(o, device, bound, ops) && Unaltered(o, o')
    ensures Accepts(o', device, bound, ops) <==> forall op :: op in ops ==> NamesLive(o', op)
    decreases |ops|
  {
    if ops == [] {
    } else {
      StaysAcceptedIff(o, o', device, BoundAfterOp(bound, ops[0]), ops[1..]);
      assert ops == [ops[0]] + ops[1..];
      assert forall op :: op in ops <==> op == ops[0] || op in ops[1..];
      assert OpOk(o', device, bound, ops[0]) <==> NamesLive(o', ops[0]);
    }
  }
}
