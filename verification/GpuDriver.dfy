/**
 * The `GpuDriver` trait of crates/gpu_abstraction as a state machine over what its callers can
 * observe: per-GPU free VRAM and fault, the outstanding allocations without their addresses, and
 * the batches the driver said Ok to. A driver's freedom is an explicit argument of the call.
 * SoftwareDriver and VulkanDriver are proved to be instances; GraphicsRuntime relies on this alone.
 */
module GpuDriver {
  import opened Common
  import opened GraphicsApi
  import opened CommandStreams
  import opened Ledger

  datatype Fault = Fault(device: ObjectId, address: u64, description: string)

  datatype Claim = Claim(device: ObjectId, memory: MemoryClass, size: u64)

  datatype Gpu = Gpu(available: u64, fault: Option<Fault>)

  datatype Batch = Batch(gpu: ObjectId, workload: WorkloadClass, ops: seq<DriverOp>)

  datatype Driver = Driver(gpus: map<ObjectId, Gpu>, claims: map<ObjectId, Claim>, accepted: seq<Batch>)

  /** How a healthy, known device answers a batch. */
  datatype Answer =
    | Accept
    | Refuse                     // an error that is not a fault
    | Lose(description: string)  // an error that is also recorded as a fault

  datatype Call =
    | Allocate(device: ObjectId, size: u64, memory: MemoryClass, id: ObjectId)
    | Free(allocation: ObjectId)
    | Submit(device: ObjectId, workload: WorkloadClass, ops: seq<DriverOp>, answer: Answer)
    | Reset(device: ObjectId, works: bool)
    | MarkFaulted(device: ObjectId, description: string)

  function SetFault(d: Driver, device: ObjectId, fault: Option<Fault>): Driver {
    if device in d.gpus then d.(gpus := d.gpus[device := d.gpus[device].(fault := fault)]) else d
  }

  function AllocateVram(d: Driver, device: ObjectId, size: u64, memory: MemoryClass, id: ObjectId)
    : (Driver, Result<()>)
  {
    if device !in d.gpus then (d, Err(Device))
    else if size > d.gpus[device].available then (d, Err(Memory))
    else
      var gpu := d.gpus[device];
      (d.(gpus := d.gpus[device := gpu.(available := gpu.available - size)],
          claims := d.claims[id := Claim(device, memory, size)]), Ok(()))
  }

  /** The table entry goes first; an unknown device is only noticed afterwards. */
  function FreeVram(d: Driver, id: ObjectId): (Driver, Result<()>) {
    if id !in d.claims then (d, Err(Memory))
    else
      var claim := d.claims[id];
      var removed := d.(claims := d.claims - {id});
      if claim.device !in d.gpus then (removed, Err(Device))
      else
        var gpu := d.gpus[claim.device];
        (removed.(gpus := d.gpus[claim.device := gpu.(available := WrappingAdd(gpu.available, claim.size))]), Ok(()))
  }

  function SubmitBatch(d: Driver, device: ObjectId, workload: WorkloadClass, ops: seq<DriverOp>, answer: Answer)
    : (Driver, Result<()>)
  {
    if device !in d.gpus then (d, Err(Device))
    else if d.gpus[device].fault.Some? then (d, Err(Device))
    else
      match answer
      case Accept => (d.(accepted := d.accepted + [Batch(device, workload, ops)]), Ok(()))
      case Refuse => (d, Err(Device))
      case Lose(description) => (SetFault(d, device, Some(Fault(device, 0, description))), Err(Device))
  }

  function ResetDevice(d: Driver, device: ObjectId, works: bool): (Driver, Result<()>) {
    if device !in d.gpus then (d, Err(Device))
    else if works then (SetFault(d, device, None), Ok(()))
    else (d, Err(Device))
  }

  function Mark(d: Driver, device: ObjectId, description: string): Driver {
    SetFault(d, device, Some(Fault(device, 0, description)))
  }

  function Apply(d: Driver, c: Call): (Driver, Result<()>) {
    match c
    case Allocate(device, size, memory, id) => AllocateVram(d, device, size, memory, id)
    case Free(id) => FreeVram(d, id)
    case Submit(device, workload, ops, answer) => SubmitBatch(d, device, workload, ops, answer)
    case Reset(device, works) => ResetDevice(d, device, works)
    case MarkFaulted(device, description) => (Mark(d, device, description), Ok(()))
  }

  function After(d: Driver, calls: seq<Call>): Driver
    decreases |calls|
  {
    if calls == [] then d else Apply(After(d, calls[..|calls| - 1]), calls[|calls| - 1]).0
  }

  // ---------- Conservation ----------

  ghost function SizesOn(claims: map<ObjectId, Claim>, g: ObjectId): map<ObjectId, nat> {
    map id | id in claims && claims[id].device == g :: claims[id].size
  }

  ghost function Outstanding(d: Driver, g: ObjectId): nat {
    SumOf(SizesOn(d.claims, g))
  }

  /** Free and outstanding VRAM add up to what the GPU was opened with, and every claim is on a known GPU. */
  ghost predicate Conserved(d: Driver, totals: map<ObjectId, u64>) {
    && d.gpus.Keys == totals.Keys
    && (forall id :: id in d.claims ==> d.claims[id].device in d.gpus)
    && (forall g :: g in d.gpus ==> totals[g] == d.gpus[g].available + Outstanding(d, g))
  }

  /** `ObjectId::new` does not hand out an id that is in use. */
  ghost predicate DrawsUnused(d: Driver, c: Call) {
    c.Allocate? ==> c.id !in d.claims
  }

  lemma ClaimAdds(claims: map<ObjectId, Claim>, id: ObjectId, claim: Claim, g: ObjectId)
    requires id !in claims
    ensures SumOf(SizesOn(claims[id := claim], g))
         == SumOf(SizesOn(claims, g)) + if claim.device == g then claim.size else 0
  {
    var before := SizesOn(claims, g);
    if claim.device == g {
      assert SizesOn(claims[id := claim], g) == before[id := claim.size];
      SumInsert(before, id, claim.size);
    } else {
      assert SizesOn(claims[id := claim], g) == before;
    }
  }

  lemma ClaimRemoves(claims: map<ObjectId, Claim>, id: ObjectId, g: ObjectId)
    requires id in claims
    ensures SumOf(SizesOn(claims, g))
         == SumOf(SizesOn(claims - {id}, g)) + if claims[id].device == g then claims[id].size else 0
  {
    var before := SizesOn(claims, g);
    if claims[id].device == g {
      SumTakeOut(before, id);
      assert SizesOn(claims - {id}, g) == before - {id};
    } else {
      assert SizesOn(claims - {id}, g) == before;
    }
  }

  lemma AllocateConservesOn(d: Driver, device: ObjectId, size: u64, memory: MemoryClass, id: ObjectId, g: ObjectId)
    requires g in d.gpus && id !in d.claims
    ensures var d' := AllocateVram(d, device, size, memory, id).0;
            g in d'.gpus && d'.gpus[g].available + Outstanding(d', g) == d.gpus[g].available + Outstanding(d, g)
  {
    ClaimAdds(d.claims, id, Claim(device, memory, size), g);
  }

  lemma FreeConservesOn(d: Driver, id: ObjectId, total: u64, g: ObjectId)
    requires g in d.gpus && (id in d.claims ==> d.claims[id].device in d.gpus)
    requires total == d.gpus[g].available + Outstanding(d, g)
    ensures var d' := FreeVram(d, id).0;
            g in d'.gpus && d'.gpus[g].available + Outstanding(d', g) == total
  {
    if id in d.claims {
      ClaimRemoves(d.claims, id, g);
      if d.claims[id].device == g {
        assert d.gpus[g].available + d.claims[id].size <= total;
        assert WrappingAdd(d.gpus[g].available, d.claims[id].size) == d.gpus[g].available + d.claims[id].size;
      }
    }
  }

  lemma ConservesOn(d: Driver, c: Call, totals: map<ObjectId, u64>, g: ObjectId)
    requires Conserved(d, totals) && DrawsUnused(d, c) && g in d.gpus
    ensures var d' := Apply(d, c).0; g in d'.gpus && totals[g] == d'.gpus[g].available + Outstanding(d', g)
  {
    assert totals[g] == d.gpus[g].available + Outstanding(d, g);
    match c
    case Allocate(device, size, memory, id) => AllocateConservesOn(d, device, size, memory, id, g);
    case Free(id) => FreeConservesOn(d, id, totals[g], g);
    case _ => assert Apply(d, c).0.claims == d.claims;
  }

  lemma ClaimsStayKnown(d: Driver, c: Call)
    requires forall id :: id in d.claims ==> d.claims[id].device in d.gpus
    ensures Apply(d, c).0.gpus.Keys == d.gpus.Keys
    ensures forall id :: id in Apply(d, c).0.claims ==> Apply(d, c).0.claims[id].device in d.gpus
  {
  }

  /** Every driver call conserves VRAM on every GPU. */
  lemma ApplyConserves(d: Driver, c: Call, totals: map<ObjectId, u64>)
    requires Conserved(d, totals) && DrawsUnused(d, c)
    ensures Conserved(Apply(d, c).0, totals)
  {
    var d' := Apply(d, c).0;
    ClaimsStayKnown(d, c);
    forall g | g in d'.gpus ensures totals[g] == d'.gpus[g].available + Outstanding(d', g) {
      ConservesOn(d, c, totals, g);
    }
  }

  ghost predicate DrawsUnusedThroughout(d: Driver, calls: seq<Call>)
    decreases |calls|
  {
    calls == [] ||
    (var before := calls[..|calls| - 1];
     DrawsUnusedThroughout(d, before) && DrawsUnused(After(d, before), calls[|calls| - 1]))
  }

  /** Over any call history, free plus outstanding VRAM stays the GPU's total. */
  lemma {:induction false} HistoryConserves(d: Driver, calls: seq<Call>, totals: map<ObjectId, u64>)
    requires Conserved(d, totals) && DrawsUnusedThroughout(d, calls)
    ensures Conserved(After(d, calls), totals)
    decreases |calls|
  {
    if calls == [] {
    } else {
      var before := calls[..|calls| - 1];
      HistoryConserves(d, before, totals);
      ApplyConserves(After(d, before), calls[|calls| - 1], totals);
    }
  }

  lemma CreditNeverWraps(d: Driver, id: ObjectId, totals: map<ObjectId, u64>)
    requires Conserved(d, totals) && id in d.claims
    ensures d.claims[id].device in d.gpus
    ensures d.gpus[d.claims[id].device].available + d.claims[id].size < 0x1_0000_0000_0000_0000
  {
    var g := d.claims[id].device;
    ClaimRemoves(d.claims, id, g);
    assert totals[g] == d.gpus[g].available + Outstanding(d, g);
  }

  /** Under conservation a free fails only for an unknown id, never after removing the entry, and never wraps. */
  lemma FreeIsExact(d: Driver, id: ObjectId, totals: map<ObjectId, u64>)
    requires Conserved(d, totals)
    ensures FreeVram(d, id).1.Ok? <==> id in d.claims
    ensures FreeVram(d, id).1.Err? ==> FreeVram(d, id) == (d, Err(Memory))
    ensures id in d.claims ==>
              var g := d.claims[id].device;
              FreeVram(d, id).0.gpus[g].available == d.gpus[g].available + d.claims[id].size
  {
    if id in d.claims {
      CreditNeverWraps(d, id, totals);
    }
  }

  /** A failing driver call changes no claim, no free VRAM and no accepted batch, on any GPU. */
  lemma FailedCallKeepsLedger(d: Driver, c: Call, totals: map<ObjectId, u64>)
    requires Conserved(d, totals) && Apply(d, c).1.Err?
    ensures var d' := Apply(d, c).0;
            && d'.claims == d.claims && d'.accepted == d.accepted && d'.gpus.Keys == d.gpus.Keys
            && forall g :: g in d.gpus ==> d'.gpus[g].available == d.gpus[g].available
  {
    if c.Free? {
      FreeIsExact(d, c.allocation, totals);
    }
  }

  // ---------- When calls succeed, and the faults they leave ----------

  /** Exactly when a call succeeds, and with which class of error it fails. */
  lemma CallSucceedsIff(d: Driver, c: Call)
    ensures var r := Apply(d, c).1;
            match c
            case Allocate(g, size, _, _) =>
              && (r.Ok? <==> g in d.gpus && size <= d.gpus[g].available)
              && (r == Err(Memory) <==> g in d.gpus && size > d.gpus[g].available)
              && r != Err(Security)
            case Free(id) =>
              && (r.Ok? <==> id in d.claims && d.claims[id].device in d.gpus)
              && (r == Err(Memory) <==> id !in d.claims) && r != Err(Security)
            case Submit(g, _, _, answer) =>
              && (r.Ok? <==> g in d.gpus && d.gpus[g].fault.None? && answer == Accept)
              && (r.Err? ==> r.error == Device)
            case Reset(g, works) => (r.Ok? <==> g in d.gpus && works) && (r.Err? ==> r.error == Device)
            case MarkFaulted(_, _) => r.Ok?
  {
  }

  /** The fault of a GPU after a call, in every case. */
  lemma FaultAfterCall(d: Driver, c: Call, g: ObjectId)
    requires g in d.gpus
    ensures var d' := Apply(d, c).0;
            && g in d'.gpus
            && d'.gpus[g].fault ==
               match c
               case Submit(h, _, _, Lose(text)) =>
                 if h == g && d.gpus[g].fault.None? then Some(Fault(g, 0, text)) else d.gpus[g].fault
               case Reset(h, true) => if h == g then None else d.gpus[g].fault
               case MarkFaulted(h, text) => if h == g then Some(Fault(g, 0, text)) else d.gpus[g].fault
               case _ => d.gpus[g].fault
  {
  }

  // ---------- Independence of GPUs ----------

  /** Everything the driver holds about one GPU. */
  datatype Slice = Slice(gpu: Option<Gpu>, claims: map<ObjectId, Claim>, accepted: seq<Batch>)

  ghost function ClaimsOn(claims: map<ObjectId, Claim>, g: ObjectId): map<ObjectId, Claim> {
    map id | id in claims && claims[id].device == g :: claims[id]
  }

  ghost function BatchesOn(batches: seq<Batch>, g: ObjectId): seq<Batch> {
    if batches == [] then []
    else
      var n := |batches| - 1;
      BatchesOn(batches[..n], g) + if batches[n].gpu == g then [batches[n]] else []
  }

  ghost function SliceOf(d: Driver, g: ObjectId): Slice {
    Slice(if g in d.gpus then Some(d.gpus[g]) else None, ClaimsOn(d.claims, g), BatchesOn(d.accepted, g))
  }

  /** The call concerns GPU g; a free concerns the GPU recorded in the allocation. */
  ghost predicate Touches(d: Driver, c: Call, g: ObjectId) {
    match c
    case Allocate(device, _, _, _) => device == g
    case Free(id) => id in d.claims && d.claims[id].device == g
    case Submit(device, _, _, _) => device == g
    case Reset(device, _) => device == g
    case MarkFaulted(device, _) => device == g
  }

  /** A call that does not concern g leaves everything about g as it was. */
  lemma UntouchedSlice(d: Driver, c: Call, g: ObjectId)
    requires !Touches(d, c, g) && DrawsUnused(d, c)
    ensures SliceOf(Apply(d, c).0, g) == SliceOf(d, g)
  {
    var d' := Apply(d, c).0;
    assert ClaimsOn(d'.claims, g) == ClaimsOn(d.claims, g);
    if d'.accepted != d.accepted {
      assert d'.accepted[..|d'.accepted| - 1] == d.accepted;
    }
  }

  lemma TouchedByAllocate(d: Driver, e: Driver, size: u64, memory: MemoryClass, id: ObjectId, g: ObjectId)
    requires SliceOf(d, g) == SliceOf(e, g)
    ensures SliceOf(AllocateVram(d, g, size, memory, id).0, g) == SliceOf(AllocateVram(e, g, size, memory, id).0, g)
    ensures AllocateVram(d, g, size, memory, id).1 == AllocateVram(e, g, size, memory, id).1
  {
    var d', e' := AllocateVram(d, g, size, memory, id).0, AllocateVram(e, g, size, memory, id).0;
    assert g in d.gpus <==> g in e.gpus;
    if g in d.gpus && size <= d.gpus[g].available {
      assert ClaimsOn(d'.claims, g) == ClaimsOn(d.claims, g)[id := Claim(g, memory, size)];
      assert ClaimsOn(e'.claims, g) == ClaimsOn(e.claims, g)[id := Claim(g, memory, size)];
    }
  }

  lemma TouchedByFree(d: Driver, e: Driver, id: ObjectId, g: ObjectId)
    requires SliceOf(d, g) == SliceOf(e, g) && id in d.claims && d.claims[id].device == g
    ensures SliceOf(FreeVram(d, id).0, g) == SliceOf(FreeVram(e, id).0, g) && FreeVram(d, id).1 == FreeVram(e, id).1
  {
    var d', e' := FreeVram(d, id).0, FreeVram(e, id).0;
    assert g in d.gpus <==> g in e.gpus;
    assert id in ClaimsOn(d.claims, g) && id in ClaimsOn(e.claims, g);
    assert ClaimsOn(d.claims, g)[id] == ClaimsOn(e.claims, g)[id];
    assert ClaimsOn(d'.claims, g) == ClaimsOn(d.claims, g) - {id};
    assert ClaimsOn(e'.claims, g) == ClaimsOn(e.claims, g) - {id};
  }

  /** A call that concerns g sees and changes nothing but g's slice. */
  lemma TouchedSlice(d: Driver, e: Driver, c: Call, g: ObjectId)
    requires SliceOf(d, g) == SliceOf(e, g) && Touches(d, c, g)
    ensures SliceOf(Apply(d, c).0, g) == SliceOf(Apply(e, c).0, g)
    ensures Apply(d, c).1 == Apply(e, c).1
  {
    match c
    case Allocate(_, size, memory, id) => TouchedByAllocate(d, e, size, memory, id, g);
    case Free(id) => TouchedByFree(d, e, id, g);
    case Submit(_, _, _, _) =>
      var d', e' := Apply(d, c).0, Apply(e, c).0;
      assert g in d.gpus <==> g in e.gpus;
      if d'.accepted != d.accepted {
        assert d'.accepted[..|d'.accepted| - 1] == d.accepted;
        assert e'.accepted[..|e'.accepted| - 1] == e.accepted;
      }
    case _ => assert g in d.gpus <==> g in e.gpus;
  }

  /** The part of a history that concerns GPU g. */
  ghost function Restrict(d: Driver, calls: seq<Call>, g: ObjectId): seq<Call>
    decreases |calls|
  {
    if calls == [] then []
    else
      var n := |calls| - 1;
      Restrict(d, calls[..n], g) + if Touches(After(d, calls[..n]), calls[n], g) then [calls[n]] else []
  }

  /**
   * Non-interference: after any history, everything about GPU g is what the calls that concern g
   * alone would have left, and such a call next would get the same result.
   */
  lemma {:induction false} GpusDoNotInterfere(d: Driver, calls: seq<Call>, g: ObjectId)
    requires DrawsUnusedThroughout(d, calls)
    ensures SliceOf(After(d, calls), g) == SliceOf(After(d, Restrict(d, calls, g)), g)
    ensures forall c :: Touches(After(d, calls), c, g) ==>
              Apply(After(d, calls), c).1 == Apply(After(d, Restrict(d, calls, g)), c).1
    decreases |calls|
  {
    if calls == [] {
    } else {
      var n := |calls| - 1;
      var now, kept := After(d, calls[..n]), Restrict(d, calls[..n], g);
      GpusDoNotInterfere(d, calls[..n], g);
      if Touches(now, calls[n], g) {
        TouchedSlice(now, After(d, kept), calls[n], g);
        assert (kept + [calls[n]])[..|kept|] == kept;
      } else {
        UntouchedSlice(now, calls[n], g);
        assert kept + [] == kept;
      }
      forall c | Touches(After(d, calls), c, g)
        ensures Apply(After(d, calls), c).1 == Apply(After(d, Restrict(d, calls, g)), c).1
      {
        TouchedSlice(After(d, calls), After(d, Restrict(d, calls, g)), c, g);
      }
    }
  }
}
