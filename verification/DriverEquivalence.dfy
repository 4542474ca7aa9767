/** The two driver implementations are the same driver up to device addresses, and FallbackDriver is either. */
module DriverEquivalence {
  import opened Common
  import opened GraphicsApi
  import opened GpuDriver
  import opened Allocations
  import S = SoftwareDriver
  import V = VulkanDriver

  /**
   * Bisimulation: over a backend that never fails, from drivers that show the same, every sequence of
   * calls gets the same results from both and leaves the same free VRAM, faults and allocations.
   */
  lemma {:induction false} DriversAgree(ss: seq<S.Software>, vs: seq<V.Vulkan>, calls: seq<Call>, n: nat)
    requires S.IsRun(ss, calls) && V.IsRun(vs, calls) && n <= |calls|
    requires forall c :: c in calls ==> S.NeverFails(c)
    requires V.Valid(vs[0]) && S.View(ss[0]) == V.View(vs[0])
    ensures V.Valid(vs[n]) && S.View(ss[n]) == V.View(vs[n])
    ensures n > 0 ==> S.Step(ss[n - 1], calls[n - 1]).1 == V.Step(vs[n - 1], calls[n - 1]).1
  {
    if n == 0 {
    } else {
      DriversAgree(ss, vs, calls, n - 1);
      assert S.Link(ss, calls, n - 1) && V.Link(vs, calls, n - 1);
      assert calls[n - 1] in calls;
      S.StepRefinesContract(ss[n - 1], calls[n - 1]);
      V.StepRefinesContract(vs[n - 1], calls[n - 1]);
    }
  }

  /** Opened on the same device ids with the same VRAM, they show the same. */
  lemma OpenedAgree(ids: seq<ObjectId>, vram: u64)
    ensures V.Valid(V.Opened(ids, vram)) && S.View(S.Opened(ids, vram)) == V.View(V.Opened(ids, vram))
  {
    assert S.View(S.Opened(ids, vram)).gpus == V.View(V.Opened(ids, vram)).gpus;
  }

  /** Newly opened, all of every device's VRAM is free, none faulted, and VRAM is conserved from there on. */
  lemma OpenedIsConserved(ids: seq<ObjectId>, vram: u64)
    ensures var d := V.View(V.Opened(ids, vram));
            && Conserved(d, map g | g in ids :: vram) && d.claims == map[] && d.accepted == []
            && forall g :: g in ids ==> g in d.gpus && d.gpus[g] == Gpu(vram, None)
    ensures V.Valid(V.Opened(ids, vram)) && S.View(S.Opened(ids, vram)) == V.View(V.Opened(ids, vram))
  {
    OpenedAgree(ids, vram);
    var d := V.View(V.Opened(ids, vram));
    assert d.claims == map[];
    forall g | g in d.gpus ensures Outstanding(d, g) == 0 {
      assert SizesOn(d.claims, g) == map[];
    }
  }

  // ---------- Addresses agree too, until something is freed ----------

  /** Same devices, free VRAM and allocation table, and the same next address on every device. */
  ghost predicate SameAddresses(s: S.Software, v: V.Vulkan) {
    && s.devices.Keys == v.devices && v.vramAvailable.Keys == v.devices
    && s.allocations == v.allocations
    && forall g :: g in s.devices ==> SameOn(s, v, g)
  }

  ghost predicate SameOn(s: S.Software, v: V.Vulkan, g: ObjectId)
    requires g in s.devices && g in v.vramAvailable
  {
    && s.devices[g].available == v.vramAvailable[g] && v.vramAvailable[g] <= s.devices[g].total
    && V.NextOn(v, g) == s.devices[g].total - s.devices[g].available
  }

  lemma AllocateUsesSpace(s: S.Software, v: V.Vulkan, device: ObjectId, size: u64, memory: MemoryClass, id: ObjectId)
    requires SameAddresses(s, v) && device in s.devices && size <= s.devices[device].available
    ensures var c := Allocate(device, size, memory, id);
            && S.Step(s, c).0.allocations == V.Step(v, c).0.allocations
            && V.NextOn(V.Step(v, c).0, device) == V.NextOn(v, device) + size
  {
    assert SameOn(s, v, device);
    assert WrappingAdd(V.NextOn(v, device), size) == V.NextOn(v, device) + size;
  }

  /** The call frees nothing that takes space. */
  ghost predicate FreesNoSpace(s: S.Software, c: Call) {
    c.Free? && c.allocation in s.allocations ==> s.allocations[c.allocation].size == 0
  }

  lemma AllocateSameAddresses(s: S.Software, v: V.Vulkan, device: ObjectId, size: u64, memory: MemoryClass, id: ObjectId)
    requires SameAddresses(s, v)
    ensures var c := Allocate(device, size, memory, id); SameAddresses(S.Step(s, c).0, V.Step(v, c).0)
  {
    if device in s.devices && size <= s.devices[device].available {
      var c := Allocate(device, size, memory, id);
      var s', v' := S.Step(s, c).0, V.Step(v, c).0;
      AllocateUsesSpace(s, v, device, size, memory, id);
      forall g | g in s'.devices ensures SameOn(s', v', g) {
        assert SameOn(s, v, g);
      }
    }
  }

  lemma FreeSameAddresses(s: S.Software, v: V.Vulkan, id: ObjectId)
    requires SameAddresses(s, v) && FreesNoSpace(s, Free(id))
    ensures SameAddresses(S.Step(s, Free(id)).0, V.Step(v, Free(id)).0)
  {
    var s', v' := S.Step(s, Free(id)).0, V.Step(v, Free(id)).0;
    if id in s.allocations {
      assert s'.devices == s.devices;
      assert v'.vramAvailable == v.vramAvailable;
    }
  }

  lemma OthersSameAddresses(s: S.Software, v: V.Vulkan, c: Call)
    requires SameAddresses(s, v) && !c.Allocate? && !c.Free?
    ensures SameAddresses(S.Step(s, c).0, V.Step(v, c).0)
  {
  }

  /** The two drivers hand out equal addresses for as long as no non-empty allocation is freed. */
  lemma {:induction false} AddressesAgreeUntilFirstFree(
      ss: seq<S.Software>, vs: seq<V.Vulkan>, calls: seq<Call>, n: nat)
    requires S.IsRun(ss, calls) && V.IsRun(vs, calls) && n <= |calls|
    requires SameAddresses(ss[0], vs[0])
    requires forall i :: 0 <= i < n ==> FreesNoSpace(ss[i], calls[i])
    ensures SameAddresses(ss[n], vs[n]) && ss[n].allocations == vs[n].allocations
  {
    if n == 0 {
    } else {
      AddressesAgreeUntilFirstFree(ss, vs, calls, n - 1);
      assert S.Link(ss, calls, n - 1) && V.Link(vs, calls, n - 1);
      var s, v := ss[n - 1], vs[n - 1];
      assert FreesNoSpace(s, calls[n - 1]);
      match calls[n - 1]
      case Allocate(device, size, memory, id) => AllocateSameAddresses(s, v, device, size, memory, id);
      case Free(id) => FreeSameAddresses(s, v, id);
      case _ => OthersSameAddresses(s, v, calls[n - 1]);
    }
  }

  /** And no longer: once a non-empty allocation is freed, the two would place the next one differently. */
  lemma AddressesDifferAfterFree(s: S.Software, v: V.Vulkan, id: ObjectId)
    requires SameAddresses(s, v) && id in s.allocations && s.allocations[id].device in s.devices
    requires var a := s.allocations[id];
             a.size > 0 && s.devices[a.device].available + a.size <= s.devices[a.device].total
    ensures var g := s.allocations[id].device; var s' := S.Step(s, Free(id)).0;
            g in s'.devices && S.UsedOn(s', g) != V.NextOn(V.Step(v, Free(id)).0, g)
  {
  }

  lemma OpenedSameAddresses(ids: seq<ObjectId>, vram: u64)
    ensures SameAddresses(S.Opened(ids, vram), V.Opened(ids, vram))
  {
  }

  // ---------- FallbackDriver ----------

  datatype Fallback = Vulkan(vulkan: V.Vulkan) | Software(software: S.Software, reason: Error)

  /** Takes the Vulkan driver if it opened, and otherwise a one-device software driver, keeping the reason. */
  function FromVulkanResult(result: Result<V.Vulkan>, newId: ObjectId, vram: u64): Fallback {
    match result
    case Ok(driver) => Vulkan(driver)
    case Err(error) => Software(S.Opened([newId], vram), error)
  }

  function FallbackReason(f: Fallback): Option<Error> {
    if f.Vulkan? then None else Some(f.reason)
  }

  function Step(f: Fallback, c: Call): (Fallback, Result<()>) {
    match f
    case Vulkan(v) => var (v', r) := V.Step(v, c); (Vulkan(v'), r)
    case Software(s, reason) => var (s', r) := S.Step(s, c); (Software(s', reason), r)
  }

  ghost predicate Valid(f: Fallback) { f.Vulkan? ==> V.Valid(f.vulkan) }

  ghost function View(f: Fallback): Driver
    requires Valid(f)
  {
    if f.Vulkan? then V.View(f.vulkan) else S.View(f.software)
  }

  /** The call with the answer the chosen driver gives: software never refuses, loses a device or fails a reset. */
  ghost function Answered(f: Fallback, c: Call): Call {
    if f.Vulkan? then c
    else
      match c
      case Submit(device, workload, ops, _) => Submit(device, workload, ops, Accept)
      case Reset(device, _) => Reset(device, true)
      case _ => c
  }

  /**
   * Whichever driver won, FallbackDriver is an instance of the trait's contract, stays the driver it
   * is, and keeps its reason; so a runtime over it behaves identically either way, given the answers.
   */
  lemma FallbackRefinesContract(f: Fallback, c: Call)
    requires Valid(f)
    ensures var (f', r) := Step(f, c);
            && Valid(f') && f'.Vulkan? == f.Vulkan? && FallbackReason(f') == FallbackReason(f)
            && (View(f'), r) == Apply(View(f), Answered(f, c))
  {
    match f
    case Vulkan(v) => V.StepRefinesContract(v, c);
    case Software(s, _) =>
      assert S.Step(s, c) == S.Step(s, Answered(f, c));
      S.StepRefinesContract(s, Answered(f, c));
  }

  /** Opening falls back exactly when Vulkan failed to open, and then says why. */
  lemma FallsBackIffVulkanFailed(result: Result<V.Vulkan>, newId: ObjectId, vram: u64)
    ensures var f := FromVulkanResult(result, newId, vram);
            && (f.Vulkan? <==> result.Ok?)
            && FallbackReason(f) == (match result case Ok(_) => None case Err(e) => Some(e))
            && (result.Err? ==> View(f).gpus == map[newId := Gpu(vram, None)] && View(f).claims == map[])
  {
    if result.Err? {
      assert S.View(S.Opened([newId], vram)).gpus.Keys == {newId};
    }
  }
}
