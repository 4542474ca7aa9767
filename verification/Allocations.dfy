/** gpu_abstraction::GpuAllocation and the address ranges allocations stand for. */
module Allocations {
  import opened Common
  import opened GraphicsApi
  import opened GpuDriver

  datatype Allocation = Allocation(id: ObjectId, device: ObjectId, memory: MemoryClass, size: u64, address: u64)

  /** What the trait's callers observe of the allocation table. */
  ghost function ClaimsOf(allocations: map<ObjectId, Allocation>): map<ObjectId, Claim> {
    map id | id in allocations :: Claim(allocations[id].device, allocations[id].memory, allocations[id].size)
  }

  /** x is an address of the range; addresses are 64 bits wide, so a range may run past 2^64 and on from 0. */
  ghost predicate Holds(a: Allocation, x: u64) {
    WrappingSub(x, a.address) < a.size
  }

  /** Two ranges share an address. */
  ghost predicate Overlap(a: Allocation, b: Allocation) {
    exists x: u64 :: Holds(a, x) && Holds(b, x)
  }

  /** Of two ranges with an address in common, one starts inside the other. */
  lemma SharedStart(a: Allocation, b: Allocation, x: u64)
    requires Holds(a, x) && Holds(b, x)
    ensures WrappingSub(b.address, a.address) < a.size || WrappingSub(a.address, b.address) < b.size
  {
  }

  /** They do exactly when both are non-empty and one starts inside the other. */
  lemma OverlapIff(a: Allocation, b: Allocation)
    ensures Overlap(a, b) <==>
            a.size > 0 && b.size > 0
            && (WrappingSub(b.address, a.address) < a.size || WrappingSub(a.address, b.address) < b.size)
  {
    if Overlap(a, b) {
      var x: u64 :| Holds(a, x) && Holds(b, x);
      SharedStart(a, b, x);
    }
    if a.size > 0 && b.size > 0 {
      if WrappingSub(b.address, a.address) < a.size {
        assert Holds(a, b.address) && Holds(b, b.address);
      }
      if WrappingSub(a.address, b.address) < b.size {
        assert Holds(a, a.address) && Holds(b, a.address);
      }
    }
  }

  /** Ranges that end by 2^64 overlap exactly when they do as ranges of integers. */
  lemma OverlapUnwrapped(a: Allocation, b: Allocation)
    requires a.address + a.size <= 0x1_0000_0000_0000_0000 && b.address + b.size <= 0x1_0000_0000_0000_0000
    ensures Overlap(a, b) <==>
            a.size > 0 && b.size > 0 && a.address < b.address + b.size && b.address < a.address + a.size
  {
    OverlapIff(a, b);
  }

  ghost predicate DisjointOn(allocations: map<ObjectId, Allocation>, g: ObjectId) {
    forall i, j | i in allocations && j in allocations && i != j
      && allocations[i].device == g && allocations[j].device == g :: !Overlap(allocations[i], allocations[j])
  }

  /** Every non-empty range on g ends at or below `top`. */
  ghost predicate BelowOn(allocations: map<ObjectId, Allocation>, g: ObjectId, top: nat) {
    forall i :: i in allocations && allocations[i].device == g && allocations[i].size > 0 ==>
      allocations[i].address + allocations[i].size <= top
  }

  /** Appending at or above the top, and not past 2^64, keeps ranges apart. */
  lemma AppendKeepsDisjoint(allocations: map<ObjectId, Allocation>, a: Allocation, g: ObjectId, top: nat)
    requires DisjointOn(allocations, g) && BelowOn(allocations, g, top) && a.id !in allocations
    requires a.device == g && a.size > 0 ==> a.address >= top && a.address + a.size <= 0x1_0000_0000_0000_0000
    ensures DisjointOn(allocations[a.id := a], g)
    ensures a.device == g ==> BelowOn(allocations[a.id := a], g, if a.size > 0 then a.address + a.size else top)
  {
    var after := allocations[a.id := a];
    forall i, j | i in after && j in after && i != j && after[i].device == g && after[j].device == g
      ensures !Overlap(after[i], after[j])
    {
      OverlapIff(after[i], after[j]);
      if i == a.id || j == a.id {
        var b := if i == a.id then after[j] else after[i];
        if a.size > 0 && b.size > 0 {
          OverlapUnwrapped(after[i], after[j]);
        }
      }
    }
  }
}
