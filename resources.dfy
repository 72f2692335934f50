/**
 * The worker's resource ledger: a fixed budget of CPU (millicpu) and memory
 * (MiB), the part of it still free, and the outstanding allocations keyed by
 * their identifiers.  Every operation runs under one mutex in the original,
 * so each is modelled as one atomic sequential method.
 */
module Resources {
  import opened Wrappers

  /** Smallest allocation granted: 100 millicpu and 128 MiB. */
  const MinCPUAllocation: int := 100
  const MinMemAllocation: int := 128

  /** Both fields of the original quantity are int64. */
  const Int64Min: int := -0x8000_0000_0000_0000
  const Int64Max: int := 0x7fff_ffff_ffff_ffff

  /** Prefix of every allocation identifier; the random rest is supplied by the caller. */
  const AllocIDPrefix: string := "alloc_"

  /** A quantity of resources: CPU in millicpu, memory in MiB. */
  datatype Resources = Resources(cpu: int, memory: int)

  /** The error kinds of the ledger. */
  datatype Error =
    | NotEnoughCPU
    | NotEnoughMemory
    | CPUAllocationTooLow
    | MemAllocationTooLow
    | AllocationNotFound

  const Zero: Resources := Resources(0, 0)

  function Add(a: Resources, b: Resources): Resources
  {
    Resources(a.cpu + b.cpu, a.memory + b.memory)
  }

  function Sub(a: Resources, b: Resources): Resources
  {
    Resources(a.cpu - b.cpu, a.memory - b.memory)
  }

  predicate IsInt64(r: Resources)
  {
    Int64Min <= r.cpu <= Int64Max && Int64Min <= r.memory <= Int64Max
  }

  predicate NonNegative(r: Resources)
  {
    0 <= r.cpu && 0 <= r.memory
  }

  /** `request` fits in `available`, component by component. */
  predicate Fits(request: Resources, available: Resources)
  {
    request.cpu <= available.cpu && request.memory <= available.memory
  }

  predicate MeetsMinimums(r: Resources)
  {
    MinCPUAllocation <= r.cpu && MinMemAllocation <= r.memory
  }

  /** The verdict of the allocation checks, in the order the original runs
      them: CPU capacity, memory capacity, CPU minimum, memory minimum.
      None means the request is granted. */
  function Admit(free: Resources, request: Resources): (verdict: Option<Error>)
    ensures verdict == None <==> Fits(request, free) && MeetsMinimums(request)
    ensures verdict != Some(AllocationNotFound)
  {
    if free.cpu < request.cpu then Some(NotEnoughCPU)
    else if free.memory < request.memory then Some(NotEnoughMemory)
    else if request.cpu < MinCPUAllocation then Some(CPUAllocationTooLow)
    else if request.memory < MinMemAllocation then Some(MemAllocationTooLow)
    else None
  }

  /** Capacity errors win over minimum-size errors, and CPU over memory. */
  lemma CapacityErrorsTakePrecedence(free: Resources, request: Resources)
    ensures request.cpu > free.cpu ==> Admit(free, request) == Some(NotEnoughCPU)
    ensures request.cpu <= free.cpu && request.memory > free.memory
            ==> Admit(free, request) == Some(NotEnoughMemory)
  {
  }

  /** A minimum-size error is reported only for a request that fits. */
  lemma MinimumErrorsOnlyWhenFits(free: Resources, request: Resources)
    ensures Admit(free, request) == Some(CPUAllocationTooLow)
            <==> Fits(request, free) && request.cpu < MinCPUAllocation
    ensures Admit(free, request) == Some(MemAllocationTooLow)
            <==> Fits(request, free) && MinCPUAllocation <= request.cpu && request.memory < MinMemAllocation
  {
  }

  /** Two requests whose sum exceeds the free capacity cannot both be granted
      one after the other. */
  lemma NoOvercommit(free: Resources, first: Resources, second: Resources)
    requires Admit(free, first) == None
    requires !Fits(Add(first, second), free)
    ensures Admit(Sub(free, first), second) in {Some(NotEnoughCPU), Some(NotEnoughMemory)}
  {
  }

  /** The total of all outstanding allocations. */
  ghost function Sum(allocs: map<string, Resources>): Resources
    decreases |allocs|
  {
    if allocs == map[] then Zero
    else
      var id :| id in allocs;
      Add(allocs[id], Sum(allocs - {id}))
  }

  /** The sum does not depend on which key is taken out first. */
  lemma {:induction false} SumRemove(allocs: map<string, Resources>, id: string)
    requires id in allocs
    ensures Sum(allocs) == Add(allocs[id], Sum(allocs - {id}))
    decreases |allocs|
  {
    var k :| k in allocs && Sum(allocs) == Add(allocs[k], Sum(allocs - {k}));
    if k != id {
      var rest := allocs - {k} - {id};
      assert allocs - {id} - {k} == rest;
      SumRemove(allocs - {k}, id);
      assert Sum(allocs - {k}) == Add(allocs[id], Sum(rest));
      SumRemove(allocs - {id}, k);
      assert Sum(allocs - {id}) == Add(allocs[k], Sum(rest));
      assert Sum(allocs) == Add(allocs[k], Add(allocs[id], Sum(rest)));
    }
  }

  lemma SumInsert(allocs: map<string, Resources>, id: string, r: Resources)
    requires id !in allocs
    ensures Sum(allocs[id := r]) == Add(r, Sum(allocs))
  {
    SumRemove(allocs[id := r], id);
    assert allocs[id := r] - {id} == allocs;
  }

  /** Allocations that each meet the minimums add up to at least that many minimums. */
  lemma {:induction false} SumAtLeastMinimums(allocs: map<string, Resources>)
    requires forall id | id in allocs :: MeetsMinimums(allocs[id])
    ensures Sum(allocs).cpu >= MinCPUAllocation * |allocs|
    ensures Sum(allocs).memory >= MinMemAllocation * |allocs|
    decreases |allocs|
  {
    if allocs != map[] {
      var id :| id in allocs;
      SumRemove(allocs, id);
      SumAtLeastMinimums(allocs - {id});
    }
  }

  /** The ledger invariant: free is total minus everything allocated, every
      allocation meets the minimums, and free is never negative while anything
      is allocated (a negative reserved total admits no allocation at all). */
  ghost predicate LedgerInvariant(total: Resources, free: Resources, allocs: map<string, Resources>)
  {
    && free == Sub(total, Sum(allocs))
    && (forall id | id in allocs :: MeetsMinimums(allocs[id]))
    && (allocs == map[] || NonNegative(free))
  }

  /** For a non-negative budget, 0 <= free <= total, and the number of
      allocations is bounded by how many minimum-size ones the budget holds. */
  lemma FreeWithinTotal(total: Resources, free: Resources, allocs: map<string, Resources>)
    requires LedgerInvariant(total, free, allocs)
    requires NonNegative(total)
    ensures NonNegative(free) && Fits(free, total)
    ensures MinCPUAllocation * |allocs| <= total.cpu
    ensures MinMemAllocation * |allocs| <= total.memory
  {
    SumAtLeastMinimums(allocs);
  }

  /** With an int64 total, free capacity stays an int64: the in-place
      subtraction and addition of the original can never wrap around. */
  lemma FreeIsInt64(total: Resources, free: Resources, allocs: map<string, Resources>)
    requires LedgerInvariant(total, free, allocs)
    requires IsInt64(total)
    ensures IsInt64(free)
  {
    SumAtLeastMinimums(allocs);
  }

  lemma AllocatePreservesInvariant(total: Resources, free: Resources, allocs: map<string, Resources>,
                                   id: string, request: Resources)
    requires LedgerInvariant(total, free, allocs)
    requires id !in allocs
    requires Admit(free, request) == None
    ensures LedgerInvariant(total, Sub(free, request), allocs[id := request])
  {
    SumInsert(allocs, id, request);
  }

  lemma FreePreservesInvariant(total: Resources, free: Resources, allocs: map<string, Resources>, id: string)
    requires LedgerInvariant(total, free, allocs)
    requires id in allocs
    ensures LedgerInvariant(total, Add(free, allocs[id]), allocs - {id})
  {
    SumRemove(allocs, id);
  }

  class ResourceManager {
    var total: Resources
    var free: Resources
    var allocs: map<string, Resources>

    ghost predicate Valid()
      reads this
    {
      LedgerInvariant(total, free, allocs)
    }

    /** InitResourceManager: the reserved CPU and memory become both the
        total and the free capacity, with nothing allocated. */
    constructor (reservedCPU: int, reservedMem: int)
      ensures Valid()
      ensures total == Resources(reservedCPU, reservedMem) && free == total && allocs == map[]
    {
      total := Resources(reservedCPU, reservedMem);
      free := Resources(reservedCPU, reservedMem);
      allocs := map[];
    }

    /** AllocateResources: runs the checks of Admit in order; on success
        reserves the request under the identifier AllocIDPrefix + idSuffix.
        The identifier is drawn only once the checks pass, so it has to be
        fresh only for a request that is granted. */
    method AllocateResources(idSuffix: string, request: Resources) returns (result: Result<string, Error>)
      requires Valid()
      requires Admit(free, request) == None ==> AllocIDPrefix + idSuffix !in allocs
      modifies this`free, this`allocs
      ensures Valid()
      ensures result.Failure? <==> Admit(old(free), request).Some?
      ensures result.Failure? ==>
                && Some(result.error) == Admit(old(free), request)
                && free == old(free) && allocs == old(allocs)
      ensures result.Success? ==>
                && result.value == AllocIDPrefix + idSuffix
                && free == Sub(old(free), request)
                && allocs == old(allocs)[result.value := request]
    {
      if free.cpu < request.cpu {
        return Failure(NotEnoughCPU);
      }
      if free.memory < request.memory {
        return Failure(NotEnoughMemory);
      }
      if request.cpu < MinCPUAllocation {
        return Failure(CPUAllocationTooLow);
      }
      if request.memory < MinMemAllocation {
        return Failure(MemAllocationTooLow);
      }
      var allocID := AllocIDPrefix + idSuffix;
      AllocatePreservesInvariant(total, free, allocs, allocID, request);
      free := Resources(free.cpu - request.cpu, free.memory - request.memory);
      allocs := allocs[allocID := request];
      return Success(allocID);
    }

    /** FreeAllocation: refunds a known allocation and forgets it; an unknown
        (or already freed) identifier changes nothing. */
    method FreeAllocation(allocID: string) returns (err: Option<Error>)
      requires Valid()
      modifies this`free, this`allocs
      ensures Valid()
      ensures err == None <==> allocID in old(allocs)
      ensures err != None ==> err == Some(AllocationNotFound) && free == old(free) && allocs == old(allocs)
      ensures err == None ==> free == Add(old(free), old(allocs)[allocID]) && allocs == old(allocs) - {allocID}
    {
      if allocID !in allocs {
        return Some(AllocationNotFound);
      }
      var resources := allocs[allocID];
      FreePreservesInvariant(total, free, allocs, allocID);
      free := Resources(free.cpu + resources.cpu, free.memory + resources.memory);
      allocs := allocs - {allocID};
      return None;
    }

    /** GetFreeResources: a snapshot of the free capacity, read without
        changing the ledger (FreeWithinTotal bounds it by the total). */
    method GetFreeResources() returns (snapshot: Resources)
      requires Valid()
      ensures snapshot == free
    {
      snapshot := free;
    }
  }

  /** Allocating and then freeing the returned identifier restores the ledger. */
  method AllocateThenFree(m: ResourceManager, idSuffix: string, request: Resources)
    returns (result: Result<string, Error>)
    requires m.Valid()
    requires AllocIDPrefix + idSuffix !in m.allocs
    modifies m
    ensures m.Valid() && m.total == old(m.total)
    ensures m.free == old(m.free) && m.allocs == old(m.allocs)
  {
    result := m.AllocateResources(idSuffix, request);
    if result.Success? {
      var err := m.FreeAllocation(result.value);
      assert err == None;
      assert old(m.allocs)[result.value := request] - {result.value} == old(m.allocs);
    }
  }


  /** Three minimum-size allocations whose suffixes are longer than every
      identifier already in the ledger (so all four are pairwise distinct). */
  method AllocateThreeMinimums(m: ResourceManager, a: string, b: string, c: string)
    requires m.Valid() && Fits(Resources(3 * MinCPUAllocation, 3 * MinMemAllocation), m.free)
    requires forall id | id in m.allocs :: |AllocIDPrefix| < |id| < |AllocIDPrefix| + |a|
    requires 0 < |a| < |b| < |c|
    modifies m
    ensures m.Valid() && m.total == old(m.total)
    ensures m.free == Sub(old(m.free), Resources(3 * MinCPUAllocation, 3 * MinMemAllocation))
    ensures forall id | id in m.allocs :: |AllocIDPrefix| < |id| <= |AllocIDPrefix| + |c|
  {
    var r := m.AllocateResources(a, Resources(MinCPUAllocation, MinMemAllocation));
    r := m.AllocateResources(b, Resources(MinCPUAllocation, MinMemAllocation));
    r := m.AllocateResources(c, Resources(MinCPUAllocation, MinMemAllocation));
  }

  /** The unit test's loop of nine minimum-size allocations on an empty
      1000 millicpu / 1280 MiB ledger, which leaves room for exactly one more. */
  method FillToLastSlot(m: ResourceManager)
    requires m.Valid() && m.free == Resources(1000, 1280) && m.allocs == map[]
    modifies m
    ensures m.Valid() && m.total == old(m.total) && m.free == Resources(100, 128)
    ensures forall id | id in m.allocs :: |AllocIDPrefix| < |id|
  {
    AllocateThreeMinimums(m, "1", "22", "333");
    AllocateThreeMinimums(m, "4444", "55555", "666666");
    AllocateThreeMinimums(m, "7777777", "88888888", "999999999");
  }

  /** The scenario of the package's unit test on a 1000 millicpu / 1280 MiB
      budget; returns the errors of its five failing calls, in order. */
  method TestResourceManager() returns (errors: seq<Error>)
    ensures errors == [NotEnoughCPU, NotEnoughMemory, CPUAllocationTooLow, MemAllocationTooLow, AllocationNotFound]
  {
    var m := new ResourceManager(1000, 1280);
    var r := m.AllocateResources("0", Resources(100, 128));
    var snapshot := m.GetFreeResources();
    assert r.Success? && snapshot == Resources(900, 1152);
    var err := m.FreeAllocation(r.value);
    snapshot := m.GetFreeResources();
    assert snapshot == m.total && m.allocs == map[];

    FillToLastSlot(m);

    var cpuShort := m.AllocateResources("rejected-request", Resources(101, 128));
    var memShort := m.AllocateResources("rejected-request", Resources(100, 129));
    var cpuLow := m.AllocateResources("rejected-request", Resources(99, 128));
    var memLow := m.AllocateResources("rejected-request", Resources(100, 127));
    assert |"blah"| < |AllocIDPrefix|;
    err := m.FreeAllocation("blah");
    errors := [cpuShort.error, memShort.error, cpuLow.error, memLow.error, err.value];
  }
}
