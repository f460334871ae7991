/**
 * The GPU allocation pool (`GPUPool`): a table from GPU id to a virtual GPU whose
 * `allocated_to` field names its current owner. `allocate` grants exclusive ownership of a
 * free GPU and reports its rental cost; `release` clears ownership unconditionally.
 *
 * The operations are specified as functions on the table (`AllocateIn`, `ReleaseIn`,
 * `AllocatedGpus`); the class `GpuPool` updates its table in place and is proved to follow them.
 */
module VirtualGpuPool {
  import opened Wrappers

  datatype VirtualGpu = VirtualGpu(id: nat, vramMb: nat, computeUnits: nat, allocatedTo: Option<string>)

  /** The pool's table, keyed by GPU id. */
  type Table = map<nat, VirtualGpu>

  datatype PoolError = GpuNotFound | GpuAlreadyAllocated

  /** What an allocation returns (the cost or the error) and the table it leaves behind. */
  datatype AllocOutcome = AllocOutcome(result: Result<real, PoolError>, table: Table)

  /** `calculate_cost`'s formula, `vram_mb * 0.1 + compute_units * 2.0`, in exact arithmetic. */
  function Cost(g: VirtualGpu): real {
    g.vramMb as real * 0.1 + g.computeUnits as real * 2.0
  }

  /** The two GPUs a new pool holds. */
  function InitialTable(): Table {
    map[0 := VirtualGpu(0, 8192, 32, None), 1 := VirtualGpu(1, 16384, 64, None)]
  }

  /** `calculate_cost`: looks the GPU up again and prices it. */
  function CalculateCost(table: Table, gpuId: nat): Result<real, PoolError> {
    if gpuId in table then Ok(Cost(table[gpuId])) else Err(GpuNotFound)
  }

  /** `allocate`: unknown id, then taken GPU, are refused; otherwise record the owner and price it. */
  function AllocateIn(table: Table, user: string, gpuId: nat): AllocOutcome {
    if gpuId !in table then AllocOutcome(Err(GpuNotFound), table)
    else if table[gpuId].allocatedTo.Some? then AllocOutcome(Err(GpuAlreadyAllocated), table)
    else
      var after := table[gpuId := table[gpuId].(allocatedTo := Some(user))];
      AllocOutcome(CalculateCost(after, gpuId), after)
  }

  /** `release`: clears the owner of a known GPU, whoever it was; unknown ids are refused. */
  function ReleaseIn(table: Table, gpuId: nat): (Outcome<PoolError>, Table) {
    if gpuId !in table then (Fail(GpuNotFound), table)
    else (Pass, table[gpuId := table[gpuId].(allocatedTo := None)])
  }

  /** `get_allocated_gpus`: the GPUs owned by `user`, with their ids (iteration order is not modelled). */
  function AllocatedGpus(table: Table, user: string): (r: Table)
    ensures forall id :: id in r <==> id in table && table[id].allocatedTo == Some(user)
    ensures forall id :: id in r ==> r[id] == table[id]
  {
    map id | id in table && table[id].allocatedTo == Some(user) :: table[id]
  }

  // ---------------------------------------------------------------------------------------
  // Properties of one call

  /**
   * `allocate` succeeds exactly on a known, free GPU. A failure leaves the table as it was;
   * a success makes `user` the owner of that GPU only and returns its cost, whoever the user is.
   */
  lemma AllocateCharacterised(table: Table, user: string, gpuId: nat)
    ensures var o := AllocateIn(table, user, gpuId);
      && (o.result.Ok? <==> gpuId in table && table[gpuId].allocatedTo.None?)
      && (gpuId !in table ==> o.result == Err(GpuNotFound))
      && (gpuId in table && table[gpuId].allocatedTo.Some? ==> o.result == Err(GpuAlreadyAllocated))
      && (o.result.Err? ==> o.table == table)
      && (o.result.Ok? ==>
            && o.result.value == Cost(table[gpuId])
            && o.table.Keys == table.Keys
            && o.table[gpuId] == table[gpuId].(allocatedTo := Some(user))
            && forall j :: j in table && j != gpuId ==> o.table[j] == table[j])
  {
  }

  /** `release` fails only for unknown ids; otherwise the GPU ends up unowned and nothing else changes. */
  lemma ReleaseCharacterised(table: Table, gpuId: nat)
    ensures var (r, after) := ReleaseIn(table, gpuId);
      && (r.Fail? <==> gpuId !in table)
      && (r.Fail? ==> after == table)
      && (r.Pass? ==>
            && after.Keys == table.Keys
            && after[gpuId] == table[gpuId].(allocatedTo := None)
            && forall j :: j in table && j != gpuId ==> after[j] == table[j])
  {
  }

  /** Releasing twice is the same as releasing once. */
  lemma ReleaseIdempotent(table: Table, gpuId: nat)
    ensures ReleaseIn(ReleaseIn(table, gpuId).1, gpuId) == ReleaseIn(table, gpuId)
  {
    if gpuId in table {
      var once := ReleaseIn(table, gpuId).1;
      assert once[gpuId := once[gpuId].(allocatedTo := None)] == once;
    }
  }

  /** For GPU 0 of a new pool (8192 MB, 32 units) the cost is 883.2; for GPU 1 it is 1766.4. */
  lemma InitialCosts()
    ensures AllocateIn(InitialTable(), "any", 0).result == Ok(883.2)
    ensures AllocateIn(InitialTable(), "any", 1).result == Ok(1766.4)
  {
  }

  // ---------------------------------------------------------------------------------------
  // Properties relating several calls

  /** A successful allocation is undone by releasing the same GPU. */
  lemma {:induction false} ReleaseUndoesAllocate(table: Table, user: string, gpuId: nat)
    requires AllocateIn(table, user, gpuId).result.Ok?
    ensures ReleaseIn(AllocateIn(table, user, gpuId).table, gpuId) == (Pass, table)
  {
    var after := AllocateIn(table, user, gpuId).table;
    var released := ReleaseIn(after, gpuId).1;
    assert released.Keys == table.Keys;
    forall j | j in table ensures released[j] == table[j] {
      if j == gpuId {
        assert table[j].allocatedTo == None;
      }
    }
    assert released == table;
  }

  /** After a release, anyone can allocate the GPU, and it costs what it cost before. */
  lemma AllocateAfterRelease(table: Table, owner: string, other: string, gpuId: nat)
    requires gpuId in table && table[gpuId].allocatedTo == Some(owner)
    ensures var o := AllocateIn(ReleaseIn(table, gpuId).1, other, gpuId);
      o.result == Ok(Cost(table[gpuId])) && o.table[gpuId].allocatedTo == Some(other)
  {
  }

  /** Allocating GPU `gpuId` to each of `users` in turn, with no release in between. */
  function SuccessCount(table: Table, users: seq<string>, gpuId: nat): nat {
    if users == [] then 0
    else
      var o := AllocateIn(table, users[0], gpuId);
      (if o.result.Ok? then 1 else 0) + SuccessCount(o.table, users[1..], gpuId)
  }

  /** Once a GPU is taken, no further allocation of it succeeds. */
  lemma {:induction false} NoSuccessWhileTaken(table: Table, users: seq<string>, gpuId: nat)
    requires gpuId in table && table[gpuId].allocatedTo.Some?
    ensures SuccessCount(table, users, gpuId) == 0
  {
    if users != [] {
      NoSuccessWhileTaken(table, users[1..], gpuId);
    }
  }

  /**
   * Of a series of allocations of one GPU with no release in between, at most one
   * succeeds, and exactly one when the GPU exists, is free and someone asks for it.
   */
  lemma {:induction false} AtMostOneAllocationSucceeds(table: Table, users: seq<string>, gpuId: nat)
    ensures SuccessCount(table, users, gpuId) <= 1
    ensures SuccessCount(table, users, gpuId) == 1 <==>
      users != [] && gpuId in table && table[gpuId].allocatedTo.None?
  {
    if users != [] {
      var o := AllocateIn(table, users[0], gpuId);
      if o.result.Ok? {
        NoSuccessWhileTaken(o.table, users[1..], gpuId);
      } else if gpuId in table {
        NoSuccessWhileTaken(table, users[1..], gpuId);
      } else {
        UnknownGpuNeverAllocated(table, users[1..], gpuId);
      }
    }
  }

  /** An id the table does not hold is never allocated. */
  lemma {:induction false} UnknownGpuNeverAllocated(table: Table, users: seq<string>, gpuId: nat)
    requires gpuId !in table
    ensures SuccessCount(table, users, gpuId) == 0
  {
    if users != [] {
      UnknownGpuNeverAllocated(table, users[1..], gpuId);
    }
  }

  /** A successful allocation adds exactly that GPU to the new owner's list and leaves other users' lists alone. */
  lemma AllocatedGpusAfterAllocate(table: Table, user: string, other: string, gpuId: nat)
    requires AllocateIn(table, user, gpuId).result.Ok?
    ensures var after := AllocateIn(table, user, gpuId).table;
      && AllocatedGpus(after, user) == AllocatedGpus(table, user)[gpuId := after[gpuId]]
      && (other != user ==> AllocatedGpus(after, other) == AllocatedGpus(table, other))
  {
  }

  // ---------------------------------------------------------------------------------------
  // The pool object

  class GpuPool {
    var gpus: Table

    /** `GPUPool::new`: GPU 0 (8192 MB, 32 units) and GPU 1 (16384 MB, 64 units), both free. */
    constructor ()
      ensures gpus == InitialTable()
      ensures gpus.Keys == {0, 1} && forall id :: id in gpus ==> gpus[id].allocatedTo.None? && gpus[id].id == id
    {
      gpus := InitialTable();
    }

    method Allocate(user: string, gpuId: nat) returns (r: Result<real, PoolError>)
      modifies this
      ensures r == AllocateIn(old(gpus), user, gpuId).result
      ensures gpus == AllocateIn(old(gpus), user, gpuId).table
    {
      if gpuId !in gpus {
        return Err(GpuNotFound);
      }
      var gpu := gpus[gpuId];
      if gpu.allocatedTo.Some? {
        return Err(GpuAlreadyAllocated);
      }
      gpus := gpus[gpuId := gpu.(allocatedTo := Some(user))];
      r := CalculateCost(gpus, gpuId);
    }

    method Release(gpuId: nat) returns (r: Outcome<PoolError>)
      modifies this
      ensures (r, gpus) == ReleaseIn(old(gpus), gpuId)
    {
      if gpuId !in gpus {
        return Fail(GpuNotFound);
      }
      gpus := gpus[gpuId := gpus[gpuId].(allocatedTo := None)];
      r := Pass;
    }

    method GetAllocatedGpus(user: string) returns (r: Table)
      ensures forall id :: id in r <==> id in gpus && gpus[id].allocatedTo == Some(user)
      ensures forall id :: id in r ==> r[id] == gpus[id]
    {
      r := AllocatedGpus(gpus, user);
    }
  }
}
