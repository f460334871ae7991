/**
 * `rent_gpu`, the CLI's composite rental: allocate the GPU, deduct its cost from the user's
 * credits, then record a transaction. Each step exits early on failure and nothing is undone,
 * so a failed deduction leaves the GPU allocated. The clock reading is a parameter.
 */
module Cli {
  import opened Wrappers
  import opened Text
  import opened VirtualGpuPool
  import opened Users
  import opened Billing

  /** The error `rent_gpu` passes on: from the pool, or from the credit check. */
  datatype RentError = PoolFailure(poolError: PoolError) | CreditFailure(userError: UserError)

  /** The three pieces of state `rent_gpu` works on. */
  datatype Platform = Platform(table: Table, dir: Directory, ledger: seq<Transaction>)

  /** `Duration::from_secs(duration_minutes * 60)` with the u64 product wrapping around. */
  function DurationSecs(durationMinutes: nat): nat {
    (durationMinutes * 60) % U64_BOUND
  }

  /** `rent_gpu` as a function of the state before the call. */
  function RentIn(p: Platform, gpuId: nat, user: string, durationMinutes: nat, now: int): (Outcome<RentError>, Platform) {
    var o := AllocateIn(p.table, user, gpuId);
    match o.result
    case Err(e) => (Fail(PoolFailure(e)), p)
    case Ok(cost) =>
      var (deducted, dir1) := DeductCreditsIn(p.dir, user, cost);
      if deducted.Fail? then (Fail(CreditFailure(deducted.error)), Platform(o.table, dir1, p.ledger))
      else
        var (renter, dir2) := GetUserIn(dir1, user);
        var t := Transaction(renter.id, gpuId, now, DurationSecs(durationMinutes), cost);
        (Pass, Platform(o.table, dir2, p.ledger + [t]))
  }

  /** If the allocation fails, the rental fails with the pool's error and nothing at all changes. */
  lemma RentWhenAllocationFails(p: Platform, gpuId: nat, user: string, durationMinutes: nat, now: int)
    requires AllocateIn(p.table, user, gpuId).result.Err?
    ensures RentIn(p, gpuId, user, durationMinutes, now)
         == (Fail(PoolFailure(AllocateIn(p.table, user, gpuId).result.error)), p)
  {
  }

  /**
   * If the GPU is allocated but the credits do not cover its cost, the rental fails and is
   * not rolled back: the GPU stays allocated to the user, the user now exists (perhaps just
   * created), the credits are untouched and no transaction is recorded.
   */
  lemma RentIsNotAtomic(p: Platform, gpuId: nat, user: string, durationMinutes: nat, now: int)
    requires AllocateIn(p.table, user, gpuId).result.Ok?
    requires DeductCreditsIn(p.dir, user, Cost(p.table[gpuId])).0.Fail?
    ensures var (r, after) := RentIn(p, gpuId, user, durationMinutes, now);
      && r.Fail? && r.error.CreditFailure?
      && after.table[gpuId].allocatedTo == Some(user)
      && after.table == AllocateIn(p.table, user, gpuId).table
      && user in after.dir.users
      && after.dir.users[user] == GetUserIn(p.dir, user).0
      && after.ledger == p.ledger
  {
    DeductCreditsCharacterised(p.dir, user, Cost(p.table[gpuId]));
  }

  /**
   * A rental succeeds exactly when the GPU is free and the user's credits (1000000.0 for a
   * newcomer) cover its cost. Then the GPU belongs to the user, the credits drop by exactly
   * the cost, no other user changes, and exactly one transaction is appended: the user's id,
   * that GPU, the clock reading, `duration_minutes * 60` seconds and that cost.
   */
  lemma RentSucceeds(p: Platform, gpuId: nat, user: string, durationMinutes: nat, now: int)
    ensures var (r, after) := RentIn(p, gpuId, user, durationMinutes, now);
      var credits := if user in p.dir.users then p.dir.users[user].credits else INITIAL_CREDITS;
      && (r.Pass? <==>
            gpuId in p.table && p.table[gpuId].allocatedTo.None? && Cost(p.table[gpuId]) <= credits)
      && (r.Pass? ==>
            var cost := Cost(p.table[gpuId]);
            && after.table == p.table[gpuId := p.table[gpuId].(allocatedTo := Some(user))]
            && user in after.dir.users
            && after.dir.users[user].credits == credits - cost
            && after.dir.users[user].id == GetUserIn(p.dir, user).0.id
            && (forall n :: n in p.dir.users && n != user ==> after.dir.users[n] == p.dir.users[n])
            && after.ledger == p.ledger + [Transaction(after.dir.users[user].id, gpuId, now, DurationSecs(durationMinutes), cost)])
  {
    var o := AllocateIn(p.table, user, gpuId);
    if o.result.Ok? {
      DeductCreditsCharacterised(p.dir, user, Cost(p.table[gpuId]));
    }
  }

  /**
   * On success the renter's ledger balance rises by exactly what their credits fell by, and
   * (ids being distinct) every other user's balance is unchanged.
   */
  lemma {:induction false} RentChargesLedger(p: Platform, gpuId: nat, user: string, durationMinutes: nat, now: int, other: string)
    requires Valid(p.dir)
    requires RentIn(p, gpuId, user, durationMinutes, now).0.Pass?
    ensures var after := RentIn(p, gpuId, user, durationMinutes, now).1;
      var id := after.dir.users[user].id;
      var credits := if user in p.dir.users then p.dir.users[user].credits else INITIAL_CREDITS;
      && Balance(after.ledger, id) - Balance(p.ledger, id) == credits - after.dir.users[user].credits
      && (other in p.dir.users && other != user ==>
            Balance(after.ledger, p.dir.users[other].id) == Balance(p.ledger, p.dir.users[other].id))
  {
    RentSucceeds(p, gpuId, user, durationMinutes, now);
    var after := RentIn(p, gpuId, user, durationMinutes, now).1;
    var t := after.ledger[|after.ledger| - 1];
    assert after.ledger == p.ledger + [t];
    BalanceAfterAppend(p.ledger, t, t.userId);
    if other in p.dir.users && other != user {
      GetUserCharacterised(p.dir, user);
      BalanceAfterAppend(p.ledger, t, p.dir.users[other].id);
    }
  }

  /** The user directory's id invariant survives a rental, whatever its outcome. */
  lemma {:induction false} RentPreservesValid(p: Platform, gpuId: nat, user: string, durationMinutes: nat, now: int)
    requires Valid(p.dir)
    ensures Valid(RentIn(p, gpuId, user, durationMinutes, now).1.dir)
  {
    var o := AllocateIn(p.table, user, gpuId);
    if o.result.Ok? {
      var dir1 := DeductCreditsIn(p.dir, user, o.result.value).1;
      DeductCreditsPreservesValid(p.dir, user, o.result.value);
      GetUserPreservesValid(dir1, user);
    }
  }

  /** `rent_gpu` on the three shared objects. */
  method RentGpu(pool: GpuPool, userManager: UserManager, billing: BillingSystem,
                 gpuId: nat, user: string, durationMinutes: nat, now: int) returns (r: Outcome<RentError>)
    modifies pool, userManager, billing
    ensures (r, Platform(pool.gpus, userManager.Dir(), billing.transactions))
         == RentIn(Platform(old(pool.gpus), old(userManager.Dir()), old(billing.transactions)),
                   gpuId, user, durationMinutes, now)
  {
    var granted := pool.Allocate(user, gpuId);
    if granted.Err? {
      return Fail(PoolFailure(granted.error));
    }
    var cost := granted.value;
    var deducted := userManager.DeductCredits(user, cost);
    if deducted.Fail? {
      return Fail(CreditFailure(deducted.error));
    }
    var renter := userManager.GetUser(user);
    billing.AddTransaction(Transaction(renter.id, gpuId, now, DurationSecs(durationMinutes), cost));
    r := Pass;
  }
}
