/**
 * `ResourceManager::check_quota`: a request is refused when a user's current usage plus the
 * request exceeds the maximum for CPU, memory or GPUs. A user without an entry counts as
 * using nothing. The maxima are parameters, as is the GPU count, which `VMConfig` does not
 * carry.
 *
 * Usage and requests are unsigned machine integers: CPU and GPU counts are `u32`, memory is
 * `u64`. `CheckQuotaAsWritten` adds them the way a release build does, wrapping around;
 * `CheckQuota` is the intended check on mathematical integers.
 */
module ResourceManager {
  import opened Wrappers
  import opened Text

  /** The three per-user usage tables. */
  datatype Quotas = Quotas(cpu: map<string, nat>, memory: map<string, nat>, gpu: map<string, nat>)

  /** `MAX_CPU_QUOTA`, `MAX_MEM_QUOTA`, `MAX_GPU_QUOTA`. */
  datatype Limits = Limits(maxCpu: nat, maxMemory: nat, maxGpu: nat)

  /** What a VM asks for: `vcpus`, `memory_kb` and the GPU count. */
  datatype Request = Request(vcpus: nat, memoryKb: nat, gpuCount: nat)

  const QUOTA_EXCEEDED: string := "Resource quota exceeded"

  /** `get(user).unwrap_or(&0)`. */
  function Usage(table: map<string, nat>, user: string): nat {
    if user in table then table[user] else 0
  }

  /** The values fit the source's integer widths. */
  predicate InRange(q: Quotas, limits: Limits, req: Request) {
    && (forall u :: u in q.cpu ==> q.cpu[u] < U32_BOUND)
    && (forall u :: u in q.memory ==> q.memory[u] < U64_BOUND)
    && (forall u :: u in q.gpu ==> q.gpu[u] < U32_BOUND)
    && limits.maxCpu < U32_BOUND && limits.maxMemory < U64_BOUND && limits.maxGpu < U32_BOUND
    && req.vcpus < U32_BOUND && req.memoryKb < U64_BOUND && req.gpuCount < U32_BOUND
  }

  /** The check as the source writes it, with wrapping `u32`/`u64` additions. */
  function CheckQuotaAsWritten(q: Quotas, limits: Limits, user: string, req: Request): Outcome<string> {
    if (Usage(q.cpu, user) + req.vcpus) % U32_BOUND > limits.maxCpu
       || (Usage(q.memory, user) + req.memoryKb) % U64_BOUND > limits.maxMemory
       || (Usage(q.gpu, user) + req.gpuCount) % U32_BOUND > limits.maxGpu
    then Fail(QUOTA_EXCEEDED)
    else Pass
  }

  /** The check as intended: the sums are not truncated. */
  function CheckQuota(q: Quotas, limits: Limits, user: string, req: Request): Outcome<string> {
    if Usage(q.cpu, user) + req.vcpus > limits.maxCpu
       || Usage(q.memory, user) + req.memoryKb > limits.maxMemory
       || Usage(q.gpu, user) + req.gpuCount > limits.maxGpu
    then Fail(QUOTA_EXCEEDED)
    else Pass
  }

  /**
   * A request passes exactly when, for each resource, usage plus request stays within the
   * maximum; reaching a maximum exactly is allowed. A refusal always carries
   * "Resource quota exceeded".
   */
  lemma CheckQuotaCharacterised(q: Quotas, limits: Limits, user: string, req: Request)
    ensures CheckQuota(q, limits, user, req).Pass? <==>
      && Usage(q.cpu, user) + req.vcpus <= limits.maxCpu
      && Usage(q.memory, user) + req.memoryKb <= limits.maxMemory
      && Usage(q.gpu, user) + req.gpuCount <= limits.maxGpu
    ensures CheckQuota(q, limits, user, req).Fail? ==> CheckQuota(q, limits, user, req).error == QUOTA_EXCEEDED
  {
  }

  /** A user with no entries is checked as if their usage were zero everywhere. */
  lemma UnknownUserUsesNothing(q: Quotas, limits: Limits, user: string, req: Request)
    requires user !in q.cpu && user !in q.memory && user !in q.gpu
    ensures CheckQuota(q, limits, user, req).Pass? <==>
      req.vcpus <= limits.maxCpu && req.memoryKb <= limits.maxMemory && req.gpuCount <= limits.maxGpu
  {
  }

  /** Once every sum fits its width, the check as written and the intended check agree. */
  lemma AsWrittenAgreesWithoutOverflow(q: Quotas, limits: Limits, user: string, req: Request)
    requires Usage(q.cpu, user) + req.vcpus < U32_BOUND
    requires Usage(q.memory, user) + req.memoryKb < U64_BOUND
    requires Usage(q.gpu, user) + req.gpuCount < U32_BOUND
    ensures CheckQuotaAsWritten(q, limits, user, req) == CheckQuota(q, limits, user, req)
  {
  }

  /**
   * The wrap-around lets an oversized request through: a user already holding one vCPU asks
   * for 2^32 - 1 more; the `u32` sum wraps to 0, so the check as written accepts, though the
   * intended check refuses. All values fit their widths.
   */
  lemma AsWrittenAdmitsOverflow()
    ensures var q := Quotas(map["alice" := 1], map[], map[]);
      var limits := Limits(64, 1048576, 4);
      var req := Request(U32_BOUND - 1, 0, 0);
      && InRange(q, limits, req)
      && CheckQuotaAsWritten(q, limits, "alice", req).Pass?
      && CheckQuota(q, limits, "alice", req).Fail?
  {
    var q := Quotas(map["alice" := 1], map[], map[]);
    assert Usage(q.cpu, "alice") == 1;
    assert (1 + (U32_BOUND - 1)) % U32_BOUND == 0;
  }
}
