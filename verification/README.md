# GPU share VM manager: a Dafny model of its bookkeeping and decision logic

This project models the parts of the GPU-sharing VM manager (a Rust service that hands out
GPUs to VMs and containers) that make decisions or keep books:

- the virtual GPU pool, with exclusive allocation;
- user credits, the rental ledger and the composite `rent_gpu`, which is not atomic;
- the per-container metric store and its retention pruning;
- IOMMU grouping, `uevent` parsing, the vendor whitelist and device lookups;
- the VFIO passthrough pipeline over an abstract sysfs;
- the retry loop of `ErrorHandler`;
- the quota check;
- least-loaded node selection in the cluster manager;
- the vendor-name table;
- the API's error-code mapping.

Each Rust source file becomes one Dafny module, in the source's own form:

- Pure logic is written as functions. Their properties are proved as lemmas.
- Objects whose fields the code updates become classes, with methods and `modifies` clauses.
  - Each method is proved equal to a specification function of the old state, for example
    `AllocateIn`, `DeductCreditsIn`, `TickIn` or `PrepareIn`.
  - The lemmas about that function carry the guarantees.
- Loops in the source are `while` loops with invariants: `cleanup_old_metrics`,
  `collect_container_metrics`, `build_iommu_groups`, `read_uevent`, `verify_memory_bar`,
  `is_viable` and `ErrorHandler::handle`.

Modelling conventions:

- **Numbers.**
  - `f64` costs, credits and balances are exact `real`s.
  - `u32`/`u64` arithmetic that can overflow is written out with release-build
    wrap-around: `retention_hours * 3600`, `now - timestamp`, `duration_minutes * 60` and
    the quota sums.
- **Inputs from outside.** These are parameters:
  - clock readings;
  - what Docker, `dmesg` and the directory scans return;
  - the outcome of each retried operation;
  - VM creation on a node.
- **sysfs** is a map from path to a file, a link or a directory.
  - Writes go to a kernel function. It either refuses a write or returns the new tree.
  - Every attempted write is logged.
- **Ids.** `Uuid::new_v4` is a counter, so every new user id is fresh.
- **Order.** `HashMap`s iterated in the code become sequences in iteration order (node
  table, directory listings) or maps where order is not observed.

Helper modules:

- `Wrappers` holds `Option`, `Result` and `Outcome`.
- `Text` holds the Rust string operations the code relies on:
  - `trim`;
  - `split` and `join`;
  - `lines`;
  - `contains` and `starts_with`;
  - `parse::<uN>`;
  - `{:04X}` formatting;
  - `Path::file_name` and `Path::join`.

Three details of the code that are easy to misread:

- The cost of GPU 0 (8192 MB, 32 units) is 8192 × 0.1 + 32 × 2.0 = 883.2
  (`VirtualGpuPool.InitialCosts`).
- A metric sample whose age equals the retention horizon is dropped, because the
  comparison `now - timestamp < retention` is strict (`Metrics.BoundaryDropped`).
- A collection tick appends a sample only to a series that already exists. Otherwise it
  drops the sample (`Metrics.TickCharacterised`).

## Model

| member | source | states |
|---|---|---|
| VirtualGpuPool.AllocatedGpus | src/gpu/virtual_gpu.rs:59-63 | exactly the GPUs whose owner is the user, with their records unchanged |
| VirtualGpuPool.AllocateCharacterised | src/gpu/virtual_gpu.rs:35-49 | allocate succeeds iff the id is known and the GPU is free; unknown id gives "GPU not found", taken GPU "GPU already allocated", and the table is unchanged on failure; on success only that GPU's owner becomes the user and the cost is vram_mb*0.1 + compute_units*2.0, whoever the user |
| VirtualGpuPool.ReleaseCharacterised | src/gpu/virtual_gpu.rs:51-57 | release fails iff the id is unknown (table unchanged); otherwise that GPU's owner is cleared, whoever held it, and nothing else changes |
| VirtualGpuPool.ReleaseIdempotent | src/gpu/virtual_gpu.rs:51-57 | releasing twice equals releasing once |
| VirtualGpuPool.InitialCosts | src/gpu/virtual_gpu.rs:18-33 | in a new pool GPU 0 costs 883.2 and GPU 1 costs 1766.4 |
| VirtualGpuPool.ReleaseUndoesAllocate | src/gpu/virtual_gpu.rs:35-57 | release after a successful allocate restores the original table |
| VirtualGpuPool.AllocateAfterRelease | src/gpu/virtual_gpu.rs:35-57 | after a release any other user can allocate the GPU at the same cost |
| VirtualGpuPool.NoSuccessWhileTaken | src/gpu/virtual_gpu.rs:37-39 | once a GPU is taken, no later allocation of it succeeds |
| VirtualGpuPool.AtMostOneAllocationSucceeds | src/gpu/virtual_gpu.rs:35-44 | of repeated allocations of one GPU with no release, at most one succeeds, and exactly one iff the GPU exists, is free and someone asks |
| VirtualGpuPool.UnknownGpuNeverAllocated | src/gpu/virtual_gpu.rs:36 | an id not in the pool is never allocated |
| VirtualGpuPool.AllocatedGpusAfterAllocate | src/gpu/virtual_gpu.rs:35-63 | a successful allocate adds exactly that GPU to the owner's list and leaves other users' lists alone |
| VirtualGpuPool.GpuPool.constructor | src/gpu/virtual_gpu.rs:18-33 | a new pool holds exactly GPUs 0 and 1, both free |
| VirtualGpuPool.GpuPool.Allocate | src/gpu/virtual_gpu.rs:35-44 | the in-place update and result follow AllocateIn |
| VirtualGpuPool.GpuPool.Release | src/gpu/virtual_gpu.rs:51-57 | the in-place update and result follow ReleaseIn |
| VirtualGpuPool.GpuPool.GetAllocatedGpus | src/gpu/virtual_gpu.rs:59-63 | returns exactly the GPUs owned by the user |
| Users.CreateUserCharacterised | src/users.rs:23-36 | a known name is refused and nothing changes; a new name gets one user with a fresh id, 1000000.0 credits and no GPUs |
| Users.GetUserCharacterised | src/users.rs:38-48 | never fails; a known name is returned with no change; a missing one is first inserted with a fresh id and 1000000.0 credits |
| Users.GetUserIdempotent | src/users.rs:38-48 | a second get_user of the same name returns the same user and changes nothing |
| Users.DeductCreditsCharacterised | src/users.rs:49-56 | fails iff the credits (1000000.0 for an auto-created user) are below the amount, leaving them unchanged; otherwise credits drop by exactly the amount and stay ≥ 0; other users untouched; the user exists afterwards |
| Users.InsertPreservesValid | src/users.rs:28-34 | inserting a newcomer keeps all ids distinct |
| Users.CreateUserPreservesValid | src/users.rs:23-36 | create_user keeps all ids distinct |
| Users.GetUserPreservesValid | src/users.rs:38-48 | get_user keeps all ids distinct |
| Users.DeductCreditsPreservesValid | src/users.rs:49-56 | deduct_credits keeps all ids distinct |
| Users.UserManager.constructor | src/users.rs:17-21 | no users |
| Users.UserManager.CreateUser | src/users.rs:23-36 | the map update and result follow CreateUserIn |
| Users.UserManager.GetUser | src/users.rs:38-48 | the map update and result follow GetUserIn |
| Users.UserManager.DeductCredits | src/users.rs:49-56 | the credit update and result follow DeductCreditsIn |
| Billing.BalanceWithoutTransactions | src/billing.rs:31-37 | a user with no transactions has balance 0 |
| Billing.BalanceOfConcat | src/billing.rs:31-37 | the balance of a concatenated ledger is the sum of the parts' balances |
| Billing.BalanceAfterAppend | src/billing.rs:27-37 | appending t raises t.user_id's balance by t.cost and leaves other balances unchanged |
| Billing.BalanceAfterAppendAll | src/billing.rs:27-37 | the same, for all users at once |
| Billing.BalanceNonNegative | src/billing.rs:31-37 | with no negative cost on the ledger, every balance is at least 0 |
| Billing.BillingSystem.GetUserBalance | src/billing.rs:31-37 | the sum of the user's costs: 0 for a user with no transactions, never negative while no cost is |
| Billing.BillingSystem.constructor | src/billing.rs:21-25 | an empty ledger |
| Billing.BillingSystem.AddTransaction | src/billing.rs:27-29 | appends at the end, earlier entries unchanged; only t.user_id's balance changes, by t.cost |
| Cli.RentWhenAllocationFails | src/utils/cli.rs:71 | if allocate fails, rent fails with that error and changes nothing: no deduction, no transaction |
| Cli.RentIsNotAtomic | src/utils/cli.rs:71-72 | if the deduction fails, the GPU stays allocated to the user, the user exists, the credits are unchanged and no transaction is recorded |
| Cli.RentSucceeds | src/utils/cli.rs:60-83 | rent succeeds iff the GPU is free and the credits cover its cost; then the GPU is the user's, the credits drop by exactly the cost, other users are untouched, and exactly one transaction with the user's id, the gpu id, the clock, duration_minutes*60 s and that cost is appended |
| Cli.RentChargesLedger | src/utils/cli.rs:71-80 | after a rental the renter's balance rises by exactly what their credits fell by; other users' balances are unchanged |
| Cli.RentPreservesValid | src/utils/cli.rs:71-75 | a rental keeps user ids distinct, whatever its outcome |
| Cli.RentGpu | src/utils/cli.rs:60-83 | the three objects' updates and the result follow RentIn |
| Metrics.RetainedPastSample | src/monitoring/metrics.rs:166-174 | a past sample is kept iff now - timestamp < retention_hours*3600 |
| Metrics.BoundaryDropped | src/monitoring/metrics.rs:173 | a sample whose age equals the horizon is dropped |
| Metrics.FutureSampleAge | src/monitoring/metrics.rs:173 | a sample stamped after now gets the wrapped age 2^64 - (timestamp - now) |
| Metrics.PruneMembers | src/monitoring/metrics.rs:173 | pruning keeps exactly the samples that meet the retention condition |
| Metrics.PruneConcat | src/monitoring/metrics.rs:173 | pruning works sample by sample, so relative order is kept |
| Metrics.PruneShrinks | src/monitoring/metrics.rs:173 | pruning never adds samples (sub-multiset) |
| Metrics.PruneIdempotent | src/monitoring/metrics.rs:173 | pruning twice with the same now equals pruning once |
| Metrics.CleanupOldMetrics | src/monitoring/metrics.rs:166-174 | the retain loop yields the pruned series, which holds exactly the retained samples |
| Metrics.TickCharacterised | src/monitoring/metrics.rs:99-106 | a tick with an existing entry appends the sample and prunes that series only; with no entry or a failed collection the store is unchanged; no entry is created |
| Metrics.CollectAppendsEach | src/monitoring/metrics.rs:190-200 | when every collection succeeds, each container's series grows by exactly its samples in listing order, entries are created as needed, and unlisted containers are untouched |
| Metrics.CollectKeepsEarlierOnFailure | src/monitoring/metrics.rs:193-198 | a failed collection for the k-th container returns its error and keeps the samples appended for the earlier ones |
| Metrics.MetricsCollector.constructor | src/monitoring/metrics.rs:75-82 | empty store, with the given interval and retention |
| Metrics.MetricsCollector.Tick | src/monitoring/metrics.rs:99-106 | the store update follows TickIn |
| Metrics.MetricsCollector.GetMetrics | src/monitoring/metrics.rs:176-183 | the stored series unchanged, or "No metrics found for container <id>" iff there is no entry |
| Metrics.MetricsCollector.CollectContainerMetrics | src/monitoring/metrics.rs:190-200 | a failed listing changes nothing; otherwise the loop's updates follow CollectIn |
| Metrics.MetricsCollector.GetContainerMetrics | src/monitoring/metrics.rs:211-215 | the stored series unchanged, or "No metrics found for container" iff there is no entry |
| Device.ListedMembers | src/gpu/device.rs:164-174 | a name is listed under group g iff some scanned entry of that name has a link naming g |
| Device.BuildAppendsEach | src/gpu/device.rs:160-179 | when every entry reads, each group's list grows by exactly its devices in scan order, nothing is cleared, and a group appears only if it existed or a device names it |
| Device.BuildKeepsEarlierOnFailure | src/gpu/device.rs:164-175 | a failing k-th entry returns its error and keeps what was pushed for earlier entries |
| Device.OneGroupPerDevice | src/gpu/device.rs:160-179 | from an empty map every listed name has a link to that group, so no device is in two groups and unlinked devices appear nowhere |
| Device.ValidateCharacterised | src/gpu/device.rs:182-193 | passes iff the group is known with at most one device; IommuGroupNotFound(id) for an absent group; UnsafeIommuGroup with the members joined by ", " otherwise |
| Device.ValidateAfterBuild | src/gpu/device.rs:160-193 | on a freshly built map a group validates iff exactly one device names it |
| Device.ParseUeventFields | src/gpu/device.rs:216-234 | each field holds the value of the last line assigning it; a later key overwrites an earlier one |
| Device.LineWithoutEqualsIgnored | src/gpu/device.rs:218-221 | a line without '=' is skipped |
| Device.ValueStopsAtSecondEquals | src/gpu/device.rs:218-224 | in KEY=value=rest only value is used |
| Device.ReadUevent | src/gpu/device.rs:210-235 | None when the file is missing; otherwise the last-assigned PCI_ID, PCI_SUBSYS_ID and third MODALIAS field, with no IOMMU group |
| Device.IsGpuDevicePadded | src/gpu/device.rs:353-357 | true iff the trimmed vendor id is "10de", "1002" or "8086"; padding does not matter and case does |
| Device.WindowsDeviceIdRoundTrip | src/gpu/device.rs:141 | the id is "PCI\VEN_" + 4 upper-case hex digits + "&DEV_" + 4 digits, and both ids read back from it |
| Device.WindowsDeviceIdInjective | src/gpu/device.rs:141 | distinct 16-bit id pairs give distinct device ids |
| Device.WindowsVendorKnown | src/gpu/device.rs:140-153 | the vendor is named iff the PCI vendor id is 0x10DE, 0x1002 or 0x8086; the driver version is empty and there is no IOMMU group |
| Device.FindDevice | src/gpu/device.rs:258-275 | the first device with that id, or none iff no device has it |
| Device.AttachMatchesLookup | src/gpu/device.rs:257-278 | the lookup fails iff no device has the id; attach passes iff the device's group is Some(42); "GPU not found: <id>" or "IOMMU group mismatch for container <cid>" otherwise |
| Device.AttachSingleDevice | src/gpu/device.rs:257-269 | with the single mock device in group 42 attach succeeds for any container; with no devices it fails |
| Device.GpuManager.constructor | src/gpu/device.rs:47-52 | the empty maps of `new`, filled with the detected devices: no groups yet |
| Device.GpuManager.New | src/gpu/device.rs:46-56 | an unreadable PCI directory or a failing entry is the error of `new`; otherwise a fresh manager with the detected devices and the groups built from an empty map |
| Device.GpuManager.BuildIommuGroups | src/gpu/device.rs:160-179 | an unreadable directory changes nothing; otherwise the map update follows BuildIn; devices unchanged |
| Device.GpuManager.ValidateIommuGroup | src/gpu/device.rs:182-193 | passes iff the group is known with at most one device |
| Device.GpuManager.ListAvailableDevices | src/gpu/device.rs:252-254 | the devices, in order |
| Device.GpuManager.AttachGpu | src/gpu/device.rs:257-269 | passes iff the device exists with group 42; devices unchanged |
| Device.GpuManager.GetIommuGroup | src/gpu/device.rs:272-278 | the first matching device's group, NotFound iff no device has the id |
| Device.GpuManager.DiscoverGpus | src/gpu/device.rs:281-283 | the devices, in order |
| Passthrough.NewManagerCharacterised | src/gpu/passthrough.rs:73-100 | IOMMU support iff the dmesg output contains "IOMMU enabled" or "AMD-Vi enabled"; otherwise "IOMMU not enabled in system"; dmesg failing gives a SystemError |
| Passthrough.GroupLinkRoundTrip | src/gpu/passthrough.rs:133-152 | a link dir/N gives group N when N fits a u32 and "Invalid IOMMU group format" otherwise |
| Passthrough.GroupLinkErrors | src/gpu/passthrough.rs:133-152 | an unreadable link is "Failed to read IOMMU group symlink"; a missing or unparsable file name is "Invalid IOMMU group format"; a success is the parsed u32 file name |
| Passthrough.NonNumericGroupRejected | src/gpu/passthrough.rs:142-149 | a link dir/name whose name has a non-digit character (other than a leading '+') fails with "Invalid IOMMU group format" |
| Passthrough.DeviceInfoRoundTrip | src/gpu/passthrough.rs:205-209 | vendor and device ids, each with its own whitespace padding on either side, give "vendor device", which splits back at the space into the two ids |
| Passthrough.MemoryBarAt | src/gpu/passthrough.rs:297-303 | a memory BAR is found iff some resource line contains "Memory at" |
| Passthrough.VerifyMemoryBar | src/gpu/passthrough.rs:284-312 | the flag loop gives the result VerifyMemoryBarIn specifies: the read error, "No valid memory BAR found", or success |
| Passthrough.VerifyDeviceReadyCharacterised | src/gpu/passthrough.rs:225-282 | ready iff the device exists, its driver is vfio-pci, its trimmed power state is D0 and a resource line has a memory BAR; a missing device gives NotFound, and a wrong driver gives DriverError naming that driver |
| Passthrough.WriteStepEffects | src/gpu/passthrough.rs:172-184 | one write is logged and leaves the tree the kernel made of it |
| Passthrough.UnbindEffects | src/gpu/passthrough.rs:166-178 | at most the one write of the gpu id to drivers/<current driver>/unbind; a refusal is DriverError naming that driver |
| Passthrough.BindEffects | src/gpu/passthrough.rs:180-190 | at most the one write of the device info to vfio-pci/new_id; a refusal is DriverError for "vfio-pci" |
| Passthrough.PrepareEffects | src/gpu/passthrough.rs:102-119 | group lookup, unbind, bind and verify run in order; at most two writes: the unbind first, then the device info read after the unbind, written to vfio-pci/new_id; no rollback write; a failed group lookup writes nothing; success leaves a device that passes verification |
| Passthrough.Sysfs.Write | src/gpu/passthrough.rs:172-184 | logs the write; the tree changes iff the kernel accepts it |
| Passthrough.UnbindCurrentDriver | src/gpu/passthrough.rs:166-178 | effects and result follow UnbindIn |
| Passthrough.BindToVfio | src/gpu/passthrough.rs:180-190 | effects and result follow BindIn |
| Passthrough.PrepareGpuPassthrough | src/gpu/passthrough.rs:102-119 | effects and result follow PrepareIn |
| Passthrough.WithDeviceCharacterised | src/gpu/passthrough.rs:330-335 | adding keeps earlier members in order, adds exactly the id, never duplicates, and is idempotent |
| Passthrough.ViableCharacterised | src/gpu/passthrough.rs:337-345 | for any per-member check (on the tree, `is_device_eligible`), the loop answers Ok(true) iff every member's check says eligible, and never errs when every check succeeds; an empty group is viable |
| Passthrough.ViableAfterAdd | src/gpu/passthrough.rs:330-345 | adding a device to a viable group keeps it viable iff the device is eligible |
| Passthrough.VfioGroup.constructor | src/gpu/passthrough.rs:323-328 | the group id and no devices |
| Passthrough.VfioGroup.AddDevice | src/gpu/passthrough.rs:330-335 | the devices update follows WithDevice and stays duplicate-free |
| Passthrough.VfioGroup.IsViable | src/gpu/passthrough.rs:337-345 | the loop's result is ViableIn: Ok(true) iff every member's trimmed class is readable and does not start with "0x060" |
| ErrorHandling.HandleWhenExhausted | src/errors/handlers.rs:21-54 | with current_retries ≥ max_retries on entry (max 0 included) the operation is not run, the counter stays and "Maximum retries reached" is returned |
| ErrorHandling.HandleReturnsFirstOk | src/errors/handlers.rs:21-33 | the first Ok within the budget is returned, and the counter rises by exactly the failures before it |
| ErrorHandling.HandleReturnsLastError | src/errors/handlers.rs:32-47 | if every attempt fails, the operation runs max_retries - current_retries times, the counter ends at max_retries and the last error is returned |
| ErrorHandling.HandleBounds | src/errors/handlers.rs:21-54 | at most max_retries - current_retries runs; the counter never decreases and is not reset, rises by exactly the number of failures, and does not pass max_retries |
| ErrorHandling.FailuresAccumulate | src/errors/handlers.rs:21-54 | after a call that used up the budget, the next call fails at once without running its operation |
| ErrorHandling.ErrorHandler.constructor | src/errors/handlers.rs:10-15 | the given max_retries, and current_retries 0 |
| ErrorHandling.ErrorHandler.Handle | src/errors/handlers.rs:17-55 | the loop's result, counter update and number of runs follow HandleIn |
| ResourceManager.CheckQuotaCharacterised | src/core/resource_manager.rs:8-21 | passes iff usage plus request is within the maximum for each of CPU, memory and GPU; reaching a maximum exactly passes; a refusal says "Resource quota exceeded" |
| ResourceManager.UnknownUserUsesNothing | src/core/resource_manager.rs:9-11 | a user without entries is checked as zero usage |
| ResourceManager.AsWrittenAgreesWithoutOverflow | src/core/resource_manager.rs:13-15 | when no sum overflows its width, the code's check and the intended check agree |
| ResourceManager.AsWrittenAdmitsOverflow | src/core/resource_manager.rs:13 | usage 1 plus 2^32 - 1 vCPUs wraps to 0, so the code accepts a request the intended check refuses |
| Cluster.SelectNode | src/cluster/mod.rs:7-10 | none iff no node is eligible; otherwise an eligible node whose load is ≤ that of every eligible node, and the first such in iteration order |
| Cluster.DistributeCharacterised | src/cluster/mod.rs:6-15 | with no eligible node, "No suitable node found" and no change; otherwise the result is creation's on an eligible least-loaded node; on creation failure nothing is updated; on success only that node is |
| Cluster.ClusterManager.constructor | src/cluster/mod.rs:1-3 | the given node table |
| Cluster.ClusterManager.DistributeVm | src/cluster/mod.rs:6-15 | the result and node update follow DistributeIn |
| GpuUtils.CheckIommuSupport | src/gpu/utils.rs:5-8 | always Ok(true) |
| GpuUtils.VendorInfoCharacterised | src/gpu/utils.rs:11-17 | "10de" ↦ "NVIDIA (uwu)", "1002" ↦ "AMD (owo)", "8086" ↦ "Intel (^_^)", each iff; every other string ↦ the unknown-vendor text |
| GpuUtils.VendorInfoIsExact | src/gpu/utils.rs:12-16 | "10DE", " 10de" and "10de\n" are unknown vendors |
| GpuUtils.VendorInfoAgreesWithWhitelist | src/gpu/utils.rs:11-17 | a named vendor passes the device whitelist, and an unpadded whitelisted id is named |
| GpuUtils.PaddedIdPassesWhitelist | src/gpu/device.rs:353-357 | " 10de" passes the whitelist (which trims) although the name table calls it unknown |
| Routes.NewErrorResponse | src/api/routes.rs:68-80 | the message is stored verbatim, and the code maps back to the error number |
| Routes.CodeRoundTrip | src/api/routes.rs:70-75 | ContainerNotFound 404, OperationFailed 400, InternalError 500, GPUTransferError 409; each code maps back to its number, so the codes are distinct |
| Routes.StatusIsCode | src/api/routes.rs:83-91 | every code produced is a valid HTTP status, so the 500 fallback never fires |
| Routes.HandleError | src/api/routes.rs:94-97 | code 500 (InternalError) and the message "Docker hatası: " followed by the error text |
| Routes.HandleErrorInjective | src/api/routes.rs:94-97 | distinct error texts give distinct responses |

## Left out

- Hardware enumeration and raw I/O are not modelled. This covers NVML, Metal, DXGI,
  CGDisplay, glob, `fs` reads and running `dmesg`. Their results are inputs instead: a
  device list, directory entries, file contents, the sysfs tree and the dmesg text.
- The free function `get_iommu_group` (src/gpu/device.rs:359-371) is not modelled. It is
  unused, and it duplicates the private method, which is modelled as `Device.EntryGroup`.
- `calculate_cpu_usage`, `collect_single_container_metrics`, `collect_gpu_metrics` and
  `get_container_stats` are left out. They use global mutable state, float division,
  Docker and the wall clock. A collected sample, or its failure, is a parameter.
- The `tokio` interval loop of `start_collection` and `stop` are not modelled, because they
  are concurrency and a no-op. Only the body of one tick is modelled.
- `ErrorRecovery` for the passthrough manager is left out. It calls methods that the code
  does not define.
- The Docker and libvirt clients are not modelled, nor are anomaly detection, rate
  limiting, JWT auth, the dashboards, CLI and server start-up and config loading. These
  are library glue or UI.
- The unimplemented circuit breaker and scheduler fragment are left out.
- Mutexes, `Arc` and `async` are not modelled, because every modelled operation runs
  sequentially.
- Floating-point rounding is not modelled. `f64` values are exact reals, and
  `directx_version` is `revision / 10` as a real.
- Iteration order of `HashMap`s is not modelled.
  - `VirtualGpuPool.AllocatedGpus` returns a map rather than a vector in iteration order.
  - The node table and directory listings are sequences in an order chosen by the caller.
- The text of underlying I/O errors appended to messages (`: {e}`) is dropped. Error
  variants and the fixed message text are kept.
- A failed read inside the `lines()` loop of `verify_memory_bar` is not modelled. The
  resource file is read as a whole, and an unreadable file is the only read error.
- In the sysfs tree, paths are looked up literally. Symbolic links inside a path are not
  followed; only `read_link` on a whole path is modelled.
  - `Path::exists` on the device directory in `verify_device_ready` is such a literal
    lookup too: a dangling link at that path counts as an existing device, whereas
    `Device.GroupLink` treats a dangling `iommu_group` link as absent.
- Device.EntryGroup: where `file_name().unwrap()` panics on a link target without a file
  name (such as ".."), the model returns the error `NoFileName` instead. `BuildIn` then
  stops there and keeps the earlier pushes, as for the other errors; the program would
  unwind instead.
- Device.GpuManager.New: a failure of `detect_gpus` itself is not modelled. The detected
  devices are an input, so only the group scan can make `new` fail.
- Passthrough.VerifyDeviceReadyCharacterised: the message of a failed power-state check
  ("Device not in active power state: …") is fixed by `VerifyPowerState`. The lemma states
  only that the check fails.
- Cluster.DistributeCharacterised: `update_node_state`'s body is not part of this model,
  so its effect on the chosen node is a parameter. The model assumes it changes only the
  node it is given; the promise that every other node is unchanged rests on that. `NodeState`'s resource and load fields
  are natural numbers, because their types are not defined in the code.
- ResourceManager.CheckQuotaCharacterised: `VMConfig` has no `gpu_count`, so the GPU
  request is a parameter. The `MAX_*` constants are parameters because the code does not
  define them.
- The test at src/gpu/device.rs:531-546 expects `attach_gpu` to fail in a setup where the
  code makes it succeed. The model follows the code (`Device.AttachSingleDevice`).
- Debug-build overflow panics are not modelled. Arithmetic wraps as in a release build.

## Findings

| source | as written | input that shows it | evidently intended | confidence | as-written member | corrected member |
|---|---|---|---|---|---|---|
| src/core/resource_manager.rs:13-15 | `cpu_usage + config.vcpus` and the other sums are `u32`/`u64` additions, which wrap in a release build before the comparison | a user with CPU usage 1 asks for 4294967295 vCPUs: the sum wraps to 0, which is not above the maximum, so the request is accepted | refuse any request whose true sum exceeds the maximum | not executed | ResourceManager.CheckQuotaAsWritten, exhibited by ResourceManager.AsWrittenAdmitsOverflow | ResourceManager.CheckQuota, proved by ResourceManager.CheckQuotaCharacterised |
