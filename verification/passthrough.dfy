/**
 * PCI passthrough preparation (`PassthroughManager` and its helpers). The sysfs tree is a
 * map from absolute path to a file's contents, a link's target or a directory. Reads look
 * the path up; a write is answered by the kernel, given as a function from the tree, the
 * path and the data to the tree afterwards, or `None` when the kernel refuses the write.
 * Every attempted write is logged, in order.
 */
module Passthrough {
  import opened Wrappers
  import opened Text

  datatype Node = File(contents: string) | Link(target: string) | Dir

  type Tree = map<string, Node>

  /** How the kernel answers a write to a sysfs attribute. */
  type Kernel = (Tree, string, string) -> Option<Tree>

  datatype WriteAttempt = WriteAttempt(path: string, data: string)

  /** The `GpuError` variants these operations produce; `IoError` is an I/O error passed on with `?`. */
  datatype PassError =
    | IommuError(message: string)
    | DriverError(message: string, driverName: string)
    | SystemError(message: string)
    | NotFound(gpuId: string)
    | IoError

  const PCI_DEVICES: string := "/sys/bus/pci/devices"
  const PCI_DRIVERS: string := "/sys/bus/pci/drivers"

  /** `fs::read_link`: fails unless the path is a link. */
  function ReadLink(t: Tree, path: string): Option<string> {
    if path in t && t[path].Link? then Some(t[path].target) else None
  }

  /** `fs::read_to_string`: fails unless the path is a file. */
  function ReadFile(t: Tree, path: string): Option<string> {
    if path in t && t[path].File? then Some(t[path].contents) else None
  }

  /** `PCI_DEVICES.join(gpu_id).join(attr)`, as the `PathBuf`-based helpers build it. */
  function DeviceAttr(gpuId: string, attr: string): string {
    JoinPath(JoinPath(PCI_DEVICES, gpuId), attr)
  }

  /** `format!("/sys/bus/pci/devices/{}/{attr}", gpu_id)`, as `DriverManager` builds it. */
  function DeviceAttrText(gpuId: string, attr: string): string {
    PCI_DEVICES + "/" + gpuId + "/" + attr
  }

  function UnbindPath(driver: string): string {
    JoinPath(JoinPath(PCI_DRIVERS, driver), "unbind")
  }

  const VFIO_NEW_ID: string := "/sys/bus/pci/drivers/vfio-pci/new_id"

  // ---------------------------------------------------------------------------------------
  // IOMMU support

  /** `check_iommu_support`, on the output of `dmesg` (`None` when it cannot be run). */
  function CheckIommuSupport(dmesg: Option<string>): Result<bool, PassError> {
    match dmesg
    case None => Err(SystemError("Failed to execute dmesg"))
    case Some(out) => Ok(Contains(out, "IOMMU enabled") || Contains(out, "AMD-Vi enabled"))
  }

  /** `PassthroughManager::new`: refuses to start unless the kernel log reports an IOMMU. */
  function NewManager(dmesg: Option<string>): Outcome<PassError> {
    match CheckIommuSupport(dmesg)
    case Err(e) => Fail(e)
    case Ok(enabled) => if enabled then Pass else Fail(IommuError("IOMMU not enabled in system"))
  }

  /**
   * The manager starts exactly when the log contains "IOMMU enabled" or "AMD-Vi enabled"
   * at some position; otherwise it fails with "IOMMU not enabled in system".
   */
  lemma NewManagerCharacterised(out: string)
    ensures CheckIommuSupport(Some(out)) == Ok(
      (exists i :: OccursAt(out, "IOMMU enabled", i)) || (exists i :: OccursAt(out, "AMD-Vi enabled", i)))
    ensures NewManager(Some(out)).Pass? <==>
      (exists i :: OccursAt(out, "IOMMU enabled", i)) || (exists i :: OccursAt(out, "AMD-Vi enabled", i))
    ensures NewManager(Some(out)).Fail? ==> NewManager(Some(out)) == Fail(IommuError("IOMMU not enabled in system"))
    ensures NewManager(None) == Fail(SystemError("Failed to execute dmesg"))
  {
    ContainsAt(out, "IOMMU enabled");
    ContainsAt(out, "AMD-Vi enabled");
  }

  // ---------------------------------------------------------------------------------------
  // Lookups

  /** `IommuManager::get_gpu_iommu_group`: the group link's file name, parsed as a u32. */
  function GetGpuIommuGroup(t: Tree, gpuId: string): Result<nat, PassError> {
    match ReadLink(t, DeviceAttr(gpuId, "iommu_group"))
    case None => Err(IommuError("Failed to read IOMMU group symlink"))
    case Some(link) =>
      var group := if FileName(link).Some? then ParseUnsigned(FileName(link).value, U32_BOUND) else None;
      if group.None? then Err(IommuError("Invalid IOMMU group format")) else Ok(group.value)
  }

  /**
   * A group link `dir/N` yields group N when N fits a u32 and "Invalid IOMMU group format"
   * when it does not; a missing link yields the symlink error.
   */
  lemma GroupLinkRoundTrip(t: Tree, gpuId: string, dir: string, n: nat)
    requires ReadLink(t, DeviceAttr(gpuId, "iommu_group")) == Some(dir + "/" + Decimal(n))
    ensures GetGpuIommuGroup(t, gpuId) == if n < U32_BOUND then Ok(n) else Err(IommuError("Invalid IOMMU group format"))
  {
    var name := Decimal(n);
    assert IsDigit(name[0]);
    FileNameOfChild(dir, name);
    ParseDecimalRoundTrip(n, U32_BOUND);
  }

  /**
   * The two failures: an unreadable group link is "Failed to read IOMMU group symlink", and a
   * link whose file name is missing or does not parse as a u32 is "Invalid IOMMU group format".
   * A success carries the parsed file name.
   */
  lemma GroupLinkErrors(t: Tree, gpuId: string)
    ensures var link := ReadLink(t, DeviceAttr(gpuId, "iommu_group"));
      && (link.None? ==> GetGpuIommuGroup(t, gpuId) == Err(IommuError("Failed to read IOMMU group symlink")))
      && (link.Some? && FileName(link.value).None? ==>
            GetGpuIommuGroup(t, gpuId) == Err(IommuError("Invalid IOMMU group format")))
      && (link.Some? && FileName(link.value).Some? && ParseUnsigned(FileName(link.value).value, U32_BOUND).None? ==>
            GetGpuIommuGroup(t, gpuId) == Err(IommuError("Invalid IOMMU group format")))
      && (GetGpuIommuGroup(t, gpuId).Ok? ==>
            link.Some? && FileName(link.value).Some?
            && ParseUnsigned(FileName(link.value).value, U32_BOUND) == Some(GetGpuIommuGroup(t, gpuId).value))
  {
  }

  /** A group link `dir/name` whose name holds a character other than a digit (or a leading `+`) is an invalid format. */
  lemma NonNumericGroupRejected(t: Tree, gpuId: string, dir: string, name: string, k: nat)
    requires ReadLink(t, DeviceAttr(gpuId, "iommu_group")) == Some(dir + "/" + name)
    requires '/' !in name && name != "" && name != "." && name != ".."
    requires k < |name| && !IsDigit(name[k]) && (k > 0 || name[0] != '+')
    ensures GetGpuIommuGroup(t, gpuId) == Err(IommuError("Invalid IOMMU group format"))
  {
    FileNameOfChild(dir, name);
    ParseUnsignedRejectsNonDigit(name, U32_BOUND, k);
  }

  /** `DriverManager::get_current_driver`: the driver link's file name, or "" when it has none. */
  function DriverCurrentDriver(t: Tree, gpuId: string): Result<string, PassError> {
    match ReadLink(t, DeviceAttrText(gpuId, "driver"))
    case None => Err(DriverError("Failed to read driver symlink", ""))
    case Some(link) => Ok(if FileName(link).Some? then FileName(link).value else "")
  }

  /** `DeviceManager::get_current_driver`: the same lookup through a joined path, failing with `SystemError`. */
  function DeviceCurrentDriver(t: Tree, gpuId: string): Result<string, PassError> {
    match ReadLink(t, DeviceAttr(gpuId, "driver"))
    case None => Err(SystemError("Failed to read driver link"))
    case Some(link) => Ok(if FileName(link).Some? then FileName(link).value else "")
  }

  /** `get_device_info`: the trimmed vendor and device ids separated by one space. */
  function GetDeviceInfo(t: Tree, gpuId: string): Result<string, PassError> {
    var vendor := ReadFile(t, DeviceAttrText(gpuId, "vendor"));
    var device := ReadFile(t, DeviceAttrText(gpuId, "device"));
    if vendor.None? || device.None? then Err(IoError)
    else Ok(Trim(vendor.value) + " " + Trim(device.value))
  }

  /**
   * With each id padded by whitespace of its own on either side (such as the trailing
   * newline sysfs adds), the result is
   * `vendor device`, and splitting it at the space gives the two ids back.
   */
  lemma DeviceInfoRoundTrip(t: Tree, gpuId: string, vBefore: string, vendor: string, vAfter: string,
                            dBefore: string, device: string, dAfter: string)
    requires forall k :: 0 <= k < |vBefore| ==> IsWhitespace(vBefore[k])
    requires forall k :: 0 <= k < |vAfter| ==> IsWhitespace(vAfter[k])
    requires forall k :: 0 <= k < |dBefore| ==> IsWhitespace(dBefore[k])
    requires forall k :: 0 <= k < |dAfter| ==> IsWhitespace(dAfter[k])
    requires forall k :: 0 <= k < |vendor| ==> !IsWhitespace(vendor[k])
    requires forall k :: 0 <= k < |device| ==> !IsWhitespace(device[k])
    requires vendor != [] && device != []
    requires ReadFile(t, DeviceAttrText(gpuId, "vendor")) == Some(vBefore + vendor + vAfter)
    requires ReadFile(t, DeviceAttrText(gpuId, "device")) == Some(dBefore + device + dAfter)
    ensures GetDeviceInfo(t, gpuId) == Ok(vendor + " " + device)
    ensures SplitOn(GetDeviceInfo(t, gpuId).value, ' ') == [vendor, device]
  {
    TrimPadded(vBefore, vendor, vAfter);
    TrimPadded(dBefore, device, dAfter);
    NoWhitespaceNoSpace(vendor);
    NoWhitespaceNoSpace(device);
    SplitPair(vendor, ' ', device);
    assert vendor + " " + device == vendor + [' '] + device;
  }

  lemma NoWhitespaceNoSpace(s: string)
    requires forall k :: 0 <= k < |s| ==> !IsWhitespace(s[k])
    ensures ' ' !in s
  {
  }

  // ---------------------------------------------------------------------------------------
  // Driver switching

  /** One `fs::write` with its error mapped to `refused`: logged whether or not the kernel accepts it. */
  function WriteStep(t: Tree, kernel: Kernel, w: WriteAttempt, refused: PassError): (Outcome<PassError>, Tree, seq<WriteAttempt>) {
    match kernel(t, w.path, w.data)
    case None => (Fail(refused), t, [w])
    case Some(t1) => (Pass, t1, [w])
  }

  /** `unbind_current_driver`: writes the GPU id to `drivers/<current driver>/unbind`. */
  function UnbindIn(t: Tree, kernel: Kernel, gpuId: string): (Outcome<PassError>, Tree, seq<WriteAttempt>) {
    match DriverCurrentDriver(t, gpuId)
    case Err(e) => (Fail(e), t, [])
    case Ok(driver) =>
      WriteStep(t, kernel, WriteAttempt(UnbindPath(driver), gpuId), DriverError("Failed to unbind driver", driver))
  }

  /** `bind_to_vfio`: writes the device info to `vfio-pci/new_id`; the group number is not used. */
  function BindIn(t: Tree, kernel: Kernel, gpuId: string, iommuGroup: nat): (Outcome<PassError>, Tree, seq<WriteAttempt>) {
    match GetDeviceInfo(t, gpuId)
    case Err(e) => (Fail(e), t, [])
    case Ok(info) =>
      WriteStep(t, kernel, WriteAttempt(VFIO_NEW_ID, info), DriverError("Failed to bind to VFIO", "vfio-pci"))
  }

  // ---------------------------------------------------------------------------------------
  // Verification

  function VerifyPowerState(t: Tree, gpuId: string): Outcome<PassError> {
    match ReadFile(t, DeviceAttr(gpuId, "power_state"))
    case None => Fail(SystemError("Failed to read power state"))
    case Some(state) =>
      if Trim(state) != "D0" then Fail(SystemError("Device not in active power state: " + Trim(state))) else Pass
  }

  predicate HasMemoryBar(lines: seq<string>) {
    exists k :: 0 <= k < |lines| && Contains(lines[k], "Memory at")
  }

  function VerifyMemoryBarIn(t: Tree, gpuId: string): Outcome<PassError> {
    match ReadFile(t, DeviceAttr(gpuId, "resource"))
    case None => Fail(SystemError("Failed to read PCI resources"))
    case Some(text) => if HasMemoryBar(Lines(text)) then Pass else Fail(SystemError("No valid memory BAR found"))
  }

  /** A memory BAR is found exactly when some resource line has "Memory at" at some position. */
  lemma MemoryBarAt(lines: seq<string>)
    ensures HasMemoryBar(lines) <==> exists k, i :: 0 <= k < |lines| && OccursAt(lines[k], "Memory at", i)
  {
    forall k | 0 <= k < |lines| {
      ContainsAt(lines[k], "Memory at");
    }
  }

  /** `verify_memory_bar`: scans the resource lines with a flag, stopping at the first line mentioning "Memory at". */
  method VerifyMemoryBar(t: Tree, gpuId: string) returns (r: Outcome<PassError>)
    ensures r == VerifyMemoryBarIn(t, gpuId)
  {
    var file := ReadFile(t, DeviceAttr(gpuId, "resource"));
    if file.None? {
      return Fail(SystemError("Failed to read PCI resources"));
    }
    var lines := Lines(file.value);
    var validBar := false;
    var i := 0;
    while i < |lines|
      invariant 0 <= i <= |lines|
      invariant validBar ==> HasMemoryBar(lines)
      invariant !validBar ==> forall k :: 0 <= k < i ==> !Contains(lines[k], "Memory at")
    {
      if Contains(lines[i], "Memory at") {
        validBar := true;
        break;
      }
      i := i + 1;
    }
    if !validBar {
      return Fail(SystemError("No valid memory BAR found"));
    }
    r := Pass;
  }

  /** `verify_device_ready`: device present, bound to vfio-pci, in power state D0, with a memory BAR; checked in that order. */
  function VerifyDeviceReadyIn(t: Tree, gpuId: string): Outcome<PassError> {
    if JoinPath(PCI_DEVICES, gpuId) !in t then Fail(NotFound(gpuId))
    else match DeviceCurrentDriver(t, gpuId)
      case Err(e) => Fail(e)
      case Ok(driver) =>
        if driver != "vfio-pci" then
          Fail(DriverError("Device not bound to VFIO-PCI, current driver: " + driver, driver))
        else if VerifyPowerState(t, gpuId).Fail? then VerifyPowerState(t, gpuId)
        else VerifyMemoryBarIn(t, gpuId)
  }

  /**
   * A device is ready exactly when all four checks hold, and the first violated check
   * decides the error: a missing device is reported as such whatever else holds, and a
   * device bound elsewhere is reported with the name of its driver.
   */
  lemma VerifyDeviceReadyCharacterised(t: Tree, gpuId: string)
    ensures var r := VerifyDeviceReadyIn(t, gpuId);
      && (r.Pass? <==>
            && JoinPath(PCI_DEVICES, gpuId) in t
            && DeviceCurrentDriver(t, gpuId) == Ok("vfio-pci")
            && ReadFile(t, DeviceAttr(gpuId, "power_state")).Some?
            && Trim(ReadFile(t, DeviceAttr(gpuId, "power_state")).value) == "D0"
            && ReadFile(t, DeviceAttr(gpuId, "resource")).Some?
            && HasMemoryBar(Lines(ReadFile(t, DeviceAttr(gpuId, "resource")).value)))
      && (JoinPath(PCI_DEVICES, gpuId) !in t ==> r == Fail(NotFound(gpuId)))
      && (JoinPath(PCI_DEVICES, gpuId) in t && DeviceCurrentDriver(t, gpuId).Ok? && DeviceCurrentDriver(t, gpuId).value != "vfio-pci" ==>
            r.Fail? && r.error.DriverError? && r.error.driverName == DeviceCurrentDriver(t, gpuId).value)
  {
  }

  // ---------------------------------------------------------------------------------------
  // prepare_gpu_passthrough

  /** Group lookup, unbind, vfio bind, verification: the first failure ends the run and nothing is undone. */
  function PrepareIn(t: Tree, kernel: Kernel, gpuId: string): (Outcome<PassError>, Tree, seq<WriteAttempt>) {
    match GetGpuIommuGroup(t, gpuId)
    case Err(e) => (Fail(e), t, [])
    case Ok(group) =>
      var (unbound, t1, log1) := UnbindIn(t, kernel, gpuId);
      if unbound.Fail? then (unbound, t1, log1)
      else
        var (bound, t2, log2) := BindIn(t1, kernel, gpuId, group);
        if bound.Fail? then (bound, t2, log1 + log2)
        else (VerifyDeviceReadyIn(t2, gpuId), t2, log1 + log2)
  }

  /** The tree the kernel leaves after the logged writes, a refused write changing nothing and ending the run. */
  function Replay(t: Tree, kernel: Kernel, log: seq<WriteAttempt>): Tree
    decreases |log|
  {
    if log == [] then t
    else match kernel(t, log[0].path, log[0].data)
      case None => t
      case Some(t1) => Replay(t1, kernel, log[1..])
  }

  /** A write step logs exactly its write and leaves the tree the kernel made of it. */
  lemma WriteStepEffects(t: Tree, kernel: Kernel, w: WriteAttempt, refused: PassError)
    ensures var (r, after, log) := WriteStep(t, kernel, w, refused);
      && log == [w]
      && after == Replay(t, kernel, log)
      && (r.Pass? <==> kernel(t, w.path, w.data).Some?)
      && (r.Fail? ==> r.error == refused)
  {
    assert [w][1..] == [];
  }

  /** The unbind step attempts at most the one unbind write, and leaves the tree the kernel made of it. */
  lemma UnbindEffects(t: Tree, kernel: Kernel, gpuId: string)
    ensures var (r, after, log) := UnbindIn(t, kernel, gpuId);
      && |log| <= 1
      && after == Replay(t, kernel, log)
      && (|log| == 1 ==> DriverCurrentDriver(t, gpuId).Ok? && log[0] == WriteAttempt(UnbindPath(DriverCurrentDriver(t, gpuId).value), gpuId))
      && (r.Fail? && |log| == 1 ==> r.error == DriverError("Failed to unbind driver", DriverCurrentDriver(t, gpuId).value))
      && (r.Pass? ==> |log| == 1)
  {
    var driver := DriverCurrentDriver(t, gpuId);
    if driver.Ok? {
      WriteStepEffects(t, kernel, WriteAttempt(UnbindPath(driver.value), gpuId), DriverError("Failed to unbind driver", driver.value));
    }
  }

  /** The bind step attempts at most the one `new_id` write, and leaves the tree the kernel made of it. */
  lemma BindEffects(t: Tree, kernel: Kernel, gpuId: string, iommuGroup: nat)
    ensures var (r, after, log) := BindIn(t, kernel, gpuId, iommuGroup);
      && |log| <= 1
      && after == Replay(t, kernel, log)
      && (|log| == 1 ==> GetDeviceInfo(t, gpuId).Ok? && log[0] == WriteAttempt(VFIO_NEW_ID, GetDeviceInfo(t, gpuId).value))
      && (r.Fail? && |log| == 1 ==> r.error == DriverError("Failed to bind to VFIO", "vfio-pci"))
      && (r.Pass? ==> |log| == 1)
  {
    var info := GetDeviceInfo(t, gpuId);
    if info.Ok? {
      WriteStepEffects(t, kernel, WriteAttempt(VFIO_NEW_ID, info.value), DriverError("Failed to bind to VFIO", "vfio-pci"));
    }
  }

  /**
   * At most two writes are attempted, the unbind of the driver read at the start and then
   * the `new_id` write, and the tree returned is exactly what the kernel made of them: no
   * write restores the old binding when a later step fails. A failed group lookup writes
   * nothing, and a successful run leaves a device that passes verification.
   */
  lemma {:induction false} PrepareEffects(t: Tree, kernel: Kernel, gpuId: string)
    ensures var (r, after, log) := PrepareIn(t, kernel, gpuId);
      && |log| <= 2
      && after == Replay(t, kernel, log)
      && (|log| >= 1 ==>
            DriverCurrentDriver(t, gpuId).Ok? && log[0] == WriteAttempt(UnbindPath(DriverCurrentDriver(t, gpuId).value), gpuId))
      && (|log| == 2 ==>
            var unbound := UnbindIn(t, kernel, gpuId).1;
            GetDeviceInfo(unbound, gpuId).Ok? && log[1] == WriteAttempt(VFIO_NEW_ID, GetDeviceInfo(unbound, gpuId).value))
      && (GetGpuIommuGroup(t, gpuId).Err? ==> r == Fail(GetGpuIommuGroup(t, gpuId).error) && after == t && log == [])
      && (r.Pass? ==> |log| == 2 && VerifyDeviceReadyIn(after, gpuId).Pass?)
  {
    var group := GetGpuIommuGroup(t, gpuId);
    if group.Ok? {
      var u := UnbindIn(t, kernel, gpuId);
      UnbindEffects(t, kernel, gpuId);
      if u.0.Pass? {
        var b := BindIn(u.1, kernel, gpuId, group.value);
        BindEffects(u.1, kernel, gpuId, group.value);
        var log := u.2 + b.2;
        assert PrepareIn(t, kernel, gpuId) == (if b.0.Fail? then b.0 else VerifyDeviceReadyIn(b.1, gpuId), b.1, log);
        assert log[0] == u.2[0];
        assert log[1..] == b.2;
        assert Replay(t, kernel, log) == Replay(u.1, kernel, b.2);
      } else {
        assert PrepareIn(t, kernel, gpuId) == u;
      }
    }
  }

  /** The sysfs tree with the kernel that answers writes to it, and the log of attempted writes. */
  class Sysfs {
    var tree: Tree
    var writes: seq<WriteAttempt>
    const kernel: Kernel

    constructor (initial: Tree, k: Kernel)
      ensures tree == initial && writes == [] && kernel == k
    {
      tree := initial;
      writes := [];
      kernel := k;
    }

    /** `fs::write`: logged; the tree changes only when the kernel accepts the write. */
    method Write(path: string, data: string) returns (ok: bool)
      modifies this
      ensures writes == old(writes) + [WriteAttempt(path, data)]
      ensures ok <==> kernel(old(tree), path, data).Some?
      ensures tree == if ok then kernel(old(tree), path, data).value else old(tree)
    {
      writes := writes + [WriteAttempt(path, data)];
      var answer := kernel(tree, path, data);
      ok := answer.Some?;
      if ok {
        tree := answer.value;
      }
    }
  }

  method UnbindCurrentDriver(sys: Sysfs, gpuId: string) returns (r: Outcome<PassError>)
    modifies sys
    ensures var (o, after, log) := UnbindIn(old(sys.tree), sys.kernel, gpuId);
      r == o && sys.tree == after && sys.writes == old(sys.writes) + log
  {
    var driver := DriverCurrentDriver(sys.tree, gpuId);
    if driver.Err? {
      return Fail(driver.error);
    }
    var ok := sys.Write(UnbindPath(driver.value), gpuId);
    if !ok {
      return Fail(DriverError("Failed to unbind driver", driver.value));
    }
    r := Pass;
  }

  method BindToVfio(sys: Sysfs, gpuId: string, iommuGroup: nat) returns (r: Outcome<PassError>)
    modifies sys
    ensures var (o, after, log) := BindIn(old(sys.tree), sys.kernel, gpuId, iommuGroup);
      r == o && sys.tree == after && sys.writes == old(sys.writes) + log
  {
    var info := GetDeviceInfo(sys.tree, gpuId);
    if info.Err? {
      assert sys.writes == old(sys.writes) + [];
      return Fail(info.error);
    }
    BindWrites(sys.tree, sys.kernel, gpuId, iommuGroup, info.value);
    var ok := sys.Write(VFIO_NEW_ID, info.value);
    if !ok {
      return Fail(DriverError("Failed to bind to VFIO", "vfio-pci"));
    }
    r := Pass;
  }

  /** With the device info read, binding is the one write of that info to `new_id`. */
  lemma BindWrites(t: Tree, kernel: Kernel, gpuId: string, iommuGroup: nat, info: string)
    requires GetDeviceInfo(t, gpuId) == Ok(info)
    ensures BindIn(t, kernel, gpuId, iommuGroup)
         == WriteStep(t, kernel, WriteAttempt(VFIO_NEW_ID, info), DriverError("Failed to bind to VFIO", "vfio-pci"))
  {
  }

  /** `prepare_gpu_passthrough` on the live tree. */
  method PrepareGpuPassthrough(sys: Sysfs, gpuId: string) returns (r: Outcome<PassError>)
    modifies sys
    ensures var (o, after, log) := PrepareIn(old(sys.tree), sys.kernel, gpuId);
      r == o && sys.tree == after && sys.writes == old(sys.writes) + log
  {
    ghost var start, logged := sys.tree, sys.writes;
    var group := GetGpuIommuGroup(sys.tree, gpuId);
    if group.Err? {
      assert sys.writes == logged + [];
      return Fail(group.error);
    }
    PrepareSteps(start, sys.kernel, gpuId, group.value);
    ghost var unbound := UnbindIn(start, sys.kernel, gpuId);
    r := UnbindCurrentDriver(sys, gpuId);
    if r.Fail? {
      return;
    }
    ghost var bound := BindIn(unbound.1, sys.kernel, gpuId, group.value);
    r := BindToVfio(sys, gpuId, group.value);
    LogAssoc(logged, unbound.2, bound.2);
    if r.Fail? {
      return;
    }
    r := VerifyDeviceReadyIn(sys.tree, gpuId);
  }

  /** Once the group is known, `prepare_gpu_passthrough` is the unbind, then the bind, then the verification. */
  lemma PrepareSteps(t: Tree, kernel: Kernel, gpuId: string, group: nat)
    requires GetGpuIommuGroup(t, gpuId) == Ok(group)
    ensures var u := UnbindIn(t, kernel, gpuId);
      var b := BindIn(u.1, kernel, gpuId, group);
      PrepareIn(t, kernel, gpuId)
        == if u.0.Fail? then u
           else if b.0.Fail? then (b.0, b.1, u.2 + b.2)
           else (VerifyDeviceReadyIn(b.1, gpuId), b.1, u.2 + b.2)
  {
  }

  lemma LogAssoc(a: seq<WriteAttempt>, b: seq<WriteAttempt>, c: seq<WriteAttempt>)
    ensures (a + b) + c == a + (b + c)
  {
  }

  // ---------------------------------------------------------------------------------------
  // VFIO groups

  predicate NoDuplicates(devices: seq<string>) {
    forall i, j :: 0 <= i < j < |devices| ==> devices[i] != devices[j]
  }

  /** `add_device` as a function: append unless already present. */
  function WithDevice(devices: seq<string>, deviceId: string): seq<string> {
    if deviceId in devices then devices else devices + [deviceId]
  }

  /** Adding keeps the earlier members in their order, adds exactly `deviceId` as a member, and never duplicates. */
  lemma WithDeviceCharacterised(devices: seq<string>, deviceId: string)
    ensures var after := WithDevice(devices, deviceId);
      && after[..|devices|] == devices
      && (forall x :: x in after <==> x in devices || x == deviceId)
      && (NoDuplicates(devices) ==> NoDuplicates(after))
      && WithDevice(after, deviceId) == after
  {
  }

  /** `is_device_eligible`: a device whose trimmed class starts with "0x060" (a PCI bridge) is not. */
  function EligibleIn(t: Tree, deviceId: string): Result<bool, PassError> {
    match ReadFile(t, DeviceAttr(deviceId, "class"))
    case None => Err(SystemError("Failed to read device class"))
    case Some(deviceClass) => Ok(!StartsWith(Trim(deviceClass), "0x060"))
  }

  /** `is_device_eligible` on the tree `t`, as a function of the device id. */
  function EligibleOf(t: Tree): string -> Result<bool, PassError> {
    deviceId => EligibleIn(t, deviceId)
  }

  /**
   * The loop of `is_viable`, with `check` standing for `is_device_eligible`: the first failing
   * check is an error, the first ineligible member makes the group unviable.
   */
  function ViableWith(check: string -> Result<bool, PassError>, devices: seq<string>): Result<bool, PassError> {
    if devices == [] then Ok(true)
    else match check(devices[0])
      case Err(e) => Err(e)
      case Ok(eligible) => if !eligible then Ok(false) else ViableWith(check, devices[1..])
  }

  /** `is_viable` on the tree `t`. */
  function ViableIn(t: Tree, devices: seq<string>): Result<bool, PassError> {
    ViableWith(EligibleOf(t), devices)
  }

  /** `p` holds of every member. */
  predicate All(p: string -> bool, devices: seq<string>) {
    forall k :: 0 <= k < |devices| ==> p(devices[k])
  }

  lemma AllCons(p: string -> bool, devices: seq<string>)
    requires devices != []
    ensures All(p, devices) <==> p(devices[0]) && All(p, devices[1..])
  {
    var tail := devices[1..];
    if p(devices[0]) && All(p, tail) {
      forall k | 0 <= k < |devices| ensures p(devices[k]) {
        if k > 0 {
          assert devices[k] == tail[k - 1];
        }
      }
    }
    if All(p, devices) {
      forall k | 0 <= k < |tail| ensures p(tail[k]) {
        assert tail[k] == devices[k + 1];
      }
    }
  }

  /**
   * A group is viable exactly when every member's check says eligible; when every check
   * succeeds the answer is never an error. An empty group is viable.
   */
  lemma {:induction false} ViableCharacterised(check: string -> Result<bool, PassError>, devices: seq<string>)
    ensures ViableWith(check, devices) == Ok(true) <==> forall k :: 0 <= k < |devices| ==> check(devices[k]) == Ok(true)
    ensures (forall k :: 0 <= k < |devices| ==> check(devices[k]).Ok?) ==> ViableWith(check, devices).Ok?
  {
    if devices != [] {
      ViableCharacterised(check, devices[1..]);
      AllCons(d => check(d) == Ok(true), devices);
      AllCons(d => check(d).Ok?, devices);
    }
  }

  /** Adding a device keeps a viable group viable exactly when the new device is eligible itself. */
  lemma ViableAfterAdd(check: string -> Result<bool, PassError>, devices: seq<string>, deviceId: string)
    ensures ViableWith(check, WithDevice(devices, deviceId)) == Ok(true) <==>
      ViableWith(check, devices) == Ok(true) && check(deviceId) == Ok(true)
  {
    ViableCharacterised(check, devices);
    ViableCharacterised(check, WithDevice(devices, deviceId));
    if deviceId in devices {
      var k :| 0 <= k < |devices| && devices[k] == deviceId;
    } else {
      var after := devices + [deviceId];
      assert after[|devices|] == deviceId;
      assert forall k :: 0 <= k < |devices| ==> after[k] == devices[k];
    }
  }

  class VfioGroup {
    const groupId: nat
    var devices: seq<string>

    ghost predicate Valid()
      reads this
    {
      NoDuplicates(devices)
    }

    /** `VfioGroup::new`: no members. */
    constructor (id: nat)
      ensures groupId == id && devices == [] && Valid()
    {
      groupId := id;
      devices := [];
    }

    /** `add_device`: appends the id unless it is already a member. */
    method AddDevice(deviceId: string)
      requires Valid()
      modifies this
      ensures devices == WithDevice(old(devices), deviceId) && Valid()
    {
      if deviceId !in devices {
        devices := devices + [deviceId];
      }
    }

    /** `is_viable`, reading each member's class from `t`. */
    method IsViable(t: Tree) returns (r: Result<bool, PassError>)
      ensures r == ViableIn(t, devices)
      ensures r == Ok(true) <==> forall k :: 0 <= k < |devices| ==> EligibleIn(t, devices[k]) == Ok(true)
    {
      ViableCharacterised(EligibleOf(t), devices);
      var i := 0;
      while i < |devices|
        invariant 0 <= i <= |devices|
        invariant ViableWith(EligibleOf(t), devices[i..]) == ViableIn(t, devices)
      {
        var eligible := EligibleIn(t, devices[i]);
        assert eligible == EligibleOf(t)(devices[i]);
        if eligible.Err? {
          return Err(eligible.error);
        }
        if !eligible.value {
          return Ok(false);
        }
        assert devices[i..][1..] == devices[i + 1..];
        i := i + 1;
      }
      r := Ok(true);
    }
  }
}
