/**
 * GPU device bookkeeping (`GPUManager`): the detected devices, the IOMMU groups built from
 * the PCI device directory, the `uevent` parser, the vendor whitelist, the Windows id
 * format, and the attach and lookup checks.
 *
 * Directory listings and file and link contents are inputs: a listing is the sequence of
 * entries `read_dir` yields, each with what reading its `iommu_group` link gives.
 */
module Device {
  import opened Wrappers
  import opened Text

  datatype GpuInfo = GpuInfo(
    id: string, vendor: string, model: string, vramMb: nat, driverVersion: string,
    metalSupport: Option<bool>, vulkanSupport: Option<bool>, directxVersion: Option<real>,
    iommuGroup: Option<nat>)

  datatype GpuError = NotFound | IommuGroupNotFound(groupId: nat) | UnsafeIommuGroup(members: string)

  /** IOMMU group number to the names of its PCI devices, in the order they were found. */
  type Groups = map<nat, seq<string>>

  // ---------------------------------------------------------------------------------------
  // build_iommu_groups

  /** What `<device>/iommu_group` gives: absent (or dangling, as `exists` follows the link), unreadable, or a link target. */
  datatype GroupLink = NoLink | LinkUnreadable | Link(target: string)

  /** One item of the `read_dir` iterator: an I/O error, or a device directory with its name. */
  datatype PciEntry = BadEntry | PciEntry(name: string, groupLink: GroupLink)

  datatype ScanError =
    | ReadDirFailed
    | EntryFailed
    | UeventUnreadable
    | LinkFailed(device: string)
    | NoFileName(device: string)       // where `file_name().unwrap()` panics, on a link target without a file name
    | BadGroupNumber(text: string)

  /** The private `get_iommu_group(path)`: the link target's file name parsed as a u64. */
  function EntryGroup(e: PciEntry): Result<Option<nat>, ScanError> {
    if e.BadEntry? then Err(EntryFailed)
    else match e.groupLink
      case NoLink => Ok(None)
      case LinkUnreadable => Err(LinkFailed(e.name))
      case Link(target) =>
        match FileName(target)
        case None => Err(NoFileName(e.name))
        case Some(f) =>
          match ParseUnsigned(f, U64_BOUND)
          case None => Err(BadGroupNumber(f))
          case Some(g) => Ok(Some(g))
  }

  /** `iommu_groups.entry(group).or_default().push(name)`. */
  function Push(groups: Groups, g: nat, name: string): Groups {
    groups[g := (if g in groups then groups[g] else []) + [name]]
  }

  /** The loop of `build_iommu_groups`: stops at the first failing entry, keeping what it pushed. */
  function BuildIn(groups: Groups, entries: seq<PciEntry>): (Outcome<ScanError>, Groups)
    decreases |entries|
  {
    if entries == [] then (Pass, groups)
    else match EntryGroup(entries[0])
      case Err(e) => (Fail(e), groups)
      case Ok(None) => BuildIn(groups, entries[1..])
      case Ok(Some(g)) => BuildIn(Push(groups, g, entries[0].name), entries[1..])
  }

  /** The names of the entries whose link names group `g`, in scan order. */
  function Listed(entries: seq<PciEntry>, g: nat): seq<string> {
    if entries == [] then []
    else (if EntryGroup(entries[0]) == Ok(Some(g)) then [entries[0].name] else []) + Listed(entries[1..], g)
  }

  predicate AllScanned(entries: seq<PciEntry>) {
    forall k :: 0 <= k < |entries| ==> EntryGroup(entries[k]).Ok?
  }

  function Members(groups: Groups, g: nat): seq<string> {
    if g in groups then groups[g] else []
  }

  /** A name is listed under `g` exactly when some entry of that name has its link naming `g`. */
  lemma {:induction false} ListedMembers(entries: seq<PciEntry>, g: nat, name: string)
    ensures name in Listed(entries, g) <==>
      exists k :: 0 <= k < |entries| && EntryGroup(entries[k]) == Ok(Some(g)) && entries[k].name == name
  {
    if entries != [] {
      ListedMembers(entries[1..], g, name);
      if name in Listed(entries[1..], g) {
        var k :| 0 <= k < |entries[1..]| && EntryGroup(entries[1..][k]) == Ok(Some(g)) && entries[1..][k].name == name;
        assert entries[k + 1] == entries[1..][k];
      }
      if exists k :: 0 <= k < |entries| && EntryGroup(entries[k]) == Ok(Some(g)) && entries[k].name == name {
        var k :| 0 <= k < |entries| && EntryGroup(entries[k]) == Ok(Some(g)) && entries[k].name == name;
        if k > 0 {
          assert entries[1..][k - 1] == entries[k];
        }
      }
    }
  }

  /**
   * When every entry is read, the scan succeeds and each group's list grows by exactly the
   * names of its devices in scan order; nothing is cleared, and a group appears only if it
   * was there before or some device names it.
   */
  lemma {:induction false} BuildAppendsEach(groups: Groups, entries: seq<PciEntry>, g: nat)
    requires AllScanned(entries)
    decreases |entries|
    ensures var (r, after) := BuildIn(groups, entries);
      && r.Pass?
      && (g in after <==> g in groups || Listed(entries, g) != [])
      && Members(after, g) == Members(groups, g) + Listed(entries, g)
  {
    if entries != [] {
      var next, rest := AfterEntry(groups, entries[0]), entries[1..];
      var own: seq<string> := if EntryGroup(entries[0]) == Ok(Some(g)) then [entries[0].name] else [];
      BuildStep(groups, entries);
      ListedStep(entries, g);
      MembersAfterEntry(groups, entries[0], g);
      BuildAppendsEach(next, rest, g);
      AppendAssoc(Members(groups, g), own, Listed(rest, g));
    }
  }

  lemma AppendAssoc(a: seq<string>, b: seq<string>, c: seq<string>)
    ensures (a + b) + c == a + (b + c)
  {
  }

  /** The map after one successfully scanned entry. */
  function AfterEntry(groups: Groups, e: PciEntry): Groups {
    match EntryGroup(e)
    case Ok(Some(h)) => Push(groups, h, e.name)
    case _ => groups
  }

  lemma BuildStep(groups: Groups, entries: seq<PciEntry>)
    requires entries != [] && EntryGroup(entries[0]).Ok?
    ensures BuildIn(groups, entries) == BuildIn(AfterEntry(groups, entries[0]), entries[1..])
  {
  }

  lemma ListedStep(entries: seq<PciEntry>, g: nat)
    requires entries != []
    ensures Listed(entries, g)
         == (if EntryGroup(entries[0]) == Ok(Some(g)) then [entries[0].name] else []) + Listed(entries[1..], g)
  {
  }

  lemma MembersAfterEntry(groups: Groups, e: PciEntry, g: nat)
    ensures Members(AfterEntry(groups, e), g)
         == Members(groups, g) + (if EntryGroup(e) == Ok(Some(g)) then [e.name] else [])
    ensures g in AfterEntry(groups, e) <==> g in groups || EntryGroup(e) == Ok(Some(g))
  {
  }

  /** If the `k`-th entry fails, the names pushed for the earlier entries remain and the rest are skipped. */
  lemma {:induction false} BuildKeepsEarlierOnFailure(groups: Groups, entries: seq<PciEntry>, k: nat)
    requires k < |entries| && AllScanned(entries[..k]) && EntryGroup(entries[k]).Err?
    decreases k
    ensures BuildIn(groups, entries) == (Fail(EntryGroup(entries[k]).error), BuildIn(groups, entries[..k]).1)
  {
    if k > 0 {
      assert entries[..k][1..] == entries[1..][..k - 1];
      assert EntryGroup(entries[..k][0]).Ok?;
      var next := match EntryGroup(entries[0]).value
        case None => groups
        case Some(h) => Push(groups, h, entries[0].name);
      BuildKeepsEarlierOnFailure(next, entries[1..], k - 1);
    }
  }

  /** Device directory names are distinct, as those of one directory are. */
  predicate DistinctNames(entries: seq<PciEntry>) {
    forall i, j :: 0 <= i < |entries| && 0 <= j < |entries| && i != j && entries[i].PciEntry? && entries[j].PciEntry?
      ==> entries[i].name != entries[j].name
  }

  /**
   * Built from an empty map, every listed name belongs to a device whose link names that
   * group, so a device without a link appears nowhere and no device appears in two groups.
   */
  lemma OneGroupPerDevice(entries: seq<PciEntry>, name: string, g1: nat, g2: nat)
    requires AllScanned(entries) && DistinctNames(entries)
    ensures var after := BuildIn(map[], entries).1;
      && (g1 in after && name in after[g1] ==>
            exists k :: 0 <= k < |entries| && EntryGroup(entries[k]) == Ok(Some(g1)) && entries[k].name == name)
      && (g1 in after && g2 in after && name in after[g1] && name in after[g2] ==> g1 == g2)
  {
    BuildAppendsEach(map[], entries, g1);
    BuildAppendsEach(map[], entries, g2);
    ListedMembers(entries, g1, name);
    ListedMembers(entries, g2, name);
  }

  // ---------------------------------------------------------------------------------------
  // validate_iommu_group

  /** `validate_iommu_group`: an unknown group, then a group of several devices, are refused. */
  function ValidateIn(groups: Groups, groupId: nat): Outcome<GpuError> {
    if groupId !in groups then Fail(IommuGroupNotFound(groupId))
    else if |groups[groupId]| > 1 then Fail(UnsafeIommuGroup(JoinWith(groups[groupId], ", ")))
    else Pass
  }

  /** A group passes exactly when it is known and holds at most one device; the errors name the group or its members. */
  lemma ValidateCharacterised(groups: Groups, groupId: nat)
    ensures ValidateIn(groups, groupId).Pass? <==> groupId in groups && |groups[groupId]| <= 1
    ensures groupId !in groups ==> ValidateIn(groups, groupId) == Fail(IommuGroupNotFound(groupId))
    ensures groupId in groups && |groups[groupId]| > 1 ==>
      ValidateIn(groups, groupId) == Fail(UnsafeIommuGroup(JoinWith(groups[groupId], ", ")))
  {
  }

  /** On a freshly built map, a group validates exactly when exactly one scanned device names it. */
  lemma ValidateAfterBuild(entries: seq<PciEntry>, g: nat)
    requires AllScanned(entries)
    ensures ValidateIn(BuildIn(map[], entries).1, g).Pass? <==> |Listed(entries, g)| == 1
  {
    BuildAppendsEach(map[], entries, g);
  }

  // ---------------------------------------------------------------------------------------
  // read_uevent

  /** The fields `read_uevent` fills in; `iommu_group` is never set by it. */
  datatype UeventInfo = UeventInfo(deviceId: string, subsystemId: string, model: string, iommuGroup: Option<nat>)

  /** `<device>/uevent`: absent, unreadable, or its text. */
  datatype UeventFile = Missing | Unreadable | Contents(text: string)

  datatype UeventKey = PciId | PciSubsysId | Modalias

  /** The value a line assigns to `key`: the text between its first and second `=` (for `MODALIAS`, the third `:` field of that). */
  function ValueFor(line: string, key: UeventKey): Option<string> {
    var parts := SplitOn(line, '=');
    if |parts| < 2 then None
    else match key
      case PciId => if parts[0] == "PCI_ID" then Some(parts[1]) else None
      case PciSubsysId => if parts[0] == "PCI_SUBSYS_ID" then Some(parts[1]) else None
      case Modalias =>
        var fields := SplitOn(parts[1], ':');
        if parts[0] == "MODALIAS" && |fields| > 2 then Some(fields[2]) else None
  }

  /** The body of the line loop. */
  function ApplyLine(info: UeventInfo, line: string): UeventInfo {
    var parts := SplitOn(line, '=');
    if |parts| < 2 then info
    else if parts[0] == "PCI_ID" then info.(deviceId := parts[1])
    else if parts[0] == "PCI_SUBSYS_ID" then info.(subsystemId := parts[1])
    else if parts[0] == "MODALIAS" then
      var fields := SplitOn(parts[1], ':');
      if |fields| > 2 then info.(model := fields[2]) else info
    else info
  }

  /** The loop over the lines, from `UeventInfo::default()`. */
  function ParseUevent(lines: seq<string>): UeventInfo {
    if lines == [] then UeventInfo("", "", "", None)
    else ApplyLine(ParseUevent(lines[..|lines| - 1]), lines[|lines| - 1])
  }

  /** The value the last line assigning `key` gave it, or the empty default. */
  function Latest(lines: seq<string>, key: UeventKey): string {
    if lines == [] then ""
    else match ValueFor(lines[|lines| - 1], key)
      case Some(v) => v
      case None => Latest(lines[..|lines| - 1], key)
  }

  /** Each field holds what the last line assigning it said: a later key overwrites an earlier one. */
  lemma {:induction false} ParseUeventFields(lines: seq<string>)
    ensures ParseUevent(lines)
         == UeventInfo(Latest(lines, PciId), Latest(lines, PciSubsysId), Latest(lines, Modalias), None)
  {
    if lines != [] {
      ParseUeventFields(lines[..|lines| - 1]);
    }
  }

  /** A line without `=` is skipped. */
  lemma LineWithoutEqualsIgnored(info: UeventInfo, line: string)
    requires '=' !in line
    ensures ApplyLine(info, line) == info
  {
  }

  /** In `KEY=value=rest` only `value` is used; whatever follows the second `=` is ignored. */
  lemma ValueStopsAtSecondEquals(key: string, value: string, rest: string)
    requires '=' !in key && '=' !in value
    ensures ValueFor(key + "=" + value + "=" + rest, PciId) == if key == "PCI_ID" then Some(value) else None
    ensures ValueFor(key + "=" + value + "=" + rest, PciSubsysId) == if key == "PCI_SUBSYS_ID" then Some(value) else None
  {
    var parts := SplitOn(key + "=" + value + "=" + rest, '=');
    SplitTwice(key, value, rest);
    assert parts[0] == key && parts[1] == value;
  }

  lemma SplitTwice(key: string, value: string, rest: string)
    requires '=' !in key && '=' !in value
    ensures SplitOn(key + "=" + value + "=" + rest, '=') == [key, value] + SplitOn(rest, '=')
  {
    var tail := value + "=" + rest;
    assert key + "=" + value + "=" + rest == key + ['='] + tail;
    assert tail == value + ['='] + rest;
    SplitOnFirst(key, '=', tail);
    SplitOnFirst(value, '=', rest);
    assert [key] + ([value] + SplitOn(rest, '=')) == [key, value] + SplitOn(rest, '=');
  }

  lemma ParseUeventStep(lines: seq<string>, i: nat)
    requires i < |lines|
    ensures ParseUevent(lines[..i + 1]) == ApplyLine(ParseUevent(lines[..i]), lines[i])
  {
    assert lines[..i + 1][..i] == lines[..i];
  }

  function ReadUeventIn(f: UeventFile): Result<Option<UeventInfo>, ScanError> {
    match f
    case Missing => Ok(None)
    case Unreadable => Err(UeventUnreadable)
    case Contents(text) => Ok(Some(ParseUevent(Lines(text))))
  }

  /** `read_uevent`: `None` for a missing file, otherwise the fields its lines assign, the last assignment winning. */
  method ReadUevent(f: UeventFile) returns (r: Result<Option<UeventInfo>, ScanError>)
    ensures r == ReadUeventIn(f)
    ensures r.Ok? && r.value.Some? ==> var lines := Lines(f.text);
      r.value.value == UeventInfo(Latest(lines, PciId), Latest(lines, PciSubsysId), Latest(lines, Modalias), None)
  {
    match f {
      case Missing => return Ok(None);
      case Unreadable => return Err(UeventUnreadable);
      case Contents(text) =>
        var lines := Lines(text);
        var uevent := UeventInfo("", "", "", None);
        var i := 0;
        while i < |lines|
          invariant 0 <= i <= |lines|
          invariant uevent == ParseUevent(lines[..i])
        {
          var line := lines[i];
          var parts := SplitOn(line, '=');
          if |parts| >= 2 {
            if parts[0] == "PCI_ID" {
              uevent := uevent.(deviceId := parts[1]);
            } else if parts[0] == "PCI_SUBSYS_ID" {
              uevent := uevent.(subsystemId := parts[1]);
            } else if parts[0] == "MODALIAS" {
              var fields := SplitOn(parts[1], ':');
              if |fields| > 2 {
                uevent := uevent.(model := fields[2]);
              }
            }
          }
          ParseUeventStep(lines, i);
          i := i + 1;
        }
        assert lines[..i] == lines;
        ParseUeventFields(lines);
        r := Ok(Some(uevent));
    }
  }

  // ---------------------------------------------------------------------------------------
  // Vendor checks and the Windows id format

  /** `is_gpu_device`: the trimmed vendor id is NVIDIA's, AMD's or Intel's, in lower-case hex. */
  predicate IsGpuDevice(vendor: string, device: string) {
    var v := Trim(vendor);
    v == "10de" || v == "1002" || v == "8086"
  }

  /**
   * Surrounding whitespace does not matter, and nothing but the three lower-case ids is
   * accepted: for any id without whitespace at its ends, padded or not, the check holds
   * exactly for "10de", "1002" and "8086" (so "10DE" is refused).
   */
  lemma IsGpuDevicePadded(before: string, id: string, after: string, device: string)
    requires forall k :: 0 <= k < |before| ==> IsWhitespace(before[k])
    requires forall k :: 0 <= k < |after| ==> IsWhitespace(after[k])
    requires id != [] && !IsWhitespace(id[0]) && !IsWhitespace(id[|id| - 1])
    ensures IsGpuDevice(before + id + after, device) <==> id == "10de" || id == "1002" || id == "8086"
  {
    TrimPadded(before, id, after);
  }

  /** The DXGI adapter description fields the Windows detection reads. */
  datatype AdapterDesc = AdapterDesc(vendorId: nat, deviceId: nat, description: string, dedicatedVideoMemory: nat, revision: nat)

  /** `format!("PCI\\VEN_{:04X}&DEV_{:04X}", vendor_id, device_id)`. */
  function WindowsDeviceId(vendorId: nat, deviceId: nat): string {
    "PCI\\VEN_" + HexPadded(vendorId, 4) + "&DEV_" + HexPadded(deviceId, 4)
  }

  function WindowsVendorName(vendorId: nat): string {
    if vendorId == 0x10DE then "NVIDIA"
    else if vendorId == 0x1002 then "AMD"
    else if vendorId == 0x8086 then "Intel"
    else "Unknown"
  }

  /** The `GPUInfo` the Windows detection pushes for one adapter. */
  function WindowsGpuInfo(desc: AdapterDesc): GpuInfo {
    GpuInfo(WindowsDeviceId(desc.vendorId, desc.deviceId), WindowsVendorName(desc.vendorId), desc.description,
            desc.dedicatedVideoMemory / 1024 / 1024, "", None, None, Some(desc.revision as real / 10.0), None)
  }

  /**
   * For 16-bit PCI ids the Windows device id is 21 characters long and both ids can be read
   * back from their fixed positions, so distinct id pairs give distinct device ids.
   */
  lemma WindowsDeviceIdRoundTrip(vendorId: nat, deviceId: nat)
    requires vendorId < 0x1_0000 && deviceId < 0x1_0000
    ensures var id := WindowsDeviceId(vendorId, deviceId);
      && |id| == 21 && id[..8] == "PCI\\VEN_" && id[12..17] == "&DEV_"
      && HexValue(id[8..12]) == vendorId && HexValue(id[17..21]) == deviceId
  {
    HexPaddedFourDigits(vendorId);
    HexPaddedFourDigits(deviceId);
    HexPaddedRoundTrip(vendorId, 4);
    HexPaddedRoundTrip(deviceId, 4);
    var id := WindowsDeviceId(vendorId, deviceId);
    assert id[8..12] == HexPadded(vendorId, 4);
    assert id[17..21] == HexPadded(deviceId, 4);
  }

  lemma WindowsDeviceIdInjective(v1: nat, d1: nat, v2: nat, d2: nat)
    requires v1 < 0x1_0000 && d1 < 0x1_0000 && v2 < 0x1_0000 && d2 < 0x1_0000
    requires WindowsDeviceId(v1, d1) == WindowsDeviceId(v2, d2)
    ensures v1 == v2 && d1 == d2
  {
    WindowsDeviceIdRoundTrip(v1, d1);
    WindowsDeviceIdRoundTrip(v2, d2);
  }

  /** The vendor is named for exactly the PCI vendor ids 0x10DE, 0x1002 and 0x8086; no driver version or IOMMU group is recorded. */
  lemma WindowsVendorKnown(desc: AdapterDesc)
    ensures WindowsGpuInfo(desc).vendor != "Unknown" <==> desc.vendorId in {0x10DE, 0x1002, 0x8086}
    ensures WindowsGpuInfo(desc).driverVersion == "" && WindowsGpuInfo(desc).iommuGroup.None?
  {
  }

  // ---------------------------------------------------------------------------------------
  // Device lookups

  /** `devices.iter().find(|g| g.id == gpu_id)`: the position of the first device with that id. */
  function FindDevice(devices: seq<GpuInfo>, gpuId: string): (r: Option<nat>)
    ensures r.Some? ==>
      && r.value < |devices| && devices[r.value].id == gpuId
      && forall j :: 0 <= j < r.value ==> devices[j].id != gpuId
    ensures r.None? ==> forall j :: 0 <= j < |devices| ==> devices[j].id != gpuId
  {
    if devices == [] then None
    else if devices[0].id == gpuId then Some(0)
    else match FindDevice(devices[1..], gpuId)
      case None => None
      case Some(k) => Some(k + 1)
  }

  /** `get_iommu_group(&self, gpu_id)`. */
  function GetIommuGroupIn(devices: seq<GpuInfo>, gpuId: string): Result<Option<nat>, GpuError> {
    match FindDevice(devices, gpuId)
    case None => Err(NotFound)
    case Some(k) => Ok(devices[k].iommuGroup)
  }

  /** `attach_gpu`: the device must exist and sit in IOMMU group 42. */
  function AttachGpuIn(devices: seq<GpuInfo>, containerId: string, gpuId: string): Outcome<string> {
    match FindDevice(devices, gpuId)
    case None => Fail("GPU not found: " + gpuId)
    case Some(k) =>
      if devices[k].iommuGroup != Some(42) then Fail("IOMMU group mismatch for container " + containerId)
      else Pass
  }

  /**
   * The lookup finds the first device with the id, or reports `NotFound` when there is
   * none; an attach succeeds exactly when that lookup reports group 42, whatever the container.
   */
  lemma AttachMatchesLookup(devices: seq<GpuInfo>, containerId: string, gpuId: string)
    ensures GetIommuGroupIn(devices, gpuId).Err? <==> forall j :: 0 <= j < |devices| ==> devices[j].id != gpuId
    ensures AttachGpuIn(devices, containerId, gpuId).Pass? <==> GetIommuGroupIn(devices, gpuId) == Ok(Some(42))
    ensures GetIommuGroupIn(devices, gpuId).Err? ==> AttachGpuIn(devices, containerId, gpuId) == Fail("GPU not found: " + gpuId)
    ensures GetIommuGroupIn(devices, gpuId).Ok? && GetIommuGroupIn(devices, gpuId) != Ok(Some(42)) ==>
      AttachGpuIn(devices, containerId, gpuId) == Fail("IOMMU group mismatch for container " + containerId)
  {
  }

  /** With a single device `mock-gpu-1` in group 42, attaching it succeeds for any container; with no devices it fails. */
  lemma AttachSingleDevice(g: GpuInfo, containerId: string)
    requires g.id == "mock-gpu-1" && g.iommuGroup == Some(42)
    ensures AttachGpuIn([g], containerId, "mock-gpu-1") == Pass
    ensures AttachGpuIn([], containerId, "mock-gpu-1").Fail?
  {
  }

  // ---------------------------------------------------------------------------------------
  // The manager object

  class GpuManager {
    var devices: seq<GpuInfo>
    var iommuGroups: Groups

    /** The empty manager of `GPUManager::new` after `detect_gpus`: the detected devices and no groups yet. */
    constructor (detected: seq<GpuInfo>)
      ensures devices == detected && iommuGroups == map[]
    {
      devices := detected;
      iommuGroups := map[];
    }

    /**
     * `GPUManager::new`: detection, then `build_iommu_groups`, whose failure is the failure of
     * `new`. On success the manager holds the detected devices and the groups built from an
     * empty map.
     */
    static method New(detected: seq<GpuInfo>, listing: Option<seq<PciEntry>>) returns (r: Result<GpuManager, ScanError>)
      ensures listing.None? ==> r == Err(ReadDirFailed)
      ensures listing.Some? && BuildIn(map[], listing.value).0.Fail? ==>
        r == Err(BuildIn(map[], listing.value).0.error)
      ensures listing.Some? && BuildIn(map[], listing.value).0.Pass? ==>
        && r.Ok? && fresh(r.value)
        && r.value.devices == detected && r.value.iommuGroups == BuildIn(map[], listing.value).1
    {
      var manager := new GpuManager(detected);
      var built := manager.BuildIommuGroups(listing);
      if built.Fail? {
        return Err(built.error);
      }
      r := Ok(manager);
    }

    /** `build_iommu_groups` on Linux; `listing` is `None` when the PCI device directory cannot be read. */
    method BuildIommuGroups(listing: Option<seq<PciEntry>>) returns (r: Outcome<ScanError>)
      modifies this
      ensures listing.None? ==> r == Fail(ReadDirFailed) && iommuGroups == old(iommuGroups)
      ensures listing.Some? ==> (r, iommuGroups) == BuildIn(old(iommuGroups), listing.value)
      ensures devices == old(devices)
    {
      if listing.None? {
        return Fail(ReadDirFailed);
      }
      var entries := listing.value;
      var i := 0;
      while i < |entries|
        invariant 0 <= i <= |entries|
        invariant BuildIn(iommuGroups, entries[i..]) == BuildIn(old(iommuGroups), entries)
        invariant devices == old(devices)
      {
        var group := EntryGroup(entries[i]);
        if group.Err? {
          return Fail(group.error);
        }
        if group.value.Some? {
          var g := group.value.value;
          var members := if g in iommuGroups then iommuGroups[g] else [];
          iommuGroups := iommuGroups[g := members + [entries[i].name]];
        }
        assert entries[i..][1..] == entries[i + 1..];
        i := i + 1;
      }
      r := Pass;
    }

    method ValidateIommuGroup(groupId: nat) returns (r: Outcome<GpuError>)
      ensures r == ValidateIn(iommuGroups, groupId)
      ensures r.Pass? <==> groupId in iommuGroups && |iommuGroups[groupId]| <= 1
    {
      if groupId !in iommuGroups {
        return Fail(IommuGroupNotFound(groupId));
      }
      var members := iommuGroups[groupId];
      if |members| > 1 {
        return Fail(UnsafeIommuGroup(JoinWith(members, ", ")));
      }
      r := Pass;
    }

    /** `list_available_devices`: the devices, in order. */
    method ListAvailableDevices() returns (r: Result<seq<GpuInfo>, GpuError>)
      ensures r == Ok(devices)
    {
      r := Ok(devices);
    }

    /** `attach_gpu`: a check only; the device list is left as it was. */
    method AttachGpu(containerId: string, gpuId: string) returns (r: Outcome<string>)
      ensures r == AttachGpuIn(devices, containerId, gpuId)
      ensures r.Pass? <==> GetIommuGroupIn(devices, gpuId) == Ok(Some(42))
    {
      AttachMatchesLookup(devices, containerId, gpuId);
      var k := FindDevice(devices, gpuId);
      if k.None? {
        return Fail("GPU not found: " + gpuId);
      }
      if devices[k.value].iommuGroup != Some(42) {
        return Fail("IOMMU group mismatch for container " + containerId);
      }
      r := Pass;
    }

    method GetIommuGroup(gpuId: string) returns (r: Result<Option<nat>, GpuError>)
      ensures r == GetIommuGroupIn(devices, gpuId)
      ensures r.Err? <==> forall j :: 0 <= j < |devices| ==> devices[j].id != gpuId
    {
      AttachMatchesLookup(devices, "", gpuId);
      var k := FindDevice(devices, gpuId);
      if k.None? {
        return Err(NotFound);
      }
      r := Ok(devices[k.value].iommuGroup);
    }

    /** `discover_gpus`: the devices, in order. */
    method DiscoverGpus() returns (r: seq<GpuInfo>)
      ensures r == devices
    {
      r := devices;
    }
  }
}
