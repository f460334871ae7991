/**
 * The two free helpers of the GPU utilities: a vendor-name lookup by PCI vendor id, matched
 * exactly (no trimming, no case folding), and an IOMMU check that always answers yes.
 */
module GpuUtils {
  import opened Wrappers
  import opened Text
  import Device

  const NVIDIA_NAME: string := "NVIDIA (uwu)"
  const AMD_NAME: string := "AMD (owo)"
  const INTEL_NAME: string := "Intel (^_^)"
  /** "Unknown vendor (；一_一)", with a full-width semicolon and two CJK "one" signs. */
  const UNKNOWN_NAME: string := "Unknown vendor (\U{FF1B}\U{4E00}_\U{4E00})"

  /** `get_gpu_vendor_info`. */
  function GetGpuVendorInfo(vendorId: string): string {
    match vendorId
    case "10de" => NVIDIA_NAME
    case "1002" => AMD_NAME
    case "8086" => INTEL_NAME
    case _ => UNKNOWN_NAME
  }

  /** `check_iommu_support`: unconditionally `Ok(true)`. */
  function CheckIommuSupport(): (r: Result<bool, string>)
    ensures r == Ok(true)
  {
    Ok(true)
  }

  /**
   * The three known ids get their names, the names are distinct, and every other string,
   * an upper-case or padded spelling of a known id included, gets the unknown-vendor text.
   */
  lemma VendorInfoCharacterised(vendorId: string)
    ensures vendorId == "10de" <==> GetGpuVendorInfo(vendorId) == NVIDIA_NAME
    ensures vendorId == "1002" <==> GetGpuVendorInfo(vendorId) == AMD_NAME
    ensures vendorId == "8086" <==> GetGpuVendorInfo(vendorId) == INTEL_NAME
    ensures vendorId !in {"10de", "1002", "8086"} <==> GetGpuVendorInfo(vendorId) == UNKNOWN_NAME
  {
  }

  /** Concretely: "10DE", " 10de" and "10de\n" are unknown vendors. */
  lemma VendorInfoIsExact()
    ensures GetGpuVendorInfo("10DE") == UNKNOWN_NAME
    ensures GetGpuVendorInfo(" 10de") == UNKNOWN_NAME
    ensures GetGpuVendorInfo("10de\n") == UNKNOWN_NAME
  {
  }

  /** The three known ids carry no whitespace, so trimming leaves them as they are. */
  lemma KnownIdsUntrimmed(vendorId: string)
    requires vendorId in {"10de", "1002", "8086"}
    ensures Trim(vendorId) == vendorId
  {
    assert forall k :: 0 <= k < |vendorId| ==> !IsWhitespace(vendorId[k]);
    TrimNoWhitespace(vendorId);
  }

  /**
   * Compared with the device whitelist: every id named here passes the whitelist, and a
   * whitelisted id without surrounding whitespace is named here.
   */
  lemma VendorInfoAgreesWithWhitelist(vendorId: string, device: string)
    ensures GetGpuVendorInfo(vendorId) != UNKNOWN_NAME ==> Device.IsGpuDevice(vendorId, device)
    ensures Trim(vendorId) == vendorId && Device.IsGpuDevice(vendorId, device) ==>
      GetGpuVendorInfo(vendorId) != UNKNOWN_NAME
  {
    if vendorId in {"10de", "1002", "8086"} {
      KnownIdsUntrimmed(vendorId);
    } else {
      assert GetGpuVendorInfo(vendorId) == UNKNOWN_NAME;
    }
  }

  /**
   * A padded id passes the whitelist, which trims, although it is an unknown vendor here
   * (see `VendorInfoIsExact`).
   */
  lemma PaddedIdPassesWhitelist(device: string)
    ensures Device.IsGpuDevice(" 10de", device)
  {
    assert " 10de" == " " + "10de" + "";
    Device.IsGpuDevicePadded(" ", "10de", "", device);
  }
}
