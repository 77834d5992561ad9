/** `DeviceCompatibilityChecker`: hard requirements (Android 8.0, 2 GB of RAM, 1 GB
    of free storage) produce issues, soft ones (Android 10, 4 GB of RAM, four CPU
    cores) produce warnings, and a device is compatible exactly when it has no
    issue. Reading the device's specifications from the platform is left out: the
    specifications are a parameter. */
module DeviceCompatibility {
  import opened Ints
  import opened Text

  const MIN_SDK_VERSION: int := 26
  const RECOMMENDED_SDK_VERSION: int := 29
  const MIN_RAM_MB: int := 2048
  const RECOMMENDED_RAM_MB: int := 4096
  const MIN_STORAGE_GB: int := 1
  const MIN_CPU_CORES: int := 4

  const MEBIBYTE: nat := 1024 * 1024
  const GIBIBYTE: nat := 1024 * 1024 * 1024

  datatype DeviceSpecs = DeviceSpecs(androidVersion: string, sdkVersion: int, availableRamMB: int,
                                     totalRamMB: int, availableStorageGB: int, cpuCores: int,
                                     deviceModel: string)

  datatype CompatibilityResult = CompatibilityResult(isCompatible: bool, issues: seq<string>,
                                                     warnings: seq<string>)

  /** One finding of the checker; `Message` gives the text the app shows. */
  datatype Finding =
    | SdkTooOld(androidVersion: string)
    | SdkBelowRecommended(androidVersion: string)
    | RamTooLow(totalRamMB: int)
    | RamBelowRecommended(totalRamMB: int)
    | StorageTooLow(availableStorageGB: int)
    | FewCpuCores(cpuCores: int)

  function Message(f: Finding): string {
    match f
    case SdkTooOld(v) => "Android version too old. Requires Android 8.0 or higher (Current: " + v + ")"
    case SdkBelowRecommended(v) => "Android " + v + " detected. Android 10+ recommended for best performance"
    case RamTooLow(mb) => "Insufficient RAM. Requires at least 2GB (Found: " + IntToString(mb) + "MB)"
    case RamBelowRecommended(mb) =>
      "Low RAM detected (" + IntToString(mb) + "MB). 4GB+ recommended for optimal performance"
    case StorageTooLow(gb) =>
      "Insufficient storage space. Need at least " + IntToString(MIN_STORAGE_GB) + "GB free (Available: "
      + IntToString(gb) + "GB)"
    case FewCpuCores(n) => "Low CPU core count (" + IntToString(n) + " cores). May experience slower performance"
  }

  function Messages(fs: seq<Finding>): (texts: seq<string>)
    ensures |texts| == |fs|
    ensures forall i :: 0 <= i < |fs| ==> texts[i] == Message(fs[i])
  {
    if |fs| == 0 then [] else [Message(fs[0])] + Messages(fs[1..])
  }

  /** The issues the checks raise, in the order they run. */
  function ExpectedIssues(s: DeviceSpecs): seq<Finding> {
    (if s.sdkVersion < MIN_SDK_VERSION then [SdkTooOld(s.androidVersion)] else [])
    + (if s.totalRamMB < MIN_RAM_MB then [RamTooLow(s.totalRamMB)] else [])
    + (if s.availableStorageGB < MIN_STORAGE_GB then [StorageTooLow(s.availableStorageGB)] else [])
  }

  /** The warnings the checks raise, in the order they run. */
  function ExpectedWarnings(s: DeviceSpecs): seq<Finding> {
    (if MIN_SDK_VERSION <= s.sdkVersion < RECOMMENDED_SDK_VERSION then [SdkBelowRecommended(s.androidVersion)] else [])
    + (if MIN_RAM_MB <= s.totalRamMB < RECOMMENDED_RAM_MB then [RamBelowRecommended(s.totalRamMB)] else [])
    + (if s.cpuCores < MIN_CPU_CORES then [FewCpuCores(s.cpuCores)] else [])
  }

  /** The checks of `checkCompatibility`, collecting findings in order. */
  method CollectFindings(s: DeviceSpecs) returns (issues: seq<Finding>, warnings: seq<Finding>)
    ensures issues == ExpectedIssues(s) && warnings == ExpectedWarnings(s)
  {
    issues := [];
    warnings := [];
    if s.sdkVersion < MIN_SDK_VERSION {
      issues := issues + [SdkTooOld(s.androidVersion)];
    } else if s.sdkVersion < RECOMMENDED_SDK_VERSION {
      warnings := warnings + [SdkBelowRecommended(s.androidVersion)];
    }
    if s.totalRamMB < MIN_RAM_MB {
      issues := issues + [RamTooLow(s.totalRamMB)];
    } else if s.totalRamMB < RECOMMENDED_RAM_MB {
      warnings := warnings + [RamBelowRecommended(s.totalRamMB)];
    }
    if s.availableStorageGB < MIN_STORAGE_GB {
      issues := issues + [StorageTooLow(s.availableStorageGB)];
    }
    if s.cpuCores < MIN_CPU_CORES {
      warnings := warnings + [FewCpuCores(s.cpuCores)];
    }
  }

  /** `checkCompatibility`, over the given specifications. */
  method CheckCompatibility(s: DeviceSpecs) returns (r: CompatibilityResult)
    ensures r.issues == Messages(ExpectedIssues(s)) && r.warnings == Messages(ExpectedWarnings(s))
    ensures r.isCompatible <==> |r.issues| == 0
  {
    var issues, warnings := CollectFindings(s);
    r := CompatibilityResult(|issues| == 0, Messages(issues), Messages(warnings));
  }

  /** A device is compatible exactly when it meets the three hard requirements;
      the CPU check never makes a device incompatible. */
  lemma CompatibleIffRequirementsMet(s: DeviceSpecs)
    ensures |ExpectedIssues(s)| == 0 <==>
              s.sdkVersion >= MIN_SDK_VERSION && s.totalRamMB >= MIN_RAM_MB
              && s.availableStorageGB >= MIN_STORAGE_GB
  {
  }

  /** An SDK or RAM shortfall is reported once: as an issue or as a warning, never both. */
  lemma IssueOrWarningNotBoth(s: DeviceSpecs)
    ensures SdkTooOld(s.androidVersion) in ExpectedIssues(s) <==> s.sdkVersion < MIN_SDK_VERSION
    ensures SdkTooOld(s.androidVersion) in ExpectedIssues(s) ==>
              SdkBelowRecommended(s.androidVersion) !in ExpectedWarnings(s)
    ensures RamTooLow(s.totalRamMB) in ExpectedIssues(s) <==> s.totalRamMB < MIN_RAM_MB
    ensures RamTooLow(s.totalRamMB) in ExpectedIssues(s) ==>
              RamBelowRecommended(s.totalRamMB) !in ExpectedWarnings(s)
  {
  }

  /** `memoryInfo.totalMem / (1024 * 1024)`: whole mebibytes, rounded down. */
  function BytesToMB(bytes: nat): (mb: nat)
    ensures mb * MEBIBYTE <= bytes < (mb + 1) * MEBIBYTE
  {
    bytes / MEBIBYTE
  }

  /** `availableBlocksLong * blockSizeLong / (1024 * 1024 * 1024)` with `Long`
      arithmetic: the product wraps before the division. */
  function AvailableStorageGB(blocks: int, blockSize: int): (gb: int)
    ensures 0 <= blocks * blockSize <= INT64_MAX ==>
              gb * GIBIBYTE <= blocks * blockSize < (gb + 1) * GIBIBYTE
  {
    TruncDiv(ToInt64(blocks * blockSize), GIBIBYTE)
  }

  /** A full-range block count overflows the product and reports negative free
      space, which the storage check then reports as an issue. */
  lemma StorageProductWraps()
    ensures AvailableStorageGB(INT64_MAX, 2) < MIN_STORAGE_GB
  {
    assert ToInt64(INT64_MAX * 2) == -2;
  }
}
