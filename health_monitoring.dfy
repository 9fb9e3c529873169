/**
 * The SMART and NVMe health suite (`SSDValidation`): the smartctl and
 * nvme-cli command builders, the two result dictionaries the runners fill,
 * and the save into the `smartctl` and `nvme-cli` sub-directories.
 */
module HealthMonitoring {
  import opened Strings
  import opened OrderedMap
  import opened Templates
  import opened Executor
  import opened ResultStore

  // ---------------------------------------------------------------------------
  // smartctl builders: each is `run_command` of its template

  const SmartOverallHealth: Cmd := Raw([Text("smartctl -H "), Device])
  const SmartDeviceInfo: Cmd := Raw([Text("smartctl -i "), Device])
  const SmartAttributes: Cmd := Raw([Text("smartctl -A "), Device])
  const SmartThresholds: Cmd := Raw([Text("smartctl -T "), Device])
  const SmartLongSelftest: Cmd := Raw([Text("smartctl -t long "), Device])
  const SmartErrorLog: Cmd := Raw([Text("smartctl -l error "), Device])
  const SmartSelftestLog: Cmd := Raw([Text("smartctl -l selftest "), Device])
  const SmartMaximumDataTransferSize: Cmd := Raw([Text("smartctl -a "), Device, Text(" | grep 'Maximum Data Transfer Size'")])
  const SmartVersionModelSerial: Cmd := Raw([Text("smartctl -i "), Device, Text(" | grep -E 'NVMe Version|Model Number|Serial Number'")])
  const SmartMediaDataIntegrity: Cmd := Raw([Text("smartctl -a "), Device, Text(" | grep 'Media and Data Integrity Errorsgrep'")])
  const SmartControllerBusyTime: Cmd := Raw([Text("smartctl -a "), Device, Text(" | grep 'Controller Busy Time'")])

  // ---------------------------------------------------------------------------
  // nvme-cli builders

  const NvmeDeviceInfo: Cmd := Raw([Text("nvme id-ctrl "), Device])
  const NvmeHealthLog: Cmd := Raw([Text("nvme smart-log "), Device])
  const NvmeErrorLog: Cmd := Raw([Text("nvme error-log "), Device])
  const NvmeGetFeatures: Cmd := Raw([Text("nvme get-feature "), Device, Text(" -f 1")])
  const NvmeNamespaceInfo: Cmd := Raw([Text("nvme list-ns "), Device])
  const NvmeTemperature: Cmd := Raw([Text("nvme temperature "), Device])
  const NvmePowerCycles: Cmd := Raw([Text("nvme power-cycles "), Device])
  const NvmeFirmwareVersion: Cmd := Raw([Text("nvme id-ctrl "), Device, Text(" | grep 'fr'")])
  const NvmePowerOnHours: Cmd := Raw([Text("nvme smart-log "), Device, Text(" | grep 'power_on_hours'")])
  const NvmeDataWritten: Cmd := Raw([Text("nvme smart-log "), Device, Text(" | grep 'Data Units Written'")])
  const NvmeDataRead: Cmd := Raw([Text("nvme smart-log "), Device, Text(" | grep 'Data Units Read'")])
  const NvmePercentageUsed: Cmd := Raw([Text("nvme smart-log "), Device, Text(" | grep 'percentage_used'")])
  const NvmeUnsafeShutdowns: Cmd := Raw([Text("nvme smart-log "), Device, Text(" | grep 'unsafe_shutdowns'")])
  const NvmeTemperatureSensors: Cmd := Raw([Text("nvme "), Device, Text(" | grep 'Temperature Sensor'")])
  const NvmeCriticalWarning: Cmd := Raw([Text("nvme smart-log "), Device, Text(" | grep -i 'critical_warning'")])
  /** Builders no runner calls. */
  const NvmeAvailableSpare: Cmd := Raw([Text("nvme smart-log "), Device, Text(" | grep -i 'available_spare'")])
  const NvmeAvailableSpareThreshold: Cmd := Raw([Text("nvme smart-log "), Device, Text(" | grep -i 'available_spare_threshold'")])
  const NvmeContinuousTemperatureMonitor: Cmd := Raw([Text("watch -n 1 nvme smart-log "), Device, Text(" | grep 'temperature'")])

  // ---------------------------------------------------------------------------
  // The runners' declared checks, in source order

  const SmartctlChecks: seq<Check> := [
    Check("Overall Health", SmartOverallHealth),
    Check("Device Info", SmartDeviceInfo),
    Check("SMART Attributes", SmartAttributes),
    Check("Error Log", SmartErrorLog),
    Check("Self-Test Log", SmartSelftestLog),
    Check("Thresholds Log", SmartThresholds),
    Check("Long_Self-Test Log", SmartLongSelftest),
    Check("Maximum_Data_Transfer", SmartMaximumDataTransferSize),
    Check("NVMe_Device_Inforamation", SmartVersionModelSerial),
    Check("Media_Data_Integrity", SmartMediaDataIntegrity),
    Check("Controller_BusyTime_Info", SmartControllerBusyTime)
  ]

  const NvmecliChecks: seq<Check> := [
    Check("Device Info", NvmeDeviceInfo),
    Check("Health Log", NvmeHealthLog),
    Check("Error Log", NvmeErrorLog),
    Check("Get Features", NvmeGetFeatures),
    Check("Namespace Info", NvmeNamespaceInfo),
    Check("Temperature Info", NvmeTemperature),
    Check("Power-Cycles Info", NvmePowerCycles),
    Check("Firmware_Version_Info", NvmeFirmwareVersion),
    Check("Power_On_Hours_Info", NvmePowerOnHours),
    Check("Data_Written_Info", NvmeDataWritten),
    Check("Data_Read_Info", NvmeDataRead),
    Check("Percentage_Used_Info", NvmePercentageUsed),
    Check("Unsafe_Shut_Down_Info", NvmeUnsafeShutdowns),
    Check("Sensors_Temperature_Info", NvmeTemperatureSensors),
    Check("Critical_Warnings_Info", NvmeCriticalWarning)
  ]

  const SmartctlKeys: seq<string> := [
    "Overall Health", "Device Info", "SMART Attributes", "Error Log", "Self-Test Log", "Thresholds Log",
    "Long_Self-Test Log", "Maximum_Data_Transfer", "NVMe_Device_Inforamation", "Media_Data_Integrity",
    "Controller_BusyTime_Info"]

  const NvmecliKeys: seq<string> := [
    "Device Info", "Health Log", "Error Log", "Get Features", "Namespace Info", "Temperature Info",
    "Power-Cycles Info", "Firmware_Version_Info", "Power_On_Hours_Info", "Data_Written_Info", "Data_Read_Info",
    "Percentage_Used_Info", "Unsafe_Shut_Down_Info", "Sensors_Temperature_Info", "Critical_Warnings_Info"]

  const SmartctlDir: string := "smartctl"
  const NvmecliDir: string := "nvme-cli"

  /** `SSDValidation`: one device, the sudo password, and a result dictionary per tool. */
  class SSDValidation {
    const device: string
    const sudoPassword: string
    var smartctlResults: Results
    var nvmecliResults: Results

    constructor (device: string, sudoPassword: string)
      ensures this.device == device && this.sudoPassword == sudoPassword
      ensures smartctlResults == [] && nvmecliResults == []
    {
      this.device := device;
      this.sudoPassword := sudoPassword;
      smartctlResults := [];
      nvmecliResults := [];
    }

    /** `run_all_smartctl_tests`: the eleven smartctl checks, in order, into `smartctl_results`. */
    method RunAllSmartctlTests(sh: Shell)
      modifies this, sh
      ensures sh.log == old(sh.log) + CommandLines(Plain, sudoPassword, device, SmartctlChecks)
      ensures smartctlResults == AssignAll(old(smartctlResults), CheckKeys(SmartctlChecks),
                                           Outputs(sh.respond, |old(sh.log)|, Plain, sudoPassword, device, SmartctlChecks))
      ensures nvmecliResults == old(nvmecliResults)
    {
      smartctlResults := RunChecks(sh, Plain, sudoPassword, device, smartctlResults, SmartctlChecks);
    }

    /** `run_all_nvmecli_tests`: the fifteen nvme-cli checks, in order, into `nvmecli_results`. */
    method RunAllNvmecliTests(sh: Shell)
      modifies this, sh
      ensures sh.log == old(sh.log) + CommandLines(Plain, sudoPassword, device, NvmecliChecks)
      ensures nvmecliResults == AssignAll(old(nvmecliResults), CheckKeys(NvmecliChecks),
                                          Outputs(sh.respond, |old(sh.log)|, Plain, sudoPassword, device, NvmecliChecks))
      ensures smartctlResults == old(smartctlResults)
    {
      nvmecliResults := RunChecks(sh, Plain, sudoPassword, device, nvmecliResults, NvmecliChecks);
    }

    /** `save_results(base)`: both directories first, then the smartctl files, then the nvme-cli files. */
    method SaveResults(fs: FileSystem, base: string)
      modifies fs
      ensures fs.dirs == old(fs.dirs) + {PathJoin(base, SmartctlDir)} + {PathJoin(base, NvmecliDir)}
      ensures fs.files == WriteAll(WriteAll(old(fs.files), PathJoin(base, SmartctlDir), smartctlResults, Bare),
                                   PathJoin(base, NvmecliDir), nvmecliResults, Bare)
      ensures fs.writes == old(fs.writes) + Paths(PathJoin(base, SmartctlDir), smartctlResults)
                                          + Paths(PathJoin(base, NvmecliDir), nvmecliResults)
    {
      fs.MakeDirs(PathJoin(base, SmartctlDir));
      fs.MakeDirs(PathJoin(base, NvmecliDir));
      WriteResults(fs, PathJoin(base, SmartctlDir), smartctlResults, Bare);
      WriteResults(fs, PathJoin(base, NvmecliDir), nvmecliResults, Bare);
    }
  }

  // ---------------------------------------------------------------------------
  // Properties

  /** Every smartctl and nvme-cli check embeds the device path. */
  lemma ChecksUseDevice()
    ensures forall i :: 0 <= i < |SmartctlChecks| ==> UsesDevice(SmartctlChecks[i].cmd)
    ensures forall i :: 0 <= i < |NvmecliChecks| ==> UsesDevice(NvmecliChecks[i].cmd)
  {
  }

  /** `smart_overall_health` on a device runs exactly `echo pw | sudo -S smartctl -H <device>`. */
  lemma OverallHealthLine(password: string, device: string)
    ensures CommandLines(Plain, password, device, SmartctlChecks)[0]
         == "echo " + password + " | sudo -S smartctl -H " + device
  {
    assert SmartctlChecks[0].cmd == Raw([Text("smartctl -H "), Device]);
    assert [Text("smartctl -H "), Device][1..] == [Device];
    assert Fill([Device], device) == device + [];
    assert Render(SmartctlChecks[0].cmd, device) == "smartctl -H " + device;
    assert "echo " + password + " | sudo -S " + ("smartctl -H " + device)
        == "echo " + password + " | sudo -S smartctl -H " + device;
  }

  lemma SmartctlTableKeys()
    ensures CheckKeys(SmartctlChecks) == SmartctlKeys
  {
  }

  lemma NvmecliTableKeys()
    ensures CheckKeys(NvmecliChecks) == NvmecliKeys
  {
  }

  /** Eleven smartctl keys, pairwise distinct. */
  lemma SmartctlKeysDistinct()
    ensures |SmartctlKeys| == 11 && Distinct(SmartctlKeys)
  {
  }

  /** Fifteen nvme-cli keys, pairwise distinct. */
  lemma NvmecliKeysDistinct()
    ensures |NvmecliKeys| == 15 && Distinct(NvmecliKeys)
  {
  }

  /**
   * After one `run_all_smartctl_tests` on a fresh object the dictionary holds
   * exactly the eleven keys, in declared order, each with its own check's
   * text; running it again keeps that key sequence.
   */
  lemma SmartctlRunKeys(texts: seq<string>, again: seq<string>)
    requires |texts| == |again| == |SmartctlChecks|
    ensures Keys(AssignAll([], CheckKeys(SmartctlChecks), texts)) == CheckKeys(SmartctlChecks)
    ensures forall i :: 0 <= i < |SmartctlChecks| ==>
      Lookup(AssignAll([], CheckKeys(SmartctlChecks), texts), SmartctlChecks[i].key) == Some(texts[i])
    ensures Keys(AssignAll(AssignAll([], CheckKeys(SmartctlChecks), texts), CheckKeys(SmartctlChecks), again))
         == CheckKeys(SmartctlChecks)
  {
    SmartctlTableKeys();
    SmartctlKeysDistinct();
    RunRecordsEveryCheck(SmartctlChecks, texts);
    RerunKeepsKeys([], CheckKeys(SmartctlChecks), texts, again);
  }

  /** The same for `run_all_nvmecli_tests` and its fifteen keys. */
  lemma NvmecliRunKeys(texts: seq<string>, again: seq<string>)
    requires |texts| == |again| == |NvmecliChecks|
    ensures Keys(AssignAll([], CheckKeys(NvmecliChecks), texts)) == CheckKeys(NvmecliChecks)
    ensures forall i :: 0 <= i < |NvmecliChecks| ==>
      Lookup(AssignAll([], CheckKeys(NvmecliChecks), texts), NvmecliChecks[i].key) == Some(texts[i])
    ensures Keys(AssignAll(AssignAll([], CheckKeys(NvmecliChecks), texts), CheckKeys(NvmecliChecks), again))
         == CheckKeys(NvmecliChecks)
  {
    NvmecliTableKeys();
    NvmecliKeysDistinct();
    RunRecordsEveryCheck(NvmecliChecks, texts);
    RerunKeepsKeys([], CheckKeys(NvmecliChecks), texts, again);
  }

  /**
   * Within the smartctl dictionary no two keys share a file name, so every
   * check of a save gets a file of its own.
   */
  lemma SmartctlFileNamesDistinct()
    ensures Distinct(FileNames(SmartctlKeys))
  {
    FileNamesDistinctIf(SmartctlKeys);
  }

  /** The same for the nvme-cli dictionary. */
  lemma NvmecliFileNamesDistinct()
    ensures Distinct(FileNames(NvmecliKeys))
  {
    FileNamesDistinctIf(NvmecliKeys);
  }

  /**
   * `Device Info` and `Error Log` are keys of both dictionaries, yet after
   * `save_results` every entry of both can be read back from its own file:
   * the two dictionaries go to different sub-directories.
   */
  lemma SaveKeepsBothDictionaries(files: map<string, string>, base: string, smartctl: Results, nvmecli: Results)
    requires Keys(smartctl) == CheckKeys(SmartctlChecks) && Keys(nvmecli) == CheckKeys(NvmecliChecks)
    ensures var out := WriteAll(WriteAll(files, PathJoin(base, SmartctlDir), smartctl, Bare), PathJoin(base, NvmecliDir), nvmecli, Bare);
            SavedIn(out, PathJoin(base, SmartctlDir), smartctl, Bare) && SavedIn(out, PathJoin(base, NvmecliDir), nvmecli, Bare)
  {
    SmartctlTableKeys();
    NvmecliTableKeys();
    SmartctlFileNamesDistinct();
    NvmecliFileNamesDistinct();
    var mid := WriteAll(files, PathJoin(base, SmartctlDir), smartctl, Bare);
    WriteAllReadsBack(files, PathJoin(base, SmartctlDir), smartctl, Bare);
    SavedInOtherSubdir(mid, base, SmartctlDir, smartctl, NvmecliDir, nvmecli, Bare, Bare);
    WriteAllReadsBack(mid, PathJoin(base, NvmecliDir), nvmecli, Bare);
  }

  /** The naming rule on a key with a space: `Self-Test Log`. */
  lemma SelfTestLogFileName()
    ensures FileName("Self-Test Log") == "self-test_log.txt"
  {
  }

  /** The naming rule on a key with capitals: `NVMe_Device_Inforamation`. */
  lemma DeviceInforamationFileName()
    ensures FileName("NVMe_Device_Inforamation") == "nvme_device_inforamation.txt"
  {
  }
}
