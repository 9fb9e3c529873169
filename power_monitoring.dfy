/**
 * The power and thermal suite (`NVMePowerMonitoring`): eleven NVMe queries
 * on the device and two system-wide `sensors` queries, one dictionary with
 * mixed-case keys, and the save into `Power_Thermal_Results`.
 */
module PowerMonitoring {
  import opened Strings
  import opened OrderedMap
  import opened Templates
  import opened Executor
  import opened ResultStore

  // ---------------------------------------------------------------------------
  // Builders

  const NvmeTemperature: Cmd := Raw([Text("nvme smart-log "), Device, Text(" | grep temperature")])
  /** `get_nvme_power`: the f-string ends with a space after `'Power'`. */
  const NvmePower: Cmd := Raw([Text("nvme smart-log "), Device, Text(" | grep 'Power' ")])
  const PowerOnHours: Cmd := Raw([Text("nvme smart-log "), Device, Text(" | grep 'Power_On_Hours'")])
  const PowerCycles: Cmd := Raw([Text("nvme smart-log "), Device, Text(" | grep 'Power_Cycles'")])
  const SmartctlTemperature: Cmd := Raw([Text("smartctl -a "), Device, Text(" | grep Temperature_Celsius")])
  const SmartctlPowerOn: Cmd := Raw([Text("smartctl -a "), Device, Text(" | grep Power_On_Hours")])
  const ThermalThrottling: Cmd := Raw([Text("nvme smart-log "), Device, Text(" | grep 'Thermal Throttling'")])
  const DeviceHealth: Cmd := Raw([Text("nvme smart-log "), Device, Text(" | grep 'health'")])
  const NvmeFirmwareVersion: Cmd := Raw([Text("nvme id-ctrl "), Device, Text(" | grep 'frimware_version'")])
  const OperatingStatus: Cmd := Raw([Text("nvme smart-log "), Device, Text(" | grep 'Operating Status'")])
  const NvmePowerState: Cmd := Raw([Text("nvme id-ctrl "), Device, Text(" | grep 'Power State'")])
  /** The lm-sensors queries are system-wide: no device. */
  const SystemTemperature: Cmd := Raw(Word("sensors"))
  const SystemFanSpeed: Cmd := Raw(Word("sensors | grep 'fan'"))

  /** `run_all_power_thermal_tests`: eleven NVMe checks, then the two system-wide ones, in source order. */
  const PowerThermalChecks: seq<Check> := [
    Check("NVMe_Temperature", NvmeTemperature),
    Check("NVMe_Power_Consumption", NvmePower),
    Check("Power_On_Hours", PowerOnHours),
    Check("Power_Cycles", PowerCycles),
    Check("SMARTCTL_Temperature", SmartctlTemperature),
    Check("SMARTCTL_Power_On_Hours", SmartctlPowerOn),
    Check("Thermal_Throttling", ThermalThrottling),
    Check("Device_Health", DeviceHealth),
    Check("NVMe_Firmware_Version", NvmeFirmwareVersion),
    Check("Operating_Status", OperatingStatus),
    Check("NVMe_Power_State", NvmePowerState),
    Check("System_Temperature", SystemTemperature),
    Check("System_Fan_Speed", SystemFanSpeed)
  ]

  const PowerThermalKeys: seq<string> := [
    "NVMe_Temperature", "NVMe_Power_Consumption", "Power_On_Hours", "Power_Cycles",
    "SMARTCTL_Temperature", "SMARTCTL_Power_On_Hours", "Thermal_Throttling", "Device_Health",
    "NVMe_Firmware_Version", "Operating_Status", "NVMe_Power_State", "System_Temperature",
    "System_Fan_Speed"]

  /** The file stems the naming rule gives the keys. */
  const PowerThermalStems: seq<string> := [
    "nvme_temperature", "nvme_power_consumption", "power_on_hours", "power_cycles",
    "smartctl_temperature", "smartctl_power_on_hours", "thermal_throttling", "device_health",
    "nvme_firmware_version", "operating_status", "nvme_power_state", "system_temperature",
    "system_fan_speed"]

  const PowerThermalDir: string := "Power_Thermal_Results"

  /** `NVMePowerMonitoring`: one device, the sudo password and one dictionary (`power_thermal_results`). */
  class NVMePowerMonitoring {
    const device: string
    const sudoPassword: string
    var powerThermalResults: Results

    constructor (device: string, sudoPassword: string)
      ensures this.device == device && this.sudoPassword == sudoPassword && powerThermalResults == []
    {
      this.device := device;
      this.sudoPassword := sudoPassword;
      powerThermalResults := [];
    }

    /** `run_all_power_thermal_tests`: the thirteen checks, in order, into `power_thermal_results`. */
    method RunAllPowerThermalTests(sh: Shell)
      modifies this, sh
      ensures sh.log == old(sh.log) + CommandLines(Plain, sudoPassword, device, PowerThermalChecks)
      ensures powerThermalResults == AssignAll(old(powerThermalResults), CheckKeys(PowerThermalChecks),
                                               Outputs(sh.respond, |old(sh.log)|, Plain, sudoPassword, device, PowerThermalChecks))
    {
      powerThermalResults := RunChecks(sh, Plain, sudoPassword, device, powerThermalResults, PowerThermalChecks);
    }

    /** `save_results(base)`: the directory, then one file per entry. */
    method SaveResults(fs: FileSystem, base: string)
      modifies fs
      ensures fs.dirs == old(fs.dirs) + {PathJoin(base, PowerThermalDir)}
      ensures fs.files == WriteAll(old(fs.files), PathJoin(base, PowerThermalDir), powerThermalResults, Bare)
      ensures fs.writes == old(fs.writes) + Paths(PathJoin(base, PowerThermalDir), powerThermalResults)
    {
      fs.MakeDirs(PathJoin(base, PowerThermalDir));
      WriteResults(fs, PathJoin(base, PowerThermalDir), powerThermalResults, Bare);
    }
  }

  // ---------------------------------------------------------------------------
  // Properties

  lemma PowerThermalTableKeys()
    ensures CheckKeys(PowerThermalChecks) == PowerThermalKeys
  {
  }

  /** Thirteen keys, pairwise distinct. */
  lemma PowerThermalKeysDistinct()
    ensures |PowerThermalKeys| == 13 && Distinct(PowerThermalKeys)
  {
  }

  /** The first eleven checks query the device; the last two, the lm-sensors ones, do not. */
  lemma DeviceOnlyInNvmeChecks()
    ensures |PowerThermalChecks| == 13
    ensures forall i :: 0 <= i < 13 ==> (UsesDevice(PowerThermalChecks[i].cmd) <==> i < 11)
  {
    assert !UsesDevice(SystemTemperature) by {
      assert Pieces(SystemTemperature) == [Text("sensors")];
    }
    assert !UsesDevice(SystemFanSpeed) by {
      assert Pieces(SystemFanSpeed) == [Text("sensors | grep 'fan'")];
    }
  }

  /** The system-wide lines are the same whichever device was selected. */
  lemma SystemLinesIgnoreDevice(password: string, d1: string, d2: string)
    ensures forall i :: 11 <= i < 13 ==>
      CommandLines(Plain, password, d1, PowerThermalChecks)[i] == CommandLines(Plain, password, d2, PowerThermalChecks)[i]
  {
    DeviceOnlyInNvmeChecks();
    RenderDevice(SystemTemperature, d1, d2);
    RenderDevice(SystemFanSpeed, d1, d2);
  }

  /** `get_nvme_power` hands the shell a line that ends with the space after `'Power'`. */
  lemma NvmePowerTrailingSpace(password: string, device: string)
    ensures var line := CommandLines(Plain, password, device, PowerThermalChecks)[1];
            line == CommandLine(Plain, password, "nvme smart-log " + device + " | grep 'Power' ")
            && line[|line| - 1] == ' '
  {
    assert PowerThermalChecks[1].cmd == Raw([Text("nvme smart-log "), Device, Text(" | grep 'Power' ")]);
    RenderAround("nvme smart-log ", " | grep 'Power' ", device);
  }

  /** The naming rule lowers the keys' capitals: each file is the lower-case key plus `.txt`, and no two share a file. */
  lemma PowerThermalFileNames()
    ensures forall i :: 0 <= i < |PowerThermalKeys| ==> FileName(PowerThermalKeys[i]) == PowerThermalStems[i] + ".txt"
    ensures Distinct(FileNames(PowerThermalKeys))
  {
    StemsFrom0();
    StemsFrom2();
    StemsFrom4();
    StemsFrom6();
    StemsFrom8();
    StemsFrom10();
    StemsFrom12();
    StemsDistinct();
    StemsFileNamesDistinct(PowerThermalKeys, PowerThermalStems);
  }

  lemma StemsDistinct()
    ensures |PowerThermalStems| == 13 && Distinct(PowerThermalStems)
  {
  }

  // The stems two keys at a time, from the key at the index in the name on: one
  // lemma per slice keeps each proof within the solver's budget.

  lemma StemsFrom0()
    ensures forall i :: 0 <= i < 2 ==> FileStem(PowerThermalKeys[i]) == PowerThermalStems[i]
  {
    FileStemIs("NVMe_Temperature", "nvme_temperature");
    FileStemIs("NVMe_Power_Consumption", "nvme_power_consumption");
  }

  lemma StemsFrom2()
    ensures forall i :: 2 <= i < 4 ==> FileStem(PowerThermalKeys[i]) == PowerThermalStems[i]
  {
    FileStemIs("Power_On_Hours", "power_on_hours");
    FileStemIs("Power_Cycles", "power_cycles");
  }

  lemma StemsFrom4()
    ensures forall i :: 4 <= i < 6 ==> FileStem(PowerThermalKeys[i]) == PowerThermalStems[i]
  {
    FileStemIs("SMARTCTL_Temperature", "smartctl_temperature");
    FileStemIs("SMARTCTL_Power_On_Hours", "smartctl_power_on_hours");
  }

  lemma StemsFrom6()
    ensures forall i :: 6 <= i < 8 ==> FileStem(PowerThermalKeys[i]) == PowerThermalStems[i]
  {
    FileStemIs("Thermal_Throttling", "thermal_throttling");
    FileStemIs("Device_Health", "device_health");
  }

  lemma StemsFrom8()
    ensures forall i :: 8 <= i < 10 ==> FileStem(PowerThermalKeys[i]) == PowerThermalStems[i]
  {
    FileStemIs("NVMe_Firmware_Version", "nvme_firmware_version");
    FileStemIs("Operating_Status", "operating_status");
  }

  lemma StemsFrom10()
    ensures forall i :: 10 <= i < 12 ==> FileStem(PowerThermalKeys[i]) == PowerThermalStems[i]
  {
    FileStemIs("NVMe_Power_State", "nvme_power_state");
    FileStemIs("System_Temperature", "system_temperature");
  }

  lemma StemsFrom12()
    ensures forall i :: 12 <= i < 13 ==> FileStem(PowerThermalKeys[i]) == PowerThermalStems[i]
  {
    FileStemIs("System_Fan_Speed", "system_fan_speed");
  }

  /** After `save_results` every entry, one file per key, can be read back from its own file. */
  lemma SaveReadsBack(files: map<string, string>, base: string, results: Results)
    requires Keys(results) == PowerThermalKeys
    ensures |Paths(PathJoin(base, PowerThermalDir), results)| == 13
    ensures SavedIn(WriteAll(files, PathJoin(base, PowerThermalDir), results, Bare), PathJoin(base, PowerThermalDir), results, Bare)
  {
    PowerThermalFileNames();
    WriteAllReadsBack(files, PathJoin(base, PowerThermalDir), results, Bare);
  }
}
