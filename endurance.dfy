/**
 * The endurance suite (`EnduranceValidation`): six fio workloads that write
 * to or read from the device itself (`--filename={device}`), five monitoring
 * commands, one dictionary, and the save into `Endurance_Results`.
 */
module Endurance {
  import opened Strings
  import opened OrderedMap
  import opened Templates
  import opened Executor
  import opened ResultStore

  // ---------------------------------------------------------------------------
  // Builders: fixed f-strings around the device path

  const SeqWrite: Cmd := Raw([Text("fio"), Text(" --name=seq_write"), Text(" --filename="), Device,
    Text(" --rw=write"), Text(" --bs=1M"), Text(" --size=1024"), Text(" --numjobs=1"), Text(" --time_based"), Text(" --runtime=10"), Text(" --group_reporting")])
  const RandWrite: Cmd := Raw([Text("fio"), Text(" --name=rand_write"), Text(" --filename="), Device,
    Text(" --rw=randwrite"), Text(" --bs=4k"), Text(" --size=4096"), Text(" --numjobs=4"), Text(" --time_based"), Text(" --runtime=10"), Text(" --group_reporting")])
  const MixedReadWrite: Cmd := Raw([Text("fio"), Text(" --name=mixed_rw"), Text(" --filename="), Device,
    Text(" --rw=randrw"), Text(" --rwmixread=70"), Text(" --bs=4k"), Text(" --size=4096"), Text(" --numjobs=4"), Text(" --time_based"), Text(" --runtime=10"), Text(" --group_reporting")])
  const SeqRead: Cmd := Raw([Text("fio"), Text(" --name=seq_read"), Text(" --filename="), Device,
    Text(" --rw=read"), Text(" --bs=1M"), Text(" --size=1M"), Text(" --numjobs=1"), Text(" --time_based"), Text(" --runtime=10"), Text(" --group_reporting")])
  const RandRead: Cmd := Raw([Text("fio"), Text(" --name=rand_read"), Text(" --filename="), Device,
    Text(" --rw=randread"), Text(" --bs=4k"), Text(" --size=4096"), Text(" --numjobs=4"), Text(" --time_based"), Text(" --runtime=10"), Text(" --group_reporting")])
  const WriteIntegrity: Cmd := Raw([Text("fio"), Text(" --name=write_integrity"), Text(" --filename="), Device,
    Text(" --rw=randwrite"), Text(" --bs=4k"), Text(" --verify=crc32"), Text(" --size=4096"), Text(" --numjobs=4"), Text(" --group_reporting")])
  const TemperatureMonitoring: Cmd := Raw([Text("nvme smart-log "), Device, Text(" | grep -i 'temperature'")])
  /** `run_smart_attributes` and `run_disk_health` share this f-string. */
  const SmartAll: Cmd := Raw([Text("smartctl -a "), Device])
  const NvmeSmartLog: Cmd := Raw([Text("nvme smart-log "), Device])
  const ErrorLog: Cmd := Raw([Text("nvme error-log "), Device])
  const PowerState: Cmd := Raw([Text("nvme power-state "), Device])

  /** `run_all_fio_tests`: the twelve checks, in source order, each under its method's name. */
  const EnduranceChecks: seq<Check> := [
    Check("run_seq_write", SeqWrite),
    Check("run_rand_write", RandWrite),
    Check("run_mixed_rw", MixedReadWrite),
    Check("run_seq_read", SeqRead),
    Check("run_rand_read", RandRead),
    Check("run_write_integrity", WriteIntegrity),
    Check("run_temperature_monitoring", TemperatureMonitoring),
    Check("run_smart_attributes", SmartAll),
    Check("run_disk_health", SmartAll),
    Check("run_nvme_smart_log", NvmeSmartLog),
    Check("run_error_log", ErrorLog),
    Check("run_power_state", PowerState)
  ]

  const EnduranceKeys: seq<string> := [
    "run_seq_write", "run_rand_write", "run_mixed_rw", "run_seq_read", "run_rand_read", "run_write_integrity",
    "run_temperature_monitoring", "run_smart_attributes", "run_disk_health", "run_nvme_smart_log",
    "run_error_log", "run_power_state"]

  const EnduranceDir: string := "Endurance_Results"

  /** `EnduranceValidation`: one device, the sudo password and one dictionary (`fio_results`). */
  class EnduranceValidation {
    const device: string
    const sudoPassword: string
    var fioResults: Results

    constructor (device: string, sudoPassword: string)
      ensures this.device == device && this.sudoPassword == sudoPassword && fioResults == []
    {
      this.device := device;
      this.sudoPassword := sudoPassword;
      fioResults := [];
    }

    /** `run_all_fio_tests`: the twelve checks, in order, into `fio_results`. */
    method RunAllFioTests(sh: Shell)
      modifies this, sh
      ensures sh.log == old(sh.log) + CommandLines(Plain, sudoPassword, device, EnduranceChecks)
      ensures fioResults == AssignAll(old(fioResults), CheckKeys(EnduranceChecks),
                                      Outputs(sh.respond, |old(sh.log)|, Plain, sudoPassword, device, EnduranceChecks))
    {
      fioResults := RunChecks(sh, Plain, sudoPassword, device, fioResults, EnduranceChecks);
    }

    /** `save_results(base)`: the directory, then one file per entry. */
    method SaveResults(fs: FileSystem, base: string)
      modifies fs
      ensures fs.dirs == old(fs.dirs) + {PathJoin(base, EnduranceDir)}
      ensures fs.files == WriteAll(old(fs.files), PathJoin(base, EnduranceDir), fioResults, Bare)
      ensures fs.writes == old(fs.writes) + Paths(PathJoin(base, EnduranceDir), fioResults)
    {
      fs.MakeDirs(PathJoin(base, EnduranceDir));
      WriteResults(fs, PathJoin(base, EnduranceDir), fioResults, Bare);
    }
  }

  // ---------------------------------------------------------------------------
  // Properties

  lemma EnduranceTableKeys()
    ensures CheckKeys(EnduranceChecks) == EnduranceKeys
  {
  }

  /** Twelve keys, pairwise distinct. */
  lemma EnduranceKeysDistinct()
    ensures |EnduranceKeys| == 12 && Distinct(EnduranceKeys)
  {
  }

  /** Every endurance check, the six fio workloads included, runs against the device. */
  lemma EnduranceChecksUseDevice()
    ensures forall i :: 0 <= i < |EnduranceChecks| ==> UsesDevice(EnduranceChecks[i].cmd)
  {
  }

  /**
   * `run_smart_attributes` and `run_disk_health` run the same command line,
   * yet both outputs are kept, under two different keys.
   */
  lemma SmartAttributesTwice(password: string, device: string)
    ensures CommandLines(Plain, password, device, EnduranceChecks)[7] == CommandLines(Plain, password, device, EnduranceChecks)[8]
    ensures EnduranceChecks[7].key != EnduranceChecks[8].key
  {
  }

  /**
   * The keys are already lower-case with no spaces: each file is the key
   * plus `.txt`, and no two entries share a file.
   */
  lemma EnduranceFileNames()
    ensures forall i :: 0 <= i < |EnduranceKeys| ==> FileName(EnduranceKeys[i]) == EnduranceKeys[i] + ".txt"
    ensures Distinct(FileNames(EnduranceKeys))
  {
    EnduranceKeysDistinct();
    KeysCanonical();
    CanonicalFileNamesDistinct(EnduranceKeys);
  }

  // Every key is canonical, checked in groups of three or four: one lemma per
  // group keeps each proof within the solver's budget.
  lemma KeysCanonical()
    ensures forall i :: 0 <= i < |EnduranceKeys| ==> Canonical(EnduranceKeys[i])
  {
    WriteKeysCanonical();
    ReadKeysCanonical();
    SmartKeysCanonical();
    LogKeysCanonical();
  }

  lemma WriteKeysCanonical()
    ensures forall i :: 0 <= i < 3 ==> Canonical(EnduranceKeys[i])
  {
    SnakeCaseCanonical("run_seq_write");
    SnakeCaseCanonical("run_rand_write");
    SnakeCaseCanonical("run_mixed_rw");
  }

  lemma ReadKeysCanonical()
    ensures forall i :: 3 <= i < 6 ==> Canonical(EnduranceKeys[i])
  {
    SnakeCaseCanonical("run_seq_read");
    SnakeCaseCanonical("run_rand_read");
    SnakeCaseCanonical("run_write_integrity");
  }

  lemma SmartKeysCanonical()
    ensures forall i :: 6 <= i < 9 ==> Canonical(EnduranceKeys[i])
  {
    SnakeCaseCanonical("run_temperature_monitoring");
    SnakeCaseCanonical("run_smart_attributes");
    SnakeCaseCanonical("run_disk_health");
  }

  lemma LogKeysCanonical()
    ensures forall i :: 9 <= i < 12 ==> Canonical(EnduranceKeys[i])
  {
    SnakeCaseCanonical("run_nvme_smart_log");
    SnakeCaseCanonical("run_error_log");
    SnakeCaseCanonical("run_power_state");
  }

  /** After `save_results` every entry of the dictionary can be read back from its own file. */
  lemma SaveReadsBack(files: map<string, string>, base: string, results: Results)
    requires Keys(results) == EnduranceKeys
    ensures SavedIn(WriteAll(files, PathJoin(base, EnduranceDir), results, Bare), PathJoin(base, EnduranceDir), results, Bare)
  {
    EnduranceFileNames();
    WriteAllReadsBack(files, PathJoin(base, EnduranceDir), results, Bare);
  }
}
