/**
 * The file-system integrity suite (`FileSystemIntegrityMonitoring`): twelve
 * fixed commands that take no device (several name `/dev/nvme0n1` outright),
 * one dictionary with mixed-case keys, and the save into
 * `File_System_Integrity_Results`.
 */
module FileSystemIntegrity {
  import opened Strings
  import opened OrderedMap
  import opened Templates
  import opened Executor
  import opened ResultStore

  // ---------------------------------------------------------------------------
  // Builders: constant strings

  const FilesystemStatus: Cmd := Raw(Word("sudo fsck -Af -M"))
  const DiskUsage: Cmd := Raw(Word("df -h"))
  const InodesUsage: Cmd := Raw(Word("df -i"))
  const OrphanedInodes: Cmd := Raw(Word("sudo debugfs -R 'stats' /dev/nvme0n1"))
  const MountStatus: Cmd := Raw(Word("mount -v"))
  const DiskSmartStatus: Cmd := Raw(Word("sudo smartctl -a /dev/nvme0n1"))
  const FilesystemType: Cmd := Raw(Word("lsblk -f"))
  const FilesystemHealth: Cmd := Raw(Word("sudo smartctl -H /dev/nvme0n1"))
  const LogForErrors: Cmd := Raw(Word("journalctl -xe | grep -i 'filesystem'"))
  const FilesystemResizing: Cmd := Raw(Word("sudo resize2fs -P /dev/nvme0n1"))
  const FilesystemDetailedStatus: Cmd := Raw(Word("sudo tune2fs -l /dev/nvme0n1"))
  const FilesystemSafety: Cmd := Raw(Word("sudo mount -o check /dev/nvme0n1"))

  /** `run_all_fs_integrity_tests`: the twelve active lines, in source order; the two commented-out ones are absent. */
  const FsIntegrityChecks: seq<Check> := [
    Check("FileSystem_Status", FilesystemStatus),
    Check("Disk_Usage", DiskUsage),
    Check("Inode_Usage", InodesUsage),
    Check("Orphaned_Inodes", OrphanedInodes),
    Check("Mount_Status", MountStatus),
    Check("Disk_SMART_Status", DiskSmartStatus),
    Check("FileSystem_Type", FilesystemType),
    Check("FileSystem_Health", FilesystemHealth),
    Check("System_Logs_Errors", LogForErrors),
    Check("FileSystem_Resizing", FilesystemResizing),
    Check("FileSystem_Detailed_Status", FilesystemDetailedStatus),
    Check("FileSystem_Safety", FilesystemSafety)
  ]

  const FsIntegrityKeys: seq<string> := [
    "FileSystem_Status", "Disk_Usage", "Inode_Usage", "Orphaned_Inodes", "Mount_Status", "Disk_SMART_Status",
    "FileSystem_Type", "FileSystem_Health", "System_Logs_Errors", "FileSystem_Resizing",
    "FileSystem_Detailed_Status", "FileSystem_Safety"]

  /** The file stems the naming rule gives the keys: lower case, no spaces to replace. */
  const FsIntegrityStems: seq<string> := [
    "filesystem_status", "disk_usage", "inode_usage", "orphaned_inodes", "mount_status", "disk_smart_status",
    "filesystem_type", "filesystem_health", "system_logs_errors", "filesystem_resizing",
    "filesystem_detailed_status", "filesystem_safety"]

  const FsIntegrityDir: string := "File_System_Integrity_Results"

  /** The disk six of the commands name, whatever device was selected. */
  const FixedDisk: string := "/dev/nvme0n1"

  /**
   * The suite is built without a device. The shared walk over a table takes
   * one; this suite hands it the empty path, which none of its builders reads.
   */
  const NoDevice: string := ""

  /** `FileSystemIntegrityMonitoring`: the sudo password and one dictionary (`fs_integrity_results`). */
  class FileSystemIntegrityMonitoring {
    const sudoPassword: string
    var fsIntegrityResults: Results

    constructor (sudoPassword: string)
      ensures this.sudoPassword == sudoPassword && fsIntegrityResults == []
    {
      this.sudoPassword := sudoPassword;
      fsIntegrityResults := [];
    }

    /** `run_all_fs_integrity_tests`: the twelve checks, in order, into `fs_integrity_results`. */
    method RunAllFsIntegrityTests(sh: Shell)
      modifies this, sh
      ensures sh.log == old(sh.log) + CommandLines(Plain, sudoPassword, NoDevice, FsIntegrityChecks)
      ensures fsIntegrityResults == AssignAll(old(fsIntegrityResults), CheckKeys(FsIntegrityChecks),
                                              Outputs(sh.respond, |old(sh.log)|, Plain, sudoPassword, NoDevice, FsIntegrityChecks))
    {
      fsIntegrityResults := RunChecks(sh, Plain, sudoPassword, NoDevice, fsIntegrityResults, FsIntegrityChecks);
    }

    /** `save_results(base)`: the directory, then one file per entry. */
    method SaveResults(fs: FileSystem, base: string)
      modifies fs
      ensures fs.dirs == old(fs.dirs) + {PathJoin(base, FsIntegrityDir)}
      ensures fs.files == WriteAll(old(fs.files), PathJoin(base, FsIntegrityDir), fsIntegrityResults, Bare)
      ensures fs.writes == old(fs.writes) + Paths(PathJoin(base, FsIntegrityDir), fsIntegrityResults)
    {
      fs.MakeDirs(PathJoin(base, FsIntegrityDir));
      WriteResults(fs, PathJoin(base, FsIntegrityDir), fsIntegrityResults, Bare);
    }
  }

  // ---------------------------------------------------------------------------
  // Properties

  lemma FsIntegrityTableKeys()
    ensures CheckKeys(FsIntegrityChecks) == FsIntegrityKeys
  {
  }

  /** Twelve keys, pairwise distinct; the commented-out `Bad_Blocks` and `Journal_Errors` are not among them. */
  lemma FsIntegrityKeysDistinct()
    ensures |FsIntegrityKeys| == 12 && Distinct(FsIntegrityKeys)
    ensures "Bad_Blocks" !in FsIntegrityKeys && "Journal_Errors" !in FsIntegrityKeys
  {
  }

  /** No builder reads a device: the suite hands the shell the same lines whichever device was selected. */
  lemma ChecksIgnoreDevice(password: string, device: string)
    ensures forall i :: 0 <= i < |FsIntegrityChecks| ==> !UsesDevice(FsIntegrityChecks[i].cmd)
    ensures CommandLines(Plain, password, device, FsIntegrityChecks) == CommandLines(Plain, password, NoDevice, FsIntegrityChecks)
  {
    CommandLinesDeviceFree(Plain, password, device, NoDevice, FsIntegrityChecks);
  }

  /** Six commands end with `/dev/nvme0n1` itself, whatever device the run is about. */
  lemma FixedDiskCommands(device: string)
    ensures forall i :: i in {3, 5, 7, 9, 10, 11} ==> EndsWithFixedDisk(Render(FsIntegrityChecks[i].cmd, device))
  {
    RenderFixed("sudo debugfs -R 'stats' /dev/nvme0n1", device);
    RenderFixed("sudo smartctl -a /dev/nvme0n1", device);
    RenderFixed("sudo smartctl -H /dev/nvme0n1", device);
    RenderFixed("sudo resize2fs -P /dev/nvme0n1", device);
    RenderFixed("sudo tune2fs -l /dev/nvme0n1", device);
    RenderFixed("sudo mount -o check /dev/nvme0n1", device);
  }

  predicate EndsWithFixedDisk(t: string) {
    |t| >= |FixedDisk| && t[|t| - |FixedDisk|..] == FixedDisk
  }

  /**
   * Seven commands already start with `sudo`: `check_filesystem_status` and
   * the six on the fixed disk. Their wrapped lines run `sudo -S sudo ...`,
   * and the other five run under a single `sudo`.
   */
  lemma DoubleSudo(password: string, device: string)
    ensures CommandLines(Plain, password, device, FsIntegrityChecks)[0] == "echo " + password + " | sudo -S sudo fsck -Af -M"
    ensures forall i :: 0 <= i < |FsIntegrityChecks| ==>
      (StartsWith(CommandLines(Plain, password, device, FsIntegrityChecks)[i], Prefix(password) + "sudo ")
       <==> i in {0, 3, 5, 7, 9, 10, 11})
  {
    hide *;
    var lines := CommandLines(Plain, password, device, FsIntegrityChecks);
    SudoCommands(device);
    forall i | 0 <= i < |FsIntegrityChecks|
      ensures StartsWith(lines[i], Prefix(password) + "sudo ") <==> StartsWith(Render(FsIntegrityChecks[i].cmd, device), "sudo ")
    {
      WrappedSudo(password, Render(FsIntegrityChecks[i].cmd, device));
    }
    StatusLine(device);
    WrappedLine(password, "sudo fsck -Af -M");
  }

  lemma StatusLine(device: string)
    ensures Render(FsIntegrityChecks[0].cmd, device) == "sudo fsck -Af -M"
  {
    RenderFixed("sudo fsck -Af -M", device);
  }

  /** Which of the twelve commands start with `sudo` themselves. */
  lemma SudoCommands(device: string)
    ensures |FsIntegrityChecks| == 12
    ensures forall i :: 0 <= i < 12 ==>
      (StartsWith(Render(FsIntegrityChecks[i].cmd, device), "sudo ") <==> i in {0, 3, 5, 7, 9, 10, 11})
  {
    SudoCommands0(device);
    SudoCommands3(device);
    SudoCommands6(device);
    SudoCommands9(device);
  }

  // The twelve commands three at a time, from the index in the name on: one lemma
  // per slice keeps each proof within the solver's budget.

  lemma SudoCommands0(device: string)
    ensures forall i :: 0 <= i < 3 ==>
      (StartsWith(Render(FsIntegrityChecks[i].cmd, device), "sudo ") <==> i in {0})
  {
    hide Render, Fill, Pieces, Word;
    forall i | 0 <= i < 3
      ensures StartsWith(Render(FsIntegrityChecks[i].cmd, device), "sudo ") <==> i in {0}
    {
      if i == 0 {
        RenderFixed("sudo fsck -Af -M", device);
      } else if i == 1 {
        RenderFixed("df -h", device);
        NotSudo("df -h");
      } else {
        RenderFixed("df -i", device);
        NotSudo("df -i");
      }
    }
  }

  lemma SudoCommands3(device: string)
    ensures forall i :: 3 <= i < 6 ==>
      (StartsWith(Render(FsIntegrityChecks[i].cmd, device), "sudo ") <==> i in {3, 5})
  {
    hide Render, Fill, Pieces, Word;
    forall i | 3 <= i < 6
      ensures StartsWith(Render(FsIntegrityChecks[i].cmd, device), "sudo ") <==> i in {3, 5}
    {
      if i == 3 {
        RenderFixed("sudo debugfs -R 'stats' /dev/nvme0n1", device);
      } else if i == 4 {
        RenderFixed("mount -v", device);
        NotSudo("mount -v");
      } else {
        RenderFixed("sudo smartctl -a /dev/nvme0n1", device);
      }
    }
  }

  lemma SudoCommands6(device: string)
    ensures forall i :: 6 <= i < 9 ==>
      (StartsWith(Render(FsIntegrityChecks[i].cmd, device), "sudo ") <==> i in {7})
  {
    hide Render, Fill, Pieces, Word;
    forall i | 6 <= i < 9
      ensures StartsWith(Render(FsIntegrityChecks[i].cmd, device), "sudo ") <==> i in {7}
    {
      if i == 6 {
        RenderFixed("lsblk -f", device);
        NotSudo("lsblk -f");
      } else if i == 7 {
        RenderFixed("sudo smartctl -H /dev/nvme0n1", device);
      } else {
        RenderFixed("journalctl -xe | grep -i 'filesystem'", device);
        NotSudo("journalctl -xe | grep -i 'filesystem'");
      }
    }
  }

  lemma SudoCommands9(device: string)
    ensures forall i :: 9 <= i < 12 ==>
      (StartsWith(Render(FsIntegrityChecks[i].cmd, device), "sudo ") <==> i in {9, 10, 11})
  {
    hide Render, Fill, Pieces, Word;
    forall i | 9 <= i < 12
      ensures StartsWith(Render(FsIntegrityChecks[i].cmd, device), "sudo ") <==> i in {9, 10, 11}
    {
      if i == 9 {
        RenderFixed("sudo resize2fs -P /dev/nvme0n1", device);
      } else if i == 10 {
        RenderFixed("sudo tune2fs -l /dev/nvme0n1", device);
      } else {
        RenderFixed("sudo mount -o check /dev/nvme0n1", device);
      }
    }
  }

  /** A command whose first character is not `s` does not start with `sudo `. */
  lemma NotSudo(t: string)
    requires t == [] || t[0] != 's'
    ensures !StartsWith(t, "sudo ")
  {
    if |t| >= 5 {
      assert t[..5][0] != "sudo "[0];
    }
  }

  /** The naming rule lowers the keys' capitals: each file is the lower-case key plus `.txt`, and no two share a file. */
  lemma FsIntegrityFileNames()
    ensures forall i :: 0 <= i < |FsIntegrityKeys| ==> FileName(FsIntegrityKeys[i]) == FsIntegrityStems[i] + ".txt"
    ensures Distinct(FileNames(FsIntegrityKeys))
  {
    StemsFrom0();
    StemsFrom2();
    StemsFrom4();
    StemsFrom6();
    StemsFrom8();
    StemsFrom10();
    StemsDistinct();
    StemsFileNamesDistinct(FsIntegrityKeys, FsIntegrityStems);
  }

  lemma StemsDistinct()
    ensures |FsIntegrityStems| == 12 && Distinct(FsIntegrityStems)
  {
  }

  // The stems two keys at a time, from the key at the index in the name on: one
  // lemma per slice keeps each proof within the solver's budget.

  lemma StemsFrom0()
    ensures forall i :: 0 <= i < 2 ==> FileStem(FsIntegrityKeys[i]) == FsIntegrityStems[i]
  {
    FileStemIs("FileSystem_Status", "filesystem_status");
    FileStemIs("Disk_Usage", "disk_usage");
  }

  lemma StemsFrom2()
    ensures forall i :: 2 <= i < 4 ==> FileStem(FsIntegrityKeys[i]) == FsIntegrityStems[i]
  {
    FileStemIs("Inode_Usage", "inode_usage");
    FileStemIs("Orphaned_Inodes", "orphaned_inodes");
  }

  lemma StemsFrom4()
    ensures forall i :: 4 <= i < 6 ==> FileStem(FsIntegrityKeys[i]) == FsIntegrityStems[i]
  {
    FileStemIs("Mount_Status", "mount_status");
    FileStemIs("Disk_SMART_Status", "disk_smart_status");
  }

  lemma StemsFrom6()
    ensures forall i :: 6 <= i < 8 ==> FileStem(FsIntegrityKeys[i]) == FsIntegrityStems[i]
  {
    FileStemIs("FileSystem_Type", "filesystem_type");
    FileStemIs("FileSystem_Health", "filesystem_health");
  }

  lemma StemsFrom8()
    ensures forall i :: 8 <= i < 10 ==> FileStem(FsIntegrityKeys[i]) == FsIntegrityStems[i]
  {
    FileStemIs("System_Logs_Errors", "system_logs_errors");
    FileStemIs("FileSystem_Resizing", "filesystem_resizing");
  }

  lemma StemsFrom10()
    ensures forall i :: 10 <= i < 12 ==> FileStem(FsIntegrityKeys[i]) == FsIntegrityStems[i]
  {
    FileStemIs("FileSystem_Detailed_Status", "filesystem_detailed_status");
    FileStemIs("FileSystem_Safety", "filesystem_safety");
  }

  /** After `save_results` every entry of the dictionary can be read back from its own file. */
  lemma SaveReadsBack(files: map<string, string>, base: string, results: Results)
    requires Keys(results) == FsIntegrityKeys
    ensures SavedIn(WriteAll(files, PathJoin(base, FsIntegrityDir), results, Bare), PathJoin(base, FsIntegrityDir), results, Bare)
  {
    FsIntegrityFileNames();
    WriteAllReadsBack(files, PathJoin(base, FsIntegrityDir), results, Bare);
  }
}
