/**
 * The security suite (`SecurityValidation`): sanitize, format and read-back
 * commands on the device, run through the quiet `run_command` (standard
 * error to `/dev/null`, output stripped); the protection password of
 * `run_all_security_tests(password)` reaches the `nvme format --key=` line;
 * the save into `Security_Results` ends every file with a newline.
 */
module Security {
  import opened Strings
  import opened OrderedMap
  import opened Templates
  import opened Executor
  import opened ResultStore

  // ---------------------------------------------------------------------------
  // Builders

  const SanitizeCapabilities: Cmd := Raw([Text("nvme id-ctrl "), Device, Text(" | grep -i 'sanicap'")])
  const SanitizeDevice: Cmd := Raw([Text("nvme sanitize "), Device, Text(" --sanitize=1")])
  const SanitizeProgress: Cmd := Raw([Text("nvme sanitize-log "), Device])
  const EncryptionCapabilities: Cmd := Raw([Text("nvme id-ctrl "), Device, Text(" | grep -i 'oacs'")])

  /** `enable_password_protection(password)`: the password is interpolated as the format key. */
  function EnablePasswordProtection(password: string): (c: Cmd)
    ensures c.Raw? && Device in c.pieces && c.pieces[|c.pieces| - 1] == Text(password)
  {
    Raw([Text("nvme format "), Device, Text(" --ses=1 --key="), Text(password)])
  }

  const VerifyPasswordProtection: Cmd := Raw([Text("nvme id-ctrl "), Device, Text(" | grep -i 'security'")])
  const FirmwareSecurity: Cmd := Raw([Text("nvme fw-log "), Device])
  const ReadSmartLog: Cmd := Raw([Text("nvme smart-log "), Device])
  const SecureErase: Cmd := Raw([Text("nvme format "), Device, Text(" --ses=1")])
  const VerifyDataAfterErase: Cmd := Raw([Text("dd if="), Device, Text(" of=/dev/null bs=1M count=10")])

  /** `run_all_security_tests(password)`: the ten checks, in source order, each under its method's name. */
  function SecurityChecks(password: string): (checks: seq<Check>)
    ensures |checks| == |SecurityKeys| && forall i :: 0 <= i < |checks| ==> checks[i].key == SecurityKeys[i]
    ensures checks[4].cmd == EnablePasswordProtection(password)
  {
    [ Check("check_sanitize_capabilities", SanitizeCapabilities),
      Check("sanitize_device", SanitizeDevice),
      Check("verify_sanitize_progress", SanitizeProgress),
      Check("check_encryption_capabilities", EncryptionCapabilities),
      Check("enable_password_protection", EnablePasswordProtection(password)),
      Check("verify_password_protection", VerifyPasswordProtection),
      Check("check_firmware_security", FirmwareSecurity),
      Check("read_smart_log", ReadSmartLog),
      Check("secure_erase", SecureErase),
      Check("verify_data_after_erase", VerifyDataAfterErase) ]
  }

  const SecurityKeys: seq<string> := [
    "check_sanitize_capabilities", "sanitize_device", "verify_sanitize_progress", "check_encryption_capabilities",
    "enable_password_protection", "verify_password_protection", "check_firmware_security", "read_smart_log",
    "secure_erase", "verify_data_after_erase"]

  const SecurityDir: string := "Security_Results"

  /** `SecurityValidation`: one device, the sudo password and one dictionary (`security_results`). */
  class SecurityValidation {
    const device: string
    const sudoPassword: string
    var securityResults: Results

    constructor (device: string, sudoPassword: string)
      ensures this.device == device && this.sudoPassword == sudoPassword && securityResults == []
    {
      this.device := device;
      this.sudoPassword := sudoPassword;
      securityResults := [];
    }

    /** `run_all_security_tests(password)`: the ten checks, in order, through the quiet wrapper. */
    method RunAllSecurityTests(sh: Shell, password: string)
      modifies this, sh
      ensures sh.log == old(sh.log) + CommandLines(Quiet, sudoPassword, device, SecurityChecks(password))
      ensures securityResults == AssignAll(old(securityResults), CheckKeys(SecurityChecks(password)),
                                           Outputs(sh.respond, |old(sh.log)|, Quiet, sudoPassword, device, SecurityChecks(password)))
    {
      securityResults := RunChecks(sh, Quiet, sudoPassword, device, securityResults, SecurityChecks(password));
    }

    /** `save_results(base)`: the directory, then one newline-terminated file per entry. */
    method SaveResults(fs: FileSystem, base: string)
      modifies fs
      ensures fs.dirs == old(fs.dirs) + {PathJoin(base, SecurityDir)}
      ensures fs.files == WriteAll(old(fs.files), PathJoin(base, SecurityDir), securityResults, NewlineTerminated)
      ensures fs.writes == old(fs.writes) + Paths(PathJoin(base, SecurityDir), securityResults)
    {
      fs.MakeDirs(PathJoin(base, SecurityDir));
      WriteResults(fs, PathJoin(base, SecurityDir), securityResults, NewlineTerminated);
    }
  }

  // ---------------------------------------------------------------------------
  // Properties

  /** The keys do not depend on the protection password. */
  lemma SecurityTableKeys(password: string)
    ensures CheckKeys(SecurityChecks(password)) == SecurityKeys
  {
  }

  /** Ten keys, pairwise distinct. */
  lemma SecurityKeysDistinct()
    ensures |SecurityKeys| == 10 && Distinct(SecurityKeys)
  {
  }

  /**
   * The protection password affects one check only: two runs with different
   * passwords differ at most in `enable_password_protection` (index 4).
   */
  lemma PasswordOnlyInFormat(p1: string, p2: string)
    ensures |SecurityChecks(p1)| == |SecurityChecks(p2)| == 10
    ensures forall i :: 0 <= i < 10 && i != 4 ==> SecurityChecks(p1)[i] == SecurityChecks(p2)[i]
    ensures SecurityChecks(p1)[4].key == SecurityChecks(p2)[4].key
  {
  }

  /**
   * `enable_password_protection` formats the device with the password as the
   * key, in clear text at the end of the command, so the line determines the
   * password: two passwords give the same line exactly when they are equal.
   */
  lemma FormatKeyLine(password: string, device: string)
    ensures Render(EnablePasswordProtection(password), device) == "nvme format " + device + " --ses=1 --key=" + password
  {
    var ps := [Text("nvme format "), Device, Text(" --ses=1 --key="), Text(password)];
    assert Fill(ps[3..], device) == password by {
      assert ps[3..][1..] == [];
    }
    assert Fill(ps[2..], device) == " --ses=1 --key=" + password by {
      assert ps[2..][1..] == ps[3..];
    }
    assert Fill(ps[1..], device) == device + (" --ses=1 --key=" + password) by {
      assert ps[1..][1..] == ps[2..];
    }
    assert Render(EnablePasswordProtection(password), device) == Fill(ps, device);
  }

  lemma FormatKeyDeterminesPassword(p1: string, p2: string, device: string)
    ensures Render(EnablePasswordProtection(p1), device) == Render(EnablePasswordProtection(p2), device) <==> p1 == p2
  {
    FormatKeyLine(p1, device);
    FormatKeyLine(p2, device);
    var head := "nvme format " + device + " --ses=1 --key=";
    assert head + p1 == "nvme format " + device + " --ses=1 --key=" + p1;
    assert head + p2 == "nvme format " + device + " --ses=1 --key=" + p2;
    if head + p1 == head + p2 {
      assert p1 == (head + p1)[|head|..];
      assert p2 == (head + p2)[|head|..];
    }
  }

  /** Every security check runs against the device, whatever the password. */
  lemma SecurityChecksUseDevice(password: string)
    ensures forall i :: 0 <= i < |SecurityChecks(password)| ==> UsesDevice(SecurityChecks(password)[i].cmd)
  {
    var t := SecurityChecks(password);
    assert Device in Pieces(t[4].cmd) by {
      assert Pieces(t[4].cmd)[1] == Device;
    }
  }

  /** The keys are lower-case with no spaces: each file is the key plus `.txt`, and no two entries share a file. */
  lemma SecurityFileNames()
    ensures forall i :: 0 <= i < |SecurityKeys| ==> FileName(SecurityKeys[i]) == SecurityKeys[i] + ".txt"
    ensures Distinct(FileNames(SecurityKeys))
  {
    SecurityKeysDistinct();
    KeysCanonical();
    CanonicalFileNamesDistinct(SecurityKeys);
  }

  // Every key is canonical, checked in groups of three or four: one lemma per
  // group keeps each proof within the solver's budget.
  lemma KeysCanonical()
    ensures forall i :: 0 <= i < |SecurityKeys| ==> Canonical(SecurityKeys[i])
  {
    SanitizeKeysCanonical();
    EncryptionKeysCanonical();
    EraseKeysCanonical();
  }

  lemma SanitizeKeysCanonical()
    ensures forall i :: 0 <= i < 3 ==> Canonical(SecurityKeys[i])
  {
    SnakeCaseCanonical("check_sanitize_capabilities");
    SnakeCaseCanonical("sanitize_device");
    SnakeCaseCanonical("verify_sanitize_progress");
  }

  lemma EncryptionKeysCanonical()
    ensures forall i :: 3 <= i < 6 ==> Canonical(SecurityKeys[i])
  {
    SnakeCaseCanonical("check_encryption_capabilities");
    SnakeCaseCanonical("enable_password_protection");
    SnakeCaseCanonical("verify_password_protection");
  }

  lemma EraseKeysCanonical()
    ensures forall i :: 6 <= i < 10 ==> Canonical(SecurityKeys[i])
  {
    SnakeCaseCanonical("check_firmware_security");
    SnakeCaseCanonical("read_smart_log");
    SnakeCaseCanonical("secure_erase");
    SnakeCaseCanonical("verify_data_after_erase");
  }

  /**
   * After `save_results` every entry can be read back from its own file,
   * which ends with the newline this suite adds.
   */
  lemma SaveReadsBack(files: map<string, string>, base: string, results: Results)
    requires Keys(results) == SecurityKeys
    ensures SavedIn(WriteAll(files, PathJoin(base, SecurityDir), results, NewlineTerminated),
                    PathJoin(base, SecurityDir), results, NewlineTerminated)
  {
    SecurityFileNames();
    WriteAllReadsBack(files, PathJoin(base, SecurityDir), results, NewlineTerminated);
  }
}
