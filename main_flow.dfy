/**
 * `main.py`: finding the SSDs in the `lsblk` listing, the numbered menu and
 * the path read back out of the chosen entry, then every suite run in a
 * fixed order and only then every suite saved, in the same order.
 */
module MainFlow {
  import opened Strings
  import opened OrderedMap
  import opened Templates
  import opened Executor
  import opened ResultStore
  import Health = HealthMonitoring
  import Perf = PerformanceBenchmarking
  import Power = PowerMonitoring
  import Fsi = FileSystemIntegrity
  import End = Endurance
  import Sec = Security

  // ---------------------------------------------------------------------------
  // get_ssd_devices

  /** `'disk' in device` and then `'NVMe' in device or 'SSD' in device`. */
  predicate IsSsdLine(line: string) {
    Contains(line, "disk") && (Contains(line, "NVMe") || Contains(line, "SSD"))
  }

  /** `f"{device_name} ({device_path})"`. */
  function DeviceEntry(name: string, path: string): (e: string)
    ensures |e| == |name| + |path| + 3 && e[|e| - 1] == ')'
    ensures '(' !in path ==> AfterLast(e, '(') == path + ")"
  {
    var e := name + " (" + path + ")";
    assert e == (name + " ") + "(" + (path + ")");
    if '(' !in path then AfterLastSeparator(name + " ", '(', path + ")"); e else e
  }

  /**
   * What the loop has built after the given lines, or `None` once a kept
   * line had fewer than two words: `device_info[1]` raises, and the
   * `except` makes the whole call return `[]`.
   */
  function Scan(lines: seq<string>): (r: Option<seq<string>>)
    ensures r.Some? ==> |r.value| == |SsdLines(lines)|
  {
    if lines == [] then Some([])
    else
      var n := |lines| - 1;
      match Scan(lines[..n])
      case None => None
      case Some(acc) =>
        if !IsSsdLine(lines[n]) then Some(acc)
        else
          var info := Split(lines[n]);
          if |info| < 2 then None else Some(acc + [DeviceEntry(info[1], info[0])])
  }

  /** What `get_ssd_devices` returns: the built list, or `[]` when `lsblk` could not be run or a kept line was malformed. */
  function SsdDevices(listing: Option<seq<string>>): (ds: seq<string>)
    ensures listing.None? ==> ds == []
    ensures listing.Some? ==> |ds| <= |listing.value|
  {
    match listing
    case None => []
    case Some(lines) => match Scan(lines) case None => [] case Some(ds) => ds
  }

  /**
   * `get_ssd_devices`, given the lines of the `lsblk -d -o NAME,MODEL,TYPE -p`
   * listing (`None` when running `lsblk` raised).
   */
  method GetSsdDevices(listing: Option<seq<string>>) returns (devices: seq<string>)
    ensures devices == SsdDevices(listing)
  {
    hide SsdLines;
    if listing.None? {
      return [];
    }
    var lines := listing.value;
    var ssd: seq<string> := [];
    for i := 0 to |lines|
      invariant Scan(lines[..i]) == Some(ssd)
    {
      var line := lines[i];
      assert lines[..i + 1][..i] == lines[..i];
      if Contains(line, "disk") {
        if Contains(line, "NVMe") || Contains(line, "SSD") {
          var info := Split(line);
          if |info| < 2 {
            ScanStaysFailed(lines, i + 1, |lines|);
            assert lines[..|lines|] == lines;
            return [];
          }
          ssd := ssd + [DeviceEntry(info[1], info[0])];
        }
      }
    }
    assert lines[..|lines|] == lines;
    devices := ssd;
  }

  /** Once a malformed kept line has made the loop fail, no later line brings it back. */
  lemma {:induction false} ScanStaysFailed(lines: seq<string>, i: nat, j: nat)
    requires i <= j <= |lines|
    requires Scan(lines[..i]) == None
    ensures Scan(lines[..j]) == None
    decreases j - i
  {
    if i < j {
      assert lines[..i + 1][..i] == lines[..i];
      ScanStaysFailed(lines, i + 1, j);
    }
  }

  // A reference definition: keep the SSD lines, then format each one.

  /** The lines `get_ssd_devices` keeps, in listing order. */
  function SsdLines(lines: seq<string>): (kept: seq<string>)
    ensures |kept| <= |lines|
    ensures forall i :: 0 <= i < |kept| ==> IsSsdLine(kept[i])
  {
    if lines == [] then []
    else
      var n := |lines| - 1;
      SsdLines(lines[..n]) + (if IsSsdLine(lines[n]) then [lines[n]] else [])
  }

  /** A line is kept exactly when it is an SSD line of the listing. */
  lemma {:induction false} SsdLinesMembers(lines: seq<string>)
    ensures forall l :: l in SsdLines(lines) <==> l in lines && IsSsdLine(l)
  {
    if lines != [] {
      var n := |lines| - 1;
      SsdLinesMembers(lines[..n]);
      assert lines == lines[..n] + [lines[n]];
    }
  }

  /** Every kept line has a path and a model word. */
  predicate AllNamed(kept: seq<string>) {
    forall i :: 0 <= i < |kept| ==> |Split(kept[i])| >= 2
  }

  /** Each kept line as its menu entry: the model's first word, then the path in parentheses. */
  function Entries(kept: seq<string>): (es: seq<string>)
    requires AllNamed(kept)
    ensures |es| == |kept|
    ensures forall i :: 0 <= i < |kept| ==> es[i] == DeviceEntry(Split(kept[i])[1], Split(kept[i])[0])
  {
    if kept == [] then []
    else
      var n := |kept| - 1;
      Entries(kept[..n]) + [DeviceEntry(Split(kept[n])[1], Split(kept[n])[0])]
  }

  /**
   * The loop is a filter then a map: it lists exactly the SSD lines, in
   * order, each formatted as `name (path)`, and fails exactly when one of
   * those lines has fewer than two words.
   */
  lemma {:induction false} ScanIsFilterThenFormat(lines: seq<string>)
    ensures Scan(lines) == if AllNamed(SsdLines(lines)) then Some(Entries(SsdLines(lines))) else None
  {
    if lines != [] {
      var n := |lines| - 1;
      var kept := SsdLines(lines[..n]);
      ScanIsFilterThenFormat(lines[..n]);
      if IsSsdLine(lines[n]) {
        assert SsdLines(lines) == kept + [lines[n]];
        AppendKept(kept, lines[n]);
      } else {
        assert SsdLines(lines) == kept;
      }
    }
  }

  /** One more kept line: all are named when the earlier ones and this one are, and its entry goes last. */
  lemma AppendKept(kept: seq<string>, line: string)
    ensures AllNamed(kept + [line]) <==> AllNamed(kept) && |Split(line)| >= 2
    ensures AllNamed(kept + [line]) ==>
      Entries(kept + [line]) == Entries(kept) + [DeviceEntry(Split(line)[1], Split(line)[0])]
  {
    var all := kept + [line];
    assert all[..|kept|] == kept;
    assert all[|kept|] == line;
    if AllNamed(kept) && |Split(line)| >= 2 {
      forall i | 0 <= i < |all| ensures |Split(all[i])| >= 2 {
        if i < |kept| { assert all[i] == kept[i]; }
      }
    }
  }

  // ---------------------------------------------------------------------------
  // The menu and the path read back

  /** `entry.split('(')[-1].strip(')')`. */
  function ExtractPath(entry: string): (path: string)
    ensures |path| <= |entry|
    ensures PlainPath(path)
  {
    StripChar(AfterLast(entry, '('), ')')
  }

  /** A path `strip(')')` cannot damage once it is read back: no `(`, and no `)` at either end. */
  predicate PlainPath(path: string) {
    '(' !in path && (path == [] || (path[0] != ')' && path[|path| - 1] != ')'))
  }

  /** The menu entry gives back the path it was formatted from. */
  lemma ExtractPathRoundTrip(name: string, path: string)
    requires PlainPath(path)
    ensures ExtractPath(DeviceEntry(name, path)) == path
  {
    assert DeviceEntry(name, path) == (name + " ") + "(" + (path + ")");
    AfterLastSeparator(name + " ", '(', path + ")");
    StripClosing(path);
  }

  /**
   * `strip` works on both ends: a path that starts with `)` comes back
   * without it, so a path must not start with `)` either for the round trip.
   */
  lemma LeadingParenthesisLost(name: string, rest: string)
    requires PlainPath(rest)
    ensures ExtractPath(DeviceEntry(name, ")" + rest)) == rest
  {
    assert DeviceEntry(name, ")" + rest) == (name + " ") + "(" + (")" + rest + ")");
    AfterLastSeparator(name + " ", '(', ")" + rest + ")");
    StripClosing(rest);
  }

  /** Only what follows the last separator is kept. */
  lemma {:induction false} AfterLastSeparator(s: string, sep: char, tail: string)
    requires sep !in tail
    ensures AfterLast(s + [sep] + tail, sep) == tail
    decreases |tail|
  {
    var t := s + [sep] + tail;
    if tail != [] {
      var n := |tail| - 1;
      assert t[..|t| - 1] == s + [sep] + tail[..n];
      assert tail[n] in tail;
      AfterLastSeparator(s, sep, tail[..n]);
      assert tail == tail[..n] + [tail[n]];
    }
  }

  /** `strip(')')` takes off the closing parenthesis, and one opening one too, from a plain path. */
  lemma StripClosing(path: string)
    requires PlainPath(path)
    ensures StripChar(path + ")", ')') == path
    ensures StripChar(")" + path + ")", ')') == path
  {
    var p := path + ")";
    assert ")" + path + ")" == [')'] + p;
    if path == [] {
      assert p == [')'] + [];
      DropLeadingOnce([], ')');
      assert ([')'] + p)[1..] == p;
      assert DropLeading([')'] + p, ')') == DropLeading(p, ')') == [];
    } else {
      DropLeadingStops(p, ')');
      DropLeadingOnce(p, ')');
      DropTrailingOnce(path, ')');
    }
  }

  /** `0 <= int(text) - 1 < len(ssd_devices)`; `None` stands for a reply `int()` rejects. */
  predicate Accepted(count: nat, reply: Option<int>) {
    reply.Some? && 0 <= reply.value - 1 < count
  }

  /** The position of the first accepted reply, if any: the reply the menu loop stops at. */
  function FirstAccepted(count: nat, replies: seq<Option<int>>): (k: Option<nat>)
    ensures k.Some? ==> k.value < |replies| && Accepted(count, replies[k.value])
  {
    if replies == [] then None
    else if Accepted(count, replies[0]) then Some(0)
    else match FirstAccepted(count, replies[1..]) case None => None case Some(k) => Some(k + 1)
  }

  /**
   * A reply is accepted exactly when it is a number from 1 to the number
   * of entries; the loop stops at the first such reply, and keeps asking
   * while there is none.
   */
  lemma {:induction false} FirstAcceptedIsFirst(count: nat, replies: seq<Option<int>>)
    ensures FirstAccepted(count, replies).Some? <==> exists k :: 0 <= k < |replies| && Accepted(count, replies[k])
    ensures FirstAccepted(count, replies).Some? ==>
      forall j :: 0 <= j < FirstAccepted(count, replies).value ==> !Accepted(count, replies[j])
  {
    if replies != [] {
      FirstAcceptedIsFirst(count, replies[1..]);
      if !Accepted(count, replies[0]) {
        assert forall k :: 1 <= k < |replies| ==> replies[k] == replies[1..][k - 1];
      }
    }
  }

  /**
   * The `while True` menu loop over the replies typed in, in order: the
   * device is the path in the entry the first accepted reply numbers.
   * `tries` counts the replies read; when no reply is accepted every reply
   * has been read and there is no device.
   */
  method SelectDevice(devices: seq<string>, replies: seq<Option<int>>) returns (device: Option<string>, tries: nat)
    ensures device.Some? <==> FirstAccepted(|devices|, replies).Some?
    ensures device.Some? ==> tries == FirstAccepted(|devices|, replies).value
                             && device.value == ExtractPath(devices[replies[tries].value - 1])
    ensures device.None? ==> tries == |replies|
  {
    tries := 0;
    while tries < |replies|
      invariant tries <= |replies|
      invariant FirstAccepted(|devices|, replies) == Shifted(FirstAccepted(|devices|, replies[tries..]), tries)
    {
      FirstAcceptedStep(|devices|, replies, tries);
      var reply := replies[tries];
      if reply.Some? {
        var index := reply.value - 1;
        if 0 <= index < |devices| {
          device := Some(ExtractPath(devices[index]));
          return;
        }
      }
      tries := tries + 1;
    }
    device := None;
  }

  /** Reading one more reply: the first accepted one from here is this one, or one further on. */
  lemma FirstAcceptedStep(count: nat, replies: seq<Option<int>>, i: nat)
    requires i < |replies|
    ensures FirstAccepted(count, replies[i..]) ==
            if Accepted(count, replies[i]) then Some(0) else Shifted(FirstAccepted(count, replies[i + 1..]), 1)
  {
    assert replies[i..][1..] == replies[i + 1..];
  }

  /** A position found in a suffix, as a position in the whole. */
  function Shifted(k: Option<nat>, offset: nat): Option<nat> {
    match k case None => None case Some(j) => Some(j + offset)
  }

  // ---------------------------------------------------------------------------
  // The validation run: every suite, then every save

  /** `results_dir` in `main`: a fixed absolute path. */
  const ResultsDir: string := "/home/vamsimikkili/Downloads/SSD_Validation_Automation_Python-master/SSD_Test_Results"

  /** `run_all_security_tests(password="secure_password")`: the protection password `main` passes. */
  const SecurityRunPassword: string := "secure_password"

  /** One saved dictionary: its sub-directory of the results directory, its entries and how each file is written. */
  datatype Saved = Saved(dir: string, results: Results, style: BodyStyle)

  /** How `main` ends: no SSD found, no accepted menu reply, or the selected device validated with the nine dictionaries saved. */
  datatype Outcome = NoDevices | NoSelection | Validated(device: string, saved: seq<Saved>)

  /** What a fresh suite's dictionary holds after one walk over its table: one entry per check, in order. */
  function Fresh(respond: (nat, string) -> ProcessOutcome, start: nat, w: Wrapping, password: string,
                 device: string, table: seq<Check>): Results {
    AssignAll([], CheckKeys(table), Outputs(respond, start, w, password, device, table))
  }

  /**
   * The command lines of one validation run, in the order `main` runs the
   * suites: first the health and performance suites, then the monitoring,
   * endurance and security suites.
   */
  function ValidationLines(password: string, device: string): seq<string> {
    HealthPerformanceLines(password, device) + MonitoringLines(password, device)
  }

  function HealthPerformanceLines(password: string, device: string): seq<string> {
    HealthLines(password, device) + PerformanceLines(password, device)
  }

  function MonitoringLines(password: string, device: string): seq<string> {
    PowerFsLines(password, device) + EnduranceSecurityLines(password, device)
  }

  /** smartctl, then nvme-cli, through the plain wrapper. */
  function HealthLines(password: string, device: string): seq<string> {
    CommandLines(Plain, password, device, Health.SmartctlChecks)
    + CommandLines(Plain, password, device, Health.NvmecliChecks)
  }

  /** fio, dd, then ioping, through the plain wrapper. */
  function PerformanceLines(password: string, device: string): seq<string> {
    CommandLines(Plain, password, device, Perf.FioChecks)
    + CommandLines(Plain, password, device, Perf.DdChecks)
    + CommandLines(Plain, password, device, Perf.IopingChecks)
  }

  /** Power and thermal, then the file-system suite, which was built without the device. */
  function PowerFsLines(password: string, device: string): seq<string> {
    CommandLines(Plain, password, device, Power.PowerThermalChecks)
    + CommandLines(Plain, password, Fsi.NoDevice, Fsi.FsIntegrityChecks)
  }

  /** Endurance, then security through the quiet wrapper with the fixed protection password. */
  function EnduranceSecurityLines(password: string, device: string): seq<string> {
    CommandLines(Plain, password, device, End.EnduranceChecks)
    + CommandLines(Quiet, password, device, Sec.SecurityChecks(SecurityRunPassword))
  }

  /**
   * The nine dictionaries in save order, each filled from the shell's replies
   * to its own stretch of the run; `before` is the log when the run starts,
   * and each suite's replies are numbered from the log it finds.
   */
  function Collected(respond: (nat, string) -> ProcessOutcome, before: seq<string>, password: string, device: string): seq<Saved> {
    HealthPerformanceSaved(respond, before, password, device)
    + MonitoringSaved(respond, before + HealthPerformanceLines(password, device), password, device)
  }

  function HealthPerformanceSaved(respond: (nat, string) -> ProcessOutcome, before: seq<string>, password: string, device: string): seq<Saved> {
    HealthSaved(respond, before, password, device)
    + PerformanceSaved(respond, before + HealthLines(password, device), password, device)
  }

  function MonitoringSaved(respond: (nat, string) -> ProcessOutcome, before: seq<string>, password: string, device: string): seq<Saved> {
    PowerFsSaved(respond, before, password, device)
    + EnduranceSecuritySaved(respond, before + PowerFsLines(password, device), password, device)
  }

  function HealthSaved(respond: (nat, string) -> ProcessOutcome, before: seq<string>, password: string, device: string): seq<Saved> {
    var smartctl := CommandLines(Plain, password, device, Health.SmartctlChecks);
    [ Saved(Health.SmartctlDir, Fresh(respond, |before|, Plain, password, device, Health.SmartctlChecks), Bare),
      Saved(Health.NvmecliDir, Fresh(respond, |before + smartctl|, Plain, password, device, Health.NvmecliChecks), Bare) ]
  }

  function PerformanceSaved(respond: (nat, string) -> ProcessOutcome, before: seq<string>, password: string, device: string): seq<Saved> {
    var fio := CommandLines(Plain, password, device, Perf.FioChecks);
    var dd := CommandLines(Plain, password, device, Perf.DdChecks);
    [ Saved(Perf.FioDir, Fresh(respond, |before|, Plain, password, device, Perf.FioChecks), Bare),
      Saved(Perf.DdDir, Fresh(respond, |before + fio|, Plain, password, device, Perf.DdChecks), Bare),
      Saved(Perf.IopingDir, Fresh(respond, |before + fio + dd|, Plain, password, device, Perf.IopingChecks), Bare) ]
  }

  function PowerFsSaved(respond: (nat, string) -> ProcessOutcome, before: seq<string>, password: string, device: string): seq<Saved> {
    var power := CommandLines(Plain, password, device, Power.PowerThermalChecks);
    [ Saved(Power.PowerThermalDir, Fresh(respond, |before|, Plain, password, device, Power.PowerThermalChecks), Bare),
      Saved(Fsi.FsIntegrityDir, Fresh(respond, |before + power|, Plain, password, Fsi.NoDevice, Fsi.FsIntegrityChecks), Bare) ]
  }

  function EnduranceSecuritySaved(respond: (nat, string) -> ProcessOutcome, before: seq<string>, password: string, device: string): seq<Saved> {
    var endurance := CommandLines(Plain, password, device, End.EnduranceChecks);
    [ Saved(End.EnduranceDir, Fresh(respond, |before|, Plain, password, device, End.EnduranceChecks), Bare),
      Saved(Sec.SecurityDir, Fresh(respond, |before + endurance|, Quiet, password, device, Sec.SecurityChecks(SecurityRunPassword)),
            NewlineTerminated) ]
  }

  /** The files after saving each dictionary in turn under `base`. */
  function SaveAll(files: map<string, string>, base: string, saved: seq<Saved>): map<string, string> {
    if saved == [] then files
    else
      var n := |saved| - 1;
      WriteAll(SaveAll(files, base, saved[..n]), PathJoin(base, saved[n].dir), saved[n].results, saved[n].style)
  }

  /** The files written, in order, when each dictionary is saved in turn under `base`. */
  function SaveWrites(base: string, saved: seq<Saved>): seq<string> {
    if saved == [] then []
    else
      var n := |saved| - 1;
      SaveWrites(base, saved[..n]) + Paths(PathJoin(base, saved[n].dir), saved[n].results)
  }

  /** The sub-directories made when each dictionary is saved under `base`. */
  function SaveDirs(base: string, saved: seq<Saved>): set<string> {
    if saved == [] then {}
    else
      var n := |saved| - 1;
      SaveDirs(base, saved[..n]) + {PathJoin(base, saved[n].dir)}
  }

  /**
   * Dictionaries that can be saved side by side under one base: each goes
   * to a plain sub-directory name of its own, and no two entries of one
   * dictionary share a file.
   */
  ghost predicate SavedApart(saved: seq<Saved>) {
    && (forall k :: 0 <= k < |saved| ==> '/' !in saved[k].dir && Distinct(FileNames(Keys(saved[k].results))))
    && (forall j, k :: 0 <= j < k < |saved| ==> saved[j].dir != saved[k].dir)
  }

  /**
   * Saving several dictionaries into distinct sub-directories of one base
   * loses nothing: once all are saved, every entry of every dictionary can be
   * read back from its own file, even where two dictionaries share a key.
   */
  lemma {:induction false} SaveAllReadsBack(files: map<string, string>, base: string, saved: seq<Saved>)
    requires SavedApart(saved)
    ensures forall k :: 0 <= k < |saved| ==>
      SavedIn(SaveAll(files, base, saved), PathJoin(base, saved[k].dir), saved[k].results, saved[k].style)
  {
    hide SavedIn, WriteAll, FileNames, Keys, Distinct, Body, FileName;
    if saved != [] {
      var n := |saved| - 1;
      var last := saved[n];
      var before := SaveAll(files, base, saved[..n]);
      assert SavedApart(saved[..n]) by {
        assert forall k :: 0 <= k < n ==> saved[..n][k] == saved[k];
      }
      SaveAllReadsBack(files, base, saved[..n]);
      forall k | 0 <= k < |saved|
        ensures SavedIn(SaveAll(files, base, saved), PathJoin(base, saved[k].dir), saved[k].results, saved[k].style)
      {
        if k < n {
          assert saved[..n][k] == saved[k];
          SavedInOtherSubdir(before, base, saved[k].dir, saved[k].results, last.dir, last.results, saved[k].style, last.style);
        } else {
          WriteAllReadsBack(before, PathJoin(base, last.dir), last.results, last.style);
        }
      }
    }
  }

  /**
   * Once `main` has saved its nine dictionaries, every entry of every one of
   * them can be read back from its own file: no suite's save overwrites
   * another's, although several suites use the same keys.
   */
  lemma ValidationReadsBack(files: map<string, string>, respond: (nat, string) -> ProcessOutcome, before: seq<string>,
                            password: string, device: string)
    ensures var saved := Collected(respond, before, password, device);
      forall k :: 0 <= k < |saved| ==>
        SavedIn(SaveAll(files, ResultsDir, saved), PathJoin(ResultsDir, saved[k].dir), saved[k].results, saved[k].style)
  {
    hide *;
    CollectedApart(respond, before, password, device);
    SaveAllReadsBack(files, ResultsDir, Collected(respond, before, password, device));
  }

  /** The nine dictionaries of a run go to nine different sub-directories, and each names its files apart. */
  lemma CollectedApart(respond: (nat, string) -> ProcessOutcome, before: seq<string>, password: string, device: string)
    ensures SavedApart(Collected(respond, before, password, device))
  {
    hide HealthPerformanceSaved, MonitoringSaved, HealthPerformanceLines;
    SubdirsPlain();
    var lines := HealthPerformanceLines(password, device);
    HealthPerformanceApart(respond, before, password, device);
    MonitoringApart(respond, before + lines, password, device);
    ApartAppend(HealthPerformanceSaved(respond, before, password, device),
                MonitoringSaved(respond, before + lines, password, device));
  }

  /** The sub-directories of the health and performance dictionaries. */
  const HealthPerformanceDirs: set<string> := {Health.SmartctlDir, Health.NvmecliDir, Perf.FioDir, Perf.DdDir, Perf.IopingDir}

  /** The sub-directories of the monitoring, endurance and security dictionaries. */
  const MonitoringDirs: set<string> := {Power.PowerThermalDir, Fsi.FsIntegrityDir, End.EnduranceDir, Sec.SecurityDir}

  lemma HealthPerformanceApart(respond: (nat, string) -> ProcessOutcome, before: seq<string>, password: string, device: string)
    ensures var saved := HealthPerformanceSaved(respond, before, password, device);
      SavedApart(saved) && forall k :: 0 <= k < |saved| ==> saved[k].dir in HealthPerformanceDirs
  {
    hide HealthSaved, PerformanceSaved, HealthLines;
    SubdirsPlain();
    var lines := HealthLines(password, device);
    HealthApart(respond, before, password, device);
    PerformanceApart(respond, before + lines, password, device);
    ApartAppend(HealthSaved(respond, before, password, device), PerformanceSaved(respond, before + lines, password, device));
  }

  lemma MonitoringApart(respond: (nat, string) -> ProcessOutcome, before: seq<string>, password: string, device: string)
    ensures var saved := MonitoringSaved(respond, before, password, device);
      SavedApart(saved) && forall k :: 0 <= k < |saved| ==> saved[k].dir in MonitoringDirs
  {
    hide PowerFsSaved, EnduranceSecuritySaved, PowerFsLines;
    SubdirsPlain();
    var lines := PowerFsLines(password, device);
    PowerFsApart(respond, before, password, device);
    EnduranceSecurityApart(respond, before + lines, password, device);
    ApartAppend(PowerFsSaved(respond, before, password, device),
                EnduranceSecuritySaved(respond, before + lines, password, device));
  }

  lemma HealthApart(respond: (nat, string) -> ProcessOutcome, before: seq<string>, password: string, device: string)
    ensures var saved := HealthSaved(respond, before, password, device);
      SavedApart(saved) && forall k :: 0 <= k < |saved| ==> saved[k].dir in {Health.SmartctlDir, Health.NvmecliDir}
  {
    hide Fresh, CommandLines, CheckKeys, FileNames, Keys, Distinct;
    SubdirsPlain();
    var smartctl := CommandLines(Plain, password, device, Health.SmartctlChecks);
    var saved := HealthSaved(respond, before, password, device);
    Health.SmartctlTableKeys();
    Health.NvmecliTableKeys();
    Health.SmartctlKeysDistinct();
    Health.NvmecliKeysDistinct();
    Health.SmartctlFileNamesDistinct();
    Health.NvmecliFileNamesDistinct();
    FreshKeys(respond, |before|, Plain, password, device, Health.SmartctlChecks);
    FreshKeys(respond, |before + smartctl|, Plain, password, device, Health.NvmecliChecks);
    ApartTwo(saved[0], saved[1]);
    assert saved == [saved[0], saved[1]];
  }

  lemma PerformanceApart(respond: (nat, string) -> ProcessOutcome, before: seq<string>, password: string, device: string)
    ensures var saved := PerformanceSaved(respond, before, password, device);
      SavedApart(saved) && forall k :: 0 <= k < |saved| ==> saved[k].dir in {Perf.FioDir, Perf.DdDir, Perf.IopingDir}
  {
    hide Fresh, CommandLines, CheckKeys, FileNames, Keys, Distinct;
    SubdirsPlain();
    var fio := CommandLines(Plain, password, device, Perf.FioChecks);
    var dd := CommandLines(Plain, password, device, Perf.DdChecks);
    var saved := PerformanceSaved(respond, before, password, device);
    Perf.FioTableKeys();
    Perf.DdTableKeys();
    Perf.IopingTableKeys();
    Perf.FioKeysDistinct();
    Perf.DdKeysDistinct();
    Perf.IopingKeysDistinct();
    Perf.FioFileNamesDistinct();
    Perf.DdFileNamesDistinct();
    Perf.IopingFileNamesDistinct();
    FreshKeys(respond, |before|, Plain, password, device, Perf.FioChecks);
    FreshKeys(respond, |before + fio|, Plain, password, device, Perf.DdChecks);
    FreshKeys(respond, |before + fio + dd|, Plain, password, device, Perf.IopingChecks);
    ApartThree(saved[0], saved[1], saved[2]);
    assert saved == [saved[0], saved[1], saved[2]];
  }

  lemma PowerFsApart(respond: (nat, string) -> ProcessOutcome, before: seq<string>, password: string, device: string)
    ensures var saved := PowerFsSaved(respond, before, password, device);
      SavedApart(saved) && forall k :: 0 <= k < |saved| ==> saved[k].dir in {Power.PowerThermalDir, Fsi.FsIntegrityDir}
  {
    hide Fresh, CommandLines, CheckKeys, FileNames, Keys, Distinct;
    SubdirsPlain();
    var power := CommandLines(Plain, password, device, Power.PowerThermalChecks);
    var saved := PowerFsSaved(respond, before, password, device);
    Power.PowerThermalTableKeys();
    Fsi.FsIntegrityTableKeys();
    Power.PowerThermalKeysDistinct();
    Fsi.FsIntegrityKeysDistinct();
    Power.PowerThermalFileNames();
    Fsi.FsIntegrityFileNames();
    FreshKeys(respond, |before|, Plain, password, device, Power.PowerThermalChecks);
    FreshKeys(respond, |before + power|, Plain, password, Fsi.NoDevice, Fsi.FsIntegrityChecks);
    ApartTwo(saved[0], saved[1]);
    assert saved == [saved[0], saved[1]];
  }

  lemma EnduranceSecurityApart(respond: (nat, string) -> ProcessOutcome, before: seq<string>, password: string, device: string)
    ensures var saved := EnduranceSecuritySaved(respond, before, password, device);
      SavedApart(saved) && forall k :: 0 <= k < |saved| ==> saved[k].dir in {End.EnduranceDir, Sec.SecurityDir}
  {
    hide Fresh, CommandLines, CheckKeys, FileNames, Keys, Distinct;
    SubdirsPlain();
    var endurance := CommandLines(Plain, password, device, End.EnduranceChecks);
    var saved := EnduranceSecuritySaved(respond, before, password, device);
    End.EnduranceTableKeys();
    Sec.SecurityTableKeys(SecurityRunPassword);
    End.EnduranceKeysDistinct();
    Sec.SecurityKeysDistinct();
    End.EnduranceFileNames();
    Sec.SecurityFileNames();
    FreshKeys(respond, |before|, Plain, password, device, End.EnduranceChecks);
    FreshKeys(respond, |before + endurance|, Quiet, password, device, Sec.SecurityChecks(SecurityRunPassword));
    ApartTwo(saved[0], saved[1]);
    assert saved == [saved[0], saved[1]];
  }

  /** The sub-directory names are plain names, different within each half of the run and between the halves. */
  lemma SubdirsPlain()
    ensures forall dir <- HealthPerformanceDirs + MonitoringDirs :: '/' !in dir
    ensures HealthPerformanceDirs !! MonitoringDirs
    ensures Health.SmartctlDir != Health.NvmecliDir
    ensures Perf.FioDir != Perf.DdDir && Perf.FioDir != Perf.IopingDir && Perf.DdDir != Perf.IopingDir
    ensures Power.PowerThermalDir != Fsi.FsIntegrityDir && End.EnduranceDir != Sec.SecurityDir
  {
  }

  // Two and three suites saved apart, stated once with the dictionaries' contents
  // hidden so that the proofs using them stay within the solver's budget.
  lemma ApartTwo(x: Saved, y: Saved)
    requires '/' !in x.dir && '/' !in y.dir && x.dir != y.dir
    requires Distinct(FileNames(Keys(x.results))) && Distinct(FileNames(Keys(y.results)))
    ensures SavedApart([x, y])
  {
    hide Distinct, FileNames, Keys;
  }

  lemma ApartThree(x: Saved, y: Saved, z: Saved)
    requires '/' !in x.dir && '/' !in y.dir && '/' !in z.dir && x.dir != y.dir && x.dir != z.dir && y.dir != z.dir
    requires Distinct(FileNames(Keys(x.results))) && Distinct(FileNames(Keys(y.results))) && Distinct(FileNames(Keys(z.results)))
    ensures SavedApart([x, y, z])
  {
    hide Distinct, FileNames, Keys;
  }

  /** A fresh dictionary holds exactly its table's keys, in order, when they are distinct. */
  lemma FreshKeys(respond: (nat, string) -> ProcessOutcome, start: nat, w: Wrapping, password: string,
                  device: string, table: seq<Check>)
    requires Distinct(CheckKeys(table))
    ensures Keys(Fresh(respond, start, w, password, device, table)) == CheckKeys(table)
  {
    RunRecordsEveryCheck(table, Outputs(respond, start, w, password, device, table));
  }

  /** Two lists saved apart, whose sub-directories differ from each other's, are saved apart together. */
  lemma ApartAppend(a: seq<Saved>, b: seq<Saved>)
    requires SavedApart(a) && SavedApart(b)
    requires forall j, k :: 0 <= j < |a| && 0 <= k < |b| ==> a[j].dir != b[k].dir
    ensures SavedApart(a + b)
  {
    var ab := a + b;
    forall j, k | 0 <= j < k < |ab| ensures ab[j].dir != ab[k].dir {
      if k < |a| {
      } else if j < |a| {
        assert ab[k] == b[k - |a|];
      } else {
        assert ab[j] == b[j - |a|] && ab[k] == b[k - |a|];
      }
    }
  }

  /**
   * `main`, given the `lsblk` listing (`None` when it could not be run),
   * the replies typed at the menu in order and the password typed at the
   * prompt. With no SSD it stops before the menu; with no accepted reply
   * it never gets past the menu; otherwise it validates the device read
   * back from the chosen entry. Nothing is run or saved unless a device
   * is chosen.
   */
  method RunValidation(sh: Shell, fs: FileSystem, listing: Option<seq<string>>, replies: seq<Option<int>>,
                       sudoPassword: string)
    returns (outcome: Outcome)
    modifies sh, fs
    ensures outcome.NoDevices? <==> SsdDevices(listing) == []
    ensures outcome.NoSelection? <==>
      SsdDevices(listing) != [] && FirstAccepted(|SsdDevices(listing)|, replies).None?
    ensures outcome.Validated? ==>
      var devices := SsdDevices(listing);
      var k := FirstAccepted(|devices|, replies);
      && k.Some?
      && outcome.device == ExtractPath(devices[replies[k.value].value - 1])
      && sh.log == old(sh.log) + ValidationLines(sudoPassword, outcome.device)
      && outcome.saved == Collected(sh.respond, old(sh.log), sudoPassword, outcome.device)
      && fs.dirs == old(fs.dirs) + {ResultsDir} + SaveDirs(ResultsDir, outcome.saved)
      && fs.files == SaveAll(old(fs.files), ResultsDir, outcome.saved)
      && fs.writes == old(fs.writes) + SaveWrites(ResultsDir, outcome.saved)
    ensures !outcome.Validated? ==>
      sh.log == old(sh.log) && fs.files == old(fs.files) && fs.dirs == old(fs.dirs) && fs.writes == old(fs.writes)
  {
    hide *;
    var devices := GetSsdDevices(listing);
    if devices == [] {
      return NoDevices;
    }
    var device, tries := SelectDevice(devices, replies);
    if device.None? {
      return NoSelection;
    }
    var saved := Validate(sh, fs, device.value, sudoPassword);
    outcome := Validated(device.value, saved);
  }

  /**
   * The body of `main` once a device is chosen: the six suite objects, the
   * nine runs in order, the results directory, then the six saves in order.
   */
  method Validate(sh: Shell, fs: FileSystem, device: string, sudoPassword: string) returns (saved: seq<Saved>)
    modifies sh, fs
    ensures sh.log == old(sh.log) + ValidationLines(sudoPassword, device)
    ensures saved == Collected(sh.respond, old(sh.log), sudoPassword, device)
    ensures fs.dirs == old(fs.dirs) + {ResultsDir} + SaveDirs(ResultsDir, saved)
    ensures fs.files == SaveAll(old(fs.files), ResultsDir, saved)
    ensures fs.writes == old(fs.writes) + SaveWrites(ResultsDir, saved)
  {
    var validator, performanceValidator, nvmeMonitor, fsMonitor, enduranceValidator, securityValidator;
    hide *;
    saved, validator, performanceValidator, nvmeMonitor, fsMonitor, enduranceValidator, securityValidator
      := BuildAndRun(sh, device, sudoPassword);
    SaveSuites(fs, saved, validator, performanceValidator, nvmeMonitor, fsMonitor, enduranceValidator, securityValidator);
  }

  /** The six constructor calls of `main`, then the nine runs. */
  method BuildAndRun(sh: Shell, device: string, sudoPassword: string)
    returns (saved: seq<Saved>, validator: Health.SSDValidation, performanceValidator: Perf.NVMePerformaceCheck,
             nvmeMonitor: Power.NVMePowerMonitoring, fsMonitor: Fsi.FileSystemIntegrityMonitoring,
             enduranceValidator: End.EnduranceValidation, securityValidator: Sec.SecurityValidation)
    modifies sh
    ensures sh.log == old(sh.log) + ValidationLines(sudoPassword, device)
    ensures saved == Collected(sh.respond, old(sh.log), sudoPassword, device)
    ensures saved == Gathered(validator, performanceValidator, nvmeMonitor, fsMonitor, enduranceValidator, securityValidator)
  {
    hide *;
    validator := new Health.SSDValidation(device, sudoPassword);
    performanceValidator := new Perf.NVMePerformaceCheck(device, sudoPassword);
    nvmeMonitor := new Power.NVMePowerMonitoring(device, sudoPassword);
    fsMonitor := new Fsi.FileSystemIntegrityMonitoring(sudoPassword);
    enduranceValidator := new End.EnduranceValidation(device, sudoPassword);
    securityValidator := new Sec.SecurityValidation(device, sudoPassword);
    saved := RunSuites(sh, device, sudoPassword, validator, performanceValidator, nvmeMonitor, fsMonitor,
                       enduranceValidator, securityValidator);
  }

  /** The suites' dictionaries in save order, with their directories and body styles. */
  function Gathered(validator: Health.SSDValidation, performanceValidator: Perf.NVMePerformaceCheck,
                    nvmeMonitor: Power.NVMePowerMonitoring, fsMonitor: Fsi.FileSystemIntegrityMonitoring,
                    enduranceValidator: End.EnduranceValidation, securityValidator: Sec.SecurityValidation): seq<Saved>
    reads validator, performanceValidator, nvmeMonitor, fsMonitor, enduranceValidator, securityValidator
  {
    [ Saved(Health.SmartctlDir, validator.smartctlResults, Bare),
      Saved(Health.NvmecliDir, validator.nvmecliResults, Bare),
      Saved(Perf.FioDir, performanceValidator.fioResults, Bare),
      Saved(Perf.DdDir, performanceValidator.ddResults, Bare),
      Saved(Perf.IopingDir, performanceValidator.iopingResults, Bare),
      Saved(Power.PowerThermalDir, nvmeMonitor.powerThermalResults, Bare),
      Saved(Fsi.FsIntegrityDir, fsMonitor.fsIntegrityResults, Bare),
      Saved(End.EnduranceDir, enduranceValidator.fioResults, Bare),
      Saved(Sec.SecurityDir, securityValidator.securityResults, NewlineTerminated) ]
  }

  /** The nine `run_all_*` calls of `main`, in order, on freshly built suites. */
  method RunSuites(sh: Shell, device: string, sudoPassword: string,
                   validator: Health.SSDValidation, performanceValidator: Perf.NVMePerformaceCheck,
                   nvmeMonitor: Power.NVMePowerMonitoring, fsMonitor: Fsi.FileSystemIntegrityMonitoring,
                   enduranceValidator: End.EnduranceValidation, securityValidator: Sec.SecurityValidation)
    returns (saved: seq<Saved>)
    requires validator.device == performanceValidator.device == nvmeMonitor.device == device
    requires enduranceValidator.device == securityValidator.device == device
    requires validator.sudoPassword == performanceValidator.sudoPassword == nvmeMonitor.sudoPassword == sudoPassword
    requires fsMonitor.sudoPassword == enduranceValidator.sudoPassword == securityValidator.sudoPassword == sudoPassword
    requires validator.smartctlResults == validator.nvmecliResults == []
    requires performanceValidator.fioResults == performanceValidator.ddResults == performanceValidator.iopingResults == []
    requires nvmeMonitor.powerThermalResults == fsMonitor.fsIntegrityResults == []
    requires enduranceValidator.fioResults == securityValidator.securityResults == []
    modifies sh, validator, performanceValidator, nvmeMonitor, fsMonitor, enduranceValidator, securityValidator
    ensures sh.log == old(sh.log) + ValidationLines(sudoPassword, device)
    ensures saved == Gathered(validator, performanceValidator, nvmeMonitor, fsMonitor, enduranceValidator, securityValidator)
    ensures saved == Collected(sh.respond, old(sh.log), sudoPassword, device)
  {
    hide HealthPerformanceLines, MonitoringLines, HealthPerformanceSaved, MonitoringSaved;
    ghost var log0 := sh.log;
    RunHealthPerformance(sh, device, sudoPassword, validator, performanceValidator);
    RunMonitoring(sh, device, sudoPassword, nvmeMonitor, fsMonitor, enduranceValidator, securityValidator);
    AppendAssoc(log0, HealthPerformanceLines(sudoPassword, device), MonitoringLines(sudoPassword, device));
    GatheredHalves(validator, performanceValidator, nvmeMonitor, fsMonitor, enduranceValidator, securityValidator);
    saved := Gathered(validator, performanceValidator, nvmeMonitor, fsMonitor, enduranceValidator, securityValidator);
  }

  /** The nine dictionaries, as the health and performance ones followed by the monitoring ones. */
  lemma GatheredHalves(validator: Health.SSDValidation, performanceValidator: Perf.NVMePerformaceCheck,
                       nvmeMonitor: Power.NVMePowerMonitoring, fsMonitor: Fsi.FileSystemIntegrityMonitoring,
                       enduranceValidator: End.EnduranceValidation, securityValidator: Sec.SecurityValidation)
    ensures Gathered(validator, performanceValidator, nvmeMonitor, fsMonitor, enduranceValidator, securityValidator)
         == HealthGathered(validator) + PerformanceGathered(performanceValidator)
            + (PowerFsGathered(nvmeMonitor, fsMonitor) + EnduranceSecurityGathered(enduranceValidator, securityValidator))
  {
  }

  function HealthGathered(validator: Health.SSDValidation): seq<Saved>
    reads validator
  {
    [ Saved(Health.SmartctlDir, validator.smartctlResults, Bare),
      Saved(Health.NvmecliDir, validator.nvmecliResults, Bare) ]
  }

  function PerformanceGathered(performanceValidator: Perf.NVMePerformaceCheck): seq<Saved>
    reads performanceValidator
  {
    [ Saved(Perf.FioDir, performanceValidator.fioResults, Bare),
      Saved(Perf.DdDir, performanceValidator.ddResults, Bare),
      Saved(Perf.IopingDir, performanceValidator.iopingResults, Bare) ]
  }

  function PowerFsGathered(nvmeMonitor: Power.NVMePowerMonitoring, fsMonitor: Fsi.FileSystemIntegrityMonitoring): seq<Saved>
    reads nvmeMonitor, fsMonitor
  {
    [ Saved(Power.PowerThermalDir, nvmeMonitor.powerThermalResults, Bare),
      Saved(Fsi.FsIntegrityDir, fsMonitor.fsIntegrityResults, Bare) ]
  }

  function EnduranceSecurityGathered(enduranceValidator: End.EnduranceValidation, securityValidator: Sec.SecurityValidation): seq<Saved>
    reads enduranceValidator, securityValidator
  {
    [ Saved(End.EnduranceDir, enduranceValidator.fioResults, Bare),
      Saved(Sec.SecurityDir, securityValidator.securityResults, NewlineTerminated) ]
  }

  method RunHealthPerformance(sh: Shell, device: string, sudoPassword: string,
                              validator: Health.SSDValidation, performanceValidator: Perf.NVMePerformaceCheck)
    requires validator.device == performanceValidator.device == device
    requires validator.sudoPassword == performanceValidator.sudoPassword == sudoPassword
    requires validator.smartctlResults == validator.nvmecliResults == []
    requires performanceValidator.fioResults == performanceValidator.ddResults == performanceValidator.iopingResults == []
    modifies sh, validator, performanceValidator
    ensures sh.log == old(sh.log) + HealthPerformanceLines(sudoPassword, device)
    ensures HealthGathered(validator) + PerformanceGathered(performanceValidator)
         == HealthPerformanceSaved(sh.respond, old(sh.log), sudoPassword, device)
  {
    hide HealthLines, PerformanceLines, HealthSaved, PerformanceSaved;
    ghost var log0 := sh.log;
    RunHealth(sh, device, sudoPassword, validator);
    RunPerformance(sh, device, sudoPassword, performanceValidator);
    AppendAssoc(log0, HealthLines(sudoPassword, device), PerformanceLines(sudoPassword, device));
  }

  method RunMonitoring(sh: Shell, device: string, sudoPassword: string,
                       nvmeMonitor: Power.NVMePowerMonitoring, fsMonitor: Fsi.FileSystemIntegrityMonitoring,
                       enduranceValidator: End.EnduranceValidation, securityValidator: Sec.SecurityValidation)
    requires nvmeMonitor.device == enduranceValidator.device == securityValidator.device == device
    requires nvmeMonitor.sudoPassword == fsMonitor.sudoPassword == sudoPassword
    requires enduranceValidator.sudoPassword == securityValidator.sudoPassword == sudoPassword
    requires nvmeMonitor.powerThermalResults == fsMonitor.fsIntegrityResults == []
    requires enduranceValidator.fioResults == securityValidator.securityResults == []
    modifies sh, nvmeMonitor, fsMonitor, enduranceValidator, securityValidator
    ensures sh.log == old(sh.log) + MonitoringLines(sudoPassword, device)
    ensures PowerFsGathered(nvmeMonitor, fsMonitor) + EnduranceSecurityGathered(enduranceValidator, securityValidator)
         == MonitoringSaved(sh.respond, old(sh.log), sudoPassword, device)
  {
    hide PowerFsLines, EnduranceSecurityLines, PowerFsSaved, EnduranceSecuritySaved;
    ghost var log0 := sh.log;
    RunPowerFs(sh, device, sudoPassword, nvmeMonitor, fsMonitor);
    RunEnduranceSecurity(sh, device, sudoPassword, enduranceValidator, securityValidator);
    AppendAssoc(log0, PowerFsLines(sudoPassword, device), EnduranceSecurityLines(sudoPassword, device));
  }

  /** `run_all_smartctl_tests`, then `run_all_nvmecli_tests`. */
  method RunHealth(sh: Shell, device: string, sudoPassword: string, validator: Health.SSDValidation)
    requires validator.device == device && validator.sudoPassword == sudoPassword
    requires validator.smartctlResults == validator.nvmecliResults == []
    modifies sh, validator
    ensures sh.log == old(sh.log) + HealthLines(sudoPassword, device)
    ensures HealthGathered(validator) == HealthSaved(sh.respond, old(sh.log), sudoPassword, device)
  {
    ghost var log0 := sh.log;
    validator.RunAllSmartctlTests(sh);
    validator.RunAllNvmecliTests(sh);
    AppendAssoc(log0, CommandLines(Plain, sudoPassword, device, Health.SmartctlChecks),
                CommandLines(Plain, sudoPassword, device, Health.NvmecliChecks));
  }

  /** `run_all_fio_tests`, `run_all_dd_tests`, then `run_all_ioPing_tests`. */
  method RunPerformance(sh: Shell, device: string, sudoPassword: string, performanceValidator: Perf.NVMePerformaceCheck)
    requires performanceValidator.device == device && performanceValidator.sudoPassword == sudoPassword
    requires performanceValidator.fioResults == performanceValidator.ddResults == performanceValidator.iopingResults == []
    modifies sh, performanceValidator
    ensures sh.log == old(sh.log) + PerformanceLines(sudoPassword, device)
    ensures PerformanceGathered(performanceValidator) == PerformanceSaved(sh.respond, old(sh.log), sudoPassword, device)
  {
    ghost var log0 := sh.log;
    ghost var l1 := CommandLines(Plain, sudoPassword, device, Perf.FioChecks);
    ghost var l2 := CommandLines(Plain, sudoPassword, device, Perf.DdChecks);
    performanceValidator.RunAllFioTests(sh);
    performanceValidator.RunAllDdTests(sh);
    AppendAssoc(log0, l1, l2);
    performanceValidator.RunAllIoPingTests(sh);
    AppendAssoc(log0, l1 + l2, CommandLines(Plain, sudoPassword, device, Perf.IopingChecks));
  }

  /** `run_all_power_thermal_tests`, then `run_all_fs_integrity_tests`. */
  method RunPowerFs(sh: Shell, device: string, sudoPassword: string,
                    nvmeMonitor: Power.NVMePowerMonitoring, fsMonitor: Fsi.FileSystemIntegrityMonitoring)
    requires nvmeMonitor.device == device && nvmeMonitor.sudoPassword == fsMonitor.sudoPassword == sudoPassword
    requires nvmeMonitor.powerThermalResults == fsMonitor.fsIntegrityResults == []
    modifies sh, nvmeMonitor, fsMonitor
    ensures sh.log == old(sh.log) + PowerFsLines(sudoPassword, device)
    ensures PowerFsGathered(nvmeMonitor, fsMonitor) == PowerFsSaved(sh.respond, old(sh.log), sudoPassword, device)
  {
    ghost var log0 := sh.log;
    nvmeMonitor.RunAllPowerThermalTests(sh);
    fsMonitor.RunAllFsIntegrityTests(sh);
    AppendAssoc(log0, CommandLines(Plain, sudoPassword, device, Power.PowerThermalChecks),
                CommandLines(Plain, sudoPassword, Fsi.NoDevice, Fsi.FsIntegrityChecks));
  }

  /** The endurance `run_all_fio_tests`, then `run_all_security_tests(password="secure_password")`. */
  method RunEnduranceSecurity(sh: Shell, device: string, sudoPassword: string,
                              enduranceValidator: End.EnduranceValidation, securityValidator: Sec.SecurityValidation)
    requires enduranceValidator.device == securityValidator.device == device
    requires enduranceValidator.sudoPassword == securityValidator.sudoPassword == sudoPassword
    requires enduranceValidator.fioResults == securityValidator.securityResults == []
    modifies sh, enduranceValidator, securityValidator
    ensures sh.log == old(sh.log) + EnduranceSecurityLines(sudoPassword, device)
    ensures EnduranceSecurityGathered(enduranceValidator, securityValidator)
         == EnduranceSecuritySaved(sh.respond, old(sh.log), sudoPassword, device)
  {
    ghost var log0 := sh.log;
    enduranceValidator.RunAllFioTests(sh);
    securityValidator.RunAllSecurityTests(sh, SecurityRunPassword);
    AppendAssoc(log0, CommandLines(Plain, sudoPassword, device, End.EnduranceChecks),
                CommandLines(Quiet, sudoPassword, device, Sec.SecurityChecks(SecurityRunPassword)));
  }

  lemma AppendAssoc<T>(a: seq<T>, b: seq<T>, c: seq<T>)
    ensures a + (b + c) == a + b + c
  {
  }

  /** `os.makedirs(results_dir, exist_ok=True)`, then the six `save_results(results_dir)` calls of `main`, in order. */
  method SaveSuites(fs: FileSystem, saved: seq<Saved>,
                    validator: Health.SSDValidation, performanceValidator: Perf.NVMePerformaceCheck,
                    nvmeMonitor: Power.NVMePowerMonitoring, fsMonitor: Fsi.FileSystemIntegrityMonitoring,
                    enduranceValidator: End.EnduranceValidation, securityValidator: Sec.SecurityValidation)
    requires saved == Gathered(validator, performanceValidator, nvmeMonitor, fsMonitor, enduranceValidator, securityValidator)
    modifies fs
    ensures fs.dirs == old(fs.dirs) + {ResultsDir} + SaveDirs(ResultsDir, saved)
    ensures fs.files == SaveAll(old(fs.files), ResultsDir, saved)
    ensures fs.writes == old(fs.writes) + SaveWrites(ResultsDir, saved)
  {
    fs.MakeDirs(ResultsDir);
    ghost var files0, dirs0, writes0 := fs.files, fs.dirs, fs.writes;
    ghost var first := HealthGathered(validator) + PerformanceGathered(performanceValidator);
    ghost var second := PowerFsGathered(nvmeMonitor, fsMonitor) + EnduranceSecurityGathered(enduranceValidator, securityValidator);
    SaveHealthPerformance(fs, validator, performanceValidator);
    SaveMonitoring(fs, nvmeMonitor, fsMonitor, enduranceValidator, securityValidator);
    SaveAppend(files0, writes0, dirs0, ResultsDir, first, second);
    GatheredHalves(validator, performanceValidator, nvmeMonitor, fsMonitor, enduranceValidator, securityValidator);
  }

  method SaveHealthPerformance(fs: FileSystem, validator: Health.SSDValidation, performanceValidator: Perf.NVMePerformaceCheck)
    modifies fs
    ensures var saved := HealthGathered(validator) + PerformanceGathered(performanceValidator);
      && fs.dirs == old(fs.dirs) + SaveDirs(ResultsDir, saved)
      && fs.files == SaveAll(old(fs.files), ResultsDir, saved)
      && fs.writes == old(fs.writes) + SaveWrites(ResultsDir, saved)
  {
    ghost var files0, dirs0, writes0 := fs.files, fs.dirs, fs.writes;
    ghost var health := HealthGathered(validator);
    validator.SaveResults(fs, ResultsDir);
    SaveTwo(files0, writes0, dirs0, ResultsDir, health);
    ghost var files1, dirs1, writes1 := fs.files, fs.dirs, fs.writes;
    ghost var performance := PerformanceGathered(performanceValidator);
    performanceValidator.SaveResults(fs, ResultsDir);
    SaveThree(files1, writes1, dirs1, ResultsDir, performance);
    SaveAppend(files0, writes0, dirs0, ResultsDir, health, performance);
  }

  method SaveMonitoring(fs: FileSystem, nvmeMonitor: Power.NVMePowerMonitoring, fsMonitor: Fsi.FileSystemIntegrityMonitoring,
                        enduranceValidator: End.EnduranceValidation, securityValidator: Sec.SecurityValidation)
    modifies fs
    ensures var saved := PowerFsGathered(nvmeMonitor, fsMonitor) + EnduranceSecurityGathered(enduranceValidator, securityValidator);
      && fs.dirs == old(fs.dirs) + SaveDirs(ResultsDir, saved)
      && fs.files == SaveAll(old(fs.files), ResultsDir, saved)
      && fs.writes == old(fs.writes) + SaveWrites(ResultsDir, saved)
  {
    ghost var files0, dirs0, writes0 := fs.files, fs.dirs, fs.writes;
    ghost var powerFs := PowerFsGathered(nvmeMonitor, fsMonitor);
    nvmeMonitor.SaveResults(fs, ResultsDir);
    fsMonitor.SaveResults(fs, ResultsDir);
    SaveTwo(files0, writes0, dirs0, ResultsDir, powerFs);
    ghost var files1, dirs1, writes1 := fs.files, fs.dirs, fs.writes;
    ghost var enduranceSecurity := EnduranceSecurityGathered(enduranceValidator, securityValidator);
    enduranceValidator.SaveResults(fs, ResultsDir);
    securityValidator.SaveResults(fs, ResultsDir);
    SaveTwo(files1, writes1, dirs1, ResultsDir, enduranceSecurity);
    SaveAppend(files0, writes0, dirs0, ResultsDir, powerFs, enduranceSecurity);
  }

  // SaveTwo and SaveThree unfold a save of two or three dictionaries one step at a
  // time, with everything else hidden, so that the runner's proof stays small.

  /** Saving two dictionaries is saving the first, then the second. */
  lemma SaveTwo(files: map<string, string>, writes: seq<string>, dirs: set<string>, base: string, saved: seq<Saved>)
    requires |saved| == 2
    ensures SaveAll(files, base, saved)
         == WriteAll(WriteAll(files, PathJoin(base, saved[0].dir), saved[0].results, saved[0].style),
                     PathJoin(base, saved[1].dir), saved[1].results, saved[1].style)
    ensures writes + SaveWrites(base, saved)
         == writes + Paths(PathJoin(base, saved[0].dir), saved[0].results) + Paths(PathJoin(base, saved[1].dir), saved[1].results)
    ensures dirs + SaveDirs(base, saved) == dirs + {PathJoin(base, saved[0].dir)} + {PathJoin(base, saved[1].dir)}
  {
    hide *;
    assert saved[..0] == [];
    SaveNone(files, base);
    SavePrefix(files, writes, dirs, base, saved, 0);
    SavePrefix(files, writes, dirs, base, saved, 1);
    assert saved[..2] == saved;
  }

  lemma SaveNone(files: map<string, string>, base: string)
    ensures SaveAll(files, base, []) == files && SaveWrites(base, []) == [] && SaveDirs(base, []) == {}
  {
  }

  /** Saving three dictionaries is saving them one after the other. */
  lemma SaveThree(files: map<string, string>, writes: seq<string>, dirs: set<string>, base: string, saved: seq<Saved>)
    requires |saved| == 3
    ensures SaveAll(files, base, saved)
         == WriteAll(WriteAll(WriteAll(files, PathJoin(base, saved[0].dir), saved[0].results, saved[0].style),
                              PathJoin(base, saved[1].dir), saved[1].results, saved[1].style),
                     PathJoin(base, saved[2].dir), saved[2].results, saved[2].style)
    ensures writes + SaveWrites(base, saved)
         == writes + Paths(PathJoin(base, saved[0].dir), saved[0].results) + Paths(PathJoin(base, saved[1].dir), saved[1].results)
            + Paths(PathJoin(base, saved[2].dir), saved[2].results)
    ensures dirs + SaveDirs(base, saved)
         == dirs + {PathJoin(base, saved[0].dir)} + {PathJoin(base, saved[1].dir)} + {PathJoin(base, saved[2].dir)}
  {
    hide *;
    SaveTwo(files, writes, dirs, base, saved[..2]);
    SavePrefix(files, writes, dirs, base, saved, 2);
    assert saved[..3] == saved;
  }

  /** Saving `a` and then `b` is saving `a + b`: files, paths written and directories alike. */
  lemma SaveAppend(files: map<string, string>, writes: seq<string>, dirs: set<string>, base: string,
                   a: seq<Saved>, b: seq<Saved>)
    ensures SaveAll(files, base, a + b) == SaveAll(SaveAll(files, base, a), base, b)
    ensures writes + SaveWrites(base, a + b) == writes + SaveWrites(base, a) + SaveWrites(base, b)
    ensures dirs + SaveDirs(base, a + b) == dirs + SaveDirs(base, a) + SaveDirs(base, b)
  {
    SaveAllAppend(files, base, a, b);
    SaveWritesAppend(base, a, b);
    AppendAssoc(writes, SaveWrites(base, a), SaveWrites(base, b));
    SaveDirsAppend(base, a, b);
  }

  lemma {:induction false} SaveAllAppend(files: map<string, string>, base: string, a: seq<Saved>, b: seq<Saved>)
    ensures SaveAll(files, base, a + b) == SaveAll(SaveAll(files, base, a), base, b)
    decreases |b|
  {
    hide *;
    if b == [] {
      assert a + b == a;
      SaveNone(SaveAll(files, base, a), base);
    } else {
      var n := |b| - 1;
      SaveAllAppend(files, base, a, b[..n]);
      assert (a + b)[..|a| + n] == a + b[..n];
      assert (a + b)[|a| + n] == b[n];
      SaveAllLast(files, base, a + b);
      SaveAllLast(SaveAll(files, base, a), base, b);
    }
  }

  lemma SaveAllLast(files: map<string, string>, base: string, saved: seq<Saved>)
    requires saved != []
    ensures var n := |saved| - 1;
      SaveAll(files, base, saved) == WriteAll(SaveAll(files, base, saved[..n]), PathJoin(base, saved[n].dir), saved[n].results, saved[n].style)
  {
  }

  lemma {:induction false} SaveWritesAppend(base: string, a: seq<Saved>, b: seq<Saved>)
    ensures SaveWrites(base, a + b) == SaveWrites(base, a) + SaveWrites(base, b)
    decreases |b|
  {
    if b == [] {
      assert a + b == a;
    } else {
      var n := |b| - 1;
      hide *;
      var last := Paths(PathJoin(base, b[n].dir), b[n].results);
      SaveWritesAppend(base, a, b[..n]);
      assert (a + b)[..|a| + n] == a + b[..n];
      assert (a + b)[|a| + n] == b[n];
      SaveWritesLast(base, a + b);
      SaveWritesLast(base, b);
      AppendAssoc(SaveWrites(base, a), SaveWrites(base, b[..n]), last);
    }
  }

  lemma SaveWritesLast(base: string, saved: seq<Saved>)
    requires saved != []
    ensures var n := |saved| - 1;
      SaveWrites(base, saved) == SaveWrites(base, saved[..n]) + Paths(PathJoin(base, saved[n].dir), saved[n].results)
  {
  }

  lemma {:induction false} SaveDirsAppend(base: string, a: seq<Saved>, b: seq<Saved>)
    ensures SaveDirs(base, a + b) == SaveDirs(base, a) + SaveDirs(base, b)
    decreases |b|
  {
    if b == [] {
      assert a + b == a;
    } else {
      var n := |b| - 1;
      SaveDirsAppend(base, a, b[..n]);
      assert (a + b)[..|a| + n] == a + b[..n];
    }
  }

  /** Saving one more dictionary: its files go over the earlier ones, its paths after theirs, its directory beside theirs. */
  lemma SavePrefix(files: map<string, string>, writes: seq<string>, dirs: set<string>, base: string, saved: seq<Saved>, k: nat)
    requires k < |saved|
    ensures SaveAll(files, base, saved[..k + 1])
         == WriteAll(SaveAll(files, base, saved[..k]), PathJoin(base, saved[k].dir), saved[k].results, saved[k].style)
    ensures writes + SaveWrites(base, saved[..k + 1])
         == writes + SaveWrites(base, saved[..k]) + Paths(PathJoin(base, saved[k].dir), saved[k].results)
    ensures dirs + SaveDirs(base, saved[..k + 1]) == dirs + SaveDirs(base, saved[..k]) + {PathJoin(base, saved[k].dir)}
  {
    hide WriteAll, PathJoin, Paths;
    assert saved[..k + 1][..k] == saved[..k];
  }
}
