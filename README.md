# SSD validation suites: a Dafny model of the result-collection framework

The repository validates one NVMe or SATA SSD by running shell commands
(smartctl, nvme-cli including format and sanitize, fio, dd, ioping, fsck,
lm-sensors). `main.py` finds the SSDs in the `lsblk` listing,
shows a numbered menu, asks for the sudo password and then drives six suite
objects. Each suite builds its command lines from f-strings around the chosen
device path. It runs them through a `run_command` wrapper that pipes the
password into `sudo -S`. It stores each captured output in an
insertion-ordered dictionary under a fixed check name. Finally it saves every
entry as `<snake_case_name>.txt` in its own sub-directory of the results
directory.

The model follows that structure module by module:

- `Strings`: the parts of Python's `str` the core uses. These are `split()`, `strip()`, `lower()`, `replace(' ', '_')`, `in`, `split('(')[-1]`, `strip(')')` and decimal formatting of integers.
- `Templates`: a command as a sequence of pieces (literal text or the device path). It comes in two shapes: `Raw` (an f-string) or `Words` (an argument list joined by spaces).
- `Executor`: the shell as an oracle (`Shell`, a class with the log of lines run so far). It holds the two `run_command` variants (`Plain`, and `Quiet` for the security suite), and `RunChecks`, the loop every `run_all_*` method amounts to.
- `OrderedMap`: Python's insertion-ordered `dict` as a sequence of entries with distinct keys.
- `ResultStore`: file naming, file bodies, `os.makedirs` and the writes of `save_results`, over a `FileSystem` class holding a map from path to contents.
- One module per suite: `HealthMonitoring`, `PerformanceBenchmarking`, `Endurance`, `Security`, `FileSystemIntegrity` and `PowerMonitoring`. Each holds the suite's class with its fields, its command table in source order, and lemmas about its commands, keys and file names.
- `MainFlow`: `get_ssd_devices`, the device menu, the run of all nine test groups and the six saves.

What the source promises and the model proves:
- every check of a suite is recorded under its own key, in source order, and a second run keeps the key order;
- the password reaches the shell only as `echo <password> | sudo -S`, and the wrapped command can be read back from the line;
- a device-free command renders the same for every device;
- the saved files can be read back entry by entry, and no suite's save overwrites another suite's files;
- the menu stops at the first reply that is a valid entry number, and the device read back from an entry is the path it was built from.

Several things in the source look unintended. The model follows the code as written in each case and states the consequence as a lemma:
- `run_all_ioPing_tests` calls `ioping_sequential_test("4k", 10)`, so the count is `4k` and the block size `10` (`PerformanceBenchmarking.IopingSequentialLine`).
- `dd_write_speed_with_different_block` is run with block size `"124"`, and `dd_test_read_latency` with `"4K"`.
- The endurance checks `run_smart_attributes` and `run_disk_health` send the same command line (`Endurance.SmartAttributesTwice`).
- Seven file-system commands already start with `sudo`: `check_filesystem_status` and the six on the fixed disk. Their lines run `sudo -S sudo ...`, for example `sudo -S sudo fsck -Af -M` (`FileSystemIntegrity.DoubleSudo`).
- `get_nvme_power` ends in a space after `grep 'Power'` (`PowerMonitoring.NvmePowerTrailingSpace`).
- `get_nvme_firmware_version` greps for the misspelt `frimware_version`.
- The check key `Read _Latency_Test` contains a space, which becomes a double underscore in its file name (`PerformanceBenchmarking.ReadLatencyFileName`).
- The device menu reads the path back with `split('(')[-1].strip(')')`. `strip(')')` removes parentheses at both ends of the path, not only the closing one. So a path round-trips only when it neither starts nor ends with `)` and contains no `(` (`MainFlow.PlainPath`). A path that starts with `)` loses that character (`MainFlow.LeadingParenthesisLost`). The model follows the code here, not the weaker reading in which only a trailing `)` is removed.

## Model

| member | source | states |
|---|---|---|
| Strings.Split | main.py:25 | every word `str.split()` returns is non-empty and free of whitespace |
| Strings.WordLength | main.py:25 | the first word ends at the first whitespace character or at the end of the text |
| Strings.SplitAround | main.py:25 | a whitespace character separates: the words of `a + c + b` are the words of `a` followed by those of `b` |
| Strings.SplitWord | main.py:25 | a single word splits into itself |
| Strings.SplitLeadingWord | main.py:25 | a word followed by a space contributes exactly itself in front of the rest's words |
| Strings.SplitUnwords | main.py:25 | joining whitespace-free words with single spaces and splitting again gives back the same words |
| Strings.StripLeft | Validation_Scritps/Security_script.py:23 | the result is a suffix of the input, everything cut off is whitespace, and it does not start with whitespace |
| Strings.StripRight | Validation_Scritps/Security_script.py:23 | the result is a prefix of the input, everything cut off is whitespace, and it does not end with whitespace |
| Strings.StripIsTrimmedSlice | Validation_Scritps/Security_script.py:23 | `strip()` returns a slice `s[i..j]` whose cut-off ends are all whitespace and whose first and last characters are not |
| Strings.StripIdempotent | Validation_Scritps/Security_script.py:23 | stripping twice is the same as stripping once |
| Strings.Strip | Validation_Scritps/Security_script.py:23 | `strip()` is no longer than its input and neither starts nor ends with whitespace |
| Strings.Contains | main.py:22-24 | `sub in s` holds exactly when `sub` occurs at some position of `s` |
| Strings.AfterLast | main.py:56 | `split(sep)[-1]` contains no separator and is no longer than the input |
| Strings.AfterLastIsSuffix | main.py:56 | `split(sep)[-1]` is the suffix after the last separator, and is preceded by the separator whenever it is shorter than the input |
| Strings.DropLeading | main.py:56 | the leading half of `strip(ch)` leaves a text that does not start with `ch` |
| Strings.DropLeadingIsSuffix | main.py:56 | the leading half of `strip(ch)` removes exactly a run of `ch` from the front |
| Strings.DropTrailing | main.py:56 | the trailing half of `strip(ch)` leaves a text that does not end with `ch` |
| Strings.DropTrailingIsPrefix | main.py:56 | the trailing half of `strip(ch)` removes exactly a run of `ch` from the back |
| Strings.DropLeadingStops | main.py:56 | a text not starting with `ch` is left alone at the front |
| Strings.DropLeadingOnce | main.py:56 | one leading `ch` in front of a text not starting with `ch` is removed, and only it |
| Strings.DropTrailingOnce | main.py:56 | one trailing `ch` after a text not ending with `ch` is removed, and only it |
| Strings.StripChar | main.py:56 | `strip(')')` is no longer than its input, keeps only characters of the input, and neither starts nor ends with `)` |
| Strings.Lower | Validation_Scritps/Health_Monitoring.py:280 | `lower()` keeps the length, leaves no upper-case ASCII letter, and changes exactly the upper-case ASCII letters |
| Strings.ReplaceChar | Validation_Scritps/Health_Monitoring.py:280 | `replace(' ', '_')` keeps the length, leaves no occurrence of the replaced character, and leaves every other character in place |
| Strings.Decimal | Validation_Scritps/Performance_Benchmarking.py:43-45 | `str(n)` is a non-empty string of digits without a leading zero |
| Strings.DecimalRoundTrip | Validation_Scritps/Performance_Benchmarking.py:43-45 | reading the digits of `str(n)` back gives `n` |
| Strings.DecimalNoSpace | Validation_Scritps/Performance_Benchmarking.py:43-45 | an interpolated integer never contains whitespace |
| Templates.FillAppend | Validation_Scritps/Health_Monitoring.py:31 | filling in the device distributes over concatenation of templates |
| Templates.Fill | Validation_Scritps/Health_Monitoring.py:31 | an f-string that interpolates the device path is at least as long as the path |
| Templates.Render | Validation_Scritps/Performance_Benchmarking.py:37-47 | a command written as words separated by single spaces fills in to the same text as its run of pieces with the spaces as literal text |
| Templates.FillDeviceFree | Validation_Scritps/File_System_integrity.py:24-27 | a template without the device renders the same for any device |
| Templates.FillLonger | Validation_Scritps/Health_Monitoring.py:31 | a longer device path never gives a shorter command, and gives a strictly longer one when the template uses the device |
| Templates.FillAtDevice | Validation_Scritps/Health_Monitoring.py:31 | the device path appears verbatim where the template places it |
| Templates.FillDevice | Validation_Scritps/Health_Monitoring.py:31 | two devices give the same command exactly when the template does not use the device or the devices are equal |
| Templates.FillEach | Validation_Scritps/Performance_Benchmarking.py:37-47 | each argument word is filled in on its own, in order |
| Templates.RenderWords | Validation_Scritps/Performance_Benchmarking.py:37-47 | an argument-list command renders to its filled words joined by single spaces |
| Templates.FillSpaced | Validation_Scritps/Performance_Benchmarking.py:37-47 | the space-separated template of a word list fills to the words joined by single spaces |
| Templates.RenderPieces | Validation_Scritps/Performance_Benchmarking.py:37-47 | both command shapes render as the fill of one piece sequence |
| Templates.RenderDevice | Validation_Scritps/Health_Monitoring.py:31 | two devices give the same command line exactly when the command does not use the device or the devices are equal |
| Templates.SplitWords | Validation_Scritps/Performance_Benchmarking.py:37-47 | when every filled argument is a word, the shell sees exactly those arguments |
| Templates.RenderFixed | Validation_Scritps/File_System_integrity.py:24-27 | a constant command renders to its own text for every device |
| Templates.RenderAround | Validation_Scritps/Health_Monitoring.py:31 | an f-string `before{device}after` renders to `before`, the device path, then `after` |
| Templates.FillWord | Validation_Scritps/Performance_Benchmarking.py:37-47 | a literal word fills to itself |
| Templates.FillFlag | Validation_Scritps/Performance_Benchmarking.py:38-45 | a `--flag=value` word fills to the flag followed by the value |
| Templates.FillDeviceFlag | Validation_Scritps/Performance_Benchmarking.py:104 | a `flag={device}` word fills to the flag followed by the device path |
| Templates.FillDeviceWord | Validation_Scritps/Performance_Benchmarking.py:151 | a bare `{device}` word fills to the device path |
| Executor.Shell.constructor | Validation_Scritps/Health_Monitoring.py:20 | a fresh shell has run nothing |
| Executor.Shell.Execute | Validation_Scritps/Health_Monitoring.py:20 | one process per call: the line is appended to the log and the outcome is the oracle's answer to that invocation |
| Executor.Prefix | Validation_Scritps/Health_Monitoring.py:19 | the password is carried verbatim, right after the five characters of `echo `, inside 16 characters of wrapper; the wrapper text itself is spelt out by `Executor.WrappedLine` and `Executor.QuietLine` |
| Executor.Suffix | Validation_Scritps/Security_script.py:18 | only the quiet (security-suite) wrapper appends anything after the command; `Executor.QuietLine` states that it is ` 2>/dev/null` |
| Executor.WrappedLine | Validation_Scritps/Health_Monitoring.py:19 | the plain wrapper hands the shell `echo <password> \| sudo -S <command>` |
| Executor.QuietLine | Validation_Scritps/Security_script.py:18 | the quiet wrapper hands the shell `echo <password> \| sudo -S <command> 2>/dev/null` |
| Executor.WrappedSudo | Validation_Scritps/File_System_integrity.py:15 | the wrapped line runs `sudo -S sudo ...` exactly when the command itself starts with `sudo ` |
| Executor.UnwrapCommandLine | Validation_Scritps/Health_Monitoring.py:19 | the command can be read back unchanged from the wrapped line, for both wrappings |
| Executor.CommandLineWords | Validation_Scritps/Health_Monitoring.py:19 | the shell sees `echo`, the password's words, `\|`, `sudo`, `-S`, then the command's words |
| Executor.SudoWords | Validation_Scritps/Health_Monitoring.py:19 | the pipe into `sudo -S` contributes exactly the words `\|`, `sudo`, `-S` before the command's words |
| Executor.ReplyTextShape | Validation_Scritps/Health_Monitoring.py:17-23 | the returned text ends with the captured output (stripped in the quiet variant), and starts with the error prefix exactly when the process failed or the output itself starts so |
| Executor.RunCommand | Validation_Scritps/Health_Monitoring.py:17-23 | one wrapped line is run and the text returned is the reply text of its outcome; in the security suite's quiet variant the line also carries `2>/dev/null` and the output is stripped, on success and on failure |
| Executor.CommandLinesDeviceFree | Validation_Scritps/File_System_integrity.py:6-8 | a suite whose commands never use the device sends the same lines whatever the device |
| Executor.RunChecks | Validation_Scritps/Health_Monitoring.py:216-227 | the shell runs the suite's lines in order, and the dictionary becomes the old one with each key assigned the text of its own invocation |
| Executor.CheckKeys | Validation_Scritps/Health_Monitoring.py:216-227 | one key per declared check, in declared order |
| Executor.CommandLines | Validation_Scritps/Health_Monitoring.py:216-227 | one wrapped line per declared check, in declared order, each wrapping its builder's command filled in with the device |
| Executor.RunStep | Validation_Scritps/Health_Monitoring.py:216-227 | one more `results[key] = builder()` line extends the log by its line and the dictionary by its assignment |
| Executor.TableStep | Validation_Scritps/Health_Monitoring.py:216-227 | one more check adds one key, one line and one output at the end |
| Executor.RunRecordsEveryCheck | Validation_Scritps/Health_Monitoring.py:216-227 | from an empty dictionary, a suite with distinct keys records exactly its keys in order, each holding the text of its own check |
| OrderedMap.AssignKeys | Validation_Scritps/Health_Monitoring.py:217 | `d[k] = v` never reorders: a present key keeps its place and a new key goes last |
| OrderedMap.IndexOf | Validation_Scritps/Health_Monitoring.py:217 | the position of the first entry with the key: it holds the key and no earlier entry does |
| OrderedMap.Lookup | Validation_Scritps/Health_Monitoring.py:217 | a key has a value exactly when it is present, and the value returned is stored under it |
| OrderedMap.Assign | Validation_Scritps/Health_Monitoring.py:217 | assigning to a present key keeps the size, to a new key adds one entry, and the pair is stored afterwards |
| OrderedMap.AssignAll | Validation_Scritps/Health_Monitoring.py:216-227 | a run of assignments never shrinks the dictionary and adds at most one entry per assignment |
| OrderedMap.AssignLookup | Validation_Scritps/Health_Monitoring.py:217 | after `d[k] = v`, `d[k]` is `v` and every other key reads as before |
| OrderedMap.AssignKeepsDistinct | Validation_Scritps/Health_Monitoring.py:217 | assignment keeps keys distinct |
| OrderedMap.AssignAllStep | Validation_Scritps/Health_Monitoring.py:216-227 | a run of assignments followed by one more is that run extended by one |
| OrderedMap.AssignAllFresh | Validation_Scritps/Health_Monitoring.py:216-227 | distinct new keys are appended in assignment order |
| OrderedMap.AssignAllExisting | Validation_Scritps/Health_Monitoring.py:216-227 | re-assigning keys that are all present leaves the key order unchanged |
| OrderedMap.AssignAllCovers | Validation_Scritps/Health_Monitoring.py:216-227 | every assigned key and every earlier key is present afterwards |
| OrderedMap.AssignAllKeepsDistinct | Validation_Scritps/Health_Monitoring.py:216-227 | a run of assignments keeps keys distinct |
| OrderedMap.AssignAllLookup | Validation_Scritps/Health_Monitoring.py:216-227 | with distinct keys, each assigned key reads its assigned value and every other key reads as before |
| OrderedMap.RerunKeepsKeys | Validation_Scritps/Health_Monitoring.py:216-227 | running a suite's assignments a second time, with any new outputs, keeps the key order of the first run |
| ResultStore.FileStemShape | Validation_Scritps/Health_Monitoring.py:280 | `replace(' ', '_').lower()` keeps the length, maps each space to `_` and each capital to its lower-case letter, and yields a canonical stem |
| ResultStore.FileStem | Validation_Scritps/Health_Monitoring.py:280 | the stem has the name's length and is canonical: no space and no upper-case ASCII letter |
| ResultStore.FileNames | Validation_Scritps/Health_Monitoring.py:280 | one file name per check name, in order |
| ResultStore.Paths | Validation_Scritps/Health_Monitoring.py:279-281 | one path per dictionary entry, in dictionary order, each the directory joined with the entry's file name |
| ResultStore.FileStemOfCanonical | Validation_Scritps/Endurance_script.py:197 | a key that is already lower-case without spaces is its own stem |
| ResultStore.SnakeCaseCanonical | Validation_Scritps/Endurance_script.py:175-186 | keys made of lower-case letters and underscores are canonical |
| ResultStore.FileStemIs | Validation_Scritps/File_System_integrity.py:122 | a stem agreeing with the naming rule at every character is the file stem |
| ResultStore.CanonicalFileNamesDistinct | Validation_Scritps/Endurance_script.py:197 | distinct canonical keys give each key the file `key.txt`, and no two keys share a file |
| ResultStore.StemsFileNamesDistinct | Validation_Scritps/File_System_integrity.py:122 | keys with distinct stems give distinct file names `stem.txt` |
| ResultStore.FileStemIdempotent | Validation_Scritps/Health_Monitoring.py:280 | applying the naming rule twice is the same as once |
| ResultStore.FileNameInjectiveOnStems | Validation_Scritps/Health_Monitoring.py:280 | two keys share a file exactly when they share a stem |
| ResultStore.FileNameNoSlash | Validation_Scritps/Health_Monitoring.py:280-281 | a key without `/` never names a file outside the suite directory |
| ResultStore.JoinInjective | Validation_Scritps/Health_Monitoring.py:273-281 | `os.path.join` with a slash-free directory part determines both parts |
| ResultStore.SubdirsKeepApart | Validation_Scritps/Health_Monitoring.py:273-281 | files in two different slash-free sub-directories never share a path |
| ResultStore.ParseBodyRoundTrip | Validation_Scritps/Health_Monitoring.py:283 | a result file gives back the check name and the whole output, in both body styles |
| ResultStore.Body | Validation_Scritps/Health_Monitoring.py:283 | the file starts with the check name followed by a newline, and its length is the name, the divider line and the output with their separators |
| ResultStore.FileSystem.constructor | Validation_Scritps/Health_Monitoring.py:275 | the model starts from the given files and directories with nothing written |
| ResultStore.FileSystem.MakeDirs | Validation_Scritps/Health_Monitoring.py:275 | `os.makedirs(..., exist_ok=True)` adds the directory, is harmless when it exists, and touches no file |
| ResultStore.FileSystem.WriteFile | Validation_Scritps/Health_Monitoring.py:282-283 | opening with `"w"` replaces the whole file at the joined path and records the write |
| ResultStore.WriteResults | Validation_Scritps/Health_Monitoring.py:279-284 | the save loop writes the entries' paths in iteration order and the files become `WriteAll` of the old files |
| ResultStore.WriteAllDomain | Validation_Scritps/Health_Monitoring.py:279-284 | after saving, the files are exactly the old ones plus one per entry |
| ResultStore.WriteAllOutside | Validation_Scritps/Health_Monitoring.py:279-284 | files outside the entries' paths are untouched |
| ResultStore.WriteAllLastWins | Validation_Scritps/Health_Monitoring.py:279-284 | an entry whose file no later entry shares holds that entry's body |
| ResultStore.WriteAllReadsBack | Validation_Scritps/Health_Monitoring.py:279-284 | with distinct file names, every entry can be read back from its own file |
| ResultStore.SavedInOtherSubdir | Validation_Scritps/Health_Monitoring.py:273-292 | saving into one sub-directory keeps everything readable in another |
| ResultStore.FileNamesDistinctIf | Validation_Scritps/Health_Monitoring.py:280 | keys that differ in length or in one of their first two case-folded characters get distinct file names |
| ResultStore.WriteAllOverwrites | Validation_Scritps/Health_Monitoring.py:282 | a saved path holds the same contents whatever the file had before |
| ResultStore.WriteAllKeepsOtherSubdir | Validation_Scritps/Health_Monitoring.py:273-292 | any file in another sub-directory keeps its contents |
| ResultStore.SaveTwice | Validation_Scritps/Health_Monitoring.py:279-292 | saving a re-run dictionary with the same keys leaves exactly the second run's files |
| ResultStore.SaveIdempotent | Validation_Scritps/Health_Monitoring.py:279-292 | saving the same dictionary twice is the same as saving it once |
| HealthMonitoring.SSDValidation.constructor | Validation_Scritps/Health_Monitoring.py:7-11 | a validator holds its device and password with both dictionaries empty |
| HealthMonitoring.SSDValidation.RunAllSmartctlTests | Validation_Scritps/Health_Monitoring.py:216-227 | the eleven smartctl lines are run in order and each result is assigned under its key; the nvme-cli dictionary is unchanged |
| HealthMonitoring.SSDValidation.RunAllNvmecliTests | Validation_Scritps/Health_Monitoring.py:238-253 | the fifteen nvme-cli lines are run in order and each result is assigned under its key; the smartctl dictionary is unchanged |
| HealthMonitoring.SSDValidation.SaveResults | Validation_Scritps/Health_Monitoring.py:271-292 | both sub-directories are created, then the smartctl entries and then the nvme-cli entries are written in iteration order |
| HealthMonitoring.ChecksUseDevice | Validation_Scritps/Health_Monitoring.py:30-190 | every smartctl and nvme-cli command interpolates the device path |
| HealthMonitoring.OverallHealthLine | Validation_Scritps/Health_Monitoring.py:30-32 | the overall-health check sends `echo <password> \| sudo -S smartctl -H <device>` |
| HealthMonitoring.SmartctlTableKeys | Validation_Scritps/Health_Monitoring.py:216-227 | the smartctl checks are recorded under the eleven keys of the source, in source order |
| HealthMonitoring.NvmecliTableKeys | Validation_Scritps/Health_Monitoring.py:238-253 | the nvme-cli checks are recorded under the fifteen keys of the source, in source order |
| HealthMonitoring.SmartctlKeysDistinct | Validation_Scritps/Health_Monitoring.py:216-227 | the eleven smartctl keys are pairwise distinct |
| HealthMonitoring.NvmecliKeysDistinct | Validation_Scritps/Health_Monitoring.py:238-253 | the fifteen nvme-cli keys are pairwise distinct |
| HealthMonitoring.SmartctlRunKeys | Validation_Scritps/Health_Monitoring.py:216-227 | a fresh smartctl run records exactly its eleven keys in order with each check's own output, and a second run keeps that order |
| HealthMonitoring.NvmecliRunKeys | Validation_Scritps/Health_Monitoring.py:238-253 | a fresh nvme-cli run records exactly its fifteen keys in order with each check's own output, and a second run keeps that order |
| HealthMonitoring.SmartctlFileNamesDistinct | Validation_Scritps/Health_Monitoring.py:279-284 | no two smartctl keys share a file |
| HealthMonitoring.NvmecliFileNamesDistinct | Validation_Scritps/Health_Monitoring.py:287-292 | no two nvme-cli keys share a file |
| HealthMonitoring.SaveKeepsBothDictionaries | Validation_Scritps/Health_Monitoring.py:271-292 | after the save, every entry of both dictionaries can be read back, although both use the keys `Device Info` and `Error Log` |
| HealthMonitoring.SelfTestLogFileName | Validation_Scritps/Health_Monitoring.py:221 | `Self-Test Log` is saved as `self-test_log.txt` |
| HealthMonitoring.DeviceInforamationFileName | Validation_Scritps/Health_Monitoring.py:225 | the misspelt key is saved under the misspelt file name `nvme_device_inforamation.txt` |
| PerformanceBenchmarking.FioCommandWords | Validation_Scritps/Performance_Benchmarking.py:36-48 | a fio job with whitespace-free parameters reaches the shell as exactly its nine arguments after `fio` |
| PerformanceBenchmarking.FioArgs | Validation_Scritps/Performance_Benchmarking.py:37-47 | the fio command has ten words: `fio`, then nine long options starting with `--` |
| PerformanceBenchmarking.FioPerformanceTest | Validation_Scritps/Performance_Benchmarking.py:36-48 | one word per fio argument, and no word names the device: there is no `--filename` |
| PerformanceBenchmarking.FioRender | Validation_Scritps/Performance_Benchmarking.py:36-48 | a fio command is its arguments joined by spaces and is the same whatever the device |
| PerformanceBenchmarking.FioArgsAreWords | Validation_Scritps/Performance_Benchmarking.py:36-48 | each fio argument is a single shell word when the parameters have no whitespace |
| PerformanceBenchmarking.FioFlagsAreWords | Validation_Scritps/Performance_Benchmarking.py:38-46 | each fio flag literal is a single shell word |
| PerformanceBenchmarking.FioDefaultDepth | Validation_Scritps/Performance_Benchmarking.py:36 | a fio job without an explicit depth runs with `--iodepth=1` |
| PerformanceBenchmarking.HighIodepthClean | Validation_Scritps/Performance_Benchmarking.py:60-61 | the high-iodepth job's parameters contain no whitespace |
| PerformanceBenchmarking.HighIodepthArgs | Validation_Scritps/Performance_Benchmarking.py:60-61 | the high-iodepth job has the source's arguments, with `--iodepth=32` |
| PerformanceBenchmarking.HighIodepthWords | Validation_Scritps/Performance_Benchmarking.py:190 | the `IO_depth_Info` check reaches the shell with exactly the high-iodepth arguments |
| PerformanceBenchmarking.DdLiteralsAreWords | Validation_Scritps/Performance_Benchmarking.py:103-145 | each dd literal is a single shell word |
| PerformanceBenchmarking.DdWrite | Validation_Scritps/Performance_Benchmarking.py:104 | a dd write copies its source (`if=`) onto the device (`of=`), and the device appears in no other word |
| PerformanceBenchmarking.DdRead | Validation_Scritps/Performance_Benchmarking.py:109 | a dd read copies the device (`if=`) to `/dev/null`, and the device appears in no other word |
| PerformanceBenchmarking.DdSequentialWriteTest | Validation_Scritps/Performance_Benchmarking.py:103-106 | writes `/dev/zero` onto the device |
| PerformanceBenchmarking.DdSequentialReadTest | Validation_Scritps/Performance_Benchmarking.py:108-111 | reads the device into `/dev/null` |
| PerformanceBenchmarking.DdRandomWriteTest | Validation_Scritps/Performance_Benchmarking.py:113-116 | writes `/dev/urandom` onto the device |
| PerformanceBenchmarking.DdRandomReadTest | Validation_Scritps/Performance_Benchmarking.py:118-121 | reads the device into `/dev/null` |
| PerformanceBenchmarking.DdThroughputTest | Validation_Scritps/Performance_Benchmarking.py:123-126 | writes `/dev/zero` onto the device |
| PerformanceBenchmarking.DdWriteSpeedWithDifferentBlock | Validation_Scritps/Performance_Benchmarking.py:128-131 | writes `/dev/zero` onto the device |
| PerformanceBenchmarking.DdReadSpeedWithDifferentBlock | Validation_Scritps/Performance_Benchmarking.py:133-136 | reads the device into `/dev/null` |
| PerformanceBenchmarking.DdTestWriteLatency | Validation_Scritps/Performance_Benchmarking.py:138-141 | writes `/dev/zero` onto the device |
| PerformanceBenchmarking.DdTestReadLatency | Validation_Scritps/Performance_Benchmarking.py:143-146 | reads the device into `/dev/null` |
| PerformanceBenchmarking.IopingSequentialTest | Validation_Scritps/Performance_Benchmarking.py:150-152 | an ioping command whose last word is the device, named nowhere else |
| PerformanceBenchmarking.IopingContinuousTest | Validation_Scritps/Performance_Benchmarking.py:160-162 | an ioping command whose last word is the device, named nowhere else |
| PerformanceBenchmarking.IopingMaxLatencyTest | Validation_Scritps/Performance_Benchmarking.py:165-167 | an ioping command whose last word is the device, named nowhere else |
| PerformanceBenchmarking.IopingWriteLatencyTest | Validation_Scritps/Performance_Benchmarking.py:170-172 | an ioping command whose last word is the device, named nowhere else |
| PerformanceBenchmarking.IopingReadLatencyTest | Validation_Scritps/Performance_Benchmarking.py:175-177 | an ioping command whose last word is the device, named nowhere else |
| PerformanceBenchmarking.IopingBlockReadWriteLatencyTest | Validation_Scritps/Performance_Benchmarking.py:180-182 | an ioping command whose last word is the device, named nowhere else |
| PerformanceBenchmarking.DdWriteWords | Validation_Scritps/Performance_Benchmarking.py:103-106 | a dd write reaches the shell as `dd if=<source> of=<device> bs=… count=… oflag=direct status=progress` |
| PerformanceBenchmarking.DdWriteRender | Validation_Scritps/Performance_Benchmarking.py:103-106 | a dd write command is its arguments joined by spaces |
| PerformanceBenchmarking.DdWriteArgsAreWords | Validation_Scritps/Performance_Benchmarking.py:103-106 | each dd write argument is a single shell word |
| PerformanceBenchmarking.DdReadWords | Validation_Scritps/Performance_Benchmarking.py:108-111 | a dd read reaches the shell as `dd if=<device> of=/dev/null bs=… count=… iflag=direct status=progress` |
| PerformanceBenchmarking.DdReadRender | Validation_Scritps/Performance_Benchmarking.py:108-111 | a dd read command is its arguments joined by spaces |
| PerformanceBenchmarking.DdReadArgsAreWords | Validation_Scritps/Performance_Benchmarking.py:108-111 | each dd read argument is a single shell word |
| PerformanceBenchmarking.NVMePerformaceCheck.constructor | Validation_Scritps/Performance_Benchmarking.py:13-18 | the checker holds its device and password with all three dictionaries empty |
| PerformanceBenchmarking.NVMePerformaceCheck.RunAllFioTests | Validation_Scritps/Performance_Benchmarking.py:187-196 | the nine fio lines are run in order and assigned under their keys; the dd and ioping dictionaries are unchanged |
| PerformanceBenchmarking.NVMePerformaceCheck.RunAllDdTests | Validation_Scritps/Performance_Benchmarking.py:198-207 | the nine dd lines are run in order and assigned under their keys; the other dictionaries are unchanged |
| PerformanceBenchmarking.NVMePerformaceCheck.RunAllIoPingTests | Validation_Scritps/Performance_Benchmarking.py:209-216 | the six ioping lines are run in order and assigned under their keys; the other dictionaries are unchanged |
| PerformanceBenchmarking.NVMePerformaceCheck.SaveResults | Validation_Scritps/Performance_Benchmarking.py:220-251 | the three sub-directories are created, then the fio, dd and ioping entries are written in that order |
| PerformanceBenchmarking.IopingSequentialCmd | Validation_Scritps/Performance_Benchmarking.py:210 | the sequential ioping check is built with count `4k` and block size `10`, as the call passes them |
| PerformanceBenchmarking.IopingSequentialLine | Validation_Scritps/Performance_Benchmarking.py:150-152 | the sequential ioping check sends `ioping -c 4k -s 10 -D <device>`: the arguments arrive swapped |
| PerformanceBenchmarking.FioTableKeys | Validation_Scritps/Performance_Benchmarking.py:187-196 | the fio checks are recorded under the nine keys of the source, in order |
| PerformanceBenchmarking.DdTableKeys | Validation_Scritps/Performance_Benchmarking.py:198-207 | the dd checks are recorded under the nine keys of the source, in order |
| PerformanceBenchmarking.IopingTableKeys | Validation_Scritps/Performance_Benchmarking.py:209-216 | the ioping checks are recorded under the six keys of the source, in order (the random test is commented out) |
| PerformanceBenchmarking.FioKeysDistinct | Validation_Scritps/Performance_Benchmarking.py:187-196 | the nine fio keys are pairwise distinct |
| PerformanceBenchmarking.DdKeysDistinct | Validation_Scritps/Performance_Benchmarking.py:198-207 | the nine dd keys are pairwise distinct |
| PerformanceBenchmarking.IopingKeysDistinct | Validation_Scritps/Performance_Benchmarking.py:209-216 | the six ioping keys are pairwise distinct and the commented-out `Random_IO_Latency` is absent |
| PerformanceBenchmarking.FioFileNamesDistinct | Validation_Scritps/Performance_Benchmarking.py:230-235 | no two fio keys share a file |
| PerformanceBenchmarking.DdFileNamesDistinct | Validation_Scritps/Performance_Benchmarking.py:238-243 | no two dd keys share a file |
| PerformanceBenchmarking.IopingFileNamesDistinct | Validation_Scritps/Performance_Benchmarking.py:246-251 | no two ioping keys share a file |
| PerformanceBenchmarking.ReadLatencyFileName | Validation_Scritps/Performance_Benchmarking.py:215 | the key `Read _Latency_Test` is saved as `read__latency_test.txt` |
| PerformanceBenchmarking.SubdirsApart | Validation_Scritps/Performance_Benchmarking.py:222-224 | the three result sub-directories are distinct single path components |
| PerformanceBenchmarking.SaveKeepsAllDictionaries | Validation_Scritps/Performance_Benchmarking.py:220-251 | after the save, every fio, dd and ioping entry can be read back, although fio and dd both use `Throughput_Test` |
| Endurance.EnduranceValidation.constructor | Validation_Scritps/Endurance_script.py:6-15 | the validator holds its device and password with an empty dictionary |
| Endurance.EnduranceValidation.RunAllFioTests | Validation_Scritps/Endurance_script.py:171-186 | the twelve endurance lines are run in order and assigned under their keys |
| Endurance.EnduranceValidation.SaveResults | Validation_Scritps/Endurance_script.py:188-201 | `Endurance_Results` is created and the entries are written in iteration order |
| Endurance.EnduranceTableKeys | Validation_Scritps/Endurance_script.py:171-186 | the checks are recorded under the twelve method names, in order |
| Endurance.EnduranceKeysDistinct | Validation_Scritps/Endurance_script.py:171-186 | the twelve keys are pairwise distinct |
| Endurance.EnduranceChecksUseDevice | Validation_Scritps/Endurance_script.py:34-169 | every endurance command, fio workloads included, interpolates the device path |
| Endurance.SmartAttributesTwice | Validation_Scritps/Endurance_script.py:126-142 | `run_smart_attributes` and `run_disk_health` send the same line under different keys |
| Endurance.EnduranceFileNames | Validation_Scritps/Endurance_script.py:197 | each key is saved as `key.txt` and no two keys share a file |
| Endurance.SaveReadsBack | Validation_Scritps/Endurance_script.py:188-201 | every recorded entry can be read back from its file |
| Security.SecurityValidation.constructor | Validation_Scritps/Security_script.py:5-9 | the validator holds its device and password with an empty dictionary |
| Security.SecurityValidation.RunAllSecurityTests | Validation_Scritps/Security_script.py:133-146 | the ten quiet-wrapped lines are run in order, the protection password reaching the format line, and assigned under their keys |
| Security.SecurityValidation.SaveResults | Validation_Scritps/Security_script.py:148-161 | `Security_Results` is created and the entries are written, each body ending in a newline |
| Security.EnablePasswordProtection | Validation_Scritps/Security_script.py:69-78 | the format command names the device and ends with the password as its key |
| Security.SecurityChecks | Validation_Scritps/Security_script.py:133-146 | ten checks under the ten method names, in order; the fifth runs the password-protection command |
| Security.SecurityTableKeys | Validation_Scritps/Security_script.py:133-146 | whatever the protection password, the checks are recorded under the ten method names, in order |
| Security.SecurityKeysDistinct | Validation_Scritps/Security_script.py:133-146 | the ten keys are pairwise distinct |
| Security.PasswordOnlyInFormat | Validation_Scritps/Security_script.py:141 | the protection password changes only the `enable_password_protection` check |
| Security.FormatKeyLine | Validation_Scritps/Security_script.py:69-78 | the format check sends `nvme format <device> --ses=1 --key=<password>` |
| Security.FormatKeyDeterminesPassword | Validation_Scritps/Security_script.py:69-78 | two passwords give the same format line exactly when they are equal |
| Security.SecurityChecksUseDevice | Validation_Scritps/Security_script.py:28-131 | every security command interpolates the device path |
| Security.SecurityFileNames | Validation_Scritps/Security_script.py:157-158 | each key is saved as `key.txt` and no two keys share a file |
| Security.SaveReadsBack | Validation_Scritps/Security_script.py:148-161 | every recorded entry can be read back from its newline-terminated file |
| FileSystemIntegrity.FileSystemIntegrityMonitoring.constructor | Validation_Scritps/File_System_integrity.py:6-8 | the monitor holds only the password, with an empty dictionary |
| FileSystemIntegrity.FileSystemIntegrityMonitoring.RunAllFsIntegrityTests | Validation_Scritps/File_System_integrity.py:95-111 | the twelve file-system lines are run in order and assigned under their keys |
| FileSystemIntegrity.FileSystemIntegrityMonitoring.SaveResults | Validation_Scritps/File_System_integrity.py:114-125 | `File_System_Integrity_Results` is created and the entries are written in iteration order |
| FileSystemIntegrity.FsIntegrityTableKeys | Validation_Scritps/File_System_integrity.py:95-111 | the checks are recorded under the twelve keys of the source, in order |
| FileSystemIntegrity.FsIntegrityKeysDistinct | Validation_Scritps/File_System_integrity.py:95-111 | the twelve keys are distinct and the commented-out `Bad_Blocks` and `Journal_Errors` are absent |
| FileSystemIntegrity.ChecksIgnoreDevice | Validation_Scritps/File_System_integrity.py:24-87 | no file-system command uses a device, so the lines sent are the same for every device |
| FileSystemIntegrity.FixedDiskCommands | Validation_Scritps/File_System_integrity.py:39-87 | six commands address the fixed disk `/dev/nvme0n1` instead of the chosen device |
| FileSystemIntegrity.DoubleSudo | Validation_Scritps/File_System_integrity.py:24-87 | the status check sends `echo <password> \| sudo -S sudo fsck -Af -M`; exactly seven of the twelve lines (the status check and the six fixed-disk commands) run `sudo -S sudo`, the other five a single `sudo` |
| FileSystemIntegrity.StemsDistinct | Validation_Scritps/File_System_integrity.py:122 | the twelve lower-cased file stems are pairwise distinct |
| FileSystemIntegrity.FsIntegrityFileNames | Validation_Scritps/File_System_integrity.py:122 | each key is saved as its lower-cased stem plus `.txt` and no two keys share a file |
| FileSystemIntegrity.SaveReadsBack | Validation_Scritps/File_System_integrity.py:114-125 | every recorded entry can be read back from its file |
| PowerMonitoring.NVMePowerMonitoring.constructor | Validation_Scritps/Power_Monitoring.py:7-10 | the monitor holds its device and password with an empty dictionary |
| PowerMonitoring.NVMePowerMonitoring.RunAllPowerThermalTests | Validation_Scritps/Power_Monitoring.py:81-98 | the thirteen power and thermal lines are run in order and assigned under their keys |
| PowerMonitoring.NVMePowerMonitoring.SaveResults | Validation_Scritps/Power_Monitoring.py:101-113 | `Power_Thermal_Results` is created and the entries are written in iteration order |
| PowerMonitoring.PowerThermalTableKeys | Validation_Scritps/Power_Monitoring.py:81-98 | the checks are recorded under the thirteen keys of the source, in order |
| PowerMonitoring.PowerThermalKeysDistinct | Validation_Scritps/Power_Monitoring.py:81-98 | the thirteen keys are pairwise distinct |
| PowerMonitoring.DeviceOnlyInNvmeChecks | Validation_Scritps/Power_Monitoring.py:25-78 | exactly the eleven NVMe checks use the device, and the two lm-sensors checks do not |
| PowerMonitoring.SystemLinesIgnoreDevice | Validation_Scritps/Power_Monitoring.py:70-78 | the lm-sensors lines are the same for every device |
| PowerMonitoring.NvmePowerTrailingSpace | Validation_Scritps/Power_Monitoring.py:29-31 | the power check's line ends with the space after `grep 'Power'` |
| PowerMonitoring.StemsDistinct | Validation_Scritps/Power_Monitoring.py:109 | the thirteen lower-cased file stems are pairwise distinct |
| PowerMonitoring.PowerThermalFileNames | Validation_Scritps/Power_Monitoring.py:109 | each key is saved as its lower-cased stem plus `.txt` and no two keys share a file |
| PowerMonitoring.SaveReadsBack | Validation_Scritps/Power_Monitoring.py:101-113 | all thirteen entries are written and each can be read back from its file |
| MainFlow.GetSsdDevices | main.py:11-33 | the loop over the listing returns the menu entries computed by `Scan`, or none when the listing fails or a line cannot be split |
| MainFlow.DeviceEntry | main.py:28 | the entry ends with `)`, and for a path without `(` what follows its last `(` is the path and the `)` |
| MainFlow.Scan | main.py:20-28 | a successful scan lists one entry per SSD line of the listing |
| MainFlow.SsdDevices | main.py:11-33 | no listing gives no devices, and there are never more devices than listed lines |
| MainFlow.SsdLines | main.py:21-24 | no more lines are kept than were listed, and every kept line is a disk line naming NVMe or SSD |
| MainFlow.Entries | main.py:25-28 | one entry per kept line, formatted from its second word and its first |
| MainFlow.ScanStaysFailed | main.py:31-33 | once the scan has failed on a prefix of the listing it fails on every longer prefix |
| MainFlow.SsdLinesMembers | main.py:21-24 | a line is kept exactly when it mentions `disk` and `NVMe` or `SSD` |
| MainFlow.ScanIsFilterThenFormat | main.py:20-30 | the scan is the filter followed by the formatting, and fails exactly when a kept line has fewer than two words |
| MainFlow.AppendKept | main.py:25-28 | one more kept line splits correctly exactly when it has two words, and adds its own entry at the end |
| MainFlow.ExtractPathRoundTrip | main.py:56 | the path read back from an entry is the path it was built from, for a path without `(` and with no `)` at either end |
| MainFlow.LeadingParenthesisLost | main.py:56 | a path starting with `)` loses that character when read back |
| MainFlow.AfterLastSeparator | main.py:56 | `split('(')[-1]` of a text ending in `(` followed by a tail without `(` is that tail |
| MainFlow.StripClosing | main.py:56 | `strip(')')` removes the closing parenthesis, and a leading one too when present |
| MainFlow.ExtractPath | main.py:56 | the path read back is no longer than the entry and is plain: no `(`, and no `)` at either end |
| MainFlow.FirstAccepted | main.py:52-61 | the menu loop's stopping point, when there is one, is a reply that is a valid entry number |
| MainFlow.FirstAcceptedIsFirst | main.py:52-61 | the loop stops exactly when some reply is valid, and no earlier reply was |
| MainFlow.FirstAcceptedStep | main.py:52-61 | skipping the first reply shifts the stopping point by one unless it is accepted |
| MainFlow.SelectDevice | main.py:52-61 | the loop reads replies up to the first accepted one and returns the path of the entry it numbers, or reads them all and returns none |
| MainFlow.RunValidation | main.py:35-123 | with no SSD nothing is run; with no accepted reply nothing is run; otherwise the chosen device is validated and every result is saved |
| MainFlow.Validate | main.py:67-121 | the suites are built, the nine test groups run in source order, the results directory is created and the six saves write every dictionary |
| MainFlow.BuildAndRun | main.py:67-107 | the six suite objects are built for the device and password and the nine test groups run in order, recording the collected dictionaries |
| MainFlow.RunSuites | main.py:82-107 | the nine `run_all_*` calls send the lines of all suites in order and fill the nine dictionaries with their outputs |
| MainFlow.RunHealthPerformance | main.py:82-95 | the health and performance groups run in order |
| MainFlow.RunMonitoring | main.py:98-107 | the power, file-system, endurance and security groups run in order, the last with `secure_password` |
| MainFlow.RunHealth | main.py:82-85 | the smartctl and then the nvme-cli group run |
| MainFlow.RunPerformance | main.py:89-95 | the fio, dd and ioping groups run in order |
| MainFlow.RunPowerFs | main.py:98-101 | the power and file-system groups run in order |
| MainFlow.RunEnduranceSecurity | main.py:104-107 | the endurance group and then the security group with `secure_password` run |
| MainFlow.SaveSuites | main.py:112-121 | the results directory is created and the six saves write the nine dictionaries, each into its own sub-directory, in order |
| MainFlow.SaveHealthPerformance | main.py:116-117 | the health and performance saves write their five dictionaries |
| MainFlow.SaveMonitoring | main.py:118-121 | the power, file-system, endurance and security saves write their four dictionaries |
| MainFlow.SaveAllReadsBack | main.py:116-121 | when the dictionaries go to distinct sub-directories and each names its files apart, every entry of every one can be read back |
| MainFlow.CollectedApart | main.py:116-121 | the nine dictionaries of a run go to nine distinct sub-directories, each naming its files apart |
| MainFlow.ValidationReadsBack | main.py:112-121 | after the saves, every entry of every dictionary of the run can be read back from its own file: no save overwrites another's |
| MainFlow.SubdirsPlain | main.py:116-121 | the nine result sub-directories are distinct single path components |
| MainFlow.FreshKeys | main.py:82-107 | a suite run into an empty dictionary records exactly its keys, in order |
| MainFlow.ApartAppend | main.py:116-121 | two groups of saves that are each apart and use different sub-directories are apart together |
| MainFlow.SaveAppend | main.py:116-121 | saving two groups in turn equals saving them as one sequence, for files, writes and directories |

## Left out

- Console output (`print`) everywhere, including the messages of `get_ssd_devices`, the menu listing and the "Saved …" lines, is not modelled.
- The shell, the device and the operating system are an oracle (`Shell.respond`): what a command prints and whether it fails is a parameter, and no effect of a command on the device (format, sanitize, fio writes) is modelled.
- `subprocess.run(['lsblk', …])` and `splitlines()` are a parameter: the listing arrives as lines, or `None` when running `lsblk` raises. Other exceptions inside `get_ssd_devices` are modelled only as a line with fewer than two words (the `IndexError` path).
- `input()` and `int()` are a parameter: the replies arrive already parsed (`None` for a reply `int()` rejects). The `while True` loop is bounded by the finite list of replies, and running out of replies is the `NoSelection` outcome, where the program would keep asking.
- `getpass` is a parameter: the sudo password is passed in.
- The host file system is a map from path to contents. `os.path.join` is joining with `/`, which matches it when the base has no trailing slash and the parts are relative. Failing writes and missing permissions are not modelled.
- `lower()` folds only the ASCII capitals, and `split()`/`strip()` use a fixed whitespace set; the keys and paths the program uses are ASCII.
- The float `0.5` passed to `ioping_max_latency_test` is modelled as its decimal text `0.5`.
- `nvme_available_spareTest`, `nvme_available_spare_threshold` and `nvme_continuous_temperature_Monitor` in `Health_Monitoring.py` are never called by a runner. They are modelled as commands only, with no properties.
- The commented-out checks (`ioping_random_test`, `check_for_bad_blocks`, `check_for_journal_errors`) are not modelled; their keys are proved absent from the result tables (`Random_IO_Latency` by `PerformanceBenchmarking.IopingKeysDistinct`, `Bad_Blocks` and `Journal_Errors` by `FileSystemIntegrity.FsIntegrityKeysDistinct`).
- The `Validation_Scritps/__init__.py` package file and unused imports are not modelled.
- Concurrency and timing (fio runtimes, `ioping` intervals) are not modelled.
- OrderedMap.AssignAll: its own contract bounds only the size of the result; what each key holds afterwards is stated by `OrderedMap.AssignAllLookup`, `OrderedMap.AssignAllCovers`, `OrderedMap.AssignAllFresh` and `OrderedMap.AssignAllExisting`, to keep the contract cheap wherever the function appears.
