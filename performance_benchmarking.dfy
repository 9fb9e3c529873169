/**
 * The performance suite (`NVMePerformaceCheck`): the parameterised fio
 * command and its nine named uses, the dd and ioping builders, the three
 * result dictionaries, and the save into `Fio_Results`, `DD_Results` and
 * `IO_Ping_Results`.
 */
module PerformanceBenchmarking {
  import opened Strings
  import opened OrderedMap
  import opened Templates
  import opened Executor
  import opened ResultStore

  // ---------------------------------------------------------------------------
  // fio

  /** The arguments of `fio_performance_test`; `iodepth` defaults to 1 as in the source. */
  datatype FioJob = FioJob(name: string, ioengine: string, rw: string, bs: string, size: string,
                           numjobs: nat, runtime: nat, iodepth: nat := 1)

  /** The words of the fio command, in the order the f-string lists them. */
  function FioArgs(job: FioJob): (args: seq<string>)
    ensures |args| == 10 && args[0] == "fio"
    ensures forall k :: 1 <= k < |args| ==> |args[k]| >= 2 && args[k][..2] == "--"
  {
    ["fio", "--name=" + job.name, "--ioengine=" + job.ioengine, "--rw=" + job.rw, "--bs=" + job.bs,
     "--size=" + job.size, "--numjobs=" + Decimal(job.numjobs), "--runtime=" + Decimal(job.runtime),
     "--iodepth=" + Decimal(job.iodepth), "--group_reporting"]
  }

  /**
   * `fio_performance_test(...)`: the flags joined by single spaces, the
   * arguments interpolated. No `--filename` is passed, so the command does
   * not name the device.
   */
  function FioPerformanceTest(job: FioJob): (c: Cmd)
    ensures c.Words? && |c.words| == |FioArgs(job)|
    ensures forall k :: 0 <= k < |c.words| ==> Device !in c.words[k]
  {
    Words([Word("fio"), Flag("--name=", job.name), Flag("--ioengine=", job.ioengine), Flag("--rw=", job.rw),
            Flag("--bs=", job.bs), Flag("--size=", job.size), Flag("--numjobs=", Decimal(job.numjobs)),
            Flag("--runtime=", Decimal(job.runtime)), Flag("--iodepth=", Decimal(job.iodepth)),
            Word("--group_reporting")])
  }

  /** The string arguments carry no whitespace, so each becomes part of a single flag word. */
  predicate FioWordsClean(job: FioJob) {
    NoSpace(job.name) && NoSpace(job.ioengine) && NoSpace(job.rw) && NoSpace(job.bs) && NoSpace(job.size)
  }

  /**
   * The fio command is its flags joined by single spaces whatever the device,
   * and the shell receives them as separate words in the declared order,
   * ending with `--group_reporting`.
   */
  lemma FioCommandWords(job: FioJob, device: string)
    requires FioWordsClean(job)
    ensures Render(FioPerformanceTest(job), device) == Unwords(FioArgs(job))
    ensures Split(Render(FioPerformanceTest(job), device)) == FioArgs(job)
  {
    FioRender(job, device);
    FioArgsAreWords(job);
    SplitUnwords(FioArgs(job));
  }

  lemma FioRender(job: FioJob, device: string)
    ensures Render(FioPerformanceTest(job), device) == Unwords(FioArgs(job))
  {
    var ws := [Word("fio"), Flag("--name=", job.name), Flag("--ioengine=", job.ioengine), Flag("--rw=", job.rw),
               Flag("--bs=", job.bs), Flag("--size=", job.size), Flag("--numjobs=", Decimal(job.numjobs)),
               Flag("--runtime=", Decimal(job.runtime)), Flag("--iodepth=", Decimal(job.iodepth)),
               Word("--group_reporting")];
    hide Decimal, FillEach, Fill, Render, Unwords, Word, Flag;
    FillWord("fio", device);
    FillFlag("--name=", job.name, device);
    FillFlag("--ioengine=", job.ioengine, device);
    FillFlag("--rw=", job.rw, device);
    FillFlag("--bs=", job.bs, device);
    FillFlag("--size=", job.size, device);
    FillFlag("--numjobs=", Decimal(job.numjobs), device);
    FillFlag("--runtime=", Decimal(job.runtime), device);
    FillFlag("--iodepth=", Decimal(job.iodepth), device);
    FillWord("--group_reporting", device);
    var texts, args := FillEach(ws, device), FioArgs(job);
    assert texts[0] == args[0] && texts[1] == args[1] && texts[2] == args[2] && texts[3] == args[3];
    assert texts[4] == args[4] && texts[5] == args[5] && texts[6] == args[6] && texts[7] == args[7];
    assert texts[8] == args[8] && texts[9] == args[9];
    assert texts == args;
    RenderWords(ws, device);
  }

  lemma FioArgsAreWords(job: FioJob)
    requires FioWordsClean(job)
    ensures forall i :: 0 <= i < |FioArgs(job)| ==> IsWord(FioArgs(job)[i])
  {
    FioFlagsAreWords();
    WordWithValue("--name=", job.name);
    WordWithValue("--ioengine=", job.ioengine);
    WordWithValue("--rw=", job.rw);
    WordWithValue("--bs=", job.bs);
    WordWithValue("--size=", job.size);
    DecimalNoSpace(job.numjobs);
    DecimalNoSpace(job.runtime);
    DecimalNoSpace(job.iodepth);
    WordWithValue("--numjobs=", Decimal(job.numjobs));
    WordWithValue("--runtime=", Decimal(job.runtime));
    WordWithValue("--iodepth=", Decimal(job.iodepth));
  }

  /** The literal parts of the fio command are shell words. */
  lemma FioFlagsAreWords()
    ensures IsWord("fio") && IsWord("--name=") && IsWord("--ioengine=") && IsWord("--rw=") && IsWord("--bs=")
    ensures IsWord("--size=") && IsWord("--numjobs=") && IsWord("--runtime=") && IsWord("--iodepth=")
    ensures IsWord("--group_reporting")
  {
    VisibleIsWord("fio");
    VisibleIsWord("--name=");
    VisibleIsWord("--ioengine=");
    VisibleIsWord("--rw=");
    VisibleIsWord("--bs=");
    VisibleIsWord("--size=");
    VisibleIsWord("--numjobs=");
    VisibleIsWord("--runtime=");
    VisibleIsWord("--iodepth=");
    VisibleIsWord("--group_reporting");
  }

  /** A job built without an explicit `iodepth` asks fio for depth 1. */
  lemma FioDefaultDepth(name: string, ioengine: string, rw: string, bs: string, size: string,
                        numjobs: nat, runtime: nat, device: string)
    requires FioWordsClean(FioJob(name, ioengine, rw, bs, size, numjobs, runtime))
    ensures "--iodepth=1" in Split(Render(FioPerformanceTest(FioJob(name, ioengine, rw, bs, size, numjobs, runtime)), device))
  {
    var job := FioJob(name, ioengine, rw, bs, size, numjobs, runtime);
    FioCommandWords(job, device);
    assert FioArgs(job)[8] == "--iodepth=1";
  }

  const SequentialReadJob: FioJob := FioJob("seq_read", "libaio", "read", "128k", "131072", 1, 60)
  const HighIodepthJob: FioJob := FioJob("high_iodepth", "libaio", "randrw", "4k", "131072", 4, 60, iodepth := 32)
  const RandomWriteJob: FioJob := FioJob("rand_write", "libaio", "randwrite", "4k", "131072", 4, 60)
  const SequentialWriteJob: FioJob := FioJob("seq_write", "libaio", "write", "128k", "131072", 1, 60)
  const RandomReadJob: FioJob := FioJob("rand_read", "libaio", "randread", "4k", "131072", 4, 60)
  const MixedReadWriteJob: FioJob := FioJob("rand_read_write", "libaio", "randwrite", "4k", "131072", 4, 60, iodepth := 8)
  const LargeBlockSequentialReadJob: FioJob := FioJob("large_seq_read", "libaio", "read", "1M", "131072", 1, 60)
  const LargeBlockRandomWriteJob: FioJob := FioJob("large_rand_write", "libaio", "randwrite", "128k", "131072", 8, 60, iodepth := 16)
  const ThroughputJob: FioJob := FioJob("throughput", "libaio", "write", "128k", "131072", 1, 60, iodepth := 32)

  lemma HighIodepthClean()
    ensures FioWordsClean(HighIodepthJob)
  {
    VisibleIsWord("high_iodepth");
    VisibleIsWord("libaio");
    VisibleIsWord("randrw");
    VisibleIsWord("4k");
    VisibleIsWord("131072");
  }

  lemma HighIodepthArgs()
    ensures FioArgs(HighIodepthJob)
         == ["fio", "--name=high_iodepth", "--ioengine=libaio", "--rw=randrw", "--bs=4k", "--size=131072",
             "--numjobs=4", "--runtime=60", "--iodepth=32", "--group_reporting"]
  {
    assert Decimal(4) == "4";
    assert Decimal(60) == "60";
    assert Decimal(32) == "32";
    assert "--name=" + "high_iodepth" == "--name=high_iodepth";
    assert "--ioengine=" + "libaio" == "--ioengine=libaio";
    assert "--rw=" + "randrw" == "--rw=randrw";
    assert "--bs=" + "4k" == "--bs=4k";
    assert "--size=" + "131072" == "--size=131072";
    assert "--numjobs=" + "4" == "--numjobs=4";
    assert "--runtime=" + "60" == "--runtime=60";
    assert "--iodepth=" + "32" == "--iodepth=32";
  }

  // ---------------------------------------------------------------------------
  // dd

  /** A dd command that copies `source` onto the device: the device is its output file and appears nowhere else. */
  predicate WritesDevice(c: Cmd, source: string) {
    c.Words? && |c.words| == 7 && c.words[0] == Word("dd") && c.words[1] == Flag("if=", source) &&
    c.words[2] == DeviceFlag("of=") && forall k :: 0 <= k < 7 && k != 2 ==> Device !in c.words[k]
  }

  /** A dd command that copies the device to `/dev/null`: the device is its input file and appears nowhere else. */
  predicate ReadsDevice(c: Cmd) {
    c.Words? && |c.words| == 7 && c.words[0] == Word("dd") && c.words[1] == DeviceFlag("if=") &&
    c.words[2] == Word("of=/dev/null") && forall k :: 0 <= k < 7 && k != 1 ==> Device !in c.words[k]
  }

  /** A dd write: from `source` to the device, direct I/O on the output. */
  function DdWrite(source: string, blockSize: string, count: nat): (c: Cmd)
    ensures WritesDevice(c, source)
  {
    Words([Word("dd"), Flag("if=", source), DeviceFlag("of="), Flag("bs=", blockSize),
            Flag("count=", Decimal(count)), Word("oflag=direct"), Word("status=progress")])
  }

  /** A dd read: from the device to `/dev/null`, direct I/O on the input. */
  function DdRead(blockSize: string, count: nat): (c: Cmd)
    ensures ReadsDevice(c)
  {
    Words([Word("dd"), DeviceFlag("if="), Word("of=/dev/null"), Flag("bs=", blockSize),
            Flag("count=", Decimal(count)), Word("iflag=direct"), Word("status=progress")])
  }

  function DdSequentialWriteTest(blockSize: string, count: nat): (c: Cmd)
    ensures WritesDevice(c, "/dev/zero")
  {
    DdWrite("/dev/zero", blockSize, count)
  }

  function DdSequentialReadTest(blockSize: string, count: nat): (c: Cmd)
    ensures ReadsDevice(c)
  {
    DdRead(blockSize, count)
  }

  function DdRandomWriteTest(blockSize: string, count: nat): (c: Cmd)
    ensures WritesDevice(c, "/dev/urandom")
  {
    DdWrite("/dev/urandom", blockSize, count)
  }

  function DdRandomReadTest(blockSize: string, count: nat): (c: Cmd)
    ensures ReadsDevice(c)
  {
    DdRead(blockSize, count)
  }

  function DdThroughputTest(blockSize: string, count: nat): (c: Cmd)
    ensures WritesDevice(c, "/dev/zero")
  {
    DdWrite("/dev/zero", blockSize, count)
  }

  function DdWriteSpeedWithDifferentBlock(blockSize: string, count: nat): (c: Cmd)
    ensures WritesDevice(c, "/dev/zero")
  {
    DdWrite("/dev/zero", blockSize, count)
  }

  function DdReadSpeedWithDifferentBlock(blockSize: string, count: nat): (c: Cmd)
    ensures ReadsDevice(c)
  {
    DdRead(blockSize, count)
  }
  function DdTestWriteLatency(blockSize: string, count: nat): (c: Cmd)
    ensures WritesDevice(c, "/dev/zero")
  {
    DdWrite("/dev/zero", blockSize, count)
  }
  function DdTestReadLatency(blockSize: string, count: nat): (c: Cmd)
    ensures ReadsDevice(c)
  {
    DdRead(blockSize, count)
  }

  /** The literal parts of the dd commands are shell words. */
  lemma DdLiteralsAreWords()
    ensures IsWord("dd") && IsWord("if=") && IsWord("of=") && IsWord("bs=") && IsWord("count=")
    ensures IsWord("oflag=direct") && IsWord("iflag=direct") && IsWord("of=/dev/null") && IsWord("status=progress")
  {
    VisibleIsWord("dd");
    VisibleIsWord("if=");
    VisibleIsWord("of=");
    VisibleIsWord("bs=");
    VisibleIsWord("count=");
    VisibleIsWord("oflag=direct");
    VisibleIsWord("iflag=direct");
    VisibleIsWord("of=/dev/null");
    VisibleIsWord("status=progress");
  }

  /** The words of a dd write: the device is the output file. */
  function DdWriteArgs(source: string, blockSize: string, count: nat, device: string): seq<string> {
    ["dd", "if=" + source, "of=" + device, "bs=" + blockSize, "count=" + Decimal(count), "oflag=direct", "status=progress"]
  }

  /** The words of a dd read: the device is the input file. */
  function DdReadArgs(blockSize: string, count: nat, device: string): seq<string> {
    ["dd", "if=" + device, "of=/dev/null", "bs=" + blockSize, "count=" + Decimal(count), "iflag=direct", "status=progress"]
  }

  /**
   * A dd write is its words joined by single spaces, and the shell receives
   * them as separate words: the device as the output file (`of=`), direct
   * output.
   */
  lemma DdWriteWords(source: string, blockSize: string, count: nat, device: string)
    requires NoSpace(source) && NoSpace(blockSize) && NoSpace(device)
    ensures Render(DdWrite(source, blockSize, count), device) == Unwords(DdWriteArgs(source, blockSize, count, device))
    ensures Split(Render(DdWrite(source, blockSize, count), device)) == DdWriteArgs(source, blockSize, count, device)
  {
    DdWriteRender(source, blockSize, count, device);
    DdWriteArgsAreWords(source, blockSize, count, device);
    SplitUnwords(DdWriteArgs(source, blockSize, count, device));
  }

  lemma DdWriteRender(source: string, blockSize: string, count: nat, device: string)
    ensures Render(DdWrite(source, blockSize, count), device) == Unwords(DdWriteArgs(source, blockSize, count, device))
  {
    var ws := [Word("dd"), Flag("if=", source), DeviceFlag("of="), Flag("bs=", blockSize),
               Flag("count=", Decimal(count)), Word("oflag=direct"), Word("status=progress")];
    FillWord("dd", device);
    FillFlag("if=", source, device);
    FillDeviceFlag("of=", device);
    FillFlag("bs=", blockSize, device);
    FillFlag("count=", Decimal(count), device);
    FillWord("oflag=direct", device);
    FillWord("status=progress", device);
    var texts, args := FillEach(ws, device), DdWriteArgs(source, blockSize, count, device);
    assert texts[0] == args[0] && texts[1] == args[1] && texts[2] == args[2] && texts[3] == args[3];
    assert texts[4] == args[4] && texts[5] == args[5] && texts[6] == args[6];
    assert texts == args;
    RenderWords(ws, device);
  }

  lemma DdWriteArgsAreWords(source: string, blockSize: string, count: nat, device: string)
    requires NoSpace(source) && NoSpace(blockSize) && NoSpace(device)
    ensures forall i :: 0 <= i < |DdWriteArgs(source, blockSize, count, device)| ==> IsWord(DdWriteArgs(source, blockSize, count, device)[i])
  {
    DdLiteralsAreWords();
    WordWithValue("if=", source);
    WordWithValue("of=", device);
    WordWithValue("bs=", blockSize);
    DecimalNoSpace(count);
    WordWithValue("count=", Decimal(count));
  }

  /**
   * A dd read is its words joined by single spaces, and the shell receives
   * them as separate words: the device as the input file (`if=`), direct
   * input.
   */
  lemma DdReadWords(blockSize: string, count: nat, device: string)
    requires NoSpace(blockSize) && NoSpace(device)
    ensures Render(DdRead(blockSize, count), device) == Unwords(DdReadArgs(blockSize, count, device))
    ensures Split(Render(DdRead(blockSize, count), device)) == DdReadArgs(blockSize, count, device)
  {
    DdReadRender(blockSize, count, device);
    DdReadArgsAreWords(blockSize, count, device);
    SplitUnwords(DdReadArgs(blockSize, count, device));
  }

  lemma DdReadRender(blockSize: string, count: nat, device: string)
    ensures Render(DdRead(blockSize, count), device) == Unwords(DdReadArgs(blockSize, count, device))
  {
    var ws := [Word("dd"), DeviceFlag("if="), Word("of=/dev/null"), Flag("bs=", blockSize),
               Flag("count=", Decimal(count)), Word("iflag=direct"), Word("status=progress")];
    FillWord("dd", device);
    FillDeviceFlag("if=", device);
    FillWord("of=/dev/null", device);
    FillFlag("bs=", blockSize, device);
    FillFlag("count=", Decimal(count), device);
    FillWord("iflag=direct", device);
    FillWord("status=progress", device);
    var texts, args := FillEach(ws, device), DdReadArgs(blockSize, count, device);
    assert texts[0] == args[0] && texts[1] == args[1] && texts[2] == args[2] && texts[3] == args[3];
    assert texts[4] == args[4] && texts[5] == args[5] && texts[6] == args[6];
    assert texts == args;
    RenderWords(ws, device);
  }

  lemma DdReadArgsAreWords(blockSize: string, count: nat, device: string)
    requires NoSpace(blockSize) && NoSpace(device)
    ensures forall i :: 0 <= i < |DdReadArgs(blockSize, count, device)| ==> IsWord(DdReadArgs(blockSize, count, device)[i])
  {
    DdLiteralsAreWords();
    WordWithValue("if=", device);
    WordWithValue("bs=", blockSize);
    DecimalNoSpace(count);
    WordWithValue("count=", Decimal(count));
  }

  // ---------------------------------------------------------------------------
  // ioping: the arguments are interpolated by position, as given

  /** An ioping command whose target, its last word, is the device, named nowhere else. */
  predicate TargetsDevice(c: Cmd) {
    c.Words? && |c.words| >= 2 && c.words[0] == Word("ioping") && c.words[|c.words| - 1] == DeviceWord &&
    forall k :: 0 <= k < |c.words| - 1 ==> Device !in c.words[k]
  }

  function IopingSequentialTest(count: string, blockSize: string): (c: Cmd)
    ensures TargetsDevice(c)
  {
    Words([Word("ioping"), Word("-c"), Word(count), Word("-s"), Word(blockSize), Word("-D"), DeviceWord])
  }

  function IopingContinuousTest(ioTests: string, count: string): (c: Cmd)
    ensures TargetsDevice(c)
  {
    Words([Word("ioping"), Word("-c"), Word(ioTests), Word("-s"), Word(count), DeviceWord])
  }

  function IopingMaxLatencyTest(count: string, blockSize: string, interval: string): (c: Cmd)
    ensures TargetsDevice(c)
  {
    Words([Word("ioping"), Word("-c"), Word(count), Word("-s"), Word(blockSize), Word("-i"), Word(interval), DeviceWord])
  }

  function IopingWriteLatencyTest(count: string): (c: Cmd)
    ensures TargetsDevice(c)
  {
    Words([Word("ioping"), Word("-c"), Word(count), Word("-W"), DeviceWord])
  }

  function IopingReadLatencyTest(count: string): (c: Cmd)
    ensures TargetsDevice(c)
  {
    Words([Word("ioping"), Word("-c"), Word(count), Word("-R"), DeviceWord])
  }

  function IopingBlockReadWriteLatencyTest(count: string, blockSize: string): (c: Cmd)
    ensures TargetsDevice(c)
  {
    Words([Word("ioping"), Word("-c"), Word(count), Word("-s"), Word(blockSize), Word("-W"), DeviceWord])
  }

  // ---------------------------------------------------------------------------
  // The runners' declared checks, in source order

  const FioChecks: seq<Check> := [
    Check("Sequential_Read_Info", FioPerformanceTest(SequentialReadJob)),
    Check("Random_Write_Info", FioPerformanceTest(RandomWriteJob)),
    Check("IO_depth_Info", FioPerformanceTest(HighIodepthJob)),
    Check("Sequential_Write_Info", FioPerformanceTest(SequentialWriteJob)),
    Check("Random_Read_Test", FioPerformanceTest(RandomReadJob)),
    Check("Mixed_Read_Write_Test", FioPerformanceTest(MixedReadWriteJob)),
    Check("Large_Block_Sequential_Read_Test", FioPerformanceTest(LargeBlockSequentialReadJob)),
    Check("Large_Block_Random_Write_Test", FioPerformanceTest(LargeBlockRandomWriteJob)),
    Check("Throughput_Test", FioPerformanceTest(ThroughputJob))
  ]

  const DdChecks: seq<Check> := [
    Check("Sequential_Write_Test", DdSequentialWriteTest("128k", 1024)),
    Check("Sequential_Read_Test", DdSequentialReadTest("128k", 1024)),
    Check("Random_Write_Test", DdRandomWriteTest("4k", 1024)),
    Check("Random_Read_Test", DdRandomReadTest("4k", 1024)),
    Check("Throughput_Test", DdThroughputTest("128k", 1024)),
    Check("write_speed_different_block", DdWriteSpeedWithDifferentBlock("124", 1024)),
    Check("read_speed_different_block", DdReadSpeedWithDifferentBlock("128k", 1024)),
    Check("write_latency_test", DdTestWriteLatency("4k", 1024)),
    Check("read_latency_test", DdTestReadLatency("4K", 1024))
  ]

  /** `ioping_random_test` is commented out in the runner and has no row. */
  const IopingChecks: seq<Check> := [
    Check("Sequential_IO_Latency", IopingSequentialTest("4k", Decimal(10))),
    Check("Continuous_IO_Latency", IopingContinuousTest(Decimal(10), "4k")),
    Check("Max_IO_Latency", IopingMaxLatencyTest(Decimal(10), "1M", "0.5")),
    Check("Write_Latency_Test", IopingWriteLatencyTest(Decimal(10))),
    Check("Read _Latency_Test", IopingReadLatencyTest(Decimal(10))),
    Check("Block_Read_Write_Latency", IopingBlockReadWriteLatencyTest(Decimal(10), "1M"))
  ]

  const FioDir: string := "Fio_Results"
  const DdDir: string := "DD_Results"
  const IopingDir: string := "IO_Ping_Results"

  /** `NVMePerformaceCheck`: one device, the sudo password, and a dictionary per tool. */
  class NVMePerformaceCheck {
    const device: string
    const sudoPassword: string
    var fioResults: Results
    var ddResults: Results
    var iopingResults: Results

    constructor (device: string, sudoPassword: string)
      ensures this.device == device && this.sudoPassword == sudoPassword
      ensures fioResults == [] && ddResults == [] && iopingResults == []
    {
      this.device := device;
      this.sudoPassword := sudoPassword;
      fioResults := [];
      ddResults := [];
      iopingResults := [];
    }

    /** `run_all_fio_tests`: the nine fio checks, in order, into `fio_results`. */
    method RunAllFioTests(sh: Shell)
      modifies this, sh
      ensures sh.log == old(sh.log) + CommandLines(Plain, sudoPassword, device, FioChecks)
      ensures fioResults == AssignAll(old(fioResults), CheckKeys(FioChecks),
                                      Outputs(sh.respond, |old(sh.log)|, Plain, sudoPassword, device, FioChecks))
      ensures ddResults == old(ddResults) && iopingResults == old(iopingResults)
    {
      hide *;
      fioResults := RunChecks(sh, Plain, sudoPassword, device, fioResults, FioChecks);
    }

    /** `run_all_dd_tests`: the nine dd checks, in order, into `DD_results`. */
    method RunAllDdTests(sh: Shell)
      modifies this, sh
      ensures sh.log == old(sh.log) + CommandLines(Plain, sudoPassword, device, DdChecks)
      ensures ddResults == AssignAll(old(ddResults), CheckKeys(DdChecks),
                                     Outputs(sh.respond, |old(sh.log)|, Plain, sudoPassword, device, DdChecks))
      ensures fioResults == old(fioResults) && iopingResults == old(iopingResults)
    {
      hide *;
      ddResults := RunChecks(sh, Plain, sudoPassword, device, ddResults, DdChecks);
    }

    /** `run_all_ioPing_tests`: the six ioping checks, in order, into `ioping_results`. */
    method RunAllIoPingTests(sh: Shell)
      modifies this, sh
      ensures sh.log == old(sh.log) + CommandLines(Plain, sudoPassword, device, IopingChecks)
      ensures iopingResults == AssignAll(old(iopingResults), CheckKeys(IopingChecks),
                                         Outputs(sh.respond, |old(sh.log)|, Plain, sudoPassword, device, IopingChecks))
      ensures fioResults == old(fioResults) && ddResults == old(ddResults)
    {
      hide *;
      iopingResults := RunChecks(sh, Plain, sudoPassword, device, iopingResults, IopingChecks);
    }

    /** `save_results(base)`: the three directories first, then the fio, dd and ioping files. */
    method SaveResults(fs: FileSystem, base: string)
      modifies fs
      ensures fs.dirs == old(fs.dirs) + {PathJoin(base, FioDir)} + {PathJoin(base, DdDir)} + {PathJoin(base, IopingDir)}
      ensures fs.files == WriteAll(WriteAll(WriteAll(old(fs.files), PathJoin(base, FioDir), fioResults, Bare),
                                            PathJoin(base, DdDir), ddResults, Bare),
                                   PathJoin(base, IopingDir), iopingResults, Bare)
      ensures fs.writes == old(fs.writes) + Paths(PathJoin(base, FioDir), fioResults)
                                          + Paths(PathJoin(base, DdDir), ddResults)
                                          + Paths(PathJoin(base, IopingDir), iopingResults)
    {
      fs.MakeDirs(PathJoin(base, FioDir));
      fs.MakeDirs(PathJoin(base, DdDir));
      fs.MakeDirs(PathJoin(base, IopingDir));
      WriteResults(fs, PathJoin(base, FioDir), fioResults, Bare);
      WriteResults(fs, PathJoin(base, DdDir), ddResults, Bare);
      WriteResults(fs, PathJoin(base, IopingDir), iopingResults, Bare);
    }
  }

  // ---------------------------------------------------------------------------
  // Properties

  /**
   * Positional binding: the runner calls `ioping_sequential_test("4k", 10)`,
   * so `4k` lands after `-c` and `10` after `-s`.
   */
  lemma IopingSequentialLine(device: string)
    ensures Render(IopingChecks[0].cmd, device) == Unwords(["ioping", "-c", "4k", "-s", "10", "-D", device])
  {
    var ws := [Word("ioping"), Word("-c"), Word("4k"), Word("-s"), Word("10"), Word("-D"), DeviceWord];
    IopingSequentialCmd();
    hide *;
    FillWord("ioping", device);
    FillWord("-c", device);
    FillWord("4k", device);
    FillWord("-s", device);
    FillWord("10", device);
    FillWord("-D", device);
    FillDeviceWord(device);
    assert FillEach(ws, device) == ["ioping", "-c", "4k", "-s", "10", "-D", device];
    RenderWords(ws, device);
  }

  lemma IopingSequentialCmd()
    ensures IopingChecks[0].cmd
         == Words([Word("ioping"), Word("-c"), Word("4k"), Word("-s"), Word("10"), Word("-D"), DeviceWord])
  {
    assert Decimal(10) == "10";
  }

  /** `high_iodepth_test` hands fio exactly these words: depth 32, four jobs, mixed random I/O. */
  lemma HighIodepthWords(device: string)
    ensures Split(Render(FioChecks[2].cmd, device))
         == ["fio", "--name=high_iodepth", "--ioengine=libaio", "--rw=randrw", "--bs=4k", "--size=131072",
             "--numjobs=4", "--runtime=60", "--iodepth=32", "--group_reporting"]
  {
    assert FioChecks[2].cmd == FioPerformanceTest(HighIodepthJob);
    HighIodepthClean();
    HighIodepthArgs();
    FioCommandWords(HighIodepthJob, device);
  }

  /** The keys of the three runners, in declared order. */
  const FioKeys: seq<string> := [
    "Sequential_Read_Info", "Random_Write_Info", "IO_depth_Info", "Sequential_Write_Info", "Random_Read_Test",
    "Mixed_Read_Write_Test", "Large_Block_Sequential_Read_Test", "Large_Block_Random_Write_Test", "Throughput_Test"]
  const DdKeys: seq<string> := [
    "Sequential_Write_Test", "Sequential_Read_Test", "Random_Write_Test", "Random_Read_Test", "Throughput_Test",
    "write_speed_different_block", "read_speed_different_block", "write_latency_test", "read_latency_test"]
  const IopingKeys: seq<string> := [
    "Sequential_IO_Latency", "Continuous_IO_Latency", "Max_IO_Latency", "Write_Latency_Test", "Read _Latency_Test",
    "Block_Read_Write_Latency"]

  lemma FioTableKeys()
    ensures CheckKeys(FioChecks) == FioKeys
  {
  }

  lemma DdTableKeys()
    ensures CheckKeys(DdChecks) == DdKeys
  {
  }

  lemma IopingTableKeys()
    ensures CheckKeys(IopingChecks) == IopingKeys
  {
  }

  /** Nine fio keys, pairwise distinct. */
  lemma FioKeysDistinct()
    ensures |FioKeys| == 9 && Distinct(FioKeys)
  {
  }

  /** Nine dd keys, pairwise distinct. */
  lemma DdKeysDistinct()
    ensures |DdKeys| == 9 && Distinct(DdKeys)
  {
  }

  /** Six ioping keys, pairwise distinct; the commented-out random-latency check has no key. */
  lemma IopingKeysDistinct()
    ensures |IopingKeys| == 6 && Distinct(IopingKeys)
    ensures "Random_IO_Latency" !in IopingKeys
  {
  }

  /** No two fio keys share a result file. */
  lemma FioFileNamesDistinct()
    ensures Distinct(FileNames(FioKeys))
  {
    FileNamesDistinctIf(FioKeys);
  }

  /** No two dd keys share a result file. */
  lemma DdFileNamesDistinct()
    ensures Distinct(FileNames(DdKeys))
  {
    FileNamesDistinctIf(DdKeys);
  }

  /** No two ioping keys share a result file. */
  lemma IopingFileNamesDistinct()
    ensures Distinct(FileNames(IopingKeys))
  {
    FileNamesDistinctIf(IopingKeys);
  }

  /** The space inside `Read _Latency_Test` becomes a second underscore. */
  lemma ReadLatencyFileName()
    ensures FileName("Read _Latency_Test") == "read__latency_test.txt"
  {
  }

  /** The three result sub-directories are distinct single path components. */
  lemma SubdirsApart()
    ensures '/' !in FioDir && '/' !in DdDir && '/' !in IopingDir
    ensures FioDir != DdDir && FioDir != IopingDir && DdDir != IopingDir
  {
    assert FioDir[0] != DdDir[0] && FioDir[0] != IopingDir[0] && DdDir[0] != IopingDir[0];
  }

  /**
   * `Throughput_Test` and `Random_Read_Test` are keys of both the fio and the
   * dd dictionary, yet after `save_results` every entry of all three
   * dictionaries can be read back from its own file.
   */
  lemma SaveKeepsAllDictionaries(files: map<string, string>, base: string, fio: Results, dd: Results, ioping: Results)
    requires Keys(fio) == FioKeys && Keys(dd) == DdKeys && Keys(ioping) == IopingKeys
    ensures var out := WriteAll(WriteAll(WriteAll(files, PathJoin(base, FioDir), fio, Bare), PathJoin(base, DdDir), dd, Bare),
                                PathJoin(base, IopingDir), ioping, Bare);
            && SavedIn(out, PathJoin(base, FioDir), fio, Bare)
            && SavedIn(out, PathJoin(base, DdDir), dd, Bare)
            && SavedIn(out, PathJoin(base, IopingDir), ioping, Bare)
  {
    FioFileNamesDistinct();
    DdFileNamesDistinct();
    IopingFileNamesDistinct();
    SubdirsApart();
    var m1 := WriteAll(files, PathJoin(base, FioDir), fio, Bare);
    var m2 := WriteAll(m1, PathJoin(base, DdDir), dd, Bare);
    WriteAllReadsBack(files, PathJoin(base, FioDir), fio, Bare);
    WriteAllReadsBack(m1, PathJoin(base, DdDir), dd, Bare);
    WriteAllReadsBack(m2, PathJoin(base, IopingDir), ioping, Bare);
    SavedInOtherSubdir(m1, base, FioDir, fio, DdDir, dd, Bare, Bare);
    SavedInOtherSubdir(m2, base, FioDir, fio, IopingDir, ioping, Bare, Bare);
    SavedInOtherSubdir(m2, base, DdDir, dd, IopingDir, ioping, Bare, Bare);
  }
}
