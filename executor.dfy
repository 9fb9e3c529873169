/**
 * The privileged command wrapper every suite repeats as `run_command`, the
 * process it drives (an oracle), and the walk over a suite's declared checks that
 * each `run_all_*` method performs.
 */
module Executor {
  import opened Strings
  import opened OrderedMap
  import opened Templates

  /** What the shell reports for one command line: exit status 0 or not, and the captured text. */
  datatype ProcessOutcome = ProcessOutcome(exitOk: bool, output: string)

  /**
   * The host's shell, seen as an oracle. `respond(n, line)` is the outcome of
   * the n-th command line run (counting from 0); it stands for whatever the
   * device and the system answer. `log` lists the lines run so far, in order.
   */
  class Shell {
    const respond: (nat, string) -> ProcessOutcome
    var log: seq<string>

    constructor (respond: (nat, string) -> ProcessOutcome)
      ensures this.respond == respond && log == []
    {
      this.respond := respond;
      log := [];
    }

    /** `subprocess.check_output(line, stderr=STDOUT, shell=True)`: one process per call, no retry. */
    method Execute(line: string) returns (outcome: ProcessOutcome)
      modifies this
      ensures log == old(log) + [line]
      ensures outcome == respond(|old(log)|, line)
    {
      outcome := respond(|log|, line);
      log := log + [line];
    }
  }

  /**
   * The two `run_command` variants: `Plain` (health, performance, endurance,
   * file-system and power suites) and `Quiet` (security suite, which appends
   * `2>/dev/null` and strips the captured text).
   */
  datatype Wrapping = Plain | Quiet

  const ErrorPrefix: string := "Error executing command: "

  /** What the wrapper puts in front of every command: the password, verbatim, echoed into `sudo -S`. */
  function Prefix(password: string): (p: string)
    ensures |p| == |password| + 16
    ensures p[5..5 + |password|] == password
  {
    "echo " + password + " | sudo -S "
  }

  /** What the wrapper puts after every command: only the quiet variant adds anything. */
  function Suffix(w: Wrapping): (s: string)
    ensures |s| == 0 <==> w.Plain?
  {
    if w == Quiet then " 2>/dev/null" else ""
  }

  /** The line `run_command` hands to the shell: the password piped into `sudo -S`. */
  function CommandLine(w: Wrapping, password: string, command: string): string {
    Prefix(password) + command + Suffix(w)
  }

  /** The plain wrapper's line, spelt out. */
  lemma WrappedLine(password: string, command: string)
    ensures CommandLine(Plain, password, command) == "echo " + password + " | sudo -S " + command
  {
  }

  /** The quiet wrapper's line, spelt out: the security suite sends the command's error stream to `/dev/null`. */
  lemma QuietLine(password: string, command: string)
    ensures CommandLine(Quiet, password, command) == "echo " + password + " | sudo -S " + command + " 2>/dev/null"
  {
  }

  /** A wrapped line starts with the prefix and `sudo ` exactly when the command itself starts with `sudo `. */
  lemma WrappedSudo(password: string, command: string)
    ensures StartsWith(CommandLine(Plain, password, command), Prefix(password) + "sudo ")
        <==> StartsWith(command, "sudo ")
  {
    var p, line := Prefix(password), CommandLine(Plain, password, command);
    assert line == p + command;
    if |command| >= 5 {
      assert line[..|p| + 5] == p + command[..5];
      assert (p + command[..5])[|p|..] == command[..5] && (p + "sudo ")[|p|..] == "sudo ";
    }
  }

  /** Recovers the wrapped command from a command line, if the line has the wrapper's shape. */
  function Unwrap(w: Wrapping, password: string, line: string): Option<string> {
    var p, s := Prefix(password), Suffix(w);
    if |p| + |s| <= |line| && line[..|p|] == p && line[|line| - |s|..] == s
    then Some(line[|p|..|line| - |s|])
    else None
  }

  /** The wrapper passes the command through unchanged: unwrapping its line gives the command back. */
  lemma UnwrapCommandLine(w: Wrapping, password: string, command: string)
    ensures Unwrap(w, password, CommandLine(w, password, command)) == Some(command)
  {
    var line := CommandLine(w, password, command);
    var p, s := Prefix(password), Suffix(w);
    assert line[..|p|] == p;
    assert line[|line| - |s|..] == s;
    assert line[|p|..|line| - |s|] == command;
  }

  /**
   * The words the shell sees. The password is spliced in unquoted, so each
   * of its whitespace-separated words becomes a separate argument of `echo`;
   * for a one-word password the line is `echo pw | sudo -S` followed by the
   * words of the command.
   */
  lemma CommandLineWords(password: string, command: string)
    ensures Split(CommandLine(Plain, password, command))
         == ["echo"] + Split(password) + ["|", "sudo", "-S"] + Split(command)
  {
    var t1 := "| sudo -S " + command;
    var t0 := password + [' '] + t1;
    var line := CommandLine(Plain, password, command);
    assert line == "echo" + " " + t0;
    PipeWords();
    SplitLeadingWord("echo", t0);
    SplitAround(password, ' ', t1);
    SudoWords(command);
    ConcatFour(["echo"], Split(password), ["|", "sudo", "-S"], Split(command));
  }

  lemma ConcatFour<T>(a: seq<T>, b: seq<T>, c: seq<T>, d: seq<T>)
    ensures a + (b + (c + d)) == a + b + c + d
  {
  }

  /** The tail of every command line: the pipe into `sudo -S`, then the command's own words. */
  lemma SudoWords(command: string)
    ensures Split("| sudo -S " + command) == ["|", "sudo", "-S"] + Split(command)
  {
    PipeWords();
    SplitLeadingWords("|", "sudo", "-S", command);
    assert "| sudo -S " + command == "|" + " " + "sudo" + " " + "-S" + " " + command;
  }

  lemma SplitLeadingWords(a: string, b: string, c: string, rest: string)
    requires IsWord(a) && IsWord(b) && IsWord(c)
    ensures Split(a + " " + b + " " + c + " " + rest) == [a, b, c] + Split(rest)
  {
    var t2 := c + " " + rest;
    var t1 := b + " " + t2;
    assert a + " " + b + " " + c + " " + rest == a + " " + t1;
    SplitLeadingWord(c, rest);
    SplitLeadingWord(b, t2);
    SplitLeadingWord(a, t1);
  }

  lemma PipeWords()
    ensures IsWord("echo") && IsWord("|") && IsWord("sudo") && IsWord("-S")
  {
    VisibleIsWord("echo");
    VisibleIsWord("|");
    VisibleIsWord("sudo");
    VisibleIsWord("-S");
  }

  /** The text `run_command` returns for an outcome: failure becomes text, never an exception. */
  function ReplyText(w: Wrapping, outcome: ProcessOutcome): string {
    var body := if w == Quiet then Strip(outcome.output) else outcome.output;
    if outcome.exitOk then body else ErrorPrefix + body
  }

  predicate StartsWith(s: string, p: string) {
    |p| <= |s| && s[..|p|] == p
  }

  /**
   * The reply always ends with the captured text (stripped for `Quiet`), so
   * a tool's own error message reaches the result; and it starts with the
   * error prefix exactly when the process failed or its text already did.
   */
  lemma ReplyTextShape(w: Wrapping, outcome: ProcessOutcome)
    ensures var body := if w == Quiet then Strip(outcome.output) else outcome.output;
            var r := ReplyText(w, outcome);
            && |body| <= |r| && r[|r| - |body|..] == body
            && (StartsWith(r, ErrorPrefix) <==> !outcome.exitOk || StartsWith(body, ErrorPrefix))
  {
    var body := if w == Quiet then Strip(outcome.output) else outcome.output;
    var r := ReplyText(w, outcome);
    if !outcome.exitOk {
      assert r[..|ErrorPrefix|] == ErrorPrefix;
      assert r[|r| - |body|..] == body;
    }
  }

  /** `run_command(command)`: wrap, run once, and turn the outcome into text. */
  method RunCommand(sh: Shell, w: Wrapping, password: string, command: string) returns (text: string)
    modifies sh
    ensures sh.log == old(sh.log) + [CommandLine(w, password, command)]
    ensures text == ReplyText(w, sh.respond(|old(sh.log)|, CommandLine(w, password, command)))
  {
    var outcome := sh.Execute(CommandLine(w, password, command));
    text := ReplyText(w, outcome);
  }

  // ---------------------------------------------------------------------------
  // A suite's declared checks and the walk over them

  /** One line `self.results['key'] = self.builder()` of a `run_all_*` method. */
  datatype Check = Check(key: string, cmd: Cmd)

  function CheckKeys(table: seq<Check>): (ks: seq<string>)
    ensures |ks| == |table|
    ensures forall i :: 0 <= i < |table| ==> ks[i] == table[i].key
  {
    if table == [] then [] else CheckKeys(table[..|table| - 1]) + [table[|table| - 1].key]
  }

  /** The lines a suite run hands to the shell, in declared order. */
  function CommandLines(w: Wrapping, password: string, device: string, table: seq<Check>): (lines: seq<string>)
    ensures |lines| == |table|
    ensures forall i :: 0 <= i < |table| ==> lines[i] == CommandLine(w, password, Render(table[i].cmd, device))
  {
    if table == [] then []
    else
      var n := |table| - 1;
      CommandLines(w, password, device, table[..n]) + [CommandLine(w, password, Render(table[n].cmd, device))]
  }

  /** A table whose builders never read the device hands the shell the same lines whatever the device. */
  lemma CommandLinesDeviceFree(w: Wrapping, password: string, d1: string, d2: string, table: seq<Check>)
    requires forall i :: 0 <= i < |table| ==> !UsesDevice(table[i].cmd)
    ensures CommandLines(w, password, d1, table) == CommandLines(w, password, d2, table)
  {
    forall i | 0 <= i < |table| ensures Render(table[i].cmd, d1) == Render(table[i].cmd, d2) {
      RenderDevice(table[i].cmd, d1, d2);
    }
  }

  /** The texts a suite run stores, when its first line is the shell's `start`-th. */
  function Outputs(respond: (nat, string) -> ProcessOutcome, start: nat, w: Wrapping, password: string,
                   device: string, table: seq<Check>): (texts: seq<string>)
    ensures |texts| == |table|
    ensures forall i :: 0 <= i < |table| ==>
      texts[i] == ReplyText(w, respond(start + i, CommandLine(w, password, Render(table[i].cmd, device))))
  {
    seq(|table|, i requires 0 <= i < |table| =>
      ReplyText(w, respond(start + i, CommandLine(w, password, Render(table[i].cmd, device)))))
  }

  /**
   * The body of a `run_all_*` method: each declared check in turn runs its
   * command and stores the text under its key; no check is skipped because
   * an earlier one failed.
   */
  method RunChecks(sh: Shell, w: Wrapping, password: string, device: string, results: Results, table: seq<Check>)
    returns (updated: Results)
    modifies sh
    ensures sh.log == old(sh.log) + CommandLines(w, password, device, table)
    ensures updated == AssignAll(results, CheckKeys(table), Outputs(sh.respond, |old(sh.log)|, w, password, device, table))
  {
    ghost var log0 := sh.log;
    updated := results;
    for i := 0 to |table|
      invariant Walked(sh.respond, log0, w, password, device, results, table, i, sh.log, updated)
    {
      ghost var before := sh.log;
      var text := RunCommand(sh, w, password, Render(table[i].cmd, device));
      RunStep(sh.respond, log0, w, password, device, results, table, i, before, updated, text);
      updated := Assign(updated, table[i].key, text);
    }
    assert table[..|table|] == table;
  }

  /** The state after walking the first `i` checks of a table. */
  ghost predicate Walked(respond: (nat, string) -> ProcessOutcome, log0: seq<string>, w: Wrapping, password: string,
                         device: string, results: Results, table: seq<Check>, i: nat, log: seq<string>, updated: Results)
    requires i <= |table|
  {
    && log == log0 + CommandLines(w, password, device, table[..i])
    && updated == AssignAll(results, CheckKeys(table[..i]), Outputs(respond, |log0|, w, password, device, table[..i]))
  }

  /** One pass of the walk: the log gains the check's line and the dictionary its text. */
  lemma RunStep(respond: (nat, string) -> ProcessOutcome, log0: seq<string>, w: Wrapping, password: string,
                device: string, results: Results, table: seq<Check>, i: nat, log: seq<string>, updated: Results, text: string)
    requires i < |table|
    requires Walked(respond, log0, w, password, device, results, table, i, log, updated)
    requires text == ReplyText(w, respond(|log|, CommandLine(w, password, Render(table[i].cmd, device))))
    ensures Walked(respond, log0, w, password, device, results, table, i + 1,
                   log + [CommandLine(w, password, Render(table[i].cmd, device))], Assign(updated, table[i].key, text))
  {
    hide *;
    var start := |log0|;
    var line := CommandLine(w, password, Render(table[i].cmd, device));
    var lines, keys, texts := CommandLines(w, password, device, table[..i]), CheckKeys(table[..i]),
                              Outputs(respond, start, w, password, device, table[..i]);
    WalkedIs(respond, log0, w, password, device, results, table, i, log, updated);
    TableStep(respond, start, w, password, device, table, i);
    assert |log| == start + i;
    LogStep(log0, lines, line);
    AssignAllStep(results, keys, texts, table[i].key, text);
    WalkedIs(respond, log0, w, password, device, results, table, i + 1, log + [line], Assign(updated, table[i].key, text));
  }

  lemma WalkedIs(respond: (nat, string) -> ProcessOutcome, log0: seq<string>, w: Wrapping, password: string,
                 device: string, results: Results, table: seq<Check>, i: nat, log: seq<string>, updated: Results)
    requires i <= |table|
    ensures Walked(respond, log0, w, password, device, results, table, i, log, updated) <==>
      && log == log0 + CommandLines(w, password, device, table[..i])
      && updated == AssignAll(results, CheckKeys(table[..i]), Outputs(respond, |log0|, w, password, device, table[..i]))
  {
  }

  lemma LogStep(log0: seq<string>, lines: seq<string>, line: string)
    ensures log0 + lines + [line] == log0 + (lines + [line])
  {
  }

  /** Extending the walked prefix of a table by one check extends keys, lines and texts by one. */
  lemma TableStep(respond: (nat, string) -> ProcessOutcome, start: nat, w: Wrapping, password: string,
                  device: string, table: seq<Check>, i: nat)
    requires i < |table|
    ensures CheckKeys(table[..i + 1]) == CheckKeys(table[..i]) + [table[i].key]
    ensures var line := CommandLine(w, password, Render(table[i].cmd, device));
            && CommandLines(w, password, device, table[..i + 1]) == CommandLines(w, password, device, table[..i]) + [line]
            && Outputs(respond, start, w, password, device, table[..i + 1])
               == Outputs(respond, start, w, password, device, table[..i]) + [ReplyText(w, respond(start + i, line))]
  {
    var line := CommandLine(w, password, Render(table[i].cmd, device));
    hide *;
    KeysStep(table, i);
    LinesStep(w, password, device, table, i);
    OutputsStep(respond, start, w, password, device, table, i);
  }

  lemma KeysStep(table: seq<Check>, i: nat)
    requires i < |table|
    ensures CheckKeys(table[..i + 1]) == CheckKeys(table[..i]) + [table[i].key]
  {
    hide CommandLines, Outputs;
    assert table[..i + 1][..i] == table[..i];
  }

  lemma LinesStep(w: Wrapping, password: string, device: string, table: seq<Check>, i: nat)
    requires i < |table|
    ensures CommandLines(w, password, device, table[..i + 1])
         == CommandLines(w, password, device, table[..i]) + [CommandLine(w, password, Render(table[i].cmd, device))]
  {
    hide CheckKeys, Outputs, CommandLine, Render;
    assert table[..i + 1][..i] == table[..i];
  }

  lemma OutputsStep(respond: (nat, string) -> ProcessOutcome, start: nat, w: Wrapping, password: string,
                    device: string, table: seq<Check>, i: nat)
    requires i < |table|
    ensures Outputs(respond, start, w, password, device, table[..i + 1])
         == Outputs(respond, start, w, password, device, table[..i])
            + [ReplyText(w, respond(start + i, CommandLine(w, password, Render(table[i].cmd, device))))]
  {
    hide *;
    var a := Outputs(respond, start, w, password, device, table[..i + 1]);
    var b := Outputs(respond, start, w, password, device, table[..i]);
    var c := [ReplyText(w, respond(start + i, CommandLine(w, password, Render(table[i].cmd, device))))];
    forall k | 0 <= k < i + 1 ensures a[k] == (b + c)[k] {
      assert table[..i + 1][k] == table[k];
      if k < i {
        assert table[..i][k] == table[k];
      }
    }
    assert a == b + c;
  }

  /**
   * What one run of a suite leaves in an empty dictionary: exactly the
   * declared keys, in declared order, each holding its own check's text.
   */
  lemma RunRecordsEveryCheck(table: seq<Check>, texts: seq<string>)
    requires |texts| == |table| && Distinct(CheckKeys(table))
    ensures Keys(AssignAll([], CheckKeys(table), texts)) == CheckKeys(table)
    ensures forall i :: 0 <= i < |table| ==> Lookup(AssignAll([], CheckKeys(table), texts), table[i].key) == Some(texts[i])
  {
    AssignAllFresh([], CheckKeys(table), texts);
    AssignAllLookup([], CheckKeys(table), texts);
  }
}
