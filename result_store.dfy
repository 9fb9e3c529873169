/**
 * Result persistence shared by every suite's `save_results`: the file name a
 * check name maps to, the text written for one result, the directory a file
 * lands in, and the file system those writes change (a map from path to
 * contents, overwritten one `open(path, "w")` at a time).
 */
module ResultStore {
  import opened Strings
  import opened OrderedMap

  // ---------------------------------------------------------------------------
  // Paths and file names

  /** `os.path.join(dir, name)` for a relative `name`: one `/` between the parts. */
  function PathJoin(dir: string, name: string): string {
    dir + "/" + name
  }

  /** `test_name.replace(' ', '_').lower()`. */
  function FileStem(name: string): (stem: string)
    ensures |stem| == |name|
    ensures Canonical(stem)
  {
    Lower(ReplaceChar(name, ' ', '_'))
  }

  /** `f"{test_name.replace(' ', '_').lower()}.txt"`. */
  function FileName(name: string): (file: string)
    ensures |file| == |name| + 4
    ensures forall i :: 0 <= i < |name| ==> file[i] == FileStem(name)[i]
    ensures file[|name|..] == ".txt"
  {
    FileStem(name) + ".txt"
  }

  predicate IsUpper(c: char) {
    'A' <= c <= 'Z'
  }

  /** A stem as the naming rule leaves it: no spaces and no upper-case ASCII letters. */
  predicate Canonical(s: string) {
    forall i :: 0 <= i < |s| ==> s[i] != ' ' && !IsUpper(s[i])
  }

  /**
   * The stem keeps the name's length and position of every character; a
   * space becomes `_`, an upper-case letter its lower-case form, anything
   * else stays; and the stem is canonical.
   */
  lemma FileStemShape(name: string)
    ensures |FileStem(name)| == |name|
    ensures forall i :: 0 <= i < |name| ==>
      FileStem(name)[i] == if name[i] == ' ' then '_' else if IsUpper(name[i]) then (name[i] as int + 32) as char else name[i]
    ensures Canonical(FileStem(name))
  {
  }

  /** A name that is canonical already is its own stem: the file is the name plus `.txt`. */
  lemma FileStemOfCanonical(name: string)
    requires Canonical(name)
    ensures FileStem(name) == name
  {
    FileStemShape(name);
  }

  /** A name of characters from `_` to `z` (underscore, backquote, lower-case ASCII letters) is canonical. */
  lemma SnakeCaseCanonical(name: string)
    requires forall i :: 0 <= i < |name| ==> '_' <= name[i] <= 'z'
    ensures Canonical(name)
  {
  }

  /** The stem of a name, checked one character at a time. */
  lemma FileStemIs(name: string, stem: string)
    requires |name| == |stem|
    requires forall i :: 0 <= i < |name| ==> FoldChar(name[i]) == stem[i]
    ensures FileStem(name) == stem
  {
    FileStemShape(name);
  }

  /** Distinct canonical names go to distinct files, each the name plus `.txt`. */
  lemma CanonicalFileNamesDistinct(ks: seq<string>)
    requires Distinct(ks)
    requires forall i :: 0 <= i < |ks| ==> Canonical(ks[i])
    ensures forall i :: 0 <= i < |ks| ==> FileName(ks[i]) == ks[i] + ".txt"
    ensures Distinct(FileNames(ks))
  {
    forall i | 0 <= i < |ks| ensures FileStem(ks[i]) == ks[i] {
      FileStemOfCanonical(ks[i]);
    }
    StemsFileNamesDistinct(ks, ks);
  }

  /** Names whose stems are known and distinct go to distinct files, each the stem plus `.txt`. */
  lemma StemsFileNamesDistinct(ks: seq<string>, stems: seq<string>)
    requires |ks| == |stems| && Distinct(stems)
    requires forall i :: 0 <= i < |ks| ==> FileStem(ks[i]) == stems[i]
    ensures forall i :: 0 <= i < |ks| ==> FileName(ks[i]) == stems[i] + ".txt"
    ensures Distinct(FileNames(ks))
  {
    forall i, j | 0 <= i < j < |ks| ensures FileNames(ks)[i] != FileNames(ks)[j] {
      var a, b := stems[i], stems[j];
      assert (a + ".txt")[..|a|] == a;
      assert (b + ".txt")[..|b|] == b;
    }
  }

  /** Applying the naming rule twice changes nothing more. */
  lemma FileStemIdempotent(name: string)
    ensures FileStem(FileStem(name)) == FileStem(name)
  {
    FileStemShape(name);
    FileStemOfCanonical(FileStem(name));
  }

  /** Two distinct names can share a file exactly when they differ only in spaces versus `_` and letter case. */
  lemma FileNameInjectiveOnStems(a: string, b: string)
    ensures FileName(a) == FileName(b) <==> FileStem(a) == FileStem(b)
  {
    if FileName(a) == FileName(b) {
      assert FileStem(a) == FileName(a)[..|FileName(a)| - 4];
      assert FileStem(b) == FileName(b)[..|FileName(b)| - 4];
    }
  }

  /** A file name never contains `/` unless the check name does. */
  lemma FileNameNoSlash(name: string)
    requires '/' !in name
    ensures '/' !in FileName(name)
  {
    FileStemShape(name);
    var f := FileName(name);
    forall i | 0 <= i < |f| ensures f[i] != '/' {
      if i < |name| {
        assert f[i] == FileStem(name)[i];
        assert name[i] != '/';
      }
    }
  }

  /** Joining at a slash-free first part can be undone: the first `/` marks the seam. */
  lemma JoinInjective(a1: string, b1: string, a2: string, b2: string)
    requires '/' !in a1 && '/' !in a2
    requires PathJoin(a1, b1) == PathJoin(a2, b2)
    ensures a1 == a2 && b1 == b2
  {
    var p := PathJoin(a1, b1);
    assert p[..|a1|] == a1 && p[|a1|] == '/';
    FirstIndexAt(p, '/', |a1|);
    assert PathJoin(a2, b2)[..|a2|] == a2 && p[|a2|] == '/';
    FirstIndexAt(p, '/', |a2|);
    assert b1 == p[|a1| + 1..];
  }

  /**
   * Files saved under two different slash-free sub-directories of the same
   * base never share a path, whatever their file names.
   */
  lemma SubdirsKeepApart(base: string, sub1: string, file1: string, sub2: string, file2: string)
    requires '/' !in sub1 && '/' !in sub2 && sub1 != sub2
    ensures PathJoin(PathJoin(base, sub1), file1) != PathJoin(PathJoin(base, sub2), file2)
  {
    var p1, p2 := PathJoin(PathJoin(base, sub1), file1), PathJoin(PathJoin(base, sub2), file2);
    if p1 == p2 {
      var k := |base| + 1;
      assert p1[k..] == PathJoin(sub1, file1);
      assert p2[k..] == PathJoin(sub2, file2);
      JoinInjective(sub1, file1, sub2, file2);
    }
  }

  // ---------------------------------------------------------------------------
  // File contents

  /** The forty `=` characters under the check name. */
  const Rule: string := "========================================"

  /**
   * `Bare` is `f"{test_name}\n{'=' * 40}\n{output}"`; the security suite
   * writes one more `\n` at the end (`NewlineTerminated`).
   */
  datatype BodyStyle = Bare | NewlineTerminated

  function Terminator(style: BodyStyle): string {
    if style == NewlineTerminated then "\n" else ""
  }

  /** The text written for one result. */
  function Body(style: BodyStyle, name: string, output: string): (text: string)
    ensures |text| == |name| + 1 + |Rule| + 1 + |output| + |Terminator(style)|
    ensures forall i :: 0 <= i < |name| ==> text[i] == name[i]
    ensures text[|name|] == '\n'
  {
    var text := name + "\n" + Rule + "\n" + output + Terminator(style);
    assert text[..|name|] == name && text[|name|] == '\n';
    text
  }

  /** Reads a result file back: the check name on the first line, the divider, then the output. */
  function ParseBody(style: BodyStyle, text: string): Option<(string, string)> {
    match FirstIndex(text, '\n')
    case None => None
    case Some(i) =>
      var rest := text[i + 1..];
      var t := Terminator(style);
      if |rest| >= |Rule| + 1 + |t| && rest[..|Rule| + 1] == Rule + "\n" && rest[|rest| - |t|..] == t
      then Some((text[..i], rest[|Rule| + 1..|rest| - |t|]))
      else None
  }

  /**
   * The file keeps everything: from a body the check name and the whole
   * output can be read back, as long as the name is on one line.
   */
  lemma ParseBodyRoundTrip(style: BodyStyle, name: string, output: string)
    requires '\n' !in name
    ensures ParseBody(style, Body(style, name, output)) == Some((name, output))
  {
    var text := Body(style, name, output);
    var t := Terminator(style);
    var i := |name|;
    assert text[..i] == name;
    assert text[i] == '\n';
    FirstIndexAt(text, '\n', i);
    var rest := text[i + 1..];
    assert rest == Rule + "\n" + output + t;
    assert rest[..|Rule| + 1] == Rule + "\n";
    assert rest[|rest| - |t|..] == t;
    assert rest[|Rule| + 1..|rest| - |t|] == output;
  }

  // ---------------------------------------------------------------------------
  // The file system

  /**
   * The part of the host file system the suites touch: the contents of the
   * files by path, the directories created, and the paths written, in order.
   */
  class FileSystem {
    var files: map<string, string>
    var dirs: set<string>
    var writes: seq<string>

    constructor (files: map<string, string>, dirs: set<string>)
      ensures this.files == files && this.dirs == dirs && writes == []
    {
      this.files := files;
      this.dirs := dirs;
      writes := [];
    }

    /** `os.makedirs(path, exist_ok=True)`: creating an existing directory is no error and changes nothing. */
    method MakeDirs(path: string)
      modifies this
      ensures dirs == old(dirs) + {path}
      ensures files == old(files) && writes == old(writes)
    {
      dirs := dirs + {path};
    }

    /** `open(os.path.join(dir, name), "w").write(contents)`: the file is replaced, not appended to. */
    method WriteFile(dir: string, name: string, contents: string)
      requires dir in dirs
      modifies this
      ensures files == old(files)[PathJoin(dir, name) := contents]
      ensures writes == old(writes) + [PathJoin(dir, name)]
      ensures dirs == old(dirs)
    {
      files := files[PathJoin(dir, name) := contents];
      writes := writes + [PathJoin(dir, name)];
    }
  }

  /** The paths one save loop writes, in dictionary order. */
  function Paths(dir: string, rs: Results): (ps: seq<string>)
    ensures |ps| == |rs|
    ensures forall i :: 0 <= i < |rs| ==> ps[i] == PathJoin(dir, FileName(rs[i].key))
  {
    if rs == [] then [] else Paths(dir, rs[..|rs| - 1]) + [PathJoin(dir, FileName(rs[|rs| - 1].key))]
  }

  /** The files after one save loop over `rs` into `dir`, written in dictionary order. */
  function WriteAll(files: map<string, string>, dir: string, rs: Results, style: BodyStyle): map<string, string>
    decreases |rs|
  {
    if rs == [] then files
    else
      var n := |rs| - 1;
      WriteAll(files, dir, rs[..n], style)[PathJoin(dir, FileName(rs[n].key)) := Body(style, rs[n].key, rs[n].value)]
  }

  /**
   * The body of a `save_results` loop: one write per dictionary entry, in
   * dictionary order, into a directory made beforehand.
   */
  method WriteResults(fs: FileSystem, dir: string, rs: Results, style: BodyStyle)
    requires dir in fs.dirs
    modifies fs
    ensures fs.files == WriteAll(old(fs.files), dir, rs, style)
    ensures fs.writes == old(fs.writes) + Paths(dir, rs)
    ensures fs.dirs == old(fs.dirs)
  {
    hide Body, FileName, FileStem, PathJoin;
    for i := 0 to |rs|
      invariant fs.files == WriteAll(old(fs.files), dir, rs[..i], style)
      invariant fs.writes == old(fs.writes) + Paths(dir, rs[..i])
      invariant fs.dirs == old(fs.dirs)
    {
      fs.WriteFile(dir, FileName(rs[i].key), Body(style, rs[i].key, rs[i].value));
      assert rs[..i + 1][..i] == rs[..i];
    }
    assert rs[..|rs|] == rs;
  }

  /** A save creates exactly the files of its entries and keeps every other file. */
  lemma {:induction false} WriteAllDomain(files: map<string, string>, dir: string, rs: Results, style: BodyStyle)
    ensures forall p :: p in WriteAll(files, dir, rs, style) <==> p in files || p in Paths(dir, rs)
    decreases |rs|
  {
    if rs != [] {
      var n := |rs| - 1;
      WriteAllDomain(files, dir, rs[..n], style);
      assert Paths(dir, rs) == Paths(dir, rs[..n]) + [PathJoin(dir, FileName(rs[n].key))];
    }
  }

  /** A file no entry maps to keeps its contents. */
  lemma {:induction false} WriteAllOutside(files: map<string, string>, dir: string, rs: Results, style: BodyStyle, p: string)
    requires p in files && p !in Paths(dir, rs)
    ensures p in WriteAll(files, dir, rs, style) && WriteAll(files, dir, rs, style)[p] == files[p]
    decreases |rs|
  {
    if rs != [] {
      var n := |rs| - 1;
      assert Paths(dir, rs) == Paths(dir, rs[..n]) + [PathJoin(dir, FileName(rs[n].key))];
      WriteAllOutside(files, dir, rs[..n], style, p);
    }
  }

  /**
   * Last write wins: an entry's file holds that entry's body unless a later
   * entry maps to the same file name.
   */
  lemma {:induction false} WriteAllLastWins(files: map<string, string>, dir: string, rs: Results, style: BodyStyle, i: nat)
    requires i < |rs|
    requires forall j :: i < j < |rs| ==> FileName(rs[j].key) != FileName(rs[i].key)
    ensures var p := PathJoin(dir, FileName(rs[i].key));
            p in WriteAll(files, dir, rs, style) && WriteAll(files, dir, rs, style)[p] == Body(style, rs[i].key, rs[i].value)
    decreases |rs|
  {
    var n := |rs| - 1;
    if i < n {
      forall j | i < j < n ensures FileName(rs[..n][j].key) != FileName(rs[..n][i].key) {
        assert rs[..n][j] == rs[j];
      }
      WriteAllLastWins(files, dir, rs[..n], style, i);
      assert rs[..n][i] == rs[i];
      assert FileName(rs[n].key) == PathJoin(dir, FileName(rs[n].key))[|dir| + 1..];
      assert FileName(rs[i].key) == PathJoin(dir, FileName(rs[i].key))[|dir| + 1..];
    }
  }

  /** Every entry of `rs` can be read back from its file in `dir`. */
  ghost predicate SavedIn(files: map<string, string>, dir: string, rs: Results, style: BodyStyle) {
    forall i :: 0 <= i < |rs| ==>
      PathJoin(dir, FileName(rs[i].key)) in files && files[PathJoin(dir, FileName(rs[i].key))] == Body(style, rs[i].key, rs[i].value)
  }

  /** When the entries map to distinct file names, every entry's file holds its own body. */
  lemma WriteAllReadsBack(files: map<string, string>, dir: string, rs: Results, style: BodyStyle)
    requires Distinct(FileNames(Keys(rs)))
    ensures SavedIn(WriteAll(files, dir, rs, style), dir, rs, style)
  {
    forall i | 0 <= i < |rs|
      ensures var p := PathJoin(dir, FileName(rs[i].key));
              p in WriteAll(files, dir, rs, style) && WriteAll(files, dir, rs, style)[p] == Body(style, rs[i].key, rs[i].value)
    {
      assert forall j :: i < j < |rs| ==> FileNames(Keys(rs))[j] != FileNames(Keys(rs))[i];
      WriteAllLastWins(files, dir, rs, style, i);
    }
  }

  /**
   * Saving into another sub-directory of the same base keeps everything
   * already saved: two dictionaries that share check names both survive.
   */
  lemma SavedInOtherSubdir(files: map<string, string>, base: string, sub1: string, rs1: Results,
                           sub2: string, rs2: Results, style1: BodyStyle, style2: BodyStyle)
    requires '/' !in sub1 && '/' !in sub2 && sub1 != sub2
    requires SavedIn(files, PathJoin(base, sub1), rs1, style1)
    ensures SavedIn(WriteAll(files, PathJoin(base, sub2), rs2, style2), PathJoin(base, sub1), rs1, style1)
  {
    forall i | 0 <= i < |rs1|
      ensures var p := PathJoin(PathJoin(base, sub1), FileName(rs1[i].key));
              p in WriteAll(files, PathJoin(base, sub2), rs2, style2)
              && WriteAll(files, PathJoin(base, sub2), rs2, style2)[p] == Body(style1, rs1[i].key, rs1[i].value)
    {
      WriteAllKeepsOtherSubdir(files, base, sub1, sub2, rs2, style2, FileName(rs1[i].key));
    }
  }

  /** The file name each check name maps to, in order. */
  function FileNames(ks: seq<string>): (fs: seq<string>)
    ensures |fs| == |ks|
    ensures forall i :: 0 <= i < |ks| ==> fs[i] == FileName(ks[i])
  {
    if ks == [] then [] else FileNames(ks[..|ks| - 1]) + [FileName(ks[|ks| - 1])]
  }

  /** The naming rule on one character. */
  function FoldChar(c: char): char {
    LowerChar(if c == ' ' then '_' else c)
  }

  /**
   * Check names of different lengths, or whose first or second characters
   * differ after the naming rule, never share a file.
   */
  lemma FileNamesDistinctIf(ks: seq<string>)
    requires forall i, j :: 0 <= i < j < |ks| ==>
      |ks[i]| != |ks[j]| ||
      (|ks[i]| >= 2 && |ks[j]| >= 2 &&
       (FoldChar(ks[i][0]) != FoldChar(ks[j][0]) || FoldChar(ks[i][1]) != FoldChar(ks[j][1])))
    ensures Distinct(FileNames(ks))
  {
    forall i, j | 0 <= i < j < |ks| ensures FileNames(ks)[i] != FileNames(ks)[j] {
      FileStemShape(ks[i]);
      FileStemShape(ks[j]);
      if |ks[i]| == |ks[j]| {
        assert FileName(ks[i])[0] == FoldChar(ks[i][0]);
        assert FileName(ks[j])[0] == FoldChar(ks[j][0]);
        assert FileName(ks[i])[1] == FoldChar(ks[i][1]);
        assert FileName(ks[j])[1] == FoldChar(ks[j][1]);
      }
    }
  }

  /** What a save leaves in a file it writes does not depend on the files there before. */
  lemma {:induction false} WriteAllOverwrites(f: map<string, string>, g: map<string, string>, dir: string, rs: Results,
                                              style: BodyStyle, p: string)
    requires p in Paths(dir, rs)
    ensures p in WriteAll(f, dir, rs, style) && p in WriteAll(g, dir, rs, style)
    ensures WriteAll(f, dir, rs, style)[p] == WriteAll(g, dir, rs, style)[p]
    decreases |rs|
  {
    var n := |rs| - 1;
    assert Paths(dir, rs) == Paths(dir, rs[..n]) + [PathJoin(dir, FileName(rs[n].key))];
    if p != PathJoin(dir, FileName(rs[n].key)) {
      WriteAllOverwrites(f, g, dir, rs[..n], style, p);
    }
  }

  /**
   * A save into one sub-directory of `base` leaves every file of another
   * sub-directory as it was: check names shared by two suites' dictionaries
   * do not overwrite each other.
   */
  lemma WriteAllKeepsOtherSubdir(files: map<string, string>, base: string, sub1: string, sub2: string,
                                 rs: Results, style: BodyStyle, name: string)
    requires '/' !in sub1 && '/' !in sub2 && sub1 != sub2
    requires PathJoin(PathJoin(base, sub1), name) in files
    ensures var p := PathJoin(PathJoin(base, sub1), name);
            p in WriteAll(files, PathJoin(base, sub2), rs, style) && WriteAll(files, PathJoin(base, sub2), rs, style)[p] == files[p]
  {
    var p := PathJoin(PathJoin(base, sub1), name);
    forall i | 0 <= i < |rs| ensures Paths(PathJoin(base, sub2), rs)[i] != p {
      SubdirsKeepApart(base, sub1, name, sub2, FileName(rs[i].key));
    }
    WriteAllOutside(files, PathJoin(base, sub2), rs, style, p);
  }

  /**
   * Saving again with the same check names (whatever the outputs) writes the
   * same set of paths and the second contents win: the result is as if
   * only the second save had happened.
   */
  lemma SaveTwice(files: map<string, string>, dir: string, rs1: Results, rs2: Results, style: BodyStyle)
    requires Keys(rs1) == Keys(rs2)
    ensures WriteAll(WriteAll(files, dir, rs1, style), dir, rs2, style) == WriteAll(files, dir, rs2, style)
  {
    hide *;
    var mid := WriteAll(files, dir, rs1, style);
    var lhs, rhs := WriteAll(mid, dir, rs2, style), WriteAll(files, dir, rs2, style);
    assert Paths(dir, rs1) == Paths(dir, rs2) by {
      assert forall i :: 0 <= i < |rs1| ==> rs1[i].key == Keys(rs1)[i] == Keys(rs2)[i] == rs2[i].key;
    }
    WriteAllDomain(files, dir, rs1, style);
    WriteAllDomain(mid, dir, rs2, style);
    WriteAllDomain(files, dir, rs2, style);
    forall p | p in lhs ensures p in rhs && lhs[p] == rhs[p] {
      if p in Paths(dir, rs2) {
        WriteAllOverwrites(mid, files, dir, rs2, style, p);
      } else {
        WriteAllOutside(mid, dir, rs2, style, p);
        WriteAllOutside(files, dir, rs1, style, p);
        WriteAllOutside(files, dir, rs2, style, p);
      }
    }
  }

  /** Saving the same results twice leaves the same files as saving once. */
  lemma SaveIdempotent(files: map<string, string>, dir: string, rs: Results, style: BodyStyle)
    ensures WriteAll(WriteAll(files, dir, rs, style), dir, rs, style) == WriteAll(files, dir, rs, style)
  {
    SaveTwice(files, dir, rs, rs, style);
  }
}
