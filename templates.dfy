/**
 * The command builders' f-strings. Every builder formats one command from
 * literal text, its own arguments and, in most suites, the device path
 * `self.device`. A command is modelled as the f-string's pieces, filled in
 * when the device is known: either as one run of pieces, or, where the
 * f-string is a list of words separated by single spaces, word by word.
 */
module Templates {
  import opened Strings

  /** One piece of an f-string: literal or interpolated text, or the device path. */
  datatype Piece = Text(text: string) | Device

  function PieceText(p: Piece, device: string): string {
    match p
    case Text(t) => t
    case Device => device
  }

  /** A run of pieces filled in with the device path. */
  function Fill(ps: seq<Piece>, device: string): (text: string)
    ensures Device in ps ==> |device| <= |text|
  {
    if ps == [] then []
    else
      assert Device in ps ==> ps[0] == Device || Device in ps[1..];
      PieceText(ps[0], device) + Fill(ps[1..], device)
  }

  /** Filling in two runs of pieces one after the other. */
  lemma {:induction false} FillAppend(a: seq<Piece>, b: seq<Piece>, device: string)
    ensures Fill(a + b, device) == Fill(a, device) + Fill(b, device)
  {
    if a == [] {
      assert a + b == b;
    } else {
      assert (a + b)[1..] == a[1..] + b;
      FillAppend(a[1..], b, device);
      assert Fill(a + b, device) == PieceText(a[0], device) + (Fill(a[1..], device) + Fill(b, device));
    }
  }

  /** Pieces without the device fill in to the same text whatever the device. */
  lemma {:induction false} FillDeviceFree(ps: seq<Piece>, d1: string, d2: string)
    requires Device !in ps
    ensures Fill(ps, d1) == Fill(ps, d2)
  {
    if ps != [] {
      assert ps == [ps[0]] + ps[1..];
      FillDeviceFree(ps[1..], d1, d2);
    }
  }

  /** A longer device path never gives a shorter text, and a strictly longer one when the device is used. */
  lemma {:induction false} FillLonger(ps: seq<Piece>, d1: string, d2: string)
    requires |d1| <= |d2|
    ensures |Fill(ps, d1)| <= |Fill(ps, d2)|
    ensures Device in ps && |d1| < |d2| ==> |Fill(ps, d1)| < |Fill(ps, d2)|
  {
    if ps != [] {
      FillLonger(ps[1..], d1, d2);
      assert ps == [ps[0]] + ps[1..];
      assert Device in ps ==> ps[0] == Device || Device in ps[1..];
    }
  }

  /** Where the device piece stands, the text holds the device path itself. */
  lemma FillAtDevice(ps: seq<Piece>, i: nat, device: string)
    requires i < |ps| && ps[i] == Device
    ensures Fill(ps, device) == Fill(ps[..i], device) + device + Fill(ps[i + 1..], device)
  {
    assert ps == ps[..i] + ([Device] + ps[i + 1..]);
    FillAppend(ps[..i], [Device] + ps[i + 1..], device);
    assert ([Device] + ps[i + 1..])[1..] == ps[i + 1..];
  }

  /**
   * The device path reaches the text unchanged: two devices give the same
   * text exactly when the pieces do not use the device or the devices are
   * equal.
   */
  lemma FillDevice(ps: seq<Piece>, d1: string, d2: string)
    ensures Fill(ps, d1) == Fill(ps, d2) <==> Device !in ps || d1 == d2
  {
    if Device !in ps {
      FillDeviceFree(ps, d1, d2);
    } else if |d1| < |d2| {
      FillLonger(ps, d1, d2);
    } else if |d2| < |d1| {
      FillLonger(ps, d2, d1);
    } else if d1 != d2 {
      var i :| 0 <= i < |ps| && ps[i] == Device;
      FillAtDevice(ps, i, d1);
      FillAtDevice(ps, i, d2);
      FillLonger(ps[..i], d1, d2);
      FillLonger(ps[..i], d2, d1);
      var n := |Fill(ps[..i], d1)|;
      assert Fill(ps, d1)[n..n + |d1|] == d1;
      assert Fill(ps, d2)[n..n + |d2|] == d2;
    }
  }

  // ---------------------------------------------------------------------------
  // Commands

  /**
   * A builder's command: a run of pieces (`Raw`), or a list of words, each a
   * run of pieces, that the f-string separates by single spaces (`Words`,
   * as in `fio --name={name} ... --group_reporting`).
   */
  datatype Cmd = Raw(pieces: seq<Piece>) | Words(words: seq<seq<Piece>>)

  /** Each word filled in with the device path. */
  function FillEach(words: seq<seq<Piece>>, device: string): (texts: seq<string>)
    ensures |texts| == |words|
    ensures forall i :: 0 <= i < |words| ==> texts[i] == Fill(words[i], device)
  {
    if words == [] then [] else [Fill(words[0], device)] + FillEach(words[1..], device)
  }

  /** The command filled in with the device path. */
  function Render(c: Cmd, device: string): (text: string)
    ensures text == Fill(Pieces(c), device)
    decreases if c.Words? then |c.words| else 0
  {
    match c
    case Raw(ps) => Fill(ps, device)
    case Words(ws) =>
      if ws == [] then []
      else if |ws| == 1 then Fill(ws[0], device)
      else
        var rest := Render(Words(ws[1..]), device);
        FillAppend(ws[0] + [Text(" ")], Spaced(ws[1..]), device);
        FillAppend(ws[0], [Text(" ")], device);
        assert Fill([Text(" ")], device) == " " + Fill([], device);
        Fill(ws[0], device) + " " + rest
  }

  /** A command of words fills in to its words' texts joined by single spaces. */
  lemma {:induction false} RenderWords(ws: seq<seq<Piece>>, device: string)
    ensures Render(Words(ws), device) == Unwords(FillEach(ws, device))
  {
    if |ws| > 1 {
      RenderWords(ws[1..], device);
      assert FillEach(ws, device)[1..] == FillEach(ws[1..], device);
    }
  }

  /** The words as one run of pieces, with single-space pieces between them. */
  function Spaced(words: seq<seq<Piece>>): seq<Piece> {
    if words == [] then []
    else if |words| == 1 then words[0]
    else words[0] + [Text(" ")] + Spaced(words[1..])
  }

  /** The command as one run of pieces. */
  function Pieces(c: Cmd): seq<Piece> {
    match c
    case Raw(ps) => ps
    case Words(ws) => Spaced(ws)
  }

  /** Does the builder interpolate the device path? */
  predicate UsesDevice(c: Cmd) {
    Device in Pieces(c)
  }

  /** Words separated by single spaces fill in to the same text as the spaced run of pieces. */
  lemma {:induction false} FillSpaced(words: seq<seq<Piece>>, device: string)
    ensures Fill(Spaced(words), device) == Unwords(FillEach(words, device))
  {
    if |words| > 1 {
      var w0, rest := words[0], Spaced(words[1..]);
      FillAppend(w0 + [Text(" ")], rest, device);
      FillAppend(w0, [Text(" ")], device);
      assert Fill([Text(" ")], device) == " " + Fill([], device);
      FillSpaced(words[1..], device);
      assert FillEach(words, device)[1..] == FillEach(words[1..], device);
    }
  }

  /** Either form of a command fills in to the text of its run of pieces. */
  lemma RenderPieces(c: Cmd, device: string)
    ensures Render(c, device) == Fill(Pieces(c), device)
  {
    if c.Words? {
      RenderWords(c.words, device);
      FillSpaced(c.words, device);
    }
  }

  /**
   * The device path reaches the command line unchanged: two devices give
   * the same command exactly when the builder does not use the device or
   * the devices are equal.
   */
  lemma RenderDevice(c: Cmd, d1: string, d2: string)
    ensures Render(c, d1) == Render(c, d2) <==> !UsesDevice(c) || d1 == d2
  {
    RenderPieces(c, d1);
    RenderPieces(c, d2);
    FillDevice(Pieces(c), d1, d2);
  }

  /**
   * When every word fills in to a single shell word, the shell sees exactly
   * those words, in order.
   */
  lemma SplitWords(words: seq<seq<Piece>>, device: string)
    requires forall i :: 0 <= i < |words| ==> IsWord(Fill(words[i], device))
    ensures Split(Render(Words(words), device)) == FillEach(words, device)
  {
    RenderWords(words, device);
    SplitUnwords(FillEach(words, device));
  }

  // ---------------------------------------------------------------------------
  // The shapes of words

  /** A literal word. */
  function Word(t: string): seq<Piece> {
    [Text(t)]
  }

  /** A flag with an interpolated value, as in `--rw={rw}`. */
  function Flag(flag: string, value: string): seq<Piece> {
    [Text(flag), Text(value)]
  }

  /** A flag with the device path as its value, as in `of={self.device}`. */
  function DeviceFlag(flag: string): seq<Piece> {
    [Text(flag), Device]
  }

  /** The device path as a word of its own, as in `ioping -W {self.device}`. */
  const DeviceWord: seq<Piece> := [Device]

  lemma FillWord(t: string, device: string)
    ensures Fill(Word(t), device) == t
  {
    assert Word(t)[1..] == [];
  }

  /** A builder that is one constant string renders to that string, whatever the device. */
  lemma RenderFixed(t: string, device: string)
    ensures Render(Raw(Word(t)), device) == t
  {
    FillWord(t, device);
  }

  /** A builder of the shape `f"{before}{self.device}{after}"` renders to exactly that. */
  lemma RenderAround(before: string, after: string, device: string)
    ensures Render(Raw([Text(before), Device, Text(after)]), device) == before + device + after
  {
    var ps := [Text(before), Device, Text(after)];
    assert Fill(ps[2..], device) == after by {
      assert ps[2..][1..] == [];
    }
    assert Fill(ps[1..], device) == device + after by {
      assert ps[1..][1..] == ps[2..];
    }
  }

  lemma FillFlag(flag: string, value: string, device: string)
    ensures Fill(Flag(flag, value), device) == flag + value
  {
    assert Flag(flag, value)[1..] == [Text(value)];
    assert [Text(value)][1..] == [];
    assert Fill([Text(value)], device) == value + [];
  }

  lemma FillDeviceFlag(flag: string, device: string)
    ensures Fill(DeviceFlag(flag), device) == flag + device
  {
    assert DeviceFlag(flag)[1..] == [Device];
    assert [Device][1..] == [];
    assert Fill([Device], device) == device + [];
  }

  lemma FillDeviceWord(device: string)
    ensures Fill(DeviceWord, device) == device
  {
    assert DeviceWord[1..] == [];
    assert Fill(DeviceWord, device) == device + [];
  }
}
