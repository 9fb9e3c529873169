/**
 * The handful of Python string operations the validation framework relies on:
 * `str.split()` (whitespace splitting), `str.strip()`, the substring test `in`,
 * ASCII `lower()`, `replace` of one character, `split(sep)[-1]`, `strip(ch)`,
 * and the decimal rendering an f-string gives a non-negative `int`.
 */
module Strings {

  datatype Option<+T> = None | Some(value: T)

  /** The characters Python's `str.isspace()` accepts; `split()` and `strip()` use this set. */
  predicate IsSpace(c: char) {
    || ('\t' <= c <= '\r')
    || ('\U{1C}' <= c <= '\U{1F}')
    || c == ' ' || c == '\U{85}' || c == '\U{A0}' || c == '\U{1680}'
    || ('\U{2000}' <= c <= '\U{200A}')
    || c == '\U{2028}' || c == '\U{2029}' || c == '\U{202F}' || c == '\U{205F}' || c == '\U{3000}'
  }

  predicate NoSpace(s: string) {
    forall i :: 0 <= i < |s| ==> !IsSpace(s[i])
  }

  /** A single shell word: non-empty and free of whitespace. */
  predicate IsWord(s: string) {
    s != [] && NoSpace(s)
  }

  // ---------------------------------------------------------------------------
  // str.split() with no separator

  /** Length of the leading run of non-whitespace characters. */
  function WordLength(s: string): (n: nat)
    ensures n <= |s|
    ensures NoSpace(s[..n])
    ensures n < |s| ==> IsSpace(s[n])
  {
    if s == [] || IsSpace(s[0]) then 0
    else
      var n := 1 + WordLength(s[1..]);
      assert s[..n] == [s[0]] + s[1..][..n - 1];
      n
  }

  /**
   * Python's `s.split()`: the maximal runs of non-whitespace characters, in
   * order; runs of whitespace separate words and leading or trailing
   * whitespace yields no empty word.
   */
  function Split(s: string): (words: seq<string>)
    ensures forall w <- words :: IsWord(w)
    decreases |s|
  {
    if s == [] then []
    else if IsSpace(s[0]) then Split(s[1..])
    else
      var n := WordLength(s);
      [s[..n]] + Split(s[n..])
  }

  /** The words joined by single spaces (the shape of every command line here). */
  function Unwords(words: seq<string>): string {
    if words == [] then []
    else if |words| == 1 then words[0]
    else words[0] + " " + Unwords(words[1..])
  }

  /** The three facts WordLength ensures pin its value down. */
  lemma {:induction false} WordLengthUnique(s: string, n: nat)
    requires n <= |s| && NoSpace(s[..n])
    requires n < |s| ==> IsSpace(s[n])
    ensures WordLength(s) == n
  {
    if n > 0 {
      assert s[..n][0] == s[0];
      assert s[1..][..n - 1] == s[..n][1..];
      WordLengthUnique(s[1..], n - 1);
    }
  }

  lemma WordLengthBeforeSpace(a: string, c: char, b: string)
    requires IsSpace(c)
    ensures WordLength(a + [c] + b) == WordLength(a)
  {
    var s := a + [c] + b;
    var n := WordLength(a);
    assert s[..n] == a[..n];
    WordLengthUnique(s, n);
  }

  /** A whitespace character always separates: splitting distributes over it. */
  lemma {:induction false} SplitAround(a: string, c: char, b: string)
    requires IsSpace(c)
    ensures Split(a + [c] + b) == Split(a) + Split(b)
    decreases |a|
  {
    var s := a + [c] + b;
    if a == [] {
      assert s[1..] == b;
    } else if IsSpace(a[0]) {
      assert s[1..] == a[1..] + [c] + b;
      SplitAround(a[1..], c, b);
    } else {
      var n := WordLength(a);
      WordLengthBeforeSpace(a, c, b);
      assert s[..n] == a[..n];
      assert s[n..] == a[n..] + [c] + b;
      SplitAround(a[n..], c, b);
    }
  }

  /** A single word splits to itself. */
  lemma SplitWord(w: string)
    requires IsWord(w)
    ensures Split(w) == [w]
  {
    WordLengthUnique(w, |w|);
    assert w[..|w|] == w;
  }

  /** A non-empty run of visible ASCII characters is a word. */
  lemma VisibleIsWord(s: string)
    requires s != [] && forall i :: 0 <= i < |s| ==> '!' <= s[i] <= '~'
    ensures IsWord(s)
  {
  }

  /** A word with whitespace-free text appended is still one word (`--flag=value`). */
  lemma WordWithValue(prefix: string, value: string)
    requires IsWord(prefix) && NoSpace(value)
    ensures IsWord(prefix + value)
  {
    var s := prefix + value;
    forall i | 0 <= i < |s| ensures !IsSpace(s[i]) {
      if i < |prefix| { assert s[i] == prefix[i]; } else { assert s[i] == value[i - |prefix|]; }
    }
  }

  /** Decimal digits are not whitespace. */
  lemma DecimalNoSpace(n: nat)
    ensures NoSpace(Decimal(n))
  {
  }

  /** A word followed by a space splits off as the first word. */
  lemma SplitLeadingWord(w: string, rest: string)
    requires IsWord(w)
    ensures Split(w + " " + rest) == [w] + Split(rest)
  {
    assert w + " " + rest == w + [' '] + rest;
    SplitAround(w, ' ', rest);
    SplitWord(w);
  }

  /**
   * Joining words with single spaces and splitting again gives the words
   * back: this is the argument vector the shell sees for a command line.
   */
  lemma {:induction false} SplitUnwords(words: seq<string>)
    requires forall w <- words :: IsWord(w)
    ensures Split(Unwords(words)) == words
  {
    if words == [] {
    } else if |words| == 1 {
      SplitWord(words[0]);
    } else {
      assert words[0] in words;
      SplitWord(words[0]);
      assert forall w <- words[1..] :: w in words;
      SplitUnwords(words[1..]);
      assert words[0] + " " + Unwords(words[1..]) == words[0] + [' '] + Unwords(words[1..]);
      SplitAround(words[0], ' ', Unwords(words[1..]));
      assert words == [words[0]] + words[1..];
    }
  }

  // ---------------------------------------------------------------------------
  // str.strip() with no argument

  predicate AllSpace(s: string) {
    forall i :: 0 <= i < |s| ==> IsSpace(s[i])
  }

  /** Drops the leading whitespace. */
  function StripLeft(s: string): (r: string)
    ensures |r| <= |s| && forall i :: 0 <= i < |r| ==> r[i] == s[|s| - |r| + i]
    ensures AllSpace(s[..|s| - |r|])
    ensures r == [] || !IsSpace(r[0])
  {
    if s != [] && IsSpace(s[0]) then
      var r := StripLeft(s[1..]);
      assert s[..|s| - |r|] == [s[0]] + s[1..][..|s| - 1 - |r|];
      r
    else s
  }

  /** Drops the trailing whitespace. */
  function StripRight(s: string): (r: string)
    ensures |r| <= |s| && forall i :: 0 <= i < |r| ==> r[i] == s[i]
    ensures AllSpace(s[|r|..])
    ensures r == [] || !IsSpace(r[|r| - 1])
  {
    if s != [] && IsSpace(s[|s| - 1]) then
      var r := StripRight(s[..|s| - 1]);
      assert s[|r|..] == s[..|s| - 1][|r|..] + [s[|s| - 1]];
      r
    else s
  }

  /** Python's `s.strip()`. */
  function Strip(s: string): (r: string)
    ensures |r| <= |s|
    ensures r == [] || (!IsSpace(r[0]) && !IsSpace(r[|r| - 1]))
  {
    StripRight(StripLeft(s))
  }

  /**
   * `strip()` removes exactly the surrounding whitespace: the result is a
   * slice of the input, everything cut off is whitespace, and the result
   * neither starts nor ends with whitespace.
   */
  lemma StripIsTrimmedSlice(s: string)
    ensures exists i, j :: 0 <= i <= j <= |s| && Strip(s) == s[i..j] && AllSpace(s[..i]) && AllSpace(s[j..])
    ensures Strip(s) == [] || (!IsSpace(Strip(s)[0]) && !IsSpace(Strip(s)[|Strip(s)| - 1]))
  {
    hide IsSpace, AllSpace, StripLeft, StripRight;
    var l := StripLeft(s);
    var r := StripRight(l);
    var i := |s| - |l|;
    StripLeftIsSuffix(s);
    StripRightIsPrefix(l);
    SlicesOfSuffix(s, i, |r|);
    var j := i + |r|;
    assert Strip(s) == s[i..j] && AllSpace(s[..i]) && AllSpace(s[j..]);
    assert r != [] ==> r[0] == l[0];
  }

  lemma StripLeftIsSuffix(s: string)
    ensures StripLeft(s) == s[|s| - |StripLeft(s)|..]
  {
  }

  lemma StripRightIsPrefix(s: string)
    ensures StripRight(s) == s[..|StripRight(s)|]
  {
  }

  lemma SlicesOfSuffix<T>(s: seq<T>, i: nat, n: nat)
    requires i + n <= |s|
    ensures s[i..][..n] == s[i..i + n] && s[i..][n..] == s[i + n..]
  {
  }

  /** Stripping twice is stripping once. */
  lemma StripIdempotent(s: string)
    ensures Strip(Strip(s)) == Strip(s)
  {
    var r := Strip(s);
    StripIsTrimmedSlice(s);
    assert StripLeft(r) == r;
  }

  // ---------------------------------------------------------------------------
  // The substring test `sub in s`

  predicate OccursAt(s: string, sub: string, i: int) {
    0 <= i <= |s| - |sub| && s[i..i + |sub|] == sub
  }

  /** Python's `sub in s`, found by trying each position from the left. */
  function Contains(s: string, sub: string): (b: bool)
    ensures b <==> exists i :: OccursAt(s, sub, i)
    decreases |s|
  {
    if |sub| > |s| then false
    else if s[..|sub|] == sub then
      assert OccursAt(s, sub, 0);
      true
    else
      var b := Contains(s[1..], sub);
      if b then
        var i :| OccursAt(s[1..], sub, i);
        assert OccursAt(s, sub, i + 1);
        b
      else
        assert forall i :: OccursAt(s, sub, i) && i > 0 ==> OccursAt(s[1..], sub, i - 1);
        b
  }

  /** Position of the first occurrence of `c` in `s`, if any (`s.find(c)`). */
  function FirstIndex(s: string, c: char): (r: Option<nat>)
    ensures r.Some? ==> r.value < |s| && s[r.value] == c && c !in s[..r.value]
    ensures r.None? ==> c !in s
  {
    if s == [] then None
    else if s[0] == c then Some(0)
    else
      match FirstIndex(s[1..], c)
      case None => None
      case Some(i) =>
        assert s[..i + 1] == [s[0]] + s[1..][..i];
        Some(i + 1)
  }

  /** An occurrence with none before it is the first one. */
  lemma FirstIndexAt(s: string, c: char, i: nat)
    requires i < |s| && s[i] == c && c !in s[..i]
    ensures FirstIndex(s, c) == Some(i)
  {
    var r := FirstIndex(s, c);
    assert s[i] in s;
    var j := r.value;
    assert forall k :: 0 <= k < i ==> s[..i][k] == s[k];
    assert forall k :: 0 <= k < j ==> s[..j][k] == s[k];
  }

  // ---------------------------------------------------------------------------
  // Character maps used by the result-file naming rule

  /** ASCII `lower()` on one character; every other character is unchanged. */
  function LowerChar(c: char): char {
    if 'A' <= c <= 'Z' then (c as int + 32) as char else c
  }

  /** `s.lower()`, restricted to ASCII letters. */
  function Lower(s: string): (r: string)
    ensures |r| == |s|
    ensures forall i :: 0 <= i < |r| ==> !('A' <= r[i] <= 'Z')
    ensures forall i :: 0 <= i < |r| ==> (r[i] == s[i] <==> !('A' <= s[i] <= 'Z'))
  {
    seq(|s|, i requires 0 <= i < |s| => LowerChar(s[i]))
  }

  /** `s.replace(old, new)` for single characters. */
  function ReplaceChar(s: string, from: char, to: char): (r: string)
    ensures |r| == |s|
    ensures from != to ==> from !in r
    ensures forall i :: 0 <= i < |s| && s[i] != from ==> r[i] == s[i]
  {
    seq(|s|, i requires 0 <= i < |s| => if s[i] == from then to else s[i])
  }

  // ---------------------------------------------------------------------------
  // split(sep)[-1] and strip(ch)

  /** `s.split(sep)[-1]`: what follows the last `sep`, or all of `s` when there is none. */
  function AfterLast(s: string, sep: char): (r: string)
    ensures |r| <= |s|
    ensures sep !in r
  {
    if s == [] then []
    else if s[|s| - 1] == sep then []
    else AfterLast(s[..|s| - 1], sep) + [s[|s| - 1]]
  }

  /** What `split(sep)[-1]` keeps is the end of the string, right after a `sep` when it is not all of it. */
  lemma {:induction false} AfterLastIsSuffix(s: string, sep: char)
    ensures AfterLast(s, sep) == s[|s| - |AfterLast(s, sep)|..]
    ensures |AfterLast(s, sep)| < |s| ==> s[|s| - |AfterLast(s, sep)| - 1] == sep
  {
    if s != [] && s[|s| - 1] != sep {
      var p, last := s[..|s| - 1], s[|s| - 1];
      AfterLastIsSuffix(p, sep);
      var r := AfterLast(p, sep);
      assert AfterLast(s, sep) == r + [last];
      var k := |p| - |r|;
      assert s == p + [last];
      assert s[k..] == p[k..] + [last];
      assert k > 0 ==> s[k - 1] == p[k - 1];
    }
  }

  /** `s.lstrip(ch)`. */
  function DropLeading(s: string, ch: char): (r: string)
    ensures |r| <= |s|
    ensures r == [] || r[0] != ch
  {
    if s != [] && s[0] == ch then DropLeading(s[1..], ch) else s
  }

  /** `lstrip(ch)` cuts a run of `ch` off the front and keeps the rest as it is. */
  lemma {:induction false} DropLeadingIsSuffix(s: string, ch: char)
    ensures DropLeading(s, ch) == s[|s| - |DropLeading(s, ch)|..]
    ensures forall i :: 0 <= i < |s| - |DropLeading(s, ch)| ==> s[i] == ch
  {
    if s != [] && s[0] == ch {
      DropLeadingIsSuffix(s[1..], ch);
    }
  }

  /** `s.rstrip(ch)`. */
  function DropTrailing(s: string, ch: char): (r: string)
    ensures |r| <= |s|
    ensures r == [] || r[|r| - 1] != ch
  {
    if s != [] && s[|s| - 1] == ch then DropTrailing(s[..|s| - 1], ch) else s
  }

  /** `rstrip(ch)` cuts a run of `ch` off the end and keeps the rest as it is. */
  lemma {:induction false} DropTrailingIsPrefix(s: string, ch: char)
    ensures DropTrailing(s, ch) == s[..|DropTrailing(s, ch)|]
    ensures forall i :: |DropTrailing(s, ch)| <= i < |s| ==> s[i] == ch
  {
    if s != [] && s[|s| - 1] == ch {
      DropTrailingIsPrefix(s[..|s| - 1], ch);
    }
  }

  /** `s.strip(ch)`. */
  function StripChar(s: string, ch: char): (r: string)
    ensures |r| <= |s|
    ensures r == [] || (r[0] != ch && r[|r| - 1] != ch)
    ensures forall c :: c in r ==> c in s
  {
    var l := DropLeading(s, ch);
    DropLeadingIsSuffix(s, ch);
    DropTrailingIsPrefix(l, ch);
    var r := DropTrailing(l, ch);
    assert r != [] ==> r[0] == l[0];
    r
  }

  /** `lstrip(ch)` leaves a string that does not start with `ch` alone. */
  lemma DropLeadingStops(s: string, ch: char)
    requires s == [] || s[0] != ch
    ensures DropLeading(s, ch) == s
  {
  }

  /** `lstrip(ch)` removes one `ch` put before a string that does not start with `ch`. */
  lemma DropLeadingOnce(s: string, ch: char)
    requires s == [] || s[0] != ch
    ensures DropLeading([ch] + s, ch) == s
  {
    assert ([ch] + s)[1..] == s;
  }

  /** `rstrip(ch)` removes one `ch` put after a string that does not end with `ch`. */
  lemma DropTrailingOnce(s: string, ch: char)
    requires s == [] || s[|s| - 1] != ch
    ensures DropTrailing(s + [ch], ch) == s
  {
    assert (s + [ch])[..|s|] == s;
  }

  // ---------------------------------------------------------------------------
  // f-string rendering of a non-negative int

  function DigitChar(d: nat): (c: char)
    requires d < 10
    ensures '0' <= c <= '9'
  {
    (48 + d) as char
  }

  predicate IsDigits(s: string) {
    forall i :: 0 <= i < |s| ==> '0' <= s[i] <= '9'
  }

  /** `f"{n}"` for an `int` n >= 0: its decimal digits, most significant first. */
  function Decimal(n: nat): (r: string)
    ensures r != [] && IsDigits(r)
    ensures |r| > 1 ==> r[0] != '0'
  {
    if n < 10 then [DigitChar(n)]
    else
      var r := Decimal(n / 10) + [DigitChar(n % 10)];
      assert r[0] == Decimal(n / 10)[0];
      r
  }

  /** The number a string of decimal digits denotes (Python's `int(s)` on such a string). */
  function DecimalValue(s: string): nat
    requires IsDigits(s)
  {
    if s == [] then 0
    else DecimalValue(s[..|s| - 1]) * 10 + (s[|s| - 1] as int - 48)
  }

  /** Rendering a count and reading it back gives the count. */
  lemma {:induction false} DecimalRoundTrip(n: nat)
    ensures DecimalValue(Decimal(n)) == n
  {
    if n >= 10 {
      var r := Decimal(n);
      assert r[..|r| - 1] == Decimal(n / 10);
      DecimalRoundTrip(n / 10);
    }
  }
}
