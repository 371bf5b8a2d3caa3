/** The pieces of Python's `str` that the text formats of this repository lean on:
    `str.strip`, `str.splitlines` and `str.partition`. */
module PyText {

  /** The characters `str.strip` removes. */
  predicate IsSpace(c: char) {
    || '\t' <= c <= '\r'
    || '\U{1C}' <= c <= ' '
    || c == '\U{85}' || c == '\U{A0}' || c == '\U{1680}'
    || '\U{2000}' <= c <= '\U{200A}'
    || c == '\U{2028}' || c == '\U{2029}' || c == '\U{202F}' || c == '\U{205F}' || c == '\U{3000}'
  }

  /** The characters `str.splitlines` ends a line at. */
  predicate IsBreak(c: char) {
    || '\n' <= c <= '\r'
    || '\U{1C}' <= c <= '\U{1E}'
    || c == '\U{85}' || c == '\U{2028}' || c == '\U{2029}'
  }

  /** The line breaks one by one; each is also white space, and beside them only spaces are. */
  lemma BreaksExactly(c: char)
    ensures IsBreak(c) <==>
      c in ['\n', '\U{0B}', '\U{0C}', '\r', '\U{1C}', '\U{1D}', '\U{1E}', '\U{85}', '\U{2028}', '\U{2029}']
    ensures IsSpace(c) <==>
      IsBreak(c) || '\U{2000}' <= c <= '\U{200A}'
      || c in ['\t', '\U{1F}', ' ', '\U{A0}', '\U{1680}', '\U{202F}', '\U{205F}', '\U{3000}']
  {
  }

  predicate NoBreak(s: string) {
    forall i | 0 <= i < |s| :: !IsBreak(s[i])
  }

  predicate Trimmed(s: string) {
    s == "" || (!IsSpace(s[0]) && !IsSpace(s[|s| - 1]))
  }

  function LStrip(s: string): string {
    if s != "" && IsSpace(s[0]) then LStrip(s[1..]) else s
  }

  function RStrip(s: string): string {
    if s != "" && IsSpace(s[|s| - 1]) then RStrip(s[..|s| - 1]) else s
  }

  function Strip(s: string): string {
    RStrip(LStrip(s))
  }

  lemma RStripShape(s: string)
    ensures RStrip(s) <= s
    ensures RStrip(s) != "" ==> !IsSpace(RStrip(s)[|RStrip(s)| - 1])
    ensures forall i | |RStrip(s)| <= i < |s| :: IsSpace(s[i])
  {
  }

  lemma LStripShape(s: string)
    ensures |LStrip(s)| <= |s| && LStrip(s) == s[|s| - |LStrip(s)|..]
    ensures LStrip(s) != "" ==> !IsSpace(LStrip(s)[0])
  {
  }

  /** `strip` leaves exactly the trimmed strings alone, and only ever yields such strings. */
  lemma StripTrims(s: string)
    ensures Trimmed(Strip(s))
    ensures Strip(s) == s <==> Trimmed(s)
  {
    LStripShape(s);
    RStripShape(LStrip(s));
  }

  lemma StripKeepsNoBreak(s: string)
    requires NoBreak(s)
    ensures NoBreak(Strip(s))
  {
    LStripShape(s);
    RStripShape(LStrip(s));
  }

  /** How many characters come before the first line break. */
  function LineLength(text: string): (n: nat)
    ensures n <= |text| && NoBreak(text[..n])
    ensures n < |text| ==> IsBreak(text[n])
  {
    if text == "" || IsBreak(text[0]) then 0 else 1 + LineLength(text[1..])
  }

  /** Where the text goes on after a line break. */
  function AfterBreak(text: string, n: nat): (k: nat)
    requires n < |text|
    ensures n < k <= |text|
  {
    if text[n] == '\r' && n + 1 < |text| && text[n + 1] == '\n' then n + 2 else n + 1
  }

  /** `text.splitlines()`: a carriage return and line feed end one line together, and a
      final line break opens no further line. */
  function SplitLines(text: string): seq<string>
    decreases |text|
  {
    var n := LineLength(text);
    if n == |text| then (if n == 0 then [] else [text])
    else [text[..n]] + SplitLines(text[AfterBreak(text, n)..])
  }

  lemma {:induction false} LinesHaveNoBreak(text: string)
    ensures forall i | 0 <= i < |SplitLines(text)| :: NoBreak(SplitLines(text)[i])
    decreases |text|
  {
    var n := LineLength(text);
    if n == |text| {
      assert text[..n] == text;
    } else {
      LinesHaveNoBreak(text[AfterBreak(text, n)..]);
    }
  }

  lemma {:induction false} FirstBreak(text: string, n: nat)
    requires n < |text| && NoBreak(text[..n]) && IsBreak(text[n])
    ensures LineLength(text) == n
  {
    if n == 0 {
    } else {
      assert text[0] == text[..n][0];
      assert text[1..][..n - 1] == text[..n][1..];
      FirstBreak(text[1..], n - 1);
    }
  }

  lemma {:induction false} FirstLine(line: string, rest: string)
    requires NoBreak(line)
    ensures SplitLines(line + "\n" + rest) == [line] + SplitLines(rest)
  {
    var text := line + "\n" + rest;
    var n := LineLength(text);
    assert text[..|line|] == line;
    FirstBreak(text, |line|);
    assert text[..n] == line;
    assert text[n + 1..] == rest;
  }

  lemma AppendedBreak(text: string, rest: string)
    requires text != "" && text[|text| - 1] == '\n'
    ensures var n := LineLength(text);
      && n < |text| && LineLength(text + rest) == n && (text + rest)[..n] == text[..n]
      && AfterBreak(text + rest, n) == AfterBreak(text, n)
      && (text + rest)[AfterBreak(text, n)..] == text[AfterBreak(text, n)..] + rest
  {
    var n := LineLength(text);
    assert n < |text| by {
      assert text[..|text|] == text;
    }
    assert (text + rest)[..n] == text[..n] && (text + rest)[n] == text[n];
    FirstBreak(text + rest, n);
    assert n + 1 < |text| ==> (text + rest)[n + 1] == text[n + 1];
    assert (text + rest)[AfterBreak(text, n)..] == text[AfterBreak(text, n)..] + rest;
  }

  lemma SplitStep(text: string, n: nat)
    requires n == LineLength(text) < |text|
    ensures SplitLines(text) == [text[..n]] + SplitLines(text[AfterBreak(text, n)..])
  {
  }

  /** Text that ends with a line feed ends a line, whatever follows it. */
  lemma {:induction false} SplitAppend(text: string, rest: string)
    requires text != "" && text[|text| - 1] == '\n'
    ensures SplitLines(text + rest) == SplitLines(text) + SplitLines(rest)
    decreases |text|
  {
    AppendedBreak(text, rest);
    var n := LineLength(text);
    var left := text[AfterBreak(text, n)..];
    SplitStep(text, n);
    SplitStep(text + rest, n);
    if left == "" {
      assert left + rest == rest;
    } else {
      SplitAppend(left, rest);
    }
    Regrouped(text[..n], SplitLines(left), SplitLines(rest));
  }

  lemma Regrouped(line: string, lines: seq<string>, more: seq<string>)
    ensures [line] + (lines + more) == ([line] + lines) + more
  {
  }

  /** Lines, each ended by a line feed. */
  function Unlines(lines: seq<string>): string {
    if lines == [] then "" else lines[0] + "\n" + Unlines(lines[1..])
  }

  lemma {:induction false} UnlinesAppend(lines: seq<string>, more: seq<string>)
    ensures Unlines(lines + more) == Unlines(lines) + Unlines(more)
  {
    if lines == [] {
      assert lines + more == more;
    } else {
      UnlinesAppend(lines[1..], more);
      assert (lines + more)[1..] == lines[1..] + more;
    }
  }

  lemma {:induction false} UnlinesEnds(lines: seq<string>)
    requires lines != []
    ensures Unlines(lines) != "" && Unlines(lines)[|Unlines(lines)| - 1] == '\n'
  {
    if |lines| == 1 {
      assert Unlines(lines[1..]) == "";
    } else {
      UnlinesEnds(lines[1..]);
    }
  }

  lemma {:induction false} SplitUnlines(lines: seq<string>)
    requires forall i | 0 <= i < |lines| :: NoBreak(lines[i])
    ensures SplitLines(Unlines(lines)) == lines
  {
    if lines == [] {
    } else {
      FirstLine(lines[0], Unlines(lines[1..]));
      SplitUnlines(lines[1..]);
    }
  }

  /** `s.startswith(prefix)`. */
  predicate StartsWith(s: string, prefix: string) {
    prefix <= s
  }

  predicate EndsWith(s: string, suffix: string) {
    |s| >= |suffix| && s[|s| - |suffix|..] == suffix
  }

  predicate OccursAt(s: string, word: string, i: nat) {
    i + |word| <= |s| && s[i..i + |word|] == word
  }

  /** `word in s`. */
  predicate Contains(s: string, word: string) {
    exists i | 0 <= i <= |s| :: OccursAt(s, word, i)
  }
}
