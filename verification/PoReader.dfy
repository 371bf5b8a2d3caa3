/** The line-by-line PO reader of scripts/compile_catalogue.py (chapter 3 of the GNU gettext
    manual), proved against a printer of PO documents. */
module PoReader {
  import opened Results
  import opened PyText

  // ----- one quoted fragment

  /** The character a backslash and `c` stand for: `ESCAPES.get(c, c)`. */
  function Unescape(c: char): char {
    match c
    case 'n' => '\n'
    case 't' => '\t'
    case 'r' => '\r'
    case 'a' => '\U{07}'
    case 'b' => '\U{08}'
    case 'f' => '\U{0C}'
    case 'v' => '\U{0B}'
    case _ => c
  }

  /** Decodes what follows the opening quote. Only the last character is held back as the closing
      quote, so a backslash before it takes the quote as its escape. */
  function Decode(rest: string): string {
    if |rest| <= 1 then ""
    else if rest[0] == '\\' then [Unescape(rest[1])] + Decode(rest[2..])
    else [rest[0]] + Decode(rest[1..])
  }

  predicate Quoted(body: string) {
    body != "" && body[0] == '"' && body[|body| - 1] == '"'
  }

  function Fragment(line: string): Result<string> {
    var body := Strip(line);
    if Quoted(body) then Ok(Decode(body[1..])) else Err("expected a quoted string")
  }

  lemma DecodeNext(body: string, index: nat, text: string)
    requires index + 1 < |body|
    ensures text + Decode(body[index..]) ==
      if body[index] == '\\' then text + [Unescape(body[index + 1])] + Decode(body[index + 2..])
      else text + [body[index]] + Decode(body[index + 1..])
  {
    var rest := body[index..];
    assert rest[1..] == body[index + 1..] && rest[2..] == body[index + 2..];
  }

  method Unquote(line: string) returns (r: Result<string>)
    ensures r == Fragment(line)
  {
    var body := Strip(line);
    if !Quoted(body) {
      return Err("expected a quoted string");
    }
    var text, index := "", 1;
    var end := |body| - 1;
    while index < end
      invariant 1 <= index <= |body|
      invariant text + Decode(body[index..]) == Decode(body[1..])
    {
      DecodeNext(body, index, text);
      var c := body[index];
      if c == '\\' {
        index := index + 1;
        text := text + [Unescape(body[index])];
      } else {
        text := text + [c];
      }
      index := index + 1;
    }
    assert text + Decode(body[index..]) == text + "" == text;
    r := Ok(text);
  }

  // ----- the reader's state and what one line does to it

  datatype Field = NoField | IdField | StrField

  datatype State = State(
    entries: map<string, string>,
    msgid: Option<string>,
    msgstr: Option<string>,
    field: Field,
    pendingFuzzy: bool,
    fuzzy: bool,
    plural: bool)

  const START: State := State(map[], None, None, NoField, false, false, false)

  /** What msgfmt would store of an entry. */
  predicate Kept(id: string, str: string, fuzzy: bool) {
    id == "" || (str != "" && !fuzzy)
  }

  function Flushed(s: State): Result<State> {
    if s.msgid.None? then Ok(s)
    else if s.plural then Err("plural forms are not supported")
    else if s.msgstr.None? then Ok(s)
    else if Kept(s.msgid.value, s.msgstr.value, s.fuzzy) then
      Ok(s.(entries := s.entries[s.msgid.value := s.msgstr.value]))
    else Ok(s)
  }

  /** What the reader sees of one line; the fragment is decoded only where it is asked for. */
  datatype Line =
    | CommentLine(fuzzy: bool)
    | BlankLine
    | ContextLine
    | PluralLine
    | IdLine(fragment: Result<string>)
    | StrLine(fragment: Result<string>)
    | QuotedLine(fragment: Result<string>)
    | OtherLine

  function Classify(raw: string): Line {
    var line := Strip(raw);
    if StartsWith(line, "#") then CommentLine(StartsWith(line, "#,") && Contains(line, "fuzzy"))
    else if line == "" then BlankLine
    else if StartsWith(line, "msgctxt ") then ContextLine
    else if StartsWith(line, "msgid_plural") || StartsWith(line, "msgstr[") then PluralLine
    else if StartsWith(line, "msgid ") then IdLine(Fragment(line[6..]))
    else if StartsWith(line, "msgstr ") then StrLine(Fragment(line[7..]))
    else if StartsWith(line, "\"") then QuotedLine(Fragment(line))
    else OtherLine
  }

  function Continued(s: State, fragment: Result<string>): Result<State> {
    match (s.field, fragment)
    case (NoField, _) => Ok(s)
    case (_, Err(e)) => Err(e)
    case (IdField, Ok(more)) =>
      if s.msgid.None? then Err("TypeError") else Ok(s.(msgid := Some(s.msgid.value + more)))
    case (StrField, Ok(more)) =>
      if s.msgstr.None? then Err("TypeError") else Ok(s.(msgstr := Some(s.msgstr.value + more)))
  }

  function Started(s: State, fragment: Result<string>): Result<State> {
    match (Flushed(s), fragment)
    case (Err(e), _) => Err(e)
    case (Ok(_), Err(e)) => Err(e)
    case (Ok(f), Ok(id)) =>
      Ok(f.(msgid := Some(id), msgstr := None, field := IdField,
            fuzzy := f.pendingFuzzy, pendingFuzzy := false, plural := false))
  }

  function Fed(s: State, line: Line): Result<State> {
    match line
    case CommentLine(fuzzy) => Ok(s.(pendingFuzzy := s.pendingFuzzy || fuzzy))
    case BlankLine => Ok(s)
    case ContextLine => Err("message contexts are not supported")
    case PluralLine => Ok(s.(plural := true, field := NoField))
    case IdLine(fragment) => Started(s, fragment)
    case StrLine(Err(e)) => Err(e)
    case StrLine(Ok(str)) => Ok(s.(msgstr := Some(str), field := StrField))
    case QuotedLine(fragment) => Continued(s, fragment)
    case OtherLine => Err("unrecognised line")
  }

  function FedAll(s: State, lines: seq<Line>): Result<State>
    decreases |lines|
  {
    if lines == [] then Ok(s)
    else
      match Fed(s, lines[0])
      case Err(e) => Err(e)
      case Ok(t) => FedAll(t, lines[1..])
  }

  function Finished(fed: Result<State>): Result<map<string, string>> {
    match fed
    case Err(e) => Err(e)
    case Ok(s) =>
      match Flushed(s)
      case Err(e) => Err(e)
      case Ok(f) => Ok(f.entries)
  }

  function ClassifyAll(raws: seq<string>): (lines: seq<Line>)
    ensures |lines| == |raws|
    ensures forall i | 0 <= i < |raws| :: lines[i] == Classify(raws[i])
  {
    seq(|raws|, i requires 0 <= i < |raws| => Classify(raws[i]))
  }

  /** What `parse` gives for a text. */
  function Parsed(text: string): Result<map<string, string>> {
    Finished(FedAll(START, ClassifyAll(SplitLines(text))))
  }

  // ----- the reader itself

  class Reader {
    var entries: map<string, string>
    var msgid: Option<string>
    var msgstr: Option<string>
    var field: Field
    var pendingFuzzy: bool
    var fuzzy: bool
    var plural: bool

    ghost function View(): State
      reads this
    {
      State(entries, msgid, msgstr, field, pendingFuzzy, fuzzy, plural)
    }

    constructor ()
      ensures View() == START
    {
      entries, msgid, msgstr, field := map[], None, None, NoField;
      pendingFuzzy, fuzzy, plural := false, false, false;
    }

    method Flush() returns (r: Result<()>)
      modifies this
      ensures Flushed(old(View())) == if r.Ok? then Ok(View()) else Err(r.error)
    {
      if msgid.None? {
        return Ok(());
      }
      if plural {
        return Err("plural forms are not supported");
      }
      if msgstr.None? {
        return Ok(());
      }
      if msgid.value == "" || (msgstr.value != "" && !fuzzy) {
        entries := entries[msgid.value := msgstr.value];
      }
      return Ok(());
    }

    method ContinueField(line: string) returns (r: Result<()>)
      modifies this
      ensures Continued(old(View()), Fragment(line)) == if r.Ok? then Ok(View()) else Err(r.error)
    {
      if field != NoField {
        var more := Unquote(line);
        if more.Err? {
          return Err(more.error);
        }
        if field == IdField {
          if msgid.None? {
            return Err("TypeError");
          }
          msgid := Some(msgid.value + more.value);
        } else {
          if msgstr.None? {
            return Err("TypeError");
          }
          msgstr := Some(msgstr.value + more.value);
        }
      }
      return Ok(());
    }

    method StartEntry(line: string) returns (r: Result<()>)
      requires |line| >= 6
      modifies this
      ensures Started(old(View()), Fragment(line[6..])) == if r.Ok? then Ok(View()) else Err(r.error)
    {
      r := Flush();
      if r.Err? {
        return;
      }
      var id := Unquote(line[6..]);
      if id.Err? {
        return Err(id.error);
      }
      msgid, msgstr, field := Some(id.value), None, IdField;
      fuzzy, pendingFuzzy, plural := pendingFuzzy, false, false;
    }

    method Feed(raw: string) returns (r: Result<()>)
      modifies this
      ensures Fed(old(View()), Classify(raw)) == if r.Ok? then Ok(View()) else Err(r.error)
    {
      var line := Strip(raw);
      if StartsWith(line, "#") {
        pendingFuzzy := pendingFuzzy || (StartsWith(line, "#,") && Contains(line, "fuzzy"));
      } else if line == "" {
        return Ok(());
      } else if StartsWith(line, "msgctxt ") {
        return Err("message contexts are not supported");
      } else if StartsWith(line, "msgid_plural") || StartsWith(line, "msgstr[") {
        plural, field := true, NoField;
      } else if StartsWith(line, "msgid ") {
        r := StartEntry(line);
        return;
      } else if StartsWith(line, "msgstr ") {
        var str := Unquote(line[7..]);
        if str.Err? {
          return Err(str.error);
        }
        msgstr, field := Some(str.value), StrField;
      } else if StartsWith(line, "\"") {
        r := ContinueField(line);
        return;
      } else {
        return Err("unrecognised line");
      }
      return Ok(());
    }
  }

  method Parse(text: string) returns (r: Result<map<string, string>>)
    ensures r == Parsed(text)
  {
    var reader := new Reader();
    var raws := SplitLines(text);
    ghost var lines := ClassifyAll(raws);
    for i := 0 to |raws|
      invariant fresh(reader)
      invariant FedAll(START, lines) == FedAll(reader.View(), lines[i..])
    {
      assert lines[i..][0] == Classify(raws[i]) && lines[i..][1..] == lines[i + 1..];
      var fed := reader.Feed(raws[i]);
      if fed.Err? {
        return Err(fed.error);
      }
    }
    var flushed := reader.Flush();
    if flushed.Err? {
      return Err(flushed.error);
    }
    r := Ok(reader.entries);
  }

  // ----- printing PO documents

  /** One item of a PO document; a message's strings may be wrapped over any number of fragments. */
  datatype Item =
    | Blank
    | Note(text: string)
    | Message(id: seq<string>, str: seq<string>)

  function EscapeChar(c: char): string {
    match c
    case '\n' => "\\n"
    case '\t' => "\\t"
    case '\r' => "\\r"
    case '\U{07}' => "\\a"
    case '\U{08}' => "\\b"
    case '\U{0C}' => "\\f"
    case '\U{0B}' => "\\v"
    case '\\' => "\\\\"
    case '"' => "\\\""
    case _ => [c]
  }

  function Escape(s: string): string {
    if s == "" then "" else EscapeChar(s[0]) + Escape(s[1..])
  }

  function Quote(s: string): string {
    "\"" + Escape(s) + "\""
  }

  function QuoteAll(parts: seq<string>): (lines: seq<string>)
    ensures |lines| == |parts|
  {
    if parts == [] then [] else [Quote(parts[0])] + QuoteAll(parts[1..])
  }

  function Concat(parts: seq<string>): string {
    if parts == [] then "" else parts[0] + Concat(parts[1..])
  }

  /** The line breaks PO text has no escape for, and so no way to carry. */
  predicate Carried(s: string) {
    forall i | 0 <= i < |s| :: IsBreak(s[i]) ==> '\n' <= s[i] <= '\r'
  }

  predicate Printable(item: Item) {
    match item
    case Blank => true
    case Note(text) => NoBreak(text)
    case Message(id, str) =>
      && id != [] && str != []
      && (forall p | p in id + str :: Carried(p))
  }

  function Lines(item: Item): seq<string> {
    match item
    case Blank => [""]
    case Note(text) => ["#" + text]
    case Message(id, str) =>
      if id == [] || str == [] then [] else FieldLines("msgid ", id) + FieldLines("msgstr ", str)
  }

  function FieldLines(keyword: string, parts: seq<string>): seq<string>
    requires parts != []
  {
    [keyword + Quote(parts[0])] + QuoteAll(parts[1..])
  }

  function AllLines(items: seq<Item>): seq<string> {
    if items == [] then [] else Lines(items[0]) + AllLines(items[1..])
  }

  function Text(items: seq<Item>): string {
    Unlines(AllLines(items))
  }

  /** A comment that holds flags, the fuzzy one among them. */
  predicate FlagsFuzzy(comment: string) {
    StartsWith(comment, ",") && Contains(comment, "fuzzy")
  }

  /** The catalogue a document stands for: a fuzzy flag counts for the next message only, and a
      later message with the same msgid replaces an earlier one. */
  function Meaning(items: seq<Item>, pending: bool, entries: map<string, string>): map<string, string>
    decreases |items|
  {
    if items == [] then entries
    else
      match items[0]
      case Blank => Meaning(items[1..], pending, entries)
      case Note(text) => Meaning(items[1..], pending || FlagsFuzzy(text), entries)
      case Message(id, str) =>
        Meaning(items[1..], false,
                if Kept(Concat(id), Concat(str), pending) then entries[Concat(id) := Concat(str)] else entries)
  }

  // ----- fragments round trip

  lemma DecodeOne(c: char, rest: string)
    requires rest != ""
    ensures Decode(EscapeChar(c) + rest) == [c] + Decode(rest)
  {
    EscapeShape(c);
    var e := EscapeChar(c);
    DecodeStep(e + rest);
    assert (e + rest)[|e|..] == rest;
  }

  lemma EscapeShape(c: char)
    ensures var e := EscapeChar(c);
      || (e == [c] && c != '\\')
      || (|e| == 2 && e[0] == '\\' && Unescape(e[1]) == c)
  {
  }

  /** A backslash before any other character than those the printer escapes adds nothing to it. */
  lemma OtherEscapes(c: char)
    ensures Unescape(c) == c || EscapeChar(Unescape(c)) == ['\\', c]
  {
  }

  lemma DecodeStep(rest: string)
    requires |rest| > 1
    ensures Decode(rest) ==
      if rest[0] == '\\' then [Unescape(rest[1])] + Decode(rest[2..]) else [rest[0]] + Decode(rest[1..])
  {
  }

  lemma {:induction false} DecodeEscape(s: string)
    ensures Decode(Escape(s) + "\"") == s
  {
    if s == "" {
    } else {
      DecodeEscape(s[1..]);
      var rest := Escape(s[1..]) + "\"";
      assert Escape(s) + "\"" == EscapeChar(s[0]) + rest;
      DecodeOne(s[0], rest);
    }
  }

  lemma QuoteTrimmed(s: string, prefix: string)
    requires prefix == "" || !IsSpace(prefix[0])
    ensures Strip(prefix + Quote(s)) == prefix + Quote(s)
  {
    StripTrims(prefix + Quote(s));
  }

  lemma FragmentQuote(s: string)
    ensures Fragment(Quote(s)) == Ok(s)
  {
    QuoteTrimmed(s, "");
    assert "" + Quote(s) == Quote(s);
    QuoteShape(s);
    DecodeEscape(s);
  }

  lemma QuoteShape(s: string)
    ensures Quoted(Quote(s)) && Quote(s)[1..] == Escape(s) + "\""
  {
  }

  lemma {:induction false} EscapeNoBreak(s: string)
    requires Carried(s)
    ensures NoBreak(Escape(s))
  {
    if s == "" {
    } else {
      EscapeNoBreak(s[1..]);
      assert NoBreak(EscapeChar(s[0]));
    }
  }

  // ----- what the reader sees of a printed line

  lemma Differs(line: string, prefix: string, i: nat)
    requires i < |line| && i < |prefix| && line[i] != prefix[i]
    ensures !StartsWith(line, prefix)
  {
  }

  lemma SeenQuote(part: string)
    ensures Classify(Quote(part)) == QuotedLine(Ok(part))
  {
    var line := Quote(part);
    QuoteTrimmed(part, "");
    assert "" + line == line;
    FragmentQuote(part);
    Differs(line, "#", 0);
    Differs(line, "msgctxt ", 0);
    Differs(line, "msgid_plural", 0);
    Differs(line, "msgstr[", 0);
    Differs(line, "msgid ", 0);
    Differs(line, "msgstr ", 0);
  }

  lemma SeenId(part: string)
    ensures Classify("msgid " + Quote(part)) == IdLine(Ok(part))
  {
    var line := "msgid " + Quote(part);
    QuoteTrimmed(part, "msgid ");
    FragmentQuote(part);
    assert line[6..] == Quote(part);
    Differs(line, "#", 0);
    Differs(line, "msgctxt ", 3);
    Differs(line, "msgid_plural", 5);
    Differs(line, "msgstr[", 3);
  }

  lemma SeenStr(part: string)
    ensures Classify("msgstr " + Quote(part)) == StrLine(Ok(part))
  {
    var line := "msgstr " + Quote(part);
    QuoteTrimmed(part, "msgstr ");
    FragmentQuote(part);
    assert line[7..] == Quote(part);
    Differs(line, "#", 0);
    Differs(line, "msgctxt ", 3);
    Differs(line, "msgid_plural", 3);
    Differs(line, "msgid ", 3);
    Differs(line, "msgstr[", 6);
  }

  /** A word that does not end in a space is not stripped off the end of a line. */
  lemma StrippedContains(line: string, word: string)
    requires word != "" && !IsSpace(word[|word| - 1])
    ensures Contains(RStrip(line), word) <==> Contains(line, word)
  {
    var stripped := RStrip(line);
    RStripShape(line);
    if Contains(stripped, word) {
      var i :| 0 <= i <= |stripped| && OccursAt(stripped, word, i);
      assert OccursAt(line, word, i);
    }
    if Contains(line, word) {
      var i :| 0 <= i <= |line| && OccursAt(line, word, i);
      var last := i + |word| - 1;
      assert line[last] == line[i..i + |word|][|word| - 1] == word[|word| - 1];
      assert last < |stripped|;
      OccursWithin(line, word, i, |stripped|);
      assert line[..|stripped|] == stripped;
      assert OccursAt(stripped, word, i);
    }
  }

  lemma OccursWithin(line: string, word: string, i: nat, n: nat)
    requires OccursAt(line, word, i) && i + |word| <= n <= |line|
    ensures OccursAt(line[..n], word, i)
  {
    assert line[..n][i..i + |word|] == line[i..i + |word|];
  }

  lemma ContainsLater(c: char, text: string, word: string)
    requires word != "" && word[0] != c
    ensures Contains([c] + text, word) <==> Contains(text, word)
  {
    var line := [c] + text;
    if Contains(line, word) {
      var i :| 0 <= i <= |line| && OccursAt(line, word, i);
      assert line[i] == line[i..i + |word|][0] == word[0];
      assert line[i..i + |word|] == text[i - 1..i - 1 + |word|];
      assert OccursAt(text, word, i - 1);
    }
    if Contains(text, word) {
      var i :| 0 <= i <= |text| && OccursAt(text, word, i);
      assert line[i + 1..i + 1 + |word|] == text[i..i + |word|];
      assert OccursAt(line, word, i + 1);
    }
  }

  lemma SeenNote(text: string)
    ensures Classify("#" + text) == CommentLine(FlagsFuzzy(text))
  {
    var line := "#" + text;
    assert LStrip(line) == line;
    RStripShape(line);
    assert line[0] == '#' && !IsSpace('#');
    var stripped := Strip(line);
    assert stripped != "" && stripped[0] == '#';
    NoteFlags(text, stripped);
    StrippedContains(line, "fuzzy");
    ContainsLater('#', text, "fuzzy");
  }

  lemma NoteFlags(text: string, stripped: string)
    requires stripped == RStrip("#" + text) && stripped != "" && stripped[0] == '#'
    ensures StartsWith(stripped, "#,") <==> StartsWith(text, ",")
  {
    var line := "#" + text;
    RStripShape(line);
    assert StartsWith(text, ",") <==> text != "" && text[0] == ',';
    if |stripped| > 1 {
      assert stripped[1] == line[1] == text[0];
      if text[0] != ',' {
        Differs(stripped, "#,", 1);
      }
    } else if text != "" {
      assert line[1] == text[0] && IsSpace(line[1]);
    }
  }

  lemma SeenBlank()
    ensures Classify("") == BlankLine
  {
    StripTrims("");
  }

  function QuotedLines(parts: seq<string>): (lines: seq<Line>)
    ensures |lines| == |parts|
  {
    if parts == [] then [] else [QuotedLine(Ok(parts[0]))] + QuotedLines(parts[1..])
  }

  /** A printed item as the reader sees it. */
  function SeenLines(item: Item): seq<Line> {
    match item
    case Blank => [BlankLine]
    case Note(text) => [CommentLine(FlagsFuzzy(text))]
    case Message(id, str) =>
      if id == [] || str == [] then []
      else ([IdLine(Ok(id[0]))] + QuotedLines(id[1..])) + ([StrLine(Ok(str[0]))] + QuotedLines(str[1..]))
  }

  function AllSeen(items: seq<Item>): seq<Line> {
    if items == [] then [] else SeenLines(items[0]) + AllSeen(items[1..])
  }

  lemma ClassifyAppend(a: seq<string>, b: seq<string>)
    ensures ClassifyAll(a + b) == ClassifyAll(a) + ClassifyAll(b)
  {
  }

  lemma {:induction false} SeenQuotes(parts: seq<string>)
    ensures ClassifyAll(QuoteAll(parts)) == QuotedLines(parts)
  {
    if parts == [] {
    } else {
      SeenQuote(parts[0]);
      SeenQuotes(parts[1..]);
      ClassifyAppend([Quote(parts[0])], QuoteAll(parts[1..]));
    }
  }

  lemma SeenIdField(id: seq<string>)
    requires id != []
    ensures ClassifyAll(FieldLines("msgid ", id)) == [IdLine(Ok(id[0]))] + QuotedLines(id[1..])
  {
    SeenId(id[0]);
    SeenQuotes(id[1..]);
    ClassifyAppend(["msgid " + Quote(id[0])], QuoteAll(id[1..]));
  }

  lemma SeenStrField(str: seq<string>)
    requires str != []
    ensures ClassifyAll(FieldLines("msgstr ", str)) == [StrLine(Ok(str[0]))] + QuotedLines(str[1..])
  {
    SeenStr(str[0]);
    SeenQuotes(str[1..]);
    ClassifyAppend(["msgstr " + Quote(str[0])], QuoteAll(str[1..]));
  }

  lemma SeenMessage(id: seq<string>, str: seq<string>)
    requires id != [] && str != []
    ensures ClassifyAll(Lines(Message(id, str))) == SeenLines(Message(id, str))
  {
    SeenIdField(id);
    SeenStrField(str);
    ClassifyAppend(FieldLines("msgid ", id), FieldLines("msgstr ", str));
  }

  lemma SeenItem(item: Item)
    requires Printable(item)
    ensures ClassifyAll(Lines(item)) == SeenLines(item)
  {
    match item {
      case Note(text) => SeenNote(text);
      case Message(id, str) => SeenMessage(id, str);
      case Blank => SeenBlank();
    }
  }

  lemma {:induction false} SeenAll(items: seq<Item>)
    requires forall item | item in items :: Printable(item)
    ensures ClassifyAll(AllLines(items)) == AllSeen(items)
  {
    if items == [] {
    } else {
      SeenItem(items[0]);
      SeenAll(items[1..]);
      ClassifyAppend(Lines(items[0]), AllLines(items[1..]));
    }
  }

  // ----- what those lines do to the reader

  lemma {:induction false} FedAppend(s: State, a: seq<Line>, b: seq<Line>)
    ensures FedAll(s, a + b) == match FedAll(s, a) case Err(e) => Err(e) case Ok(t) => FedAll(t, b)
    decreases |a|
  {
    if a == [] {
      assert a + b == b;
    } else {
      assert (a + b)[1..] == a[1..] + b;
      var t := Fed(s, a[0]);
      if t.Ok? {
        FedAppend(t.value, a[1..], b);
      }
    }
  }

  lemma {:induction false} FedIdParts(s: State, parts: seq<string>)
    requires s.field == IdField && s.msgid.Some?
    ensures FedAll(s, QuotedLines(parts)) == Ok(s.(msgid := Some(s.msgid.value + Concat(parts))))
    decreases |parts|
  {
    if parts == [] {
      assert s.msgid.value + "" == s.msgid.value;
    } else {
      FedIdParts(s.(msgid := Some(s.msgid.value + parts[0])), parts[1..]);
      assert s.msgid.value + parts[0] + Concat(parts[1..]) == s.msgid.value + Concat(parts);
    }
  }

  lemma {:induction false} FedStrParts(s: State, parts: seq<string>)
    requires s.field == StrField && s.msgstr.Some?
    ensures FedAll(s, QuotedLines(parts)) == Ok(s.(msgstr := Some(s.msgstr.value + Concat(parts))))
    decreases |parts|
  {
    if parts == [] {
      assert s.msgstr.value + "" == s.msgstr.value;
    } else {
      FedStrParts(s.(msgstr := Some(s.msgstr.value + parts[0])), parts[1..]);
      assert s.msgstr.value + parts[0] + Concat(parts[1..]) == s.msgstr.value + Concat(parts);
    }
  }

  /** Between two items: the entry read last is not stored yet, but would be. */
  ghost predicate Between(s: State, pending: bool, entries: map<string, string>) {
    s.pendingFuzzy == pending && Flushed(s).Ok? && Flushed(s).value.entries == entries
  }

  lemma FedIdField(s: State, id: seq<string>)
    requires id != [] && Flushed(s).Ok?
    ensures FedAll(s, [IdLine(Ok(id[0]))] + QuotedLines(id[1..])) == Started(s, Ok(Concat(id)))
  {
    FedAppend(s, [IdLine(Ok(id[0]))], QuotedLines(id[1..]));
    assert FedAll(s, [IdLine(Ok(id[0]))]) == Started(s, Ok(id[0]));
    FedIdParts(Started(s, Ok(id[0])).value, id[1..]);
  }

  lemma FedStrField(s: State, str: seq<string>)
    requires str != []
    ensures FedAll(s, [StrLine(Ok(str[0]))] + QuotedLines(str[1..]))
         == Ok(s.(msgstr := Some(Concat(str)), field := StrField))
  {
    var t := s.(msgstr := Some(str[0]), field := StrField);
    FedAppend(s, [StrLine(Ok(str[0]))], QuotedLines(str[1..]));
    assert FedAll(s, [StrLine(Ok(str[0]))]) == Ok(t);
    FedStrParts(t, str[1..]);
  }

  lemma FedMessage(s: State, id: seq<string>, str: seq<string>, pending: bool, entries: map<string, string>)
    requires id != [] && str != [] && Between(s, pending, entries)
    ensures var fed := FedAll(s, SeenLines(Message(id, str)));
      && fed.Ok?
      && Between(fed.value, false,
           if Kept(Concat(id), Concat(str), pending) then entries[Concat(id) := Concat(str)] else entries)
  {
    FedIdField(s, id);
    var t := Started(s, Ok(Concat(id))).value;
    FedStrField(t, str);
    FedAppend(s, [IdLine(Ok(id[0]))] + QuotedLines(id[1..]), [StrLine(Ok(str[0]))] + QuotedLines(str[1..]));
  }

  lemma {:induction false} FedItems(s: State, items: seq<Item>, pending: bool, entries: map<string, string>)
    requires Between(s, pending, entries) && forall item | item in items :: Printable(item)
    ensures Finished(FedAll(s, AllSeen(items))) == Ok(Meaning(items, pending, entries))
    decreases |items|
  {
    if items == [] {
    } else {
      assert Printable(items[0]);
      FedAppend(s, SeenLines(items[0]), AllSeen(items[1..]));
      match items[0] {
        case Blank =>
          FedItems(s, items[1..], pending, entries);
        case Note(text) =>
          var flagged := pending || FlagsFuzzy(text);
          FedItems(s.(pendingFuzzy := flagged), items[1..], flagged, entries);
        case Message(id, str) =>
          FedMessage(s, id, str, pending, entries);
          FedItems(FedAll(s, SeenLines(items[0])).value, items[1..], false,
            if Kept(Concat(id), Concat(str), pending) then entries[Concat(id) := Concat(str)] else entries);
      }
    }
  }

  lemma {:induction false} QuoteAllNoBreak(parts: seq<string>)
    requires forall p | p in parts :: Carried(p)
    ensures forall l | l in QuoteAll(parts) :: NoBreak(l)
  {
    if parts == [] {
    } else {
      EscapeNoBreak(parts[0]);
      QuoteAllNoBreak(parts[1..]);
    }
  }

  lemma FieldNoBreak(keyword: string, parts: seq<string>)
    requires NoBreak(keyword) && parts != [] && forall p | p in parts :: Carried(p)
    ensures forall l | l in FieldLines(keyword, parts) :: NoBreak(l)
  {
    EscapeNoBreak(parts[0]);
    QuoteAllNoBreak(parts[1..]);
  }

  lemma LinesNoBreak(item: Item)
    requires Printable(item)
    ensures forall l | l in Lines(item) :: NoBreak(l)
  {
    match item {
      case Message(id, str) =>
        assert forall p | p in id :: p in id + str;
        assert forall p | p in str :: p in id + str;
        FieldNoBreak("msgid ", id);
        FieldNoBreak("msgstr ", str);
      case _ =>
    }
  }

  lemma {:induction false} AllLinesNoBreak(items: seq<Item>)
    requires forall item | item in items :: Printable(item)
    ensures forall l | l in AllLines(items) :: NoBreak(l)
  {
    if items == [] {
    } else {
      LinesNoBreak(items[0]);
      AllLinesNoBreak(items[1..]);
    }
  }

  /** Reading a printed document back gives exactly the catalogue it stands for, however its
      strings were wrapped and whatever comments, blank lines and fuzzy flags stand between. */
  lemma ParsePrinted(items: seq<Item>)
    requires forall item | item in items :: Printable(item)
    ensures Parsed(Text(items)) == Ok(Meaning(items, false, map[]))
  {
    AllLinesNoBreak(items);
    SplitUnlines(AllLines(items));
    SeenAll(items);
    FedItems(START, items, false, map[]);
  }

  // ----- what a printed document comes to, message by message

  /** A comment with the fuzzy flag stands before item `i`, and no message between the two. */
  ghost predicate Flagged(items: seq<Item>, i: nat) {
    exists j: nat :: FlagFor(items, j, i)
  }

  ghost predicate FlagFor(items: seq<Item>, j: nat, i: nat) {
    && j < i <= |items| && items[j].Note? && FlagsFuzzy(items[j].text)
    && forall m | j < m < i :: !items[m].Message?
  }

  predicate MessageOf(items: seq<Item>, i: nat, key: string) {
    i < |items| && items[i].Message? && Concat(items[i].id) == key
  }

  /** Item `i` is a message with that key: translated and without a fuzzy flag, or the header. */
  ghost predicate Chosen(items: seq<Item>, key: string, i: nat) {
    MessageOf(items, i, key) && (key == "" || (Concat(items[i].str) != "" && !Flagged(items, i)))
  }

  /** The last of those messages holds `value`. */
  ghost predicate LastHolds(items: seq<Item>, key: string, value: string) {
    exists i: nat :: LastAt(items, key, i, value)
  }

  ghost predicate LastAt(items: seq<Item>, key: string, i: nat, value: string) {
    && Chosen(items, key, i) && Concat(items[i].str) == value
    && forall l | i < l < |items| :: !Chosen(items, key, l)
  }

  ghost predicate Gives(entries: map<string, string>, key: string, value: string) {
    key in entries && entries[key] == value
  }

  lemma MeaningAppend(items: seq<Item>, item: Item, pending: bool, entries: map<string, string>)
    ensures Meaning(items + [item], pending, entries)
         == Meaning([item], PendingAfter(items, pending), Meaning(items, pending, entries))
    decreases |items|
  {
    if items == [] {
      assert items + [item] == [item];
    } else {
      assert (items + [item])[1..] == items[1..] + [item];
      match items[0] {
        case Blank => MeaningAppend(items[1..], item, pending, entries);
        case Note(text) => MeaningAppend(items[1..], item, pending || FlagsFuzzy(text), entries);
        case Message(id, str) =>
          MeaningAppend(items[1..], item, false,
            if Kept(Concat(id), Concat(str), pending) then entries[Concat(id) := Concat(str)] else entries);
      }
    }
  }

  ghost predicate PendingAfter(items: seq<Item>, pending: bool)
    decreases |items|
  {
    if items == [] then pending
    else
      match items[0]
      case Blank => PendingAfter(items[1..], pending)
      case Note(text) => PendingAfter(items[1..], pending || FlagsFuzzy(text))
      case Message(_, _) => PendingAfter(items[1..], false)
  }

  lemma PendingAppend(items: seq<Item>, item: Item, pending: bool)
    ensures PendingAfter(items + [item], pending) == match item
      case Blank => PendingAfter(items, pending)
      case Note(text) => PendingAfter(items, pending) || FlagsFuzzy(text)
      case Message(_, _) => false
    decreases |items|
  {
    if items == [] {
      assert items + [item] == [item];
    } else {
      assert (items + [item])[1..] == items[1..] + [item];
      match items[0] {
        case Blank => PendingAppend(items[1..], item, pending);
        case Note(text) => PendingAppend(items[1..], item, pending || FlagsFuzzy(text));
        case Message(_, _) => PendingAppend(items[1..], item, false);
      }
    }
  }

  lemma FlaggedGrows(items: seq<Item>, item: Item, i: nat)
    requires i <= |items|
    ensures Flagged(items + [item], i) <==> Flagged(items, i)
  {
    var more := items + [item];
    if Flagged(items, i) {
      var j: nat :| FlagFor(items, j, i);
      assert FlagFor(more, j, i);
    }
    if Flagged(more, i) {
      var j: nat :| FlagFor(more, j, i);
      assert FlagFor(items, j, i) by {
        assert forall m | j <= m < i :: items[m] == more[m];
      }
    }
  }

  lemma FlaggedAtEnd(items: seq<Item>, item: Item)
    ensures Flagged(items + [item], |items| + 1) <==>
      (item.Note? && FlagsFuzzy(item.text)) || (!item.Message? && Flagged(items, |items|))
  {
    var more := items + [item];
    var n := |items|;
    if item.Note? && FlagsFuzzy(item.text) {
      assert FlagFor(more, n, n + 1);
    }
    if !item.Message? && Flagged(items, n) {
      var j: nat :| FlagFor(items, j, n);
      assert FlagFor(more, j, n + 1);
    }
    if Flagged(more, n + 1) {
      var j: nat :| FlagFor(more, j, n + 1);
      if j < n {
        assert !more[n].Message?;
        assert FlagFor(items, j, n) by {
          assert forall m | j <= m < n :: items[m] == more[m];
        }
      }
    }
  }

  lemma {:induction false} PendingExactly(items: seq<Item>)
    ensures PendingAfter(items, false) <==> Flagged(items, |items|)
  {
    if items != [] {
      var n := |items| - 1;
      assert items == items[..n] + [items[n]];
      PendingExactly(items[..n]);
      PendingAppend(items[..n], items[n], false);
      FlaggedAtEnd(items[..n], items[n]);
    }
  }

  lemma ChosenGrows(items: seq<Item>, item: Item, key: string, i: nat)
    requires i < |items|
    ensures Chosen(items + [item], key, i) <==> Chosen(items, key, i)
  {
    FlaggedGrows(items, item, i);
    assert (items + [item])[i] == items[i];
  }

  lemma ChosenAtEnd(items: seq<Item>, item: Item, key: string)
    ensures Chosen(items + [item], key, |items|) <==>
      item.Message? && Concat(item.id) == key && Kept(key, Concat(item.str), Flagged(items, |items|))
  {
    FlaggedGrows(items, item, |items|);
    assert (items + [item])[|items|] == item;
  }

  lemma LastGrows(items: seq<Item>, item: Item, key: string, value: string)
    ensures LastHolds(items + [item], key, value) <==>
      if Chosen(items + [item], key, |items|) then item.Message? && Concat(item.str) == value
      else LastHolds(items, key, value)
  {
    var more := items + [item];
    var n := |items|;
    forall i: nat | i < n ensures Chosen(more, key, i) <==> Chosen(items, key, i) {
      ChosenGrows(items, item, key, i);
    }
    ChosenAtEnd(items, item, key);
    assert more[n] == item && forall i | 0 <= i < n :: more[i] == items[i];
    if Chosen(more, key, n) {
      if Concat(item.str) == value {
        assert LastAt(more, key, n, value);
      }
    } else if LastHolds(items, key, value) {
      var i: nat :| LastAt(items, key, i, value);
      assert LastAt(more, key, i, value);
    }
    if LastHolds(more, key, value) {
      var i: nat :| LastAt(more, key, i, value);
      if i < n {
        assert LastAt(items, key, i, value);
      }
    }
  }

  lemma {:induction false} MeaningExactly(items: seq<Item>, key: string, value: string)
    ensures Gives(Meaning(items, false, map[]), key, value) <==> LastHolds(items, key, value)
  {
    if items != [] {
      var n := |items| - 1;
      var init, item := items[..n], items[n];
      assert items == init + [item];
      MeaningExactly(init, key, value);
      MeaningAppend(init, item, false, map[]);
      PendingExactly(init);
      LastGrows(init, item, key, value);
      ChosenAtEnd(init, item, key);
      assert [item][1..] == [];
    }
  }

  /** Item `i` is the last translated message with that key that carries no fuzzy flag. */
  ghost predicate LastTranslation(items: seq<Item>, i: nat, key: string, value: string) {
    && MessageOf(items, i, key) && Concat(items[i].str) == value && value != "" && !Flagged(items, i)
    && forall l | i < l < |items| && MessageOf(items, l, key) :: Concat(items[l].str) == "" || Flagged(items, l)
  }

  /** A key is in the catalogue of a printed document exactly if a message with that msgid is
      translated and not flagged fuzzy, and the last such message gives its value. */
  lemma TranslatedExactly(items: seq<Item>, key: string, value: string)
    requires forall item | item in items :: Printable(item)
    requires key != ""
    ensures Parsed(Text(items)).Ok?
    ensures Gives(Parsed(Text(items)).value, key, value) <==> exists i: nat :: LastTranslation(items, i, key, value)
  {
    ParsePrinted(items);
    MeaningExactly(items, key, value);
    forall i: nat ensures LastTranslation(items, i, key, value) <==> LastAt(items, key, i, value) {
      LastTranslationChosen(items, i, key, value);
    }
  }

  lemma LastTranslationChosen(items: seq<Item>, i: nat, key: string, value: string)
    requires key != ""
    ensures LastTranslation(items, i, key, value) <==> LastAt(items, key, i, value)
  {
    assert forall l | i < l < |items| :: !Chosen(items, key, l) <==>
      (MessageOf(items, l, key) ==> Concat(items[l].str) == "" || Flagged(items, l));
  }

  /** Item `i` is the last message with an empty msgid. */
  ghost predicate LastHeader(items: seq<Item>, i: nat, value: string) {
    && MessageOf(items, i, "") && Concat(items[i].str) == value
    && forall l | i < l < |items| :: !MessageOf(items, l, "")
  }

  /** The header is in it even when flagged or empty; the last one counts. */
  lemma HeaderExactly(items: seq<Item>, value: string)
    requires forall item | item in items :: Printable(item)
    ensures Parsed(Text(items)).Ok?
    ensures Gives(Parsed(Text(items)).value, "", value) <==> exists i: nat :: LastHeader(items, i, value)
  {
    ParsePrinted(items);
    MeaningExactly(items, "", value);
    forall i: nat ensures LastHeader(items, i, value) <==> LastAt(items, "", i, value) {
      LastHeaderChosen(items, i, "", value);
    }
  }

  lemma LastHeaderChosen(items: seq<Item>, i: nat, key: string, value: string)
    requires key == ""
    ensures LastHeader(items, i, value) <==> LastAt(items, key, i, value)
  {
    assert forall l | i < l < |items| :: Chosen(items, key, l) <==> MessageOf(items, l, key);
  }

  /** The smallest case: the flag costs the message below it its entry, and the next one nothing. */
  lemma FlagCostsOneMessage(flags: string, id: string, str: string, later: string, laterStr: string)
    requires NoBreak(flags) && StartsWith(flags, ",") && Contains(flags, "fuzzy")
    requires Carried(id) && Carried(str) && Carried(later) && Carried(laterStr)
    requires id != "" && later != "" && laterStr != ""
    ensures var lines :=
        ["#" + flags]
        + (["msgid " + Quote(id), "msgstr " + Quote(str)]
        + ["msgid " + Quote(later), "msgstr " + Quote(laterStr)]);
      Parsed(Unlines(lines)) == Ok(map[later := laterStr])
  {
    var a, b, c := Note(flags), Message([id], [str]), Message([later], [laterStr]);
    OneFragment(id, str);
    OneFragment(later, laterStr);
    ThreeItems(a, b, c);
    FlaggedThenPlain(a, b, c);
    ParsePrinted([a, b, c]);
  }

  lemma ThreeItems(a: Item, b: Item, c: Item)
    ensures AllLines([a, b, c]) == Lines(a) + (Lines(b) + Lines(c))
  {
    assert [a, b, c][1..] == [b, c] && [b, c][1..] == [c] && [c][1..] == [];
    assert AllLines([b, c]) == Lines(b) + AllLines([c]);
    assert AllLines([c]) == Lines(c) + AllLines([]) == Lines(c);
  }

  lemma FlaggedThenPlain(a: Item, b: Item, c: Item)
    requires a.Note? && FlagsFuzzy(a.text) && b.Message? && Concat(b.id) != ""
    requires c.Message? && Concat(c.id) != "" && Concat(c.str) != ""
    ensures Meaning([a, b, c], false, map[]) == map[Concat(c.id) := Concat(c.str)]
  {
    assert [a, b, c][1..] == [b, c] && [b, c][1..] == [c] && [c][1..] == [];
    assert Meaning([b, c], true, map[]) == Meaning([c], false, map[]);
  }

  lemma OneFragment(id: string, str: string)
    ensures Concat([id]) == id && Concat([str]) == str
    ensures Lines(Message([id], [str])) == ["msgid " + Quote(id), "msgstr " + Quote(str)]
  {
    assert Concat([id]) == id + Concat([]) && Concat([str]) == str + Concat([]);
  }

  // ----- what no text can make the reader do

  lemma {:induction false} DecodeCarried(rest: string)
    requires NoBreak(rest)
    ensures Carried(Decode(rest))
  {
    if |rest| > 1 {
      if rest[0] == '\\' {
        DecodeCarried(rest[2..]);
      } else {
        DecodeCarried(rest[1..]);
      }
    }
  }

  lemma FragmentCarried(line: string)
    requires NoBreak(line) && Fragment(line).Ok?
    ensures Carried(Fragment(line).value)
  {
    StripKeepsNoBreak(line);
    DecodeCarried(Strip(line)[1..]);
  }

  ghost predicate Sound(s: State) {
    && (forall k | k in s.entries :: Carried(k) && Carried(s.entries[k]))
    && (s.msgid.Some? ==> Carried(s.msgid.value))
    && (s.msgstr.Some? ==> Carried(s.msgstr.value))
    && (s.field == IdField ==> s.msgid.Some?)
    && (s.field == StrField ==> s.msgstr.Some?)
  }

  ghost predicate SoundFragment(fragment: Result<string>) {
    if fragment.Ok? then Carried(fragment.value) else fragment.error != "TypeError"
  }

  ghost predicate SoundLine(line: Line) {
    line.IdLine? || line.StrLine? || line.QuotedLine? ==> SoundFragment(line.fragment)
  }

  lemma SeenSound(raw: string)
    requires NoBreak(raw)
    ensures SoundLine(Classify(raw))
  {
    var line := Strip(raw);
    StripKeepsNoBreak(raw);
    match Classify(raw) {
      case IdLine(Ok(_)) => FragmentCarried(line[6..]);
      case StrLine(Ok(_)) => FragmentCarried(line[7..]);
      case QuotedLine(Ok(_)) => FragmentCarried(line);
      case _ =>
    }
  }

  lemma FedSound(s: State, line: Line)
    requires Sound(s) && SoundLine(line)
    ensures var fed := Fed(s, line);
      if fed.Ok? then Sound(fed.value) else fed.error != "TypeError"
  {
    if line.IdLine? {
      StartedSound(s, line.fragment);
    }
    if line.QuotedLine? {
      ContinuedSound(s, line.fragment);
    }
  }

  lemma StartedSound(s: State, fragment: Result<string>)
    requires Sound(s) && SoundFragment(fragment)
    ensures var started := Started(s, fragment);
      if started.Ok? then Sound(started.value) else started.error != "TypeError"
  {
    assert Flushed(s).Ok? ==> Sound(Flushed(s).value);
  }

  lemma ContinuedSound(s: State, fragment: Result<string>)
    requires Sound(s) && SoundFragment(fragment)
    ensures var continued := Continued(s, fragment);
      if continued.Ok? then Sound(continued.value) else continued.error != "TypeError"
  {
  }

  lemma {:induction false} FedAllSound(s: State, lines: seq<Line>)
    requires Sound(s) && forall l | l in lines :: SoundLine(l)
    ensures var fed := FedAll(s, lines);
      if fed.Ok? then Sound(fed.value) else fed.error != "TypeError"
    decreases |lines|
  {
    if lines == [] {
    } else {
      FedSound(s, lines[0]);
      if Fed(s, lines[0]).Ok? {
        FedAllSound(Fed(s, lines[0]).value, lines[1..]);
      }
    }
  }

  /** Whatever the text, a continuation line never meets a field that is not open, and no string
      read out of it holds a line break that PO text cannot escape. */
  lemma ParsedIsCarried(text: string)
    ensures Parsed(text) != Err("TypeError")
    ensures Parsed(text).Ok? ==>
      forall k | k in Parsed(text).value :: Carried(k) && Carried(Parsed(text).value[k])
  {
    LinesHaveNoBreak(text);
    var raws := SplitLines(text);
    forall i | 0 <= i < |raws| ensures SoundLine(Classify(raws[i])) {
      SeenSound(raws[i]);
    }
    FedAllSound(START, ClassifyAll(raws));
  }

  /** So the limit on characters is the format's own: a catalogue with a string that holds one of
      the other line breaks (U+2028, for one) is never what its printed document reads back as. */
  lemma UncarriedIsLost(items: seq<Item>, key: string)
    requires key in Meaning(items, false, map[])
    requires !Carried(key) || !Carried(Meaning(items, false, map[])[key])
    ensures Parsed(Text(items)) != Ok(Meaning(items, false, map[]))
  {
    ParsedIsCarried(Text(items));
  }

  // ----- plural forms

  lemma {:induction false} PluralStays(s: State, lines: seq<Line>)
    requires s.msgid.Some? && s.plural
    ensures Finished(FedAll(s, lines)).Err?
    decreases |lines|
  {
    if lines != [] && Fed(s, lines[0]).Ok? {
      PluralStays(Fed(s, lines[0]).value, lines[1..]);
    }
  }

  lemma {:induction false} PluralAfterIdFails(s: State, lines: seq<Line>, i: int, j: int)
    requires i < j && 0 <= j < |lines| && lines[j] == PluralLine
    requires if i < 0 then s.msgid.Some? else lines[i].IdLine?
    ensures Finished(FedAll(s, lines)).Err?
    decreases |lines|
  {
    if Fed(s, lines[0]).Ok? {
      var t := Fed(s, lines[0]).value;
      if j == 0 {
        PluralStays(t, lines[1..]);
      } else {
        PluralAfterIdFails(t, lines[1..], i - 1, j - 1);
      }
    }
  }

  /** A plural line anywhere after an opened msgid makes `parse` fail: no message with plural
      forms is ever dropped in silence. */
  lemma PluralRefused(text: string, i: nat, j: nat)
    requires i < j < |SplitLines(text)|
    requires StartsWith(Strip(SplitLines(text)[i]), "msgid ")
    requires var line := Strip(SplitLines(text)[j]);
      StartsWith(line, "msgid_plural") || StartsWith(line, "msgstr[")
    ensures Parsed(text).Err?
  {
    SeenAsId(SplitLines(text)[i]);
    SeenAsPlural(SplitLines(text)[j]);
    PluralAfterIdFails(START, ClassifyAll(SplitLines(text)), i, j);
  }

  lemma SeenAsId(raw: string)
    requires StartsWith(Strip(raw), "msgid ")
    ensures Classify(raw).IdLine?
  {
    var line := Strip(raw);
    assert line[0] == 'm' && line[3] == 'i' && line[5] == ' ';
    Differs(line, "#", 0);
    Differs(line, "msgctxt ", 3);
    Differs(line, "msgid_plural", 5);
    Differs(line, "msgstr[", 3);
  }

  lemma SeenAsPlural(raw: string)
    requires StartsWith(Strip(raw), "msgid_plural") || StartsWith(Strip(raw), "msgstr[")
    ensures Classify(raw) == PluralLine
  {
    var line := Strip(raw);
    assert line[0] == 'm' && line[3] != 'c';
    Differs(line, "#", 0);
    Differs(line, "msgctxt ", 3);
  }

  // ----- lines the reader refuses

  lemma {:induction false} RefusedLineFails(s: State, lines: seq<Line>, i: nat)
    requires i < |lines| && (lines[i] == ContextLine || lines[i] == OtherLine)
    ensures FedAll(s, lines).Err?
    decreases |lines|
  {
    if Fed(s, lines[0]).Ok? {
      RefusedLineFails(Fed(s, lines[0]).value, lines[1..], i - 1);
    }
  }

  /** A message context anywhere makes `parse` fail. */
  lemma ContextRefused(text: string, i: nat)
    requires i < |SplitLines(text)| && StartsWith(Strip(SplitLines(text)[i]), "msgctxt ")
    ensures Parsed(text).Err?
  {
    var line := Strip(SplitLines(text)[i]);
    assert line[0] == 'm';
    Differs(line, "#", 0);
    RefusedLineFails(START, ClassifyAll(SplitLines(text)), i);
  }

  /** So does a line that is neither blank nor a comment nor begins as an entry does. */
  lemma UnknownRefused(text: string, i: nat)
    requires i < |SplitLines(text)|
    requires var line := Strip(SplitLines(text)[i]);
      && line != "" && line[0] != '#' && line[0] != '"'
      && !StartsWith(line, "msgid ") && !StartsWith(line, "msgid_plural")
      && !StartsWith(line, "msgstr ") && !StartsWith(line, "msgstr[")
    ensures Parsed(text).Err?
  {
    var line := Strip(SplitLines(text)[i]);
    Differs(line, "#", 0);
    Differs(line, "\"", 0);
    RefusedLineFails(START, ClassifyAll(SplitLines(text)), i);
  }
}
