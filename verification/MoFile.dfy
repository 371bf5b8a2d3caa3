/** The binary catalogue writer of scripts/compile_catalogue.py, and a reader of the GNU MO
    layout (section 10.3 of the GNU gettext manual) that looks keys up by binary search. */
module MoFile {
  import opened Results

  type Byte = b: int | 0 <= b < 256

  type Bytes = seq<Byte>

  const MAGIC: nat := 0x9504_12DE
  const WORD: nat := 0x1_0000_0000

  // ----- the order `sorted` puts byte strings in

  predicate Less(a: Bytes, b: Bytes) {
    b != [] && (a == [] || a[0] < b[0] || (a[0] == b[0] && Less(a[1..], b[1..])))
  }

  lemma {:induction false} LessTrichotomy(a: Bytes, b: Bytes)
    ensures a == b || Less(a, b) || Less(b, a)
    ensures !(Less(a, b) && Less(b, a))
    ensures !Less(a, a)
  {
    if a == [] {
    } else {
      LessTrichotomy(a[1..], if b == [] then [] else b[1..]);
      if b != [] && a[0] == b[0] && a[1..] == b[1..] {
        assert a == [a[0]] + a[1..] == b;
      }
    }
  }

  lemma {:induction false} LessTransitive(a: Bytes, b: Bytes, c: Bytes)
    requires Less(a, b) && Less(b, c)
    ensures Less(a, c)
  {
    if a != [] && a[0] == b[0] == c[0] {
      LessTransitive(a[1..], b[1..], c[1..]);
    }
  }

  /** `a` is a proper prefix of `b`, or holds the smaller byte where the two first differ. */
  ghost predicate Before(a: Bytes, b: Bytes) {
    exists k: nat :: FirstDifference(a, b, k)
  }

  ghost predicate FirstDifference(a: Bytes, b: Bytes, k: nat) {
    && k <= |a| && k < |b| && a[..k] == b[..k]
    && (k == |a| || a[k] < b[k])
  }

  /** The order the file is sorted and searched by is the order of Python's `bytes`. */
  lemma {:induction false} LessExactly(a: Bytes, b: Bytes)
    ensures Less(a, b) <==> Before(a, b)
  {
    if b == [] {
    } else if a == [] {
      assert FirstDifference(a, b, 0);
    } else {
      LessExactly(a[1..], b[1..]);
      if a[0] < b[0] {
        assert FirstDifference(a, b, 0);
      } else {
        SharedFirst(a, b);
      }
    }
  }

  lemma SharedFirst(a: Bytes, b: Bytes)
    requires a != [] && b != [] && a[0] >= b[0]
    ensures Before(a, b) <==> a[0] == b[0] && Before(a[1..], b[1..])
  {
    if Before(a, b) {
      var k: nat :| FirstDifference(a, b, k);
      assert k > 0 && a[..k][0] == b[..k][0];
      assert a[1..][..k - 1] == a[..k][1..] == b[..k][1..] == b[1..][..k - 1];
      assert FirstDifference(a[1..], b[1..], k - 1);
    }
    if a[0] == b[0] && Before(a[1..], b[1..]) {
      var k: nat :| FirstDifference(a[1..], b[1..], k);
      assert a[..k + 1] == [a[0]] + a[1..][..k] == [b[0]] + b[1..][..k] == b[..k + 1];
      assert FirstDifference(a, b, k + 1);
    }
  }

  predicate IsLeast(k: Bytes, s: set<Bytes>) {
    k in s && forall j | j in s && j != k :: Less(k, j)
  }

  lemma {:induction false} LeastExists(s: set<Bytes>)
    requires s != {}
    ensures exists k :: IsLeast(k, s)
  {
    var x :| x in s;
    if s == {x} {
      assert IsLeast(x, s);
    } else {
      LeastExists(s - {x});
      var k :| IsLeast(k, s - {x});
      LessTrichotomy(x, k);
      if Less(x, k) {
        forall j | j in s && j != x ensures Less(x, j) {
          if j != k { LessTransitive(x, k, j); }
        }
        assert IsLeast(x, s);
      } else {
        assert IsLeast(k, s);
      }
    }
  }

  lemma LeastUnique(s: set<Bytes>)
    ensures forall j, k :: IsLeast(j, s) && IsLeast(k, s) ==> j == k
  {
    forall j, k | IsLeast(j, s) && IsLeast(k, s) ensures j == k {
      LessTrichotomy(j, k);
    }
  }

  function Least(s: set<Bytes>): (k: Bytes)
    requires s != {}
    ensures IsLeast(k, s)
  {
    LeastExists(s);
    LeastUnique(s);
    var k :| k in s && IsLeast(k, s);
    k
  }

  ghost predicate Increasing(keys: seq<Bytes>) {
    forall i, j | 0 <= i < j < |keys| :: Less(keys[i], keys[j])
  }

  /** The keys of a catalogue in `sorted` order. */
  function SortedKeys(s: set<Bytes>): (keys: seq<Bytes>)
    ensures Increasing(keys)
    ensures forall k :: k in keys <==> k in s
    ensures |keys| == |s|
    decreases |s|
  {
    if s == {} then []
    else
      var k := Least(s);
      var rest := SortedKeys(s - {k});
      assert forall j | 0 <= j < |rest| :: rest[j] in s - {k};
      [k] + rest
  }

  /** Each key comes before every later one, by the byte at which they first differ. */
  lemma SortedKeysInOrder(s: set<Bytes>, i: nat, j: nat)
    requires i < j < |SortedKeys(s)|
    ensures Before(SortedKeys(s)[i], SortedKeys(s)[j])
  {
    LessExactly(SortedKeys(s)[i], SortedKeys(s)[j]);
  }

  function ValuesOf(keys: seq<Bytes>, entries: map<Bytes, Bytes>): (values: seq<Bytes>)
    requires forall k | k in keys :: k in entries
    ensures |values| == |keys|
  {
    seq(|keys|, i requires 0 <= i < |keys| => entries[keys[i]])
  }

  /** The strings in the order their bytes are laid out: all sorted msgids, then their translations. */
  function Strings(entries: map<Bytes, Bytes>): (strings: seq<Bytes>)
    ensures |strings| == 2 * |entries|
  {
    var keys := SortedKeys(entries.Keys);
    keys + ValuesOf(keys, entries)
  }

  // ----- the layout

  function U32(n: nat): (b: Bytes)
    ensures |b| == 4
  {
    [n % 256, n / 256 % 256, n / 256 / 256 % 256, n / 256 / 256 / 256 % 256]
  }

  function U32At(b: Bytes, pos: nat): nat
    requires pos + 4 <= |b|
  {
    b[pos] as int + 256 * b[pos + 1] as int + 0x1_0000 * b[pos + 2] as int + 0x100_0000 * b[pos + 3] as int
  }

  lemma U32RoundTrip(n: nat)
    requires n < WORD
    ensures U32At(U32(n), 0) == n
  {
    var a := n / 256;
    var b := a / 256;
    var c := b / 256;
    assert n == 256 * a + n % 256 && a == 256 * b + a % 256 && b == 256 * c + b % 256;
    assert c % 256 == c;
  }

  /** Little-endian 32-bit words one after the other. */
  function Words(ws: seq<nat>): (b: Bytes)
    ensures |b| == 4 * |ws|
  {
    if ws == [] then [] else Words(ws[..|ws| - 1]) + U32(ws[|ws| - 1])
  }

  /** The magic number 0x950412DE, lowest byte first, and six words after it. */
  lemma HeaderBytes(count: nat)
    requires count < 256
    ensures Words(HeaderWords(count))[..12] == [0xDE, 0x12, 0x04, 0x95, 0, 0, 0, 0, count, 0, 0, 0]
    ensures Words(HeaderWords(count))[12..16] == [28, 0, 0, 0]
  {
    var ws := HeaderWords(count);
    WordsAt(ws, 0);
    WordsAt(ws, 1);
    WordsAt(ws, 2);
    WordsAt(ws, 3);
    assert U32(MAGIC) == [0xDE, 0x12, 0x04, 0x95];
    var b := Words(ws);
    assert b[..12] == b[0..4] + b[4..8] + b[8..12];
  }

  lemma {:induction false} WordsAt(ws: seq<nat>, i: nat)
    requires i < |ws|
    ensures Words(ws)[4 * i..4 * i + 4] == U32(ws[i])
  {
    if i < |ws| - 1 {
      WordsAt(ws[..|ws| - 1], i);
    }
  }

  /** The strings one after the other, each ended by a NUL. */
  function Blobs(strings: seq<Bytes>): Bytes {
    if strings == [] then []
    else Blobs(strings[..|strings| - 1]) + (strings[|strings| - 1] + [0])
  }

  /** How far into the payload string `i` starts. */
  function Start(strings: seq<Bytes>, i: nat): nat
    requires i <= |strings|
  {
    |Blobs(strings[..i])|
  }

  /** Where the first string goes: after the header and eight bytes a string. */
  function Payload(strings: nat): nat {
    28 + 8 * strings
  }

  function HeaderWords(count: nat): seq<nat> {
    [MAGIC, 0, count, 28, 28 + 8 * count, 0, 0]
  }

  /** The (length, offset) pair of each string. */
  function Places(strings: seq<Bytes>): (places: seq<(nat, nat)>)
    ensures |places| == |strings|
  {
    seq(|strings|, i requires 0 <= i < |strings| => (|strings[i]|, Payload(|strings|) + Start(strings, i)))
  }

  function Flat(places: seq<(nat, nat)>): (ws: seq<nat>)
    ensures |ws| == 2 * |places|
  {
    if places == [] then []
    else
      var n := |places| - 1;
      Flat(places[..n]) + [places[n].0, places[n].1]
  }

  function File(count: nat, places: seq<(nat, nat)>, blobs: Bytes): Bytes {
    Words(HeaderWords(count) + Flat(places)) + blobs
  }

  function Layout(strings: seq<Bytes>): Bytes {
    File(|strings| / 2, Places(strings), Blobs(strings))
  }

  /** Every number the two tables hold fits the 32 bits `struct.pack` gives it. */
  ghost predicate Fits(strings: seq<Bytes>) {
    forall i | 0 <= i < |strings| :: FitsAt(strings, i)
  }

  predicate FitsAt(strings: seq<Bytes>, i: nat)
    requires i < |strings|
  {
    |strings[i]| < WORD && Payload(|strings|) + Start(strings, i) < WORD
  }

  /** The catalogue is writable exactly when the last translation still starts, and measures,
      within 32 bits: no earlier entry can be the one that does not fit. */
  lemma FitsExactly(strings: seq<Bytes>)
    requires strings != []
    ensures var n := |strings| - 1;
      Fits(strings) <==> |strings[n]| < 0x1_0000_0000 && 28 + 8 * (n + 1) + Start(strings, n) < 0x1_0000_0000
  {
    var n := |strings| - 1;
    assert FitsAt(strings, n) <==> |strings[n]| < WORD && Payload(n + 1) + Start(strings, n) < WORD;
    forall i | 0 <= i < n ensures FitsAt(strings, n) ==> FitsAt(strings, i) {
      StartsGrow(strings, i + 1, n);
      assert strings[..i + 1][..i] == strings[..i];
    }
  }

  lemma {:induction false} StartsGrow(strings: seq<Bytes>, i: nat, j: nat)
    requires i <= j <= |strings|
    ensures Start(strings, i) <= Start(strings, j)
  {
    if i < j {
      assert strings[..j][..j - 1] == strings[..j - 1];
      StartsGrow(strings, i, j - 1);
    }
  }

  // ----- the writer

  /** The first `i` strings have been given their place and their bytes. */
  ghost predicate Placed(strings: seq<Bytes>, places: seq<(nat, nat)>, blobs: Bytes, i: nat) {
    i <= |strings| && blobs == Blobs(strings[..i]) && places == Places(strings)[..i]
  }

  lemma PlaceNext(strings: seq<Bytes>, places: seq<(nat, nat)>, blobs: Bytes, i: nat, text: Bytes, offset: nat)
    requires i < |strings| && Placed(strings, places, blobs, i)
    requires text == strings[i] && offset == Payload(|strings|) + |blobs|
    ensures Placed(strings, places + [(|text|, offset)], blobs + (text + [0]), i + 1)
  {
    assert strings[..i + 1][..i] == strings[..i];
  }

  /** Offsets are handed out msgids first, then translations; the tables are packed last, and
      `struct.pack` raises on a number over 32 bits. */
  method Serialise(entries: map<Bytes, Bytes>) returns (r: Result<Bytes>)
    ensures r.Ok? <==> Fits(Strings(entries))
    ensures r.Ok? ==> r.value == Layout(Strings(entries))
    ensures r.Ok? ==> InByteOrder(r.value, |entries|)
  {
    var keys := SortedKeys(entries.Keys);
    r := LayOut(keys, ValuesOf(keys, entries));
    if r.Ok? {
      WrittenInOrder(entries);
    }
  }

  method LayOut(keys: seq<Bytes>, values: seq<Bytes>) returns (r: Result<Bytes>)
    requires |keys| == |values|
    ensures r.Ok? <==> Fits(keys + values)
    ensures r.Ok? ==> r.value == Layout(keys + values)
  {
    ghost var strings := keys + values;
    var originalsTable := 7 * 4;
    var translationsTable := originalsTable + |keys| * 8;
    var payload := translationsTable + |keys| * 8;
    var places, blobs := PlaceRun(keys, payload, [], [], strings);
    places, blobs := PlaceRun(values, payload, places, blobs, strings);
    AllPlaced(strings, places, blobs);
    r := Pack(|keys|, places, blobs);
  }

  /** One of the two loops that hand out places: `texts` go after what `blobs` already holds. */
  method PlaceRun(texts: seq<Bytes>, payload: nat, before: seq<(nat, nat)>, blobsBefore: Bytes, ghost strings: seq<Bytes>)
      returns (places: seq<(nat, nat)>, blobs: Bytes)
    requires payload == Payload(|strings|) && Placed(strings, before, blobsBefore, |before|)
    requires |before| + |texts| <= |strings| && texts == strings[|before|..|before| + |texts|]
    ensures Placed(strings, places, blobs, |before| + |texts|)
  {
    places, blobs := before, blobsBefore;
    var offset := payload + |blobs|;
    for i := 0 to |texts|
      invariant Placed(strings, places, blobs, |before| + i) && offset == payload + |blobs|
    {
      PlaceNext(strings, places, blobs, |before| + i, texts[i], offset);
      places := places + [(|texts[i]|, offset)];
      blobs := blobs + (texts[i] + [0]);
      offset := offset + |texts[i]| + 1;
    }
  }

  lemma AllPlaced(strings: seq<Bytes>, places: seq<(nat, nat)>, blobs: Bytes)
    requires |strings| % 2 == 0 && Placed(strings, places, blobs, |strings|)
    ensures places == Places(strings) && blobs == Blobs(strings)
    ensures Fits(strings) <==> Packable(|strings| / 2, places)
  {
    assert strings[..|strings|] == strings;
    assert forall i | 0 <= i < |strings| :: FitsAt(strings, i) <==> places[i].0 < WORD && places[i].1 < WORD;
    if strings != [] && Fits(strings) {
      assert FitsAt(strings, 0);
    }
  }

  ghost predicate Packable(count: nat, places: seq<(nat, nat)>) {
    28 + 8 * count < WORD && forall j | 0 <= j < |places| :: places[j].0 < WORD && places[j].1 < WORD
  }

  /** `struct.pack` of the header, then of the tables entry by entry, then the strings. */
  method Pack(count: nat, places: seq<(nat, nat)>, blobs: Bytes) returns (r: Result<Bytes>)
    ensures r.Ok? <==> Packable(count, places)
    ensures r.Ok? ==> r.value == File(count, places, blobs)
  {
    if 28 + 8 * count >= WORD {
      return Err("struct.error");
    }
    ghost var head := HeaderWords(count);
    var bytes := Words(HeaderWords(count));
    assert head + Flat([]) == head;
    for i := 0 to |places|
      invariant forall j | 0 <= j < i :: places[j].0 < WORD && places[j].1 < WORD
      invariant bytes == Words(head + Flat(places[..i]))
    {
      if places[i].0 >= WORD || places[i].1 >= WORD {
        return Err("struct.error");
      }
      assert places[..i + 1][..i] == places[..i];
      WordsPair(head + Flat(places[..i]), places[i].0, places[i].1);
      assert head + Flat(places[..i + 1]) == head + Flat(places[..i]) + [places[i].0, places[i].1];
      bytes := bytes + (U32(places[i].0) + U32(places[i].1));
    }
    assert places[..|places|] == places;
    r := Ok(bytes + blobs);
  }

  lemma WordsPair(ws: seq<nat>, x: nat, y: nat)
    ensures Words(ws + [x, y]) == Words(ws) + (U32(x) + U32(y))
  {
    assert (ws + [x, y])[..|ws| + 1] == ws + [x];
    assert (ws + [x])[..|ws|] == ws;
  }

  // ----- what the layout holds

  lemma {:induction false} WordAt(ws: seq<nat>, i: nat, rest: Bytes)
    requires i < |ws| && ws[i] < WORD
    ensures U32At(Words(ws) + rest, 4 * i) == ws[i]
  {
    var n := |ws| - 1;
    if i < n {
      WordAt(ws[..n], i, U32(ws[n]) + rest);
      assert Words(ws[..n]) + (U32(ws[n]) + rest) == Words(ws) + rest;
    } else {
      U32RoundTrip(ws[n]);
    }
  }

  lemma {:induction false} BlobAt(strings: seq<Bytes>, i: nat)
    requires i < |strings|
    ensures Start(strings, i) + |strings[i]| + 1 == Start(strings, i + 1) <= |Blobs(strings)|
    ensures Blobs(strings)[Start(strings, i)..Start(strings, i + 1)] == strings[i] + [0]
  {
    var n := |strings| - 1;
    var init := strings[..n];
    assert strings[..i + 1][..i] == strings[..i];
    assert strings[..n + 1] == strings;
    if i < n {
      BlobAt(init, i);
      assert init[..i] == strings[..i] && init[..i + 1] == strings[..i + 1];
      assert Blobs(strings)[Start(strings, i)..Start(strings, i + 1)]
          == Blobs(init)[Start(strings, i)..Start(strings, i + 1)];
    }
  }

  // ----- a reader of the format

  /** The string that entry `i` of a table points at: in bounds and ended by a NUL, or nothing. */
  function StringAt(b: Bytes, table: nat, i: nat): Option<Bytes> {
    var cell := table + 8 * i;
    if cell + 8 > |b| then None
    else
      var length, offset := U32At(b, cell), U32At(b, cell + 4);
      if offset + length < |b| && b[offset + length] == 0 then Some(b[offset..offset + length]) else None
  }

  /** Binary search for `key` among entries `lo` to `hi` of the two tables. */
  function Search(original: nat -> Option<Bytes>, translation: nat -> Option<Bytes>, key: Bytes, lo: nat, hi: nat)
      : Option<Bytes>
    decreases hi - lo
  {
    if lo >= hi then None
    else
      var mid := (lo + hi) / 2;
      match original(mid)
      case None => None
      case Some(k) =>
        if k == key then translation(mid)
        else if Less(key, k) then Search(original, translation, key, lo, mid)
        else Search(original, translation, key, mid + 1, hi)
  }

  /** Finds `key` through the header and the tables it points at. */
  function Lookup(b: Bytes, key: Bytes): Option<Bytes> {
    if |b| < 28 || U32At(b, 0) != MAGIC then None
    else Search(i => StringAt(b, U32At(b, 12), i), i => StringAt(b, U32At(b, 16), i), key, 0, U32At(b, 8))
  }

  function LoadFirst(original: nat -> Option<Bytes>, translation: nat -> Option<Bytes>, count: nat)
      : Option<map<Bytes, Bytes>>
  {
    if count == 0 then Some(map[])
    else
      match (LoadFirst(original, translation, count - 1), original(count - 1), translation(count - 1))
      case (Some(m), Some(k), Some(v)) => Some(m[k := v])
      case _ => None
  }

  /** Reads the whole file back entry by entry, as `gettext.GNUTranslations` does. */
  function Load(b: Bytes): Option<map<Bytes, Bytes>> {
    if |b| < 28 || U32At(b, 0) != MAGIC then None
    else LoadFirst(i => StringAt(b, U32At(b, 12), i), i => StringAt(b, U32At(b, 16), i), U32At(b, 8))
  }

  // ----- the laws

  lemma HeaderWord(count: nat, places: seq<(nat, nat)>, blobs: Bytes, i: nat)
    requires 28 + 8 * count < WORD && i < 7
    ensures U32At(File(count, places, blobs), 4 * i) == HeaderWords(count)[i]
  {
    WordAt(HeaderWords(count) + Flat(places), i, blobs);
  }

  lemma HeaderReads(count: nat, places: seq<(nat, nat)>, blobs: Bytes)
    requires 28 + 8 * count < WORD
    ensures var b := File(count, places, blobs);
      && |b| == 28 + 8 * |places| + |blobs|
      && U32At(b, 0) == MAGIC && U32At(b, 4) == 0
      && U32At(b, 8) == count
      && U32At(b, 12) == 28 && U32At(b, 16) == 28 + 8 * count
      && U32At(b, 20) == 0 && U32At(b, 24) == 0
  {
    HeaderWord(count, places, blobs, 0);
    HeaderWord(count, places, blobs, 1);
    HeaderWord(count, places, blobs, 2);
    HeaderWord(count, places, blobs, 3);
    HeaderWord(count, places, blobs, 4);
    HeaderWord(count, places, blobs, 5);
    HeaderWord(count, places, blobs, 6);
  }

  lemma {:induction false} FlatAt(places: seq<(nat, nat)>, i: nat)
    requires i < |places|
    ensures Flat(places)[2 * i] == places[i].0 && Flat(places)[2 * i + 1] == places[i].1
  {
    if i < |places| - 1 {
      FlatAt(places[..|places| - 1], i);
    }
  }

  lemma PlaceReads(count: nat, places: seq<(nat, nat)>, blobs: Bytes, i: nat)
    requires i < |places| && places[i].0 < WORD && places[i].1 < WORD
    ensures var b := File(count, places, blobs);
      && |b| == 28 + 8 * |places| + |blobs|
      && U32At(b, 28 + 8 * i) == places[i].0
      && U32At(b, 28 + 8 * i + 4) == places[i].1
  {
    FlatAt(places, i);
    var ws := HeaderWords(count) + Flat(places);
    assert ws[7 + 2 * i] == places[i].0 && ws[7 + 2 * i + 1] == places[i].1;
    WordAt(ws, 7 + 2 * i, blobs);
    WordAt(ws, 7 + 2 * i + 1, blobs);
  }

  /** Table cell `i` holds the length of string `i` and where it starts. */
  lemma CellReads(strings: seq<Bytes>, i: nat)
    requires |strings| % 2 == 0 && Fits(strings) && i < |strings|
    ensures var b := Layout(strings);
      && |b| == Payload(|strings|) + |Blobs(strings)|
      && U32At(b, 28 + 8 * i) == |strings[i]|
      && U32At(b, 28 + 8 * i + 4) == Payload(|strings|) + Start(strings, i)
  {
    assert FitsAt(strings, i);
    PlaceReads(|strings| / 2, Places(strings), Blobs(strings), i);
  }

  /** Every string lies where its cell says, ended by a NUL, and within the file. */
  lemma CellPoints(strings: seq<Bytes>, i: nat)
    requires |strings| % 2 == 0 && Fits(strings) && i < |strings|
    ensures StringAt(Layout(strings), 28, i) == Some(strings[i])
  {
    CellReads(strings, i);
    BlobAt(strings, i);
    Inside(Words(HeaderWords(|strings| / 2) + Flat(Places(strings))), Blobs(strings), Start(strings, i), strings[i]);
  }

  /** The first string starts where the tables end, each next one where the one before ended, and
      the last ends with the file: the strings tile the payload without gap or overlap. */
  lemma CellsTilePayload(strings: seq<Bytes>, i: nat)
    requires |strings| % 2 == 0 && Fits(strings) && i < |strings|
    ensures var b := Layout(strings);
      && 28 + 8 * |strings| <= |b|
      && (i == 0 ==> U32At(b, 28 + 8 * i + 4) == Payload(|strings|))
      && (i + 1 < |strings| ==> U32At(b, 28 + 8 * i + 4) + |strings[i]| + 1 == U32At(b, 28 + 8 * (i + 1) + 4))
      && (i + 1 == |strings| ==> U32At(b, 28 + 8 * i + 4) + |strings[i]| + 1 == |b|)
  {
    CellReads(strings, i);
    BlobAt(strings, i);
    if i + 1 < |strings| {
      CellReads(strings, i + 1);
    } else {
      assert strings[..i + 1] == strings;
    }
  }

  lemma Inside(pre: Bytes, blobs: Bytes, at: nat, text: Bytes)
    requires at + |text| + 1 <= |blobs| && blobs[at..at + |text| + 1] == text + [0]
    ensures (pre + blobs)[|pre| + at..|pre| + at + |text|] == text
    ensures (pre + blobs)[|pre| + at + |text|] == 0
  {
    var cut := blobs[at..at + |text| + 1];
    assert cut[|text|] == 0 && cut[..|text|] == text;
    assert (pre + blobs)[|pre| + at..|pre| + at + |text|] == cut[..|text|];
  }

  /** The two tables, read entry by entry, hold `keys` and `values`. */
  ghost predicate Holds(
      original: nat -> Option<Bytes>, translation: nat -> Option<Bytes>, keys: seq<Bytes>, values: seq<Bytes>)
  {
    && |keys| == |values|
    && (forall i | 0 <= i < |keys| :: original(i) == Some(keys[i]))
    && (forall i | 0 <= i < |keys| :: translation(i) == Some(values[i]))
  }

  /** A file that a reader finds `keys` and `values` in. */
  ghost predicate Reads(b: Bytes, keys: seq<Bytes>, values: seq<Bytes>) {
    && |b| >= 28 && U32At(b, 0) == MAGIC && U32At(b, 8) == |keys|
    && Holds(i => StringAt(b, U32At(b, 12), i), i => StringAt(b, U32At(b, 16), i), keys, values)
  }

  lemma TablesAdjoin(b: Bytes, n: nat, i: nat)
    ensures StringAt(b, 28, n + i) == StringAt(b, 28 + 8 * n, i)
  {
  }

  lemma LayoutHeader(strings: seq<Bytes>, b: Bytes)
    requires |strings| % 2 == 0 && Fits(strings) && b == Layout(strings)
    ensures |b| >= 28 && U32At(b, 0) == MAGIC && U32At(b, 8) == |strings| / 2
    ensures U32At(b, 12) == 28 && U32At(b, 16) == 28 + 4 * |strings|
  {
    if strings != [] {
      assert FitsAt(strings, 0);
    }
    HeaderReads(|strings| / 2, Places(strings), Blobs(strings));
  }

  lemma LayoutReads(keys: seq<Bytes>, values: seq<Bytes>, b: Bytes)
    requires |keys| == |values| && Fits(keys + values) && b == Layout(keys + values)
    ensures Reads(b, keys, values)
  {
    LayoutHeader(keys + values, b);
    forall i | 0 <= i < |keys + values| ensures StringAt(b, 28, i) == Some((keys + values)[i]) {
      CellPoints(keys + values, i);
    }
    Assembled(b, keys, values);
  }

  lemma Assembled(b: Bytes, keys: seq<Bytes>, values: seq<Bytes>)
    requires |keys| == |values|
    requires |b| >= 28 && U32At(b, 0) == MAGIC && U32At(b, 8) == |keys|
    requires U32At(b, 12) == 28 && U32At(b, 16) == 28 + 8 * |keys|
    requires forall i | 0 <= i < |keys + values| :: StringAt(b, 28, i) == Some((keys + values)[i])
    ensures Reads(b, keys, values)
  {
    forall i | 0 <= i < |keys|
      ensures StringAt(b, 28, i) == Some(keys[i]) && StringAt(b, 28 + 8 * |keys|, i) == Some(values[i])
    {
      assert (keys + values)[i] == keys[i] && (keys + values)[|keys| + i] == values[i];
      TablesAdjoin(b, |keys|, i);
    }
  }

  lemma {:induction false} SearchFinds(original: nat -> Option<Bytes>, translation: nat -> Option<Bytes>,
      keys: seq<Bytes>, values: seq<Bytes>, key: Bytes, lo: nat, hi: nat)
    requires Holds(original, translation, keys, values) && Increasing(keys) && lo <= hi <= |keys|
    requires forall i | 0 <= i < |keys| && keys[i] == key :: lo <= i < hi
    ensures var found := Search(original, translation, key, lo, hi);
      if key in keys then exists i :: 0 <= i < |keys| && keys[i] == key && found == Some(values[i]) else found == None
    decreases hi - lo
  {
    if lo < hi {
      var mid := (lo + hi) / 2;
      LessTrichotomy(key, keys[mid]);
      if key == keys[mid] {
      } else if Less(key, keys[mid]) {
        forall i | mid <= i < |keys| ensures keys[i] != key {
          LessTrichotomy(keys[mid], keys[i]);
        }
        SearchFinds(original, translation, keys, values, key, lo, mid);
      } else {
        forall i | 0 <= i <= mid ensures keys[i] != key {
          LessTrichotomy(keys[i], keys[mid]);
        }
        SearchFinds(original, translation, keys, values, key, mid + 1, hi);
      }
    }
  }

  lemma ReadsLookup(b: Bytes, keys: seq<Bytes>, values: seq<Bytes>, key: Bytes)
    requires Reads(b, keys, values) && Increasing(keys)
    ensures if key in keys then exists i :: 0 <= i < |keys| && keys[i] == key && Lookup(b, key) == Some(values[i])
            else Lookup(b, key) == None
  {
    SearchFinds(i => StringAt(b, U32At(b, 12), i), i => StringAt(b, U32At(b, 16), i), keys, values, key, 0, |keys|);
  }

  /** The first table of a file lists its keys by the byte at which they first differ. */
  ghost predicate InByteOrder(b: Bytes, count: nat) {
    forall i, j | 0 <= i < j < count :: KeyBefore(StringAt(b, 28, i), StringAt(b, 28, j))
  }

  ghost predicate KeyBefore(a: Option<Bytes>, b: Option<Bytes>) {
    a.Some? && b.Some? && Before(a.value, b.value)
  }

  lemma WrittenInOrder(entries: map<Bytes, Bytes>)
    requires Fits(Strings(entries))
    ensures InByteOrder(Layout(Strings(entries)), |entries|)
  {
    var keys := SortedKeys(entries.Keys);
    forall i, j | 0 <= i < j < |keys|
      ensures KeyBefore(StringAt(Layout(Strings(entries)), 28, i), StringAt(Layout(Strings(entries)), 28, j))
    {
      CellPoints(Strings(entries), i);
      CellPoints(Strings(entries), j);
      SortedKeysInOrder(entries.Keys, i, j);
    }
  }

  /** The index agrees with the map it speeds up: binary search over the written bytes gives the
      translation of every key present and nothing for every other byte string. */
  lemma LookupAgrees(entries: map<Bytes, Bytes>, key: Bytes)
    requires Fits(Strings(entries))
    ensures Lookup(Layout(Strings(entries)), key) == if key in entries then Some(entries[key]) else None
  {
    var keys := SortedKeys(entries.Keys);
    LayoutReads(keys, ValuesOf(keys, entries), Layout(Strings(entries)));
    ReadsLookup(Layout(Strings(entries)), keys, ValuesOf(keys, entries), key);
  }

  lemma {:induction false} LoadFirstReads(original: nat -> Option<Bytes>, translation: nat -> Option<Bytes>,
      keys: seq<Bytes>, entries: map<Bytes, Bytes>, n: nat)
    requires forall k | k in keys :: k in entries
    requires Holds(original, translation, keys, ValuesOf(keys, entries)) && n <= |keys|
    ensures LoadFirst(original, translation, n) == Some(map k | k in keys[..n] :: entries[k])
  {
    if n == 0 {
    } else {
      LoadFirstReads(original, translation, keys, entries, n - 1);
      assert keys[..n] == keys[..n - 1] + [keys[n - 1]];
      assert (map k | k in keys[..n - 1] :: entries[k])[keys[n - 1] := entries[keys[n - 1]]]
          == (map k | k in keys[..n] :: entries[k]);
    }
  }

  lemma ReadsLoad(b: Bytes, keys: seq<Bytes>, entries: map<Bytes, Bytes>)
    requires forall k :: k in keys <==> k in entries
    requires Reads(b, keys, ValuesOf(keys, entries))
    ensures Load(b) == Some(entries)
  {
    LoadFirstReads(i => StringAt(b, U32At(b, 12), i), i => StringAt(b, U32At(b, 16), i), keys, entries, |keys|);
    assert keys[..|keys|] == keys;
    assert (map k | k in keys :: entries[k]) == entries;
  }

  /** Decoding what was written gives the catalogue back. */
  lemma LoadRoundTrip(entries: map<Bytes, Bytes>)
    requires Fits(Strings(entries))
    ensures Load(Layout(Strings(entries))) == Some(entries)
  {
    var keys := SortedKeys(entries.Keys);
    LayoutReads(keys, ValuesOf(keys, entries), Layout(Strings(entries)));
    ReadsLoad(Layout(Strings(entries)), keys, entries);
  }
}
