/** From PO text to the bytes a program looks its messages up in: `compile_catalogue` of
    scripts/compile_catalogue.py. `str.encode` is a parameter of which only injectivity is used. */
module CompileCatalogue {
  import opened Results
  import opened MoFile
  import PoReader

  ghost predicate Injective(encode: string -> Bytes) {
    forall a, b :: encode(a) == encode(b) ==> a == b
  }

  function Encoded(entries: map<string, string>, encode: string -> Bytes): (m: map<Bytes, Bytes>)
    requires Injective(encode)
    ensures forall k :: k in entries <==> encode(k) in m
    ensures forall k | k in entries :: m[encode(k)] == encode(entries[k])
  {
    map k | k in entries :: encode(k) := encode(entries[k])
  }

  ghost function Translation(entries: map<string, string>, encode: string -> Bytes, key: string): Option<Bytes> {
    if key in entries then Some(encode(entries[key])) else None
  }

  /** Either the text is refused as `parse` refuses it, or the catalogue does not fit the format,
      or the bytes translate exactly what the text says, message by message. */
  method Compile(text: string, encode: string -> Bytes) returns (r: Result<(Bytes, nat)>)
    requires Injective(encode)
    ensures PoReader.Parsed(text).Err? ==> r == Err(PoReader.Parsed(text).error)
    ensures PoReader.Parsed(text).Ok? ==>
      (r.Ok? <==> Fits(Strings(Encoded(PoReader.Parsed(text).value, encode))))
    ensures r.Ok? ==> r.value.1 == |PoReader.Parsed(text).value|
    ensures r.Ok? ==> forall key: string ::
      Lookup(r.value.0, encode(key)) == Translation(PoReader.Parsed(text).value, encode, key)
  {
    var parsed := PoReader.Parse(text);
    if parsed.Err? {
      return Err(parsed.error);
    }
    var entries := Encoded(parsed.value, encode);
    var bytes := Serialise(entries);
    if bytes.Err? {
      return Err("struct.error");
    }
    forall key: string ensures Lookup(bytes.value, encode(key)) == Translation(parsed.value, encode, key) {
      LookupAgrees(entries, encode(key));
    }
    r := Ok((bytes.value, |parsed.value|));
  }

  /** A printed document, compiled: looking a message up in the bytes gives its translation as the
      document has it, and nothing for a message that is fuzzy, untranslated or not there. */
  lemma DocumentTranslates(items: seq<PoReader.Item>, encode: string -> Bytes, key: string)
    requires Injective(encode) && forall item | item in items :: PoReader.Printable(item)
    ensures var meaning := PoReader.Meaning(items, false, map[]);
      && PoReader.Parsed(PoReader.Text(items)) == Ok(meaning)
      && (Fits(Strings(Encoded(meaning, encode))) ==>
            Lookup(Layout(Strings(Encoded(meaning, encode))), encode(key)) == Translation(meaning, encode, key))
  {
    PoReader.ParsePrinted(items);
    var entries := Encoded(PoReader.Meaning(items, false, map[]), encode);
    if Fits(Strings(entries)) {
      LookupAgrees(entries, encode(key));
    }
  }
}
