/**
 * Turning the medical knowledge files into documents: one document per
 * entry of the JSON file, and the PDF pages before the JSON entries.
 */
module DataLoader {
  import opened Wrappers
  import opened StringOps
  import opened State

  /** One element of the decoded JSON list: an object with its keys in file order, or anything else. */
  datatype JsonItem = Object(fields: seq<(string, JsonValue)>) | NonObject

  /**
   * What reading the JSON file gives: no such file; a file that does not
   * decode, or whose top-level value is not a list (iterating a dict, a
   * string or a number either raises inside the handler or yields no
   * entry, so it gives nothing as well); or a decoded list.
   */
  datatype JsonFile = Missing | Unreadable | Parsed(items: seq<JsonItem>)

  const TitleKey := "ten_benh"
  const UrlKey := "url_nguon"
  const TitlePrefix := "Bệnh: "
  const PartSeparator := "\n\n"
  const DefaultSource := "Medical JSON Database"
  const DefaultTitle := "Unknown Disease"

  /** Whether an object has a key. */
  predicate HasKey(fields: seq<(string, JsonValue)>, key: string) {
    exists i :: 0 <= i < |fields| && fields[i].0 == key
  }

  /** The value of a key (keys of a decoded object are distinct; the first is taken). */
  function Lookup(fields: seq<(string, JsonValue)>, key: string): (v: Option<JsonValue>)
    ensures v.Some? <==> HasKey(fields, key)
    ensures v.Some? ==> exists i :: 0 <= i < |fields| && fields[i] == (key, v.value)
    decreases |fields|
  {
    if fields == [] then None
    else if fields[0].0 == key then Some(fields[0].1)
    else
      var v := Lookup(fields[1..], key);
      assert v.Some? ==> HasKey(fields[1..], key) && (exists i :: 0 <= i < |fields[1..]| && fields[1..][i] == (key, v.value));
      assert HasKey(fields, key) && fields[0].0 != key ==> HasKey(fields[1..], key) by {
        if HasKey(fields, key) && fields[0].0 != key {
          var i :| 0 <= i < |fields| && fields[i].0 == key;
          assert fields[1..][i - 1].0 == key;
        }
      }
      v
  }

  /** The text an f-string gives for a value. */
  function Text(v: JsonValue): string {
    match v
    case JString(text) => text
    case JOther(repr) => repr
  }

  /** The title line, when the entry has a disease name. */
  function Header(fields: seq<(string, JsonValue)>): (h: seq<string>)
    ensures |h| <= 1
    ensures h != [] <==> HasKey(fields, TitleKey)
  {
    match Lookup(fields, TitleKey)
    case Some(v) => [TitlePrefix + Text(v)]
    case None => []
  }

  /** Whether a field becomes a "key: value" part: a string value under a key other than the name and the URL. */
  predicate IsDescribed(field: (string, JsonValue)) {
    field.0 != TitleKey && field.0 != UrlKey && field.1.JString?
  }

  function Part(field: (string, JsonValue)): string
    requires field.1.JString?
  {
    field.0 + ": " + field.1.text
  }

  /** The "key: value" parts of an entry, in key order. */
  function FieldParts(fields: seq<(string, JsonValue)>): seq<string>
    decreases |fields|
  {
    if fields == [] then []
    else
      var rest := FieldParts(fields[..|fields| - 1]);
      var last := fields[|fields| - 1];
      if IsDescribed(last) then rest + [Part(last)] else rest
  }

  /** The `page_content` of an entry. */
  function EntryContent(fields: seq<(string, JsonValue)>): string {
    Join(PartSeparator, Header(fields) + FieldParts(fields))
  }

  /** The metadata of an entry, with its defaults. */
  function EntryMetadata(fields: seq<(string, JsonValue)>): (m: map<string, JsonValue>)
    ensures m.Keys == {"source", "title"}
    ensures m["source"] == Lookup(fields, UrlKey).GetOr(JString(DefaultSource))
    ensures m["title"] == Lookup(fields, TitleKey).GetOr(JString(DefaultTitle))
  {
    map["source" := Lookup(fields, UrlKey).GetOr(JString(DefaultSource)),
        "title" := Lookup(fields, TitleKey).GetOr(JString(DefaultTitle))]
  }

  function EntryDocument(fields: seq<(string, JsonValue)>): Document {
    Document(EntryContent(fields), EntryMetadata(fields))
  }

  predicate AllObjects(items: seq<JsonItem>) {
    forall i :: 0 <= i < |items| ==> items[i].Object?
  }

  /**
   * The documents `load_json` returns: none for a missing or undecodable
   * file, none when some element is not an object (the loop raises and the
   * handler returns an empty list), and otherwise one per entry.
   */
  function JsonDocuments(file: JsonFile): seq<Document> {
    match file
    case Missing => []
    case Unreadable => []
    case Parsed(items) =>
      if AllObjects(items) then Documents(items, EntryDocument) else []
  }

  /** One document per entry, in entry order, each built by `build`. */
  function Documents(items: seq<JsonItem>, build: seq<(string, JsonValue)> -> Document): seq<Document>
    requires AllObjects(items)
    decreases |items|
  {
    if items == [] then []
    else Documents(items[..|items| - 1], build) + [build(items[|items| - 1].fields)]
  }

  /** The inner loop of `load_json`: the content parts of one entry. */
  method ContentParts(fields: seq<(string, JsonValue)>) returns (parts: seq<string>)
    ensures parts == Header(fields) + FieldParts(fields)
  {
    parts := [];
    var title := Lookup(fields, TitleKey);
    if title.Some? {
      parts := parts + [TitlePrefix + Text(title.value)];
    }
    var i := 0;
    while i < |fields|
      invariant 0 <= i <= |fields|
      invariant parts == Header(fields) + FieldParts(fields[..i])
    {
      var (key, value) := fields[i];
      ghost var done := fields[..i + 1];
      assert done[..i] == fields[..i] && done[i] == fields[i];
      assert FieldParts(done) == FieldParts(fields[..i]) + (if IsDescribed(fields[i]) then [Part(fields[i])] else []);
      if key != TitleKey && key != UrlKey && value.JString? {
        parts := parts + [key + ": " + value.text];
      }
      i := i + 1;
    }
    assert fields[..i] == fields;
  }

  /** The body of the loop of `load_json` for one entry. */
  method BuildDocument(fields: seq<(string, JsonValue)>) returns (doc: Document)
    ensures doc == EntryDocument(fields)
  {
    var parts := ContentParts(fields);
    var content := Join(PartSeparator, parts);
    var metadata := map["source" := Lookup(fields, UrlKey).GetOr(JString(DefaultSource)),
                        "title" := Lookup(fields, TitleKey).GetOr(JString(DefaultTitle))];
    doc := Document(content, metadata);
  }

  /** Extending a prefix of objects by one more object. */
  lemma PrefixOfObjects(items: seq<JsonItem>, i: nat)
    requires i < |items| && AllObjects(items[..i]) && items[i].Object?
    ensures AllObjects(items[..i + 1]) && items[..i + 1][..i] == items[..i]
    ensures Documents(items[..i + 1], EntryDocument) == Documents(items[..i], EntryDocument) + [EntryDocument(items[i].fields)]
  {
    assert forall k :: 0 <= k < i + 1 ==> items[..i + 1][k] == items[k];
  }

  /** `load_json(json_path)`. */
  method LoadJson(file: JsonFile) returns (docs: seq<Document>)
    ensures docs == JsonDocuments(file)
  {
    if !file.Parsed? {
      return [];
    }
    var items := file.items;
    docs := [];
    var i := 0;
    while i < |items|
      invariant 0 <= i <= |items|
      invariant AllObjects(items[..i])
      invariant docs == Documents(items[..i], EntryDocument)
    {
      if items[i].NonObject? {
        assert !AllObjects(items);
        return [];
      }
      PrefixOfObjects(items, i);
      var doc := BuildDocument(items[i].fields);
      docs := docs + [doc];
      i := i + 1;
    }
    assert items[..i] == items;
  }

  /** `if path:` — a path is used only when given and non-empty. */
  predicate Given(path: Option<string>) {
    path.Some? && path.value != ""
  }

  /**
   * The result of `process_data`: the PDF pages, then the JSON entries,
   * then the split; nothing at all, and no split, when both are empty.
   * `loadPdf`, `readJson` and `split` stand for the PDF loader, reading and
   * decoding the file, and the text splitter.
   */
  function ProcessedDocuments(pdfPath: Option<string>, jsonPath: Option<string>,
                              loadPdf: string -> seq<Document>, readJson: string -> JsonFile,
                              split: seq<Document> -> seq<Document>): seq<Document>
  {
    var pdfDocs := if Given(pdfPath) then loadPdf(pdfPath.value) else [];
    var jsonDocs := if Given(jsonPath) then JsonDocuments(readJson(jsonPath.value)) else [];
    if pdfDocs + jsonDocs == [] then [] else split(pdfDocs + jsonDocs)
  }

  /** `process_data(pdf_path, json_path)`. */
  method ProcessData(pdfPath: Option<string>, jsonPath: Option<string>,
                     loadPdf: string -> seq<Document>, readJson: string -> JsonFile,
                     split: seq<Document> -> seq<Document>) returns (docs: seq<Document>)
    ensures docs == ProcessedDocuments(pdfPath, jsonPath, loadPdf, readJson, split)
  {
    var allDocs: seq<Document> := [];
    ghost var pdfDocs: seq<Document> := [];
    if pdfPath.Some? && pdfPath.value != "" {
      allDocs := allDocs + loadPdf(pdfPath.value);
      pdfDocs := loadPdf(pdfPath.value);
    }
    assert allDocs == pdfDocs;
    if jsonPath.Some? && jsonPath.value != "" {
      var jsonDocs := LoadJson(readJson(jsonPath.value));
      allDocs := allDocs + jsonDocs;
    } else {
      assert allDocs == pdfDocs + [];
    }
    if allDocs == [] {
      return [];
    }
    docs := split(allDocs);
  }

  // ----- properties -----

  lemma {:induction false} DocumentsPerEntry(items: seq<JsonItem>, build: seq<(string, JsonValue)> -> Document)
    requires AllObjects(items)
    ensures |Documents(items, build)| == |items|
    ensures forall i :: 0 <= i < |items| ==> Documents(items, build)[i] == build(items[i].fields)
    decreases |items|
  {
    if items != [] {
      var init := items[..|items| - 1];
      assert AllObjects(init) by {
        assert forall k :: 0 <= k < |init| ==> init[k] == items[k];
      }
      DocumentsPerEntry(init, build);
    }
  }

  /** A file of objects gives one document per entry, in entry order. */
  lemma OneDocumentPerEntry(items: seq<JsonItem>)
    requires AllObjects(items)
    ensures |JsonDocuments(Parsed(items))| == |items|
    ensures forall i :: 0 <= i < |items| ==> JsonDocuments(Parsed(items))[i] == EntryDocument(items[i].fields)
  {
    DocumentsPerEntry(items, EntryDocument);
  }

  /** A missing or undecodable file, or one element that is not an object, gives no documents at all. */
  lemma FailuresGiveNothing(file: JsonFile)
    requires file.Missing? || file.Unreadable? || (file.Parsed? && exists i :: 0 <= i < |file.items| && file.items[i].NonObject?)
    ensures JsonDocuments(file) == []
  {
  }

  /** `sep.join` of a first part and the rest. */
  lemma {:induction false} JoinCons(sep: string, head: string, rest: seq<string>)
    ensures Join(sep, [head] + rest) == if rest == [] then head else head + sep + Join(sep, rest)
    decreases |rest|
  {
    if |rest| > 1 {
      var init := rest[..|rest| - 1];
      assert ([head] + rest)[..|[head] + rest| - 1] == [head] + init;
      JoinCons(sep, head, init);
    } else if |rest| == 1 {
      assert ([head] + rest)[..1] == [head];
    }
  }

  /** With a disease name, the content begins with its title line. */
  lemma ContentStartsWithTitle(fields: seq<(string, JsonValue)>)
    requires HasKey(fields, TitleKey)
    ensures var title := TitlePrefix + Text(Lookup(fields, TitleKey).value);
      |title| <= |EntryContent(fields)| && EntryContent(fields)[..|title|] == title
  {
    var title := TitlePrefix + Text(Lookup(fields, TitleKey).value);
    assert Header(fields) == [title];
    JoinCons(PartSeparator, title, FieldParts(fields));
  }

  /** Adding a field at the end adds its part at the end exactly when it is a described string field. */
  lemma FieldPartsAppend(fields: seq<(string, JsonValue)>, field: (string, JsonValue))
    ensures FieldParts(fields + [field]) == FieldParts(fields) + (if IsDescribed(field) then [Part(field)] else [])
  {
    assert (fields + [field])[..|fields|] == fields;
  }

  /** Only described fields produce parts: every part is "key: value" for a string field in the entry. */
  lemma {:induction false} FieldPartsComeFromFields(fields: seq<(string, JsonValue)>)
    ensures |FieldParts(fields)| <= |fields|
    ensures forall p :: p in FieldParts(fields) ==>
      exists i :: 0 <= i < |fields| && IsDescribed(fields[i]) && p == Part(fields[i])
    decreases |fields|
  {
    if fields != [] {
      var init := fields[..|fields| - 1];
      FieldPartsComeFromFields(init);
      forall p | p in FieldParts(fields)
        ensures exists i :: 0 <= i < |fields| && IsDescribed(fields[i]) && p == Part(fields[i])
      {
        if p in FieldParts(init) {
          var i :| 0 <= i < |init| && IsDescribed(init[i]) && p == Part(init[i]);
          assert fields[i] == init[i];
        } else {
          assert p == Part(fields[|fields| - 1]);
        }
      }
    }
  }

  /**
   * The PDF pages come before the JSON entries, a path that is not given is
   * skipped, and when nothing was loaded the result is empty without
   * splitting.
   */
  lemma PdfBeforeJson(pdfPath: Option<string>, jsonPath: Option<string>,
                      loadPdf: string -> seq<Document>, readJson: string -> JsonFile,
                      split: seq<Document> -> seq<Document>)
    ensures var pdfDocs := if Given(pdfPath) then loadPdf(pdfPath.value) else [];
      var jsonDocs := if Given(jsonPath) then JsonDocuments(readJson(jsonPath.value)) else [];
      pdfDocs + jsonDocs != [] ==>
        ProcessedDocuments(pdfPath, jsonPath, loadPdf, readJson, split) == split(pdfDocs + jsonDocs)
    ensures !Given(pdfPath) && !Given(jsonPath) ==> ProcessedDocuments(pdfPath, jsonPath, loadPdf, readJson, split) == []
    ensures var pdfDocs := if Given(pdfPath) then loadPdf(pdfPath.value) else [];
      var jsonDocs := if Given(jsonPath) then JsonDocuments(readJson(jsonPath.value)) else [];
      pdfDocs + jsonDocs == [] ==> ProcessedDocuments(pdfPath, jsonPath, loadPdf, readJson, split) == []
  {
  }
}
