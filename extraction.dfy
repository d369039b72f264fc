/** The field extraction between downloading documents and normalising their messages. Two
    scripts carry it:

    - `step6_extract_fields.py` writes one JSON record per document that has a message, and
      counts a document it cannot read as skipped;
    - `step4_extract_fields.py`, the older one, writes `index|id|message` lines and stops at the
      first document it cannot read.

    The decoded document file is the input; the output file is the value returned. */
module FieldExtraction {
  import opened Wrappers
  import opened PyStrings
  import opened JsonValue

  // ---------------------------------------------------------------------------------------
  // step6_extract_fields.py

  /** `{"index": ..., "id": ..., "message": ...}`. */
  function Record(index: Json, id: Json, message: Json): Json {
    JObject([Member("index", index), Member("id", id), Member("message", message)])
  }

  /** The fields of one document: AttributeError when it or its `_source` is not a dict,
      nothing when its message is missing or empty, otherwise its record. */
  function DocumentRecord(doc: Json): Result<Option<Json>> {
    var index :- PyGet(doc, "_index", JString("unknown"));
    var id :- PyGet(doc, "_id", JString("unknown"));
    var source :- PyGet(doc, "_source", JObject([]));
    var message :- PyGet(source, "message", JString(""));
    if !Truthy(message) then Ok(None) else Ok(Some(Record(index, id, message)))
  }

  /** The records written and the two counters. */
  datatype Extraction = Extraction(records: seq<Json>, processed: nat, skipped: nat)

  /** The outcome of the loop over `docs`: a document that yields a record adds it and counts
      as processed; any other document, unreadable ones included, counts as skipped. */
  function Extract(docs: seq<Json>): (e: Extraction)
    ensures e.processed + e.skipped == |docs|
    ensures |e.records| == e.processed
    ensures forall k :: 0 <= k < |e.records| ==>
      e.records[k].JObject? && Keys(e.records[k].fields) == ["index", "id", "message"]
      && Truthy(e.records[k].fields[2].value)
  {
    if docs == [] then Extraction([], 0, 0)
    else
      var e := Extract(docs[..|docs| - 1]);
      match DocumentRecord(docs[|docs| - 1])
      case Ok(Some(r)) => Extraction(e.records + [r], e.processed + 1, e.skipped)
      case _ => Extraction(e.records, e.processed, e.skipped + 1)
  }

  /** `extract_fields`: `len(documents)` and the loop need a list (or another sized iterable);
      anything else raises TypeError before the first document. */
  function ExtractAll(documents: Json): (r: Result<Extraction>)
    ensures documents.JArray? ==> r == Ok(Extract(documents.items))
    ensures r.Err? <==> documents.JNull? || documents.JBool? || documents.JInt?
  {
    var docs :- PyIter(documents);
    Ok(Extract(docs))
  }

  // Properties

  /** A dict document with a dict `_source` and a non-empty message yields its record, with
      `"unknown"` for a missing `_index` or `_id`. */
  lemma {:induction false} RecordOfReadableDocument(fields: seq<Member>, sfields: seq<Member>, message: Json)
    requires Lookup(fields, "_source") == Some(JObject(sfields))
    requires Lookup(sfields, "message") == Some(message) && Truthy(message)
    ensures DocumentRecord(JObject(fields)) ==
      Ok(Some(Record(Get(fields, "_index", JString("unknown")), Get(fields, "_id", JString("unknown")), message)))
  {
  }

  /** A document without `_source`, or whose message is missing or empty, is skipped. */
  lemma {:induction false} NoMessageSkipped(fields: seq<Member>)
    requires Lookup(fields, "_source").None? ||
      (Lookup(fields, "_source").value.JObject? && !Truthy(Get(Lookup(fields, "_source").value.fields, "message", JString(""))))
    ensures DocumentRecord(JObject(fields)) == Ok(None)
  {
    assert Truthy(JString("")) == false;
  }

  /** A document that is not a dict, or whose `_source` is not a dict, raises inside the loop
      and is counted as skipped instead of stopping the run. */
  lemma {:induction false} UnreadableSkipped(docs: seq<Json>, doc: Json)
    requires !doc.JObject? || (Lookup(doc.fields, "_source").Some? && !Lookup(doc.fields, "_source").value.JObject?)
    ensures DocumentRecord(doc).Err?
    ensures Extract(docs + [doc]) == Extraction(Extract(docs).records, Extract(docs).processed, Extract(docs).skipped + 1)
  {
    assert (docs + [doc])[..|docs|] == docs;
  }

  /** Extraction goes document by document: the records of two runs of documents are the records
      of the first followed by those of the second, and the counters add up. */
  lemma {:induction false} ExtractAppend(a: seq<Json>, b: seq<Json>)
    ensures Extract(a + b).records == Extract(a).records + Extract(b).records
    ensures Extract(a + b).processed == Extract(a).processed + Extract(b).processed
    ensures Extract(a + b).skipped == Extract(a).skipped + Extract(b).skipped
    decreases |b|
  {
    if b == [] {
      assert a + b == a;
    } else {
      var init := b[..|b| - 1];
      ExtractAppend(a, init);
      assert (a + b)[..|a + b| - 1] == a + init;
      assert (a + b)[|a + b| - 1] == b[|b| - 1];
    }
  }

  /** `extract_fields`: the loop with its counters. The body of the source's `try` block is
      `DocumentRecord`; an exception it raises makes the document count as skipped. */
  method ExtractFields(documents: Json) returns (r: Result<Extraction>)
    ensures r == ExtractAll(documents)
  {
    var docs :- PyIter(documents);
    var e := ExtractLoop(docs);
    return Ok(e);
  }

  /** The loop over the documents. */
  method ExtractLoop(docs: seq<Json>) returns (e: Extraction)
    ensures e == Extract(docs)
  {
    var records: seq<Json> := [];
    var processed := 0;
    var skipped := 0;
    for i := 0 to |docs|
      invariant Extraction(records, processed, skipped) == Extract(docs[..i])
    {
      ExtractStep(docs, i);
      var record := DocumentRecord(docs[i]);
      if record.Ok? && record.value.Some? {
        records := records + [record.value.value];
        processed := processed + 1;
      } else {
        skipped := skipped + 1;
      }
    }
    assert docs[..|docs|] == docs;
    e := Extraction(records, processed, skipped);
  }

  /** One more document read. */
  lemma {:induction false} ExtractStep(docs: seq<Json>, i: nat)
    requires i < |docs|
    ensures var d := DocumentRecord(docs[i]); var e := Extract(docs[..i]);
      d.Ok? && d.value.Some? ==> Extract(docs[..i + 1]) == Extraction(e.records + [d.value.value], e.processed + 1, e.skipped)
    ensures var d := DocumentRecord(docs[i]); var e := Extract(docs[..i]);
      !(d.Ok? && d.value.Some?) ==> Extract(docs[..i + 1]) == Extraction(e.records, e.processed, e.skipped + 1)
  {
    assert docs[..i + 1][..i] == docs[..i];
  }

  // ---------------------------------------------------------------------------------------
  // step4_extract_fields.py

  /** The line of one document: AttributeError when it or its `_source` is not a dict, nothing
      when its message is missing or empty, otherwise `index|id|message` with `""` for a
      missing `_index` or `_id`. */
  function PipeLine(doc: Json): Result<Option<string>> {
    var index :- PyGet(doc, "_index", JString(""));
    var id :- PyGet(doc, "_id", JString(""));
    var source :- PyGet(doc, "_source", JObject([]));
    var message :- PyGet(source, "message", JString(""));
    if Truthy(message) then Ok(Some(PyStr(index) + "|" + PyStr(id) + "|" + PyStr(message))) else Ok(None)
  }

  /** The lines of `docs` in order; the first unreadable document stops the extraction. */
  function PipeLines(docs: seq<Json>): (r: Result<seq<string>>)
    ensures r.Ok? ==> |r.value| <= |docs|
  {
    if docs == [] then Ok([])
    else
      var lines :- PipeLines(docs[..|docs| - 1]);
      var line :- PipeLine(docs[|docs| - 1]);
      match line
      case Some(l) => Ok(lines + [l])
      case None => Ok(lines)
  }

  /** The output file: every line followed by `\n`. */
  function OutputText(lines: seq<string>): string {
    if lines == [] then [] else lines[0] + "\n" + OutputText(lines[1..])
  }

  /** `extract_fields` of the older script. */
  function PipeExtract(documents: Json): (r: Result<string>)
    ensures r.Err? <==> documents.JNull? || documents.JBool? || documents.JInt? || PipeLines(PyIter(documents).value).Err?
  {
    var docs :- PyIter(documents);
    var lines :- PipeLines(docs);
    Ok(OutputText(lines))
  }

  // Properties

  /** A document without `_index` and `_id` whose message is a str gives `||message`. */
  lemma {:induction false} MissingPartsEmpty(fields: seq<Member>, sfields: seq<Member>, message: string)
    requires Lookup(fields, "_index").None? && Lookup(fields, "_id").None?
    requires Lookup(fields, "_source") == Some(JObject(sfields))
    requires Lookup(sfields, "message") == Some(JString(message)) && message != []
    ensures PipeLine(JObject(fields)) == Ok(Some("||" + message))
  {
    PipeLineOfParts(JObject(fields), JString(""), JString(""), JObject(sfields), JString(message));
    EmptyPartsText(message);
  }

  lemma {:induction false} EmptyPartsText(message: string)
    ensures PyStr(JString("")) + "|" + PyStr(JString("")) + "|" + PyStr(JString(message)) == "||" + message
  {
    assert PyStr(JString("")) == "" && PyStr(JString(message)) == message;
    assert "" + "|" + "" + "|" + message == "||" + message;
  }

  /** The line of a readable document with a non-empty message. */
  lemma {:induction false} PipeLineOfParts(doc: Json, index: Json, id: Json, source: Json, message: Json)
    requires PyGet(doc, "_index", JString("")) == Ok(index) && PyGet(doc, "_id", JString("")) == Ok(id)
    requires PyGet(doc, "_source", JObject([])) == Ok(source) && PyGet(source, "message", JString("")) == Ok(message)
    requires Truthy(message)
    ensures PipeLine(doc) == Ok(Some(PyStr(index) + "|" + PyStr(id) + "|" + PyStr(message)))
  {
  }

  /** Once a document fails, the extraction fails with that error whatever follows. */
  lemma {:induction false} PipeLinesErrStays(docs: seq<Json>, j: nat)
    requires j <= |docs| && PipeLines(docs[..j]).Err?
    ensures PipeLines(docs) == PipeLines(docs[..j])
  {
    if j < |docs| {
      var init := docs[..|docs| - 1];
      assert init[..j] == docs[..j];
      PipeLinesErrStays(init, j);
    } else {
      assert docs[..j] == docs;
    }
  }

  /** A document that is not a dict anywhere in the input aborts the extraction. */
  lemma {:induction false} NonMappingAborts(docs: seq<Json>, i: nat)
    requires i < |docs| && !docs[i].JObject?
    ensures PipeLines(docs).Err?
  {
    assert PipeLines(docs[..i + 1]).Err? by {
      assert docs[..i + 1][..i] == docs[..i];
    }
    PipeLinesErrStays(docs, i + 1);
  }

  /** Writing a line adds it and `\n` at the end of the text. */
  lemma {:induction false} OutputTextAppend(lines: seq<string>, line: string)
    ensures OutputText(lines + [line]) == OutputText(lines) + line + "\n"
  {
    if lines != [] {
      OutputTextAppend(lines[1..], line);
      assert (lines + [line])[1..] == lines[1..] + [line];
    }
  }

  /** When no line holds a line break, splitting the file at `\n` gives the lines back, followed
      by the empty text after the last `\n`. */
  lemma {:induction false} OutputTextRoundTrip(lines: seq<string>)
    requires forall k :: 0 <= k < |lines| ==> '\n' !in lines[k]
    ensures SplitAt(OutputText(lines), '\n') == lines + [""]
  {
    if lines != [] {
      var first := lines[0];
      OutputTextRoundTrip(lines[1..]);
      assert OutputText(lines) == first + ['\n'] + OutputText(lines[1..]);
      SplitAtJoin(first, OutputText(lines[1..]), '\n');
      assert lines == [first] + lines[1..];
    }
  }

  /** `extract_fields` of the older script: the extraction loop, then the writing loop. */
  method PipeExtractFields(documents: Json) returns (r: Result<string>)
    ensures r == PipeExtract(documents)
  {
    var docs :- PyIter(documents);
    var extracted :- CollectPipeLines(docs);
    var text := WriteLines(extracted);
    return Ok(text);
  }

  /** The extraction loop; an unreadable document ends it with its error. */
  method CollectPipeLines(docs: seq<Json>) returns (r: Result<seq<string>>)
    ensures r == PipeLines(docs)
  {
    var extracted: seq<string> := [];
    for i := 0 to |docs|
      invariant PipeLines(docs[..i]) == Ok(extracted)
    {
      PipeLinesStep(docs, i);
      var line := PipeLine(docs[i]);
      if line.Err? {
        PipeLinesAbort(docs, i);
        return Err(line.error);
      }
      if line.value.Some? {
        extracted := extracted + [line.value.value];
      }
    }
    assert docs[..|docs|] == docs;
    return Ok(extracted);
  }

  /** The first document that fails decides the outcome. */
  lemma {:induction false} PipeLinesAbort(docs: seq<Json>, i: nat)
    requires i < |docs| && PipeLines(docs[..i]).Ok? && PipeLine(docs[i]).Err?
    ensures PipeLines(docs) == Err(PipeLine(docs[i]).error)
  {
    PipeLinesStep(docs, i);
    PipeLinesErrStays(docs, i + 1);
  }

  /** One more document read. */
  lemma {:induction false} PipeLinesStep(docs: seq<Json>, i: nat)
    requires i < |docs| && PipeLines(docs[..i]).Ok?
    ensures PipeLine(docs[i]).Err? ==> PipeLines(docs[..i + 1]) == Err(PipeLine(docs[i]).error)
    ensures PipeLine(docs[i]) == Ok(None) ==> PipeLines(docs[..i + 1]) == PipeLines(docs[..i])
    ensures PipeLine(docs[i]).Ok? && PipeLine(docs[i]).value.Some? ==>
      PipeLines(docs[..i + 1]) == Ok(PipeLines(docs[..i]).value + [PipeLine(docs[i]).value.value])
  {
    assert docs[..i + 1][..i] == docs[..i];
  }

  /** The writing loop: each line and `\n`. */
  method WriteLines(lines: seq<string>) returns (text: string)
    ensures text == OutputText(lines)
  {
    text := "";
    for i := 0 to |lines|
      invariant text == OutputText(lines[..i])
    {
      OutputTextAppend(lines[..i], lines[i]);
      assert lines[..i + 1] == lines[..i] + [lines[i]];
      text := text + lines[i] + "\n";
    }
    assert lines[..|lines|] == lines;
  }
}
