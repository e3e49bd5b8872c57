/**
 * The helpers that turn a converted guideline (a nested JSON object) into flat records for
 * indexing, plus the Markdown-fence stripper applied to model replies before `json.loads`
 * and the upload type check.
 *
 * `traverse_json` walks the object depth first. Every key on the way adds a `heading<level>`
 * entry to a fresh copy of the metadata, objects are entered, and every other value becomes
 * one record via `process_content`, which appends to a list shared by the whole walk.
 */
module HelperFuncs {
  import opened Wrappers
  import opened Text
  import opened PyJson

  // ---------------------------------------------------------------------------
  // is_valid_pdf

  /** The part of a Streamlit upload the check looks at: its declared MIME type. */
  datatype UploadedFile = UploadedFile(name: string, fileType: string)

  const PdfMimeType: string := "application/pdf"

  /** An upload is accepted exactly when its declared type is `application/pdf`; the name,
      extension and content play no part. */
  function IsValidPdf(file: UploadedFile): (r: bool)
    ensures r <==> file.fileType == PdfMimeType
  {
    file.fileType == PdfMimeType
  }

  // ---------------------------------------------------------------------------
  // clean_json_response

  const OpenFence: string := "```json"
  const CloseFence: string := "```"

  /** The text between the first "```json" and the next "```" after it, stripped of
      surrounding whitespace; "" when there is no such pair. This is the leftmost match of
      the lazy pattern "```json(.*?)```" with DOTALL: "```json" cannot overlap itself, so
      the leftmost place a match can start is the first "```json", and the lazy group ends
      at the first "```" that follows it. */
  function CleanJsonResponse(response: string): (r: string)
    ensures |r| <= |response|
    ensures r == [] || (!IsSpace(r[0]) && !IsSpace(r[|r| - 1]))
  {
    match IndexOf(response, OpenFence, 0)
    case None => ""
    case Some(start) =>
      match IndexOf(response, CloseFence, start + |OpenFence|)
      case None => ""
      case Some(end) =>
        StripIsSlice(response[start + |OpenFence|..end]);
        Strip(response[start + |OpenFence|..end])
  }

  /** The fence stripper yields "" when either fence is missing; otherwise what it yields
      holds no "```" and neither begins nor ends with whitespace. */
  lemma CleanJsonResponseShape(response: string)
    ensures IndexOf(response, OpenFence, 0).None? ==> CleanJsonResponse(response) == ""
    ensures IndexOf(response, OpenFence, 0).Some? &&
            IndexOf(response, CloseFence, IndexOf(response, OpenFence, 0).value + |OpenFence|).None?
            ==> CleanJsonResponse(response) == ""
    ensures !Contains(CleanJsonResponse(response), CloseFence)
    ensures var r := CleanJsonResponse(response);
            r == [] || (!IsSpace(r[0]) && !IsSpace(r[|r| - 1]))
  {
    var r := CleanJsonResponse(response);
    match IndexOf(response, OpenFence, 0)
    case None =>
      assert !OccursAt(r, CloseFence, 0);
    case Some(start) =>
      var from := start + |OpenFence|;
      match IndexOf(response, CloseFence, from)
      case None =>
        assert !OccursAt(r, CloseFence, 0);
      case Some(end) =>
        SliceAvoids(response, CloseFence, from, end);
        StripAvoids(response[from..end], CloseFence);
        StripIsSlice(response[from..end]);
  }

  /** Stripping takes a contiguous slice, so it cannot create an occurrence. */
  lemma {:induction false} StripAvoids(s: string, pat: string)
    requires !Contains(s, pat)
    ensures !Contains(Strip(s), pat)
  {
    StripIsSlice(s);
    var r := Strip(s);
    var off := |s| - |TrimLeft(s)|;
    SliceAvoids(s, pat, off, off + |r|);
  }

  /** The fence stripper gives back any payload that was wrapped in a "```json" block:
      whatever precedes the block (if it holds no "```json"), whatever whitespace pads the
      payload, and whatever follows the closing fence are all dropped. */
  lemma {:induction false} CleanJsonResponseRoundTrip(before: string, lead: string, payload: string, trail: string, after: string)
    requires IndexOf(before, OpenFence, 0).None?
    requires AllSpace(lead) && AllSpace(trail)
    requires payload == [] || (!IsSpace(payload[0]) && !IsSpace(payload[|payload| - 1]))
    requires !Contains(payload, CloseFence)
    requires payload == [] || payload[|payload| - 1] != '`'
    ensures CleanJsonResponse(before + OpenFence + lead + payload + trail + CloseFence + after) == payload
  {
    var s := before + OpenFence + lead + payload + trail + CloseFence + after;
    var end := |before| + |OpenFence| + |lead| + |payload| + |trail|;
    OpenFenceAt(s, before, lead, payload, trail, after);
    CloseFenceFound(before, lead, payload, trail, after, s);
    PaddedPayloadAt(s, before, lead, payload, trail, after);
    CleanJsonResponseBetween(s, |before|, end);
    StripWrapped(lead, payload, trail);
  }

  /** In a wrapped payload, the opening fence is found where it was put. */
  lemma OpenFenceAt(s: string, before: string, lead: string, payload: string, trail: string, after: string)
    requires s == before + OpenFence + lead + payload + trail + CloseFence + after
    requires IndexOf(before, OpenFence, 0).None?
    ensures IndexOf(s, OpenFence, 0) == Some(|before|)
  {
    var rest := lead + payload + trail + CloseFence + after;
    assert s == before + OpenFence + rest by {
      Assoc7(before, OpenFence, lead, payload, trail, CloseFence, after);
    }
    OpenFenceFound(before, rest, s);
  }

  /** Between the fences of a wrapped payload lies the padded payload. */
  lemma PaddedPayloadAt(s: string, before: string, lead: string, payload: string, trail: string, after: string)
    requires s == before + OpenFence + lead + payload + trail + CloseFence + after
    ensures s[|before| + |OpenFence|..|before| + |OpenFence| + |lead| + |payload| + |trail|] == lead + payload + trail
  {
    var inner := lead + payload + trail;
    assert s == before + OpenFence + inner + (CloseFence + after);
    SliceOfConcat(before + OpenFence, inner, CloseFence + after, s);
  }

  lemma Assoc7(a: string, b: string, c: string, d: string, e: string, f: string, g: string)
    ensures a + b + (c + d + e + f + g) == a + b + c + d + e + f + g
  {
  }

  /** Once both fences are located, the result is the stripped text between them. */
  lemma {:induction false} CleanJsonResponseBetween(s: string, start: nat, end: nat)
    requires IndexOf(s, OpenFence, 0) == Some(start)
    requires IndexOf(s, CloseFence, start + |OpenFence|) == Some(end)
    requires start + |OpenFence| <= end <= |s|
    ensures CleanJsonResponse(s) == Strip(s[start + |OpenFence|..end])
  {
  }

  lemma SliceOfConcat(a: string, b: string, c: string, s: string)
    requires s == a + b + c
    ensures s[|a|..|a| + |b|] == b
  {
  }

  /** The first "```json" of `before + "```json" + rest` is the one after `before`. */
  lemma OpenFenceFound(before: string, rest: string, s: string)
    requires IndexOf(before, OpenFence, 0).None?
    requires s == before + OpenFence + rest
    ensures IndexOf(s, OpenFence, 0) == Some(|before|)
  {
    assert OccursAt(s, OpenFence, |before|) by {
      assert s[|before|..|before| + 7] == OpenFence;
    }
    forall i: nat | i < |before|
      ensures !OccursAt(s, OpenFence, i)
    {
      NoOpenFenceBefore(before, rest, s, i);
    }
    IndexOfIsFirst(s, OpenFence, 0, |before|);
  }

  /** The first "```" after the opening fence is the closing one. */
  lemma CloseFenceFound(before: string, lead: string, payload: string, trail: string, after: string, s: string)
    requires s == before + OpenFence + lead + payload + trail + CloseFence + after
    requires AllSpace(lead) && AllSpace(trail)
    requires !Contains(payload, CloseFence)
    requires payload == [] || payload[|payload| - 1] != '`'
    ensures IndexOf(s, CloseFence, |before| + |OpenFence|) == Some(|before| + |OpenFence| + |lead| + |payload| + |trail|)
  {
    var from := |before| + |OpenFence|;
    var end := from + |lead| + |payload| + |trail|;
    assert OccursAt(s, CloseFence, end) by {
      assert s[end..end + 3] == CloseFence;
    }
    forall i: nat | from <= i < end
      ensures !OccursAt(s, CloseFence, i)
    {
      NoCloseFenceInside(before, lead, payload, trail, after, s, i);
    }
    IndexOfIsFirst(s, CloseFence, from, end);
  }

  /** `IndexOf` finds an occurrence when nothing earlier matches. */
  lemma IndexOfIsFirst(s: string, pat: string, from: nat, at: nat)
    requires from <= at && OccursAt(s, pat, at)
    requires forall i: nat :: from <= i < at ==> !OccursAt(s, pat, i)
    ensures IndexOf(s, pat, from) == Some(at)
  {
  }

  /** No "```json" starts inside `before`, not even one that would run into the fence
      after it: that would need a proper prefix of "```json" to equal a proper suffix. */
  lemma NoOpenFenceBefore(before: string, rest: string, s: string, i: nat)
    requires IndexOf(before, OpenFence, 0).None?
    requires s == before + OpenFence + rest
    requires i < |before|
    ensures !OccursAt(s, OpenFence, i)
  {
    if i + 7 <= |before| {
      assert !OccursAt(before, OpenFence, i);
      assert s[..|before|] == before;
      assert s[i..i + 7] == s[..|before|][i..i + 7];
    } else {
      assert s[|before|..|before| + 7] == OpenFence;
      OpenFenceNoBorder(s, i, |before|);
    }
  }

  /** "```json" has no proper border: two occurrences cannot overlap. */
  lemma OpenFenceNoBorder(s: string, i: nat, b: nat)
    requires i < b < i + 7
    requires OccursAt(s, OpenFence, b)
    ensures !OccursAt(s, OpenFence, i)
  {
    var d := b - i;
    var t := if d <= 3 then 3 - d else 0;
    assert s[b + t] == s[b..b + 7][t] == OpenFence[t] != OpenFence[d + t];
    assert i + 7 <= |s| ==> s[i..i + 7][d + t] == s[b + t];
  }

  /** Between the fences only whitespace and the payload occur, so the first "```" after the
      opening fence is the closing one. */
  lemma NoCloseFenceInside(before: string, lead: string, payload: string, trail: string, after: string, s: string, i: nat)
    requires s == before + OpenFence + lead + payload + trail + CloseFence + after
    requires AllSpace(lead) && AllSpace(trail)
    requires !Contains(payload, CloseFence)
    requires payload == [] || payload[|payload| - 1] != '`'
    requires |before| + 7 <= i < |before| + 7 + |lead| + |payload| + |trail|
    ensures !OccursAt(s, CloseFence, i)
  {
    var p0 := |before| + 7 + |lead|;
    var p1 := p0 + |payload|;
    if i < p0 {
      assert s[i] == lead[i - (|before| + 7)];
      assert i + 3 <= |s| && s[i..i + 3][0] == s[i];
    } else if i >= p1 {
      assert s[i] == trail[i - p1];
      assert i + 3 <= |s| && s[i..i + 3][0] == s[i];
    } else if i + 3 <= p1 {
      assert s[i..i + 3] == payload[i - p0..i - p0 + 3];
      assert !OccursAt(payload, CloseFence, i - p0);
    } else {
      // the occurrence would run past the payload, whose last character is not '`'
      assert s[p1 - 1] == payload[|payload| - 1];
      assert i + 3 <= |s| && s[i..i + 3][p1 - 1 - i] == s[p1 - 1];
    }
  }

  // ---------------------------------------------------------------------------
  // process_content, traverse_json, postprocess_json

  /** A flattened record: the leaf value and the metadata built on the way to it. */
  datatype Record = Record(content: Json, metadata: map<string, string>)

  const ChunkContentKey: string := "chunk_content"

  /** The metadata key for a heading at a nesting level: `f"heading{level}"`. */
  function Heading(level: nat): (k: string)
    ensures |k| > 7 && k[..7] == "heading"
  {
    "heading" + NatToDecimal(level)
  }

  lemma HeadingInjective(a: nat, b: nat)
    requires Heading(a) == Heading(b)
    ensures a == b
  {
    assert Heading(a)[7..] == NatToDecimal(a);
    assert Heading(b)[7..] == NatToDecimal(b);
    NatToDecimalInjective(a, b);
  }

  lemma HeadingIsNotChunkKey(level: nat)
    ensures Heading(level) != ChunkContentKey
  {
    assert Heading(level)[0] == 'h';
  }

  /** The record `process_content` appends for a leaf: a list is flattened into its items'
      `str` forms joined by newlines and flagged `chunk_content: "no"`; any other value is
      kept as it is and flagged `"yes"`. The flag is added on top of a copy of `metadata`. */
  function ProcessedRecord(value: Json, metadata: map<string, string>, repr: Json -> string): (r: Record)
    ensures r.metadata.Keys == metadata.Keys + {ChunkContentKey}
    ensures r.metadata[ChunkContentKey] == (if value.JList? then "no" else "yes")
    ensures forall k :: k in metadata && k != ChunkContentKey ==> r.metadata[k] == metadata[k]
    ensures value.JList? ==> r.content == JString(Join(ItemStrings(value.items, repr), "\n"))
    ensures !value.JList? ==> r.content == value
  {
    if value.JList? then
      Record(JString(Join(ItemStrings(value.items, repr), "\n")), metadata[ChunkContentKey := "no"])
    else
      Record(value, metadata[ChunkContentKey := "yes"])
  }

  /** The `str` form of every item of a list, in list order. */
  function ItemStrings(items: seq<Json>, repr: Json -> string): (r: seq<string>)
    ensures |r| == |items|
    ensures forall i :: 0 <= i < |items| ==> r[i] == PyStr(items[i], repr)
  {
    seq(|items|, i requires 0 <= i < |items| => PyStr(items[i], repr))
  }

  /** The records a walk over `fields` appends, in the order the walk appends them. */
  function FlattenFields(fields: seq<(string, Json)>, metadata: map<string, string>, level: nat, repr: Json -> string): seq<Record>
    decreases SizeOfFields(fields), 1
  {
    if fields == [] then []
    else
      var last := fields[|fields| - 1];
      FieldSmaller(fields, |fields| - 1);
      FlattenFields(fields[..|fields| - 1], metadata, level, repr) + FlattenEntry(last.0, last.1, metadata, level, repr)
  }

  /** The records one key/value pair contributes at `level`. */
  function FlattenEntry(key: string, value: Json, metadata: map<string, string>, level: nat, repr: Json -> string): seq<Record>
    decreases Size(value), 0
  {
    var withHeading := metadata[Heading(level) := key];
    if value.JObject? then FlattenFields(value.fields, withHeading, level + 1, repr)
    else [ProcessedRecord(value, withHeading, repr)]
  }

  /** A nested empty object contributes no record, not even one for its own key. */
  lemma EmptyObjectEmitsNothing(key: string, metadata: map<string, string>, level: nat, repr: Json -> string)
    ensures FlattenEntry(key, JObject([]), metadata, level, repr) == []
  {
  }

  /** The list that the walk appends to (`processed_data`), shared by all levels. */
  class ProcessedData {
    var records: seq<Record>

    constructor ()
      ensures records == []
    {
      records := [];
    }
  }

  /** `process_content(key, value, metadata, processed_data)`: appends exactly one record. */
  method ProcessContent(key: string, value: Json, metadata: map<string, string>, processed: ProcessedData, repr: Json -> string)
    modifies processed
    ensures processed.records == old(processed.records) + [ProcessedRecord(value, metadata, repr)]
  {
    var content := value;
    var chunkContent := "yes";
    if value.JList? {
      content := JString(Join(ItemStrings(value.items, repr), "\n"));
      chunkContent := "no";
    }
    processed.records := processed.records + [Record(content, metadata[ChunkContentKey := chunkContent])];
  }

  /** `traverse_json(obj, parent_metadata, processed_data, heading_level)`: appends the records
      of every leaf under `obj`, depth first, in key order. */
  method TraverseJson(obj: seq<(string, Json)>, parentMetadata: map<string, string>, processed: ProcessedData,
                      headingLevel: nat, repr: Json -> string)
    requires DecodedFields(obj)
    modifies processed
    ensures processed.records == old(processed.records) + FlattenFields(obj, parentMetadata, headingLevel, repr)
    decreases SizeOfFields(obj), 1
  {
    for i := 0 to |obj|
      invariant processed.records == old(processed.records) + FlattenFields(obj[..i], parentMetadata, headingLevel, repr)
    {
      FieldSmaller(obj, i);
      TraverseEntry(obj[i].0, obj[i].1, parentMetadata, processed, headingLevel, repr);
      FlattenFieldsStep(obj, i, parentMetadata, headingLevel, repr);
    }
    assert obj[..|obj|] == obj;
  }

  /** One pass of the loop of `traverse_json`: the key goes into a fresh copy of the metadata
      under `heading<level>`; an object is walked one level deeper, any other value becomes
      a record. */
  method TraverseEntry(key: string, value: Json, parentMetadata: map<string, string>, processed: ProcessedData,
                       headingLevel: nat, repr: Json -> string)
    requires Decoded(value)
    modifies processed
    ensures processed.records == old(processed.records) + FlattenEntry(key, value, parentMetadata, headingLevel, repr)
    decreases Size(value), 0
  {
    var newMetadata := parentMetadata[Heading(headingLevel) := key];
    if value.JObject? {
      TraverseJson(value.fields, newMetadata, processed, headingLevel + 1, repr);
    } else {
      ProcessContent(key, value, newMetadata, processed, repr);
    }
  }

  /** Walking one more pair appends that pair's records. */
  lemma {:induction false} FlattenFieldsStep(obj: seq<(string, Json)>, i: nat, metadata: map<string, string>, level: nat, repr: Json -> string)
    requires i < |obj|
    ensures FlattenFields(obj[..i + 1], metadata, level, repr)
            == FlattenFields(obj[..i], metadata, level, repr) + FlattenEntry(obj[i].0, obj[i].1, metadata, level, repr)
  {
    assert obj[..i + 1][..i] == obj[..i];
  }

  /** `postprocess_json(json_data)`: walks every top-level pair on its own, from level 1 with
      empty metadata, into one fresh list. The result is the walk of the whole object. */
  method PostprocessJson(jsonData: seq<(string, Json)>, repr: Json -> string) returns (records: seq<Record>)
    requires DecodedFields(jsonData)
    ensures records == FlattenFields(jsonData, map[], 1, repr)
  {
    var processed := new ProcessedData();
    for i := 0 to |jsonData|
      invariant processed.records == FlattenFields(jsonData[..i], map[], 1, repr)
    {
      TraverseJson([jsonData[i]], map[], processed, 1, repr);
      assert [jsonData[i]][..0] == [];
      assert jsonData[..i + 1][..i] == jsonData[..i];
    }
    assert jsonData[..|jsonData|] == jsonData;
    records := processed.records;
  }

  // ---------------------------------------------------------------------------
  // What the walk produces, stated against the leaves of the object

  /** A leaf of the object: the keys from the root down to it, and its value. */
  datatype Leaf = Leaf(path: seq<string>, value: Json)

  /** The leaves under `fields` in depth-first key order: every value that is not an object,
      with the keys leading to it. An object with no keys has no leaves. */
  function LeavesOfFields(fields: seq<(string, Json)>): (ls: seq<Leaf>)
    ensures forall i :: 0 <= i < |ls| ==> |ls[i].path| >= 1 && !ls[i].value.JObject?
    decreases SizeOfFields(fields), 1
  {
    if fields == [] then []
    else
      var last := fields[|fields| - 1];
      FieldSmaller(fields, |fields| - 1);
      LeavesOfFields(fields[..|fields| - 1]) + LeavesOfEntry(last.0, last.1)
  }

  function LeavesOfEntry(key: string, value: Json): (ls: seq<Leaf>)
    ensures forall i :: 0 <= i < |ls| ==> |ls[i].path| >= 1 && ls[i].path[0] == key && !ls[i].value.JObject?
    decreases Size(value), 0
  {
    if value.JObject? then UnderKey(key, LeavesOfFields(value.fields)) else [Leaf([key], value)]
  }

  /** The same leaves, seen one level up: `key` is put in front of every path. */
  function UnderKey(key: string, ls: seq<Leaf>): (r: seq<Leaf>)
    ensures |r| == |ls|
    ensures forall i :: 0 <= i < |ls| ==> r[i] == Leaf([key] + ls[i].path, ls[i].value)
  {
    if ls == [] then [] else [Leaf([key] + ls[0].path, ls[0].value)] + UnderKey(key, ls[1..])
  }

  /** The metadata a leaf at the end of `path` receives: `heading<level>` set to the first
      key, `heading<level+1>` to the second, and so on, each on top of the previous copy. */
  function WithHeadings(metadata: map<string, string>, path: seq<string>, level: nat): map<string, string>
    decreases |path|
  {
    if path == [] then metadata else WithHeadings(metadata[Heading(level) := path[0]], path[1..], level + 1)
  }

  /** The records for a list of leaves. */
  function RecordsOf(ls: seq<Leaf>, metadata: map<string, string>, level: nat, repr: Json -> string): (r: seq<Record>)
    ensures |r| == |ls|
    ensures forall i :: 0 <= i < |ls| ==> r[i] == ProcessedRecord(ls[i].value, WithHeadings(metadata, ls[i].path, level), repr)
  {
    if ls == [] then [] else [ProcessedRecord(ls[0].value, WithHeadings(metadata, ls[0].path, level), repr)] + RecordsOf(ls[1..], metadata, level, repr)
  }

  lemma {:induction false} RecordsOfAppend(a: seq<Leaf>, b: seq<Leaf>, metadata: map<string, string>, level: nat, repr: Json -> string)
    ensures RecordsOf(a + b, metadata, level, repr) == RecordsOf(a, metadata, level, repr) + RecordsOf(b, metadata, level, repr)
  {
    var l, r, rs := RecordsOf(a + b, metadata, level, repr), RecordsOf(a, metadata, level, repr), RecordsOf(b, metadata, level, repr);
    assert |l| == |r + rs|;
    forall i | 0 <= i < |l| ensures l[i] == (r + rs)[i] {
      if i < |a| { assert (a + b)[i] == a[i]; } else { assert (a + b)[i] == b[i - |a|]; }
    }
  }

  /** The walk emits exactly one record per leaf, in depth-first key order, and the record of
      a leaf carries the headings of its key path on top of the starting metadata. */
  lemma {:induction false} FlattenIsRecordsOfLeaves(fields: seq<(string, Json)>, metadata: map<string, string>, level: nat, repr: Json -> string)
    ensures FlattenFields(fields, metadata, level, repr) == RecordsOf(LeavesOfFields(fields), metadata, level, repr)
    decreases SizeOfFields(fields), 1
  {
    if fields != [] {
      var init, last := fields[..|fields| - 1], fields[|fields| - 1];
      FieldSmaller(fields, |fields| - 1);
      FlattenIsRecordsOfLeaves(init, metadata, level, repr);
      EntryIsRecordsOfLeaves(last.0, last.1, metadata, level, repr);
      RecordsOfAppend(LeavesOfFields(init), LeavesOfEntry(last.0, last.1), metadata, level, repr);
    }
  }

  lemma {:induction false} EntryIsRecordsOfLeaves(key: string, value: Json, metadata: map<string, string>, level: nat, repr: Json -> string)
    ensures FlattenEntry(key, value, metadata, level, repr) == RecordsOf(LeavesOfEntry(key, value), metadata, level, repr)
    decreases Size(value), 0
  {
    if value.JObject? {
      var inner := LeavesOfFields(value.fields);
      FlattenIsRecordsOfLeaves(value.fields, metadata[Heading(level) := key], level + 1, repr);
      var l := RecordsOf(UnderKey(key, inner), metadata, level, repr);
      var r := RecordsOf(inner, metadata[Heading(level) := key], level + 1, repr);
      var under := UnderKey(key, inner);
      assert |l| == |inner| == |r|;
      forall i | 0 <= i < |inner| ensures l[i] == r[i] {
        var p := [key] + inner[i].path;
        assert under[i] == Leaf(p, inner[i].value);
        assert p[0] == key && p[1..] == inner[i].path;
        assert WithHeadings(metadata, p, level) == WithHeadings(metadata[Heading(level) := key], inner[i].path, level + 1);
      }
      assert l == r;
      assert LeavesOfEntry(key, value) == under;
      assert FlattenEntry(key, value, metadata, level, repr) == FlattenFields(value.fields, metadata[Heading(level) := key], level + 1, repr);
    } else {
      assert [key][1..] == [];
      assert WithHeadings(metadata, [key], level) == WithHeadings(metadata[Heading(level) := key], [], level + 1);
    }
  }

  /** No two leaves have the same key path. */
  predicate DistinctPaths(ls: seq<Leaf>)
  {
    forall i, j :: 0 <= i < j < |ls| ==> ls[i].path != ls[j].path
  }

  /** Every leaf under `fields` hangs below one of their keys. */
  lemma {:induction false} LeafRootKeys(fields: seq<(string, Json)>)
    ensures forall i :: 0 <= i < |LeavesOfFields(fields)| ==>
              exists k :: 0 <= k < |fields| && LeavesOfFields(fields)[i].path[0] == fields[k].0
    decreases |fields|
  {
    if fields != [] {
      var init, last := fields[..|fields| - 1], fields[|fields| - 1];
      LeafRootKeys(init);
      var a, b := LeavesOfFields(init), LeavesOfEntry(last.0, last.1);
      var ls := LeavesOfFields(fields);
      assert ls == a + b;
      forall i | 0 <= i < |ls| ensures exists k :: 0 <= k < |fields| && ls[i].path[0] == fields[k].0 {
        if i < |a| {
          var k :| 0 <= k < |init| && a[i].path[0] == init[k].0;
          assert init[k] == fields[k];
        } else {
          assert ls[i] == b[i - |a|];
          assert ls[i].path[0] == fields[|fields| - 1].0;
        }
      }
    } else {
      assert LeavesOfFields(fields) == [];
    }
  }

  /** In a decoded object no two leaves share a key path, so every record of the walk
      stands for a different place in the object. */
  lemma {:induction false} FieldsPathsDistinct(fields: seq<(string, Json)>)
    requires DecodedFields(fields)
    ensures DistinctPaths(LeavesOfFields(fields))
    decreases SizeOfFields(fields), 1
  {
    if fields != [] {
      var n := |fields| - 1;
      var init, last := fields[..n], fields[n];
      FieldSmaller(fields, n);
      forall i | 0 <= i < |init| ensures Decoded(init[i].1) {
        assert init[i] == fields[i];
      }
      forall i, j | 0 <= i < j < |init| ensures init[i].0 != init[j].0 {
        assert init[i] == fields[i] && init[j] == fields[j];
      }
      FieldsPathsDistinct(init);
      EntryPathsDistinct(last.0, last.1);
      LeafRootKeys(init);
      var a, b := LeavesOfFields(init), LeavesOfEntry(last.0, last.1);
      var ls := LeavesOfFields(fields);
      assert ls == a + b;
      forall i, j | 0 <= i < j < |ls| ensures ls[i].path != ls[j].path {
        if j < |a| {
          assert ls[i] == a[i] && ls[j] == a[j];
        } else if i >= |a| {
          assert ls[i] == b[i - |a|] && ls[j] == b[j - |a|];
        } else {
          assert ls[i] == a[i] && ls[j] == b[j - |a|];
          var k :| 0 <= k < |init| && a[i].path[0] == init[k].0;
          assert init[k] == fields[k];
          assert fields[k].0 != fields[n].0;
          assert ls[i].path[0] != ls[j].path[0];
        }
      }
    }
  }

  lemma {:induction false} EntryPathsDistinct(key: string, value: Json)
    requires Decoded(value)
    ensures DistinctPaths(LeavesOfEntry(key, value))
    decreases Size(value), 0
  {
    if value.JObject? {
      FieldsPathsDistinct(value.fields);
      var inner := LeavesOfFields(value.fields);
      var u := UnderKey(key, inner);
      assert LeavesOfEntry(key, value) == u;
      forall i, j | 0 <= i < j < |u| ensures u[i].path != u[j].path {
        assert u[i].path[1..] == inner[i].path;
        assert u[j].path[1..] == inner[j].path;
      }
    }
  }

  /** Two different records of `postprocess_json` on a decoded object never carry the same
      metadata: their heading paths differ in length or at some level. */
  lemma PostprocessedMetadataDistinct(jsonData: seq<(string, Json)>, repr: Json -> string, i: nat, j: nat)
    requires DecodedFields(jsonData)
    requires i < j < |LeavesOfFields(jsonData)|
    ensures |FlattenFields(jsonData, map[], 1, repr)| == |LeavesOfFields(jsonData)|
    ensures FlattenFields(jsonData, map[], 1, repr)[i].metadata != FlattenFields(jsonData, map[], 1, repr)[j].metadata
  {
    var leaves := LeavesOfFields(jsonData);
    FieldsPathsDistinct(jsonData);
    var p, q := leaves[i].path, leaves[j].path;
    assert p != q;
    if |p| == |q| {
      var t :| 0 <= t < |p| && p[t] != q[t];
      PostprocessedRecordAt(jsonData, repr, i, t);
      PostprocessedRecordAt(jsonData, repr, j, t);
    } else if |p| < |q| {
      PostprocessedRecordAt(jsonData, repr, i, 0);
      PostprocessedRecordAt(jsonData, repr, j, |q| - 1);
      MissingHeading(jsonData, repr, i, |q|);
    } else {
      PostprocessedRecordAt(jsonData, repr, j, 0);
      PostprocessedRecordAt(jsonData, repr, i, |p| - 1);
      MissingHeading(jsonData, repr, j, |p|);
    }
  }

  /** A record carries no heading deeper than its leaf. */
  lemma MissingHeading(jsonData: seq<(string, Json)>, repr: Json -> string, i: nat, level: nat)
    requires i < |LeavesOfFields(jsonData)| && level > |LeavesOfFields(jsonData)[i].path|
    ensures |FlattenFields(jsonData, map[], 1, repr)| == |LeavesOfFields(jsonData)|
    ensures Heading(level) !in FlattenFields(jsonData, map[], 1, repr)[i].metadata
  {
    PostprocessedRecordAt(jsonData, repr, i, 0);
    var path := LeavesOfFields(jsonData)[i].path;
    HeadingIsNotChunkKey(level);
    forall d | 1 <= d <= |path| ensures Heading(level) != Heading(d) {
      if Heading(level) == Heading(d) { HeadingInjective(level, d); }
    }
  }

  /** Deeper headings never overwrite a shallower one, nor the caller's other keys. */
  lemma {:induction false} WithHeadingsKeeps(metadata: map<string, string>, path: seq<string>, level: nat, k: string)
    requires forall j :: level <= j < level + |path| ==> k != Heading(j)
    ensures (k in WithHeadings(metadata, path, level)) == (k in metadata)
    ensures k in metadata ==> WithHeadings(metadata, path, level)[k] == metadata[k]
    decreases |path|
  {
    if path != [] {
      assert k != Heading(level);
      WithHeadingsKeeps(metadata[Heading(level) := path[0]], path[1..], level + 1, k);
    }
  }

  /** The `t`-th key of the path ends up under `heading<level+t>`. */
  lemma {:induction false} WithHeadingsAt(metadata: map<string, string>, path: seq<string>, level: nat, t: nat)
    requires t < |path|
    ensures Heading(level + t) in WithHeadings(metadata, path, level)
    ensures WithHeadings(metadata, path, level)[Heading(level + t)] == path[t]
    decreases |path|
  {
    var next := metadata[Heading(level) := path[0]];
    if t == 0 {
      forall j | level + 1 <= j < level + 1 + |path[1..]| ensures Heading(level) != Heading(j) {
        if Heading(level) == Heading(j) { HeadingInjective(level, j); }
      }
      WithHeadingsKeeps(next, path[1..], level + 1, Heading(level));
    } else {
      WithHeadingsAt(next, path[1..], level + 1, t - 1);
      assert level + 1 + (t - 1) == level + t;
    }
  }

  /** The records `postprocess_json` returns, leaf by leaf: the `i`-th record belongs to the
      `i`-th leaf in depth-first key order; its `heading1` ... `heading<d>` hold the leaf's key
      path, its `chunk_content` says whether the leaf was a list, nothing else is in its
      metadata, and its content is the leaf value (a list joined into a string). */
  lemma {:induction false} PostprocessedRecordAt(jsonData: seq<(string, Json)>, repr: Json -> string, i: nat, t: nat)
    requires i < |LeavesOfFields(jsonData)|
    ensures |FlattenFields(jsonData, map[], 1, repr)| == |LeavesOfFields(jsonData)|
    ensures var leaf := LeavesOfFields(jsonData)[i];
            var rec := FlattenFields(jsonData, map[], 1, repr)[i];
            && rec == ProcessedRecord(leaf.value, WithHeadings(map[], leaf.path, 1), repr)
            && rec.metadata[ChunkContentKey] == (if leaf.value.JList? then "no" else "yes")
            && (!leaf.value.JList? ==> rec.content == leaf.value)
            && (t < |leaf.path| ==> Heading(1 + t) in rec.metadata && rec.metadata[Heading(1 + t)] == leaf.path[t])
            && (forall k :: k in rec.metadata ==> k == ChunkContentKey || exists j :: 1 <= j <= |leaf.path| && k == Heading(j))
  {
    FlattenIsRecordsOfLeaves(jsonData, map[], 1, repr);
    var leaf := LeavesOfFields(jsonData)[i];
    if t < |leaf.path| {
      LeafHeading(leaf.value, leaf.path, repr, t);
    }
    LeafKeys(leaf.value, leaf.path, repr);
  }

  /** The record made for a leaf at `path` holds the path's `t`-th key under `heading<t+1>`. */
  lemma {:induction false} LeafHeading(value: Json, path: seq<string>, repr: Json -> string, t: nat)
    requires t < |path|
    ensures var rec := ProcessedRecord(value, WithHeadings(map[], path, 1), repr);
            Heading(1 + t) in rec.metadata && rec.metadata[Heading(1 + t)] == path[t]
  {
    WithHeadingsAt(map[], path, 1, t);
    HeadingIsNotChunkKey(1 + t);
  }

  /** The record made for a leaf at `path` has no metadata but its chunk flag and its headings. */
  lemma {:induction false} LeafKeys(value: Json, path: seq<string>, repr: Json -> string)
    ensures var rec := ProcessedRecord(value, WithHeadings(map[], path, 1), repr);
            forall k :: k in rec.metadata ==> k == ChunkContentKey || exists j :: 1 <= j <= |path| && k == Heading(j)
  {
    var m := WithHeadings(map[], path, 1);
    var rec := ProcessedRecord(value, m, repr);
    HeadingsOnly(path);
    forall k | k in rec.metadata
      ensures k == ChunkContentKey || exists j :: 1 <= j <= |path| && k == Heading(j)
    {
      if k != ChunkContentKey {
        assert k in m;
      }
    }
  }

  /** Starting from empty metadata, the walk adds only heading keys, one per level of the path. */
  lemma {:induction false} HeadingsOnly(path: seq<string>)
    ensures forall k :: k in WithHeadings(map[], path, 1) ==> exists j :: 1 <= j <= |path| && k == Heading(j)
  {
    forall k | k in WithHeadings(map[], path, 1)
      ensures exists j :: 1 <= j <= |path| && k == Heading(j)
    {
      if forall j :: 1 <= j <= |path| ==> k != Heading(j) {
        WithHeadingsKeeps(map[], path, 1, k);
      }
    }
  }
}
