/**
 * `create_documents_from_json`: one indexable document per top-level key of a converted
 * guideline. Its text is `"<key>: <value>"`, with nested objects and lists serialised first,
 * and its metadata is the caller's metadata with `key`, `source` and `condition` set on top.
 */
module IngestFuncs {
  import opened Text
  import opened PyJson

  /** A LangChain `Document`: its text and its metadata. */
  datatype Document = Document(pageContent: string, metadata: map<string, string>)

  const KeyField: string := "key"
  const SourceField: string := "source"
  const ConditionField: string := "condition"

  /** The text a value contributes: `json.dumps(value, indent=2)` for an object or a list
      (the serialiser is the parameter `dumps`), the f-string rendering otherwise. */
  function ValueText(value: Json, dumps: Json -> string): (r: string)
    ensures value.JObject? || value.JList? ==> r == dumps(value)
    ensures value.JString? ==> r == value.s
    ensures value.JNull? ==> r == "None"
    ensures value.JBool? ==> r == (if value.b then "True" else "False")
    ensures value.JInt? ==> r == IntToDecimal(value.i)
  {
    if value.JObject? || value.JList? then dumps(value) else PyStr(value, dumps)
  }

  /** The document made for one key/value pair. */
  function DocumentFor(key: string, value: Json, source: string, conditionName: string,
                       metadata: map<string, string>, dumps: Json -> string): (d: Document)
    ensures d.pageContent == key + ": " + ValueText(value, dumps)
    ensures d.metadata.Keys == metadata.Keys + {KeyField, SourceField, ConditionField}
    ensures d.metadata[KeyField] == key
    ensures d.metadata[SourceField] == source
    ensures d.metadata[ConditionField] == conditionName
    ensures forall k :: k in metadata && k !in {KeyField, SourceField, ConditionField} ==> d.metadata[k] == metadata[k]
  {
    Document(key + ": " + ValueText(value, dumps),
             metadata[KeyField := key][SourceField := source][ConditionField := conditionName])
  }

  /** `create_documents_from_json(json_data, pdf_path, condition_name, metadata)`: the i-th
      document belongs to the i-th key, and since a decoded object holds each key once, no two
      documents share a key. `basename` stands for `os.path.basename`. The caller's `metadata`
      is a value here, so it cannot be changed by the call. */
  method CreateDocumentsFromJson(jsonData: seq<(string, Json)>, pdfPath: string, conditionName: string,
                                 metadata: map<string, string>, dumps: Json -> string, basename: string -> string)
    returns (documents: seq<Document>)
    requires DecodedFields(jsonData)
    ensures |documents| == |jsonData|
    ensures forall i :: 0 <= i < |jsonData| ==>
              documents[i] == DocumentFor(jsonData[i].0, jsonData[i].1, basename(pdfPath), conditionName, metadata, dumps)
    ensures forall i :: 0 <= i < |documents| ==> KeyField in documents[i].metadata
    ensures forall i, j :: 0 <= i < j < |documents| ==> documents[i].metadata[KeyField] != documents[j].metadata[KeyField]
  {
    documents := [];
    for i := 0 to |jsonData|
      invariant |documents| == i
      invariant forall j :: 0 <= j < i ==>
                  documents[j] == DocumentFor(jsonData[j].0, jsonData[j].1, basename(pdfPath), conditionName, metadata, dumps)
    {
      var (key, value) := jsonData[i];
      var text := if value.JObject? || value.JList? then dumps(value) else PyStr(value, dumps);
      var document := Document(key + ": " + text,
                               metadata[KeyField := key][SourceField := basename(pdfPath)][ConditionField := conditionName]);
      documents := documents + [document];
    }
  }

  /** The text of a document starts with its key and ": ". */
  lemma PageContentStartsWithKey(key: string, value: Json, source: string, conditionName: string,
                                 metadata: map<string, string>, dumps: Json -> string)
    ensures var d := DocumentFor(key, value, source, conditionName, metadata, dumps);
            |d.pageContent| >= |key| + 2 && d.pageContent[..|key| + 2] == key + ": "
  {
  }
}
