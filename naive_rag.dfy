/**
 * The two deterministic pieces of the naive retrieval-augmented baseline: the context
 * string built from the top search results (`retrieve_documents`) and the Markdown report
 * rendered from the diagnosis generator's structured answer (the part of
 * `generate_diagnosis` after the model call).
 */
module NaiveRag {
  import opened Wrappers
  import opened Text

  // ---------------------------------------------------------------------------
  // retrieve_documents

  /** A search result: its text and its metadata (values already rendered as text). */
  datatype SearchHit = SearchHit(pageContent: string, metadata: map<string, string>)

  const SourceKey: string := "source"
  const WebSourceKey: string := "WebSource"
  const DocumentSeparator: string := "\n\n---\n\n"
  /** The number of results asked of the vector store. */
  const TopK: nat := 3

  /** The context segment of one result, or the key whose lookup raises `KeyError`
      (`source` is looked up first). */
  function Segment(hit: SearchHit): (r: Result<string, string>)
    ensures r.Ok? <==> SourceKey in hit.metadata && WebSourceKey in hit.metadata
    ensures r.Err? ==> r.error == (if SourceKey !in hit.metadata then SourceKey else WebSourceKey)
    ensures r.Ok? ==> r.value == "source:" + hit.metadata[SourceKey] + "WebSource:" + hit.metadata[WebSourceKey]
                                 + "\n\ncontent:" + hit.pageContent
  {
    if SourceKey !in hit.metadata then Err(SourceKey)
    else if WebSourceKey !in hit.metadata then Err(WebSourceKey)
    else Ok("source:" + hit.metadata[SourceKey] + "WebSource:" + hit.metadata[WebSourceKey] + "\n\ncontent:" + hit.pageContent)
  }

  /** Every result carries both metadata keys. */
  predicate AllHaveSources(hits: seq<SearchHit>)
  {
    forall i :: 0 <= i < |hits| ==> Segment(hits[i]).Ok?
  }

  /** `retrieve_documents(query)`: `search` stands for the vector store's similarity search.
      The result is the join of the segments in result order; the first result missing a
      key aborts the call with that key. */
  method RetrieveDocuments(query: string, search: (string, nat) -> seq<SearchHit>) returns (r: Result<string, string>)
    ensures var hits := search(query, TopK);
            && (r.Ok? <==> AllHaveSources(hits))
            && (r.Ok? ==> r.value == Join(seq(|hits|, i requires 0 <= i < |hits| && Segment(hits[i]).Ok? => Segment(hits[i]).value),
                                          DocumentSeparator))
            && (r.Err? ==> exists i :: 0 <= i < |hits| && Segment(hits[i]).Err? && r.error == Segment(hits[i]).error &&
                                       AllHaveSources(hits[..i]))
  {
    var results := search(query, TopK);
    var documents: seq<string> := [];
    for i := 0 to |results|
      invariant AllHaveSources(results[..i])
      invariant |documents| == i
      invariant forall j :: 0 <= j < i ==> Segment(results[j]).Ok? && documents[j] == Segment(results[j]).value
    {
      var doc := results[i];
      if SourceKey !in doc.metadata {
        assert AllHaveSources(results[..i]);
        return Err(SourceKey);
      }
      if WebSourceKey !in doc.metadata {
        assert AllHaveSources(results[..i]);
        return Err(WebSourceKey);
      }
      documents := documents + ["source:" + doc.metadata[SourceKey] + "WebSource:" + doc.metadata[WebSourceKey]
                                + "\n\ncontent:" + doc.pageContent];
      assert results[..i + 1][..i] == results[..i];
    }
    assert results[..|results|] == results;
    var segments := seq(|results|, i requires 0 <= i < |results| && Segment(results[i]).Ok? => Segment(results[i]).value);
    assert documents == segments;
    r := Ok(Join(documents, DocumentSeparator));
  }

  // ---------------------------------------------------------------------------
  // generate_diagnosis (rendering)

  /** A supporting quote with its IEEE in-text citation. */
  datatype Quote = Quote(ieeeIntextCitation: string, source: string, text: string)

  /** One differential diagnosis with its rationale and supporting quotes. */
  datatype Diagnosis = Diagnosis(diagnosis: string, rational: string, relevantQuotes: seq<Quote>)

  /** The generator's structured answer. */
  datatype DiagnosisOutput = DiagnosisOutput(summary: string, differentialDiagnoses: seq<Diagnosis>, ieeeReferences: seq<string>)

  const ReportHeader: string := "## Differential diagnoses based on assessments of the patient:\n\n"
  const CitationsHeader: string := "##### In-text citations\n"
  const ReferencesHeader: string := "### References\n"

  function SummarySection(summary: string): string
  {
    "### Summary\n" + summary + "\n"
  }

  /** The heading line of the diagnosis numbered `index`. */
  function DiagnosisHeading(index: nat, d: Diagnosis): string
  {
    "### Diagnosis " + NatToDecimal(index) + ": " + d.diagnosis + "\n"
  }

  function RationaleLine(d: Diagnosis): string
  {
    "**Rationale:** " + d.rational + "\n\n"
  }

  /** The citation entry of one quote: the bracketed citation (with escaped brackets) and the
      source, the quote as an indented list item, and a blank gap. */
  function QuoteEntry(q: Quote): string
  {
    CitationLine(q) + QuoteLine(q) + "\n\n"
  }

  function CitationLine(q: Quote): string
  {
    "\\[" + q.ieeeIntextCitation + "\\]: " + q.source + "\n\n"
  }

  function QuoteLine(q: Quote): string
  {
    "    - " + q.text + "\n"
  }

  function QuoteEntries(quotes: seq<Quote>): (r: seq<string>)
    ensures |r| == |quotes|
  {
    seq(|quotes|, j requires 0 <= j < |quotes| => QuoteEntry(quotes[j]))
  }

  /** Everything the diagnosis numbered `index` contributes up to its citation entries. */
  function DiagnosisOpening(index: nat, d: Diagnosis): string
  {
    DiagnosisHeading(index, d) + RationaleLine(d) + CitationsHeader
  }

  /** The whole block of the diagnosis numbered `index`. */
  function DiagnosisBlock(index: nat, d: Diagnosis): string
  {
    DiagnosisOpening(index, d) + Concat(QuoteEntries(d.relevantQuotes)) + "\n"
  }

  /** The blocks of all diagnoses, numbered from 1 in input order. */
  function DiagnosisBlocks(ds: seq<Diagnosis>): (r: seq<string>)
    ensures |r| == |ds|
  {
    seq(|ds|, i requires 0 <= i < |ds| => DiagnosisBlock(i + 1, ds[i]))
  }

  function ReferenceLine(ref: string): string
  {
    "- " + ref + "\n"
  }

  function ReferenceLines(refs: seq<string>): (r: seq<string>)
    ensures |r| == |refs|
  {
    seq(|refs|, i requires 0 <= i < |refs| => ReferenceLine(refs[i]))
  }

  /** The reference section, omitted when there are no references. */
  function ReferencesSection(refs: seq<string>): string
  {
    if refs == [] then "" else ReferencesHeader + Concat(ReferenceLines(refs))
  }

  /** The rendered report, by sections. */
  function Report(out: DiagnosisOutput): string
  {
    ReportHeader + SummarySection(out.summary) + Concat(DiagnosisBlocks(out.differentialDiagnoses))
    + ReferencesSection(out.ieeeReferences)
  }

  /** Growing a concatenation by one part. */
  lemma ConcatStep(parts: seq<string>, i: nat)
    requires i < |parts|
    ensures Concat(parts[..i + 1]) == Concat(parts[..i]) + parts[i]
  {
    assert parts[..i + 1][..i] == parts[..i];
  }

  /** The rendering loop of `generate_diagnosis`: the report is grown with `+=`, one
      f-string at a time. */
  method GenerateDiagnosisReport(out: DiagnosisOutput) returns (report: string)
    ensures report == Report(out)
  {
    report := ReportHeader;
    report := report + SummarySection(out.summary);
    var ds := out.differentialDiagnoses;
    ghost var base := report;
    ghost var blocks := DiagnosisBlocks(ds);
    for i := 0 to |ds|
      invariant report == base + Concat(blocks[..i])
    {
      assert blocks[i] == DiagnosisBlock(i + 1, ds[i]);
      report := AppendDiagnosis(report, i + 1, ds[i]);
      ConcatStep(blocks, i);
      Assoc(base, Concat(blocks[..i]), blocks[i]);
    }
    assert blocks[..|ds|] == blocks;
    report := AppendReferences(report, out.ieeeReferences);
  }

  /** One pass of the outer loop: the block of the diagnosis numbered `index`. */
  method AppendDiagnosis(report: string, index: nat, diagnosis: Diagnosis) returns (r: string)
    ensures r == report + DiagnosisBlock(index, diagnosis)
  {
    r := report + DiagnosisHeading(index, diagnosis);
    r := r + RationaleLine(diagnosis);
    r := r + CitationsHeader;
    Assoc(report, DiagnosisHeading(index, diagnosis), RationaleLine(diagnosis));
    Assoc(report, DiagnosisHeading(index, diagnosis) + RationaleLine(diagnosis), CitationsHeader);
    r := AppendQuotes(r, diagnosis.relevantQuotes);
    r := r + "\n";
    Assoc(report, DiagnosisOpening(index, diagnosis), Concat(QuoteEntries(diagnosis.relevantQuotes)));
    Assoc(report, DiagnosisOpening(index, diagnosis) + Concat(QuoteEntries(diagnosis.relevantQuotes)), "\n");
  }

  /** The inner loop: one entry per quote, in order. */
  method AppendQuotes(report: string, quotes: seq<Quote>) returns (r: string)
    ensures r == report + Concat(QuoteEntries(quotes))
  {
    r := report;
    for j := 0 to |quotes|
      invariant r == report + Concat(QuoteEntries(quotes)[..j])
    {
      var quote := quotes[j];
      ghost var acc := r;
      r := r + CitationLine(quote);
      r := r + QuoteLine(quote);
      r := r + "\n\n";
      Assoc(acc, CitationLine(quote), QuoteLine(quote));
      Assoc(acc, CitationLine(quote) + QuoteLine(quote), "\n\n");
      ConcatStep(QuoteEntries(quotes), j);
      Assoc(report, Concat(QuoteEntries(quotes)[..j]), QuoteEntry(quote));
    }
    assert QuoteEntries(quotes)[..|quotes|] == QuoteEntries(quotes);
  }

  /** The references section, present only when there are references. */
  method AppendReferences(report: string, refs: seq<string>) returns (r: string)
    ensures r == report + ReferencesSection(refs)
  {
    r := report;
    if refs != [] {
      r := r + ReferencesHeader;
      for k := 0 to |refs|
        invariant r == report + ReferencesHeader + Concat(ReferenceLines(refs)[..k])
      {
        ghost var acc := r;
        r := r + ReferenceLine(refs[k]);
        ConcatStep(ReferenceLines(refs), k);
        Assoc(report + ReferencesHeader, Concat(ReferenceLines(refs)[..k]), ReferenceLine(refs[k]));
      }
      assert ReferenceLines(refs)[..|refs|] == ReferenceLines(refs);
      Assoc(report, ReferencesHeader, Concat(ReferenceLines(refs)));
    } else {
      assert report + ReferencesSection(refs) == report;
    }
  }

  /** The three-way split of a concatenation used by the lemmas below. */
  lemma Slice3(a: string, b: string, c: string)
    ensures |a| + |b| <= |a + b + c|
    ensures (a + b + c)[|a|..|a| + |b|] == b
    ensures (a + b + c)[..|a|] == a
  {
  }

  /** The report opens with the fixed heading, immediately followed by the summary. */
  lemma ReportOpensWithSummary(out: DiagnosisOutput)
    ensures var opening := ReportHeader + SummarySection(out.summary);
            |opening| <= |Report(out)| && Report(out)[..|opening|] == opening
  {
    var opening := ReportHeader + SummarySection(out.summary);
    Slice3(opening, Concat(DiagnosisBlocks(out.differentialDiagnoses)), ReferencesSection(out.ieeeReferences));
  }

  /** The concatenation of `parts` with part `i` in the middle. */
  lemma ConcatAround(parts: seq<string>, i: nat)
    requires i < |parts|
    ensures Concat(parts) == Concat(parts[..i]) + parts[i] + Concat(parts[i + 1..])
  {
    assert parts == parts[..i + 1] + parts[i + 1..];
    ConcatAppend(parts[..i + 1], parts[i + 1..]);
    ConcatStep(parts, i);
  }

  /** Diagnosis `i` (counting from 0) is rendered as the block numbered `i + 1`, right after
      the blocks of the diagnoses before it. */
  lemma DiagnosisBlockAt(out: DiagnosisOutput, i: nat)
    requires i < |out.differentialDiagnoses|
    ensures var ds := out.differentialDiagnoses;
            var prefix := ReportHeader + SummarySection(out.summary) + Concat(DiagnosisBlocks(ds)[..i]);
            var block := DiagnosisBlock(i + 1, ds[i]);
            |prefix| + |block| <= |Report(out)| && Report(out)[|prefix|..|prefix| + |block|] == block
  {
    var ds := out.differentialDiagnoses;
    var blocks := DiagnosisBlocks(ds);
    var opening := ReportHeader + SummarySection(out.summary);
    PartInContext(opening, blocks, i, ReferencesSection(out.ieeeReferences));
    assert blocks[i] == DiagnosisBlock(i + 1, ds[i]);
  }

  /** Part `i` of a concatenation framed by `opening` and `closing` sits right after the
      opening and the parts before it. */
  lemma PartInContext(opening: string, parts: seq<string>, i: nat, closing: string)
    requires i < |parts|
    ensures var prefix := opening + Concat(parts[..i]);
            var whole := opening + Concat(parts) + closing;
            |prefix| + |parts[i]| <= |whole| && whole[|prefix|..|prefix| + |parts[i]|] == parts[i]
  {
    ConcatAround(parts, i);
    var prefix := opening + Concat(parts[..i]);
    var tail := Concat(parts[i + 1..]) + closing;
    Assoc4(opening, Concat(parts[..i]), parts[i], Concat(parts[i + 1..]), closing);
    Slice3(prefix, parts[i], tail);
  }

  lemma Assoc4(a: string, b: string, c: string, d: string, e: string)
    ensures a + (b + c + d) + e == (a + b) + c + (d + e)
  {
  }

  /** A diagnosis block starts with its numbered heading and its rationale line, then the
      citations header. */
  lemma DiagnosisBlockOpens(index: nat, d: Diagnosis)
    ensures var opening := "### Diagnosis " + NatToDecimal(index) + ": " + d.diagnosis + "\n"
                           + "**Rationale:** " + d.rational + "\n\n" + CitationsHeader;
            |opening| <= |DiagnosisBlock(index, d)| && DiagnosisBlock(index, d)[..|opening|] == opening
  {
    Slice3(DiagnosisOpening(index, d), Concat(QuoteEntries(d.relevantQuotes)), "\n");
  }

  /** A diagnosis block has exactly one citation entry per quote, in quote order: entry `j`
      sits right after the opening and the entries of the quotes before it. */
  lemma QuoteEntryAt(index: nat, d: Diagnosis, j: nat)
    requires j < |d.relevantQuotes|
    ensures var before := DiagnosisOpening(index, d) + Concat(QuoteEntries(d.relevantQuotes[..j]));
            var entry := QuoteEntry(d.relevantQuotes[j]);
            |before| + |entry| <= |DiagnosisBlock(index, d)|
            && DiagnosisBlock(index, d)[|before|..|before| + |entry|] == entry
  {
    var qs := d.relevantQuotes;
    var es := QuoteEntries(qs);
    assert es[..j] == QuoteEntries(qs[..j]);
    PartInContext(DiagnosisOpening(index, d), es, j, "\n");
  }

  /** The reference section is there exactly when there are references; it then closes the
      report, after every diagnosis. */
  lemma ReferencesAtEnd(out: DiagnosisOutput)
    ensures var refs := out.ieeeReferences;
            var body := ReportHeader + SummarySection(out.summary) + Concat(DiagnosisBlocks(out.differentialDiagnoses));
            && (refs == [] <==> Report(out) == body)
            && (refs != [] ==> Report(out) == body + ReferencesHeader + Concat(ReferenceLines(refs)))
  {
    var refs := out.ieeeReferences;
    var body := ReportHeader + SummarySection(out.summary) + Concat(DiagnosisBlocks(out.differentialDiagnoses));
    if refs != [] {
      assert |Report(out)| > |body|;
    }
  }

  /** The reference section has one "- " line per reference, in reference order. */
  lemma ReferenceLineAt(refs: seq<string>, k: nat)
    requires k < |refs|
    ensures var before := ReferencesHeader + Concat(ReferenceLines(refs[..k]));
            var line := "- " + refs[k] + "\n";
            |before| + |line| <= |ReferencesSection(refs)|
            && ReferencesSection(refs)[|before|..|before| + |line|] == line
  {
    var ls := ReferenceLines(refs);
    assert ls[..k] == ReferenceLines(refs[..k]);
    ConcatAround(ls, k);
    var before := ReferencesHeader + Concat(ls[..k]);
    Assoc(ReferencesHeader, Concat(ls[..k]) + ls[k], Concat(ls[k + 1..]));
    Assoc(ReferencesHeader, Concat(ls[..k]), ls[k]);
    Slice3(before, ls[k], Concat(ls[k + 1..]));
  }
}
