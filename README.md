# PhysioLLM diagnosis workflow: a Dafny model

PhysioLLM is a retrieval-augmented assistant for physiotherapists. A clinician describes a
patient, and a LangGraph workflow produces:
- a differential diagnosis grounded in clinical guidelines;
- a hallucination-grader report about that diagnosis.

This project models the deterministic part of that system and proves properties of it. The
language models, the vector store and the web-search tool are abstracted as the oracle
functions of `Graph.Oracles`.

Modules, one per source file (plus shared helpers):

- `Graph` (`graph.dfy`) covers `demo_v1/graph.py`. It holds the state record `GraphState` and
  the six nodes:
  - `translate_query`;
  - `retrieve`: one bundle entry per sub-query, with the top 3 passages;
  - `grade_documents`: each passage graded, only the `"yes"` ones kept in order, and the
    `web_search` flag raised when an entry is left empty;
  - `web_search`: only the empty entries are overwritten with web results;
  - `generate`: the context is serialised and passed to the generator;
  - `check_hallucinations`: the verdict is recorded and the check balance goes down by one.

  It also holds the two routing deciders. The `asyncio.gather` fan-outs are modelled as
  ordered sequential maps: the invocation lists are built first, then graded or searched in
  invocation order.
- `Workflow` (`workflow.dfy`) covers `construct_graph`. It holds the entry point and the
  transition table, with both conditional edges. A run follows the table one node at a time
  until the end. The proof shows that a run always terminates after 1 to max(1, initial
  balance) generate/check rounds, which is 3 for the balance the application starts from. It
  also gives the exact trace of nodes visited.
- `HelperFuncs` (`helper_funcs.dfy`) covers `demo_v1/helper_funcs.py`:
  - the upload check `is_valid_pdf`;
  - `clean_json_response`, which extracts the text between a "```json" fence and the next
    "```" and strips it;
  - the recursive JSON flattener: `process_content`, `traverse_json` and `postprocess_json`.

  The flattener appends to a shared list. That list is the field of the `ProcessedData`
  class, and the flattener functions are methods that modify it.
- `IngestFuncs` (`ingest_funcs.dfy`) covers `create_documents_from_json` in
  `demo_v1/ingest_funcs.py`, which makes one document per top-level key.
- `NaiveRag` (`naive_rag.dfy`) covers `demo_v1/evaluation/naive-rag.py`:
  - the context string of `retrieve_documents`;
  - the Markdown rendering in `generate_diagnosis`.
- `GraderReport` (`app.dfy`) covers `format_to_markdown` of `demo_v1/app.py`.
- `PubMed` (`pubmed.dfy`) covers the file-name sanitiser `CleanName` of `scraper/pubmed.py`.
- The shared modules are:
  - `Text`: joins, concatenations, decimal rendering, Python's `str.isspace`/`strip`, and
    substring search;
  - `PyJson`: decoded JSON values, with objects as ordered key/value pairs, and Python's
    `str()` of them. `Decoded` says that every object holds each key once, as a dict
    returned by `json.loads` does; the walks over decoded objects require it;
  - `Wrappers`: `Option` and `Result`.

What the workflow does not do, as the code stands:
- there is no document-compression node between grading and generation;
- groundedness is the hallucination grader's `score == "yes"`; there is no numeric threshold;
- no node stops the run when an entry is left empty: an entry that web search leaves empty simply stays empty.

## Model

| member | source | states |
|---|---|---|
| Graph.TranslateQuery | demo_v1/graph.py:41-55 | The sub-queries become the translator's answer for the main query. No other field changes. |
| Graph.PageContents | demo_v1/graph.py:73-74 | One string per search hit, in rank order: the hit's page content. |
| Graph.Retrieve | demo_v1/graph.py:59-81 | There is exactly one entry per sub-query, in sub-query order. Entry i's question is sub-query i. Its passages are the page contents of the top-3 search for that sub-query, in rank order. Only `documents` changes. |
| Graph.KeepRelevant | demo_v1/graph.py:117-129 | The passages kept for one entry are those graded exactly "yes": never more than the entry had. Their order and membership are proved by the lemmas below. |
| Graph.GradedEntries | demo_v1/graph.py:118-129 | The graded bundle has as many entries as the input, with the same questions in the same order. |
| Graph.KeepRelevantIsSubsequence | demo_v1/graph.py:118-129 | The passages kept for an entry are an order-preserving subsequence of its passages. |
| Graph.KeepRelevantMembers | demo_v1/graph.py:94-129 | A passage is kept exactly when it is one of the entry's passages and the relevance grader scored it exactly "yes". |
| Graph.KeepRelevantIdempotent | demo_v1/graph.py:118-129 | Filtering an already filtered list again, with the same grader, changes nothing. |
| Graph.WebSearchFlagIff | demo_v1/graph.py:131-137 | The flag is "Yes" exactly when some filtered entry has no passage left. It is "No" exactly when every entry still has one. |
| Graph.Invocations | demo_v1/graph.py:107-113 | Every grader call names an existing passage of an existing entry, together with that entry's question. |
| Graph.GradeAll | demo_v1/graph.py:115 | The gathered grades come back one per call, in call order. |
| Graph.CollectInvocations | demo_v1/graph.py:107-113 | The loop builds the list of grader calls, entry by entry and passage by passage. |
| Graph.FilterRelevant | demo_v1/graph.py:117-129 | The loop starts from entries with empty passage lists and appends each passage graded "yes" to its own entry. |
| Graph.FilteringKeepsRelevant | demo_v1/graph.py:107-129 | Grading in call order and appending the "yes" passages yields, for every entry, exactly its "yes" passages in their original order. |
| Graph.FlagEmptyEntries | demo_v1/graph.py:131-135 | The flag loop computes the web-search flag of the filtered bundle. |
| Graph.GradeDocuments | demo_v1/graph.py:85-137 | The new state is the graded specification. Passages are filtered per entry and the flag is computed from the filtered bundle. Everything else is unchanged. |
| Graph.Contents | demo_v1/graph.py:167-170 | One passage per web result, in result order: the result's `content`. |
| Graph.WebSearch | demo_v1/graph.py:141-173 | The length and every question are unchanged. Non-empty entries are unchanged. Each empty entry is overwritten, not appended to, with the contents of the top-3 web results for its question. Only `documents` changes. |
| Graph.CollectWebSearchCalls | demo_v1/graph.py:154-162 | There is one web-search call per empty entry, in entry order, carrying that entry's question. No call is made for a non-empty entry. |
| Graph.ApplyWebResults | demo_v1/graph.py:167-171 | The in-place overwrite loop replaces exactly the entries that received results. Every other entry is unchanged. |
| Graph.WebSearchEmptyIff | demo_v1/graph.py:154-171 | After web search, an entry is empty exactly when it was empty and the web search returned nothing. The graph does not stop in that case. |
| Graph.FormatContext | demo_v1/graph.py:182-190 | The serialisation loop computes the context: one block per entry, joined by the `***` separator. |
| Graph.ContextSplit | demo_v1/graph.py:182-190 | The context of two consecutive bundles is the first context, the separator, then the second context, in entry order. |
| Graph.ContextStartsWithFirstBlock | demo_v1/graph.py:182-190 | The context starts with "Subquery:\n", then the first question, then "\n\nDocuments:\n". |
| Graph.ContextLength | demo_v1/graph.py:182-190 | The context's length is the sum of its block lengths plus one separator between each pair of neighbouring blocks. |
| Graph.Generate | demo_v1/graph.py:177-200 | Only `generation` changes. It becomes the generator's answer for the serialised context and the main query. |
| Graph.CheckHallucinations | demo_v1/graph.py:204-233 | The balance drops by exactly one. `has_hallucinations` holds exactly when the hallucination grader's score is not "yes". No other field changes. |
| Graph.DecideToGenerateOrWebSearch | demo_v1/graph.py:240-255 | The route is web search exactly when the flag is "Yes", and generate otherwise. |
| Graph.DecideToCheckHallucinationsOrEnd | demo_v1/graph.py:259-279 | The route is retry exactly when hallucinations were found and the balance is still positive, and end otherwise. |
| Graph.QuestionsSurvive | demo_v1/graph.py:68-171 | Retrieval, grading and web search keep one entry per sub-query, and entry i's question stays sub-query i. |
| Workflow.Next | demo_v1/graph.py:348-370 | After grading, the graph goes to web search exactly when the flag is "Yes", and to generate otherwise. After a check, it goes back to generate exactly when there are hallucinations and balance remains, and ends otherwise. |
| Workflow.FixedEdges | demo_v1/graph.py:349-362 | The unconditional edges ignore the state: translate to retrieve; retrieve to grade; web search to generate; generate to check. |
| Workflow.Prelude | demo_v1/graph.py:348-359 | Before the first generation, a run visits 3 nodes, or 4 when web search runs. |
| Workflow.RoundsAlternate | demo_v1/graph.py:360-370 | Within the loop, generate and check alternate, starting with generate. |
| Workflow.Step | demo_v1/graph.py:348-370 | One visit runs the current node and follows its edge. It keeps the run invariant. The pair (non-negative balance, node rank) strictly decreases. |
| Workflow.PreludeStep | demo_v1/graph.py:348-359 | A visit to translate, retrieve, grade or web search runs that node and follows its edge. The balance is untouched, and the trace and state are those of the prelude so far. |
| Workflow.GenerateStep | demo_v1/graph.py:177-200 | A visit to generate makes attempt number `rounds`: the generator's answer for the prepared context and the main query. Then it goes on to the check. |
| Workflow.CheckStep | demo_v1/graph.py:204-233 | A visit to the check grades the current attempt. It goes back to generate only when the attempt was not "yes" and balance remains, and every earlier attempt was not "yes" either. Otherwise it ends, with `has_hallucinations` set exactly when the last attempt was not "yes". |
| Workflow.Run | demo_v1/graph.py:332-372 | A run from the entry point always reaches the end. Its trace is the prelude followed by `rounds` generate/check pairs, with 1 <= rounds <= max(1, initial balance), so at most 3 from the initial value the application uses. The final balance is the initial balance minus `rounds`. If the run ended with hallucinations, the balance is used up. The passages, sub-queries and main query are those of the prepared state. The final generation is the generator's answer for attempt `rounds - 1`. Every earlier attempt was graded not "yes". `has_hallucinations` holds exactly when the last attempt was graded not "yes". A run that stops before using all max(1, initial balance) rounds stopped because its last attempt was graded "yes". |
| Workflow.RunAlwaysGrounded | demo_v1/graph.py:259-279 | With a hallucination grader that always answers "yes", a run makes exactly one attempt, ends without hallucinations, and spends one unit of balance. |
| Workflow.RunNeverGrounded | demo_v1/graph.py:259-279 | With a hallucination grader that never answers "yes", a run makes exactly max(1, initial balance) attempts and ends still flagged. |
| HelperFuncs.IsValidPdf | demo_v1/helper_funcs.py:4-9 | An upload is accepted exactly when its declared type is "application/pdf". |
| HelperFuncs.CleanJsonResponse | demo_v1/helper_funcs.py:67-79 | The result is never longer than the response, and neither begins nor ends with whitespace, as `.strip()` of a slice of it. |
| HelperFuncs.CleanJsonResponseShape | demo_v1/helper_funcs.py:67-79 | The result is "" when there is no "```json", or no "```" after it. The result never contains "```". It neither begins nor ends with whitespace. |
| HelperFuncs.CleanJsonResponseRoundTrip | demo_v1/helper_funcs.py:73-76 | Wrap a stripped payload that contains no "```" in whitespace and fences, after a prefix without "```json". The result is exactly that payload, whatever follows. |
| HelperFuncs.StripAvoids | demo_v1/helper_funcs.py:76 | Stripping cannot create a fence that the matched text did not contain. |
| HelperFuncs.Heading | demo_v1/helper_funcs.py:42 | The heading key of a level is "heading" followed by the level's digits. |
| HelperFuncs.HeadingInjective | demo_v1/helper_funcs.py:42 | Different levels give different heading keys. |
| HelperFuncs.HeadingIsNotChunkKey | demo_v1/helper_funcs.py:31-42 | No heading key collides with "chunk_content". |
| HelperFuncs.ItemStrings | demo_v1/helper_funcs.py:19-22 | The list's items in order, each converted with `str`. |
| HelperFuncs.ProcessedRecord | demo_v1/helper_funcs.py:17-33 | The metadata is the given metadata plus `chunk_content`. The flag is "no" exactly when the value is a list, whose content is then its items' `str` forms joined by "\n". Any other value is kept as is, with "yes". |
| HelperFuncs.ProcessedData.constructor | demo_v1/helper_funcs.py:58 | The shared record list starts empty. |
| HelperFuncs.ProcessContent | demo_v1/helper_funcs.py:12-33 | Appends exactly one record, the processed record of the value, to the shared list. Earlier records are untouched. |
| HelperFuncs.TraverseJson | demo_v1/helper_funcs.py:36-51 | Appends the records of the object's walk, in key order, after the records already in the list. |
| HelperFuncs.TraverseEntry | demo_v1/helper_funcs.py:40-51 | For one key, adds its heading on a fresh copy of the metadata. It then either descends into a nested object one level deeper or processes the leaf. |
| HelperFuncs.EmptyObjectEmitsNothing | demo_v1/helper_funcs.py:45-48 | A nested empty object contributes no record. |
| HelperFuncs.PostprocessJson | demo_v1/helper_funcs.py:54-64 | The result equals walking the whole object from level 1 with empty metadata, into a fresh list. |
| HelperFuncs.FlattenIsRecordsOfLeaves | demo_v1/helper_funcs.py:40-51 | The walk emits exactly one record per non-object leaf, in depth-first key order. |
| HelperFuncs.WithHeadingsAt | demo_v1/helper_funcs.py:42-48 | A leaf at depth d gets heading keys 1 to d, set to its key path from the root. |
| HelperFuncs.WithHeadingsKeeps | demo_v1/helper_funcs.py:42 | Any other key of the parent metadata is carried over unchanged. |
| HelperFuncs.PostprocessedRecordAt | demo_v1/helper_funcs.py:40-64 | The i-th record of `postprocess_json` belongs to the i-th leaf. Its flag and content are those of `process_content`. Its `heading{t}` key is the t-th key on the leaf's path. It has no key other than the headings and `chunk_content`. |
| HelperFuncs.LeafRootKeys | demo_v1/helper_funcs.py:40-42 | Every leaf under an object hangs below one of that object's keys. |
| HelperFuncs.FieldsPathsDistinct | demo_v1/helper_funcs.py:40-51 | In a decoded object, where each dict holds a key once, no two leaves share a key path. |
| HelperFuncs.EntryPathsDistinct | demo_v1/helper_funcs.py:42-48 | The leaves under one key of a decoded value have pairwise different key paths. |
| HelperFuncs.MissingHeading | demo_v1/helper_funcs.py:42-51 | A record carries no heading key deeper than its leaf's depth. |
| HelperFuncs.PostprocessedMetadataDistinct | demo_v1/helper_funcs.py:54-64 | For a decoded object, two different records of `postprocess_json` never carry the same metadata. |
| IngestFuncs.ValueText | demo_v1/ingest_funcs.py:139-142 | Objects and lists are serialised with `json.dumps`. Strings are used as they are. Other scalars use their f-string rendering: "None", "True"/"False", or the integer in decimal. |
| IngestFuncs.DocumentFor | demo_v1/ingest_funcs.py:141-149 | The page content is the key, ": " and the value text. The metadata is the input metadata plus `key`, `source` and `condition`; these three override entries of the same name. Every other entry is copied unchanged. |
| IngestFuncs.CreateDocumentsFromJson | demo_v1/ingest_funcs.py:134-151 | There is exactly one document per top-level key, in key order. The source is the basename of the PDF path. Since a decoded object holds each key once, no two documents carry the same `key`. |
| IngestFuncs.PageContentStartsWithKey | demo_v1/ingest_funcs.py:142 | A document's text begins with its key and ": ". |
| NaiveRag.Segment | demo_v1/evaluation/naive-rag.py:20 | One result's segment is "source:…WebSource:…\n\ncontent:…". If `source` is missing it fails with `KeyError` on `source`; otherwise, if `WebSource` is missing, with `KeyError` on `WebSource`. |
| NaiveRag.RetrieveDocuments | demo_v1/evaluation/naive-rag.py:13-22 | When every top-3 result has both keys, the result is the "\n\n---\n\n" join of their segments, in result order. Otherwise it is the `KeyError` of the first result that lacks one. |
| NaiveRag.GenerateDiagnosisReport | demo_v1/evaluation/naive-rag.py:33-63 | The `+=` rendering computes the report in this order: header, summary, the blocks in order, then references. |
| NaiveRag.AppendDiagnosis | demo_v1/evaluation/naive-rag.py:44-55 | One outer-loop pass appends the numbered block of one diagnosis. |
| NaiveRag.AppendQuotes | demo_v1/evaluation/naive-rag.py:48-53 | The inner loop appends one citation entry per quote, in quote order. |
| NaiveRag.AppendReferences | demo_v1/evaluation/naive-rag.py:58-61 | Appends the references section, which is empty when there are no references. |
| NaiveRag.ReportOpensWithSummary | demo_v1/evaluation/naive-rag.py:33-38 | The report begins with the fixed "## Differential diagnoses…" heading, immediately followed by the "### Summary" section. |
| NaiveRag.DiagnosisBlockAt | demo_v1/evaluation/naive-rag.py:41-55 | The i-th diagnosis, numbered i+1, comes right after the summary and the blocks of the diagnoses before it. |
| NaiveRag.DiagnosisBlockOpens | demo_v1/evaluation/naive-rag.py:44-47 | A block begins with "### Diagnosis {n}: …", then the "**Rationale:**" line, then the in-text citations header. |
| NaiveRag.QuoteEntryAt | demo_v1/evaluation/naive-rag.py:48-53 | Quote j's entry comes right after the citations header and the entries of quotes 0 to j-1. |
| NaiveRag.ReferencesAtEnd | demo_v1/evaluation/naive-rag.py:57-61 | There is a "### References" section exactly when the reference list is non-empty, and it comes after all diagnoses. |
| NaiveRag.ReferenceLineAt | demo_v1/evaluation/naive-rag.py:60-61 | Reference k is the line "- {ref}", placed after the references header and the lines of references 0 to k-1. |
| GraderReport.FormatToMarkdown | demo_v1/app.py:35-64 | The report is the "\n" join of the parts collected in `md`, section by section. |
| GraderReport.OverallParts | demo_v1/app.py:42-45 | The overall assessment is four parts, starting with its header. |
| GraderReport.ReportStartsWithTitle | demo_v1/app.py:39-64 | The rendered report begins with "# Hallucination Grader Report\n", followed by the newline of the join. |
| GraderReport.ReportLayout | demo_v1/app.py:39-62 | The sections come in fixed positions: title; overall assessment; claims header; five parts per claim; hallucinations header; hallucination items. |
| GraderReport.ClaimBlockAt | demo_v1/app.py:49-54 | The claims section has exactly five parts per claim. Claim k's block is parts 5k to 5k+4. |
| GraderReport.ClaimInReport | demo_v1/app.py:48-54 | Claim k's "#### Claim" block is parts 6+5k to 10+5k of the report, in claim order. |
| GraderReport.GroundedLineIff | demo_v1/app.py:52 | The "Is Grounded" line reads Yes exactly when the claim is grounded, and No exactly when it is not. |
| GraderReport.HallucinationSection | demo_v1/app.py:57-62 | There is one "- " item per hallucination, in order. When there are none, the section is exactly "None\n". |
| PubMed.CleanName | scraper/pubmed.py:35-37 | The cleaned name contains no backslash, slash, star, question mark, colon, double quote, angle bracket, vertical bar or full stop, and is never longer than the input. |
| PubMed.CleanNameIsSubsequence | scraper/pubmed.py:37 | The cleaned name is a subsequence of the input: kept characters stay in order. |
| PubMed.CleanNameCounts | scraper/pubmed.py:37 | Every allowed character occurs as often as in the input, and every forbidden one occurs zero times. So the result is the input with the forbidden characters deleted. |
| PubMed.CleanNameUnchangedIff | scraper/pubmed.py:37 | The name is unchanged exactly when it has no forbidden character. Otherwise it gets strictly shorter. |
| PubMed.CleanNameIdempotent | scraper/pubmed.py:37 | Cleaning a cleaned name changes nothing. |
| PyJson.PyStr | demo_v1/helper_funcs.py:20 | `str()` of a string is the string itself. A list or dict is rendered by its `repr`. |
| Text.StripIsSlice | demo_v1/helper_funcs.py:76 | `strip()` returns a contiguous slice of its input. Only whitespace is removed, and the slice neither begins nor ends with whitespace. |
| Text.IndexOf | demo_v1/helper_funcs.py:73 | The search finds the leftmost occurrence at or after the start, or reports that there is none. |

## Left out

- The LLM chains, the vector store and Tavily are oracle functions in `Graph.Oracles`: query translator, retrieval grader, diagnosis generator, hallucination grader. Their prompts and parsing are not modelled, and neither are the modules that build them.
- `Graph.Oracles` are total, deterministic functions of their arguments and the attempt number, and they return already-parsed answers. In a real run, a validation error while parsing a model's output (`QueryTranslatorOutput`, `RetrievalGraderOutput` and `HallucinationGraderOutput` at `demo_v1/graph.py:53`, `:98` and `:217`), a web result without `content` (the `KeyError` at `demo_v1/graph.py:171`) or a failing service aborts the run. The model does not cover any of these.
- Graph.Generate and Graph.CheckHallucinations take the round number as an extra argument, so that a retry may give a different answer. The source passes no such number; the services are simply nondeterministic.
- `asyncio.gather` (graph.py:115 and :165) is modelled as an ordered sequential map. Concurrency and interleaving are not modelled.
- Graph.ApplyWebResults: `web_search` mutates the bundle's dicts in place. The model rebuilds the list as a value, so aliasing of those dicts with the input state is not represented.
- Graph.Retrieve: the similarity score from `similarity_search_with_score` is dropped, because the code never reads it.
- Workflow.Run: LangGraph's recursion limit and its checkpointing are not modelled, and neither is the streaming of node outputs to the UI.
- GraderReport.OverallAssessment: no source file gives the type of `grounded_score` or `confidence` (`demo_v1/app.py` only interpolates them). The model takes their rendered text as its input.
- `json.dumps`, `os.path.basename` and Python's `repr` of lists and dicts are abstract function parameters.
- Metadata values are modelled as strings.
- JSON floats are not part of `PyJson.Json`.
- `HallucinationGraderOutput` in `demo_v1/agents/halluncination_grader.py` has only `score` and `reason`. `format_to_markdown` reads `overall_assessment`, `verified_claims` and `identified_hallucinations`, so its input is modelled as its own record, `GraderReport.GraderOutput`.
- `DiagnosisGeneratorOutput` is imported by `demo_v1/evaluation/naive-rag.py` but not defined in `demo_v1/agents/diagnosis_generator.py`. Its shape is taken from the fields `generate_diagnosis` reads.
- NaiveRag.GenerateDiagnosisReport: the model call before rendering and the trace-file writing in `evaluate` are not modelled.
- `extract_condition_from_content` and `convert_to_markdown_and_json` in `demo_v1/ingest_funcs.py` are left out. They are OpenAI calls plus file checks and writes.
- The Streamlit UI of `demo_v1/app.py` other than `format_to_markdown` is left out.
- The PubMed and Cochrane scrapers other than `CleanName` are left out. They depend on HTTP, Selenium and PDF I/O.
- `print` logging is left out everywhere.
- The ad-hoc `test_nodes` driver in `demo_v1/graph.py` is not part of this model.
- `run_graph` is not part of this model. Its initial balance of 3 is what Workflow.Run's bound is instantiated with.
- HelperFuncs.CleanJsonResponse implements the regular expression "```json(.*?)```" with DOTALL directly, as a search for the first "```json" followed by the first "```" after it. The general regular-expression engine is not modelled.
