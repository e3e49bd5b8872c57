/**
 * The diagnosis workflow's state and its six nodes. A node receives the whole state and
 * returns a copy with some fields replaced (`{**graph_state, ...}`). The language models,
 * the vector store and the web search tool are collected in `Oracles`; everything the
 * nodes do around those calls is modelled here.
 */
module Graph {
  import opened Text

  // ---------------------------------------------------------------------------
  // State

  /** One bundle entry: a sub-query and the passages kept for it. */
  datatype Entry = Entry(question: string, documents: seq<string>)

  /** `GraphState`. The balance is the number of hallucination checks still allowed. */
  datatype GraphState = GraphState(
    mainQuery: string,
    subqueries: seq<string>,
    generation: string,
    webSearch: string,
    documents: seq<Entry>,
    hasHallucinations: bool,
    hallucinationCheckBalance: int)

  /** A vector-store hit; its similarity score plays no part and is left out. */
  datatype SearchHit = SearchHit(pageContent: string)

  /** A web-search result. */
  datatype WebResult = WebResult(url: string, content: string)

  /** The hallucination grader's answer. */
  datatype Verdict = Verdict(score: string, reason: string)

  /** The external services. The generator and the hallucination grader also receive the
      number of the attempt, so that a retry may give a different answer. */
  datatype Oracles = Oracles(
    translate: string -> seq<string>,
    search: (string, nat) -> seq<SearchHit>,
    gradeRelevance: (string, string) -> string,
    webSearch: (string, nat) -> seq<WebResult>,
    generate: (string, string, nat) -> string,
    gradeHallucinations: (seq<Entry>, string, nat) -> Verdict)

  /** Passages requested per sub-query from the vector store. */
  const RetrievalK: nat := 3
  /** Results requested per sub-query from the web search tool. */
  const WebMaxResults: nat := 3
  const Yes: string := "Yes"
  const No: string := "No"
  const DocumentSeparator: string := "\n\n---\n\n"
  const BlockSeparator: string := "\n\n***\n\n"

  // ---------------------------------------------------------------------------
  // translate_query

  /** `translate_query`: replaces the sub-queries by the translator's answer. */
  function TranslateQuery(state: GraphState, o: Oracles): (r: GraphState)
    ensures r.subqueries == o.translate(state.mainQuery)
    ensures r == state.(subqueries := r.subqueries)
  {
    state.(subqueries := o.translate(state.mainQuery))
  }

  // ---------------------------------------------------------------------------
  // retrieve

  function PageContents(hits: seq<SearchHit>): (r: seq<string>)
    ensures |r| == |hits|
    ensures forall j :: 0 <= j < |hits| ==> r[j] == hits[j].pageContent
  {
    seq(|hits|, j requires 0 <= j < |hits| => hits[j].pageContent)
  }

  /** The bundle `retrieve` builds: entry `i` asks sub-query `i` and holds its hits' texts. */
  function RetrievedEntries(subqueries: seq<string>, o: Oracles): seq<Entry>
  {
    seq(|subqueries|, i requires 0 <= i < |subqueries| => Entry(subqueries[i], PageContents(o.search(subqueries[i], RetrievalK))))
  }

  /** `retrieve`: one entry per sub-query, in sub-query order, with the hits in rank order;
      only `documents` changes. */
  method Retrieve(state: GraphState, o: Oracles) returns (r: GraphState)
    ensures |r.documents| == |state.subqueries|
    ensures forall i :: 0 <= i < |state.subqueries| ==>
              r.documents[i].question == state.subqueries[i] &&
              r.documents[i].documents == PageContents(o.search(state.subqueries[i], RetrievalK))
    ensures r == state.(documents := RetrievedEntries(state.subqueries, o))
  {
    var subqueries := state.subqueries;
    var documents: seq<Entry> := [];
    for i := 0 to |subqueries|
      invariant documents == RetrievedEntries(subqueries[..i], o)
    {
      var subquery := subqueries[i];
      var queryResult := Entry(subquery, []);
      var results := o.search(subquery, RetrievalK);
      for j := 0 to |results|
        invariant queryResult == Entry(subquery, PageContents(results[..j]))
      {
        queryResult := queryResult.(documents := queryResult.documents + [results[j].pageContent]);
      }
      assert results[..|results|] == results;
      documents := documents + [queryResult];
    }
    assert subqueries[..|subqueries|] == subqueries;
    r := state.(documents := documents);
  }

  // ---------------------------------------------------------------------------
  // grade_documents

  /** The passages of one entry whose grade is exactly "yes", in their original order: the
      per-entry reference definition of the filter loop in `grade_documents`. */
  function KeepRelevant(docs: seq<string>, question: string, grade: (string, string) -> string): (r: seq<string>)
    ensures |r| <= |docs|
  {
    if docs == [] then []
    else
      KeepRelevant(docs[..|docs| - 1], question, grade)
      + (if grade(docs[|docs| - 1], question) == "yes" then [docs[|docs| - 1]] else [])
  }

  /** The bundle after grading: same questions, filtered passages. */
  function GradedEntries(entries: seq<Entry>, grade: (string, string) -> string): (r: seq<Entry>)
    ensures |r| == |entries|
    ensures forall i :: 0 <= i < |entries| ==> r[i].question == entries[i].question
  {
    seq(|entries|, i requires 0 <= i < |entries| => Entry(entries[i].question, KeepRelevant(entries[i].documents, entries[i].question, grade)))
  }

  /** "Yes" when some entry has no passage left. */
  function WebSearchFlag(entries: seq<Entry>): string
  {
    if exists i :: 0 <= i < |entries| && entries[i].documents == [] then Yes else No
  }

  /** The state `grade_documents` returns. */
  function GradeSpec(state: GraphState, o: Oracles): GraphState
  {
    var filtered := GradedEntries(state.documents, o.gradeRelevance);
    state.(documents := filtered, webSearch := WebSearchFlag(filtered))
  }

  /** One pending grader call: the pair to grade and where its passage sits. */
  datatype Invocation = Invocation(query: string, document: string, queryIndex: nat, documentIndex: nat)

  /** A grading result as `grade_query_document_pair` returns it. */
  datatype Grading = Grading(queryIndex: nat, documentIndex: nat, isRelevant: bool)

  function EntryInvocations(i: nat, e: Entry): (r: seq<Invocation>)
    ensures |r| == |e.documents|
  {
    seq(|e.documents|, j requires 0 <= j < |e.documents| => Invocation(e.question, e.documents[j], i, j))
  }

  /** The relevance-grader calls in the order they are created: entry by entry, passage by passage. */
  function Invocations(entries: seq<Entry>): (r: seq<Invocation>)
    ensures forall t :: 0 <= t < |r| ==> ValidInvocation(r[t], entries)
  {
    if entries == [] then []
    else
      var init := entries[..|entries| - 1];
      var r := Invocations(init) + EntryInvocations(|entries| - 1, entries[|entries| - 1]);
      assert forall t :: 0 <= t < |r| ==> ValidInvocation(r[t], entries) by {
        forall t | 0 <= t < |r| ensures ValidInvocation(r[t], entries) {
          if t < |Invocations(init)| {
            assert ValidInvocation(r[t], init);
            assert init[r[t].queryIndex] == entries[r[t].queryIndex];
          }
        }
      }
      r
  }

  /** An invocation names an existing passage and carries that passage and its question. */
  predicate ValidInvocation(inv: Invocation, entries: seq<Entry>)
  {
    && inv.queryIndex < |entries|
    && inv.documentIndex < |entries[inv.queryIndex].documents|
    && inv.query == entries[inv.queryIndex].question
    && inv.document == entries[inv.queryIndex].documents[inv.documentIndex]
  }

  function GradeOne(inv: Invocation, grade: (string, string) -> string): Grading
  {
    Grading(inv.queryIndex, inv.documentIndex, grade(inv.document, inv.query) == "yes")
  }

  /** `asyncio.gather` over the invocations: the results in invocation order. */
  function GradeAll(invs: seq<Invocation>, grade: (string, string) -> string): (r: seq<Grading>)
    ensures |r| == |invs|
    ensures forall t :: 0 <= t < |invs| ==> r[t] == GradeOne(invs[t], grade)
  {
    seq(|invs|, t requires 0 <= t < |invs| => GradeOne(invs[t], grade))
  }

  predicate ValidGradings(gs: seq<Grading>, entries: seq<Entry>)
  {
    forall t :: 0 <= t < |gs| ==>
      gs[t].queryIndex < |entries| && gs[t].documentIndex < |entries[gs[t].queryIndex].documents|
  }

  /** The bundle `grade_documents` starts from: every question, no passage. */
  function EmptyEntries(entries: seq<Entry>): (r: seq<Entry>)
    ensures |r| == |entries|
  {
    seq(|entries|, i requires 0 <= i < |entries| => Entry(entries[i].question, []))
  }

  /** One step of the filtering loop: a relevant passage is appended to its entry. */
  function ApplyOne(filtered: seq<Entry>, g: Grading, entries: seq<Entry>): (r: seq<Entry>)
    requires |filtered| == |entries|
    requires g.queryIndex < |entries| && g.documentIndex < |entries[g.queryIndex].documents|
    ensures |r| == |filtered|
  {
    if g.isRelevant then
      var e := filtered[g.queryIndex];
      filtered[g.queryIndex := e.(documents := e.documents + [entries[g.queryIndex].documents[g.documentIndex]])]
    else filtered
  }

  /** The filtering loop over a prefix of the grading results. */
  function ApplyAll(filtered: seq<Entry>, gs: seq<Grading>, entries: seq<Entry>): (r: seq<Entry>)
    requires |filtered| == |entries| && ValidGradings(gs, entries)
    ensures |r| == |filtered|
  {
    if gs == [] then filtered
    else ApplyOne(ApplyAll(filtered, gs[..|gs| - 1], entries), gs[|gs| - 1], entries)
  }

  /** `grade_documents`: filters every entry to its passages graded "yes", keeping their
      order and the questions, and raises the web-search flag exactly when an entry is left
      without passages; only `documents` and `web_search` change. The three phases of the
      source are the three methods below. */
  method GradeDocuments(state: GraphState, o: Oracles) returns (r: GraphState)
    ensures r == GradeSpec(state, o)
  {
    var documents := state.documents;
    var invocations := CollectInvocations(documents);
    var gradingResults := GradeAll(invocations, o.gradeRelevance);
    assert documents[..|documents|] == documents;
    PrefixGradingsValid(documents, |documents|, o.gradeRelevance);
    var filtered := FilterRelevant(documents, gradingResults);
    FilteringKeepsRelevant(documents, o.gradeRelevance);
    var webSearch := FlagEmptyEntries(filtered);
    r := state.(documents := filtered, webSearch := webSearch);
  }

  /** The relevance-grader calls of `grade_documents`, created entry by entry, passage by passage. */
  method CollectInvocations(documents: seq<Entry>) returns (invocations: seq<Invocation>)
    ensures invocations == Invocations(documents)
  {
    invocations := [];
    for i := 0 to |documents|
      invariant invocations == Invocations(documents[..i])
    {
      var item := documents[i];
      for j := 0 to |item.documents|
        invariant invocations == Invocations(documents[..i]) + EntryInvocations(i, item)[..j]
      {
        invocations := invocations + [Invocation(item.question, item.documents[j], i, j)];
        assert EntryInvocations(i, item)[..j + 1] == EntryInvocations(i, item)[..j] + [EntryInvocations(i, item)[j]];
      }
      assert EntryInvocations(i, item)[..|item.documents|] == EntryInvocations(i, item);
      assert documents[..i + 1][..i] == documents[..i];
    }
    assert documents[..|documents|] == documents;
  }

  /** The filtering loop of `grade_documents`: starting from every question with no
      passage, each relevant result appends its passage to its own entry. */
  method FilterRelevant(documents: seq<Entry>, gradingResults: seq<Grading>) returns (filtered: seq<Entry>)
    requires ValidGradings(gradingResults, documents)
    ensures filtered == ApplyAll(EmptyEntries(documents), gradingResults, documents)
  {
    filtered := EmptyEntries(documents);
    for t := 0 to |gradingResults|
      invariant filtered == ApplyAll(EmptyEntries(documents), gradingResults[..t], documents)
    {
      var result := gradingResults[t];
      assert ValidGradings(gradingResults[..t], documents);
      if result.isRelevant {
        var e := filtered[result.queryIndex];
        filtered := filtered[result.queryIndex := e.(documents := e.documents + [documents[result.queryIndex].documents[result.documentIndex]])];
      }
      assert gradingResults[..t + 1][..t] == gradingResults[..t];
    }
    assert gradingResults[..|gradingResults|] == gradingResults;
  }

  /** The flag loop of `grade_documents`: "Yes" as soon as an entry has no passage. */
  method FlagEmptyEntries(filtered: seq<Entry>) returns (webSearch: string)
    ensures webSearch == WebSearchFlag(filtered)
  {
    webSearch := No;
    for i := 0 to |filtered|
      invariant webSearch == No
      invariant forall k :: 0 <= k < i ==> filtered[k].documents != []
    {
      if filtered[i].documents == [] {
        webSearch := Yes;
        break;
      }
    }
  }

  // ---------------------------------------------------------------------------
  // Proof that the filtering loop keeps, per entry, exactly the relevant passages

  /** The bundle when the first `n` entries are fully graded and the rest still empty. */
  function Partial(entries: seq<Entry>, n: nat, grade: (string, string) -> string): (r: seq<Entry>)
    ensures |r| == |entries|
  {
    seq(|entries|, i requires 0 <= i < |entries| =>
          if i < n then Entry(entries[i].question, KeepRelevant(entries[i].documents, entries[i].question, grade))
          else Entry(entries[i].question, []))
  }

  lemma GradeAllAppend(a: seq<Invocation>, b: seq<Invocation>, grade: (string, string) -> string)
    ensures GradeAll(a + b, grade) == GradeAll(a, grade) + GradeAll(b, grade)
  {
  }

  lemma {:induction false} ApplyAllAppend(filtered: seq<Entry>, a: seq<Grading>, b: seq<Grading>, entries: seq<Entry>)
    requires |filtered| == |entries| && ValidGradings(a, entries) && ValidGradings(b, entries)
    ensures ValidGradings(a + b, entries)
    ensures ApplyAll(filtered, a + b, entries) == ApplyAll(ApplyAll(filtered, a, entries), b, entries)
    decreases |b|
  {
    assert ValidGradings(a + b, entries) by {
      forall t | 0 <= t < |a + b|
        ensures (a + b)[t].queryIndex < |entries| && (a + b)[t].documentIndex < |entries[(a + b)[t].queryIndex].documents|
      {
        if t < |a| { assert (a + b)[t] == a[t]; } else { assert (a + b)[t] == b[t - |a|]; }
      }
    }
    if b == [] {
      assert a + b == a;
    } else {
      var binit := b[..|b| - 1];
      assert ValidGradings(binit, entries);
      assert (a + b)[..|a + b| - 1] == a + binit;
      ApplyAllAppend(filtered, a, binit, entries);
    }
  }

  /** The gradings of the first `j` passages of entry `n` name existing passages. */
  lemma EntryGradingsValid(entries: seq<Entry>, n: nat, j: nat, grade: (string, string) -> string)
    requires n < |entries| && j <= |entries[n].documents|
    ensures ValidGradings(GradeAll(EntryInvocations(n, entries[n])[..j], grade), entries)
  {
    var invs := EntryInvocations(n, entries[n])[..j];
    var gs := GradeAll(invs, grade);
    forall t | 0 <= t < |gs| ensures gs[t].queryIndex < |entries| && gs[t].documentIndex < |entries[gs[t].queryIndex].documents| {
      assert gs[t] == GradeOne(invs[t], grade);
    }
  }

  /** Grading the passages of entry `n` one by one fills that entry and only that one. */
  lemma {:induction false} EntryFilling(entries: seq<Entry>, n: nat, j: nat, grade: (string, string) -> string)
    requires n < |entries| && j <= |entries[n].documents|
    ensures ValidGradings(GradeAll(EntryInvocations(n, entries[n])[..j], grade), entries)
    ensures ApplyAll(Partial(entries, n, grade), GradeAll(EntryInvocations(n, entries[n])[..j], grade), entries)
            == Partial(entries, n, grade)[n := Entry(entries[n].question, KeepRelevant(entries[n].documents[..j], entries[n].question, grade))]
    decreases j
  {
    var e := entries[n];
    var invs := EntryInvocations(n, e)[..j];
    var gs := GradeAll(invs, grade);
    EntryGradingsValid(entries, n, j, grade);
    if j == 0 {
      assert e.documents[..0] == [];
      assert Partial(entries, n, grade)[n] == Entry(e.question, []);
      assert Partial(entries, n, grade)[n := Entry(e.question, [])] == Partial(entries, n, grade);
    } else {
      EntryFilling(entries, n, j - 1, grade);
      var p := Partial(entries, n, grade);
      assert EntryInvocations(n, e)[..j - 1] == invs[..j - 1];
      assert gs[..j - 1] == GradeAll(invs[..j - 1], grade);
      var before := p[n := Entry(e.question, KeepRelevant(e.documents[..j - 1], e.question, grade))];
      assert ApplyAll(p, gs[..j - 1], entries) == before;
      var g := gs[j - 1];
      assert g == Grading(n, j - 1, grade(e.documents[j - 1], e.question) == "yes");
      assert ApplyAll(p, gs, entries) == ApplyOne(before, g, entries);
      assert e.documents[..j][..j - 1] == e.documents[..j - 1];
      assert e.documents[..j][j - 1] == e.documents[j - 1];
      var kept := KeepRelevant(e.documents[..j], e.question, grade);
      if g.isRelevant {
        assert kept == KeepRelevant(e.documents[..j - 1], e.question, grade) + [e.documents[j - 1]];
      } else {
        assert kept == KeepRelevant(e.documents[..j - 1], e.question, grade) + [];
        assert kept == KeepRelevant(e.documents[..j - 1], e.question, grade);
      }
    }
  }

  /** The first `n` entries' invocations, graded and applied, fill the first `n` entries. */
  lemma {:induction false} PrefixFilling(entries: seq<Entry>, n: nat, grade: (string, string) -> string)
    requires n <= |entries|
    ensures ValidGradings(GradeAll(Invocations(entries[..n]), grade), entries)
    ensures ApplyAll(EmptyEntries(entries), GradeAll(Invocations(entries[..n]), grade), entries) == Partial(entries, n, grade)
    decreases n
  {
    PrefixGradingsValid(entries, n, grade);
    if n == 0 {
      assert Partial(entries, 0, grade) == EmptyEntries(entries);
    } else {
      var m := n - 1;
      var e := entries[m];
      var a := GradeAll(Invocations(entries[..m]), grade);
      var b := GradeAll(EntryInvocations(m, e), grade);
      assert entries[..n][..m] == entries[..m];
      assert entries[..n][m] == e;
      assert Invocations(entries[..n]) == Invocations(entries[..m]) + EntryInvocations(m, e);
      GradeAllAppend(Invocations(entries[..m]), EntryInvocations(m, e), grade);
      PrefixFilling(entries, m, grade);
      EntryFilling(entries, m, |e.documents|, grade);
      assert EntryInvocations(m, e)[..|e.documents|] == EntryInvocations(m, e);
      assert e.documents[..|e.documents|] == e.documents;
      ApplyAllAppend(EmptyEntries(entries), a, b, entries);
      PartialStep(entries, m, grade);
    }
  }

  lemma PrefixGradingsValid(entries: seq<Entry>, n: nat, grade: (string, string) -> string)
    requires n <= |entries|
    ensures ValidGradings(GradeAll(Invocations(entries[..n]), grade), entries)
  {
    var prefix := entries[..n];
    var invs := Invocations(prefix);
    var gs := GradeAll(invs, grade);
    forall t | 0 <= t < |gs| ensures gs[t].queryIndex < |entries| && gs[t].documentIndex < |entries[gs[t].queryIndex].documents| {
      assert ValidInvocation(invs[t], prefix);
      assert prefix[invs[t].queryIndex] == entries[invs[t].queryIndex];
    }
  }

  lemma PartialStep(entries: seq<Entry>, m: nat, grade: (string, string) -> string)
    requires m < |entries|
    ensures Partial(entries, m, grade)[m := Entry(entries[m].question, KeepRelevant(entries[m].documents, entries[m].question, grade))]
            == Partial(entries, m + 1, grade)
  {
  }

  /** The whole filtering loop yields the graded bundle. */
  lemma FilteringKeepsRelevant(entries: seq<Entry>, grade: (string, string) -> string)
    ensures ValidGradings(GradeAll(Invocations(entries), grade), entries)
    ensures ApplyAll(EmptyEntries(entries), GradeAll(Invocations(entries), grade), entries) == GradedEntries(entries, grade)
  {
    assert entries[..|entries|] == entries;
    PrefixFilling(entries, |entries|, grade);
    assert Partial(entries, |entries|, grade) == GradedEntries(entries, grade);
  }

  // ---------------------------------------------------------------------------
  // What grading keeps

  /** The kept passages are the original ones with some deleted, the rest in order. */
  lemma {:induction false} KeepRelevantIsSubsequence(docs: seq<string>, question: string, grade: (string, string) -> string)
    ensures IsSubsequence(KeepRelevant(docs, question, grade), docs)
    decreases |docs|
  {
    if docs != [] {
      var init, last := docs[..|docs| - 1], docs[|docs| - 1];
      KeepRelevantIsSubsequence(init, question, grade);
      if grade(last, question) == "yes" {
        SubsequenceAppend(KeepRelevant(init, question, grade), init, last);
        assert init + [last] == docs;
      } else {
        SubsequenceExtend(KeepRelevant(init, question, grade), init, last);
        assert init + [last] == docs;
        var k := KeepRelevant(init, question, grade);
        assert k + [] == k;
        assert KeepRelevant(docs, question, grade) == k;
      }
    }
  }

  lemma {:induction false} SubsequenceAppend(sub: seq<string>, s: seq<string>, x: string)
    requires IsSubsequence(sub, s)
    ensures IsSubsequence(sub + [x], s + [x])
    decreases |s|
  {
    if s == [] {
      assert sub == [];
      var single: seq<string> := [x];
      assert single[1..] == [];
    } else if sub != [] && sub[0] == s[0] {
      assert (sub + [x])[1..] == sub[1..] + [x];
      assert (s + [x])[1..] == s[1..] + [x];
      SubsequenceAppend(sub[1..], s[1..], x);
    } else {
      assert (s + [x])[1..] == s[1..] + [x];
      SubsequenceAppend(sub, s[1..], x);
      if sub == [] {
        assert (sub + [x])[0] == x;
      } else {
        assert (sub + [x])[0] == sub[0];
      }
    }
  }

  lemma {:induction false} SubsequenceExtend(sub: seq<string>, s: seq<string>, x: string)
    requires IsSubsequence(sub, s)
    ensures IsSubsequence(sub, s + [x])
    decreases |s|
  {
    if s == [] {
      assert sub == [];
    } else if sub != [] && sub[0] == s[0] {
      assert (s + [x])[1..] == s[1..] + [x];
      SubsequenceExtend(sub[1..], s[1..], x);
    } else {
      assert (s + [x])[1..] == s[1..] + [x];
      SubsequenceExtend(sub, s[1..], x);
    }
  }

  /** A passage is kept exactly when it was retrieved and graded "yes". */
  lemma {:induction false} KeepRelevantMembers(docs: seq<string>, question: string, grade: (string, string) -> string, d: string)
    ensures d in KeepRelevant(docs, question, grade) <==> d in docs && grade(d, question) == "yes"
    decreases |docs|
  {
    if docs != [] {
      var init := docs[..|docs| - 1];
      KeepRelevantMembers(init, question, grade, d);
      assert docs == init + [docs[|docs| - 1]];
    }
  }

  /** Grading again with the same grader keeps everything that was kept. */
  lemma {:induction false} KeepRelevantIdempotent(docs: seq<string>, question: string, grade: (string, string) -> string)
    ensures KeepRelevant(KeepRelevant(docs, question, grade), question, grade) == KeepRelevant(docs, question, grade)
    decreases |docs|
  {
    if docs != [] {
      var init, last := docs[..|docs| - 1], docs[|docs| - 1];
      var k := KeepRelevant(init, question, grade);
      KeepRelevantIdempotent(init, question, grade);
      if grade(last, question) == "yes" {
        assert (k + [last])[..|k + [last]| - 1] == k;
      } else {
        assert k + [] == k;
      }
    }
  }

  /** The flag is "Yes" exactly when an entry is left without passages. */
  lemma WebSearchFlagIff(entries: seq<Entry>)
    ensures WebSearchFlag(entries) == Yes <==> exists i :: 0 <= i < |entries| && entries[i].documents == []
    ensures WebSearchFlag(entries) == No <==> forall i :: 0 <= i < |entries| ==> entries[i].documents != []
  {
  }

  // ---------------------------------------------------------------------------
  // web_search

  function Contents(results: seq<WebResult>): (r: seq<string>)
    ensures |r| == |results|
    ensures forall j :: 0 <= j < |results| ==> r[j] == results[j].content
  {
    seq(|results|, j requires 0 <= j < |results| => results[j].content)
  }

  /** The bundle after web search: every empty entry gets the contents of the web results
      for its question, every other entry stays as it was. */
  function WebSearchedEntries(entries: seq<Entry>, o: Oracles): (r: seq<Entry>)
    ensures |r| == |entries|
  {
    seq(|entries|, i requires 0 <= i < |entries| =>
          if entries[i].documents == [] then Entry(entries[i].question, Contents(o.webSearch(entries[i].question, WebMaxResults)))
          else entries[i])
  }

  datatype WebSearchCall = WebSearchCall(query: string, queryIndex: nat)
  datatype WebSearchAnswer = WebSearchAnswer(queryIndex: nat, documents: seq<WebResult>)

  /** `web_search`: searches the web for every entry without passages and overwrites that
      entry's passages with the results' contents; only `documents` changes. */
  method WebSearch(state: GraphState, o: Oracles) returns (r: GraphState)
    ensures |r.documents| == |state.documents|
    ensures forall i :: 0 <= i < |state.documents| ==> r.documents[i].question == state.documents[i].question
    ensures forall i :: 0 <= i < |state.documents| && state.documents[i].documents != [] ==> r.documents[i] == state.documents[i]
    ensures forall i :: 0 <= i < |state.documents| && state.documents[i].documents == [] ==>
              r.documents[i].documents == Contents(o.webSearch(state.documents[i].question, WebMaxResults))
    ensures r == state.(documents := WebSearchedEntries(state.documents, o))
  {
    var documents := state.documents;
    var invocations := CollectWebSearchCalls(documents);
    var results := seq(|invocations|, t requires 0 <= t < |invocations| =>
                         WebSearchAnswer(invocations[t].queryIndex, o.webSearch(invocations[t].query, WebMaxResults)));
    var updated := ApplyWebResults(documents, results, o);
    assert updated == WebSearchedEntries(documents, o) by {
      forall k | 0 <= k < |documents| ensures updated[k] == WebSearchedEntries(documents, o)[k] {
        if documents[k].documents == [] {
          var t :| 0 <= t < |invocations| && invocations[t].queryIndex == k;
          assert results[t].queryIndex == k;
        } else {
          forall u | 0 <= u < |results| ensures results[u].queryIndex != k {
            assert invocations[u].queryIndex == results[u].queryIndex;
          }
        }
      }
    }
    r := state.(documents := updated);
  }

  /** The first loop of `web_search`: one call per entry without passages, in entry order. */
  method CollectWebSearchCalls(documents: seq<Entry>) returns (invocations: seq<WebSearchCall>)
    ensures forall t :: 0 <= t < |invocations| ==>
              invocations[t].queryIndex < |documents| && documents[invocations[t].queryIndex].documents == [] &&
              invocations[t].query == documents[invocations[t].queryIndex].question
    ensures forall t, u :: 0 <= t < u < |invocations| ==> invocations[t].queryIndex < invocations[u].queryIndex
    ensures forall k :: 0 <= k < |documents| && documents[k].documents == [] ==>
              exists t :: 0 <= t < |invocations| && invocations[t].queryIndex == k
  {
    invocations := [];
    for i := 0 to |documents|
      invariant forall t :: 0 <= t < |invocations| ==>
                  invocations[t].queryIndex < i && documents[invocations[t].queryIndex].documents == [] &&
                  invocations[t].query == documents[invocations[t].queryIndex].question
      invariant forall t, u :: 0 <= t < u < |invocations| ==> invocations[t].queryIndex < invocations[u].queryIndex
      invariant forall k :: 0 <= k < i && documents[k].documents == [] ==>
                  exists t :: 0 <= t < |invocations| && invocations[t].queryIndex == k
    {
      var item := documents[i];
      if item.documents != [] {
        continue;
      }
      ghost var prev := invocations;
      invocations := invocations + [WebSearchCall(item.question, i)];
      forall k | 0 <= k < i + 1 && documents[k].documents == []
        ensures exists t :: 0 <= t < |invocations| && invocations[t].queryIndex == k
      {
        if k == i {
          assert invocations[|prev|].queryIndex == k;
        } else {
          var t :| 0 <= t < |prev| && prev[t].queryIndex == k;
          assert invocations[t] == prev[t];
        }
      }
    }
  }

  /** The second loop of `web_search`: each answer overwrites the passages of the entry it
      was asked for; entries no answer names are left alone. */
  method ApplyWebResults(documents: seq<Entry>, results: seq<WebSearchAnswer>, ghost o: Oracles) returns (updated: seq<Entry>)
    requires forall t :: 0 <= t < |results| ==>
               results[t].queryIndex < |documents| && documents[results[t].queryIndex].documents == [] &&
               results[t].documents == o.webSearch(documents[results[t].queryIndex].question, WebMaxResults)
    ensures |updated| == |documents|
    ensures forall k :: 0 <= k < |documents| && (forall u :: 0 <= u < |results| ==> results[u].queryIndex != k) ==>
              updated[k] == documents[k]
    ensures forall u :: 0 <= u < |results| ==>
              updated[results[u].queryIndex] == WebSearchedEntries(documents, o)[results[u].queryIndex]
  {
    updated := documents;
    for t := 0 to |results|
      invariant |updated| == |documents|
      invariant forall k :: 0 <= k < |documents| ==> updated[k].question == documents[k].question
      invariant forall k :: 0 <= k < |documents| && (forall u :: 0 <= u < t ==> results[u].queryIndex != k) ==>
                  updated[k] == documents[k]
      invariant forall u :: 0 <= u < t ==>
                  updated[results[u].queryIndex] == WebSearchedEntries(documents, o)[results[u].queryIndex]
    {
      var queryIndex := results[t].queryIndex;
      var docs := results[t].documents;
      updated := updated[queryIndex := updated[queryIndex].(documents := Contents(docs))];
    }
  }

  /** After the web search an entry is empty only if it was empty and the search found
      nothing for its question; the graph carries on with it all the same. */
  lemma WebSearchEmptyIff(entries: seq<Entry>, o: Oracles, i: nat)
    requires i < |entries|
    ensures WebSearchedEntries(entries, o)[i].documents == [] <==>
            entries[i].documents == [] && o.webSearch(entries[i].question, WebMaxResults) == []
  {
  }

  // ---------------------------------------------------------------------------
  // generate

  /** The context block of one entry. */
  function ContextBlock(e: Entry): string
  {
    "Subquery:\n" + e.question + "\n\nDocuments:\n" + Join(e.documents, DocumentSeparator)
  }

  function ContextBlocks(entries: seq<Entry>): (r: seq<string>)
    ensures |r| == |entries|
  {
    seq(|entries|, i requires 0 <= i < |entries| => ContextBlock(entries[i]))
  }

  /** The context passed to the generator. */
  function Context(entries: seq<Entry>): string
  {
    Join(ContextBlocks(entries), BlockSeparator)
  }

  /** The serialisation loop of `generate`. */
  method FormatContext(entries: seq<Entry>) returns (context: string)
    ensures context == Context(entries)
  {
    var formattedDocuments: seq<string> := [];
    for i := 0 to |entries|
      invariant formattedDocuments == ContextBlocks(entries)[..i]
    {
      var item := entries[i];
      var docsStr := Join(item.documents, DocumentSeparator);
      var text := "Subquery:\n" + item.question + "\n\nDocuments:\n" + docsStr;
      formattedDocuments := formattedDocuments + [text];
    }
    assert ContextBlocks(entries)[..|entries|] == ContextBlocks(entries);
    context := Join(formattedDocuments, BlockSeparator);
  }

  /** `generate`: only `generation` changes, to the generator's answer for the serialised
      context and the main query. */
  method Generate(state: GraphState, o: Oracles, attempt: nat) returns (r: GraphState)
    ensures r.generation == o.generate(Context(state.documents), state.mainQuery, attempt)
    ensures r == state.(generation := r.generation)
  {
    var context := FormatContext(state.documents);
    r := state.(generation := o.generate(context, state.mainQuery, attempt));
  }

  /** The context of the bundles `a` and `b` is that of `a`, the block separator, then that
      of `b`: the blocks follow the entries' order. */
  lemma ContextSplit(a: seq<Entry>, b: seq<Entry>)
    requires a != [] && b != []
    ensures Context(a + b) == Context(a) + BlockSeparator + Context(b)
  {
    assert ContextBlocks(a + b) == ContextBlocks(a) + ContextBlocks(b);
    JoinSplit(ContextBlocks(a), ContextBlocks(b), BlockSeparator);
  }

  /** The context opens with the first entry's block, which opens with its question. */
  lemma ContextStartsWithFirstBlock(entries: seq<Entry>)
    requires entries != []
    ensures var first := "Subquery:\n" + entries[0].question + "\n\nDocuments:\n";
            |first| <= |Context(entries)| && Context(entries)[..|first|] == first
  {
    var first := "Subquery:\n" + entries[0].question + "\n\nDocuments:\n";
    JoinStartsWithFirst(ContextBlocks(entries), BlockSeparator);
    var block := ContextBlock(entries[0]);
    assert block[..|first|] == first;
    assert Context(entries)[..|first|] == Context(entries)[..|block|][..|first|];
  }

  /** The context is as long as its blocks plus one separator between neighbours. */
  lemma ContextLength(entries: seq<Entry>)
    requires entries != []
    ensures |Context(entries)| == TotalLength(ContextBlocks(entries)) + (|entries| - 1) * |BlockSeparator|
  {
    JoinLength(ContextBlocks(entries), BlockSeparator);
  }

  // ---------------------------------------------------------------------------
  // check_hallucinations

  /** `check_hallucinations`: the balance goes down by exactly one, `has_hallucinations`
      is set exactly when the hallucination grader's score is not "yes", and nothing else changes. */
  function CheckHallucinations(state: GraphState, o: Oracles, attempt: nat): (r: GraphState)
    ensures r.hallucinationCheckBalance == state.hallucinationCheckBalance - 1
    ensures r.hasHallucinations <==> o.gradeHallucinations(state.documents, state.generation, attempt).score != "yes"
    ensures r == state.(hasHallucinations := r.hasHallucinations, hallucinationCheckBalance := r.hallucinationCheckBalance)
  {
    var verdict := o.gradeHallucinations(state.documents, state.generation, attempt);
    var hasHallucinations := if verdict.score == "yes" then false else true;
    state.(hasHallucinations := hasHallucinations, hallucinationCheckBalance := state.hallucinationCheckBalance - 1)
  }

  // ---------------------------------------------------------------------------
  // The two deciders

  datatype GradingRoute = ToGenerate | ToWebSearch
  datatype CheckRoute = Retry | ToEnd

  /** `decide_to_generate_or_websearch`: web search exactly when the flag is "Yes". */
  function DecideToGenerateOrWebSearch(state: GraphState): (r: GradingRoute)
    ensures r == ToWebSearch <==> state.webSearch == Yes
  {
    if state.webSearch == Yes then ToWebSearch else ToGenerate
  }

  /** `decide_to_check_hallucinations_or_end`: retry exactly when hallucinations were found
      and checks remain; the two "end" branches of the source give the same answer. */
  function DecideToCheckHallucinationsOrEnd(state: GraphState): (r: CheckRoute)
    ensures r == Retry <==> state.hasHallucinations && state.hallucinationCheckBalance > 0
  {
    if state.hasHallucinations && state.hallucinationCheckBalance > 0 then Retry
    else if state.hallucinationCheckBalance == 0 then ToEnd
    else ToEnd
  }

  // ---------------------------------------------------------------------------
  // Across nodes

  /** Grading and web search never change the questions: after both, entry `i` still asks
      sub-query `i`. */
  lemma QuestionsSurvive(state: GraphState, o: Oracles)
    ensures var retrieved := state.(documents := RetrievedEntries(state.subqueries, o));
            var graded := GradeSpec(retrieved, o);
            var searched := WebSearchedEntries(graded.documents, o);
            && |graded.documents| == |state.subqueries| && |searched| == |state.subqueries|
            && forall i :: 0 <= i < |state.subqueries| ==>
                 graded.documents[i].question == state.subqueries[i] && searched[i].question == state.subqueries[i]
  {
  }
}
