/**
 * The compiled workflow of `construct_graph`: the entry point, the fixed edges, the two
 * conditional edges, and a run from the entry point to the end, one node at a time.
 */
module Workflow {
  import opened Graph

  /** The nodes of the graph, and the end marker. */
  datatype Node =
    | TranslateQueryNode
    | RetrieveNode
    | GradeDocumentsNode
    | WebSearchNode
    | GenerateNode
    | CheckHallucinationsNode
    | End

  const EntryPoint: Node := TranslateQueryNode

  /** The transition table: where the graph goes after `node` produced `state`. */
  function Next(node: Node, state: GraphState): (next: Node)
    ensures node == GradeDocumentsNode ==> (next == WebSearchNode <==> state.webSearch == Yes)
    ensures node == GradeDocumentsNode && state.webSearch != Yes ==> next == GenerateNode
    ensures node == CheckHallucinationsNode ==>
              (next == GenerateNode <==> state.hasHallucinations && state.hallucinationCheckBalance > 0)
    ensures node == CheckHallucinationsNode && !next.GenerateNode? ==> next == End
  {
    match node
    case TranslateQueryNode => RetrieveNode
    case RetrieveNode => GradeDocumentsNode
    case GradeDocumentsNode =>
      (match DecideToGenerateOrWebSearch(state)
       case ToGenerate => GenerateNode
       case ToWebSearch => WebSearchNode)
    case WebSearchNode => GenerateNode
    case GenerateNode => CheckHallucinationsNode
    case CheckHallucinationsNode =>
      (match DecideToCheckHallucinationsOrEnd(state)
       case Retry => GenerateNode
       case ToEnd => End)
    case End => End
  }

  /** The unconditional edges do not look at the state. */
  lemma FixedEdges(state: GraphState)
    ensures Next(TranslateQueryNode, state) == RetrieveNode
    ensures Next(RetrieveNode, state) == GradeDocumentsNode
    ensures Next(WebSearchNode, state) == GenerateNode
    ensures Next(GenerateNode, state) == CheckHallucinationsNode
  {
  }

  // ---------------------------------------------------------------------------
  // The states a run goes through before the first generation

  function Translated(input: GraphState, o: Oracles): GraphState
  {
    TranslateQuery(input, o)
  }

  function Retrieved(input: GraphState, o: Oracles): GraphState
  {
    var t := Translated(input, o);
    t.(documents := RetrievedEntries(t.subqueries, o))
  }

  function Graded(input: GraphState, o: Oracles): GraphState
  {
    GradeSpec(Retrieved(input, o), o)
  }

  /** The state the first generation sees: the graded one, web-searched if flagged. */
  function Prepared(input: GraphState, o: Oracles): GraphState
  {
    var g := Graded(input, o);
    if g.webSearch == Yes then g.(documents := WebSearchedEntries(g.documents, o)) else g
  }

  /** The nodes a run visits before the first generation. */
  function Prelude(input: GraphState, o: Oracles): (p: seq<Node>)
    ensures |p| == 3 || |p| == 4
  {
    [TranslateQueryNode, RetrieveNode, GradeDocumentsNode] + (if Graded(input, o).webSearch == Yes then [WebSearchNode] else [])
  }

  /** How far a run of the generate/check loop may go: `rounds` checks so far. */
  function Potential(balance: int): nat
  {
    if balance > 0 then balance else 0
  }

  function Rank(node: Node): nat
  {
    match node
    case TranslateQueryNode => 6
    case RetrieveNode => 5
    case GradeDocumentsNode => 4
    case WebSearchNode => 3
    case GenerateNode => 2
    case CheckHallucinationsNode => 1
    case End => 0
  }

  function Max(a: int, b: int): int
  {
    if a < b then b else a
  }

  /** `n` rounds of the generate/check loop. */
  function Rounds(n: nat): (r: seq<Node>)
    ensures |r| == 2 * n
  {
    if n == 0 then [] else Rounds(n - 1) + [GenerateNode, CheckHallucinationsNode]
  }

  /** In `n` rounds, generation and check alternate, starting with a generation. */
  lemma {:induction false} RoundsAlternate(n: nat, j: nat)
    requires j < 2 * n
    ensures Rounds(n)[j] == if j % 2 == 0 then GenerateNode else CheckHallucinationsNode
  {
    if j < 2 * (n - 1) {
      RoundsAlternate(n - 1, j);
    }
  }

  /** The answer of generation attempt `k`: the generator sees the prepared bundle (serialised)
      and the main query; neither changes inside the loop. */
  function Attempt(input: GraphState, o: Oracles, k: nat): string
  {
    var p := Prepared(input, o);
    o.generate(Context(p.documents), p.mainQuery, k)
  }

  /** The hallucination grader's verdict on attempt `k`. */
  function AttemptVerdict(input: GraphState, o: Oracles, k: nat): Verdict
  {
    o.gradeHallucinations(Prepared(input, o).documents, Attempt(input, o, k), k)
  }

  /** Attempt `k` was judged grounded. */
  predicate Grounded(input: GraphState, o: Oracles, k: nat)
  {
    AttemptVerdict(input, o, k).score == "yes"
  }

  /** The state of the generate/check loop after `rounds` checks: everything but the last
      answer, the last verdict and the balance is as prepared. */
  ghost predicate InLoop(input: GraphState, o: Oracles, state: GraphState, rounds: nat)
  {
    state == Prepared(input, o).(generation := state.generation, hasHallucinations := state.hasHallucinations,
                                 hallucinationCheckBalance := input.hallucinationCheckBalance - rounds)
  }

  /** What holds at the head of the run loop, node by node. */
  ghost predicate Reached(input: GraphState, o: Oracles, node: Node, state: GraphState, trace: seq<Node>, rounds: nat)
  {
    var p := Prelude(input, o);
    var b0 := input.hallucinationCheckBalance;
    match node
    case TranslateQueryNode => trace == [] && state == input && rounds == 0
    case RetrieveNode => trace == [TranslateQueryNode] && state == Translated(input, o) && rounds == 0
    case GradeDocumentsNode => trace == [TranslateQueryNode, RetrieveNode] && state == Retrieved(input, o) && rounds == 0
    case WebSearchNode => |p| == 4 && trace == p[..3] && state == Graded(input, o) && rounds == 0
    case GenerateNode =>
      && trace == p + Rounds(rounds) && InLoop(input, o, state, rounds) && (rounds == 0 || rounds < b0)
      && (forall k: nat :: k < rounds ==> !Grounded(input, o, k))
    case CheckHallucinationsNode =>
      && trace == p + Rounds(rounds) + [GenerateNode] && InLoop(input, o, state, rounds) && (rounds == 0 || rounds < b0)
      && (forall k: nat :: k < rounds ==> !Grounded(input, o, k))
      && state.generation == Attempt(input, o, rounds)
    case End =>
      && trace == p + Rounds(rounds) && InLoop(input, o, state, rounds)
      && 1 <= rounds <= Max(1, b0)
      && (forall k: nat :: k < rounds - 1 ==> !Grounded(input, o, k))
      && state.generation == Attempt(input, o, rounds - 1)
      && (state.hasHallucinations <==> !Grounded(input, o, rounds - 1))
      && (!state.hasHallucinations || state.hallucinationCheckBalance <= 0)
  }

  /** One visit: runs `node` on `state` and follows its edge. */
  method Step(ghost input: GraphState, o: Oracles, node: Node, state: GraphState, ghost trace: seq<Node>, rounds: nat)
    returns (node': Node, state': GraphState, ghost trace': seq<Node>, rounds': nat)
    requires node != End && Reached(input, o, node, state, trace, rounds)
    ensures trace' == trace + [node]
    ensures Reached(input, o, node', state', trace', rounds')
    ensures Potential(state'.hallucinationCheckBalance) < Potential(state.hallucinationCheckBalance) ||
            (Potential(state'.hallucinationCheckBalance) == Potential(state.hallucinationCheckBalance) && Rank(node') < Rank(node))
  {
    if node == GenerateNode {
      node', state', trace', rounds' := GenerateStep(input, o, state, trace, rounds);
    } else if node == CheckHallucinationsNode {
      node', state', trace', rounds' := CheckStep(input, o, state, trace, rounds);
    } else {
      node', state', trace', rounds' := PreludeStep(input, o, node, state, trace, rounds);
    }
  }

  /** A visit to one of the nodes before the first generation. */
  method PreludeStep(ghost input: GraphState, o: Oracles, node: Node, state: GraphState, ghost trace: seq<Node>, rounds: nat)
    returns (node': Node, state': GraphState, ghost trace': seq<Node>, rounds': nat)
    requires node in {TranslateQueryNode, RetrieveNode, GradeDocumentsNode, WebSearchNode}
    requires Reached(input, o, node, state, trace, rounds)
    ensures trace' == trace + [node]
    ensures Reached(input, o, node', state', trace', rounds')
    ensures state'.hallucinationCheckBalance == state.hallucinationCheckBalance && Rank(node') < Rank(node)
  {
    ghost var p := Prelude(input, o);
    trace' := trace + [node];
    rounds' := rounds;
    if node == TranslateQueryNode {
      state' := TranslateQuery(state, o);
    } else if node == RetrieveNode {
      state' := Retrieve(state, o);
    } else if node == GradeDocumentsNode {
      state' := GradeDocuments(state, o);
      assert trace' == p[..3];
      if state'.webSearch != Yes {
        assert p == trace';
        assert trace' + Rounds(0) == trace';
      }
    } else {
      state' := WebSearch(state, o);
      assert trace' == p;
      assert trace' + Rounds(0) == trace';
    }
    node' := Next(node, state');
  }

  /** A visit to `generate`: attempt number `rounds`. */
  method GenerateStep(ghost input: GraphState, o: Oracles, state: GraphState, ghost trace: seq<Node>, rounds: nat)
    returns (node': Node, state': GraphState, ghost trace': seq<Node>, rounds': nat)
    requires Reached(input, o, GenerateNode, state, trace, rounds)
    ensures trace' == trace + [GenerateNode]
    ensures Reached(input, o, node', state', trace', rounds')
    ensures state'.hallucinationCheckBalance == state.hallucinationCheckBalance && Rank(node') < Rank(GenerateNode)
  {
    trace' := trace + [GenerateNode];
    rounds' := rounds;
    state' := Generate(state, o, rounds);
    node' := Next(GenerateNode, state');
  }

  /** A visit to `check_hallucinations`: grades attempt number `rounds`, then retries or ends. */
  method CheckStep(ghost input: GraphState, o: Oracles, state: GraphState, ghost trace: seq<Node>, rounds: nat)
    returns (node': Node, state': GraphState, ghost trace': seq<Node>, rounds': nat)
    requires Reached(input, o, CheckHallucinationsNode, state, trace, rounds)
    ensures trace' == trace + [CheckHallucinationsNode]
    ensures Reached(input, o, node', state', trace', rounds')
    ensures Potential(state'.hallucinationCheckBalance) < Potential(state.hallucinationCheckBalance) ||
            (Potential(state'.hallucinationCheckBalance) == Potential(state.hallucinationCheckBalance) && node' == End)
  {
    trace' := trace + [CheckHallucinationsNode];
    state' := CheckHallucinations(state, o, rounds);
    rounds' := rounds + 1;
    node' := Next(CheckHallucinationsNode, state');
    CheckKeepsLoop(input, o, state, trace, rounds, state');
    if node' == GenerateNode {
      RetryReached(input, o, state, trace, rounds, state');
    } else {
      EndReached(input, o, state, trace, rounds, state');
    }
  }

  /** After a check, the state is still the prepared one but for the loop's own fields, and the
      trace has one more round. */
  lemma CheckKeepsLoop(input: GraphState, o: Oracles, state: GraphState, trace: seq<Node>, rounds: nat, state': GraphState)
    requires Reached(input, o, CheckHallucinationsNode, state, trace, rounds)
    requires state' == CheckHallucinations(state, o, rounds)
    ensures InLoop(input, o, state', rounds + 1)
    ensures trace + [CheckHallucinationsNode] == Prelude(input, o) + Rounds(rounds + 1)
    ensures state'.generation == Attempt(input, o, rounds)
    ensures state'.hasHallucinations <==> !Grounded(input, o, rounds)
  {
  }

  /** A check that finds hallucinations with balance left sends the run back to generate. */
  lemma RetryReached(input: GraphState, o: Oracles, state: GraphState, trace: seq<Node>, rounds: nat, state': GraphState)
    requires Reached(input, o, CheckHallucinationsNode, state, trace, rounds)
    requires state' == CheckHallucinations(state, o, rounds)
    requires InLoop(input, o, state', rounds + 1)
    requires trace + [CheckHallucinationsNode] == Prelude(input, o) + Rounds(rounds + 1)
    requires state'.hasHallucinations <==> !Grounded(input, o, rounds)
    requires state'.hasHallucinations && state'.hallucinationCheckBalance > 0
    ensures Reached(input, o, GenerateNode, state', trace + [CheckHallucinationsNode], rounds + 1)
  {
    assert forall k: nat :: k < rounds + 1 ==> !Grounded(input, o, k);
  }

  /** Any other check ends the run. */
  lemma EndReached(input: GraphState, o: Oracles, state: GraphState, trace: seq<Node>, rounds: nat, state': GraphState)
    requires Reached(input, o, CheckHallucinationsNode, state, trace, rounds)
    requires state' == CheckHallucinations(state, o, rounds)
    requires InLoop(input, o, state', rounds + 1)
    requires trace + [CheckHallucinationsNode] == Prelude(input, o) + Rounds(rounds + 1)
    requires state'.generation == Attempt(input, o, rounds)
    requires state'.hasHallucinations <==> !Grounded(input, o, rounds)
    requires !(state'.hasHallucinations && state'.hallucinationCheckBalance > 0)
    ensures Reached(input, o, End, state', trace + [CheckHallucinationsNode], rounds + 1)
  {
  }

  /** A run of the graph from the entry point until it reaches the end. Every node is run
      once per visit, in the order the edges dictate. `rounds` is the number of
      generate/check rounds; it numbers the attempts passed to the generator and the hallucination grader. */
  method Run(input: GraphState, o: Oracles) returns (final: GraphState, trace: seq<Node>, rounds: nat)
    ensures trace == Prelude(input, o) + Rounds(rounds)
    ensures 1 <= rounds <= Max(1, input.hallucinationCheckBalance)
    ensures final.hallucinationCheckBalance == input.hallucinationCheckBalance - rounds
    ensures final.hasHallucinations ==> final.hallucinationCheckBalance <= 0
    ensures final.documents == Prepared(input, o).documents
    ensures final.subqueries == o.translate(input.mainQuery)
    ensures final.mainQuery == input.mainQuery
    ensures forall k: nat :: k < rounds - 1 ==>
              o.gradeHallucinations(final.documents, o.generate(Context(final.documents), input.mainQuery, k), k).score != "yes"
    ensures final.generation == o.generate(Context(final.documents), input.mainQuery, rounds - 1)
    ensures final.hasHallucinations <==> o.gradeHallucinations(final.documents, final.generation, rounds - 1).score != "yes"
    ensures rounds < Max(1, input.hallucinationCheckBalance) ==>
              o.gradeHallucinations(final.documents, final.generation, rounds - 1).score == "yes"
  {
    var node := EntryPoint;
    var state := input;
    ghost var visited: seq<Node> := [];
    rounds := 0;
    trace := [];
    while node != End
      invariant Reached(input, o, node, state, visited, rounds)
      invariant trace == visited
      decreases Potential(state.hallucinationCheckBalance), Rank(node)
    {
      trace := trace + [node];
      node, state, visited, rounds := Step(input, o, node, state, visited, rounds);
    }
    final := state;
    forall k: nat | k < rounds - 1
      ensures o.gradeHallucinations(final.documents, o.generate(Context(final.documents), input.mainQuery, k), k).score != "yes"
    {
      assert !Grounded(input, o, k);
    }
  }

  /** With a hallucination grader that always answers "yes", a run makes exactly one attempt and
      ends with no hallucinations, whatever the balance. */
  method RunAlwaysGrounded(input: GraphState, o: Oracles) returns (final: GraphState, rounds: nat)
    requires forall d: seq<Entry>, g: string, k: nat :: o.gradeHallucinations(d, g, k).score == "yes"
    ensures rounds == 1 && !final.hasHallucinations
    ensures final.generation == o.generate(Context(final.documents), input.mainQuery, 0)
    ensures final.hallucinationCheckBalance == input.hallucinationCheckBalance - 1
  {
    var trace;
    final, trace, rounds := Run(input, o);
    var first := o.generate(Context(final.documents), input.mainQuery, 0);
    assert o.gradeHallucinations(final.documents, first, 0).score == "yes";
  }

  /** With a hallucination grader that never answers "yes", a run uses every check the balance
      allows (at least one) and ends still flagged. */
  method RunNeverGrounded(input: GraphState, o: Oracles) returns (final: GraphState, rounds: nat)
    requires forall d: seq<Entry>, g: string, k: nat :: o.gradeHallucinations(d, g, k).score != "yes"
    ensures rounds == Max(1, input.hallucinationCheckBalance) && final.hasHallucinations
  {
    var trace;
    final, trace, rounds := Run(input, o);
  }
}
