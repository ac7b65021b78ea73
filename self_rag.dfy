/** The Self-RAG control loop of llm_rag/self_rag.py.

    A run threads an `AgentState` (query, ordered context, answer) through four
    graph nodes — retrieve, generate, check_helpfulness, rewrite — and three
    routers that grade relevance, grounding and helpfulness. The retriever and
    the language-model chains are external calls; here they are the fields of an
    `Oracles` value, each told the index of the node execution it serves (so a
    repeated call, such as a regeneration, may answer differently). What is left
    is deterministic: the state updates, the score parser, the thresholds, the
    edge table and an executor bounded by an explicit fuel parameter. */
module SelfRag {
  import opened Text
  import opened Documents

  // ---- state ------------------------------------------------------------------

  /** The dictionary passed from node to node. */
  datatype AgentState = AgentState(query: string, context: seq<Document>, answer: string)

  /** What the relevance chain returns: a dict with a `Score` entry, or a message
      object, given here by its `str()` text. */
  datatype RelevanceResponse =
    | Structured(fields: map<string, int>)
    | Message(text: string)

  /** The external calls, each given the index of the node execution that makes it. */
  datatype Oracles = Oracles(
    search: (string, nat) -> seq<Document>,                              // retriever.invoke(query)
    answer: (string, seq<Document>, nat) -> string,                      // (generate_prompt | llm).invoke(...).content
    gradeRelevance: (string, seq<Document>, nat) -> RelevanceResponse,   // doc_relevance_chain.invoke(...)
    gradeGrounding: (string, seq<string>, nat) -> string,                // hallucination_chain.invoke(...)
    gradeHelpfulness: (string, string, nat) -> map<string, int>,         // helpfulness_chain.invoke(...)
    rewriteQuery: (string, nat) -> string)                               // rewrite_chain.invoke(...)

  // ---- nodes ------------------------------------------------------------------

  /** retrieve: keep the query, store the retrieved documents in order, clear the answer. */
  function RetrieveNode(s: AgentState, docs: seq<Document>): AgentState
  {
    AgentState(s.query, docs, "")
  }

  /** generate: keep query and context, store the completion. */
  function GenerateNode(s: AgentState, completion: string): AgentState
  {
    AgentState(s.query, s.context, completion)
  }

  /** check_helpfulness: a pass-through node; the grading happens on its outgoing edge. */
  function CheckHelpfulnessNode(s: AgentState): AgentState
  {
    s
  }

  /** rewrite: replace the query and forget context and answer, whatever they were. */
  function RewriteNode(s: AgentState, newQuery: string): (r: AgentState)
    ensures r.query == newQuery
    ensures r.context == [] && r.answer == ""
  {
    AgentState(newQuery, [], "")
  }

  // ---- the relevance score parser ---------------------------------------------

  const ScoreKey: string := "\"Score\":"

  /** ASCII whitespace, as `\s` matches it. */
  predicate IsSpace(c: char)
  {
    c == ' ' || c == '\t' || c == '\n' || c == '\r' || c == '\U{0B}' || c == '\U{0C}'
  }

  /** End of the whitespace run starting at i (`\s*`, greedy). */
  function SkipSpaces(s: string, i: nat): (j: nat)
    requires i <= |s|
    ensures i <= j <= |s|
    ensures forall k :: i <= k < j ==> IsSpace(s[k])
    ensures j == |s| || !IsSpace(s[j])
    decreases |s| - i
  {
    if i < |s| && IsSpace(s[i]) then SkipSpaces(s, i + 1) else i
  }

  /** End of the digit run starting at i (`\d+`, greedy). */
  function SkipDigits(s: string, i: nat): (j: nat)
    requires i <= |s|
    ensures i <= j <= |s|
    ensures forall k :: i <= k < j ==> IsDigit(s[k])
    ensures j == |s| || !IsDigit(s[j])
    decreases |s| - i
  {
    if i < |s| && IsDigit(s[i]) then SkipDigits(s, i + 1) else i
  }

  /** The literal `"Score":` starts at position i. */
  predicate KeyAt(s: string, i: nat)
  {
    i + |ScoreKey| <= |s| && s[i..i + |ScoreKey|] == ScoreKey
  }

  /** The pattern `"Score":\s*(\d+)` matches at position i. Since no whitespace is
      a digit, backtracking on `\s*` cannot help: a match needs a digit right after
      the whole whitespace run. */
  predicate MatchesAt(s: string, i: nat)
  {
    KeyAt(s, i) &&
    var j := SkipSpaces(s, i + |ScoreKey|); j < |s| && IsDigit(s[j])
  }

  /** `re.search`: the leftmost position at or after `from` where the pattern matches. */
  function FirstMatch(s: string, from: nat): (r: Option<nat>)
    requires from <= |s|
    ensures r.Some? ==> from <= r.value < |s| && MatchesAt(s, r.value)
    decreases |s| - from
  {
    if from == |s| then None
    else if MatchesAt(s, from) then Some(from)
    else FirstMatch(s, from + 1)
  }

  /** The match found is the leftmost one: no position before it matches, and when
      none is found no position matches at all. */
  lemma {:induction false} FirstMatchIsLeftmost(s: string, from: nat)
    requires from <= |s|
    ensures FirstMatch(s, from).Some? ==> forall k :: from <= k < FirstMatch(s, from).value ==> !MatchesAt(s, k)
    ensures FirstMatch(s, from).None? ==> forall k :: from <= k < |s| ==> !MatchesAt(s, k)
    decreases |s| - from
  {
    if from < |s| && !MatchesAt(s, from) {
      FirstMatchIsLeftmost(s, from + 1);
    }
  }

  /** `match.group(1)`: the whole digit run after the key and the whitespace. */
  function ScoreDigits(s: string, i: nat): (ds: string)
    requires MatchesAt(s, i)
    ensures |ds| >= 1
    ensures forall k :: 0 <= k < |ds| ==> IsDigit(ds[k])
  {
    var j := SkipSpaces(s, i + |ScoreKey|);
    s[j..SkipDigits(s, j)]
  }

  /** The score found in a message text, if the pattern matches anywhere. */
  function ScoreInText(text: string): Option<nat>
  {
    match FirstMatch(text, 0)
    case None => None
    case Some(i) => Some(DigitsValue(ScoreDigits(text, i)))
  }

  /** Why a run stops without reaching END. */
  datatype Failure =
    | KeyError(key: string)                  // a judging reply dict without "Score"
    | NoRoute(origin: Node, verdict: string)   // a router verdict missing from the edge's path map

  /** The score check_doc_relevance computes: `int(response['Score'])` for a dict,
      otherwise the first regex match in the text, and 1 when nothing matches. */
  function RelevanceScore(resp: RelevanceResponse): (r: Result<int, Failure>)
    ensures resp.Structured? ==> (r.Ok? <==> "Score" in resp.fields)
    ensures resp.Structured? && r.Ok? ==> r.value == resp.fields["Score"]
    ensures resp.Structured? && r.Err? ==> r.error == KeyError("Score")
    ensures resp.Message? ==> r.Ok? && r.value >= 0
    ensures resp.Message? && FirstMatch(resp.text, 0).None? ==> r.value == 1
    ensures resp.Message? && FirstMatch(resp.text, 0).Some? ==>
      r.value == DigitsValue(ScoreDigits(resp.text, FirstMatch(resp.text, 0).value))
  {
    match resp
    case Structured(fields) =>
      if "Score" in fields then Ok(fields["Score"]) else Err(KeyError("Score"))
    case Message(text) =>
      match ScoreInText(text)
      case Some(n) => Ok(n)
      case None => Ok(1)
  }

  /** check_doc_relevance: 'relevant' exactly when the score is at least 7; the score
      is not clamped to 1..10. */
  function CheckDocRelevance(resp: RelevanceResponse): (r: Result<string, Failure>)
    ensures r.Ok? <==> RelevanceScore(resp).Ok?
    ensures r.Ok? ==> (r.value == "relevant" <==> RelevanceScore(resp).value >= 7)
    ensures r.Ok? ==> (r.value == "irrelevant" <==> RelevanceScore(resp).value < 7)
  {
    var score :- RelevanceScore(resp);
    if score >= 7 then Ok("relevant") else Ok("irrelevant")
  }

  /** check_helpfulness_grader: 'helpful' exactly when the judging model's Score is 1. */
  function CheckHelpfulnessGrader(resp: map<string, int>): (r: Result<string, Failure>)
    ensures "Score" !in resp ==> r == Err(KeyError("Score"))
    ensures "Score" in resp ==> r.Ok? && (r.value == "helpful" <==> resp["Score"] == 1)
    ensures "Score" in resp ==> (r.value == "unhelpful" <==> resp["Score"] != 1)
  {
    if "Score" !in resp then Err(KeyError("Score"))
    else if resp["Score"] == 1 then Ok("helpful")
    else Ok("unhelpful")
  }

  // ---- the graph ----------------------------------------------------------------

  datatype Node = Retrieve | Generate | CheckHelpfulness | Rewrite

  datatype Target = Goto(node: Node) | End

  datatype Router = DocRelevance | Hallucination | HelpfulnessGrader

  /** An outgoing edge: unconditional (add_edge) or routed by verdict (add_conditional_edges). */
  datatype Edge = Always(to: Target) | Branch(router: Router, paths: map<string, Target>)

  /** add_edge(START, 'retrieve') */
  const Entry: Node := Retrieve

  /** The edge table. */
  function Wiring(n: Node): Edge
  {
    match n
    case Retrieve => Branch(DocRelevance, map["relevant" := Goto(Generate), "irrelevant" := End])
    case Generate => Branch(Hallucination, map["not hallucinated" := Goto(CheckHelpfulness), "hallucinated" := Goto(Generate)])
    case CheckHelpfulness => Branch(HelpfulnessGrader, map["helpful" := End, "unhelpful" := Goto(Rewrite)])
    case Rewrite => Always(Goto(Retrieve))
  }

  /** One node execution, with the oracle answers of execution number `call`. */
  function RunNode(o: Oracles, n: Node, s: AgentState, call: nat): (r: AgentState)
    ensures n == Retrieve ==> r.query == s.query && r.context == o.search(s.query, call) && r.answer == ""
    ensures n == Generate ==> r.query == s.query && r.context == s.context && r.answer == o.answer(s.query, s.context, call)
    ensures n == CheckHelpfulness ==> r == s
    ensures n == Rewrite ==> r.query == o.rewriteQuery(s.query, call) && r.context == [] && r.answer == ""
  {
    match n
    case Retrieve => RetrieveNode(s, o.search(s.query, call))
    case Generate => GenerateNode(s, o.answer(s.query, s.context, call))
    case CheckHelpfulness => CheckHelpfulnessNode(s)
    case Rewrite => RewriteNode(s, o.rewriteQuery(s.query, call))
  }

  /** The verdict a router computes on the state a node produced. check_hallucination
      returns the judging model's raw text. */
  function RouteLabel(o: Oracles, router: Router, s: AgentState, call: nat): Result<string, Failure>
  {
    match router
    case DocRelevance => CheckDocRelevance(o.gradeRelevance(s.query, s.context, call))
    case Hallucination => Ok(o.gradeGrounding(s.answer, PageContents(s.context), call))
    case HelpfulnessGrader => CheckHelpfulnessGrader(o.gradeHelpfulness(s.query, s.answer, call))
  }

  /** Where the graph goes after node n produced state s. */
  function NextTarget(o: Oracles, n: Node, s: AgentState, call: nat): Result<Target, Failure>
  {
    match Wiring(n)
    case Always(t) => Ok(t)
    case Branch(router, paths) =>
      var verdict :- RouteLabel(o, router, s, call);
      if verdict in paths then Ok(paths[verdict]) else Err(NoRoute(n, verdict))
  }

  /** The routing the edge table gives each node: END only after an irrelevant
      retrieval or a helpful answer; otherwise the next node by verdict. */
  lemma EdgeTable(o: Oracles, n: Node, s: AgentState, call: nat)
    ensures NextTarget(o, n, s, call) == Ok(End) <==>
              (n == Retrieve && CheckDocRelevance(o.gradeRelevance(s.query, s.context, call)) == Ok("irrelevant")) ||
              (n == CheckHelpfulness && CheckHelpfulnessGrader(o.gradeHelpfulness(s.query, s.answer, call)) == Ok("helpful"))
    ensures n == Retrieve && CheckDocRelevance(o.gradeRelevance(s.query, s.context, call)) == Ok("relevant") ==>
              NextTarget(o, n, s, call) == Ok(Goto(Generate))
    ensures n == Generate && o.gradeGrounding(s.answer, PageContents(s.context), call) == "hallucinated" ==>
              NextTarget(o, n, s, call) == Ok(Goto(Generate))
    ensures n == Generate && o.gradeGrounding(s.answer, PageContents(s.context), call) == "not hallucinated" ==>
              NextTarget(o, n, s, call) == Ok(Goto(CheckHelpfulness))
    ensures n == CheckHelpfulness && CheckHelpfulnessGrader(o.gradeHelpfulness(s.query, s.answer, call)) == Ok("unhelpful") ==>
              NextTarget(o, n, s, call) == Ok(Goto(Rewrite))
    ensures n == Rewrite ==> NextTarget(o, n, s, call) == Ok(Goto(Retrieve))
  {
    match n
    case Retrieve =>
      var v := CheckDocRelevance(o.gradeRelevance(s.query, s.context, call));
      assert v.Ok? ==> v.value == "relevant" || v.value == "irrelevant";
    case Generate =>
    case CheckHelpfulness =>
      var v := CheckHelpfulnessGrader(o.gradeHelpfulness(s.query, s.answer, call));
      assert v.Ok? ==> v.value == "helpful" || v.value == "unhelpful";
    case Rewrite =>
  }

  // ---- the executor ---------------------------------------------------------------

  /** A node execution: which node ran, on which input state. */
  datatype Visit = Visit(node: Node, input: AgentState)

  /** How a run ends: at END, with an error, or because the step budget ran out
      (the budget is the model's; the source sets none). */
  datatype Outcome =
    | Finished(state: AgentState)
    | Failed(failure: Failure, state: AgentState)
    | OutOfFuel(state: AgentState, pending: Node)

  datatype Run = Run(trace: seq<Visit>, outcome: Outcome)

  /** Run the graph from node n on state s for at most `fuel` node executions;
      `call` numbers the first of them. */
  function Execute(o: Oracles, n: Node, s: AgentState, fuel: nat, call: nat): (r: Run)
    ensures |r.trace| <= fuel
    ensures r.outcome.OutOfFuel? ==> |r.trace| == fuel
    ensures fuel > 0 ==> |r.trace| >= 1 && r.trace[0] == Visit(n, s)
    ensures fuel == 0 ==> r == Run([], OutOfFuel(s, n))
    decreases fuel
  {
    if fuel == 0 then Run([], OutOfFuel(s, n))
    else
      var s' := RunNode(o, n, s, call);
      match NextTarget(o, n, s', call)
      case Err(f) => Run([Visit(n, s)], Failed(f, s'))
      case Ok(End) => Run([Visit(n, s)], Finished(s'))
      case Ok(Goto(m)) =>
        var rest := Execute(o, m, s', fuel - 1, call + 1);
        Run([Visit(n, s)] + rest.trace, rest.outcome)
  }

  /** graph.invoke(initial_state) with a step budget. */
  function Invoke(o: Oracles, initial: AgentState, fuel: nat): Run
  {
    Execute(o, Entry, initial, fuel, 0)
  }

  /** A run whose first node routes to m is that node's visit followed by the run from m. */
  /** A run whose first node routes to END is that node's visit alone. */
  lemma ExecuteEnd(o: Oracles, n: Node, s: AgentState, fuel: nat, call: nat)
    requires fuel > 0
    requires NextTarget(o, n, RunNode(o, n, s, call), call) == Ok(End)
    ensures Execute(o, n, s, fuel, call) == Run([Visit(n, s)], Finished(RunNode(o, n, s, call)))
  {
  }

  /** A run whose first routing fails stops after that node. */
  lemma ExecuteFails(o: Oracles, n: Node, s: AgentState, fuel: nat, call: nat)
    requires fuel > 0
    requires NextTarget(o, n, RunNode(o, n, s, call), call).Err?
    ensures Execute(o, n, s, fuel, call) ==
              Run([Visit(n, s)], Failed(NextTarget(o, n, RunNode(o, n, s, call), call).error, RunNode(o, n, s, call)))
  {
  }

  lemma ExecuteGoto(o: Oracles, n: Node, s: AgentState, fuel: nat, call: nat, m: Node)
    requires fuel > 0
    requires NextTarget(o, n, RunNode(o, n, s, call), call) == Ok(Goto(m))
    ensures Execute(o, n, s, fuel, call).trace ==
              [Visit(n, s)] + Execute(o, m, RunNode(o, n, s, call), fuel - 1, call + 1).trace
    ensures Execute(o, n, s, fuel, call).outcome == Execute(o, m, RunNode(o, n, s, call), fuel - 1, call + 1).outcome
  {
  }

  // ---- properties ------------------------------------------------------------------

  /** One step of a run: the next visit's input is what this node produced, and the
      edge table routes from this node to the next one (`call` numbers this visit). */
  ghost predicate Step(o: Oracles, v: Visit, next: Visit, call: nat)
  {
    next.input == RunNode(o, v.node, v.input, call) &&
    NextTarget(o, v.node, next.input, call) == Ok(Goto(next.node))
  }

  /** Consecutive visits follow the edge table, and each node's input is what the
      previous node produced (`call` numbers the first visit). */
  ghost predicate FollowsWiring(o: Oracles, trace: seq<Visit>, call: nat)
  {
    forall i :: 0 <= i < |trace| - 1 ==> Step(o, trace[i], trace[i + 1], call + i)
  }

  /** A step in front of a path that follows the wiring gives a longer such path. */
  lemma PrependStep(o: Oracles, v: Visit, rest: seq<Visit>, call: nat)
    requires FollowsWiring(o, rest, call + 1)
    requires rest != [] ==> Step(o, v, rest[0], call)
    ensures FollowsWiring(o, [v] + rest, call)
  {
    var trace := [v] + rest;
    forall i | 0 <= i < |trace| - 1
      ensures Step(o, trace[i], trace[i + 1], call + i)
    {
      if i == 0 {
        assert trace[1] == rest[0];
      } else {
        assert trace[i] == rest[i - 1] && trace[i + 1] == rest[i];
        assert Step(o, rest[i - 1], rest[i], (call + 1) + (i - 1));
      }
    }
  }

  /** Every run is exactly a path of the graph: node after node as the edge table
      routes, no node skipped, reordered or run speculatively. */
  lemma {:induction false} TraceFollowsWiring(o: Oracles, n: Node, s: AgentState, fuel: nat, call: nat)
    ensures FollowsWiring(o, Execute(o, n, s, fuel, call).trace, call)
    decreases fuel
  {
    if fuel > 0 {
      var s' := RunNode(o, n, s, call);
      match NextTarget(o, n, s', call)
      case Err(_) =>
      case Ok(End) =>
      case Ok(Goto(m)) =>
        TraceFollowsWiring(o, m, s', fuel - 1, call + 1);
        ExecuteGoto(o, n, s, fuel, call, m);
        PrependStep(o, Visit(n, s), Execute(o, m, s', fuel - 1, call + 1).trace, call);
    }
  }

  /** Stale context is never paired with a new query: the query changes only on the
      rewrite edge, which also empties context and answer; the helpfulness gate
      passes its state on untouched; regeneration keeps query and context. */
  lemma QueryChangesOnlyThroughRewrite(o: Oracles, n: Node, s: AgentState, fuel: nat, call: nat)
    ensures var r := Execute(o, n, s, fuel, call);
      forall i :: 0 <= i < |r.trace| - 1 ==>
        (r.trace[i + 1].input.query != r.trace[i].input.query ==> r.trace[i].node == Rewrite) &&
        (r.trace[i].node == Rewrite ==> r.trace[i + 1].input.context == [] && r.trace[i + 1].input.answer == "") &&
        (r.trace[i].node == CheckHelpfulness ==> r.trace[i + 1].input == r.trace[i].input) &&
        (r.trace[i].node == Generate ==> r.trace[i + 1].input.context == r.trace[i].input.context)
  {
    TraceFollowsWiring(o, n, s, fuel, call);
  }

  /** An irrelevant retrieval ends the run at once: generate is never called. */
  lemma IrrelevantEndsWithoutGenerating(o: Oracles, s: AgentState, fuel: nat, call: nat)
    requires fuel >= 1
    requires var docs := o.search(s.query, call);
      var score := RelevanceScore(o.gradeRelevance(s.query, docs, call));
      score.Ok? && score.value < 7
    ensures var r := Execute(o, Retrieve, s, fuel, call);
      r == Run([Visit(Retrieve, s)], Finished(AgentState(s.query, o.search(s.query, call), ""))) &&
      forall i :: 0 <= i < |r.trace| ==> r.trace[i].node != Generate
  {
  }

  /** A relevant retrieval always leads to generate on the retrieved context. */
  lemma RelevantReachesGenerate(o: Oracles, s: AgentState, fuel: nat, call: nat)
    requires fuel >= 2
    requires var docs := o.search(s.query, call);
      var score := RelevanceScore(o.gradeRelevance(s.query, docs, call));
      score.Ok? && score.value >= 7
    ensures var r := Execute(o, Retrieve, s, fuel, call);
      |r.trace| >= 2 && r.trace[1] == Visit(Generate, AgentState(s.query, o.search(s.query, call), ""))
  {
  }

  /** A response with no `"Score":` key anywhere parses as 1 and is judged irrelevant. */
  lemma UnparseableScoreIsIrrelevant(text: string)
    requires forall k :: !KeyAt(text, k)
    ensures RelevanceScore(Message(text)) == Ok(1)
    ensures CheckDocRelevance(Message(text)) == Ok("irrelevant")
  {
  }

  lemma {:induction false} FirstMatchSkips(s: string, lo: nat, hi: nat)
    requires lo <= hi <= |s|
    requires forall k :: lo <= k < hi ==> !MatchesAt(s, k)
    ensures FirstMatch(s, lo) == FirstMatch(s, hi)
    decreases hi - lo
  {
    if lo < hi {
      FirstMatchSkips(s, lo + 1, hi);
    }
  }

  lemma {:induction false} SkipSpacesOver(s: string, i: nat, n: nat)
    requires i + n <= |s|
    requires forall k :: i <= k < i + n ==> IsSpace(s[k])
    requires i + n == |s| || !IsSpace(s[i + n])
    ensures SkipSpaces(s, i) == i + n
    decreases n
  {
    if n > 0 {
      SkipSpacesOver(s, i + 1, n - 1);
    }
  }

  lemma {:induction false} SkipDigitsOver(s: string, i: nat, n: nat)
    requires i + n <= |s|
    requires forall k :: i <= k < i + n ==> IsDigit(s[k])
    requires i + n == |s| || !IsDigit(s[i + n])
    ensures SkipDigits(s, i) == i + n
    decreases n
  {
    if n > 0 {
      SkipDigitsOver(s, i + 1, n - 1);
    }
  }

  lemma KeyStartsWithQuote(s: string, k: nat)
    ensures KeyAt(s, k) ==> s[k] == '"'
  {
    if KeyAt(s, k) {
      assert s[k..k + |ScoreKey|][0] == '"';
    }
  }

  /** A whitespace run framed by text ending before it and text not starting with
      whitespace is skipped whole. */
  lemma SkipSpacesFramed(whole: string, head: string, spaces: string, tail: string)
    requires whole == head + spaces + tail
    requires forall k :: 0 <= k < |spaces| ==> IsSpace(spaces[k])
    requires tail == [] || !IsSpace(tail[0])
    ensures SkipSpaces(whole, |head|) == |head| + |spaces|
  {
    forall k | |head| <= k < |head| + |spaces| ensures IsSpace(whole[k]) {
      assert whole[k] == spaces[k - |head|];
    }
    if tail != [] {
      assert whole[|head| + |spaces|] == tail[0];
    }
    SkipSpacesOver(whole, |head|, |spaces|);
  }

  /** The same for a digit run. */
  lemma SkipDigitsFramed(whole: string, head: string, digits: string, tail: string)
    requires whole == head + digits + tail
    requires forall k :: 0 <= k < |digits| ==> IsDigit(digits[k])
    requires tail == [] || !IsDigit(tail[0])
    ensures SkipDigits(whole, |head|) == |head| + |digits|
  {
    forall k | |head| <= k < |head| + |digits| ensures IsDigit(whole[k]) {
      assert whole[k] == digits[k - |head|];
    }
    if tail != [] {
      assert whole[|head| + |digits|] == tail[0];
    }
    SkipDigitsOver(whole, |head|, |digits|);
  }

  /** No match can start inside text without a double quote, since the key starts with one. */
  lemma NoMatchBeforeQuote(whole: string, at: nat)
    requires at <= |whole|
    requires forall k :: 0 <= k < at ==> whole[k] != '"'
    ensures FirstMatch(whole, 0) == FirstMatch(whole, at)
  {
    forall k | 0 <= k < at ensures !MatchesAt(whole, k) {
      KeyStartsWithQuote(whole, k);
    }
    FirstMatchSkips(whole, 0, at);
  }

  lemma KeyAtFramed(whole: string, prefix: string, rest: string)
    requires whole == prefix + ScoreKey + rest
    ensures KeyAt(whole, |prefix|)
  {
    SliceOfMiddle(prefix, ScoreKey, rest, 0, |ScoreKey|);
    assert ScoreKey[0..|ScoreKey|] == ScoreKey;
  }

  /** The pattern matches at a key followed by a whitespace run and a non-empty digit
      run, and captures that digit run. */
  lemma MatchFromRuns(whole: string, at: nat, ds: nat, de: nat)
    requires KeyAt(whole, at)
    requires SkipSpaces(whole, at + |ScoreKey|) == ds
    requires ds < de <= |whole| && SkipDigits(whole, ds) == de
    ensures MatchesAt(whole, at) && ScoreDigits(whole, at) == whole[ds..de]
  {
    assert IsDigit(whole[ds]);
  }

  /** The key, whitespace and a digit run not followed by a digit match right at the
      key, and the captured group is the digit run. */
  lemma KeyMatches(whole: string, prefix: string, spaces: string, digits: string, suffix: string)
    requires whole == prefix + ScoreKey + spaces + digits + suffix
    requires forall k :: 0 <= k < |spaces| ==> IsSpace(spaces[k])
    requires |digits| >= 1 && forall k :: 0 <= k < |digits| ==> IsDigit(digits[k])
    requires suffix == [] || !IsDigit(suffix[0])
    ensures |prefix + ScoreKey + spaces + digits| <= |whole|
    ensures MatchesAt(whole, |prefix|)
    ensures ScoreDigits(whole, |prefix|) == whole[|prefix + ScoreKey + spaces|..|prefix + ScoreKey + spaces + digits|]
  {
    var head := prefix + ScoreKey;
    KeyAtFramed(whole, prefix, spaces + digits + suffix);
    assert whole == head + spaces + (digits + suffix);
    SkipSpacesFramed(whole, head, spaces, digits + suffix);
    SkipDigitsFramed(whole, head + spaces, digits, suffix);
    MatchFromRuns(whole, |prefix|, |head + spaces|, |head + spaces + digits|);
  }

  /** The middle piece of a three-piece string is found at its offset. */
  lemma DigitsSlice(whole: string, head: string, digits: string, suffix: string)
    requires whole == head + digits + suffix
    ensures |head| + |digits| <= |whole|
    ensures whole[|head|..|head| + |digits|] == digits
  {
    SliceOfMiddle(head, digits, suffix, 0, |digits|);
    assert digits[0..|digits|] == digits;
  }

  /** In text laid out as the judging model is asked to answer, the first match is at the
      key and captures exactly the digits. */
  lemma FirstMatchAtKey(whole: string, prefix: string, spaces: string, digits: string, suffix: string)
    requires whole == prefix + ScoreKey + spaces + digits + suffix
    requires '"' !in prefix
    requires forall k :: 0 <= k < |spaces| ==> IsSpace(spaces[k])
    requires |digits| >= 1 && forall k :: 0 <= k < |digits| ==> IsDigit(digits[k])
    requires suffix == [] || !IsDigit(suffix[0])
    ensures FirstMatch(whole, 0) == Some(|prefix|)
    ensures ScoreDigits(whole, |prefix|) == digits
  {
    KeyMatches(whole, prefix, spaces, digits, suffix);
    DigitsSlice(whole, prefix + ScoreKey + spaces, digits, suffix);
    forall k | 0 <= k < |prefix| ensures whole[k] != '"' {
      assert whole[k] == prefix[k];
    }
    NoMatchBeforeQuote(whole, |prefix|);
  }

  /** The parser reads back a score written in the requested format: after any text
      without a double quote, the key, any whitespace, the decimal digits of n and
      anything not starting with a digit, the score found is n. */
  lemma ScoreRoundTrip(prefix: string, spaces: string, n: nat, suffix: string)
    requires '"' !in prefix
    requires forall k :: 0 <= k < |spaces| ==> IsSpace(spaces[k])
    requires suffix == [] || !IsDigit(suffix[0])
    ensures ScoreInText(prefix + ScoreKey + spaces + NatToString(n) + suffix) == Some(n)
    ensures RelevanceScore(Message(prefix + ScoreKey + spaces + NatToString(n) + suffix)) == Ok(n)
  {
    var digits := NatToString(n);
    var s := prefix + ScoreKey + spaces + digits + suffix;
    FirstMatchAtKey(s, prefix, spaces, digits, suffix);
    DigitsOfNat(n);
  }

  /** A "hallucinated" verdict sends the run back to generate with the same query and context. */
  lemma HallucinatedRegenerates(o: Oracles, s: AgentState, fuel: nat, call: nat)
    requires fuel >= 2
    requires var completion := o.answer(s.query, s.context, call);
      o.gradeGrounding(completion, PageContents(s.context), call) == "hallucinated"
    ensures var r := Execute(o, Generate, s, fuel, call);
      |r.trace| >= 2 && r.trace[1].node == Generate &&
      r.trace[1].input.query == s.query && r.trace[1].input.context == s.context
  {
  }

  /** Only the two exact labels are routed; any other text from the judging model stops the run with
      no route out of generate. */
  lemma UnknownGroundingLabelHasNoRoute(o: Oracles, s: AgentState, fuel: nat, call: nat)
    requires fuel >= 1
    requires var verdict := o.gradeGrounding(o.answer(s.query, s.context, call), PageContents(s.context), call);
      verdict != "hallucinated" && verdict != "not hallucinated"
    ensures var verdict := o.gradeGrounding(o.answer(s.query, s.context, call), PageContents(s.context), call);
      Execute(o, Generate, s, fuel, call) ==
        Run([Visit(Generate, s)], Failed(NoRoute(Generate, verdict), GenerateNode(s, o.answer(s.query, s.context, call))))
  {
  }

  /** An unhelpful answer goes to rewrite and then to retrieve with the new query and
      an empty context and answer. */
  lemma UnhelpfulRewritesThenRetrieves(o: Oracles, s: AgentState, fuel: nat, call: nat)
    requires fuel >= 3
    requires var grade := o.gradeHelpfulness(s.query, s.answer, call);
      "Score" in grade && grade["Score"] != 1
    ensures var r := Execute(o, CheckHelpfulness, s, fuel, call);
      |r.trace| >= 3 && r.trace[1] == Visit(Rewrite, s) &&
      r.trace[2] == Visit(Retrieve, AgentState(o.rewriteQuery(s.query, call + 1), [], ""))
  {
  }

  /** A helpful answer ends the run with the state unchanged. */
  lemma HelpfulFinishes(o: Oracles, s: AgentState, fuel: nat, call: nat)
    requires fuel >= 1
    requires var grade := o.gradeHelpfulness(s.query, s.answer, call);
      "Score" in grade && grade["Score"] == 1
    ensures Execute(o, CheckHelpfulness, s, fuel, call) == Run([Visit(CheckHelpfulness, s)], Finished(s))
  {
  }

  /** The code has no retry bound: if the judging model always says "hallucinated", the run
      keeps regenerating on the same query and context until any budget is spent. */
  lemma {:induction false} PersistentHallucinationNeverEnds(o: Oracles, s: AgentState, fuel: nat, call: nat)
    requires forall a, c, k :: o.gradeGrounding(a, c, k) == "hallucinated"
    ensures var r := Execute(o, Generate, s, fuel, call);
      r.outcome.OutOfFuel? &&
      forall i :: 0 <= i < |r.trace| ==>
        r.trace[i].node == Generate && r.trace[i].input.query == s.query && r.trace[i].input.context == s.context
    decreases fuel
  {
    if fuel > 0 {
      var s' := RunNode(o, Generate, s, call);
      assert NextTarget(o, Generate, s', call) == Ok(Goto(Generate));
      PersistentHallucinationNeverEnds(o, s', fuel - 1, call + 1);
    }
  }

  /** The node the run moves to when every retrieval is relevant, every answer
      grounded and every answer unhelpful. */
  function UnhelpfulSuccessor(n: Node): Node
  {
    match n
    case Retrieve => Generate
    case Generate => CheckHelpfulness
    case CheckHelpfulness => Rewrite
    case Rewrite => Retrieve
  }

  lemma UnhelpfulRoute(o: Oracles, n: Node, s: AgentState, call: nat)
    requires forall q, d, k :: RelevanceScore(o.gradeRelevance(q, d, k)).Ok? && RelevanceScore(o.gradeRelevance(q, d, k)).value >= 7
    requires forall a, c, k :: o.gradeGrounding(a, c, k) == "not hallucinated"
    requires forall q, a, k :: "Score" in o.gradeHelpfulness(q, a, k) && o.gradeHelpfulness(q, a, k)["Score"] != 1
    ensures NextTarget(o, n, s, call) == Ok(Goto(UnhelpfulSuccessor(n)))
  {
    EdgeTable(o, n, s, call);
    assert RelevanceScore(o.gradeRelevance(s.query, s.context, call)).value >= 7;
    assert "Score" in o.gradeHelpfulness(s.query, s.answer, call);
  }

  /** Nor is the rewrite cycle bounded: when every retrieval is relevant, every answer
      grounded and every answer unhelpful, no budget is ever enough to finish. */
  lemma {:induction false} PersistentUnhelpfulnessNeverEnds(o: Oracles, n: Node, s: AgentState, fuel: nat, call: nat)
    requires forall q, d, k :: RelevanceScore(o.gradeRelevance(q, d, k)).Ok? && RelevanceScore(o.gradeRelevance(q, d, k)).value >= 7
    requires forall a, c, k :: o.gradeGrounding(a, c, k) == "not hallucinated"
    requires forall q, a, k :: "Score" in o.gradeHelpfulness(q, a, k) && o.gradeHelpfulness(q, a, k)["Score"] != 1
    ensures Execute(o, n, s, fuel, call).outcome.OutOfFuel?
    decreases fuel
  {
    if fuel > 0 {
      var s' := RunNode(o, n, s, call);
      UnhelpfulRoute(o, n, s', call);
      PersistentUnhelpfulnessNeverEnds(o, UnhelpfulSuccessor(n), s', fuel - 1, call + 1);
    }
  }

  /** A run that ended without using up its budget ends the same way with any larger budget. */
  lemma {:induction false} FuelMonotone(o: Oracles, n: Node, s: AgentState, fuel: nat, more: nat, call: nat)
    requires fuel <= more
    requires !Execute(o, n, s, fuel, call).outcome.OutOfFuel?
    ensures Execute(o, n, s, more, call) == Execute(o, n, s, fuel, call)
    decreases fuel
  {
    var s' := RunNode(o, n, s, call);
    match NextTarget(o, n, s', call)
    case Err(_) =>
    case Ok(End) =>
    case Ok(Goto(m)) =>
      FuelMonotone(o, m, s', fuel - 1, more - 1, call + 1);
  }

  /** A finished run ended at one of the two END edges: right after retrieve (an
      irrelevant context, with an empty answer) or at the helpfulness gate, whose
      state it returns unchanged. */
  predicate EndedAtGate(r: Run)
    requires r.trace != []
  {
    var last := r.trace[|r.trace| - 1];
    (last.node == Retrieve && r.outcome.state.answer == "") ||
    (last.node == CheckHelpfulness && r.outcome.state == last.input)
  }

  /** The END edges leave from retrieve, which clears the answer, and from the
      helpfulness gate, which changes nothing. */
  lemma EndsAtGate(o: Oracles, n: Node, s: AgentState, call: nat)
    requires NextTarget(o, n, RunNode(o, n, s, call), call) == Ok(End)
    ensures (n == Retrieve && RunNode(o, n, s, call).answer == "") ||
            (n == CheckHelpfulness && RunNode(o, n, s, call) == s)
  {
    EdgeTable(o, n, RunNode(o, n, s, call), call);
  }

  lemma GateAfterPrefix(v: Visit, rest: Run)
    requires rest.trace != [] && EndedAtGate(rest)
    ensures EndedAtGate(Run([v] + rest.trace, rest.outcome))
  {
    assert ([v] + rest.trace)[|rest.trace|] == rest.trace[|rest.trace| - 1];
  }

  lemma {:induction false} FinishedOnlyAtGates(o: Oracles, n: Node, s: AgentState, fuel: nat, call: nat)
    requires Execute(o, n, s, fuel, call).outcome.Finished?
    ensures Execute(o, n, s, fuel, call).trace != []
    ensures EndedAtGate(Execute(o, n, s, fuel, call))
    decreases fuel
  {
    var s' := RunNode(o, n, s, call);
    var t := NextTarget(o, n, s', call);
    if t == Ok(End) {
      EndsAtGate(o, n, s, call);
      ExecuteEnd(o, n, s, fuel, call);
    } else if t.Ok? {
      var m := t.value.node;
      var rest := Execute(o, m, s', fuel - 1, call + 1);
      ExecuteGoto(o, n, s, fuel, call, m);
      FinishedOnlyAtGates(o, m, s', fuel - 1, call + 1);
      GateAfterPrefix(Visit(n, s), rest);
      assert Execute(o, n, s, fuel, call) == Run([Visit(n, s)] + rest.trace, rest.outcome);
    } else {
      ExecuteFails(o, n, s, fuel, call);
      assert false;
    }
  }

  /** A grounded regeneration: the first answer is graded "hallucinated", the second
      grounded and helpful; the run succeeds with the second answer after calling
      generate exactly twice. */
  lemma RegenerateOnceThenSucceed(o: Oracles, q: string, fuel: nat)
    requires fuel >= 4
    requires var docs := o.search(q, 0);
      var score := RelevanceScore(o.gradeRelevance(q, docs, 0));
      score.Ok? && score.value >= 7
    requires var docs := o.search(q, 0);
      o.gradeGrounding(o.answer(q, docs, 1), PageContents(docs), 1) == "hallucinated" &&
      o.gradeGrounding(o.answer(q, docs, 2), PageContents(docs), 2) == "not hallucinated"
    requires var grade := o.gradeHelpfulness(q, o.answer(q, o.search(q, 0), 2), 3);
      "Score" in grade && grade["Score"] == 1
    ensures var docs := o.search(q, 0);
      var first := o.answer(q, docs, 1);
      var second := o.answer(q, docs, 2);
      Invoke(o, AgentState(q, [], ""), fuel) ==
        Run([Visit(Retrieve, AgentState(q, [], "")),
             Visit(Generate, AgentState(q, docs, "")),
             Visit(Generate, AgentState(q, docs, first)),
             Visit(CheckHelpfulness, AgentState(q, docs, second))],
            Finished(AgentState(q, docs, second)))
  {
    var docs := o.search(q, 0);
    var s0 := AgentState(q, [], "");
    var s1 := AgentState(q, docs, "");
    var s2 := AgentState(q, docs, o.answer(q, docs, 1));
    var s3 := AgentState(q, docs, o.answer(q, docs, 2));
    var r3 := Execute(o, CheckHelpfulness, s3, fuel - 3, 3);
    HelpfulFinishes(o, s3, fuel - 3, 3);
    assert r3 == Run([Visit(CheckHelpfulness, s3)], Finished(s3));
    assert RunNode(o, Generate, s2, 2) == s3;
    assert NextTarget(o, Generate, s3, 2) == Ok(Goto(CheckHelpfulness));
    var r2 := Execute(o, Generate, s2, fuel - 2, 2);
    assert r2 == Run([Visit(Generate, s2)] + r3.trace, r3.outcome);
    assert RunNode(o, Generate, s1, 1) == s2;
    assert NextTarget(o, Generate, s2, 1) == Ok(Goto(Generate));
    var r1 := Execute(o, Generate, s1, fuel - 1, 1);
    assert r1 == Run([Visit(Generate, s1)] + r2.trace, r2.outcome);
    assert RunNode(o, Retrieve, s0, 0) == s1;
    assert NextTarget(o, Retrieve, s1, 0) == Ok(Goto(Generate));
    assert Execute(o, Retrieve, s0, fuel, 0) == Run([Visit(Retrieve, s0)] + r1.trace, r1.outcome);
  }
}
