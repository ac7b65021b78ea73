/** The agentic RAG loop of llm_rag/agentic_rag.py: retrieve, generate, and, while
    the answer is too short, fall back to another retrieval. The retriever and the
    language model are oracles told the index of the node execution they serve. */
module AgenticRag {
  import opened Text
  import opened Documents

  datatype AgentState = AgentState(query: string, context: seq<Document>, answer: string)

  datatype Oracles = Oracles(
    search: (string, nat) -> seq<Document>,   // retriever.invoke(query)
    complete: (string, nat) -> string)        // llm.invoke(prompt).content

  // ---- nodes ------------------------------------------------------------------

  /** retrieve: keep the query, store the documents in retrieval order, clear the answer. */
  function RetrieveNode(s: AgentState, docs: seq<Document>): AgentState
  {
    AgentState(s.query, docs, "")
  }

  /** fallback: "search again", which is exactly retrieve on the unchanged state. */
  function FallbackNode(s: AgentState, docs: seq<Document>): AgentState
  {
    RetrieveNode(s, docs)
  }

  /** The context block: page contents in order, separated by a blank line. */
  function ContextBlock(docs: seq<Document>): string
  {
    Join("\n\n", PageContents(docs))
  }

  const PromptHead: string := "너는 아래 문서 발췌 내용을 바탕으로 질문에 답해야 하는 어시스턴트야.\n\n문서 발췌:\n"

  /** The part of the prompt after the excerpts: the question and the answer cue. */
  function QuestionPart(query: string): string
  {
    "\n\n질문: " + query + "\n답변:"
  }

  /** The question-answering prompt generate sends to the model. */
  function Prompt(query: string, docs: seq<Document>): string
  {
    PromptHead + ContextBlock(docs) + QuestionPart(query)
  }

  /** generate: keep query and context, store the completion. */
  function GenerateNode(s: AgentState, completion: string): AgentState
  {
    AgentState(s.query, s.context, completion)
  }

  /** answer_check: "sufficient" exactly when the answer is longer than 10 characters,
      so an answer of exactly 10 characters is "insufficient". */
  function AnswerCheck(s: AgentState): (r: string)
    ensures r == "sufficient" <==> |s.answer| > 10
    ensures r == "insufficient" <==> |s.answer| <= 10
  {
    if |s.answer| > 10 then "sufficient" else "insufficient"
  }

  // ---- the graph ----------------------------------------------------------------

  datatype Node = Retrieve | Generate | Fallback

  datatype Target = Goto(node: Node) | End

  datatype Edge = Always(to: Target) | Branch(paths: map<string, Target>)

  /** add_edge(START, "retrieve") */
  const Entry: Node := Retrieve

  /** The edge table; the only conditional edge is routed by answer_check. */
  function Wiring(n: Node): Edge
  {
    match n
    case Retrieve => Always(Goto(Generate))
    case Generate => Branch(map["sufficient" := End, "insufficient" := Goto(Fallback)])
    case Fallback => Always(Goto(Retrieve))
  }

  function RunNode(o: Oracles, n: Node, s: AgentState, call: nat): (r: AgentState)
    ensures r.query == s.query
    ensures n != Generate ==> r.context == o.search(s.query, call) && r.answer == ""
    ensures n == Generate ==> r.context == s.context && r.answer == o.complete(Prompt(s.query, s.context), call)
  {
    match n
    case Retrieve => RetrieveNode(s, o.search(s.query, call))
    case Generate => GenerateNode(s, o.complete(Prompt(s.query, s.context), call))
    case Fallback => FallbackNode(s, o.search(s.query, call))
  }

  datatype Failure = NoRoute(origin: Node, verdict: string)

  function NextTarget(n: Node, s: AgentState): Result<Target, Failure>
  {
    match Wiring(n)
    case Always(t) => Ok(t)
    case Branch(paths) =>
      var verdict := AnswerCheck(s);
      if verdict in paths then Ok(paths[verdict]) else Err(NoRoute(n, verdict))
  }

  datatype Visit = Visit(node: Node, input: AgentState)

  datatype Outcome =
    | Finished(state: AgentState)
    | Failed(failure: Failure, state: AgentState)
    | OutOfFuel(state: AgentState, pending: Node)

  datatype Run = Run(trace: seq<Visit>, outcome: Outcome)

  /** Run the graph from node n for at most `fuel` node executions (the budget is
      the model's; the source sets none). */
  function Execute(o: Oracles, n: Node, s: AgentState, fuel: nat, call: nat): (r: Run)
    ensures |r.trace| <= fuel
    ensures r.outcome.OutOfFuel? ==> |r.trace| == fuel
    ensures fuel > 0 ==> |r.trace| >= 1 && r.trace[0] == Visit(n, s)
    decreases fuel
  {
    if fuel == 0 then Run([], OutOfFuel(s, n))
    else
      var s' := RunNode(o, n, s, call);
      match NextTarget(n, s')
      case Err(f) => Run([Visit(n, s)], Failed(f, s'))
      case Ok(End) => Run([Visit(n, s)], Finished(s'))
      case Ok(Goto(m)) =>
        var rest := Execute(o, m, s', fuel - 1, call + 1);
        Run([Visit(n, s)] + rest.trace, rest.outcome)
  }

  function Invoke(o: Oracles, initial: AgentState, fuel: nat): Run
  {
    Execute(o, Entry, initial, fuel, 0)
  }

  // ---- properties ------------------------------------------------------------------

  /** Fallback does what retrieve does, so a retry searches with the same query. */
  lemma FallbackIsRetrieve(o: Oracles, s: AgentState, call: nat)
    ensures RunNode(o, Fallback, s, call) == RunNode(o, Retrieve, s, call)
    ensures RunNode(o, Fallback, s, call).query == s.query
  {
  }

  /** The prompt carries every page content, in context order, each separated from the
      next by a blank line. */
  lemma PromptHoldsContextInOrder(query: string, docs: seq<Document>, i: nat)
    requires i < |docs|
    ensures var at := |PromptHead| + JoinOffset("\n\n", PageContents(docs), i);
      at + |docs[i].pageContent| <= |Prompt(query, docs)| &&
      Prompt(query, docs)[at..at + |docs[i].pageContent|] == docs[i].pageContent
  {
    var whole, parts := Prompt(query, docs), PageContents(docs);
    assert whole == PromptHead + Join("\n\n", parts) + QuestionPart(query);
    FramedJoinAt(whole, PromptHead, "\n\n", parts, QuestionPart(query), i);
    assert parts[i] == docs[i].pageContent;
  }

  /** The query never changes during a run: every node sees the caller's query, and so
      does the state the run ends with. */
  lemma {:induction false} QueryNeverChanges(o: Oracles, n: Node, s: AgentState, fuel: nat, call: nat)
    ensures var r := Execute(o, n, s, fuel, call);
      (forall i :: 0 <= i < |r.trace| ==> r.trace[i].input.query == s.query) &&
      r.outcome.state.query == s.query
    decreases fuel
  {
    if fuel > 0 {
      var s' := RunNode(o, n, s, call);
      match NextTarget(n, s')
      case Err(_) =>
      case Ok(End) =>
      case Ok(Goto(m)) =>
        QueryNeverChanges(o, m, s', fuel - 1, call + 1);
        var rest := Execute(o, m, s', fuel - 1, call + 1);
        assert Execute(o, n, s, fuel, call).trace == [Visit(n, s)] + rest.trace;
    }
  }

  /** The node that follows n in the cycle. */
  function Successor(n: Node): Node
  {
    match n
    case Retrieve => Generate
    case Generate => Fallback
    case Fallback => Retrieve
  }

  /** The router always has an edge for the verdict: generate ends the run on a long
      answer, and every other step moves to the next node of the cycle. */
  lemma RoutesAlongTheCycle(n: Node, s: AgentState)
    ensures NextTarget(n, s) ==
              if n == Generate && |s.answer| > 10 then Ok(End) else Ok(Goto(Successor(n)))
  {
    if n == Generate {
      var paths := map["sufficient" := End, "insufficient" := Goto(Fallback)];
      assert Wiring(n) == Branch(paths);
      if |s.answer| > 10 {
        assert AnswerCheck(s) == "sufficient";
        assert paths["sufficient"] == End;
      } else {
        assert AnswerCheck(s) == "insufficient";
        assert paths["insufficient"] == Goto(Fallback);
      }
    }
  }

  /** The router always has an edge for answer_check's verdict, so a run never fails,
      and it only finishes right after generate, with an answer longer than 10 characters. */
  lemma {:induction false} FinishesOnlyOnLongAnswer(o: Oracles, n: Node, s: AgentState, fuel: nat, call: nat)
    ensures var r := Execute(o, n, s, fuel, call);
      !r.outcome.Failed? &&
      (r.outcome.Finished? ==> r.trace[|r.trace| - 1].node == Generate && |r.outcome.state.answer| > 10)
    decreases fuel
  {
    if fuel > 0 {
      var s' := RunNode(o, n, s, call);
      RoutesAlongTheCycle(n, s');
      if n != Generate || |s'.answer| <= 10 {
        var m := Successor(n);
        FinishesOnlyOnLongAnswer(o, m, s', fuel - 1, call + 1);
        var rest := Execute(o, m, s', fuel - 1, call + 1);
        var r := Execute(o, n, s, fuel, call);
        assert r == Run([Visit(n, s)] + rest.trace, rest.outcome);
        if rest.outcome.Finished? {
          assert r.trace[|r.trace| - 1] == rest.trace[|rest.trace| - 1];
        }
      }
    }
  }

  /** The trace starts at `start`, and each visit is to the successor of the one before. */
  predicate FollowsCycle(trace: seq<Visit>, start: Node)
  {
    (|trace| > 0 ==> trace[0].node == start) &&
    forall i :: 0 < i < |trace| ==> trace[i].node == Successor(trace[i - 1].node)
  }

  /** The visits follow the cycle retrieve → generate → fallback → retrieve → …,
      starting wherever the run starts. */
  lemma {:induction false} RunIsTheCycle(o: Oracles, n: Node, s: AgentState, fuel: nat, call: nat)
    ensures FollowsCycle(Execute(o, n, s, fuel, call).trace, n)
    decreases fuel
  {
    if fuel > 0 {
      var s' := RunNode(o, n, s, call);
      RoutesAlongTheCycle(n, s');
      if n != Generate || |s'.answer| <= 10 {
        var m := Successor(n);
        RunIsTheCycle(o, m, s', fuel - 1, call + 1);
        var rest := Execute(o, m, s', fuel - 1, call + 1).trace;
        var trace := Execute(o, n, s, fuel, call).trace;
        assert trace == [Visit(n, s)] + rest;
        forall i | 0 < i < |trace|
          ensures trace[i].node == Successor(trace[i - 1].node)
        {
          assert trace[i] == rest[i - 1];
          if i > 1 {
            assert trace[i - 1] == rest[i - 2];
          }
        }
      }
    }
  }

  /** There is no retry counter: if the model keeps answering in at most 10 characters,
      the loop goes on until any budget is spent. */
  lemma {:induction false} ShortAnswersNeverEnd(o: Oracles, n: Node, s: AgentState, fuel: nat, call: nat)
    requires forall p, k :: |o.complete(p, k)| <= 10
    ensures Execute(o, n, s, fuel, call).outcome.OutOfFuel?
    decreases fuel
  {
    if fuel > 0 {
      var s' := RunNode(o, n, s, call);
      RoutesAlongTheCycle(n, s');
      assert n == Generate ==> |s'.answer| <= 10;
      ShortAnswersNeverEnd(o, Successor(n), s', fuel - 1, call + 1);
    }
  }

  /** A first answer longer than 10 characters ends the run after retrieve and generate,
      with the retrieved documents as context and that answer. */
  lemma LongFirstAnswerFinishes(o: Oracles, initial: AgentState, fuel: nat)
    requires fuel >= 2
    requires |o.complete(Prompt(initial.query, o.search(initial.query, 0)), 1)| > 10
    ensures var docs := o.search(initial.query, 0);
      var r := Invoke(o, initial, fuel);
      |r.trace| == 2 &&
      r.outcome == Finished(AgentState(initial.query, docs, o.complete(Prompt(initial.query, docs), 1)))
  {
    var s1 := RunNode(o, Retrieve, initial, 0);
    var s2 := RunNode(o, Generate, s1, 1);
    assert Execute(o, Generate, s1, fuel - 1, 1).outcome == Finished(s2);
  }
}
