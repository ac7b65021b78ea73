/** The chat front end of the MirrorLake assistant: each question rebuilds the LLM
    message list from the chat history kept by the web page, hands it to the
    tool-calling agent graph, and appends the question and the reply to the history. */
module ChatClient {

  /** A message of the LLM conversation. */
  datatype Message = System(content: string) | Human(content: string) | AI(content: string)

  /** One entry of the page's chat history: a role and the text shown for it. */
  datatype Turn = Turn(role: string, content: string)

  /** What the compiled agent graph does with a message list: it returns the final
      message list, or it raises. The graph itself is not part of this model. */
  datatype GraphOutcome = Returned(messages: seq<Message>) | Raised(message: string)

  /** History entries are read by position, not by their role: even positions were
      questions, odd positions were answers. */
  function AtPosition(k: nat, content: string): (m: Message)
    ensures m.content == content
    ensures m.Human? <==> k % 2 == 0
    ensures m.AI? <==> k % 2 == 1
  {
    if k % 2 == 0 then Human(content) else AI(content)
  }

  /** The message list sent for a question: the system prompt, every history entry
      in order, and the new question last. */
  predicate IsConversation(messages: seq<Message>, systemPrompt: string, history: seq<Turn>, userInput: string)
  {
    |messages| == |history| + 2 &&
    messages[0] == System(systemPrompt) &&
    (forall k :: 0 <= k < |history| ==> messages[k + 1] == AtPosition(k, history[k].content)) &&
    messages[|history| + 1] == Human(userInput)
  }

  /** There is exactly one message list for a given prompt, history and question. */
  lemma ConversationIsUnique(m1: seq<Message>, m2: seq<Message>, systemPrompt: string, history: seq<Turn>, userInput: string)
    requires IsConversation(m1, systemPrompt, history, userInput)
    requires IsConversation(m2, systemPrompt, history, userInput)
    ensures m1 == m2
  {
    forall i | 0 <= i < |m1|
      ensures m1[i] == m2[i]
    {
      if 0 < i <= |history| {
        var k := i - 1;
        assert m1[k + 1] == AtPosition(k, history[k].content) == m2[k + 1];
      }
    }
  }

  /** The loop over the history in steps of two: a question, then its answer if there is one. */
  method BuildMessages(systemPrompt: string, history: seq<Turn>, userInput: string) returns (messages: seq<Message>)
    ensures IsConversation(messages, systemPrompt, history, userInput)
  {
    messages := [System(systemPrompt)];
    var i := 0;
    while i < |history|
      invariant i % 2 == 0
      invariant i <= |history| + 1
      invariant |messages| == 1 + (if i <= |history| then i else |history|)
      invariant messages[0] == System(systemPrompt)
      invariant forall k :: 0 <= k < |messages| - 1 ==> messages[k + 1] == AtPosition(k, history[k].content)
    {
      messages := messages + [Human(history[i].content)];
      if i + 1 < |history| {
        messages := messages + [AI(history[i + 1].content)];
      }
      i := i + 2;
    }
    messages := messages + [Human(userInput)];
  }

  /** The reply shown for a graph outcome: the content of the last returned message,
      or "[에러] " and the exception's text. An empty message list fails on `[-1]`. */
  function Reply(outcome: GraphOutcome): (reply: string)
  {
    match outcome
    case Raised(message) => "[에러] " + message
    case Returned(messages) =>
      if messages == [] then "[에러] list index out of range"
      else messages[|messages| - 1].content
  }

  /** A history as the page builds it: whole exchanges, questions at even positions
      and answers at odd ones. */
  predicate Alternates(history: seq<Turn>)
  {
    |history| % 2 == 0 &&
    forall k :: 0 <= k < |history| ==> history[k].role == (if k % 2 == 0 then "user" else "assistant")
  }

  /** On a history the page built, reading by position gives every entry the message
      kind of its role. */
  lemma PositionMatchesRole(messages: seq<Message>, systemPrompt: string, history: seq<Turn>, userInput: string, k: nat)
    requires IsConversation(messages, systemPrompt, history, userInput)
    requires Alternates(history)
    requires k < |history|
    ensures messages[k + 1].Human? <==> history[k].role == "user"
    ensures messages[k + 1].AI? <==> history[k].role == "assistant"
    ensures messages[k + 1].content == history[k].content
  {
  }

  /** A history with an odd number of entries, as a caller could pass one: the last
      entry becomes a question with no answer. */
  lemma TrailingEntryIsAQuestion(messages: seq<Message>, systemPrompt: string, history: seq<Turn>, userInput: string)
    requires IsConversation(messages, systemPrompt, history, userInput)
    requires |history| % 2 == 1
    ensures messages[|history|].Human?
    ensures messages[|history| + 1].Human?
  {
    assert messages[(|history| - 1) + 1] == AtPosition(|history| - 1, history[|history| - 1].content);
  }

  /** The chat history state the page keeps between questions. */
  class ChatHistory {
    var turns: seq<Turn>

    constructor ()
      ensures turns == []
    {
      turns := [];
    }

    /** query_agent: ask the agent graph and record the exchange, whether or not it failed. */
    method QueryAgent(userInput: string, systemPrompt: string, invoke: seq<Message> -> GraphOutcome)
      returns (history: seq<Turn>, cleared: string, sent: seq<Message>)
      modifies this
      ensures IsConversation(sent, systemPrompt, old(turns), userInput)
      ensures turns == old(turns) + [Turn("user", userInput), Turn("assistant", Reply(invoke(sent)))]
      ensures Alternates(old(turns)) ==> Alternates(turns)
      ensures history == turns && cleared == ""
    {
      sent := BuildMessages(systemPrompt, turns, userInput);
      var reply := Reply(invoke(sent));
      turns := turns + [Turn("user", userInput)];
      turns := turns + [Turn("assistant", reply)];
      history := turns;
      cleared := "";
    }
  }
}
