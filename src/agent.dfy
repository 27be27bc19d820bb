/**
 * The conflict-analyst agent: a two-node graph (`agent`, `tools`) over a growing
 * list of messages. The chat model and the tools are oracles passed in as functions.
 */
module Agent {
  import opened Common
  import opened Messages

  /** What invoking a registered tool does: returns a value (already `str()`-ed) or raises. */
  datatype ToolOutcome = Returned(text: string) | Raised(error: string)

  /** The registered tools' `invoke`, by tool name and arguments. */
  type ToolRunner = (string, map<string, string>) -> ToolOutcome

  /** The model's answer: an `AIMessage`'s content and its `tool_calls` attribute. */
  datatype Reply = Reply(content: string, toolCalls: Option<seq<ToolCall>>)

  /** The prompt chain `prompt | llm.bind_tools(tools)`: history in, next reply out, or it raises. */
  type ChatModel = seq<Msg> -> Result<Reply>

  /** The names of the seven tools in the registry, in declaration order. */
  const ToolNames: seq<string> := [
    "get_channel_history", "get_user_info", "google_search", "find_user_by_name",
    "get_mentioned_users", "list_channel_members", "summarize_channel_history"
  ]

  /** `tool_name in tool_executor`: the name is a key of the name-to-tool dictionary. */
  predicate IsRegistered(name: string) {
    name in ToolNames
  }

  /** The `ToolMessage` that answers one call to a registered tool. */
  function Answer(call: ToolCall, run: ToolRunner): Msg {
    match run(call.name, call.args)
    case Returned(text) => Tool(text, call.id, call.name)
    case Raised(e) => Tool("Error executing " + call.name + ": " + e, call.id, call.name)
  }

  /** The tool messages produced for `calls`, in call order; unregistered names produce nothing. */
  function ToolMessages(calls: seq<ToolCall>, run: ToolRunner): seq<Msg> {
    if calls == [] then []
    else
      var last := calls[|calls| - 1];
      ToolMessages(calls[..|calls| - 1], run) + (if IsRegistered(last.name) then [Answer(last, run)] else [])
  }

  /** How many of `calls` name a registered tool. */
  function CountRegistered(calls: seq<ToolCall>): nat {
    if calls == [] then 0
    else CountRegistered(calls[..|calls| - 1]) + (if IsRegistered(calls[|calls| - 1].name) then 1 else 0)
  }

  /**
   * The `tools` node: for the last message's tool calls, invokes each registered
   * tool in turn, turning its result or exception into a `ToolMessage`.
   */
  method CallTools(messages: seq<Msg>, run: ToolRunner) returns (toolOutputs: seq<Msg>)
    requires |messages| > 0
    ensures toolOutputs == ToolMessages(PendingCalls(messages), run)
  {
    var lastMessage := messages[|messages| - 1];
    toolOutputs := [];
    if lastMessage.AI? && lastMessage.toolCalls.Some? && |lastMessage.toolCalls.value| > 0 {
      var calls := lastMessage.toolCalls.value;
      var i := 0;
      while i < |calls|
        invariant 0 <= i <= |calls|
        invariant toolOutputs == ToolMessages(calls[..i], run)
      {
        var toolCall := calls[i];
        if toolCall.name in ToolNames {
          match run(toolCall.name, toolCall.args)
          case Returned(result) =>
            toolOutputs := toolOutputs + [Tool(result, toolCall.id, toolCall.name)];
          case Raised(e) =>
            toolOutputs := toolOutputs + [Tool("Error executing " + toolCall.name + ": " + e, toolCall.id, toolCall.name)];
        }
        assert calls[..i + 1][..i] == calls[..i];
        i := i + 1;
      }
      assert calls[..|calls|] == calls;
    }
  }

  /** Tool messages for a concatenation of call lists are the concatenation of theirs. */
  lemma {:induction false} ToolMessagesAppend(a: seq<ToolCall>, b: seq<ToolCall>, run: ToolRunner)
    ensures ToolMessages(a + b, run) == ToolMessages(a, run) + ToolMessages(b, run)
    decreases |b|
  {
    if b == [] {
      assert a + b == a;
    } else {
      var init := b[..|b| - 1];
      assert (a + b)[..|a + b| - 1] == a + init;
      assert (a + b)[|a + b| - 1] == b[|b| - 1];
      ToolMessagesAppend(a, init, run);
    }
  }

  /**
   * A call to a name outside the registry is silently dropped: removing it
   * leaves the produced tool messages unchanged.
   */
  lemma UnregisteredCallDropped(a: seq<ToolCall>, c: ToolCall, b: seq<ToolCall>, run: ToolRunner)
    requires !IsRegistered(c.name)
    ensures ToolMessages(a + [c] + b, run) == ToolMessages(a + b, run)
  {
    ToolMessagesAppend(a + [c], b, run);
    ToolMessagesAppend(a, [c], run);
    ToolMessagesAppend(a, b, run);
    assert [c][..0] == [];
  }

  /** One tool message per call with a registered name, so no more than there are calls. */
  lemma {:induction false} ToolMessagesCount(calls: seq<ToolCall>, run: ToolRunner)
    ensures |ToolMessages(calls, run)| == CountRegistered(calls) <= |calls|
    ensures CountRegistered(calls) == |calls| <==> forall i :: 0 <= i < |calls| ==> IsRegistered(calls[i].name)
  {
    if calls != [] {
      var init := calls[..|calls| - 1];
      ToolMessagesCount(init, run);
      assert forall i :: 0 <= i < |init| ==> init[i] == calls[i];
    }
  }

  /**
   * The tool messages answer the registered calls in call order: the j-th message
   * answers call `idx[j]`, carries that call's id and name, the positions increase
   * strictly, and every registered call is among them.
   */
  lemma {:induction false} ToolMessagesAnswerInOrder(calls: seq<ToolCall>, run: ToolRunner) returns (idx: seq<nat>)
    ensures |ToolMessages(calls, run)| == |idx|
    ensures forall j :: 0 <= j < |idx| ==>
      idx[j] < |calls| && IsRegistered(calls[idx[j]].name) &&
      ToolMessages(calls, run)[j] == Answer(calls[idx[j]], run)
    ensures forall j :: 0 <= j < |idx| ==>
      ToolMessages(calls, run)[j].Tool? &&
      ToolMessages(calls, run)[j].toolCallId == calls[idx[j]].id &&
      ToolMessages(calls, run)[j].name == calls[idx[j]].name
    ensures forall j, k :: 0 <= j < k < |idx| ==> idx[j] < idx[k]
    ensures forall i :: 0 <= i < |calls| && IsRegistered(calls[i].name) ==> i in idx
  {
    if calls == [] {
      idx := [];
    } else {
      var n := |calls| - 1;
      var init := calls[..n];
      var prev := ToolMessagesAnswerInOrder(init, run);
      var out := ToolMessages(calls, run);
      var outPrev := ToolMessages(init, run);
      var added := if IsRegistered(calls[n].name) then [n] else [];
      idx := prev + added;
      assert out == outPrev + (if IsRegistered(calls[n].name) then [Answer(calls[n], run)] else []);
      forall j | 0 <= j < |idx|
        ensures idx[j] < |calls| && IsRegistered(calls[idx[j]].name) && out[j] == Answer(calls[idx[j]], run)
      {
        if j < |prev| {
          assert idx[j] == prev[j] && init[prev[j]] == calls[prev[j]];
        }
      }
      forall j | 0 <= j < |idx|
        ensures out[j].Tool? && out[j].toolCallId == calls[idx[j]].id && out[j].name == calls[idx[j]].name
      {
        var c := calls[idx[j]];
        assert out[j] == Answer(c, run);
      }
      forall i | 0 <= i < |calls| && IsRegistered(calls[i].name)
        ensures i in idx
      {
        if i < n {
          assert init[i] == calls[i];
          assert i in prev;
        } else {
          assert idx[|idx| - 1] == i;
        }
      }
    }
  }

  /** The graph's nodes; `EndNode` is LangGraph's `END`. */
  datatype Node = AgentNode | ToolsNode | EndNode

  /** `workflow.set_entry_point("agent")`. */
  const EntryPoint: Node := AgentNode

  /** The two literals `should_continue` returns. */
  datatype Route = ToTools | ToEnd

  /** `should_continue`: go to the tools when the last message asks for any. */
  function ShouldContinue(messages: seq<Msg>): Route
    requires |messages| > 0
  {
    if HasPendingCalls(messages[|messages| - 1]) then ToTools else ToEnd
  }

  /**
   * `should_continue` routes to the tools exactly when the last message is an AI
   * message with a non-empty tool-call list; an AI message routes to the end
   * exactly when it is a final answer.
   */
  lemma ShouldContinueRoutes(messages: seq<Msg>)
    requires |messages| > 0
    ensures var last := messages[|messages| - 1];
      (ShouldContinue(messages) == ToTools <==> last.AI? && last.toolCalls.Some? && last.toolCalls.value != []) &&
      (last.AI? ==> (ShouldContinue(messages) == ToEnd <==> IsFinalAnswer(last)))
  {
  }

  /** The graph's edges: `agent` branches on `should_continue`, `tools` always returns to `agent`. */
  function Successor(node: Node, messages: seq<Msg>): Node
    requires node == AgentNode ==> |messages| > 0
  {
    match node
    case AgentNode => if ShouldContinue(messages) == ToTools then ToolsNode else EndNode
    case ToolsNode => AgentNode
    case EndNode => EndNode
  }

  /** The error raised when the step budget is spent before the graph reaches `END`. */
  const RecursionLimitError: string := "Recursion limit reached without hitting a stop condition."

  /**
   * The compiled graph run from `node` with `steps` node executions already used:
   * each `agent` step appends the model's reply, each `tools` step appends the tool
   * messages, and executing a node beyond `limit` steps raises.
   */
  function RunFrom(messages: seq<Msg>, node: Node, steps: nat, limit: nat, model: ChatModel, run: ToolRunner): Result<seq<Msg>>
    decreases limit - steps
  {
    if node == EndNode then Ok(messages)
    else if steps >= limit then Err(RecursionLimitError)
    else if node == AgentNode then
      match model(messages)
      case Err(e) => Err(e)
      case Ok(reply) =>
        var next := messages + [AI(reply.content, reply.toolCalls)];
        RunFrom(next, Successor(AgentNode, next), steps + 1, limit, model, run)
    else
      RunFrom(messages + ToolMessages(PendingCalls(messages), run), AgentNode, steps + 1, limit, model, run)
  }

  /** `agent_executor.invoke`: runs the graph from its entry point with a step budget. */
  method Invoke(initial: seq<Msg>, limit: nat, model: ChatModel, run: ToolRunner) returns (result: Result<seq<Msg>>)
    ensures result == RunFrom(initial, EntryPoint, 0, limit, model, run)
  {
    var messages := initial;
    var node := EntryPoint;
    var steps: nat := 0;
    while node != EndNode
      invariant steps <= limit
      invariant node == ToolsNode ==> |messages| > 0
      invariant RunFrom(messages, node, steps, limit, model, run) == RunFrom(initial, EntryPoint, 0, limit, model, run)
      decreases limit - steps
    {
      if steps >= limit {
        return Err(RecursionLimitError);
      }
      if node == AgentNode {
        var response := model(messages);
        if response.Err? {
          return Err(response.error);
        }
        messages := messages + [AI(response.value.content, response.value.toolCalls)];
        node := if ShouldContinue(messages) == ToTools then ToolsNode else EndNode;
      } else {
        var update := CallTools(messages, run);
        messages := messages + update;
        node := AgentNode;
      }
      steps := steps + 1;
    }
    result := Ok(messages);
  }

  /** A run only appends: the history it started from is a prefix of the one it returns. */
  lemma {:induction false} RunAppendOnly(messages: seq<Msg>, node: Node, steps: nat, limit: nat, model: ChatModel, run: ToolRunner)
    requires RunFrom(messages, node, steps, limit, model, run).Ok?
    ensures messages <= RunFrom(messages, node, steps, limit, model, run).value
    decreases limit - steps
  {
    if node != EndNode && steps < limit {
      if node == AgentNode {
        var reply := model(messages).value;
        var next := messages + [AI(reply.content, reply.toolCalls)];
        RunAppendOnly(next, Successor(AgentNode, next), steps + 1, limit, model, run);
      } else {
        var next := messages + ToolMessages(PendingCalls(messages), run);
        RunAppendOnly(next, AgentNode, steps + 1, limit, model, run);
      }
    }
  }

  /**
   * A run that finishes ends on the model's final answer: the last message is an
   * AI message without pending tool calls.
   */
  lemma {:induction false} RunEndsWithFinalAnswer(messages: seq<Msg>, node: Node, steps: nat, limit: nat, model: ChatModel, run: ToolRunner)
    requires node != EndNode
    requires RunFrom(messages, node, steps, limit, model, run).Ok?
    ensures var out := RunFrom(messages, node, steps, limit, model, run).value;
      |out| > |messages| && IsFinalAnswer(out[|out| - 1])
    decreases limit - steps
  {
    if node == AgentNode {
      var reply := model(messages).value;
      var next := messages + [AI(reply.content, reply.toolCalls)];
      if Successor(AgentNode, next) != EndNode {
        RunEndsWithFinalAnswer(next, ToolsNode, steps + 1, limit, model, run);
      }
    } else {
      var next := messages + ToolMessages(PendingCalls(messages), run);
      RunEndsWithFinalAnswer(next, AgentNode, steps + 1, limit, model, run);
    }
  }

  /** Counting AI messages distributes over concatenation. */
  lemma {:induction false} CountAIAppend(a: seq<Msg>, b: seq<Msg>)
    ensures CountAI(a + b) == CountAI(a) + CountAI(b)
    decreases |b|
  {
    if b == [] {
      assert a + b == a;
    } else {
      var init := b[..|b| - 1];
      assert (a + b)[..|a + b| - 1] == a + init;
      assert (a + b)[|a + b| - 1] == b[|b| - 1];
      CountAIAppend(a, init);
    }
  }

  /** Tool steps add no AI message. */
  lemma {:induction false} ToolMessagesHaveNoAI(calls: seq<ToolCall>, run: ToolRunner)
    ensures CountAI(ToolMessages(calls, run)) == 0
  {
    if calls != [] {
      var init := calls[..|calls| - 1];
      var last := calls[|calls| - 1];
      ToolMessagesHaveNoAI(init, run);
      var tail := if IsRegistered(last.name) then [Answer(last, run)] else [];
      CountAIAppend(ToolMessages(init, run), tail);
      if tail != [] {
        assert tail[..0] == [];
      }
    }
  }

  /**
   * The step budget bounds the model calls: a finished run from `agent` with `k`
   * steps left made at most `(k + 1) / 2` of them (one AI message each), and from
   * `tools` at most `k / 2`.
   */
  lemma {:induction false} ModelCallsBounded(messages: seq<Msg>, node: Node, steps: nat, limit: nat, model: ChatModel, run: ToolRunner)
    requires node != EndNode
    requires steps <= limit
    requires RunFrom(messages, node, steps, limit, model, run).Ok?
    ensures var out := RunFrom(messages, node, steps, limit, model, run).value;
      messages <= out &&
      2 * CountAI(out[|messages|..]) <= (if node == AgentNode then limit - steps + 1 else limit - steps)
    decreases limit - steps
  {
    var out := RunFrom(messages, node, steps, limit, model, run).value;
    RunAppendOnly(messages, node, steps, limit, model, run);
    if node == AgentNode {
      var reply := model(messages).value;
      var added := [AI(reply.content, reply.toolCalls)];
      var next := messages + added;
      assert CountAI(added) == 1 by {
        assert added[..0] == [];
      }
      if Successor(AgentNode, next) == EndNode {
        assert out == next;
        assert out[|messages|..] == added;
      } else {
        ModelCallsBounded(next, ToolsNode, steps + 1, limit, model, run);
        assert out[|messages|..] == added + out[|next|..];
        CountAIAppend(added, out[|next|..]);
      }
    } else {
      var added := ToolMessages(PendingCalls(messages), run);
      var next := messages + added;
      ModelCallsBounded(next, AgentNode, steps + 1, limit, model, run);
      assert out[|messages|..] == added + out[|next|..];
      CountAIAppend(added, out[|next|..]);
      ToolMessagesHaveNoAI(PendingCalls(messages), run);
    }
  }

  /** A model that always asks for tools never reaches `END`: the run raises at the step limit. */
  lemma {:induction false} EndlessToolRequestsHitLimit(messages: seq<Msg>, node: Node, steps: nat, limit: nat, model: ChatModel, run: ToolRunner)
    requires node != EndNode
    requires forall h :: model(h).Ok? && model(h).value.toolCalls.Some? && |model(h).value.toolCalls.value| > 0
    ensures RunFrom(messages, node, steps, limit, model, run) == Err(RecursionLimitError)
    decreases limit - steps
  {
    if steps < limit {
      if node == AgentNode {
        var reply := model(messages).value;
        var next := messages + [AI(reply.content, reply.toolCalls)];
        assert Successor(AgentNode, next) == ToolsNode;
        EndlessToolRequestsHitLimit(next, ToolsNode, steps + 1, limit, model, run);
      } else {
        var next := messages + ToolMessages(PendingCalls(messages), run);
        EndlessToolRequestsHitLimit(next, AgentNode, steps + 1, limit, model, run);
      }
    }
  }
}
