/** The LangChain messages that make up the agent's conversation state. */
module Messages {
  import opened Common

  /** One tool invocation requested by the model: `tool_call['name']`, `['args']`, `['id']`. */
  datatype ToolCall = ToolCall(name: string, args: map<string, string>, id: string)

  /**
   * `HumanMessage`, `AIMessage` and `ToolMessage`. Only an AI message has a
   * `tool_calls` attribute; `None` stands for the attribute being absent or `None`.
   */
  datatype Msg =
    | Human(content: string)
    | AI(content: string, toolCalls: Option<seq<ToolCall>>)
    | Tool(content: string, toolCallId: string, name: string)

  /** `hasattr(m, 'tool_calls') and m.tool_calls`: the message asks for at least one tool. */
  predicate HasPendingCalls(m: Msg) {
    m.AI? && m.toolCalls.Some? && |m.toolCalls.value| > 0
  }

  /** An AI message whose tool-call list is absent or empty: a final answer. */
  predicate IsFinalAnswer(m: Msg) {
    m.AI? && (m.toolCalls.None? || |m.toolCalls.value| == 0)
  }

  /** The calls the last message asks for; none when the list is empty. */
  function PendingCalls(messages: seq<Msg>): seq<ToolCall> {
    if |messages| > 0 && HasPendingCalls(messages[|messages| - 1])
    then messages[|messages| - 1].toolCalls.value
    else []
  }

  /** The number of AI messages in a history, one per model call. */
  function CountAI(messages: seq<Msg>): nat {
    if messages == [] then 0
    else CountAI(messages[..|messages| - 1]) + (if messages[|messages| - 1].AI? then 1 else 0)
  }
}
