# BetweenUS conflict-analyst bot — Dafny model of the agent run loop

This project models the core of a Slack bot. When the bot is mentioned, it asks a hosted
language model to help resolve a conflict. The model can call tools that fetch Slack
context. The bot runs until the model gives a plain answer, then posts that answer back.

What is modelled:

- `Agent` (agent.py). The conversation state is a growing list of LangChain messages.
  - The graph has two nodes. The `agent` node appends the model's reply. The `tools`
    node appends one `ToolMessage` per call to a registered tool, in call order.
  - A call to an unregistered tool name is dropped, as the code does.
  - `should_continue` routes `agent` to `tools` or to `END`. `tools` always goes back
    to `agent`. The run starts at `agent` and may execute at most `limit` nodes; a
    further node raises.
  - The chat model and the tools' `invoke` are oracles, passed in as functions.
- `PyText`. Python's `str.replace(t, "")` (left-to-right, non-overlapping) and
  `str.strip()`, with Python's whitespace set. They are modelled exactly enough to state
  what the mention cleaning does.
- `App` (app.py). The `app_mention` handler:
  - Cleans the text: removes the bot's `<@id>`, strips whitespace, appends the context
    note.
  - Starts the graph with one human message and a step budget of 10.
  - Scans the result backwards for the latest AI message whose tool-call list is absent
    or empty.
  - Falls back to the help text for a missing or empty answer. Any exception gives the
    apology text.
  - Posts exactly one reply per event through the `say` callback (`ReplyLog`).
- `SlackTools` (tools/slack_tools.py). The module-global client is a field of
  `SlackToolbox`, set by `SetSlackClient`. `GetChannelHistory` renders the API's
  newest-first list oldest first, one `[**User: u at t**] text\n` line per message.
  `GetUserInfo` returns the real name, a not-found text or an error text. Both guard
  against an unset client and turn every failure into a string.
- `Messages` and `Common`: the message datatypes, and the Option/Result wrappers for
  missing keys and raised exceptions.

An AI message's `tool_calls` is an `Option<seq<ToolCall>>`; `None` stands for the
attribute being absent or `None`. Exceptions are represented by their `str()` text,
which the oracles supply.

Where the design description and the code disagree, the model follows the code:

- An unknown tool name gets no error result. The call is silently skipped (agent.py:78).
  So a call to an unregistered tool is left without an answer.
- There is no classification step, prompt-label selection, transcript aggregation or
  summarisation in the code of the core files.

## Model

| member | source | states |
|---|---|---|
| `Agent.CallTools` | agent.py:64-93 | The `tools` node's output is the tool messages for the last message's calls. It is empty when that message has no calls or an empty list. |
| `Agent.ToolMessagesAnswerInOrder` | agent.py:74-91 | The j-th tool message answers the call at a strictly increasing position `idx[j]`. It carries that call's id and name and is the call's result, or `Error executing {name}: {err}` when the tool raised. Every call with a registered name is answered. |
| `Agent.ToolMessagesCount` | agent.py:70-78 | There are exactly as many tool messages as calls with registered names, so never more than there are calls. Equality with the number of calls holds iff every name is registered. |
| `Agent.UnregisteredCallDropped` | agent.py:78 | Removing a call to an unregistered name from any position leaves the tool messages unchanged. |
| `Agent.ToolMessagesAppend` | agent.py:74-91 | Calls are processed independently: the messages for `a + b` are those for `a` followed by those for `b`. |
| `Agent.ShouldContinueRoutes` | agent.py:108-117 | `should_continue` says `tools` iff the last message is an AI message with a non-empty tool-call list. For an AI message it says `end` iff the message is a final answer. |
| `Agent.Invoke` | agent.py:120-145 | Running the compiled graph (entry `agent`; `agent` branches on `should_continue`; `tools` returns to `agent`) gives the step-bounded run from the entry point. |
| `Agent.RunAppendOnly` | agent.py:48-49 | A run only appends: the starting history is a prefix of the final one. |
| `Agent.RunEndsWithFinalAnswer` | agent.py:132-139 | A run that reaches `END` has added messages, and its last message is an AI message without pending tool calls. |
| `Agent.ModelCallsBounded` | agent.py:125-142 | A completed run with `k` steps left added at most `(k + 1) / 2` AI messages from `agent`, or `k / 2` from `tools`. There is one per model call. |
| `Agent.EndlessToolRequestsHitLimit` | agent.py:132-142 | If the model always asks for tools, the run never ends normally and raises the recursion-limit error. |
| `PyText.SplitJoinRoundTrip` | app.py:31 | Joining the pieces of a split with the separator gives back the input. |
| `PyText.RemoveAllIsConcatOfSplit` | app.py:31 | `replace(t, "")` equals the split pieces glued together without `t`. |
| `PyText.SplitPiecesAvoidSeparator` | app.py:31 | No piece of a split contains the separator. |
| `PyText.StripIsTrimmedSlice` | app.py:31 | `strip()` is a slice `s[i..j]` that drops only whitespace on both sides. It neither starts nor ends with whitespace. |
| `App.CleanMessageShape` | app.py:30-34 | The input is the mention-free pieces joined by `<@bot>`. The cleaned message is those pieces glued together and stripped, then ` [Context: This is from user {user} in channel {channel}]`. |
| `App.MentionCanSurviveCleaning` | app.py:31 | Removing the mentions can create a new one: `<@<@U1>U1>` still mentions `U1` after cleaning. |
| `App.LatestFinalIsLatest` | app.py:59-67 | The backwards scan finds nothing iff no AI message is a final answer. Otherwise it returns the content of a final answer with no final answer after it. |
| `App.ExtractFinalResponse` | app.py:59-67 | The loop over `reversed(final_messages)` with `break` returns the latest final answer's content. |
| `App.HandleAppMentionEvents` | app.py:23-80 | Exactly one reply is posted per event. It is the apology when an event field, the bot id or the agent run failed. Otherwise it is the latest final answer, or the help text when that is missing or empty. |
| `App.MentionReplyOnCompletedRun` | app.py:39-74 | A completed run starts with the single cleaned human message and ends on a final answer. It made at most 5 model calls under the limit of 10. The posted reply is that answer's text, or the help text if the text is empty. |
| `App.DirectAnswerIsPostedVerbatim` | app.py:39-74 | If the model's first reply asks for no tools, the run makes one `agent` step and the history is `[human, reply]`. The posted reply is the reply's text verbatim. |
| `App.UserInfoCallFeedsSecondAgentStep` | agent.py:125-142 | Suppose the first reply calls `get_user_info` and that tool returns `Dana`. Then the tool message is exactly `Dana` and answers that call, and the run continues with a second `agent` step on the three-message history. |
| `SlackTools.SlackToolbox.constructor` | tools/slack_tools.py:9 | The client starts unset. |
| `SlackTools.SlackToolbox.SetSlackClient` | tools/slack_tools.py:11-14 | After the call, the client is the given one. |
| `SlackTools.SlackToolbox.GetChannelHistory` | tools/slack_tools.py:16-39 | With no client, the result is `Error: Slack client not initialized`. A failed fetch or timestamp gives `Error fetching channel history: {e}`. Otherwise it is the rendered history. |
| `SlackTools.SlackToolbox.GetUserInfo` | tools/slack_tools.py:41-56 | With no client, the result is the not-initialised text. It is `profile.real_name` when the response is `ok`, otherwise `User info not found for ID: {id}`. Any failure gives `Error fetching user info: {e}`. |
| `SlackTools.RenderHistoryAppend` | tools/slack_tools.py:29-37 | Rendering `a + b` puts `b`'s lines before `a`'s, which is reverse API order. A failure in the later messages is reported first. |
| `SlackTools.RenderHistoryOkIff` | tools/slack_tools.py:30-39 | The history renders iff every message has a `ts` that formats. |
| `SlackTools.RenderHistoryIsReversedLines` | tools/slack_tools.py:29-37 | A rendered history is the concatenation of one `[**User: u at t**] text\n` line per message, the k-th line for the k-th message from the end. An empty list gives the empty text. |

## Left out

- The language model (`ChatGroq`, `bind_tools`, the prompt chain, the temperature) is an oracle from the history to the next reply or an exception. Loading the prompt file is file I/O.
- The tools' own behaviour inside the registry is an oracle from name and arguments to a returned text or an exception. LangChain's argument validation is folded into it, and tool arguments are a string-to-string map.
- `find_user_by_name`, `get_mentioned_users`, `list_channel_members` and `summarize_channel_history` are only names in the registry. Their code is not part of this model. agent.py:20-23 imports them from a package whose `__init__` (tools/__init__.py:3-6) does not export them, so the module as written fails at import.
- tools/search_tools.py only constructs a Google search tool. Only its registry name, `google_search`, is kept.
- LangGraph internals: `add_messages` is modelled as plain append; replacement of messages by id is not modelled. The recursion limit is modelled as at most `limit` node executions, with the next one raising. LangGraph's own step accounting is not modelled.
- Slack transport (`App`, `SocketModeHandler`) is left out. `auth_test` is an input that yields the bot id or an exception. `say` is `ReplyLog.Say`, which records the reply and never fails. If it did fail, the source would call `say` a second time from its `except` branch; that path is not modelled.
- Timestamp formatting (`datetime.fromtimestamp(float(ts)).strftime(...)`) is an oracle of `SlackToolbox`. Floating point and the local time zone are not modelled.
- The Slack API's responses (`conversations_history`, `users_info`) are oracles inside `WebClient`. Exception texts are supplied by the oracles, except `KeyError('ts')`, whose text is `'ts'`.
- Message content is a string, not LangChain's list-of-parts form.
- `print` logging and `load_dotenv` are left out.
- App.CleanMessageShape: states that no piece between removed mentions contains a mention. It does not state that the cleaned text contains none, because removing mentions can create one (App.MentionCanSurviveCleaning).
