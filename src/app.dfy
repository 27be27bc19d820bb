/**
 * The `app_mention` handler: cleans the mention text, runs the agent with a
 * step budget, picks the final answer and posts exactly one reply.
 */
module App {
  import opened Common
  import opened Messages
  import opened PyText
  import opened Agent

  /** The `recursion_limit` passed to `agent_executor.invoke`. */
  const RecursionLimit: nat := 10

  /** The reply when the run produced no usable final answer. */
  const HelpText: string :=
    "I'm your Slack Conflict Analyst. Mention me with details about a conflict or channel ID to analyze."

  /** The reply when anything in the handler raised. */
  const ApologyText: string :=
    "I encountered an issue while processing your message. Let me try to help you find a solution anyway. What specific conflict or challenge are you facing?"

  /** The `event` part of an `app_mention` body; a missing key is `None`. */
  datatype MentionEvent = MentionEvent(text: Option<string>, channel: Option<string>, user: Option<string>)

  /** How Slack writes a mention of the bot in message text. */
  function MentionToken(botUserId: string): string {
    "<@" + botUserId + ">"
  }

  /** The context note appended to the cleaned text. */
  function ContextSuffix(userId: string, channelId: string): string {
    " [Context: This is from user " + userId + " in channel " + channelId + "]"
  }

  /** The text handed to the agent: mentions of the bot removed, stripped, context appended. */
  function CleanMessage(text: string, botUserId: string, userId: string, channelId: string): string {
    Strip(RemoveAll(text, MentionToken(botUserId))) + ContextSuffix(userId, channelId)
  }

  /**
   * The cleaned message is the input with every mention of the bot cut out
   * (the pieces between the cut mentions contain none), trimmed of whitespace
   * at both ends, followed by the context note.
   */
  lemma CleanMessageShape(text: string, botUserId: string, userId: string, channelId: string) returns (pieces: seq<string>)
    ensures |pieces| > 0 && Join(pieces, MentionToken(botUserId)) == text
    ensures forall i :: 0 <= i < |pieces| ==> !Contains(pieces[i], MentionToken(botUserId))
    ensures CleanMessage(text, botUserId, userId, channelId) == Strip(Concat(pieces)) + ContextSuffix(userId, channelId)
    ensures var body := Strip(Concat(pieces));
      body != "" ==> !IsSpace(body[0]) && !IsSpace(body[|body| - 1])
  {
    var token := MentionToken(botUserId);
    pieces := Split(text, token);
    SplitJoinRoundTrip(text, token);
    SplitPiecesAvoidSeparator(text, token);
    RemoveAllIsConcatOfSplit(text, token);
    var i, j := StripIsTrimmedSlice(Concat(pieces));
  }

  /**
   * Deleting the mentions can join two halves into a new mention: the cleaned
   * text of `<@<@U1>U1>` still mentions bot `U1`.
   */
  lemma MentionCanSurviveCleaning()
    ensures Contains(Strip(RemoveAll("<@<@U1>U1>", MentionToken("U1"))), MentionToken("U1"))
  {
    var token := MentionToken("U1");
    var s := "<@<@U1>U1>";
    assert token == "<@U1>";
    assert s[..|token|][2] != token[2];
    assert s[1..][..|token|][0] != token[0];
    assert s[2..][..|token|] == token;
    assert s[2..][|token|..] == "U1>";
    assert RemoveAll("U1>", token) == "U1>";
    assert RemoveAll(s[2..], token) == "U1>";
    assert RemoveAll(s[1..], token) == "@U1>";
    assert RemoveAll(s, token) == "<@U1>";
    assert StripLeading("<@U1>") == "<@U1>";
    assert StripTrailing("<@U1>") == "<@U1>";
    assert OccursAt("<@U1>", token, 0);
  }

  /** The state the graph starts from: just the cleaned human message. */
  function InitialState(cleanMessage: string): seq<Msg> {
    [Human(cleanMessage)]
  }

  /** The content of the last final answer in a history, scanning from the end. */
  function LatestFinal(messages: seq<Msg>): Option<string> {
    if messages == [] then None
    else if IsFinalAnswer(messages[|messages| - 1]) then Some(messages[|messages| - 1].content)
    else LatestFinal(messages[..|messages| - 1])
  }

  /**
   * `LatestFinal` finds the last AI message without pending tool calls: it answers
   * `None` exactly when there is none, and otherwise that message's content,
   * with no final answer after it.
   */
  lemma {:induction false} LatestFinalIsLatest(messages: seq<Msg>) returns (k: int)
    ensures -1 <= k < |messages|
    ensures k == -1 <==> LatestFinal(messages).None?
    ensures k == -1 ==> forall i :: 0 <= i < |messages| ==> !IsFinalAnswer(messages[i])
    ensures k >= 0 ==> IsFinalAnswer(messages[k]) && LatestFinal(messages) == Some(messages[k].content)
    ensures k >= 0 ==> forall i :: k < i < |messages| ==> !IsFinalAnswer(messages[i])
  {
    if messages == [] {
      k := -1;
    } else if IsFinalAnswer(messages[|messages| - 1]) {
      k := |messages| - 1;
    } else {
      var init := messages[..|messages| - 1];
      k := LatestFinalIsLatest(init);
      assert forall i :: 0 <= i < |init| ==> init[i] == messages[i];
    }
  }

  /** The loop over `reversed(final_messages)` that picks the final response. */
  method ExtractFinalResponse(finalMessages: seq<Msg>) returns (finalResponse: Option<string>)
    ensures finalResponse == LatestFinal(finalMessages)
  {
    finalResponse := None;
    var i := |finalMessages|;
    assert finalMessages[..i] == finalMessages;
    while i > 0
      invariant 0 <= i <= |finalMessages|
      invariant LatestFinal(finalMessages) == LatestFinal(finalMessages[..i])
    {
      var msg := finalMessages[i - 1];
      assert finalMessages[..i][..i - 1] == finalMessages[..i - 1];
      if msg.AI? && msg.toolCalls.None? {
        finalResponse := Some(msg.content);
        break;
      } else if msg.AI? && msg.toolCalls.Some? && |msg.toolCalls.value| == 0 {
        finalResponse := Some(msg.content);
        break;
      }
      i := i - 1;
    }
  }

  /** `if not final_response`: a missing or empty answer becomes the help text. */
  function FinalReply(finalResponse: Option<string>): string {
    if finalResponse.None? || finalResponse.value == "" then HelpText else finalResponse.value
  }

  /** The one reply the handler posts for an event. */
  function MentionReply(event: MentionEvent, botUserId: Result<string>, model: ChatModel, run: ToolRunner): string {
    if event.text.None? || event.channel.None? || event.user.None? || botUserId.Err? then ApologyText
    else
      var clean := CleanMessage(event.text.value, botUserId.value, event.user.value, event.channel.value);
      match RunFrom(InitialState(clean), EntryPoint, 0, RecursionLimit, model, run)
      case Err(_) => ApologyText
      case Ok(out) => FinalReply(LatestFinal(out))
  }

  /** The `say` callback, recording every posted reply in order. */
  class ReplyLog {
    var posted: seq<string>

    constructor ()
      ensures posted == []
    {
      posted := [];
    }

    method Say(text: string)
      modifies this
      ensures posted == old(posted) + [text]
    {
      posted := posted + [text];
    }
  }

  /**
   * `handle_app_mention_events`: posts exactly one reply, the apology when reading
   * the event, asking for the bot's id or running the agent raised.
   */
  method HandleAppMentionEvents(event: MentionEvent, botUserId: Result<string>, model: ChatModel, run: ToolRunner, say: ReplyLog)
    modifies say
    ensures say.posted == old(say.posted) + [MentionReply(event, botUserId, model, run)]
  {
    if event.text.None? || event.channel.None? || event.user.None? || botUserId.Err? {
      say.Say(ApologyText);
      return;
    }
    var userMessageText := event.text.value;
    var channelId := event.channel.value;
    var userId := event.user.value;
    var cleanMessage := Strip(RemoveAll(userMessageText, MentionToken(botUserId.value)));
    cleanMessage := cleanMessage + ContextSuffix(userId, channelId);
    var initialState := [Human(cleanMessage)];
    var result := Invoke(initialState, RecursionLimit, model, run);
    if result.Err? {
      say.Say(ApologyText);
      return;
    }
    var finalResponse := ExtractFinalResponse(result.value);
    if finalResponse.None? || finalResponse.value == "" {
      finalResponse := Some(HelpText);
    }
    say.Say(finalResponse.value);
  }

  /**
   * When the agent run completes, it started from the cleaned human message, ended
   * on a final answer, called the model at most five times, and the reply is that
   * answer's text, or the help text when it is empty.
   */
  lemma MentionReplyOnCompletedRun(event: MentionEvent, botUserId: Result<string>, model: ChatModel, run: ToolRunner)
    requires event.text.Some? && event.channel.Some? && event.user.Some? && botUserId.Ok?
    requires RunFrom(InitialState(CleanMessage(event.text.value, botUserId.value, event.user.value, event.channel.value)),
                     EntryPoint, 0, RecursionLimit, model, run).Ok?
    ensures var clean := CleanMessage(event.text.value, botUserId.value, event.user.value, event.channel.value);
      var out := RunFrom(InitialState(clean), EntryPoint, 0, RecursionLimit, model, run).value;
      |out| >= 2 && out[0] == Human(clean) && IsFinalAnswer(out[|out| - 1]) && CountAI(out) <= 5 &&
      MentionReply(event, botUserId, model, run) ==
        (if out[|out| - 1].content == "" then HelpText else out[|out| - 1].content)
  {
    var clean := CleanMessage(event.text.value, botUserId.value, event.user.value, event.channel.value);
    var init := InitialState(clean);
    var out := RunFrom(init, EntryPoint, 0, RecursionLimit, model, run).value;
    RunAppendOnly(init, EntryPoint, 0, RecursionLimit, model, run);
    RunEndsWithFinalAnswer(init, EntryPoint, 0, RecursionLimit, model, run);
    ModelCallsBounded(init, EntryPoint, 0, RecursionLimit, model, run);
    assert out == init + out[1..];
    CountAIAppend(init, out[1..]);
    assert CountAI(init) == 0 by {
      assert init[..0] == [];
    }
  }

  /**
   * A model whose first reply asks for no tools: one `agent` step, the history is
   * the human message and that reply, and the posted reply is its text verbatim.
   */
  lemma DirectAnswerIsPostedVerbatim(event: MentionEvent, botUserId: Result<string>, model: ChatModel, run: ToolRunner, answer: Reply)
    requires event.text.Some? && event.channel.Some? && event.user.Some? && botUserId.Ok?
    requires answer.toolCalls.None? || answer.toolCalls == Some([])
    requires answer.content != ""
    requires model(InitialState(CleanMessage(event.text.value, botUserId.value, event.user.value, event.channel.value))) == Ok(answer)
    ensures var clean := CleanMessage(event.text.value, botUserId.value, event.user.value, event.channel.value);
      RunFrom(InitialState(clean), EntryPoint, 0, RecursionLimit, model, run) ==
        Ok([Human(clean), AI(answer.content, answer.toolCalls)])
    ensures MentionReply(event, botUserId, model, run) == answer.content
  {
    var clean := CleanMessage(event.text.value, botUserId.value, event.user.value, event.channel.value);
    var next := InitialState(clean) + [AI(answer.content, answer.toolCalls)];
    assert next == [Human(clean), AI(answer.content, answer.toolCalls)];
    assert !HasPendingCalls(next[1]);
    assert Successor(AgentNode, next) == EndNode;
    assert RunFrom(InitialState(clean), AgentNode, 0, RecursionLimit, model, run) ==
      RunFrom(next, EndNode, 1, RecursionLimit, model, run);
  }

  /**
   * A first reply asking for `get_user_info` whose tool returns `Dana`: the tool
   * message is exactly `Dana`, answers that call, and the run goes on with a
   * second `agent` step on the three-message history.
   */
  lemma UserInfoCallFeedsSecondAgentStep(clean: string, model: ChatModel, run: ToolRunner, first: string, args: map<string, string>, callId: string)
    requires model(InitialState(clean)) == Ok(Reply(first, Some([ToolCall("get_user_info", args, callId)])))
    requires run("get_user_info", args) == Returned("Dana")
    ensures RunFrom(InitialState(clean), EntryPoint, 0, RecursionLimit, model, run) ==
      RunFrom([Human(clean), AI(first, Some([ToolCall("get_user_info", args, callId)])), Tool("Dana", callId, "get_user_info")],
              AgentNode, 2, RecursionLimit, model, run)
  {
    var call := ToolCall("get_user_info", args, callId);
    var afterAgent := InitialState(clean) + [AI(first, Some([call]))];
    var afterTools := afterAgent + [Tool("Dana", callId, "get_user_info")];
    assert afterTools == [Human(clean), AI(first, Some([call])), Tool("Dana", callId, "get_user_info")];
    assert ToolNames[1] == call.name;
    assert ToolMessages([call], run) == [Tool("Dana", callId, "get_user_info")] by {
      assert [call][..0] == [];
    }
    assert PendingCalls(afterAgent) == [call];
    assert Successor(AgentNode, afterAgent) == ToolsNode;
    assert RunFrom(InitialState(clean), AgentNode, 0, RecursionLimit, model, run) ==
      RunFrom(afterAgent, ToolsNode, 1, RecursionLimit, model, run);
    assert RunFrom(afterAgent, ToolsNode, 1, RecursionLimit, model, run) ==
      RunFrom(afterTools, AgentNode, 2, RecursionLimit, model, run);
  }
}
