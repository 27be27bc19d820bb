/**
 * The Slack context tools: a module-wide Web API client set once at start-up,
 * channel history rendered oldest first, and user-id to real-name lookup.
 */
module SlackTools {
  import opened Common
  import opened PyText

  /** One entry of `conversations_history`'s `messages`; a missing key is `None`. */
  datatype RawMessage = RawMessage(user: Option<string>, text: Option<string>, ts: Option<string>)

  /**
   * What `get_user_info` reads from a `users_info` response: `ok`, and
   * `user.profile.real_name` or the error that looking it up raises.
   */
  datatype UsersInfoResponse = UsersInfoResponse(ok: bool, realName: Result<string>)

  /** The Slack Web API client: each call returns its response or raises. */
  datatype WebClient = WebClient(
    conversationsHistory: (string, int) -> Result<seq<RawMessage>>,
    usersInfo: string -> Result<UsersInfoResponse>)

  /** What both tools answer while no client has been set. */
  const NotInitialized: string := "Error: Slack client not initialized"

  /** `f"{x}"` for a value read with `dict.get`: a missing one prints as `None`. */
  function Show(o: Option<string>): string {
    if o.None? then "None" else o.value
  }

  /**
   * The timestamp text of one message: `msg["ts"]` (raising `KeyError('ts')` when
   * missing) passed to the date formatting, which may raise too.
   */
  function Timestamp(msg: RawMessage, formatTs: string -> Result<string>): Result<string> {
    match msg.ts
    case None => Err("'ts'")
    case Some(ts) => formatTs(ts)
  }

  /** One history line: `[**User: u at t**] text` and a newline. */
  function HistoryLine(user: string, timestamp: string, text: string): string {
    "[**User: " + user + " at " + timestamp + "**] " + text + "\n"
  }

  /** The line for a message whose timestamp formats. */
  function RenderedLine(msg: RawMessage, formatTs: string -> Result<string>): string
    requires Timestamp(msg, formatTs).Ok?
  {
    HistoryLine(Show(msg.user), Timestamp(msg, formatTs).value, Show(msg.text))
  }

  /** Puts `prefix` before a rendering that succeeded; keeps a failure. */
  function Prepend(prefix: string, r: Result<string>): Result<string> {
    match r
    case Err(e) => Err(e)
    case Ok(s) => Ok(prefix + s)
  }

  /** Prepending nothing changes nothing. */
  lemma PrependEmpty(r: Result<string>)
    ensures Prepend("", r) == r
  {
    if r.Ok? {
      assert "" + r.value == r.value;
    }
  }

  /** Prepending twice is prepending the concatenation. */
  lemma PrependTwice(p: string, q: string, r: Result<string>)
    ensures Prepend(p, Prepend(q, r)) == Prepend(p + q, r)
  {
    if r.Ok? {
      assert p + (q + r.value) == (p + q) + r.value;
    }
  }

  /**
   * The history text for `messages` as the API returns them (newest first): the
   * last message's line first, or the first timestamp error met on the way.
   */
  function RenderHistory(messages: seq<RawMessage>, formatTs: string -> Result<string>): Result<string> {
    if messages == [] then Ok("")
    else
      var last := messages[|messages| - 1];
      match Timestamp(last, formatTs)
      case Err(e) => Err(e)
      case Ok(ts) => Prepend(HistoryLine(Show(last.user), ts, Show(last.text)), RenderHistory(messages[..|messages| - 1], formatTs))
  }

  /** What `get_channel_history` returns for a client, channel and limit. */
  function ChannelHistoryText(client: Option<WebClient>, formatTs: string -> Result<string>, channelId: string, limit: int): string {
    if client.None? then NotInitialized
    else
      match client.value.conversationsHistory(channelId, limit)
      case Err(e) => "Error fetching channel history: " + e
      case Ok(messages) =>
        match RenderHistory(messages, formatTs)
        case Err(e) => "Error fetching channel history: " + e
        case Ok(history) => history
  }

  /** The tools' shared state: the module-global `client` and the host's date formatting. */
  class SlackToolbox {
    var client: Option<WebClient>
    const formatTimestamp: string -> Result<string>

    /** The module as imported: no client yet. */
    constructor (formatTimestamp: string -> Result<string>)
      ensures client.None? && this.formatTimestamp == formatTimestamp
    {
      client := None;
      this.formatTimestamp := formatTimestamp;
    }

    /** `set_slack_client`: every later tool call uses `slackClient`. */
    method SetSlackClient(slackClient: WebClient)
      modifies this
      ensures client == Some(slackClient)
    {
      client := Some(slackClient);
    }

    /** `get_channel_history`: the channel's recent messages, oldest first, one line each. */
    method GetChannelHistory(channelId: string, limit: int := 5) returns (historyStr: string)
      ensures client.None? ==> historyStr == NotInitialized
      ensures historyStr == ChannelHistoryText(client, formatTimestamp, channelId, limit)
    {
      if client.None? {
        return NotInitialized;
      }
      var result := client.value.conversationsHistory(channelId, limit);
      if result.Err? {
        return "Error fetching channel history: " + result.error;
      }
      var messages := result.value;
      historyStr := "";
      var i := |messages|;
      assert messages[..i] == messages;
      PrependEmpty(RenderHistory(messages, formatTimestamp));
      while i > 0
        invariant 0 <= i <= |messages|
        invariant RenderHistory(messages, formatTimestamp) == Prepend(historyStr, RenderHistory(messages[..i], formatTimestamp))
      {
        var msg := messages[i - 1];
        var user := Show(msg.user);
        var text := Show(msg.text);
        var timestamp := Timestamp(msg, formatTimestamp);
        if timestamp.Err? {
          return "Error fetching channel history: " + timestamp.error;
        }
        assert messages[..i][..i - 1] == messages[..i - 1];
        var line := HistoryLine(user, timestamp.value, text);
        PrependTwice(historyStr, line, RenderHistory(messages[..i - 1], formatTimestamp));
        historyStr := historyStr + line;
        i := i - 1;
      }
    }

    /** `get_user_info`: the user's real name, a not-found text, or the error text. */
    method GetUserInfo(userId: string) returns (r: string)
      ensures client.None? ==> r == NotInitialized
      ensures client.Some? && client.value.usersInfo(userId).Err? ==>
        r == "Error fetching user info: " + client.value.usersInfo(userId).error
      ensures client.Some? && client.value.usersInfo(userId).Ok? && !client.value.usersInfo(userId).value.ok ==>
        r == "User info not found for ID: " + userId
      ensures client.Some? && client.value.usersInfo(userId).Ok? && client.value.usersInfo(userId).value.ok ==>
        var name := client.value.usersInfo(userId).value.realName;
        r == if name.Ok? then name.value else "Error fetching user info: " + name.error
    {
      if client.None? {
        return NotInitialized;
      }
      var userInfo := client.value.usersInfo(userId);
      if userInfo.Err? {
        return "Error fetching user info: " + userInfo.error;
      }
      if userInfo.value.ok {
        match userInfo.value.realName
        case Ok(name) => return name;
        case Err(e) => return "Error fetching user info: " + e;
      }
      return "User info not found for ID: " + userId;
    }
  }

  /**
   * Rendering a concatenation puts the later messages' text first: the history
   * is the reverse of the API order, and a failure in `b` wins over one in `a`.
   */
  lemma {:induction false} RenderHistoryAppend(a: seq<RawMessage>, b: seq<RawMessage>, formatTs: string -> Result<string>)
    ensures RenderHistory(a + b, formatTs) ==
      match RenderHistory(b, formatTs)
      case Err(e) => Err(e)
      case Ok(later) => Prepend(later, RenderHistory(a, formatTs))
    decreases |b|
  {
    if b == [] {
      assert a + b == a;
      PrependEmpty(RenderHistory(a, formatTs));
    } else {
      var init := b[..|b| - 1];
      assert (a + b)[..|a + b| - 1] == a + init;
      assert (a + b)[|a + b| - 1] == b[|b| - 1];
      RenderHistoryAppend(a, init, formatTs);
      var last := b[|b| - 1];
      if Timestamp(last, formatTs).Ok? && RenderHistory(init, formatTs).Ok? {
        var line := HistoryLine(Show(last.user), Timestamp(last, formatTs).value, Show(last.text));
        PrependTwice(line, RenderHistory(init, formatTs).value, RenderHistory(a, formatTs));
      }
    }
  }

  /** The history renders exactly when every message's timestamp can be read and formatted. */
  lemma {:induction false} RenderHistoryOkIff(messages: seq<RawMessage>, formatTs: string -> Result<string>)
    ensures RenderHistory(messages, formatTs).Ok? <==>
      forall i :: 0 <= i < |messages| ==> Timestamp(messages[i], formatTs).Ok?
  {
    if messages != [] {
      var init := messages[..|messages| - 1];
      RenderHistoryOkIff(init, formatTs);
      assert forall i :: 0 <= i < |init| ==> init[i] == messages[i];
    }
  }

  /**
   * A rendered history is the concatenation of one line per message, the k-th
   * line for the k-th message from the end of the API's list; no messages give
   * the empty text.
   */
  lemma {:induction false} RenderHistoryIsReversedLines(messages: seq<RawMessage>, formatTs: string -> Result<string>) returns (lines: seq<string>)
    requires forall i :: 0 <= i < |messages| ==> Timestamp(messages[i], formatTs).Ok?
    ensures |lines| == |messages|
    ensures forall k :: 0 <= k < |lines| ==> lines[k] == RenderedLine(messages[|messages| - 1 - k], formatTs)
    ensures RenderHistory(messages, formatTs) == Ok(Concat(lines))
  {
    if messages == [] {
      lines := [];
    } else {
      var n := |messages| - 1;
      var init := messages[..n];
      assert forall i :: 0 <= i < |init| ==> init[i] == messages[i];
      var rest := RenderHistoryIsReversedLines(init, formatTs);
      lines := [RenderedLine(messages[n], formatTs)] + rest;
      assert lines[1..] == rest;
      forall k | 0 <= k < |lines| ensures lines[k] == RenderedLine(messages[|messages| - 1 - k], formatTs) {
        if k > 0 {
          assert lines[k] == rest[k - 1];
          assert init[|init| - 1 - (k - 1)] == messages[|messages| - 1 - k];
        }
      }
    }
  }
}
