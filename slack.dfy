/**
 * The Slack notifier: message formatting, the mapping of Slack's answers to a send status, the
 * construction-time token and liveness checks, and message updates. The Slack Web API client is the
 * oracle `slack`, which answers each request it is given.
 */
module SlackChannel {
  import opened Common
  import opened Values
  import Text
  import Severity

  datatype SlackNotifier = SlackNotifier(
    webhookUrl: string,
    defaultChannel: string,
    mentionUsers: map<string, seq<string>>,
    token: string)

  datatype Block = Header(text: string) | Section(text: string) | Context(text: string)
  datatype Attachment = Attachment(fallback: string, color: string, blocks: seq<Block>)
  /** The message body: top-level fallback `text` and one attachment. */
  datatype Payload = Payload(text: string, attachments: seq<Attachment>)

  /** The keyword arguments a payload spreads into a client call (`**payload`). */
  const PayloadKeywords: seq<string> := ["text", "attachments"]

  /** `chat_postMessage(channel=..., **payload)`. */
  datatype PostMessage = PostMessage(channel: string, payload: Payload)
  /** `chat_update(channel=..., ts=..., **payload)`. */
  datatype UpdateRequest = UpdateRequest(channel: string, ts: string, payload: Payload)

  /** What the client call did: a response, a `SlackApiError`, or any other exception. */
  datatype SlackReply =
    | Response(ok: bool, ts: string, channel: string, error: Option<string>)
    | ApiError(message: string)
    | OtherError(message: string)

  const TokenMissing: string := "SLACK_BOT_TOKEN not configured"
  const Footer: string := "Sent by Automated Issue Detection System"

  /** The three settings the notifier reads are present and well typed. */
  predicate SettingsReadable(config: Value)
  {
    TextSetting(config, "webhook_url").Ok? && TextSetting(config, "default_channel").Ok? &&
    ListMapSetting(config, "mention_users").Ok?
  }

  /** `SlackNotifier(config)`: read the settings, require a bot token, then pass `auth_test`. */
  function NewSlack(config: Value, token: Option<string>, authError: Option<string>): (r: Result<SlackNotifier, string>)
    ensures r.Ok? <==> (SettingsReadable(config) && token.Some? && token.value != "" && authError.None?)
    ensures (SettingsReadable(config) && (token.None? || token.value == "")) ==> r == Err(TokenMissing)
    ensures r.Ok? ==> r.value.token == token.value && r.value.defaultChannel == TextSetting(config, "default_channel").value
  {
    match (TextSetting(config, "webhook_url"), TextSetting(config, "default_channel"), ListMapSetting(config, "mention_users"))
    case (Err(e), _, _) => Err(e)
    case (Ok(_), Err(e), _) => Err(e)
    case (Ok(_), Ok(_), Err(e)) => Err(e)
    case (Ok(url), Ok(channel), Ok(mentions)) =>
      if token.None? || token.value == "" then Err(TokenMissing)
      else if authError.Some? then Err(authError.value)
      else Ok(SlackNotifier(url, channel, mentions, token.value))
  }

  /** `' '.join(mention_users.get(severity, []))`. */
  function Mentions(n: SlackNotifier, severity: string): string
  {
    Text.Join(" ", if severity in n.mentionUsers then n.mentionUsers[severity] else [])
  }

  /** The line `*key:* value` of one metadata entry. */
  function MetadataLine(f: Field): string
  {
    "*" + f.key + ":* " + Show(f.value)
  }

  /** One `*key:* value` line per metadata entry, in metadata order. */
  function MetadataLines(metadata: seq<Field>): (lines: seq<string>)
    ensures |lines| == |metadata|
    ensures forall i :: 0 <= i < |metadata| ==> lines[i] == MetadataLine(metadata[i])
  {
    seq(|metadata|, i requires 0 <= i < |metadata| => MetadataLine(metadata[i]))
  }

  function MetadataText(metadata: seq<Field>): string
  {
    Text.Join("\n", MetadataLines(metadata))
  }

  /** The plain-text rendering used both as the top-level `text` and as the attachment fallback. */
  function FallbackText(title: string, message: string, severity: string, metadata: seq<Field>): string
  {
    var base := title + "\n" + message + "\nSeverity: " + Text.Upper(severity);
    if metadata == [] then base else base + "\nMetadata: " + Repr(Dict(metadata))
  }

  /** `format_message`. The header's emoji prefix is left out. */
  function FormatMessage(n: SlackNotifier, title: string, message: string, severity: string, metadata: seq<Field>): (p: Payload)
    ensures |p.attachments| == 1 && p.text == p.attachments[0].fallback
    ensures p.attachments[0].color == Severity.Color(severity)
  {
    var fallback := FallbackText(title, message, severity, metadata);
    Payload(fallback, [Attachment(fallback, Severity.Color(severity), [
      Header(title),
      Section(Mentions(n, severity) + "\n" + message),
      Section("*Severity:* " + Text.Upper(severity) + "\n" + MetadataText(metadata)),
      Context(Footer)])])
  }

  /** The fallback always opens with title, message and severity; the metadata part is there iff metadata is. */
  lemma FallbackShape(title: string, message: string, severity: string, metadata: seq<Field>)
    ensures var base := title + "\n" + message + "\nSeverity: " + Text.Upper(severity);
      base <= FallbackText(title, message, severity, metadata) &&
      (FallbackText(title, message, severity, metadata) == base <==> metadata == [])
  {
    var base := title + "\n" + message + "\nSeverity: " + Text.Upper(severity);
    if metadata != [] {
      assert |FallbackText(title, message, severity, metadata)| > |base|;
    }
  }

  /** A severity without a mention list mentions nobody. */
  lemma MentionsDefault(n: SlackNotifier, severity: string)
    ensures severity !in n.mentionUsers ==> Mentions(n, severity) == ""
    ensures severity in n.mentionUsers ==> Mentions(n, severity) == Text.Join(" ", n.mentionUsers[severity])
  {
  }

  /** Metadata lines keep the metadata order: one more entry adds one more line at the end. */
  lemma MetadataTextSnoc(metadata: seq<Field>, f: Field)
    ensures MetadataText(metadata + [f]) ==
      if metadata == [] then MetadataLine(f) else MetadataText(metadata) + "\n" + MetadataLine(f)
  {
    var m := metadata + [f];
    assert forall i :: 0 <= i < |metadata| ==> m[i] == metadata[i];
    assert MetadataLines(m) == MetadataLines(metadata) + [MetadataLine(f)];
    Text.JoinSnoc("\n", MetadataLines(metadata), MetadataLine(f));
  }

  /** The first keyword passed both explicitly and through `**spread`, which makes Python raise TypeError. */
  function DuplicateKeyword(explicit: seq<string>, spread: seq<string>): (r: Option<string>)
    ensures r.Some? ==> r.value in explicit && r.value in spread
    ensures r.None? ==> forall k :: k in spread ==> k !in explicit
  {
    if spread == [] then None
    else if spread[0] in explicit then Some(spread[0])
    else DuplicateKeyword(explicit, spread[1..])
  }

  function DuplicateKeywordError(call: string, keyword: string): string
  {
    call + "() got multiple values for keyword argument '" + keyword + "'"
  }

  function StatusDict(status: string, key: string, detail: string): Value
  {
    Dict([Field("status", Str(status)), Field(key, Str(detail))])
  }

  /**
   * `send`: post the formatted message to the default channel. An ok response is `sent` with the
   * channel and timestamp; a not-ok response and a `SlackApiError` are `failed` with an error text;
   * any other exception escapes.
   */
  function Send(n: SlackNotifier, title: string, message: string, severity: string, metadata: seq<Field>,
                slack: PostMessage -> SlackReply): (r: Outcome)
  {
    var payload := FormatMessage(n, title, message, severity, metadata);
    match DuplicateKeyword(["channel"], PayloadKeywords)
    case Some(k) => Raised(DuplicateKeywordError("chat_postMessage", k))
    case None =>
      match slack(PostMessage(n.defaultChannel, payload))
      case Response(ok, ts, _, error) =>
        if ok then Returned(Dict([Field("status", Str("sent")), Field("channel", Str(n.defaultChannel)), Field("ts", Str(ts))]))
        else Returned(StatusDict("failed", "error", "Slack API returned not ok: " + error.GetOr("Unknown error")))
      case ApiError(e) => Returned(StatusDict("failed", "error", "Failed to send Slack message: " + e))
      case OtherError(e) => Raised(e)
  }

  /** How `send` maps Slack's answer to a status. */
  lemma SendStatus(n: SlackNotifier, title: string, message: string, severity: string, metadata: seq<Field>,
                   slack: PostMessage -> SlackReply)
    ensures var reply := slack(PostMessage(n.defaultChannel, FormatMessage(n, title, message, severity, metadata)));
      var r := Send(n, title, message, severity, metadata, slack);
      && (r.Raised? <==> reply.OtherError?)
      && (r.Returned? && Get(r.result, "status") == Some(Str("sent")) <==> reply.Response? && reply.ok)
      && (reply.Response? && reply.ok ==>
            Get(r.result, "channel") == Some(Str(n.defaultChannel)) && Get(r.result, "ts") == Some(Str(reply.ts)))
      && (reply.Response? && !reply.ok ==>
            Get(r.result, "status") == Some(Str("failed")) &&
            Get(r.result, "error") == Some(Str("Slack API returned not ok: " + reply.error.GetOr("Unknown error"))))
      && (reply.ApiError? ==>
            Get(r.result, "status") == Some(Str("failed")) &&
            Get(r.result, "error") == Some(Str("Failed to send Slack message: " + reply.message)))
  {
    assert DuplicateKeyword(["channel"], PayloadKeywords).None?;
    var reply := slack(PostMessage(n.defaultChannel, FormatMessage(n, title, message, severity, metadata)));
    var r := Send(n, title, message, severity, metadata, slack);
    match reply
    case Response(ok, ts, _, error) =>
      if ok {
        var fs := [Field("status", Str("sent")), Field("channel", Str(n.defaultChannel)), Field("ts", Str(ts))];
        assert r.result == Dict(fs);
        assert fs[1..][1..] == [Field("ts", Str(ts))];
        assert "channel" != "status" && "ts" != "status" && "ts" != "channel";
        assert Lookup(fs[1..], "channel") == Some(Str(n.defaultChannel));
        assert Lookup(fs[1..][1..], "ts") == Some(Str(ts));
        assert Lookup(fs[1..], "ts") == Some(Str(ts));
      } else {
        var fs := [Field("status", Str("failed")), Field("error", Str("Slack API returned not ok: " + error.GetOr("Unknown error")))];
        assert r.result == Dict(fs);
        assert fs[1..] == [fs[1]];
        assert "error" != "status";
        assert Lookup(fs[1..], "error") == Some(fs[1].value);
      }
    case ApiError(e) =>
      var fs := [Field("status", Str("failed")), Field("error", Str("Failed to send Slack message: " + e))];
      assert r.result == Dict(fs);
      assert fs[1..] == [fs[1]];
      assert "error" != "status";
      assert Lookup(fs[1..], "error") == Some(fs[1].value);
    case OtherError(_) =>
  }

  datatype UpdateAck = UpdateAck(messageId: string, channel: string)

  /**
   * `update_message` as written: `text=` is passed explicitly and again inside `**payload`, so the
   * call raises TypeError before Slack is contacted, and the handler re-raises it.
   */
  function UpdateMessageAsWritten(n: SlackNotifier, messageId: string, title: string, message: string,
                                  severity: string, metadata: seq<Field>,
                                  slack: UpdateRequest -> SlackReply): Result<UpdateAck, string>
  {
    var payload := FormatMessage(n, title, message, severity, metadata);
    match DuplicateKeyword(["channel", "ts", "text"], PayloadKeywords)
    case Some(k) => Err(DuplicateKeywordError("chat_update", k))
    case None => UpdateOutcome(slack(UpdateRequest(n.defaultChannel, messageId, payload)))
  }

  /** Whatever Slack would answer, the update as written fails, and names the clashing keyword. */
  lemma UpdateMessageAsWrittenFails(n: SlackNotifier, messageId: string, title: string, message: string,
                                    severity: string, metadata: seq<Field>, slack: UpdateRequest -> SlackReply)
    ensures UpdateMessageAsWritten(n, messageId, title, message, severity, metadata, slack) ==
      Err(DuplicateKeywordError("chat_update", "text"))
  {
    assert PayloadKeywords[0] == "text";
  }

  /** The result of the update call: the new timestamp and channel when ok, the raised error text otherwise. */
  function UpdateOutcome(reply: SlackReply): Result<UpdateAck, string>
  {
    match reply
    case Response(ok, ts, channel, error) =>
      if ok then Ok(UpdateAck(ts, channel))
      else (match error
            case Some(e) => Err("Failed to update message: " + e)
            case None => Err("'error'"))
    case ApiError(e) => Err(e)
    case OtherError(e) => Err(e)
  }

  /** The update as intended: the payload's fallback text becomes `title - message`, passed once. */
  function UpdateMessage(n: SlackNotifier, messageId: string, title: string, message: string,
                         severity: string, metadata: seq<Field>,
                         slack: UpdateRequest -> SlackReply): (r: Result<UpdateAck, string>)
    ensures var request := UpdateRequest(n.defaultChannel, messageId,
                                         FormatMessage(n, title, message, severity, metadata).(text := title + " - " + message));
      var reply := slack(request);
      && (r.Ok? <==> reply.Response? && reply.ok)
      && (r.Ok? ==> r.value == UpdateAck(reply.ts, reply.channel))
      && (reply.Response? && !reply.ok && reply.error.Some? ==> r == Err("Failed to update message: " + reply.error.value))
  {
    var payload := FormatMessage(n, title, message, severity, metadata).(text := title + " - " + message);
    UpdateOutcome(slack(UpdateRequest(n.defaultChannel, messageId, payload)))
  }
}
