/**
 * The e-mail notifier: HTML formatting, recipient selection per severity, and sending through an
 * SMTP server. The server session (connect, STARTTLS, login, send) is the oracle `smtp`, which either
 * accepts the message or answers with the text of the exception it raised.
 */
module EmailChannel {
  import opened Common
  import opened Values
  import Text
  import Severity

  datatype EmailNotifier = EmailNotifier(
    smtpServer: string,
    smtpPort: Value,
    fromAddress: string,
    recipients: map<string, seq<string>>,
    password: string)

  /** The MIME message handed to the server: headers and the HTML alternative. */
  datatype MimeMessage = MimeMessage(subject: string, from: string, to: string, html: string)

  const PasswordMissing: string := "EMAIL_PASSWORD not configured"

  /**
   * The four settings the notifier reads are present, and the server, sender and recipients are well
   * typed. The port is kept as written (an int, or text such as "587"): the SMTP library takes either,
   * and whether it connects is the login outcome.
   */
  predicate SettingsReadable(config: Value)
  {
    TextSetting(config, "smtp_server").Ok? && Subscript(config, "smtp_port").Ok? &&
    TextSetting(config, "from_address").Ok? && ListMapSetting(config, "recipients").Ok?
  }

  /** `EmailNotifier(config)`: read the settings, require a password, then log in once. */
  function NewEmail(config: Value, password: Option<string>, loginError: Option<string>): (r: Result<EmailNotifier, string>)
    ensures r.Ok? <==> (SettingsReadable(config) && password.Some? && password.value != "" && loginError.None?)
    ensures (SettingsReadable(config) && (password.None? || password.value == "")) ==> r == Err(PasswordMissing)
    ensures (SettingsReadable(config) && password.Some? && password.value != "" && loginError.Some?) ==> r == Err(loginError.value)
    ensures r.Ok? ==> r.value.password == password.value && r.value.recipients == ListMapSetting(config, "recipients").value
    ensures r.Ok? ==> r.value.smtpPort == Subscript(config, "smtp_port").value
  {
    match (TextSetting(config, "smtp_server"), Subscript(config, "smtp_port"),
           TextSetting(config, "from_address"), ListMapSetting(config, "recipients"))
    case (Err(e), _, _, _) => Err(e)
    case (Ok(_), Err(e), _, _) => Err(e)
    case (Ok(_), Ok(_), Err(e), _) => Err(e)
    case (Ok(_), Ok(_), Ok(_), Err(e)) => Err(e)
    case (Ok(server), Ok(port), Ok(from), Ok(recipients)) =>
      if password.None? || password.value == "" then Err(PasswordMissing)
      else if loginError.Some? then Err(loginError.value)
      else Ok(EmailNotifier(server, port, from, recipients, password.value))
  }

  /** One `<strong>key:</strong> value` line per metadata entry, joined by `<br>`. */
  function MetadataHtml(metadata: seq<Field>): string
  {
    Text.Join("<br>", seq(|metadata|, i requires 0 <= i < |metadata| =>
      "<strong>" + metadata[i].key + ":</strong> " + Show(metadata[i].value)))
  }

  /**
   * The pieces of the HTML body in order: fixed markup alternating with the colour, the title, the
   * message, the upper-cased severity and the metadata lines. The layout's whitespace and the heading's
   * emoji are not kept.
   */
  function HtmlPieces(title: string, message: string, severity: string, metadata: seq<Field>): seq<string>
  {
    [HtmlOpen, Severity.Color(severity), HtmlTitle, title, HtmlMessage, message, HtmlSeverity, Text.Upper(severity),
     HtmlMetadata, MetadataHtml(metadata), HtmlClose]
  }

  const HtmlOpen: string := "<html><body><div><h2 style=\"color: "
  const HtmlTitle: string := ";\">"
  const HtmlMessage: string := "</h2><div><p>"
  const HtmlSeverity: string := "</p></div><div><p><strong>Severity:</strong> "
  const HtmlMetadata: string := "</p>"
  const HtmlClose: string := "</div><hr><p>This is an automated alert from the Issue Detection System.</p></div></body></html>"

  /** `format_message`. */
  function FormatMessage(title: string, message: string, severity: string, metadata: seq<Field>): string
  {
    Text.Join("", HtmlPieces(title, message, severity, metadata))
  }

  /** The HTML carries the severity colour, the title, the message, the upper-cased severity and every metadata line. */
  lemma FormatMessageShows(title: string, message: string, severity: string, metadata: seq<Field>)
    ensures var html := FormatMessage(title, message, severity, metadata);
      && Text.Contains(html, Severity.Color(severity))
      && Text.Contains(html, title)
      && Text.Contains(html, message)
      && Text.Contains(html, Text.Upper(severity))
      && Text.Contains(html, MetadataHtml(metadata))
  {
    var pieces := HtmlPieces(title, message, severity, metadata);
    Text.JoinContainsPart("", pieces, 1);
    Text.JoinContainsPart("", pieces, 3);
    Text.JoinContainsPart("", pieces, 5);
    Text.JoinContainsPart("", pieces, 7);
    Text.JoinContainsPart("", pieces, 9);
  }

  /** `get_recipients`: the configured list for the severity, or none. */
  function GetRecipients(n: EmailNotifier, severity: string): (r: seq<string>)
    ensures severity in n.recipients ==> r == n.recipients[severity]
    ensures severity !in n.recipients ==> r == []
  {
    if severity in n.recipients then n.recipients[severity] else []
  }

  function BuildMessage(n: EmailNotifier, title: string, message: string, severity: string,
                        metadata: seq<Field>, recipients: seq<string>): MimeMessage
  {
    MimeMessage("[" + Text.Upper(severity) + "] " + title, n.fromAddress, Text.Join(", ", recipients),
                FormatMessage(title, message, severity, metadata))
  }

  /** What `send` returned, and the message it submitted to the server, if it got that far. */
  datatype EmailAttempt = EmailAttempt(result: Value, submitted: Option<MimeMessage>)

  /**
   * `send`: with no recipients for the severity it is skipped and nothing is submitted; otherwise one
   * message goes to all of them, and the answer is `sent` with the recipient list, or `failed` with the
   * server's error.
   */
  function Send(n: EmailNotifier, title: string, message: string, severity: string, metadata: seq<Field>,
                smtp: MimeMessage -> Option<string>): (r: EmailAttempt)
    ensures GetRecipients(n, severity) == [] <==> r.submitted.None?
    ensures r.submitted.None? ==> Get(r.result, "status") == Some(Str("skipped"))
  {
    var recipients := GetRecipients(n, severity);
    if recipients == [] then
      EmailAttempt(Dict([Field("status", Str("skipped")), Field("reason", Str("no_recipients"))]), None)
    else
      var msg := BuildMessage(n, title, message, severity, metadata, recipients);
      match smtp(msg)
      case None => EmailAttempt(Dict([Field("status", Str("sent")), Field("recipients", StrList(recipients))]), Some(msg))
      case Some(e) => EmailAttempt(Dict([Field("status", Str("failed")), Field("error", Str("Failed to send email: " + e))]), Some(msg))
  }

  /** The submitted message goes from the configured sender to all the severity's recipients, with the severity in its subject. */
  lemma SendSubmits(n: EmailNotifier, title: string, message: string, severity: string, metadata: seq<Field>,
                    smtp: MimeMessage -> Option<string>)
    requires GetRecipients(n, severity) != []
    ensures var r := Send(n, title, message, severity, metadata, smtp);
      && r.submitted.Some?
      && r.submitted.value.to == Text.Join(", ", GetRecipients(n, severity))
      && r.submitted.value.subject == "[" + Text.Upper(severity) + "] " + title
      && r.submitted.value.from == n.fromAddress
      && r.submitted.value.html == FormatMessage(title, message, severity, metadata)
  {
  }

  /** A submitted message is `sent` exactly when the server accepted it, and the answer lists the recipients or the error. */
  lemma SendStatus(n: EmailNotifier, title: string, message: string, severity: string, metadata: seq<Field>,
                   smtp: MimeMessage -> Option<string>)
    requires GetRecipients(n, severity) != []
    ensures var r := Send(n, title, message, severity, metadata, smtp);
      var answer := smtp(r.submitted.value);
      && (answer.None? ==> Get(r.result, "status") == Some(Str("sent")) &&
                           Get(r.result, "recipients") == Some(StrList(GetRecipients(n, severity))))
      && (answer.Some? ==> Get(r.result, "status") == Some(Str("failed")) &&
                           Get(r.result, "error") == Some(Str("Failed to send email: " + answer.value)))
  {
    var r := Send(n, title, message, severity, metadata, smtp);
    var fs := r.result.fields;
    assert fs[1..] == [fs[1]];
    assert "recipients" != "status" && "error" != "status";
    assert Lookup(fs[1..], fs[1].key) == Some(fs[1].value);
  }
}
