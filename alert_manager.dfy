/**
 * The alert manager: the registry of notifiers built from the `alerting` configuration, the escalation
 * table that names the channels for each severity, and the dispatch of one alert to those channels in
 * order, where each channel's failure is isolated from the others. Providers are oracles: the answers of
 * Slack, of the SMTP server and of the Jira notifier (whose code is not part of this model).
 */
module Alerting {
  import opened Common
  import opened Values
  import Severity
  import SlackChannel
  import EmailChannel
  import ConfigLoader

  /** The Jira notifier is opaque to this model: it keeps its configuration and answers through the provider. */
  datatype JiraNotifier = JiraNotifier(config: Value)

  datatype Notifier =
    | SlackN(slack: SlackChannel.SlackNotifier)
    | EmailN(email: EmailChannel.EmailNotifier)
    | JiraN(jira: JiraNotifier)

  /** The calls made on the Jira notifier. */
  datatype JiraRequest =
    | JiraSend(title: string, message: string, severity: string, metadata: seq<Field>)
    | JiraCreate(title: string, description: string, severity: string, metadata: seq<Field>)
    | JiraUpdate(incidentId: string, status: string, comment: Option<string>, metadata: seq<Field>)

  /** How each external system answers during one delivery. */
  datatype Provider = Provider(
    slack: SlackChannel.PostMessage -> SlackChannel.SlackReply,
    smtp: EmailChannel.MimeMessage -> Option<string>,
    jira: JiraRequest -> Outcome)

  /**
   * What the environment contributes to construction: the environment variables, and the outcome of
   * Slack's `auth_test`, of the SMTP login and of the Jira notifier's constructor (an error text, or none).
   */
  datatype Env = Env(vars: map<string, string>, slackAuth: Option<string>, smtpLogin: Option<string>, jiraInit: Option<string>)

  /** One alert: what `send_alert` is called with (`metadata or {}` already applied). */
  datatype AlertCall = AlertCall(title: string, message: string, severity: string, metadata: seq<Field>)

  /** One entry of `send_alert`'s result: `{channel, success: True, result}` or `{channel, success: False, error}`. */
  datatype NotificationResult =
    | Delivered(channel: string, result: Value)
    | Failed(channel: string, error: Value)

  const ChannelNames: set<string> := {"slack", "email", "jira"}

  function EnvVar(env: Env, name: string): Option<string>
  {
    if name in env.vars then Some(env.vars[name]) else None
  }

  /** `alert_config.get(name, {}).get('enabled')`, read as a truth value. */
  predicate Enabled(alerting: Value, name: string)
  {
    Truthy(GetOr(GetOr(alerting, name, Dict([])), "enabled", Null))
  }

  /** `Notifier(alert_config[name])`, or the text of what its constructor raised. */
  function Construct(name: string, alerting: Value, env: Env): Result<Notifier, string>
  {
    match Subscript(alerting, name)
    case Err(e) => Err(e)
    case Ok(settings) =>
      if name == "slack" then
        (match SlackChannel.NewSlack(settings, EnvVar(env, "SLACK_BOT_TOKEN"), env.slackAuth)
         case Ok(n) => Ok(SlackN(n))
         case Err(e) => Err(e))
      else if name == "email" then
        (match EmailChannel.NewEmail(settings, EnvVar(env, "EMAIL_PASSWORD"), env.smtpLogin)
         case Ok(n) => Ok(EmailN(n))
         case Err(e) => Err(e))
      else if env.jiraInit.Some? then Err(env.jiraInit.value)
      else Ok(JiraN(JiraNotifier(settings)))
  }

  /** The registry after trying channel `name`: it is added when enabled and its constructor succeeds. */
  function TryRegister(registry: map<string, Notifier>, name: string, alerting: Value, env: Env): map<string, Notifier>
  {
    if Enabled(alerting, name) && Construct(name, alerting, env).Ok? then registry[name := Construct(name, alerting, env).value]
    else registry
  }

  /** The notifiers `__init__` registers, trying Slack, e-mail and Jira in that order. */
  function BuildRegistry(config: Value, env: Env): map<string, Notifier>
  {
    var alerting := GetOr(config, "alerting", Dict([]));
    TryRegister(TryRegister(TryRegister(map[], "slack", alerting, env), "email", alerting, env), "jira", alerting, env)
  }

  /** Only the three known channels can be registered, each exactly when enabled and constructible. */
  lemma RegistryMeaning(config: Value, env: Env, name: string)
    ensures BuildRegistry(config, env).Keys <= ChannelNames
    ensures var alerting := GetOr(config, "alerting", Dict([]));
      name in ChannelNames ==>
        (name in BuildRegistry(config, env) <==> Enabled(alerting, name) && Construct(name, alerting, env).Ok?)
    ensures var alerting := GetOr(config, "alerting", Dict([]));
      name in BuildRegistry(config, env) ==> BuildRegistry(config, env)[name] == Construct(name, alerting, env).value
  {
  }

  /** A channel whose constructor raises is absent, and the others do not depend on it. */
  lemma SlackRegisteredIff(config: Value, env: Env)
    ensures var alerting := GetOr(config, "alerting", Dict([]));
      "slack" in BuildRegistry(config, env) <==>
        Enabled(alerting, "slack") && Subscript(alerting, "slack").Ok? &&
        SlackChannel.NewSlack(Subscript(alerting, "slack").value, EnvVar(env, "SLACK_BOT_TOKEN"), env.slackAuth).Ok?
  {
    RegistryMeaning(config, env, "slack");
  }

  /** The items iterated by `for channel in channels`; a value that cannot be iterated gives none. */
  function ChannelList(channels: Value): seq<Value>
  {
    match Iterate(channels)
    case Ok(items) => items
    case Err(_) => []
  }

  /** `escalation_config.get(severity, {}).get('channels', [])`, as the items iterated. */
  function ChannelsFor(escalation: Value, severity: string): seq<Value>
  {
    ChannelList(GetOr(GetOr(escalation, severity, Dict([])), "channels", List([])))
  }

  predicate Registered(registry: map<string, Notifier>, channel: Value)
  {
    channel.Str? && channel.s in registry
  }

  /** `notifier.send(title, message, severity, metadata)` for each kind of notifier. */
  function Deliver(n: Notifier, call: AlertCall, p: Provider): Outcome
  {
    match n
    case SlackN(s) => SlackChannel.Send(s, call.title, call.message, call.severity, call.metadata, p.slack)
    case EmailN(e) => Returned(EmailChannel.Send(e, call.title, call.message, call.severity, call.metadata, p.smtp).result)
    case JiraN(_) => p.jira(JiraSend(call.title, call.message, call.severity, call.metadata))
  }

  /** The body of the per-channel `try`: success on `status == 'sent'`, the notifier's error otherwise, and any exception caught. */
  function Classify(channel: string, outcome: Outcome): (r: NotificationResult)
    ensures r.channel == channel
  {
    match outcome
    case Raised(m) => Failed(channel, Str("Error processing alert through " + channel + ": " + m))
    case Returned(result) =>
      if !result.Dict? then
        Failed(channel, Str("Error processing alert through " + channel + ": '" + TypeName(result) + NoGet))
      else if Get(result, "status") == Some(Str("sent")) then Delivered(channel, result)
      else Failed(channel, GetOr(result, "error", Str("Unknown error")))
  }

  /** A result is a success exactly when the notifier returned status `sent`, and then it carries that answer. */
  lemma ClassifyMeaning(channel: string, outcome: Outcome)
    ensures Classify(channel, outcome).Delivered? <==> outcome.Returned? && Get(outcome.result, "status") == Some(Str("sent"))
    ensures Classify(channel, outcome).Delivered? ==> Classify(channel, outcome).result == outcome.result
    ensures outcome.Raised? ==>
      Classify(channel, outcome) == Failed(channel, Str("Error processing alert through " + channel + ": " + outcome.message))
    ensures outcome.Returned? && outcome.result.Dict? && Get(outcome.result, "status") != Some(Str("sent")) ==>
      Classify(channel, outcome) == Failed(channel, GetOr(outcome.result, "error", Str("Unknown error")))
  {
  }

  /** An e-mail skipped for lack of recipients is reported as a failure with error `Unknown error`. */
  lemma EmailSkippedFails(channel: string, n: EmailChannel.EmailNotifier, call: AlertCall, p: Provider)
    requires EmailChannel.GetRecipients(n, call.severity) == []
    ensures Classify(channel, Deliver(EmailN(n), call, p)) == Failed(channel, Str("Unknown error"))
  {
    var fs := [Field("status", Str("skipped")), Field("reason", Str("no_recipients"))];
    assert Deliver(EmailN(n), call, p) == Returned(Dict(fs));
    assert fs[1..] == [fs[1]];
    assert "reason" != "error" && "status" != "error";
    assert Lookup(fs[1..][1..], "error") == None;
  }

  /** A Slack delivery succeeds exactly when Slack answers ok. */
  lemma SlackSuccessIff(channel: string, n: SlackChannel.SlackNotifier, call: AlertCall, p: Provider)
    ensures var reply := p.slack(SlackChannel.PostMessage(n.defaultChannel,
                                   SlackChannel.FormatMessage(n, call.title, call.message, call.severity, call.metadata)));
      Classify(channel, Deliver(SlackN(n), call, p)).Delivered? <==> reply.Response? && reply.ok
  {
    SlackChannel.SendStatus(n, call.title, call.message, call.severity, call.metadata, p.slack);
  }

  /** The result for the registered channel at position `i` of the escalation list, answered by `replies(i)`. */
  function Attempt(registry: map<string, Notifier>, channels: seq<Value>, call: AlertCall, replies: nat -> Provider, i: nat): NotificationResult
    requires i < |channels| && Registered(registry, channels[i])
  {
    Classify(channels[i].s, Deliver(registry[channels[i].s], call, replies(i)))
  }

  /** The results after the loop has looked at the first `k` channels: unregistered ones are skipped. */
  function AttemptsUpTo(registry: map<string, Notifier>, channels: seq<Value>, call: AlertCall, replies: nat -> Provider, k: nat): seq<NotificationResult>
    requires k <= |channels|
  {
    if k == 0 then []
    else
      var done := AttemptsUpTo(registry, channels, call, replies, k - 1);
      if Registered(registry, channels[k - 1]) then done + [Attempt(registry, channels, call, replies, k - 1)] else done
  }

  /** The positions among the first `k` channels that are registered, in order. */
  function RegisteredUpTo(registry: map<string, Notifier>, channels: seq<Value>, k: nat): seq<nat>
    requires k <= |channels|
  {
    if k == 0 then []
    else RegisteredUpTo(registry, channels, k - 1) + (if Registered(registry, channels[k - 1]) then [k - 1] else [])
  }

  /** What `send_alert` returns. */
  function Dispatch(registry: map<string, Notifier>, escalation: Value, call: AlertCall, replies: nat -> Provider): seq<NotificationResult>
  {
    if !Severity.IsKnown(call.severity) then []
    else
      var channels := ChannelsFor(escalation, call.severity);
      AttemptsUpTo(registry, channels, call, replies, |channels|)
  }

  /** The registered positions are increasing, registered, below `k`, and include every registered position below `k`. */
  lemma {:induction false} RegisteredUpToMeaning(registry: map<string, Notifier>, channels: seq<Value>, k: nat)
    requires k <= |channels|
    ensures var ps := RegisteredUpTo(registry, channels, k);
      && |ps| <= k
      && (forall j :: 0 <= j < |ps| ==> ps[j] < k && Registered(registry, channels[ps[j]]))
      && (forall j, l :: 0 <= j < l < |ps| ==> ps[j] < ps[l])
      && (forall i :: 0 <= i < k && Registered(registry, channels[i]) ==> i in ps)
  {
    if k > 0 {
      RegisteredUpToMeaning(registry, channels, k - 1);
    }
  }

  /** Results correspond one-to-one, in order, to the registered positions; each depends on its own position's reply only. */
  lemma {:induction false} AttemptsCorrespond(registry: map<string, Notifier>, channels: seq<Value>, call: AlertCall,
                                              replies: nat -> Provider, k: nat)
    requires k <= |channels|
    ensures var rs := AttemptsUpTo(registry, channels, call, replies, k);
      var ps := RegisteredUpTo(registry, channels, k);
      && |rs| == |ps|
      && (forall j :: 0 <= j < |rs| ==>
            (ps[j] < |channels| && Registered(registry, channels[ps[j]]) &&
             rs[j] == Attempt(registry, channels, call, replies, ps[j])))
  {
    if k > 0 {
      AttemptsCorrespond(registry, channels, call, replies, k - 1);
      RegisteredUpToMeaning(registry, channels, k);
    }
  }

  /** A severity outside critical, high and warning yields no results, whatever the providers would answer. */
  lemma UnknownSeverityNoResults(registry: map<string, Notifier>, escalation: Value, call: AlertCall,
                                 replies: nat -> Provider, others: nat -> Provider)
    requires !Severity.IsKnown(call.severity)
    ensures Dispatch(registry, escalation, call, replies) == []
    ensures Dispatch(registry, escalation, call, replies) == Dispatch(registry, escalation, call, others)
  {
  }

  /** A severity without escalation entry, or with no channels, yields no results. */
  lemma NoChannelsNoResults(registry: map<string, Notifier>, escalation: Value, call: AlertCall, replies: nat -> Provider)
    requires ChannelsFor(escalation, call.severity) == []
    ensures Dispatch(registry, escalation, call, replies) == []
  {
  }

  /**
   * `send_alert` in terms of the escalation list: one result per registered channel, in escalation order,
   * naming that channel; at most as many results as channels; each result is that channel's attempt.
   */
  lemma DispatchCorrespondence(registry: map<string, Notifier>, escalation: Value, call: AlertCall, replies: nat -> Provider)
    requires Severity.IsKnown(call.severity)
    ensures var channels := ChannelsFor(escalation, call.severity);
      var rs := Dispatch(registry, escalation, call, replies);
      var ps := RegisteredUpTo(registry, channels, |channels|);
      && |rs| == |ps| <= |channels|
      && (forall j, l :: 0 <= j < l < |ps| ==> ps[j] < ps[l])
      && (forall i :: 0 <= i < |channels| && Registered(registry, channels[i]) ==> i in ps)
      && (forall j :: 0 <= j < |rs| ==>
            (ps[j] < |channels| && Registered(registry, channels[ps[j]]) &&
             rs[j].channel == channels[ps[j]].s && rs[j] == Attempt(registry, channels, call, replies, ps[j])))
  {
    var channels := ChannelsFor(escalation, call.severity);
    AttemptsCorrespond(registry, channels, call, replies, |channels|);
    RegisteredUpToMeaning(registry, channels, |channels|);
  }

  /** Failure isolation: changing the answers for one position changes at most the result for that position. */
  lemma {:induction false} AttemptsIsolated(registry: map<string, Notifier>, channels: seq<Value>, call: AlertCall,
                                            replies: nat -> Provider, others: nat -> Provider, k: nat, i: nat)
    requires k <= |channels|
    requires forall m :: m != i ==> replies(m) == others(m)
    ensures var rs := AttemptsUpTo(registry, channels, call, replies, k);
      var qs := AttemptsUpTo(registry, channels, call, others, k);
      var ps := RegisteredUpTo(registry, channels, k);
      |rs| == |qs| == |ps| && forall j :: 0 <= j < |rs| && ps[j] != i ==> rs[j] == qs[j]
  {
    AttemptsCorrespond(registry, channels, call, replies, k);
    AttemptsCorrespond(registry, channels, call, others, k);
  }

  function IncidentReply(success: bool, key: string, v: Value): Value
  {
    Dict([Field("success", Bool(success)), Field(key, v)])
  }

  /** The wrapper shared by `create_incident` and `update_incident`. */
  function WrapIncident(registry: map<string, Notifier>, request: JiraRequest, jira: JiraRequest -> Outcome): (r: Value)
    ensures "jira" !in registry ==> r == IncidentReply(false, "error", Str("Jira not configured"))
    ensures "jira" in registry && jira(request).Raised? ==> r == IncidentReply(false, "error", Str(jira(request).message))
    ensures "jira" in registry && jira(request).Returned? ==> r == IncidentReply(true, "result", jira(request).result)
  {
    if "jira" !in registry then IncidentReply(false, "error", Str("Jira not configured"))
    else match jira(request)
      case Raised(m) => IncidentReply(false, "error", Str(m))
      case Returned(v) => IncidentReply(true, "result", v)
  }

  /** The reply is a success exactly when Jira is registered and its call did not raise. */
  lemma WrapIncidentSuccessIff(registry: map<string, Notifier>, request: JiraRequest, jira: JiraRequest -> Outcome)
    ensures Get(WrapIncident(registry, request, jira), "success") == Some(Bool(true)) <==>
      "jira" in registry && jira(request).Returned?
  {
  }

  /** `alert_config.get(name, {}).get('enabled')`: `.get` on an `alerting` section or a channel entry that is not a dict raises. */
  function EnabledError(alerting: Value, name: string): Option<string>
  {
    match DictGet(alerting, name, Dict([]))
    case Err(e) => Some(e)
    case Ok(entry) => if entry.Dict? then None else Some("'" + TypeName(entry) + NoGet)
  }

  /** `channel not in self.notifiers` for each channel in turn: the first list or dict among them raises TypeError. */
  function UnhashableError(channels: seq<Value>): (r: Option<string>)
    ensures r.None? <==> forall i :: 0 <= i < |channels| ==> Hashable(channels[i])
    ensures r.Some? ==>
      exists i :: (0 <= i < |channels| && !Hashable(channels[i]) && (forall j :: 0 <= j < i ==> Hashable(channels[j])) &&
                   r.value == "unhashable type: '" + TypeName(channels[i]) + "'")
  {
    if channels == [] then None
    else if !Hashable(channels[0]) then Some("unhashable type: '" + TypeName(channels[0]) + "'")
    else
      var r := UnhashableError(channels[1..]);
      assert forall i :: 0 <= i < |channels| - 1 ==> channels[1..][i] == channels[i + 1];
      r
  }

  /**
   * The escalation check of `__init__` for one severity: `severity in escalation`, then
   * `escalation[severity].get('channels', [])`, the iteration over the channels and the registry lookup
   * of each; the first of them that raises.
   */
  function EscalationError(escalation: Value, severity: string): Option<string>
  {
    match ContainsKey(escalation, severity)
    case Err(e) => Some(e)
    case Ok(present) =>
      if !present then None
      else match Subscript(escalation, severity)
        case Err(e) => Some(e)
        case Ok(rule) =>
          match DictGet(rule, "channels", List([]))
          case Err(e) => Some(e)
          case Ok(channels) =>
            match Iterate(channels)
            case Err(e) => Some(e)
            case Ok(items) => UnhashableError(items)
  }

  function FirstError(errors: seq<Option<string>>): Option<string>
  {
    if errors == [] then None else if errors[0].Some? then errors[0] else FirstError(errors[1..])
  }

  /**
   * What `AlertManager(config)` raises, in source order: reading `alerting`, the `enabled` flag of Slack,
   * e-mail and Jira, then the escalation check for critical, high and warning. A notifier whose own
   * constructor raises is caught there and only left unregistered.
   */
  function InitError(config: Value): Option<string>
  {
    match DictGet(config, "alerting", Dict([]))
    case Err(e) => Some(e)
    case Ok(alerting) =>
      var escalation := GetOr(config, "escalation", Dict([]));
      FirstError([EnabledError(alerting, "slack"), EnabledError(alerting, "email"), EnabledError(alerting, "jira"),
                  EscalationError(escalation, Severity.Critical), EscalationError(escalation, Severity.High),
                  EscalationError(escalation, Severity.Warning)])
  }

  /**
   * Once `__init__` has returned, the reads the model writes with defaults are the ones Python performs:
   * the `enabled` flags come from dict entries, and for a dict escalation table each known severity's
   * rule is a dict (or absent) whose channels iterate and can all be looked up in the registry.
   */
  lemma ConstructedReads(config: Value, name: string, severity: string)
    requires InitError(config).None?
    ensures config.Dict? && GetOr(config, "alerting", Dict([])).Dict?
    ensures name in ChannelNames ==> GetOr(GetOr(config, "alerting", Dict([])), name, Dict([])).Dict?
    ensures var escalation := GetOr(config, "escalation", Dict([]));
      var rule := GetOr(escalation, severity, Dict([]));
      escalation.Dict? && Severity.IsKnown(severity) ==>
        && rule.Dict?
        && Iterate(GetOr(rule, "channels", List([]))).Ok?
        && ChannelsFor(escalation, severity) == Iterate(GetOr(rule, "channels", List([]))).value
        && forall i :: 0 <= i < |ChannelsFor(escalation, severity)| ==> Hashable(ChannelsFor(escalation, severity)[i])
  {
    var alerting := GetOr(config, "alerting", Dict([]));
    var escalation := GetOr(config, "escalation", Dict([]));
    var errors := [EnabledError(alerting, "slack"), EnabledError(alerting, "email"), EnabledError(alerting, "jira"),
                   EscalationError(escalation, Severity.Critical), EscalationError(escalation, Severity.High),
                   EscalationError(escalation, Severity.Warning)];
    FirstErrorNone(errors);
    if name in ChannelNames {
      assert name == "slack" || name == "email" || name == "jira";
      assert EnabledError(alerting, name) in errors;
    }
    if Severity.IsKnown(severity) {
      assert EscalationError(escalation, severity) in errors;
    }
  }

  /** A document with Slack enabled and the e-mail entry written as the string `off`. */
  function OffByString(): Value
  {
    var on := Dict([Field("enabled", Bool(true))]);
    Dict([Field("monitors", Dict([Field("prometheus", on)])),
          Field("alerting", Dict([Field("slack", on), Field("email", Str("off"))])),
          Field("escalation", Dict([Field("critical", Dict([])), Field("high", Dict([])), Field("warning", Dict([]))])),
          Field("audit", Dict([]))])
  }

  /**
   * Validation does not protect construction: `validate_config` accepts the document, because Slack is
   * enabled and the search for an enabled channel stops there, yet `__init__` raises on the e-mail entry.
   */
  lemma ValidatedYetRejected()
    ensures ConfigLoader.ValidateConfig(OffByString()) == Ok(())
    ensures InitError(OffByString()) == Some("'str" + NoGet)
  {
    OffByStringValid();
    OffByStringRejected();
  }

  lemma OffByStringValid()
    ensures ConfigLoader.ValidateConfig(OffByString()) == Ok(())
  {
    OffByStringAcceptable();
    ConfigLoader.ValidateAcceptsIff(OffByString());
  }

  lemma OffByStringAcceptable()
    ensures ConfigLoader.Acceptable(OffByString())
  {
    var on := Dict([Field("enabled", Bool(true))]);
    var monitors := Dict([Field("prometheus", on)]);
    var alerting := Dict([Field("slack", on), Field("email", Str("off"))]);
    OffByStringSections();
    assert ConfigLoader.SwitchedOn(on);
    assert monitors.fields[0].value == on && alerting.fields[0].value == on;
    ConfigLoader.SomeEnabledCons(monitors.fields);
    ConfigLoader.SomeEnabledCons(alerting.fields);
    EscalationOfOffByString();
  }

  lemma OffByStringSections()
    ensures var on := Dict([Field("enabled", Bool(true))]);
      var fields := OffByString().fields;
      && Lookup(fields, "monitors") == Some(Dict([Field("prometheus", on)]))
      && Lookup(fields, "alerting") == Some(Dict([Field("slack", on), Field("email", Str("off"))]))
      && Lookup(fields, "escalation") == Some(Dict([Field("critical", Dict([])), Field("high", Dict([])), Field("warning", Dict([]))]))
      && Lookup(fields, "audit") == Some(Dict([]))
  {
    var fields := OffByString().fields;
    assert "monitors"[0] != "escalation"[0] && "alerting"[0] != "escalation"[0] && "monitors"[0] != "alerting"[0];
    assert "monitors"[0] != "audit"[0] && "alerting"[1] != "audit"[1] && "escalation"[0] != "audit"[0];
    assert Lookup(fields[3..], "audit") == Some(Dict([]));
    assert Lookup(fields[2..], "audit") == Some(Dict([]));
    assert Lookup(fields[1..], "audit") == Some(Dict([]));
    assert Lookup(fields[2..], "escalation") == Lookup(fields[1..], "escalation");
  }

  lemma EscalationOfOffByString()
    ensures ConfigLoader.EscalationComplete(Dict([Field("critical", Dict([])), Field("high", Dict([])), Field("warning", Dict([]))]))
  {
    var rules := [Field("critical", Dict([])), Field("high", Dict([])), Field("warning", Dict([]))];
    assert "critical"[0] != "high"[0] && "critical"[0] != "warning"[0] && "high"[0] != "warning"[0];
    assert Lookup(rules[1..], "high").Some? && Lookup(rules[2..], "warning").Some? && Lookup(rules[1..], "warning").Some?;
  }

  lemma OffByStringRejected()
    ensures InitError(OffByString()) == Some("'str" + NoGet)
  {
    var on := Dict([Field("enabled", Bool(true))]);
    var alerting := Dict([Field("slack", on), Field("email", Str("off"))]);
    assert Lookup(OffByString().fields, "alerting") == Some(alerting);
    assert EnabledError(alerting, "slack") == None;
    assert Lookup(alerting.fields[1..], "email") == Some(Str("off"));
    assert "slack"[0] != "email"[0];
    assert Lookup(alerting.fields, "email") == Some(Str("off"));
    assert "'" + TypeName(Str("off")) == "'str";
    assert EnabledError(alerting, "email") == Some("'str" + NoGet);
    var escalation := GetOr(OffByString(), "escalation", Dict([]));
    var errors := [EnabledError(alerting, "slack"), EnabledError(alerting, "email"), EnabledError(alerting, "jira"),
                   EscalationError(escalation, Severity.Critical), EscalationError(escalation, Severity.High),
                   EscalationError(escalation, Severity.Warning)];
    assert FirstError(errors) == FirstError(errors[1..]) == errors[1];
    assert DictGet(OffByString(), "alerting", Dict([])) == Ok(alerting);
  }

  /** No error is found exactly when none of the steps raises. */
  lemma {:induction false} FirstErrorNone(errors: seq<Option<string>>)
    ensures FirstError(errors).None? <==> forall i :: 0 <= i < |errors| ==> errors[i].None?
  {
    if errors != [] {
      FirstErrorNone(errors[1..]);
      assert forall i :: 1 <= i < |errors| ==> errors[i] == errors[1..][i - 1];
    }
  }

  class AlertManager {
    var notifiers: map<string, Notifier>
    var escalation: Value

    /** `AlertManager(config)` once it is known not to raise: register the enabled notifiers that construct, and keep the escalation table. */
    constructor (config: Value, env: Env)
      requires InitError(config).None?
      ensures notifiers == BuildRegistry(config, env)
      ensures escalation == GetOr(config, "escalation", Dict([]))
    {
      var alerting := GetOr(config, "alerting", Dict([]));
      var registry: map<string, Notifier> := map[];
      ghost var before := registry;
      if Enabled(alerting, "slack") {
        var made := Construct("slack", alerting, env);
        if made.Ok? {
          registry := registry["slack" := made.value];
        }
      }
      assert registry == TryRegister(before, "slack", alerting, env);
      before := registry;
      if Enabled(alerting, "email") {
        var made := Construct("email", alerting, env);
        if made.Ok? {
          registry := registry["email" := made.value];
        }
      }
      assert registry == TryRegister(before, "email", alerting, env);
      before := registry;
      if Enabled(alerting, "jira") {
        var made := Construct("jira", alerting, env);
        if made.Ok? {
          registry := registry["jira" := made.value];
        }
      }
      assert registry == TryRegister(before, "jira", alerting, env);
      notifiers := registry;
      escalation := GetOr(config, "escalation", Dict([]));
    }

    /** `AlertManager(config)`: a manager with the registry and escalation table above, or the text of what `__init__` raised. */
    static method Create(config: Value, env: Env) returns (r: Result<AlertManager, string>)
      ensures r.Err? <==> InitError(config).Some?
      ensures r.Err? ==> r.error == InitError(config).value
      ensures r.Ok? ==> fresh(r.value) && r.value.notifiers == BuildRegistry(config, env)
      ensures r.Ok? ==> r.value.escalation == GetOr(config, "escalation", Dict([]))
    {
      var failure := InitError(config);
      if failure.Some? {
        return Err(failure.value);
      }
      var manager := new AlertManager(config, env);
      return Ok(manager);
    }

    /** `send_alert`: the i-th channel of the escalation list is answered by `replies(i)`. */
    method SendAlert(call: AlertCall, replies: nat -> Provider) returns (results: seq<NotificationResult>)
      ensures results == Dispatch(notifiers, escalation, call, replies)
    {
      if !Severity.IsKnown(call.severity) {
        return [];
      }
      var channels := ChannelsFor(escalation, call.severity);
      if channels == [] {
        return [];
      }
      results := [];
      var i := 0;
      while i < |channels|
        invariant 0 <= i <= |channels|
        invariant results == AttemptsUpTo(notifiers, channels, call, replies, i)
      {
        var channel := channels[i];
        if !Registered(notifiers, channel) {
          i := i + 1;
          continue;
        }
        var outcome := Deliver(notifiers[channel.s], call, replies(i));
        var result := Classify(channel.s, outcome);
        assert result == Attempt(notifiers, channels, call, replies, i);
        results := results + [result];
        i := i + 1;
      }
    }

    /** `create_incident`. */
    function CreateIncident(title: string, description: string, severity: string, metadata: seq<Field>,
                            jira: JiraRequest -> Outcome): (r: Value)
      reads this
      ensures "jira" !in notifiers ==> r == IncidentReply(false, "error", Str("Jira not configured"))
      ensures "jira" in notifiers ==> Get(r, "success") == Some(Bool(jira(JiraCreate(title, description, severity, metadata)).Returned?))
    {
      WrapIncidentSuccessIff(notifiers, JiraCreate(title, description, severity, metadata), jira);
      WrapIncident(notifiers, JiraCreate(title, description, severity, metadata), jira)
    }

    /** `update_incident`. */
    function UpdateIncident(incidentId: string, status: string, comment: Option<string>, metadata: seq<Field>,
                            jira: JiraRequest -> Outcome): (r: Value)
      reads this
      ensures "jira" !in notifiers ==> r == IncidentReply(false, "error", Str("Jira not configured"))
      ensures "jira" in notifiers ==> Get(r, "success") == Some(Bool(jira(JiraUpdate(incidentId, status, comment, metadata)).Returned?))
    {
      WrapIncidentSuccessIff(notifiers, JiraUpdate(incidentId, status, comment, metadata), jira);
      WrapIncident(notifiers, JiraUpdate(incidentId, status, comment, metadata), jira)
    }
  }
}
