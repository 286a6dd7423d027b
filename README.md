# Issue detection: alert escalation and dispatch, modelled in Dafny

The system watches two sources for trouble and passes each problem on to the people responsible:

- **Metric monitor.** Queries Prometheus for each configured metric over the last five minutes. It flags the
  largest sample when it exceeds the metric's threshold.
- **Log monitor.** Searches the configured Elasticsearch indices for each configured log pattern. It groups
  the hits by pattern and severity.
- **Alert manager.** Receives every alert from the two monitors. The escalation table gives, for each
  severity (`critical`, `high`, `warning`), a list of channels. The manager sends the alert to each listed,
  registered channel in order. Each channel's failure stays with that channel.
- **Channels.** Slack (a formatted payload with a colour per severity) and e-mail (an HTML message for the
  recipients of that severity).
- **Audit log.** Every check ends with one `monitor_check` record. Every failure the monitors catch leaves
  an `error` record.
- **Configuration loader.** Rejects a document that lacks a required section, has no enabled monitor or
  channel, or lacks an escalation rule for a severity. It then replaces `${NAME}` references with the
  values of environment variables.

Modules, one per source file plus shared helpers:

- `Common` — Option, Result and list associativity.
- `Text` — Python's `join`, `in` on strings, `upper` and `lower` on ASCII letters, and `str(int)`.
- `Numbers` — Python's `int` and `float` values as exact decimals, with `float(text)` and `str(x)`.
- `Values` — Python's dicts and lists as an ordered `Value` tree, with subscripting, `.get`, `in`, iteration,
  hashability, truthiness, `str`/`repr`, paths into the tree and typed reads of settings.
- `Severity`, `Audit`, `ConfigLoader`, `SlackChannel`, `EmailChannel`, `Alerting`, `MetricMonitor` and
  `LogMonitor`.

How the model is built:

- **Pure code is functions.** The formatting, grouping, query building, validation and classification
  code is pure, so it is modelled as functions, with the properties proved as lemmas.
- **State is classes.**
  - The audit logger is a class whose `records` sequence only ever grows.
  - The alert manager holds its registry and escalation table.
  - The two monitors hold their settings and update the audit log.
- **Loops that build results are methods.** Dispatch, value extraction, search, grouping, message building
  and the check loops are methods with invariants. Each method is proved equal to a specification function,
  and the lemmas are about that function.
- **Loops that only test or rewrite a document are recursive functions.** These are the loops of
  `validate_config` and `expand_env_vars`, and the escalation check of the alert manager's `__init__`.
- **Collaborators are oracle parameters.** Everything outside the program is an oracle passed in.
  - Slack's Web API: `PostMessage -> SlackReply`.
  - The SMTP server: a message to an optional error text.
  - The Jira notifier: a request to an outcome.
  - Prometheus: a query to a reply.
  - Elasticsearch: an index and a body to a reply.
  - The environment variables: a map.
  - The clock: a timestamp parameter.
- **Exceptions are results.** A raised exception is the `Raised`/`Err` alternative of an outcome, so every
  `except` branch the model reaches is a modelled path. Three handlers are not reached: the outermost
  `except` of each monitor's `check` and the handler of the log monitor's constructor. "## Left out" says why.

## Model

| member | source | states |
|---|---|---|
| Severity.ColorTable | src/alerting/channels/slack.py:59-63 | The colour is the default grey exactly for unrecognised severities. The three recognised severities get red, orange and yellow, all distinct. |
| Audit.InitError | src/utils/audit_logger.py:20-22 | The constructor raises exactly when the configuration is not a dict (`AttributeError` on `.get`) or its `log_file` is not text (`TypeError` from `Path`), with Python's message. |
| Audit.AuditLogger.constructor | src/utils/audit_logger.py:20-22 | `enabled` defaults to true, `log_file` to `logs/audit.log` and `retention_days` to 90. The log starts empty. |
| Audit.AuditLogger.Create | src/utils/audit_logger.py:13-22 | `AuditLogger(config)` fails exactly when the constructor raises, with its message. Otherwise it is a new, empty logger with the configured settings. |
| Audit.AuditLogger.LogEvent | src/utils/audit_logger.py:39-56 | When enabled and writable, the record is appended with the given type, severity, details and timestamp. Otherwise nothing changes. Earlier records are never altered. |
| Audit.AuditLogger.AdmitConcat | src/utils/audit_logger.py:39-56 | What a run of writes keeps splits over concatenation, so a sequence of `log_event` calls leaves their records in call order. |
| Audit.AuditLogger.LogMonitorCheck | src/utils/audit_logger.py:58-74 | Appends a `monitor_check` record at severity `info` with `monitor`, `metrics` and `issues_found`, if the log accepts writes. |
| Audit.MonitorCheckDetailsFields | src/utils/audit_logger.py:67-74 | The details of a `monitor_check` record hold the monitor name, the metrics and the issues flag under their keys. |
| Audit.AuditLogger.LogAlertSent | src/utils/audit_logger.py:76-95 | Appends an `alert_sent` record at severity `warning` with the alert type, channel, recipient and message. |
| Audit.AuditLogger.LogError | src/utils/audit_logger.py:97-114 | Appends an `error` record at severity `error` with the component, the error message and the details. |
| Audit.AuditLogger.LogSystemEvent | src/utils/audit_logger.py:116-130 | Appends a `system_event` record at severity `info` with the event name and details. |
| ConfigLoader.FirstMissingNone | src/utils/config_loader.py:48-50 | The search for a missing name finds none exactly when every name is a member. |
| ConfigLoader.SectionsPresent | src/utils/config_loader.py:46-50 | The section check passes exactly when `monitors`, `alerting`, `escalation` and `audit` are all present. |
| ConfigLoader.MissingSectionFirst | src/utils/config_loader.py:46-50 | Suppose the k-th required section is missing and all earlier ones are present. Then validation fails naming that k-th section. |
| ConfigLoader.SomeEnabledCons | src/utils/config_loader.py:53 | `any(...)` over the entries is decided by the first entry when it is truthy. When it is falsy but well-formed, the rest decides. |
| ConfigLoader.AnyEnabledTrue | src/utils/config_loader.py:53 | `any(m['enabled'] ...)` is true exactly when some entry is switched on after only well-formed, switched-off ones before it. |
| ConfigLoader.AnyEnabledFalse | src/utils/config_loader.py:53 | `any(...)` is false exactly when every entry is a dict whose `enabled` is present and falsy. |
| ConfigLoader.EnabledCheckPasses | src/utils/config_loader.py:53-58 | The enabled check of a section passes exactly when the section is a dict in which some entry is enabled. |
| ConfigLoader.SeveritiesPresent | src/utils/config_loader.py:61-64 | The escalation check passes exactly when `critical`, `high` and `warning` all have rules. |
| ConfigLoader.CheckEscalationPasses | src/utils/config_loader.py:60-64 | The escalation stage passes exactly when `escalation` is present and complete. |
| ConfigLoader.CheckAlertingPasses | src/utils/config_loader.py:56-64 | The alerting stage passes exactly when `alerting` is a dict with an enabled channel and the escalation stage passes. |
| ConfigLoader.CheckMonitorsPasses | src/utils/config_loader.py:52-64 | The monitors stage passes exactly when `monitors` is a dict with an enabled monitor and the later stages pass. |
| ConfigLoader.ValidateAcceptsIff | src/utils/config_loader.py:36-64 | `validate_config` accepts a document exactly when all sections are present, a monitor and a channel are enabled, and the escalation covers all three severities. |
| ConfigLoader.NoMonitorEnabled | src/utils/config_loader.py:53-54 | With all sections present and every monitor switched off, validation fails with "At least one monitor must be enabled". |
| ConfigLoader.NoChannelEnabled | src/utils/config_loader.py:57-58 | With a monitor enabled and every channel switched off, validation fails with "At least one alerting channel must be enabled". |
| ConfigLoader.ExpandKeepsShape | src/utils/config_loader.py:66-91 | Expansion keeps the tree's shape: every key, every list length and the nesting. Only leaves can change. |
| ConfigLoader.ExpandEntryKeepsShape | src/utils/config_loader.py:75-79 | The same shape preservation for one dict or list entry. |
| ConfigLoader.ExpandWithoutReferences | src/utils/config_loader.py:66-91 | A tree without `${...}` strings is left unchanged. |
| ConfigLoader.ExpandEntryWithoutReferences | src/utils/config_loader.py:75-79 | An entry without `${...}` strings is left unchanged. |
| ConfigLoader.ExpandResolvesEverything | src/utils/config_loader.py:66-91 | When no variable's value is itself a reference, no reference remains after expansion. |
| ConfigLoader.ExpandEntryResolves | src/utils/config_loader.py:75-79 | The same resolution for one entry. |
| ConfigLoader.ExpandIdempotent | src/utils/config_loader.py:66-91 | When no variable's value is itself a reference, expanding twice equals expanding once. |
| ConfigLoader.FollowExpanded | src/utils/config_loader.py:66-91 | A path into the expanded tree reaches exactly the expansion of what it reached before. No path appears or disappears. |
| ConfigLoader.ExpandSubstitutes | src/utils/config_loader.py:73-91 | Every `${NAME}` dict value or list element becomes the text of variable `NAME`, or `None` when it is unset. Every other leaf stays as written. |
| ConfigLoader.LoadValidatesBeforeExpanding | src/utils/config_loader.py:20-34 | A parsed document loads exactly when it validates. The loaded result is the expanded document. A rejected one reports validation's error. |
| SlackChannel.NewSlack | src/alerting/channels/slack.py:19-39 | Construction succeeds exactly when the settings are readable, `SLACK_BOT_TOKEN` is set and non-empty, and `auth_test` succeeds. A missing token gives "SLACK_BOT_TOKEN not configured". The notifier keeps the token and the default channel. |
| SlackChannel.MetadataLines | src/alerting/channels/slack.py:69 | One `*key:* value` line per metadata entry. |
| SlackChannel.MetadataTextSnoc | src/alerting/channels/slack.py:69 | The metadata text of one more entry adds exactly one newline and that entry's line. |
| SlackChannel.MentionsDefault | src/alerting/channels/slack.py:66 | The mentions are the severity's users joined by spaces, or empty when the severity has none. |
| SlackChannel.FallbackShape | src/alerting/channels/slack.py:72-74 | The fallback starts with title, message and upper-cased severity. It is exactly that when there is no metadata. |
| SlackChannel.FormatMessage | src/alerting/channels/slack.py:58-116 | The payload has one attachment. Its top-level text equals the attachment's fallback, and its colour is the severity's colour. |
| SlackChannel.DuplicateKeyword | src/alerting/channels/slack.py:194-199 | A duplicate keyword is reported only when it is passed both explicitly and through `**`. None is reported only when the two sets are disjoint. |
| SlackChannel.SendStatus | src/alerting/channels/slack.py:137-170 | `send` raises only for a non-Slack error. It reports `sent` exactly when Slack answers ok, given the channel and `ts`. A not-ok answer gives "Slack API returned not ok: ..." and an API error gives "Failed to send Slack message: ...". |
| SlackChannel.UpdateMessageAsWrittenFails | src/alerting/channels/slack.py:191-199 | As written, `update_message` always fails with a duplicate `text` keyword error, before reaching Slack. |
| SlackChannel.UpdateMessage | src/alerting/channels/slack.py:191-212 | Corrected: the update succeeds exactly when Slack answers ok, returning its `ts` and channel. A not-ok answer fails with "Failed to update message: ...". |
| EmailChannel.NewEmail | src/alerting/channels/email.py:13-41 | Construction succeeds exactly when the settings are readable, `EMAIL_PASSWORD` is set and non-empty, and the SMTP login succeeds. Otherwise it fails with "EMAIL_PASSWORD not configured" or the login error. The port is kept as written, an int or text. |
| EmailChannel.FormatMessageShows | src/alerting/channels/email.py:43-90 | The HTML contains the severity's colour, the title, the message, the upper-cased severity and the metadata lines. |
| EmailChannel.GetRecipients | src/alerting/channels/email.py:92-102 | The recipients of the severity, or none when the severity has no entry. |
| EmailChannel.Send | src/alerting/channels/email.py:124-127 | Nothing is submitted exactly when the severity has no recipients, and then the status is `skipped`. |
| EmailChannel.SendSubmits | src/alerting/channels/email.py:131-138 | With recipients, the submitted message is addressed to them joined by `, `, from the sender. Its subject is `[SEVERITY] title` and its body is the formatted HTML. |
| EmailChannel.SendStatus | src/alerting/channels/email.py:140-152 | With recipients, a successful SMTP exchange gives `sent` and the recipients. A failure gives `failed` with "Failed to send email: ...". |
| Alerting.RegistryMeaning | src/alerting/alert_manager.py:25-70 | Only `slack`, `email` and `jira` can be registered. Each is registered exactly when enabled and its constructor does not raise, and then it holds what the constructor built. |
| Alerting.SlackRegisteredIff | src/alerting/alert_manager.py:29-40 | Slack is registered exactly when enabled, its settings exist and the Slack constructor succeeds. |
| Alerting.UnhashableError | src/alerting/alert_manager.py:86-87 | The registry lookup of the channels raises exactly when some channel is a list or dict, naming the first such channel's type. |
| Alerting.ConstructedReads | src/alerting/alert_manager.py:25-88 | Once `__init__` has returned, the `enabled` flags were read from dicts. For a dict escalation table, each known severity's rule is a dict or absent, its channels iterate, and all of them can be looked up. |
| Alerting.ValidatedYetRejected | src/alerting/alert_manager.py:43 | A document that `validate_config` accepts can still make `__init__` raise: with Slack enabled and `email: off`, reading the e-mail flag fails with `'str' object has no attribute 'get'`. |
| Alerting.AlertManager.constructor | src/alerting/alert_manager.py:25-78 | The registry is what the three guarded constructions produce. The escalation table is `config['escalation']` or empty. |
| Alerting.AlertManager.Create | src/alerting/alert_manager.py:13-88 | `AlertManager(config)` fails exactly when `__init__` raises, with its message. Otherwise the new manager holds the registry and the escalation table above. |
| Alerting.Classify | src/alerting/alert_manager.py:135-157 | Every result names the channel it came from. |
| Alerting.ClassifyMeaning | src/alerting/alert_manager.py:135-157 | A channel counts as a success exactly when it returned status `sent`, and the success carries the channel's reply. A raise becomes "Error processing alert through ch: ...". Any other reply carries its `error`, or "Unknown error". |
| Alerting.EmailSkippedFails | src/alerting/alert_manager.py:135-149 | An e-mail channel with no recipients for the severity is reported as a failure with "Unknown error". |
| Alerting.SlackSuccessIff | src/alerting/alert_manager.py:133-141 | A Slack delivery succeeds exactly when Slack answers ok to the formatted message. |
| Alerting.RegisteredUpToMeaning | src/alerting/alert_manager.py:125-128 | The positions attempted are exactly the registered channels of the escalation list, in increasing order. |
| Alerting.AttemptsCorrespond | src/alerting/alert_manager.py:125-157 | The j-th result is the attempt at the j-th registered channel position. |
| Alerting.UnknownSeverityNoResults | src/alerting/alert_manager.py:107-109 | An unknown severity yields no results and contacts no provider. |
| Alerting.NoChannelsNoResults | src/alerting/alert_manager.py:118-121 | A severity with no channels yields no results. |
| Alerting.DispatchCorrespondence | src/alerting/alert_manager.py:107-162 | For a known severity there is exactly one result per registered channel, in escalation order. Each result names its channel and is that channel's attempt. Unregistered channels are skipped. |
| Alerting.AttemptsIsolated | src/alerting/alert_manager.py:130-157 | Changing how one channel's providers answer changes no other channel's result. |
| Alerting.AlertManager.SendAlert | src/alerting/alert_manager.py:90-162 | The loop's results equal the dispatch specification. |
| Alerting.WrapIncident | src/alerting/alert_manager.py:181-195 | Without Jira: "Jira not configured". A raising Jira call gives its message as the error. A returning call gives success with the result. |
| Alerting.WrapIncidentSuccessIff | src/alerting/alert_manager.py:181-195 | Success is reported exactly when Jira is registered and the call returns. |
| Alerting.AlertManager.CreateIncident | src/alerting/alert_manager.py:164-195 | Without Jira: "Jira not configured". Otherwise success is whether the Jira create call returned. |
| Alerting.AlertManager.UpdateIncident | src/alerting/alert_manager.py:197-228 | Without Jira: "Jira not configured". Otherwise success is whether the Jira update call returned. |
| MetricMonitor.PrometheusMonitor.constructor | src/monitors/prometheus_monitor.py:21-25 | The monitor keeps the endpoint, metric rules, interval and audit logger it is given. |
| MetricMonitor.QueryString | src/monitors/prometheus_monitor.py:51 | The query is `metric[duration]`: the metric name, then the bracketed duration. |
| MetricMonitor.QueryMetricOk | src/monitors/prometheus_monitor.py:46-72 | The query succeeds exactly when the status is 200, the JSON status is `success` and `data` is present. A non-200 status gives "Query failed with status N: body". |
| MetricMonitor.SampleErrorStops | src/monitors/prometheus_monitor.py:121 | Once converting a sample fails, the later samples do not change the outcome: the first error wins. |
| MetricMonitor.SeriesErrorStops | src/monitors/prometheus_monitor.py:120-121 | Once a series fails, the later series do not change the outcome. |
| Numbers.LiteralRoundTrip | src/monitors/prometheus_monitor.py:121 | Reading the decimal text of a number with `float()` gives back exactly that number. |
| Numbers.FloatTextRoundTrip | src/monitors/prometheus_monitor.py:133 | `str(x)` of a float reads back, with `float()`, as the same number, written with its shortest digits. |
| MetricMonitor.SampleOfLiteral | src/monitors/prometheus_monitor.py:121 | A sample `[t, text]` whose text is a written decimal converts to exactly that decimal. |
| MetricMonitor.SampleOfText | src/monitors/prometheus_monitor.py:121 | A sample `[t, text]` converts to exactly the number `float(text)` reads. |
| MetricMonitor.ConvertSamples | src/monitors/prometheus_monitor.py:121 | The comprehension `[float(v[1]) for v in ...]` equals the sample specification. |
| MetricMonitor.ExtractValues | src/monitors/prometheus_monitor.py:119-121 | The extraction loop equals the extraction specification. |
| MetricMonitor.SampleValuesOfSeries | src/monitors/prometheus_monitor.py:121 | The values of a well-formed series are read back exactly, in order. |
| MetricMonitor.SampleValuesPointwise | src/monitors/prometheus_monitor.py:121 | Samples that each convert give exactly their values, in order. |
| MetricMonitor.AllSeriesOfMatrix | src/monitors/prometheus_monitor.py:119-121 | For well-formed series, the extracted values are the concatenation of every series' values, in order. |
| MetricMonitor.ExtractMatrix | src/monitors/prometheus_monitor.py:119-121 | Extraction from a well-formed matrix result always succeeds, with all values in order. |
| MetricMonitor.Max | src/monitors/prometheus_monitor.py:90 | `max(values)` of a non-empty list is one of the values, and no value is larger. |
| MetricMonitor.CheckThreshold | src/monitors/prometheus_monitor.py:74-100 | A threshold that is not an int, float or bool makes `>` raise a TypeError naming the left type (`float`, or `int` without values) and the threshold's type. Otherwise there is at most one violation. With values, there is one exactly when some value exceeds the threshold, and it carries the metric, the threshold and the largest value. Without values, there is one exactly when the threshold is negative, and its value is 0. |
| MetricMonitor.AlertForMeaning | src/monitors/prometheus_monitor.py:131-141 | The alert carries the metric's severity and the title "Metric Threshold Violation: name". Its message is "Metric name exceeded threshold of T. Current value: V" with Python's `str` of both values. Its metadata holds the metric, threshold and current value. |
| MetricMonitor.AlertsFor | src/monitors/prometheus_monitor.py:130-141 | One alert per violation, in order. |
| MetricMonitor.EvaluateMetric | src/monitors/prometheus_monitor.py:110-149 | One step per metric rule, with at most one violation when the check succeeds. |
| MetricMonitor.EvaluateMetricMeaning | src/monitors/prometheus_monitor.py:114-124 | A successful answer in matrix shape is checked against the maximum over all its series' values. A threshold that is not a number stops the metric with the comparison's TypeError text. A failed query stops the metric with the query's error text. |
| MetricMonitor.FailureRecorded | src/monitors/prometheus_monitor.py:143-149 | Every metric whose check failed leaves its own error record. |
| MetricMonitor.NonNumericThresholdRecorded | src/monitors/prometheus_monitor.py:124-159 | A metric whose threshold is not a number (such as the text `"90"`) gets a "Failed to check metric" record carrying the TypeError text. The other metrics are still evaluated, and the summary record still ends the log. |
| MetricMonitor.Steps | src/monitors/prometheus_monitor.py:109-149 | The n-th step is the evaluation of the n-th metric rule. |
| MetricMonitor.OutcomesPerMetric | src/monitors/prometheus_monitor.py:109-149 | One error record per failed metric. Violations plus failures never exceed the number of metrics. Alerts match violations in number. |
| MetricMonitor.AlertsMatchViolations | src/monitors/prometheus_monitor.py:126-141 | The j-th alert is the alert built for the j-th violation, with the severity configured for the metric that produced it. |
| MetricMonitor.SummaryMeaning | src/monitors/prometheus_monitor.py:152-159 | The summary is a `monitor_check` record with `metrics_checked`, `violations_found`, and `issues_found` true exactly when there were violations. |
| MetricMonitor.StepsAppend | src/monitors/prometheus_monitor.py:109-149 | One more metric appends exactly its violations, its alerts or its error record. |
| MetricMonitor.PrometheusMonitor.CheckMetric | src/monitors/prometheus_monitor.py:110-149 | One metric's alerts and step match the specification. The audit log gains the error record exactly when the metric failed. |
| MetricMonitor.PrometheusMonitor.CheckNext | src/monitors/prometheus_monitor.py:109-149 | One round of the metric loop adds exactly that metric's violations, alerts and error record to what the earlier metrics produced. |
| MetricMonitor.PrometheusMonitor.CheckAll | src/monitors/prometheus_monitor.py:107-149 | The alerts, the violations found and the error records over all metrics match the specification. |
| MetricMonitor.PrometheusMonitor.Check | src/monitors/prometheus_monitor.py:102-159 | The check raises the specified alerts. It appends the per-metric error records, then the summary record. |
| LogMonitor.ElasticsearchMonitor.constructor | src/monitors/elasticsearch_monitor.py:21-26 | The monitor keeps the hosts, indices, patterns, interval and audit logger it is given. |
| LogMonitor.FollowAppend | src/monitors/elasticsearch_monitor.py:71-96 | Walking a path in two pieces equals walking it whole. |
| LogMonitor.FollowOne | src/monitors/elasticsearch_monitor.py:71-96 | A one-step path enters one key or position. |
| LogMonitor.FollowTwo | src/monitors/elasticsearch_monitor.py:71-96 | A two-step path enters twice. |
| LogMonitor.MustPath | src/monitors/elasticsearch_monitor.py:72-91 | `query.bool.must` holds the query-string clause, then the range clause. |
| LogMonitor.PatternPath | src/monitors/elasticsearch_monitor.py:74-80 | The query string searched is the pattern itself. |
| LogMonitor.RangeClausePaths | src/monitors/elasticsearch_monitor.py:81-87 | The range runs from the start time to `now`. |
| LogMonitor.RangePaths | src/monitors/elasticsearch_monitor.py:81-87 | Within the full query, the timestamp range runs from the start time to `now`. |
| LogMonitor.SortAndSizePaths | src/monitors/elasticsearch_monitor.py:92-95 | The query sorts by timestamp descending and asks for 100 hits. |
| LogMonitor.FilterMetadataMeaning | src/monitors/elasticsearch_monitor.py:138-141 | The metadata keeps exactly the source entries whose key is neither `@timestamp` nor `message`. |
| LogMonitor.HitMatchesCarry | src/monitors/elasticsearch_monitor.py:131-144 | When the comprehension succeeds, there is one record per hit, each with the index, pattern and severity searched. No record's metadata has an excluded key. |
| LogMonitor.MissingSourceDropsIndex | src/monitors/elasticsearch_monitor.py:131-146 | A hit without `_source` makes the whole comprehension fail, so the index contributes nothing. |
| LogMonitor.ResultsUpToCarry | src/monitors/elasticsearch_monitor.py:119-146 | Every result comes from a searched index and carries the rule's pattern and severity. A failed index search adds nothing. |
| LogMonitor.ElasticsearchMonitor.SearchIndex | src/monitors/elasticsearch_monitor.py:121-146 | One index's search equals its specified contribution, including every failure path. |
| LogMonitor.ElasticsearchMonitor.SearchIndices | src/monitors/elasticsearch_monitor.py:118-148 | The per-index loop equals the specification of all indices in order. |
| LogMonitor.ElasticsearchMonitor.SearchLogs | src/monitors/elasticsearch_monitor.py:113-157 | `search_logs` returns the specified results. It logs one error exactly when the indices cannot be iterated. |
| LogMonitor.GroupKeysMeaning | src/monitors/elasticsearch_monitor.py:164-169 | The group keys are distinct, every match's key is among them, and every group is non-empty. |
| LogMonitor.GroupOfAbsent | src/monitors/elasticsearch_monitor.py:164-169 | A key that no match has has no group. |
| LogMonitor.GroupOfKeys | src/monitors/elasticsearch_monitor.py:164-169 | A group holds only matches of its own key. |
| LogMonitor.SumSizesSnoc | src/monitors/elasticsearch_monitor.py:164-169 | One more match grows its own group's size by one. |
| LogMonitor.SumSizesAppendKey | src/monitors/elasticsearch_monitor.py:164-169 | Adding a key adds its group's size. |
| LogMonitor.GroupSizesSum | src/monitors/elasticsearch_monitor.py:164-169 | The group sizes add up to the number of matches: grouping loses and duplicates nothing. |
| LogMonitor.Group | src/monitors/elasticsearch_monitor.py:164-169 | The grouping loop's keys are the keys in first-seen order, and each group is the matches of that key in order. |
| LogMonitor.AppendSamplesMeaning | src/monitors/elasticsearch_monitor.py:177-182 | Appending the sample lines one at a time equals appending their whole text. |
| LogMonitor.ElasticsearchMonitor.BuildMessage | src/monitors/elasticsearch_monitor.py:177-182 | The message is the header with the count, followed by one line for each of the first five matches at most. |
| LogMonitor.DistinctIndices | src/monitors/elasticsearch_monitor.py:193 | `list(set(...))`: no repeats, and exactly the indices some match of the group came from. |
| LogMonitor.GroupAlertMeaning | src/monitors/elasticsearch_monitor.py:172-196 | The alert's title names the pattern and its severity is lower-cased. Its message holds the header and at most five samples. Its metadata holds the pattern and the match count. |
| LogMonitor.KeyAlerts | src/monitors/elasticsearch_monitor.py:172-196 | One alert per key, the i-th for the i-th key's group. |
| LogMonitor.AlertsCountMatches | src/monitors/elasticsearch_monitor.py:164-196 | One alert per group. The counts in the alerts add up to the number of matches. |
| LogMonitor.ElasticsearchMonitor.ProcessMatches | src/monitors/elasticsearch_monitor.py:159-196 | The alerts raised equal the specified per-group alerts, in group order. |
| LogMonitor.UniterableIndices | src/monitors/elasticsearch_monitor.py:113-157 | When the indices setting cannot be iterated, every pattern finds nothing and logs exactly one error. |
| LogMonitor.ElasticsearchMonitor.SearchPattern | src/monitors/elasticsearch_monitor.py:217-225 | One round of the pattern loop extends the gathered matches by that pattern's results, and the audit log by its error records. |
| LogMonitor.ElasticsearchMonitor.SearchAll | src/monitors/elasticsearch_monitor.py:214-225 | The pattern loop gathers all patterns' matches in order and logs all their errors. |
| LogMonitor.ElasticsearchMonitor.Check | src/monitors/elasticsearch_monitor.py:207-242 | The check raises the per-group alerts when there are matches and none otherwise. It appends the search errors, then the summary with `patterns_checked` and `matches_found`. |

## Left out

- **I/O is parameters.** Network and file I/O are oracle parameters or the in-memory audit sequence. The
  Slack client, the SMTP connection, the Prometheus HTTP request and the Elasticsearch client are replaced by
  their answers.
- **The clock is a parameter.** Each check takes one timestamp `now` (and for the log monitor the start time
  `timeFrom`). The source reads the clock separately at each record.
- **Logging is not modelled.** The `loguru` calls have no effect on results.
- **The audit directory.** `mkdir` (audit_logger.py line 25) is not modelled, nor its failure when the parent
  of the log directory is missing.
- Audit.AuditLogger.LogEvent: whether the file can be written is the `writable` flag, fixed when the logger is
  built. The source reopens the file at every write (audit_logger.py lines 51-56), so a file that becomes
  writable or unwritable later changes which records it keeps; the model does not follow such a change.
- MetricMonitor.SampleValue: `float(text)` is modelled for decimal literals (an optional sign, digits with an
  optional point, an optional exponent), whose value is kept exactly. Python's `nan`, `inf` and `infinity`
  spellings, surrounding whitespace, underscores between digits, the sign of a negative zero and the rounding
  to the nearest binary double are not modelled: such a text is a conversion error in the model.
- Numbers.FloatText: `str(x)` of a float is written in fixed-point notation with the shortest digits of the
  exact decimal. Python's exponent notation (for magnitudes of 1e16 and above or below 1e-4) and its digits
  of the rounded binary double are not modelled.
- MetricMonitor.SecondItem: `v[1]` is modelled for lists and strings. Indexing a dict sample by the integer 1 is
  treated as a failed lookup.
- **Channel markup is structural.** The e-mail HTML keeps its pieces in order without the source's
  indentation, inline styles and emoji. The Slack header keeps the title without the leading emoji.
- **`repr` is plain.** `repr` of strings in the Slack fallback's metadata uses plain single quotes, without
  Python's escaping rules.
- Text.Upper: `upper()` and `lower()` change only the ASCII letters. Python's versions also change other
  letters (`"é".upper() == "É"`) and can change the length (`"ß".upper() == "SS"`).
- SlackChannel.NewSlack: `webhook_url` and `default_channel` must be text and `mention_users` a mapping of
  lists of text, or construction fails with a message of the model's own. In the source a missing key fails
  the same way, but a value of the wrong type is kept and fails later, at use, or not at all.
- EmailChannel.NewEmail: `smtp_server` and `from_address` must be text and `recipients` a mapping of lists of
  text, or construction fails with a message of the model's own. In the source a value of the wrong type is
  kept: a bad server fails at the SMTP connection, a bad recipients value only at `send`. The port is kept as
  written, and whether the connection with it succeeds is the login outcome.
- **Environment reads without effect are left out.** These are the webhook URL, the `ALERT_EMAIL_FROM` and
  the Jira variables read only for logging (alert_manager.py lines 32-35, 46-49 and 60-65).
- **Jira is opaque.** The Jira notifier's code is not part of this model: its constructor outcome and its
  answers are oracles.
- **Unregistered channels are only warned about.** At construction, a channel that escalation names but
  nobody registered (alert_manager.py lines 86-88) only produces a warning; the model keeps the manager as
  built. A channel entry that is not a string is never registered, so dispatch skips it.
- Alerting.AlertManager.SendAlert: an escalation table that is a list or string naming none of the three
  severities passes `__init__`, but `send_alert`'s `.get` (alert_manager.py line 118) would then raise
  `AttributeError`. The model reads such a table as empty and returns no results. For a dict table,
  `Alerting.ConstructedReads` shows the model's reads are the source's.
- **Log monitor connection.** The constructor's connection test and index listing (elasticsearch_monitor.py
  lines 29-58) are not modelled: the model's constructor takes the settings as given. The same holds for the
  metric monitor's credential lookup (prometheus_monitor.py lines 28-30).
- **Outer handlers.** The outermost `except` of each monitor's `check` covers failures the model does not
  produce.
  - A metric entry without `name`, `threshold` or `severity` (prometheus_monitor.py lines 110-112) is not
    modelled, because metric entries are typed records. A threshold of the wrong type is modelled: it
    fails inside the per-metric handler (lines 143-149).
  - A pattern entry without `pattern` or `severity` (elasticsearch_monitor.py lines 218-219) is not modelled
    either, because pattern entries are typed records too.
  - A failing summary write is not modelled, because the audit log never raises.
- LogMonitor.ElasticsearchMonitor.Check: the start time is a parameter, so an interval that is not a number,
  on which `timedelta(seconds=...)` raises (elasticsearch_monitor.py line 213) and the outer handler takes
  over, is not modelled. Nor is an index that is a list or dict, which makes `set(...)` (line 193) raise into
  that handler.
- LogMonitor.DistinctIndices: `list(set(...))` has an unspecified order. The model lists the indices in
  first-seen order and the contract states only no-repeats and set equality.
- MetricMonitor.PrometheusMonitor.Check: Prometheus is an oracle from the query text to the reply, so two
  metric rules with the same name get the same answer within one check. The source sends two requests, which
  could be answered differently. The same holds for LogMonitor.ElasticsearchMonitor.Check, whose oracle is
  keyed by the index and the query body.
- **Alerts are returned, not sent.** The monitors return the alerts they raise instead of calling
  `AlertManager.send_alert`. Dispatch of each alert is modelled separately by `Alerting.AlertManager.SendAlert`.
- **Alert result logging.** The logging of each alert's results (elasticsearch_monitor.py lines 198-205) has
  no effect.
- SlackChannel.SendStatus: the error text of a `SlackApiError` is the exception's message as given by the
  oracle. The extra `The server responded with: ...` text that the client library appends is not
  reconstructed. The same holds for SlackChannel.UpdateOutcome, whose not-ok answer is raised as a
  `SlackApiError` built with the response (slack.py line 202).
- **Configuration input.** YAML parsing is the `ConfigFile` input (missing, unparsable or a parsed
  document). `main.py`, `check_env.py` and `test_logs.py` are not part of this model.

## Findings

| source | as written | input that shows it | evidently intended | confidence | as-written member | corrected member |
|---|---|---|---|---|---|---|
| src/alerting/channels/slack.py:194-199 | `chat_update` is called with `text=...` and also `**payload`, and the payload already has a `text` key. | Any call of `update_message`: Python raises `TypeError: got multiple values for keyword argument 'text'` before Slack is contacted. The `except SlackApiError` handler does not catch it. | The update carries the fallback text `title - message` once, together with the payload's attachments. | not executed | SlackChannel.UpdateMessageAsWrittenFails | SlackChannel.UpdateMessage |
