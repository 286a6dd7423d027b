/**
 * The audit trail: an append-only sequence of structured records. The physical file and its JSON
 * encoding are replaced by the in-memory sequence `records`; `writable` stands for whether the log
 * file accepts appends, which this model fixes when the logger is built.
 */
module Audit {
  import opened Common
  import opened Values

  datatype Event = Event(timestamp: string, eventType: string, severity: string, details: Value)

  const DefaultLogFile: string := "logs/audit.log"
  const DefaultRetentionDays: int := 90

  /** The details of a `monitor_check` record. */
  function MonitorCheckDetails(monitor: string, metrics: Value, issuesFound: bool): Value
  {
    Dict([Field("monitor", Str(monitor)), Field("metrics", metrics), Field("issues_found", Bool(issuesFound))])
  }

  /** A `monitor_check` record names the monitor, carries its metrics and says whether issues were found. */
  lemma MonitorCheckDetailsFields(monitor: string, metrics: Value, issuesFound: bool)
    ensures var d := MonitorCheckDetails(monitor, metrics, issuesFound);
      Get(d, "monitor") == Some(Str(monitor)) && Get(d, "metrics") == Some(metrics) &&
      Get(d, "issues_found") == Some(Bool(issuesFound))
  {
    var fs := MonitorCheckDetails(monitor, metrics, issuesFound).fields;
    assert fs[1..][1..] == [fs[2]];
    assert "issues_found" != "monitor" && "issues_found" != "metrics" && "metrics" != "monitor";
    assert Lookup(fs[1..][1..], "issues_found") == Some(Bool(issuesFound));
    assert Lookup(fs[1..], "issues_found") == Lookup(fs[1..][1..], "issues_found");
    assert Lookup(fs, "issues_found") == Lookup(fs[1..], "issues_found");
    assert Lookup(fs[1..], "metrics") == Some(metrics);
  }

  /** The details of an `alert_sent` record. */
  function AlertSentDetails(alertType: string, channel: string, recipient: string, message: string): Value
  {
    Dict([Field("alert_type", Str(alertType)), Field("channel", Str(channel)),
          Field("recipient", Str(recipient)), Field("message", Str(message))])
  }

  /** The details of an `error` record. */
  function ErrorDetails(component: string, errorMessage: string, details: Value): Value
  {
    Dict([Field("component", Str(component)), Field("error_message", Str(errorMessage)), Field("details", details)])
  }

  /** The details of a `system_event` record. */
  function SystemEventDetails(eventName: string, details: Value): Value
  {
    Dict([Field("event_name", Str(eventName)), Field("details", details)])
  }

  function MonitorCheckEvent(now: string, monitor: string, metrics: Value, issuesFound: bool): Event
  {
    Event(now, "monitor_check", "info", MonitorCheckDetails(monitor, metrics, issuesFound))
  }

  function ErrorEvent(now: string, component: string, errorMessage: string, details: Value): Event
  {
    Event(now, "error", "error", ErrorDetails(component, errorMessage, details))
  }

  /**
   * What `AuditLogger(config)` raises, if anything: `config.get` fails on anything but a dict, and
   * `Path(...)` refuses a `log_file` that is not text.
   */
  function InitError(config: Value): (r: Option<string>)
    ensures r.None? <==> config.Dict? && (Get(config, "log_file").Some? ==> Get(config, "log_file").value.Str?)
    ensures !config.Dict? ==> r == Some("'" + TypeName(config) + NoGet)
  {
    if !config.Dict? then Some("'" + TypeName(config) + NoGet)
    else match Get(config, "log_file")
      case Some(f) => if f.Str? then None else Some(PathTypeError + TypeName(f))
      case None => None
  }

  const PathTypeError: string := "expected str, bytes or os.PathLike object, not "

  class AuditLogger {
    const enabled: bool
    const logFile: string
    const retentionDays: Value
    /** Whether the log file accepts appends; a failed append is swallowed by the logger. */
    var writable: bool
    /** The records the log file holds, oldest first. */
    var records: seq<Event>

    /** Whether a call to `LogEvent` now adds its record. */
    predicate Accepts()
      reads this`writable
    {
      enabled && writable
    }

    /** The records a sequence of `LogEvent` calls adds, given the current state. */
    function Admit(events: seq<Event>): seq<Event>
      reads this`writable
    {
      if Accepts() then events else []
    }

    /** Admitting two runs of records is admitting their concatenation. */
    lemma AdmitConcat(a: seq<Event>, b: seq<Event>)
      ensures Admit(a + b) == Admit(a) + Admit(b)
    {
    }

    /** The logger of a configuration that `AuditLogger(config)` accepts. */
    constructor (config: Value, writable: bool)
      requires InitError(config).None?
      ensures enabled == Truthy(GetOr(config, "enabled", Bool(true)))
      ensures logFile == GetOr(config, "log_file", Str(DefaultLogFile)).s
      ensures retentionDays == GetOr(config, "retention_days", Int(DefaultRetentionDays))
      ensures this.writable == writable && records == []
    {
      enabled := Truthy(GetOr(config, "enabled", Bool(true)));
      logFile := GetOr(config, "log_file", Str(DefaultLogFile)).s;
      retentionDays := GetOr(config, "retention_days", Int(DefaultRetentionDays));
      this.writable := writable;
      records := [];
    }

    /** `AuditLogger(config)`: a new, empty logger with the configured settings, or the text of what the constructor raised. */
    static method Create(config: Value, writable: bool) returns (r: Result<AuditLogger, string>)
      ensures r.Err? <==> InitError(config).Some?
      ensures r.Err? ==> r.error == InitError(config).value
      ensures r.Ok? ==> fresh(r.value) && r.value.records == [] && r.value.writable == writable
      ensures r.Ok? ==> r.value.enabled == Truthy(GetOr(config, "enabled", Bool(true)))
      ensures r.Ok? ==> r.value.logFile == GetOr(config, "log_file", Str(DefaultLogFile)).s
      ensures r.Ok? ==> r.value.retentionDays == GetOr(config, "retention_days", Int(DefaultRetentionDays))
    {
      var failure := InitError(config);
      if failure.Some? {
        return Err(failure.value);
      }
      var logger := new AuditLogger(config, writable);
      return Ok(logger);
    }

    /**
     * Appends one record when enabled and the file is writable; otherwise nothing changes. Never
     * fails: a write failure is swallowed. Earlier records are never touched.
     */
    method LogEvent(eventType: string, details: Value, severity: string, now: string)
      modifies this`records
      ensures Accepts() ==> records == old(records) + [Event(now, eventType, severity, details)]
      ensures !Accepts() ==> records == old(records)
      ensures records[..|old(records)|] == old(records)
    {
      if !enabled {
        return;
      }
      var event := Event(now, eventType, severity, details);
      if writable {
        records := records + [event];
      }
    }

    method LogMonitorCheck(monitor: string, metrics: Value, issuesFound: bool, now: string)
      modifies this`records
      ensures records == old(records) + Admit([MonitorCheckEvent(now, monitor, metrics, issuesFound)])
    {
      LogEvent("monitor_check", MonitorCheckDetails(monitor, metrics, issuesFound), "info", now);
    }

    method LogAlertSent(alertType: string, channel: string, recipient: string, message: string, now: string)
      modifies this`records
      ensures records == old(records) +
        Admit([Event(now, "alert_sent", "warning", AlertSentDetails(alertType, channel, recipient, message))])
    {
      LogEvent("alert_sent", AlertSentDetails(alertType, channel, recipient, message), "warning", now);
    }

    method LogError(component: string, errorMessage: string, details: Value, now: string)
      modifies this`records
      ensures records == old(records) + Admit([ErrorEvent(now, component, errorMessage, details)])
    {
      LogEvent("error", ErrorDetails(component, errorMessage, details), "error", now);
    }

    method LogSystemEvent(eventName: string, details: Value, now: string)
      modifies this`records
      ensures records == old(records) +
        Admit([Event(now, "system_event", "info", SystemEventDetails(eventName, details))])
    {
      LogEvent("system_event", SystemEventDetails(eventName, details), "info", now);
    }
  }
}
