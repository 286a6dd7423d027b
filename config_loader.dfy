/**
 * Loading the configuration document: validation of its required structure, then substitution of
 * `${NAME}` references by the environment. Reading the file and parsing YAML are replaced by the
 * `ConfigFile` the parser produced; the process environment is the map `env`.
 */
module ConfigLoader {
  import opened Common
  import opened Values
  import Text

  datatype ConfigError =
    | NotFound(path: string)      // FileNotFoundError from load_config
    | InvalidYaml(message: string) // ValueError wrapping a YAML parse error
    | Invalid(message: string)    // ValueError raised by validate_config
    | Malformed(message: string)  // a KeyError, TypeError or AttributeError escaping validate_config

  /** What reading and parsing the configuration file gave. */
  datatype ConfigFile = Missing | Unparsable(reason: string) | Parsed(document: Value)

  const DefaultPath: string := "config/config.yaml"
  const RequiredSections: seq<string> := ["monitors", "alerting", "escalation", "audit"]
  const RequiredSeverities: seq<string> := ["critical", "high", "warning"]

  /** The first of `names` that `key in v` rejects, or the error the test raises. */
  function FirstMissing(v: Value, names: seq<string>): Result<Option<string>, string>
  {
    if names == [] then Ok(None)
    else match ContainsKey(v, names[0])
      case Err(e) => Err(e)
      case Ok(present) => if !present then Ok(Some(names[0])) else FirstMissing(v, names[1..])
  }

  /** `any(entry['enabled'] for entry in entries)`, stopping at the first truthy flag. */
  function AnyEnabled(entries: seq<Field>): Result<bool, string>
  {
    if entries == [] then Ok(false)
    else match Subscript(entries[0].value, "enabled")
      case Err(e) => Err(e)
      case Ok(flag) => if Truthy(flag) then Ok(true) else AnyEnabled(entries[1..])
  }

  /** The rejection for a section none of whose entries is enabled, if any. */
  function EnabledCheck(section: Value, complaint: string): Option<ConfigError>
  {
    match section
    case Dict(entries) =>
      (match AnyEnabled(entries)
       case Err(e) => Some(Malformed(e))
       case Ok(any) => if any then None else Some(Invalid(complaint)))
    case _ => Some(Malformed("'" + TypeName(section) + "' object has no attribute 'values'"))
  }

  /** The section `config[name]` once every required section is known to be present. */
  function Section(doc: Value, name: string): Result<Value, string>
  {
    Subscript(doc, name)
  }

  /** `validate_config`: the checks in their source order; the first that fails decides the error. */
  function ValidateConfig(doc: Value): Result<(), ConfigError>
  {
    match FirstMissing(doc, RequiredSections)
    case Err(e) => Err(Malformed(e))
    case Ok(Some(s)) => Err(Invalid("Missing required configuration section: " + s))
    case Ok(None) => CheckMonitors(doc)
  }

  function CheckMonitors(doc: Value): Result<(), ConfigError>
  {
    match Section(doc, "monitors")
    case Err(e) => Err(Malformed(e))
    case Ok(monitors) =>
      match EnabledCheck(monitors, "At least one monitor must be enabled")
      case Some(e) => Err(e)
      case None => CheckAlerting(doc)
  }

  function CheckAlerting(doc: Value): Result<(), ConfigError>
  {
    match Section(doc, "alerting")
    case Err(e) => Err(Malformed(e))
    case Ok(alerting) =>
      match EnabledCheck(alerting, "At least one alerting channel must be enabled")
      case Some(e) => Err(e)
      case None => CheckEscalation(doc)
  }

  function CheckEscalation(doc: Value): Result<(), ConfigError>
  {
    match Section(doc, "escalation")
    case Err(e) => Err(Malformed(e))
    case Ok(escalation) =>
      match FirstMissing(escalation, RequiredSeverities)
      case Err(e) => Err(Malformed(e))
      case Ok(Some(sev)) => Err(Invalid("Missing escalation rules for severity: " + sev))
      case Ok(None) => Ok(())
  }

  /** An entry whose `enabled` flag is present and truthy. */
  predicate SwitchedOn(v: Value)
  {
    Subscript(v, "enabled").Ok? && Truthy(Subscript(v, "enabled").value)
  }

  /** An entry whose `enabled` flag is present and falsy. */
  predicate SwitchedOff(v: Value)
  {
    Subscript(v, "enabled").Ok? && !Truthy(Subscript(v, "enabled").value)
  }

  /** Some entry is switched on, and every entry before it is a well-formed switched-off one. */
  predicate SomeEnabled(entries: seq<Field>)
  {
    exists i :: 0 <= i < |entries| && SwitchedOn(entries[i].value) &&
      forall j :: 0 <= j < i ==> SwitchedOff(entries[j].value)
  }

  /** Some entry is on exactly when the first one is, or the first is off and some later one is on. */
  lemma SomeEnabledCons(entries: seq<Field>)
    requires entries != []
    ensures SomeEnabled(entries) <==>
      SwitchedOn(entries[0].value) || (SwitchedOff(entries[0].value) && SomeEnabled(entries[1..]))
  {
    var rest := entries[1..];
    if SomeEnabled(entries) && !SwitchedOn(entries[0].value) {
      var i :| 0 <= i < |entries| && SwitchedOn(entries[i].value) &&
        forall j :: 0 <= j < i ==> SwitchedOff(entries[j].value);
      assert i > 0 && rest[i - 1] == entries[i];
      assert forall j :: 0 <= j < i - 1 ==> rest[j] == entries[j + 1];
    }
    if SomeEnabled(rest) && SwitchedOff(entries[0].value) {
      var i :| 0 <= i < |rest| && SwitchedOn(rest[i].value) &&
        forall j :: 0 <= j < i ==> SwitchedOff(rest[j].value);
      assert entries[i + 1] == rest[i];
      assert forall j :: 1 <= j < i + 1 ==> entries[j] == rest[j - 1];
    }
    if SwitchedOn(entries[0].value) {
      assert SomeEnabled(entries);
    }
  }

  /** `AnyEnabled` gives `True` exactly when some entry is on, read left to right. */
  lemma {:induction false} AnyEnabledTrue(entries: seq<Field>)
    ensures AnyEnabled(entries) == Ok(true) <==> SomeEnabled(entries)
  {
    if entries != [] {
      AnyEnabledTrue(entries[1..]);
      SomeEnabledCons(entries);
    }
  }

  /** `AnyEnabled` gives `False` exactly when every entry is switched off. */
  lemma {:induction false} AnyEnabledFalse(entries: seq<Field>)
    ensures AnyEnabled(entries) == Ok(false) <==> forall j :: 0 <= j < |entries| ==> SwitchedOff(entries[j].value)
  {
    if entries != [] {
      AnyEnabledFalse(entries[1..]);
      var rest := entries[1..];
      if forall j :: 0 <= j < |entries| ==> SwitchedOff(entries[j].value) {
        assert forall j :: 0 <= j < |rest| ==> rest[j] == entries[j + 1];
      }
      if SwitchedOff(entries[0].value) && forall j :: 0 <= j < |rest| ==> SwitchedOff(rest[j].value) {
        assert forall j :: 1 <= j < |entries| ==> entries[j] == rest[j - 1];
      }
    }
  }

  /** `AnyEnabled` is "some entry is on" read left to right, and "every entry is off" for `False`. */
  lemma AnyEnabledMeaning(entries: seq<Field>)
    ensures AnyEnabled(entries) == Ok(true) <==> SomeEnabled(entries)
    ensures AnyEnabled(entries) == Ok(false) <==> forall j :: 0 <= j < |entries| ==> SwitchedOff(entries[j].value)
  {
    AnyEnabledTrue(entries);
    AnyEnabledFalse(entries);
  }

  /** A document that passes every check of `validate_config`, stated without the check order. */
  predicate Acceptable(doc: Value)
  {
    && doc.Dict?
    && Lookup(doc.fields, "monitors").Some? && Lookup(doc.fields, "alerting").Some?
    && Lookup(doc.fields, "escalation").Some? && Lookup(doc.fields, "audit").Some?
    && Lookup(doc.fields, "monitors").value.Dict?
    && SomeEnabled(Lookup(doc.fields, "monitors").value.fields)
    && Lookup(doc.fields, "alerting").value.Dict?
    && SomeEnabled(Lookup(doc.fields, "alerting").value.fields)
    && EscalationComplete(Lookup(doc.fields, "escalation").value)
  }

  /** Every severity has escalation rules, by the source's `in` test. */
  predicate EscalationComplete(escalation: Value)
  {
    ContainsKey(escalation, "critical") == Ok(true) && ContainsKey(escalation, "high") == Ok(true) &&
    ContainsKey(escalation, "warning") == Ok(true)
  }

  lemma {:induction false} FirstMissingNone(v: Value, names: seq<string>)
    ensures FirstMissing(v, names) == Ok(None) <==> forall n :: n in names ==> ContainsKey(v, n) == Ok(true)
  {
    if names != [] {
      FirstMissingNone(v, names[1..]);
      assert forall n :: n in names <==> n == names[0] || n in names[1..];
    }
  }

  lemma SectionsPresent(doc: Value)
    ensures FirstMissing(doc, RequiredSections) == Ok(None) <==>
      ContainsKey(doc, "monitors") == Ok(true) && ContainsKey(doc, "alerting") == Ok(true) &&
      ContainsKey(doc, "escalation") == Ok(true) && ContainsKey(doc, "audit") == Ok(true)
  {
    FirstMissingNone(doc, RequiredSections);
    assert "monitors" in RequiredSections && "alerting" in RequiredSections;
    assert "escalation" in RequiredSections && "audit" in RequiredSections;
  }

  lemma SeveritiesPresent(escalation: Value)
    ensures FirstMissing(escalation, RequiredSeverities) == Ok(None) <==> EscalationComplete(escalation)
  {
    FirstMissingNone(escalation, RequiredSeverities);
    assert "critical" in RequiredSeverities && "high" in RequiredSeverities && "warning" in RequiredSeverities;
  }

  lemma EnabledCheckPasses(section: Value, complaint: string)
    ensures EnabledCheck(section, complaint).None? <==> section.Dict? && SomeEnabled(section.fields)
  {
    if section.Dict? {
      AnyEnabledMeaning(section.fields);
    }
  }

  lemma CheckEscalationPasses(doc: Value)
    requires doc.Dict?
    ensures CheckEscalation(doc) == Ok(()) <==>
      Lookup(doc.fields, "escalation").Some? && EscalationComplete(Lookup(doc.fields, "escalation").value)
  {
    if Lookup(doc.fields, "escalation").Some? {
      SeveritiesPresent(Lookup(doc.fields, "escalation").value);
    }
  }

  lemma CheckAlertingPasses(doc: Value)
    requires doc.Dict?
    ensures CheckAlerting(doc) == Ok(()) <==>
      Lookup(doc.fields, "alerting").Some? && Lookup(doc.fields, "alerting").value.Dict? &&
      SomeEnabled(Lookup(doc.fields, "alerting").value.fields) && CheckEscalation(doc) == Ok(())
  {
    if Lookup(doc.fields, "alerting").Some? {
      EnabledCheckPasses(Lookup(doc.fields, "alerting").value, "At least one alerting channel must be enabled");
    }
  }

  lemma CheckMonitorsPasses(doc: Value)
    requires doc.Dict?
    ensures CheckMonitors(doc) == Ok(()) <==>
      Lookup(doc.fields, "monitors").Some? && Lookup(doc.fields, "monitors").value.Dict? &&
      SomeEnabled(Lookup(doc.fields, "monitors").value.fields) && CheckAlerting(doc) == Ok(())
  {
    if Lookup(doc.fields, "monitors").Some? {
      EnabledCheckPasses(Lookup(doc.fields, "monitors").value, "At least one monitor must be enabled");
    }
  }

  /** `validate_config` accepts exactly the acceptable documents. */
  lemma ValidateAcceptsIff(doc: Value)
    ensures ValidateConfig(doc) == Ok(()) <==> Acceptable(doc)
  {
    SectionsPresent(doc);
    if !doc.Dict? {
      assert Section(doc, "monitors").Err?;
      assert CheckMonitors(doc) != Ok(());
    } else {
      CheckMonitorsPasses(doc);
      CheckAlertingPasses(doc);
      CheckEscalationPasses(doc);
    }
  }

  /** A missing required section is reported, naming the first one missing, before any other check runs. */
  lemma {:induction false} MissingSectionFirst(doc: Value, k: nat)
    requires doc.Dict? && k < |RequiredSections|
    requires Lookup(doc.fields, RequiredSections[k]).None?
    requires forall j :: 0 <= j < k ==> Lookup(doc.fields, RequiredSections[j]).Some?
    ensures ValidateConfig(doc) == Err(Invalid("Missing required configuration section: " + RequiredSections[k]))
  {
    var names := RequiredSections;
    assert FirstMissing(doc, names[k..]) == Ok(Some(names[k]));
    var j := k;
    while j > 0
      invariant 0 <= j <= k
      invariant FirstMissing(doc, names[j..]) == Ok(Some(names[k]))
    {
      j := j - 1;
      assert names[j..][1..] == names[j + 1..];
    }
  }

  /** With every section present, a monitors section whose entries are all switched off is rejected. */
  lemma NoMonitorEnabled(doc: Value)
    requires doc.Dict? && Lookup(doc.fields, "monitors").Some? && Lookup(doc.fields, "alerting").Some?
    requires Lookup(doc.fields, "escalation").Some? && Lookup(doc.fields, "audit").Some?
    requires Lookup(doc.fields, "monitors").value.Dict?
    requires var ms := Lookup(doc.fields, "monitors").value.fields;
      forall j :: 0 <= j < |ms| ==> SwitchedOff(ms[j].value)
    ensures ValidateConfig(doc) == Err(Invalid("At least one monitor must be enabled"))
  {
    SectionsPresent(doc);
    EnabledCheckPasses(Lookup(doc.fields, "monitors").value, "At least one monitor must be enabled");
    AnyEnabledMeaning(Lookup(doc.fields, "monitors").value.fields);
  }

  /** With monitors enabled, an alerting section whose channels are all switched off is rejected. */
  lemma NoChannelEnabled(doc: Value)
    requires doc.Dict? && Lookup(doc.fields, "monitors").Some? && Lookup(doc.fields, "alerting").Some?
    requires Lookup(doc.fields, "escalation").Some? && Lookup(doc.fields, "audit").Some?
    requires Lookup(doc.fields, "monitors").value.Dict?
    requires SomeEnabled(Lookup(doc.fields, "monitors").value.fields)
    requires Lookup(doc.fields, "alerting").value.Dict?
    requires var cs := Lookup(doc.fields, "alerting").value.fields;
      forall j :: 0 <= j < |cs| ==> SwitchedOff(cs[j].value)
    ensures ValidateConfig(doc) == Err(Invalid("At least one alerting channel must be enabled"))
  {
    SectionsPresent(doc);
    AnyEnabledMeaning(Lookup(doc.fields, "monitors").value.fields);
    AnyEnabledMeaning(Lookup(doc.fields, "alerting").value.fields);
  }

  // ---------------------------------------------------------------------------------------------
  // Environment references

  /** A string of the form `${NAME}`: it starts with `${` and ends with `}`. */
  predicate IsReference(s: string)
  {
    |s| >= 2 && s[..2] == "${" && s[|s| - 1] == '}'
  }

  /** The `NAME` of `${NAME}` (`value[2:-1]`). */
  function ReferenceName(s: string): string
    requires IsReference(s)
  {
    assert s[1] == '{';
    s[2..|s| - 1]
  }

  /** `os.getenv(name)`: the variable's text, or `None` when it is unset. */
  function Resolve(name: string, env: map<string, string>): Value
  {
    if name in env then Str(env[name]) else Null
  }

  /** `expand_env_vars(v)` on a dict or list: every entry is expanded; any other value is untouched. */
  function ExpandTree(v: Value, env: map<string, string>): Value
    decreases v, 0
  {
    match v
    case Dict(fields) =>
      Dict(seq(|fields|, i requires 0 <= i < |fields| => Field(fields[i].key, ExpandEntry(fields[i].value, env))))
    case List(items) =>
      List(seq(|items|, i requires 0 <= i < |items| => ExpandEntry(items[i], env)))
    case _ => v
  }

  /** One dict value or list element: containers recurse, references are resolved, the rest stays. */
  function ExpandEntry(v: Value, env: map<string, string>): Value
    decreases v, 1
  {
    if v.Dict? || v.List? then ExpandTree(v, env)
    else if v.Str? && IsReference(v.s) then Resolve(ReferenceName(v.s), env)
    else v
  }

  /** The skeleton of a tree: the keys and lengths of every nested container, with every leaf erased. */
  function Shape(v: Value): Value
  {
    match v
    case Dict(fields) => Dict(seq(|fields|, i requires 0 <= i < |fields| => Field(fields[i].key, Shape(fields[i].value))))
    case List(items) => List(seq(|items|, i requires 0 <= i < |items| => Shape(items[i])))
    case _ => Null
  }

  /** No entry below the top of the tree is a reference. */
  predicate ReferenceFree(v: Value)
    decreases v, 0
  {
    match v
    case Dict(fields) => forall i :: 0 <= i < |fields| ==> EntryReferenceFree(fields[i].value)
    case List(items) => forall i :: 0 <= i < |items| ==> EntryReferenceFree(items[i])
    case _ => true
  }

  predicate EntryReferenceFree(v: Value)
    decreases v, 1
  {
    if v.Dict? || v.List? then ReferenceFree(v) else !(v.Str? && IsReference(v.s))
  }

  /** Expansion keeps every key, every list length and the nesting; only leaves change. */
  lemma {:induction false} ExpandKeepsShape(v: Value, env: map<string, string>)
    ensures Shape(ExpandTree(v, env)) == Shape(v)
    decreases v, 0
  {
    match v
    case Dict(fields) =>
      var r := ExpandTree(v, env).fields;
      forall i | 0 <= i < |fields|
        ensures Shape(r[i].value) == Shape(fields[i].value)
      {
        ExpandEntryKeepsShape(fields[i].value, env);
      }
      assert Shape(ExpandTree(v, env)).fields == Shape(v).fields;
    case List(items) =>
      var r := ExpandTree(v, env).items;
      forall i | 0 <= i < |items|
        ensures Shape(r[i]) == Shape(items[i])
      {
        ExpandEntryKeepsShape(items[i], env);
      }
      assert Shape(ExpandTree(v, env)).items == Shape(v).items;
    case _ =>
  }

  lemma {:induction false} ExpandEntryKeepsShape(v: Value, env: map<string, string>)
    ensures Shape(ExpandEntry(v, env)) == Shape(v)
    decreases v, 1
  {
    if v.Dict? || v.List? {
      ExpandKeepsShape(v, env);
    }
  }

  /** A tree without references is left exactly as it is. */
  lemma {:induction false} ExpandWithoutReferences(v: Value, env: map<string, string>)
    requires ReferenceFree(v)
    ensures ExpandTree(v, env) == v
    decreases v, 0
  {
    match v
    case Dict(fields) =>
      forall i | 0 <= i < |fields|
        ensures ExpandEntry(fields[i].value, env) == fields[i].value
      {
        ExpandEntryWithoutReferences(fields[i].value, env);
      }
      assert ExpandTree(v, env).fields == fields;
    case List(items) =>
      forall i | 0 <= i < |items|
        ensures ExpandEntry(items[i], env) == items[i]
      {
        ExpandEntryWithoutReferences(items[i], env);
      }
      assert ExpandTree(v, env).items == items;
    case _ =>
  }

  lemma {:induction false} ExpandEntryWithoutReferences(v: Value, env: map<string, string>)
    requires EntryReferenceFree(v)
    ensures ExpandEntry(v, env) == v
    decreases v, 1
  {
    if v.Dict? || v.List? {
      ExpandWithoutReferences(v, env);
    }
  }

  /** When no variable's value is itself a reference, expansion leaves no reference behind. */
  lemma {:induction false} ExpandResolvesEverything(v: Value, env: map<string, string>)
    requires forall name :: name in env ==> !IsReference(env[name])
    ensures ReferenceFree(ExpandTree(v, env))
    decreases v, 0
  {
    match v
    case Dict(fields) =>
      forall i | 0 <= i < |fields|
        ensures EntryReferenceFree(ExpandEntry(fields[i].value, env))
      {
        ExpandEntryResolves(fields[i].value, env);
      }
    case List(items) =>
      forall i | 0 <= i < |items|
        ensures EntryReferenceFree(ExpandEntry(items[i], env))
      {
        ExpandEntryResolves(items[i], env);
      }
    case _ =>
  }

  lemma {:induction false} ExpandEntryResolves(v: Value, env: map<string, string>)
    requires forall name :: name in env ==> !IsReference(env[name])
    ensures EntryReferenceFree(ExpandEntry(v, env))
    decreases v, 1
  {
    if v.Dict? || v.List? {
      ExpandResolvesEverything(v, env);
    }
  }

  /** Under the same condition expanding a second time changes nothing. */
  lemma ExpandIdempotent(v: Value, env: map<string, string>)
    requires forall name :: name in env ==> !IsReference(env[name])
    ensures ExpandTree(ExpandTree(v, env), env) == ExpandTree(v, env)
  {
    ExpandResolvesEverything(v, env);
    ExpandWithoutReferences(ExpandTree(v, env), env);
  }

  /** A key looked up in an expanded dict finds the expansion of what it found before. */
  lemma {:induction false} LookupExpanded(fields: seq<Field>, key: string, env: map<string, string>)
    ensures Lookup(ExpandTree(Dict(fields), env).fields, key) ==
      match Lookup(fields, key)
      case None => None
      case Some(x) => Some(ExpandEntry(x, env))
  {
    if fields != [] {
      assert ExpandTree(Dict(fields), env).fields[1..] == ExpandTree(Dict(fields[1..]), env).fields;
      LookupExpanded(fields[1..], key, env);
    }
  }

  /** One step into an expanded value reaches the expansion of what the step reached before. */
  lemma EnterExpanded(v: Value, step: Step, env: map<string, string>)
    ensures Enter(ExpandTree(v, env), step) ==
      match Enter(v, step)
      case None => None
      case Some(x) => Some(ExpandEntry(x, env))
  {
    if step.Key? && v.Dict? {
      LookupExpanded(v.fields, step.key, env);
    }
  }

  /**
   * Following a path into the expanded tree reaches exactly the expansion of what the path reached in
   * the original tree, and no path exists after expansion that did not exist before.
   */
  lemma {:induction false} FollowExpanded(v: Value, path: seq<Step>, env: map<string, string>)
    requires path != []
    ensures Follow(ExpandTree(v, env), path) ==
      match Follow(v, path)
      case None => None
      case Some(x) => Some(ExpandEntry(x, env))
    decreases |path|
  {
    EnterExpanded(v, path[0], env);
    match Enter(v, path[0])
    case None =>
    case Some(w) =>
      if |path| > 1 && (w.Dict? || w.List?) {
        FollowExpanded(w, path[1..], env);
      }
  }

  /**
   * What expansion does below the top of the tree: a `${NAME}` dict value or list element becomes the
   * variable's text, or `None` when it is unset, and every other leaf stays as it was.
   */
  lemma ExpandSubstitutes(v: Value, path: seq<Step>, env: map<string, string>)
    requires path != [] && Follow(v, path).Some?
    requires !Follow(v, path).value.Dict? && !Follow(v, path).value.List?
    ensures var x := Follow(v, path).value;
      Follow(ExpandTree(v, env), path) == Some(if x.Str? && IsReference(x.s) then Resolve(ReferenceName(x.s), env) else x)
  {
    FollowExpanded(v, path, env);
  }

  /** `load_config`: locate and parse the file, validate the parsed document, then expand it. */
  function LoadConfig(file: ConfigFile, path: string, env: map<string, string>): Result<Value, ConfigError>
  {
    match file
    case Missing => Err(NotFound("Configuration file not found: " + path))
    case Unparsable(reason) => Err(InvalidYaml("Invalid YAML configuration: " + reason))
    case Parsed(doc) =>
      match ValidateConfig(doc)
      case Err(e) => Err(e)
      case Ok(_) => Ok(ExpandTree(doc, env))
  }

  /**
   * Validation judges the document as written, before any reference is expanded: loading succeeds
   * exactly when the unexpanded document is acceptable, and then yields its expansion.
   */
  lemma LoadValidatesBeforeExpanding(doc: Value, path: string, env: map<string, string>)
    ensures LoadConfig(Parsed(doc), path, env).Ok? <==> Acceptable(doc)
    ensures LoadConfig(Parsed(doc), path, env).Ok? ==> LoadConfig(Parsed(doc), path, env).value == ExpandTree(doc, env)
    ensures !Acceptable(doc) ==> LoadConfig(Parsed(doc), path, env) == Err(ValidateConfig(doc).error)
  {
    ValidateAcceptsIff(doc);
  }
}
