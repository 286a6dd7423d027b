/**
 * The dynamic values the system passes around: parsed configuration documents, alert metadata,
 * audit details and provider replies are all Python dicts and lists. A `Dict` keeps its entries in
 * insertion order, as Python's dict does.
 */
module Values {
  import opened Common
  import Text
  import Numbers

  datatype Value =
    | Null
    | Bool(b: bool)
    | Int(i: int)
    | Float(f: Numbers.Decimal)
    | Str(s: string)
    | List(items: seq<Value>)
    | Dict(fields: seq<Field>)

  datatype Field = Field(key: string, value: Value)

  /** What a call into a collaborator did: it returned a value or it raised an exception with this text. */
  datatype Outcome = Returned(result: Value) | Raised(message: string)

  /** The keys of an entry list, in order. */
  function Keys(fields: seq<Field>): (ks: seq<string>)
    ensures |ks| == |fields|
    ensures forall i :: 0 <= i < |fields| ==> ks[i] == fields[i].key
  {
    if fields == [] then [] else [fields[0].key] + Keys(fields[1..])
  }

  /** `d[key]` / `key in d`: the value under the first entry with this key. */
  function Lookup(fields: seq<Field>, key: string): Option<Value>
  {
    if fields == [] then None
    else if fields[0].key == key then Some(fields[0].value)
    else Lookup(fields[1..], key)
  }

  /** A lookup finds a key exactly when the key is present, and then gives the value of its first entry. */
  lemma {:induction false} LookupMeaning(fields: seq<Field>, key: string)
    ensures Lookup(fields, key).Some? <==> key in Keys(fields)
    ensures Lookup(fields, key).Some? ==>
      exists i :: 0 <= i < |fields| && fields[i] == Field(key, Lookup(fields, key).value) &&
        (forall j :: 0 <= j < i ==> fields[j].key != key)
  {
    if fields != [] && fields[0].key != key {
      LookupMeaning(fields[1..], key);
      assert Keys(fields) == [fields[0].key] + Keys(fields[1..]);
      if Lookup(fields, key).Some? {
        var i :| 0 <= i < |fields| - 1 && fields[1..][i] == Field(key, Lookup(fields, key).value) &&
          forall j :: 0 <= j < i ==> fields[1..][j].key != key;
        assert fields[i + 1] == Field(key, Lookup(fields, key).value);
      }
    } else if fields != [] {
      assert fields[0] == Field(key, Lookup(fields, key).value);
    }
  }

  /** `v.get(key, default)`; a value that is not a dict is read as an empty one. */
  function GetOr(v: Value, key: string, default: Value): Value
  {
    match v
    case Dict(fields) => Lookup(fields, key).GetOr(default)
    case _ => default
  }

  /** `v.get(key)` without a default. */
  function Get(v: Value, key: string): Option<Value>
  {
    match v
    case Dict(fields) => Lookup(fields, key)
    case _ => None
  }

  /** The texts of the exceptions Python raises on misuse of a value, after the quoted type name. */
  const NoGet: string := "' object has no attribute 'get'"
  const NotIterable: string := "' object is not iterable"
  const NotSubscriptable: string := "' object is not subscriptable"
  const ListIndexError: string := "list indices must be integers or slices, not str"
  const StrIndexError: string := "string indices must be integers, not 'str'"

  /** `v.get(key, default)` as a method call: only a dict has `get`. */
  function DictGet(v: Value, key: string, default: Value): (r: Result<Value, string>)
    ensures r.Ok? <==> v.Dict?
    ensures r.Ok? ==> r.value == GetOr(v, key, default)
  {
    if v.Dict? then Ok(Lookup(v.fields, key).GetOr(default))
    else Err("'" + TypeName(v) + NoGet)
  }

  /** The items `for x in v` visits: list elements, dict keys, or a string's characters. */
  function Iterate(v: Value): (r: Result<seq<Value>, string>)
    ensures r.Ok? <==> v.List? || v.Dict? || v.Str?
    ensures v.List? ==> r == Ok(v.items)
  {
    match v
    case List(items) => Ok(items)
    case Dict(fields) => Ok(seq(|fields|, i requires 0 <= i < |fields| => Str(fields[i].key)))
    case Str(s) => Ok(seq(|s|, i requires 0 <= i < |s| => Str([s[i]])))
    case _ => Err("'" + TypeName(v) + NotIterable)
  }

  /** `v[key]` with a string key; the error is the text of the KeyError or TypeError raised. */
  function Subscript(v: Value, key: string): Result<Value, string>
  {
    match v
    case Dict(fields) =>
      (match Lookup(fields, key)
       case Some(x) => Ok(x)
       case None => Err("'" + key + "'"))
    case List(_) => Err(ListIndexError)
    case Str(_) => Err(StrIndexError)
    case _ => Err("'" + TypeName(v) + NotSubscriptable)
  }

  /** Python truthiness: `None`, `False`, `0`, the empty string and empty containers are false. */
  predicate Truthy(v: Value)
  {
    match v
    case Null => false
    case Bool(b) => b
    case Int(i) => i != 0
    case Float(f) => f.units != 0
    case Str(s) => s != ""
    case List(items) => items != []
    case Dict(fields) => fields != []
  }

  /** Python's name of the value's type, as it appears in AttributeError messages. */
  function TypeName(v: Value): string
  {
    match v
    case Null => "NoneType"
    case Bool(_) => "bool"
    case Int(_) => "int"
    case Float(_) => "float"
    case Str(_) => "str"
    case List(_) => "list"
    case Dict(_) => "dict"
  }

  /** Python's `str(v)`: text is itself, everything else is its `repr`. */
  function Show(v: Value): string
  {
    if v.Str? then v.s else Repr(v)
  }

  /** Python's `repr(v)`; string quoting does not escape quote characters inside the string. */
  function Repr(v: Value): string
    decreases v, Width(v) + 1
  {
    match v
    case Null => "None"
    case Bool(b) => if b then "True" else "False"
    case Int(i) => Text.IntToString(i)
    case Float(f) => Numbers.FloatText(f)
    case Str(s) => "'" + s + "'"
    case List(items) => "[" + ReprItems(v, 0) + "]"
    case Dict(fields) => "{" + ReprFields(v, 0) + "}"
  }

  /** `x in v` for a text `x`: a dict key, a list element, or a piece of a string. */
  function ContainsKey(v: Value, x: string): (r: Result<bool, string>)
    ensures r.Ok? <==> v.Dict? || v.List? || v.Str?
    ensures v.Dict? ==> r == Ok(Lookup(v.fields, x).Some?)
  {
    match v
    case Dict(fields) => Ok(Lookup(fields, x).Some?)
    case List(items) => Ok(Str(x) in items)
    case Str(s) => Ok(Text.Contains(s, x))
    case _ => Err("argument of type '" + TypeName(v) + "' is not iterable")
  }

  /** Whether the value can be a dict key or a set member: lists and dicts cannot. */
  predicate Hashable(v: Value)
  {
    !v.List? && !v.Dict?
  }

  /** The number of direct children of a container. */
  function Width(v: Value): nat
  {
    match v
    case List(items) => |items|
    case Dict(fields) => |fields|
    case _ => 0
  }

  /** The list's elements from position `from` on, rendered and separated by `, `. */
  function ReprItems(v: Value, from: nat): string
    requires v.List?
    decreases v, |v.items| - from
  {
    if from >= |v.items| then ""
    else if from == |v.items| - 1 then Repr(v.items[from])
    else Repr(v.items[from]) + ", " + ReprItems(v, from + 1)
  }

  /** The dict's entries from position `from` on, rendered as `'key': value` and separated by `, `. */
  function ReprFields(v: Value, from: nat): string
    requires v.Dict?
    decreases v, |v.fields| - from
  {
    if from >= |v.fields| then ""
    else
      var entry := "'" + v.fields[from].key + "': " + Repr(v.fields[from].value);
      if from == |v.fields| - 1 then entry else entry + ", " + ReprFields(v, from + 1)
  }


  /** One step into a value: a dict key or a list position. */
  datatype Step = Key(key: string) | At(index: nat)

  /** The value one step leads to, if it exists. */
  function Enter(v: Value, step: Step): Option<Value>
  {
    match step
    case Key(k) => Get(v, k)
    case At(i) => if v.List? && i < |v.items| then Some(v.items[i]) else None
  }

  /** The value found by following `path`, if every step exists. */
  function Follow(v: Value, path: seq<Step>): Option<Value>
    decreases |path|
  {
    if path == [] then Some(v)
    else match Enter(v, path[0])
      case Some(w) => Follow(w, path[1..])
      case None => None
  }

  /** The list of the given strings. */
  function StrList(ss: seq<string>): (v: Value)
    ensures v.List? && |v.items| == |ss|
    ensures forall i :: 0 <= i < |ss| ==> v.items[i] == Str(ss[i])
  {
    List(seq(|ss|, i requires 0 <= i < |ss| => Str(ss[i])))
  }

  /** The strings of a list whose items are all strings. */
  function AsStrings(items: seq<Value>): Option<seq<string>>
  {
    if items == [] then Some([])
    else if !items[0].Str? then None
    else match AsStrings(items[1..])
      case None => None
      case Some(rest) => Some([items[0].s] + rest)
  }

  /** A dict whose every value is a list of strings, as a map; the first entry of a key wins, as in `Lookup`. */
  function StringListMap(fields: seq<Field>): Option<map<string, seq<string>>>
  {
    if fields == [] then Some(map[])
    else if !fields[0].value.List? then None
    else match (AsStrings(fields[0].value.items), StringListMap(fields[1..]))
      case (Some(ss), Some(rest)) => Some(rest[fields[0].key := ss])
      case _ => None
  }

  /** `config[key]` where the setting must be text. */
  function TextSetting(config: Value, key: string): Result<string, string>
  {
    match Subscript(config, key)
    case Err(e) => Err(e)
    case Ok(v) => if v.Str? then Ok(v.s) else Err("setting '" + key + "' is not text")
  }

  /** `config[key]` where the setting must map names to lists of strings. */
  function ListMapSetting(config: Value, key: string): Result<map<string, seq<string>>, string>
  {
    match Subscript(config, key)
    case Err(e) => Err(e)
    case Ok(v) =>
      if v.Dict? && StringListMap(v.fields).Some? then Ok(StringListMap(v.fields).value)
      else Err("setting '" + key + "' is not a mapping of lists of text")
  }

  lemma {:induction false} AsStringsOfStrList(ss: seq<string>)
    ensures AsStrings(StrList(ss).items) == Some(ss)
  {
    if ss != [] {
      assert StrList(ss).items[1..] == StrList(ss[1..]).items;
      AsStringsOfStrList(ss[1..]);
      assert [ss[0]] + ss[1..] == ss;
    }
  }
}
