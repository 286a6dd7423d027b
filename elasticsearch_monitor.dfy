/**
 * The log-pattern monitor: for each configured pattern it searches every configured index over the
 * last interval, gathers the matching log entries, groups them by pattern and severity, raises one
 * alert per group, and ends each check with one `monitor_check` record. The Elasticsearch client is the
 * oracle `search`, from an index and a query body to the server's answer.
 */
module LogMonitor {
  import opened Common
  import opened Values
  import Text
  import Audit
  import Alerting

  /** One entry of the `patterns` setting. */
  datatype PatternRule = PatternRule(pattern: string, severity: string)

  /** What `client.search` did: a response body, or an exception. */
  datatype SearchReply = Response(body: Value) | SearchFailed(message: string)

  /** One matching log entry, as `search_logs` records it. */
  datatype LogMatch = LogMatch(index: Value, timestamp: Value, message: Value, severity: string, pattern: string,
                               metadata: seq<Field>)

  const Component: string := "elasticsearch_monitor"
  const ResultSize: int := 100
  const SampleCount: nat := 5
  /** The source keys that become dedicated fields rather than metadata. */
  const Excluded: seq<string> := ["@timestamp", "message"]

  // ---------------------------------------------------------------- query

  /** The full-text clause of the query. */
  function QueryClause(pattern: string): Value
  {
    Dict([Field("query_string", Dict([Field("query", Str(pattern)), Field("analyze_wildcard", Bool(true))]))])
  }

  /** The time-range clause of the query: from `timeFrom` up to now. */
  function RangeClause(timeFrom: string): Value
  {
    Dict([Field("range", Dict([Field("@timestamp", Dict([Field("gte", Str(timeFrom)), Field("lte", Str("now"))]))]))])
  }

  /** Newest first. */
  const SortClause: Value := Dict([Field("@timestamp", Dict([Field("order", Str("desc"))]))])

  /** `build_query`: the pattern as a query string within the time range, newest first, at most 100 hits. */
  function BuildQuery(pattern: string, timeFrom: string): Value
  {
    Dict([
      Field("query", Dict([Field("bool", Dict([Field("must", List([QueryClause(pattern), RangeClause(timeFrom)]))]))])),
      Field("sort", List([SortClause])),
      Field("size", Int(ResultSize))])
  }

  /** Following a path in two parts is following the first part and then the second from where it ended. */
  lemma {:induction false} FollowAppend(v: Value, p: seq<Step>, q: seq<Step>)
    requires Follow(v, p).Some?
    ensures Follow(v, p + q) == Follow(Follow(v, p).value, q)
    decreases |p|
  {
    if p == [] {
      assert p + q == q;
    } else {
      assert (p + q)[0] == p[0] && (p + q)[1..] == p[1..] + q;
      FollowAppend(Enter(v, p[0]).value, p[1..], q);
    }
  }

  /** A single step. */
  lemma FollowOne(v: Value, step: Step)
    ensures Follow(v, [step]) == Enter(v, step)
  {
    assert [step][1..] == [];
  }

  /** Following `a` then `b`, with both steps spelt out. */
  lemma FollowTwo(v: Value, a: Step, b: Step)
    requires Enter(v, a).Some?
    ensures Follow(v, [a, b]) == Enter(Enter(v, a).value, b)
  {
    FollowOne(v, a);
    FollowAppend(v, [a], [b]);
    assert [a] + [b] == [a, b];
    FollowOne(Enter(v, a).value, b);
  }

  /** The clauses sit under `query.bool.must`. */
  lemma MustPath(pattern: string, timeFrom: string)
    ensures Follow(BuildQuery(pattern, timeFrom), [Key("query"), Key("bool"), Key("must")]) ==
      Some(List([QueryClause(pattern), RangeClause(timeFrom)]))
  {
    var q := BuildQuery(pattern, timeFrom);
    FollowTwo(q, Key("query"), Key("bool"));
    FollowAppend(q, [Key("query"), Key("bool")], [Key("must")]);
    assert [Key("query"), Key("bool")] + [Key("must")] == [Key("query"), Key("bool"), Key("must")];
    FollowOne(Follow(q, [Key("query"), Key("bool")]).value, Key("must"));
  }

  /** The pattern is the query string of the first clause. */
  lemma PatternPath(pattern: string, timeFrom: string)
    ensures Follow(BuildQuery(pattern, timeFrom),
                   [Key("query"), Key("bool"), Key("must"), At(0), Key("query_string"), Key("query")]) == Some(Str(pattern))
  {
    var q := BuildQuery(pattern, timeFrom);
    var must := [Key("query"), Key("bool"), Key("must")];
    MustPath(pattern, timeFrom);
    FollowOne(Follow(q, must).value, At(0));
    FollowAppend(q, must, [At(0)]);
    FollowTwo(QueryClause(pattern), Key("query_string"), Key("query"));
    FollowAppend(q, must + [At(0)], [Key("query_string"), Key("query")]);
    assert must + [At(0)] + [Key("query_string"), Key("query")] ==
      [Key("query"), Key("bool"), Key("must"), At(0), Key("query_string"), Key("query")];
  }

  /** The range clause bounds `@timestamp` from `timeFrom` to now. */
  lemma RangeClausePaths(timeFrom: string)
    ensures Follow(RangeClause(timeFrom), [Key("range"), Key("@timestamp"), Key("gte")]) == Some(Str(timeFrom))
    ensures Follow(RangeClause(timeFrom), [Key("range"), Key("@timestamp"), Key("lte")]) == Some(Str("now"))
  {
    var range := RangeClause(timeFrom);
    FollowTwo(range, Key("range"), Key("@timestamp"));
    var stamp := Follow(range, [Key("range"), Key("@timestamp")]).value;
    var fs := stamp.fields;
    assert "lte" != "gte";
    assert Lookup(fs[1..], "lte") == Some(Str("now"));
    assert Lookup(fs, "lte") == Lookup(fs[1..], "lte");
    FollowOne(stamp, Key("gte"));
    FollowOne(stamp, Key("lte"));
    FollowAppend(range, [Key("range"), Key("@timestamp")], [Key("gte")]);
    FollowAppend(range, [Key("range"), Key("@timestamp")], [Key("lte")]);
    assert [Key("range"), Key("@timestamp")] + [Key("gte")] == [Key("range"), Key("@timestamp"), Key("gte")];
    assert [Key("range"), Key("@timestamp")] + [Key("lte")] == [Key("range"), Key("@timestamp"), Key("lte")];
  }

  /** The second clause of the query is the range clause. */
  lemma RangePaths(pattern: string, timeFrom: string)
    ensures var q := BuildQuery(pattern, timeFrom);
      && Follow(q, [Key("query"), Key("bool"), Key("must"), At(1), Key("range"), Key("@timestamp"), Key("gte")]) == Some(Str(timeFrom))
      && Follow(q, [Key("query"), Key("bool"), Key("must"), At(1), Key("range"), Key("@timestamp"), Key("lte")]) == Some(Str("now"))
  {
    var q := BuildQuery(pattern, timeFrom);
    var must := [Key("query"), Key("bool"), Key("must")];
    MustPath(pattern, timeFrom);
    FollowOne(Follow(q, must).value, At(1));
    FollowAppend(q, must, [At(1)]);
    RangeClausePaths(timeFrom);
    FollowAppend(q, must + [At(1)], [Key("range"), Key("@timestamp"), Key("gte")]);
    FollowAppend(q, must + [At(1)], [Key("range"), Key("@timestamp"), Key("lte")]);
    assert must + [At(1)] + [Key("range"), Key("@timestamp"), Key("gte")] ==
      [Key("query"), Key("bool"), Key("must"), At(1), Key("range"), Key("@timestamp"), Key("gte")];
    assert must + [At(1)] + [Key("range"), Key("@timestamp"), Key("lte")] ==
      [Key("query"), Key("bool"), Key("must"), At(1), Key("range"), Key("@timestamp"), Key("lte")];
  }

  /** Hits come sorted on `@timestamp`, newest first, at most `ResultSize` of them. */
  lemma SortAndSizePaths(pattern: string, timeFrom: string)
    ensures var q := BuildQuery(pattern, timeFrom);
      && Follow(q, [Key("sort"), At(0), Key("@timestamp"), Key("order")]) == Some(Str("desc"))
      && Follow(q, [Key("size")]) == Some(Int(ResultSize))
  {
    var q := BuildQuery(pattern, timeFrom);
    assert "sort" != "query" && "size" != "query" && "size" != "sort";
    var fs := q.fields;
    assert Lookup(fs[1..], "sort") == Some(List([SortClause]));
    assert Lookup(fs, "sort") == Lookup(fs[1..], "sort");
    assert Lookup(fs[1..][1..], "size") == Some(Int(ResultSize));
    assert Lookup(fs[1..], "size") == Lookup(fs[1..][1..], "size");
    assert Lookup(fs, "size") == Lookup(fs[1..], "size");
    FollowTwo(q, Key("sort"), At(0));
    FollowTwo(SortClause, Key("@timestamp"), Key("order"));
    FollowAppend(q, [Key("sort"), At(0)], [Key("@timestamp"), Key("order")]);
    assert [Key("sort"), At(0)] + [Key("@timestamp"), Key("order")] == [Key("sort"), At(0), Key("@timestamp"), Key("order")];
    FollowOne(q, Key("size"));
  }

  // ---------------------------------------------------------------- search

  predicate IsExcluded(key: string)
  {
    key in Excluded
  }

  /** `{k: v for k, v in source.items() if k not in ['@timestamp', 'message']}`. */
  function FilterMetadata(fields: seq<Field>): seq<Field>
  {
    if fields == [] then []
    else
      var rest := FilterMetadata(fields[..|fields| - 1]);
      var last := fields[|fields| - 1];
      assert forall f :: f in fields <==> f in fields[..|fields| - 1] || f == last;
      if IsExcluded(last.key) then rest else rest + [last]
  }

  /** The metadata keeps exactly the entries of the source whose key is neither `@timestamp` nor `message`. */
  lemma {:induction false} FilterMetadataMeaning(fields: seq<Field>)
    ensures forall f :: f in FilterMetadata(fields) <==> f in fields && !IsExcluded(f.key)
  {
    if fields != [] {
      FilterMetadataMeaning(fields[..|fields| - 1]);
      assert forall f :: f in fields <==> f in fields[..|fields| - 1] || f == fields[|fields| - 1];
    }
  }

  /** The record made of one hit; it fails when the hit has no `_source` dict. */
  function HitMatch(hit: Value, index: Value, pattern: string, severity: string): Result<LogMatch, string>
  {
    match Subscript(hit, "_source")
    case Err(e) => Err(e)
    case Ok(source) =>
      if !source.Dict? then Err("'" + TypeName(source) + NoGet)
      else Ok(LogMatch(index, GetOr(source, "@timestamp", Null), GetOr(source, "message", Null), severity, pattern,
                       FilterMetadata(source.fields)))
  }

  /** The records of all hits, or the first failure (the comprehension is built before it extends the results). */
  function HitMatches(hits: seq<Value>, index: Value, pattern: string, severity: string): Result<seq<LogMatch>, string>
  {
    if hits == [] then Ok([])
    else match HitMatches(hits[..|hits| - 1], index, pattern, severity)
      case Err(e) => Err(e)
      case Ok(ms) =>
        match HitMatch(hits[|hits| - 1], index, pattern, severity)
        case Err(e) => Err(e)
        case Ok(m) => Ok(ms + [m])
  }

  /** What one index contributes: the records of its hits, or nothing when anything about its search fails. */
  function IndexMatches(index: Value, reply: SearchReply, pattern: string, severity: string): seq<LogMatch>
  {
    match reply
    case SearchFailed(_) => []
    case Response(body) =>
      match Subscript(body, "hits")
      case Err(_) => []
      case Ok(outer) =>
        match Subscript(outer, "hits")
        case Err(_) => []
        case Ok(hits) =>
          match Iterate(hits)
          case Err(_) => []
          case Ok(items) =>
            match HitMatches(items, index, pattern, severity)
            case Err(_) => []
            case Ok(ms) => ms
  }

  /** The contributions of the first `k` indices, in order. */
  function ResultsUpTo(indices: seq<Value>, rule: PatternRule, query: Value, search: (Value, Value) -> SearchReply, k: nat): seq<LogMatch>
    requires k <= |indices|
  {
    if k == 0 then []
    else ResultsUpTo(indices, rule, query, search, k - 1) +
         IndexMatches(indices[k - 1], search(indices[k - 1], query), rule.pattern, rule.severity)
  }

  /** `search_logs`' result. */
  function SearchResults(indices: Value, rule: PatternRule, timeFrom: string, search: (Value, Value) -> SearchReply): seq<LogMatch>
  {
    match Iterate(indices)
    case Err(_) => []
    case Ok(xs) => ResultsUpTo(xs, rule, BuildQuery(rule.pattern, timeFrom), search, |xs|)
  }

  /** The audit records `search_logs` writes: one when the indices cannot even be iterated. */
  function SearchErrors(indices: Value, rule: PatternRule, now: string): seq<Audit.Event>
  {
    match Iterate(indices)
    case Err(e) => [Audit.ErrorEvent(now, Component, "Log search failed for pattern: " + rule.pattern, Dict([Field("error", Str(e))]))]
    case Ok(_) => []
  }

  lemma {:induction false} HitMatchesCarry(hits: seq<Value>, index: Value, pattern: string, severity: string)
    ensures var r := HitMatches(hits, index, pattern, severity);
      r.Ok? ==> |r.value| == |hits| && forall m :: m in r.value ==>
        m.index == index && m.pattern == pattern && m.severity == severity &&
        forall f :: f in m.metadata ==> !IsExcluded(f.key)
  {
    if hits != [] {
      HitMatchesCarry(hits[..|hits| - 1], index, pattern, severity);
      var source := Subscript(hits[|hits| - 1], "_source");
      if source.Ok? && source.value.Dict? {
        FilterMetadataMeaning(source.value.fields);
      }
    }
  }

  /** A hit without `_source` makes its whole index contribute nothing. */
  lemma {:induction false} MissingSourceDropsIndex(hits: seq<Value>, i: nat, index: Value, pattern: string, severity: string)
    requires i < |hits| && Subscript(hits[i], "_source").Err?
    ensures HitMatches(hits, index, pattern, severity).Err?
  {
    if i < |hits| - 1 {
      assert hits[..|hits| - 1][i] == hits[i];
      MissingSourceDropsIndex(hits[..|hits| - 1], i, index, pattern, severity);
    }
  }

  /**
   * Every record carries the pattern and severity it was searched with and an index it was found in,
   * and its metadata holds no `@timestamp` or `message` key; a failed search of one index contributes
   * nothing and the next index is still searched.
   */
  lemma {:induction false} ResultsUpToCarry(indices: seq<Value>, rule: PatternRule, query: Value,
                                            search: (Value, Value) -> SearchReply, k: nat)
    requires k <= |indices|
    ensures forall m :: m in ResultsUpTo(indices, rule, query, search, k) ==>
      m.pattern == rule.pattern && m.severity == rule.severity && m.index in indices[..k] &&
      forall f :: f in m.metadata ==> !IsExcluded(f.key)
    ensures k > 0 && search(indices[k - 1], query).SearchFailed? ==>
      ResultsUpTo(indices, rule, query, search, k) == ResultsUpTo(indices, rule, query, search, k - 1)
  {
    if k > 0 {
      ResultsUpToCarry(indices, rule, query, search, k - 1);
      var index := indices[k - 1];
      var reply := search(index, query);
      assert indices[..k] == indices[..k - 1] + [index];
      if reply.Response? && Subscript(reply.body, "hits").Ok? {
        var outer := Subscript(reply.body, "hits").value;
        if Subscript(outer, "hits").Ok? && Iterate(Subscript(outer, "hits").value).Ok? {
          HitMatchesCarry(Iterate(Subscript(outer, "hits").value).value, index, rule.pattern, rule.severity);
        }
      }
    }
  }

  // ---------------------------------------------------------------- grouping

  type GroupKey = (string, string)

  function KeyOf(m: LogMatch): GroupKey
  {
    (m.pattern, m.severity)
  }

  /** The distinct `(pattern, severity)` keys in first-occurrence order. */
  function GroupKeys(ms: seq<LogMatch>): seq<GroupKey>
  {
    if ms == [] then []
    else
      var keys := GroupKeys(ms[..|ms| - 1]);
      var k := KeyOf(ms[|ms| - 1]);
      if k in keys then keys else keys + [k]
  }

  /** The matches with key `k`, in order. */
  function GroupOf(ms: seq<LogMatch>, k: GroupKey): seq<LogMatch>
  {
    if ms == [] then []
    else GroupOf(ms[..|ms| - 1], k) + (if KeyOf(ms[|ms| - 1]) == k then [ms[|ms| - 1]] else [])
  }

  predicate Distinct<T(==)>(xs: seq<T>)
  {
    forall i, j :: 0 <= i < j < |xs| ==> xs[i] != xs[j]
  }

  function SumSizes(ms: seq<LogMatch>, keys: seq<GroupKey>): nat
  {
    if keys == [] then 0 else |GroupOf(ms, keys[0])| + SumSizes(ms, keys[1..])
  }

  /** The keys are distinct, each is the key of some match, and every match's key is among them. */
  lemma {:induction false} GroupKeysMeaning(ms: seq<LogMatch>)
    ensures Distinct(GroupKeys(ms))
    ensures forall i :: 0 <= i < |ms| ==> KeyOf(ms[i]) in GroupKeys(ms)
    ensures forall k :: k in GroupKeys(ms) ==> |GroupOf(ms, k)| > 0
  {
    if ms != [] {
      var p := ms[..|ms| - 1];
      GroupKeysMeaning(p);
      forall i | 0 <= i < |ms| - 1
        ensures KeyOf(ms[i]) in GroupKeys(ms)
      {
        assert ms[i] == p[i];
      }
    }
  }

  /** A key that no match has has an empty group. */
  lemma {:induction false} GroupOfAbsent(ms: seq<LogMatch>, k: GroupKey)
    requires k !in GroupKeys(ms)
    ensures GroupOf(ms, k) == []
  {
    if ms != [] {
      GroupOfAbsent(ms[..|ms| - 1], k);
    }
  }

  /** Every member of a group has that group's key. */
  lemma {:induction false} GroupOfKeys(ms: seq<LogMatch>, k: GroupKey)
    ensures forall m :: m in GroupOf(ms, k) ==> KeyOf(m) == k && m in ms
  {
    if ms != [] {
      GroupOfKeys(ms[..|ms| - 1], k);
    }
  }

  lemma {:induction false} SumSizesSnoc(ms: seq<LogMatch>, m: LogMatch, keys: seq<GroupKey>)
    requires Distinct(keys)
    ensures SumSizes(ms + [m], keys) == SumSizes(ms, keys) + (if KeyOf(m) in keys then 1 else 0)
  {
    if keys != [] {
      assert (ms + [m])[..|ms + [m]| - 1] == ms;
      assert Distinct(keys[1..]) by {
        forall i, j | 0 <= i < j < |keys[1..]| ensures keys[1..][i] != keys[1..][j] {
          assert keys[1..][i] == keys[i + 1] && keys[1..][j] == keys[j + 1];
        }
      }
      SumSizesSnoc(ms, m, keys[1..]);
      if KeyOf(m) == keys[0] {
        assert KeyOf(m) !in keys[1..] by {
          forall j | 0 <= j < |keys[1..]| ensures keys[1..][j] != keys[0] {
            assert keys[1..][j] == keys[j + 1];
          }
        }
      } else {
        assert KeyOf(m) in keys <==> KeyOf(m) in keys[1..];
      }
    }
  }

  lemma {:induction false} SumSizesAppendKey(ms: seq<LogMatch>, keys: seq<GroupKey>, k: GroupKey)
    ensures SumSizes(ms, keys + [k]) == SumSizes(ms, keys) + |GroupOf(ms, k)|
  {
    if keys != [] {
      assert (keys + [k])[1..] == keys[1..] + [k];
      SumSizesAppendKey(ms, keys[1..], k);
    } else {
      assert ([] + [k])[1..] == [];
    }
  }

  /** Grouping loses and duplicates nothing: the group sizes add up to the number of matches. */
  lemma {:induction false} GroupSizesSum(ms: seq<LogMatch>)
    ensures SumSizes(ms, GroupKeys(ms)) == |ms|
  {
    if ms != [] {
      var p := ms[..|ms| - 1];
      var m := ms[|ms| - 1];
      var keys := GroupKeys(p);
      assert ms == p + [m];
      GroupSizesSum(p);
      GroupKeysMeaning(p);
      SumSizesSnoc(p, m, keys);
      if KeyOf(m) !in keys {
        SumSizesAppendKey(ms, keys, KeyOf(m));
        GroupOfAbsent(p, KeyOf(m));
      }
    }
  }

  /** The grouping loop of `process_matches`: keys in first-occurrence order, each with its matches in order. */
  method Group(matches: seq<LogMatch>) returns (keys: seq<GroupKey>, groups: map<GroupKey, seq<LogMatch>>)
    ensures keys == GroupKeys(matches)
    ensures forall k :: k in groups <==> k in keys
    ensures forall k :: k in groups ==> groups[k] == GroupOf(matches, k)
  {
    keys := [];
    groups := map[];
    var i := 0;
    while i < |matches|
      invariant 0 <= i <= |matches|
      invariant keys == GroupKeys(matches[..i])
      invariant forall k :: k in groups <==> k in keys
      invariant forall k :: k in groups ==> groups[k] == GroupOf(matches[..i], k)
    {
      var m := matches[i];
      var key := KeyOf(m);
      assert matches[..i + 1][..i] == matches[..i];
      if key !in groups {
        GroupOfAbsent(matches[..i], key);
        keys := keys + [key];
        groups := groups[key := []];
      }
      groups := groups[key := groups[key] + [m]];
      i := i + 1;
    }
    assert matches[..i] == matches;
  }

  // ---------------------------------------------------------------- alerts

  function SampleLine(m: LogMatch): string
  {
    "- " + Show(m.timestamp) + ": " + Show(m.message) + "\n"
  }

  /** The sample lines of `ms`, in order. */
  function SampleText(ms: seq<LogMatch>): string
  {
    if ms == [] then "" else SampleLine(ms[0]) + SampleText(ms[1..])
  }

  /** `text += line` for each of `ms` in turn. */
  function AppendSamples(text: string, ms: seq<LogMatch>): string
    decreases |ms|
  {
    if ms == [] then text else AppendSamples(text + SampleLine(ms[0]), ms[1..])
  }

  /** Appending the lines one at a time gives the text followed by all the sample lines, in order. */
  lemma {:induction false} AppendSamplesMeaning(text: string, ms: seq<LogMatch>)
    ensures AppendSamples(text, ms) == text + SampleText(ms)
    decreases |ms|
  {
    if ms == [] {
      assert text + "" == text;
    } else {
      AppendSamplesMeaning(text + SampleLine(ms[0]), ms[1..]);
      AppendAssociative(text, SampleLine(ms[0]), SampleText(ms[1..]));
    }
  }

  function Header(count: nat): string
  {
    "Found " + Text.IntToString(count) + " matching log entries in the last interval.\n\n" + "Sample messages:\n"
  }

  function Min(a: nat, b: nat): nat
  {
    if a <= b then a else b
  }

  /** The indices of a group's matches, each once, in first-occurrence order (`list(set(...))`). */
  function DistinctIndices(group: seq<LogMatch>): (r: seq<Value>)
    ensures Distinct(r)
    ensures forall x :: x in r <==> exists m :: m in group && m.index == x
  {
    if group == [] then []
    else
      var rest := DistinctIndices(group[..|group| - 1]);
      var last := group[|group| - 1];
      assert forall m :: m in group <==> m in group[..|group| - 1] || m == last;
      if last.index in rest then rest else rest + [last.index]
  }

  /** The alert `process_matches` sends for one group. */
  function GroupAlert(key: GroupKey, group: seq<LogMatch>, interval: Value): Alerting.AlertCall
  {
    Alerting.AlertCall(
      "Log Pattern Detected: " + key.0,
      AppendSamples(Header(|group|), group[..Min(SampleCount, |group|)]),
      Text.Lower(key.1),
      [Field("pattern", Str(key.0)), Field("match_count", Int(|group|)),
       Field("indices", List(DistinctIndices(group))), Field("time_range", Str("Last " + Show(interval) + " seconds"))])
  }

  /** The alert names the pattern, counts the group, samples at most five entries and lists the group's indices. */
  lemma GroupAlertMeaning(key: GroupKey, group: seq<LogMatch>, interval: Value)
    ensures var a := GroupAlert(key, group, interval);
      && a.title == "Log Pattern Detected: " + key.0
      && a.severity == Text.Lower(key.1)
      && a.message == Header(|group|) + SampleText(group[..Min(SampleCount, |group|)])
      && Min(SampleCount, |group|) <= SampleCount
      && Get(Dict(a.metadata), "pattern") == Some(Str(key.0))
      && Get(Dict(a.metadata), "match_count") == Some(Int(|group|))
  {
    AppendSamplesMeaning(Header(|group|), group[..Min(SampleCount, |group|)]);
    var fs := GroupAlert(key, group, interval).metadata;
    assert "match_count" != "pattern";
    assert Lookup(fs[1..], "match_count") == Some(Int(|group|));
  }

  /** The alerts for `keys`, one per key in order. */
  function KeyAlerts(matches: seq<LogMatch>, keys: seq<GroupKey>, interval: Value): (r: seq<Alerting.AlertCall>)
    ensures |r| == |keys|
    ensures forall i :: 0 <= i < |keys| ==> r[i] == GroupAlert(keys[i], GroupOf(matches, keys[i]), interval)
  {
    if keys == [] then []
    else KeyAlerts(matches, keys[..|keys| - 1], interval) +
         [GroupAlert(keys[|keys| - 1], GroupOf(matches, keys[|keys| - 1]), interval)]
  }

  /** All alerts of `process_matches`, one per group in first-occurrence order. */
  function GroupAlerts(matches: seq<LogMatch>, interval: Value): seq<Alerting.AlertCall>
  {
    KeyAlerts(matches, GroupKeys(matches), interval)
  }

  /** The alerts count the matches: their `match_count`s add up to the number of matches. */
  lemma AlertsCountMatches(matches: seq<LogMatch>, interval: Value)
    ensures |GroupAlerts(matches, interval)| == |GroupKeys(matches)|
    ensures SumSizes(matches, GroupKeys(matches)) == |matches|
    ensures forall i :: 0 <= i < |GroupKeys(matches)| ==>
      GroupAlerts(matches, interval)[i].metadata[1] == Field("match_count", Int(|GroupOf(matches, GroupKeys(matches)[i])|))
  {
    GroupSizesSum(matches);
  }

  function SummaryEvent(patternCount: nat, matchCount: nat, now: string): Audit.Event
  {
    Audit.MonitorCheckEvent(now, "elasticsearch",
      Dict([Field("patterns_checked", Int(patternCount)), Field("matches_found", Int(matchCount))]), matchCount > 0)
  }

  /** The matches of the first `k` patterns, in pattern order (`all_matches`). */
  function MatchesUpTo(patterns: seq<PatternRule>, indices: Value, timeFrom: string, search: (Value, Value) -> SearchReply, k: nat): seq<LogMatch>
    requires k <= |patterns|
  {
    if k == 0 then [] else MatchesUpTo(patterns, indices, timeFrom, search, k - 1) + SearchResults(indices, patterns[k - 1], timeFrom, search)
  }

  /** The error records written while searching the first `k` patterns. */
  function SearchErrorsUpTo(patterns: seq<PatternRule>, indices: Value, now: string, k: nat): seq<Audit.Event>
    requires k <= |patterns|
  {
    if k == 0 then [] else SearchErrorsUpTo(patterns, indices, now, k - 1) + SearchErrors(indices, patterns[k - 1], now)
  }

  /** When the indices cannot be iterated, every pattern logs one error and nothing is found. */
  lemma {:induction false} UniterableIndices(patterns: seq<PatternRule>, indices: Value, timeFrom: string,
                                             search: (Value, Value) -> SearchReply, now: string, k: nat)
    requires k <= |patterns| && Iterate(indices).Err?
    ensures MatchesUpTo(patterns, indices, timeFrom, search, k) == []
    ensures |SearchErrorsUpTo(patterns, indices, now, k)| == k
  {
    if k > 0 {
      UniterableIndices(patterns, indices, timeFrom, search, now, k - 1);
    }
  }

  class ElasticsearchMonitor {
    const hosts: Value
    const indices: Value
    const patterns: seq<PatternRule>
    const interval: Value
    const audit: Audit.AuditLogger

    constructor (hosts: Value, indices: Value, patterns: seq<PatternRule>, interval: Value, audit: Audit.AuditLogger)
      ensures this.hosts == hosts && this.indices == indices && this.patterns == patterns
      ensures this.interval == interval && this.audit == audit
    {
      this.hosts := hosts;
      this.indices := indices;
      this.patterns := patterns;
      this.interval := interval;
      this.audit := audit;
    }

    /** The per-index loop of `search_logs`. */
    static method SearchIndices(xs: seq<Value>, rule: PatternRule, query: Value, search: (Value, Value) -> SearchReply)
      returns (results: seq<LogMatch>)
      ensures results == ResultsUpTo(xs, rule, query, search, |xs|)
    {
      results := [];
      var i := 0;
      while i < |xs|
        invariant 0 <= i <= |xs|
        invariant results == ResultsUpTo(xs, rule, query, search, i)
      {
        var found := SearchIndex(xs[i], rule, query, search);
        results := results + found;
        i := i + 1;
      }
    }

    /** The guarded body of the per-index loop: any failure while searching one index yields nothing for it. */
    static method SearchIndex(index: Value, rule: PatternRule, query: Value, search: (Value, Value) -> SearchReply)
      returns (found: seq<LogMatch>)
      ensures found == IndexMatches(index, search(index, query), rule.pattern, rule.severity)
    {
      var reply := search(index, query);
      if reply.SearchFailed? {
        return [];
      }
      var outer := Subscript(reply.body, "hits");
      if outer.Err? {
        return [];
      }
      var hits := Subscript(outer.value, "hits");
      if hits.Err? {
        return [];
      }
      var items := Iterate(hits.value);
      if items.Err? {
        return [];
      }
      var made := HitMatches(items.value, index, rule.pattern, rule.severity);
      if made.Err? {
        return [];
      }
      found := made.value;
    }

    /** `search_logs`: every index in order, each failure isolated; an unusable index list is logged and yields nothing. */
    method SearchLogs(rule: PatternRule, timeFrom: string, search: (Value, Value) -> SearchReply, now: string)
      returns (results: seq<LogMatch>)
      modifies audit`records
      ensures results == SearchResults(indices, rule, timeFrom, search)
      ensures audit.records == old(audit.records) + audit.Admit(SearchErrors(indices, rule, now))
    {
      var query := BuildQuery(rule.pattern, timeFrom);
      var listed := Iterate(indices);
      if listed.Err? {
        audit.LogError(Component, "Log search failed for pattern: " + rule.pattern, Dict([Field("error", Str(listed.error))]), now);
        return [];
      }
      results := SearchIndices(listed.value, rule, query, search);
    }

    /** The alert text for one group: the count, then the first five entries, one line each. */
    static method BuildMessage(group: seq<LogMatch>) returns (message: string)
      ensures message == AppendSamples(Header(|group|), group[..Min(SampleCount, |group|)])
    {
      var count := |group|;
      message := "Found " + Text.IntToString(count) + " matching log entries in the last interval.\n\n";
      message := message + "Sample messages:\n";
      var samples := group[..Min(SampleCount, count)];
      var j := 0;
      while j < |samples|
        invariant 0 <= j <= |samples|
        invariant AppendSamples(message, samples[j..]) == AppendSamples(Header(count), samples)
      {
        assert samples[j..][1..] == samples[j + 1..];
        message := message + SampleLine(samples[j]);
        j := j + 1;
      }
    }

    /** `process_matches`: group, then build and send one alert per group; returns the alerts sent, in order. */
    method ProcessMatches(matches: seq<LogMatch>) returns (alerts: seq<Alerting.AlertCall>)
      ensures alerts == GroupAlerts(matches, interval)
    {
      var keys, groups := Group(matches);
      alerts := [];
      var i := 0;
      while i < |keys|
        invariant 0 <= i <= |keys|
        invariant alerts == KeyAlerts(matches, keys[..i], interval)
      {
        var key := keys[i];
        var group := groups[key];
        var message := BuildMessage(group);
        var metadata := [Field("pattern", Str(key.0)), Field("match_count", Int(|group|)),
                         Field("indices", List(DistinctIndices(group))),
                         Field("time_range", Str("Last " + Show(interval) + " seconds"))];
        var alert := Alerting.AlertCall("Log Pattern Detected: " + key.0, message, Text.Lower(key.1), metadata);
        assert alert == GroupAlert(key, GroupOf(matches, key), interval);
        assert keys[..i + 1][..i] == keys[..i];
        alerts := alerts + [alert];
        i := i + 1;
      }
      assert keys[..i] == keys;
    }

    /** One turn of the pattern loop of `check`: the matches of pattern `k` join `all`. */
    method SearchPattern(k: nat, all: seq<LogMatch>, ghost errors: seq<Audit.Event>, ghost start: seq<Audit.Event>,
                         timeFrom: string, search: (Value, Value) -> SearchReply, now: string)
      returns (extended: seq<LogMatch>, ghost errors': seq<Audit.Event>)
      requires k < |patterns| && all == MatchesUpTo(patterns, indices, timeFrom, search, k)
      requires errors == SearchErrorsUpTo(patterns, indices, now, k) && audit.records == start + audit.Admit(errors)
      modifies audit`records
      ensures extended == MatchesUpTo(patterns, indices, timeFrom, search, k + 1)
      ensures errors' == SearchErrorsUpTo(patterns, indices, now, k + 1) && audit.records == start + audit.Admit(errors')
    {
      ghost var logged := SearchErrors(indices, patterns[k], now);
      var matches := SearchLogs(patterns[k], timeFrom, search, now);
      if matches != [] {
        extended := all + matches;
      } else {
        extended := all;
        assert all + matches == all;
      }
      audit.AdmitConcat(errors, logged);
      AppendAssociative(start, audit.Admit(errors), audit.Admit(logged));
      errors' := errors + logged;
    }

    /** The pattern loop of `check`: `all_matches`, with the error records the searches write. */
    method SearchAll(timeFrom: string, search: (Value, Value) -> SearchReply, now: string) returns (all: seq<LogMatch>)
      modifies audit`records
      ensures all == MatchesUpTo(patterns, indices, timeFrom, search, |patterns|)
      ensures audit.records == old(audit.records) + audit.Admit(SearchErrorsUpTo(patterns, indices, now, |patterns|))
    {
      all := [];
      ghost var errors: seq<Audit.Event> := [];
      var k := 0;
      while k < |patterns|
        invariant 0 <= k <= |patterns|
        invariant all == MatchesUpTo(patterns, indices, timeFrom, search, k)
        invariant errors == SearchErrorsUpTo(patterns, indices, now, k)
        invariant audit.records == old(audit.records) + audit.Admit(errors)
      {
        all, errors := SearchPattern(k, all, errors, old(audit.records), timeFrom, search, now);
        k := k + 1;
      }
    }

    /** `check`: search every pattern, alert on what was found, and append one summary record. */
    method Check(timeFrom: string, search: (Value, Value) -> SearchReply, now: string) returns (alerts: seq<Alerting.AlertCall>)
      modifies audit`records
      ensures var all := MatchesUpTo(patterns, indices, timeFrom, search, |patterns|);
        alerts == (if all != [] then GroupAlerts(all, interval) else [])
      ensures var all := MatchesUpTo(patterns, indices, timeFrom, search, |patterns|);
        audit.records == old(audit.records) +
          audit.Admit(SearchErrorsUpTo(patterns, indices, now, |patterns|) + [SummaryEvent(|patterns|, |all|, now)])
    {
      var all := SearchAll(timeFrom, search, now);
      if all != [] {
        alerts := ProcessMatches(all);
      } else {
        alerts := [];
      }
      ghost var errors := SearchErrorsUpTo(patterns, indices, now, |patterns|);
      ghost var summary := [SummaryEvent(|patterns|, |all|, now)];
      audit.AdmitConcat(errors, summary);
      AppendAssociative(old(audit.records), audit.Admit(errors), audit.Admit(summary));
      audit.LogMonitorCheck("elasticsearch",
        Dict([Field("patterns_checked", Int(|patterns|)), Field("matches_found", Int(|all|))]), all != [], now);
    }
  }
}
