/**
 * The metric-threshold monitor: for each configured metric it queries Prometheus over the last five
 * minutes, extracts the sample values, flags the maximum when it exceeds the threshold, raises one alert
 * per violation, records failures in the audit log, and ends each check with one `monitor_check` record.
 * The HTTP query is the oracle `prom`, from query text to the server's answer.
 */
module MetricMonitor {
  import opened Common
  import opened Values
  import Text
  import Numbers
  import Audit
  import Alerting

  /** One entry of the `metrics` setting. */
  datatype MetricRule = MetricRule(name: string, threshold: Value, severity: string)

  /** What the query endpoint answered: a status code, the body text and the decoded JSON, or an exception. */
  datatype QueryReply =
    | Answer(statusCode: int, text: string, body: Value)
    | Unreachable(message: string)

  /** A violation: the metric, its threshold, the offending value, and when it was seen. */
  datatype Violation = Violation(metric: string, threshold: Value, value: Numbers.Number, timestamp: string)

  const DefaultDuration: string := "5m"
  const Component: string := "prometheus_monitor"

  /** The PromQL range query `metric[duration]`. */
  function QueryString(metricName: string, duration: string): (q: string)
    ensures |q| == |metricName| + |duration| + 2
    ensures q[..|metricName|] == metricName && q[|q| - 1] == ']'
  {
    metricName + "[" + duration + "]"
  }

  /** `query_metric`: the `data` part of a successful answer, or the text of the exception raised. */
  function QueryMetric(reply: QueryReply): Result<Value, string>
  {
    match reply
    case Unreachable(m) => Err(m)
    case Answer(code, text, body) =>
      if code != 200 then Err("Query failed with status " + Text.IntToString(code) + ": " + text)
      else match Subscript(body, "status")
        case Err(e) => Err(e)
        case Ok(status) =>
          if status != Str("success") then Err("Query returned error status: " + Show(status))
          else Subscript(body, "data")
  }

  /** A query succeeds exactly on status 200 with JSON status `success` and a `data` member. */
  lemma QueryMetricOk(reply: QueryReply)
    ensures QueryMetric(reply).Ok? <==>
      reply.Answer? && reply.statusCode == 200 && Subscript(reply.body, "status") == Ok(Str("success")) &&
      Subscript(reply.body, "data").Ok?
    ensures reply.Answer? && reply.statusCode != 200 ==>
      QueryMetric(reply) == Err("Query failed with status " + Text.IntToString(reply.statusCode) + ": " + reply.text)
  {
  }

  /** `v[1]` of one sample `[timestamp, value]`. */
  function SecondItem(sample: Value): Result<Value, string>
  {
    match sample
    case List(items) => if |items| >= 2 then Ok(items[1]) else Err("list index out of range")
    case Str(s) => if |s| >= 2 then Ok(Str([s[1]])) else Err("string index out of range")
    case Dict(_) => Err("1")
    case _ => Err("'" + TypeName(sample) + NotSubscriptable)
  }

  /** `float(v[1])`: a number converts to itself, and text is read as a decimal literal. */
  function SampleValue(sample: Value): Result<Numbers.Decimal, string>
  {
    match SecondItem(sample)
    case Err(e) => Err(e)
    case Ok(x) =>
      match x
      case Int(i) => Ok(Numbers.Decimal(i, 0))
      case Float(f) => Ok(f)
      case Bool(b) => Ok(Numbers.Decimal(if b then 1 else 0, 0))
      case Str(s) =>
        (match Numbers.Parse(s)
         case Some(d) => Ok(d)
         case None => Err("could not convert string to float: '" + s + "'"))
      case _ => Err("float() argument must be a string or a real number, not '" + TypeName(x) + "'")
  }

  /** The values of a run of samples, in order, or the first sample's error. */
  function SampleValues(samples: seq<Value>): Result<seq<Numbers.Decimal>, string>
  {
    if samples == [] then Ok([])
    else match SampleValues(samples[..|samples| - 1])
      case Err(e) => Err(e)
      case Ok(vs) =>
        match SampleValue(samples[|samples| - 1])
        case Err(e) => Err(e)
        case Ok(v) => Ok(vs + [v])
  }

  /** The samples of one series: `series.get('values', [])`, iterated. */
  function SeriesSamples(series: Value): Result<seq<Value>, string>
  {
    match DictGet(series, "values", List([]))
    case Err(e) => Err(e)
    case Ok(v) => Iterate(v)
  }

  function SeriesValues(series: Value): Result<seq<Numbers.Decimal>, string>
  {
    match SeriesSamples(series)
    case Err(e) => Err(e)
    case Ok(samples) => SampleValues(samples)
  }

  /** The values of every series in order, or the first error. */
  function AllSeriesValues(series: seq<Value>): Result<seq<Numbers.Decimal>, string>
  {
    if series == [] then Ok([])
    else match AllSeriesValues(series[..|series| - 1])
      case Err(e) => Err(e)
      case Ok(vs) =>
        match SeriesValues(series[|series| - 1])
        case Err(e) => Err(e)
        case Ok(ws) => Ok(vs + ws)
  }

  /** The series listed by `result.get('result', [])`. */
  function ResultSeries(data: Value): Result<seq<Value>, string>
  {
    match DictGet(data, "result", List([]))
    case Err(e) => Err(e)
    case Ok(v) => Iterate(v)
  }

  /** All values a query's `data` yields, in series order and within a series in sample order. */
  function Extract(data: Value): Result<seq<Numbers.Decimal>, string>
  {
    match ResultSeries(data)
    case Err(e) => Err(e)
    case Ok(series) => AllSeriesValues(series)
  }

  lemma {:induction false} SampleErrorStops(samples: seq<Value>, k: nat)
    requires k <= |samples| && SampleValues(samples[..k]).Err?
    ensures SampleValues(samples) == SampleValues(samples[..k])
  {
    if k < |samples| {
      assert samples[..|samples| - 1][..k] == samples[..k];
      SampleErrorStops(samples[..|samples| - 1], k);
    } else {
      assert samples[..k] == samples;
    }
  }

  lemma {:induction false} SeriesErrorStops(series: seq<Value>, k: nat)
    requires k <= |series| && AllSeriesValues(series[..k]).Err?
    ensures AllSeriesValues(series) == AllSeriesValues(series[..k])
  {
    if k < |series| {
      assert series[..|series| - 1][..k] == series[..k];
      SeriesErrorStops(series[..|series| - 1], k);
    } else {
      assert series[..k] == series;
    }
  }

  /** The comprehension `[float(v[1]) for v in samples]`: the values in order, or the first error. */
  method ConvertSamples(samples: seq<Value>) returns (r: Result<seq<Numbers.Decimal>, string>)
    ensures r == SampleValues(samples)
  {
    var converted: seq<Numbers.Decimal> := [];
    var j := 0;
    while j < |samples|
      invariant 0 <= j <= |samples|
      invariant SampleValues(samples[..j]) == Ok(converted)
    {
      assert samples[..j + 1][..j] == samples[..j];
      var v := SampleValue(samples[j]);
      if v.Err? {
        SampleErrorStops(samples, j + 1);
        return Err(v.error);
      }
      converted := converted + [v.value];
      j := j + 1;
    }
    assert samples[..j] == samples;
    return Ok(converted);
  }

  /** The values loop: `values.extend([float(v[1]) for v in series.get('values', [])])` for each series. */
  method ExtractValues(data: Value) returns (r: Result<seq<Numbers.Decimal>, string>)
    ensures r == Extract(data)
  {
    var listed := ResultSeries(data);
    if listed.Err? {
      return Err(listed.error);
    }
    var series := listed.value;
    var values: seq<Numbers.Decimal> := [];
    var i := 0;
    while i < |series|
      invariant 0 <= i <= |series|
      invariant AllSeriesValues(series[..i]) == Ok(values)
    {
      assert series[..i + 1][..i] == series[..i];
      var samplesOf := SeriesSamples(series[i]);
      if samplesOf.Err? {
        SeriesErrorStops(series, i + 1);
        return Err(samplesOf.error);
      }
      var converted := ConvertSamples(samplesOf.value);
      if converted.Err? {
        SeriesErrorStops(series, i + 1);
        return Err(converted.error);
      }
      values := values + converted.value;
      i := i + 1;
    }
    assert series[..i] == series;
    return Ok(values);
  }

  /** A query answer in Prometheus' matrix shape carrying the given series of values, written as decimal text. */
  function Matrix(series: seq<seq<Numbers.Decimal>>): Value
  {
    Dict([Field("result", List(seq(|series|, i requires 0 <= i < |series| => SeriesJson(series[i]))))])
  }

  function SeriesJson(values: seq<Numbers.Decimal>): Value
  {
    Dict([Field("values", List(seq(|values|, j requires 0 <= j < |values| => List([Int(j), Str(Numbers.Literal(values[j]))]))))])
  }

  function Flatten(series: seq<seq<Numbers.Decimal>>): seq<Numbers.Decimal>
  {
    if series == [] then [] else Flatten(series[..|series| - 1]) + series[|series| - 1]
  }

  lemma SampleValuesOfSeries(values: seq<Numbers.Decimal>, k: nat)
    requires k <= |values|
    ensures SampleValues(SeriesJson(values).fields[0].value.items[..k]) == Ok(values[..k])
  {
    var samples := SeriesJson(values).fields[0].value.items[..k];
    forall j | 0 <= j < k
      ensures SampleValue(samples[j]) == Ok(values[..k][j])
    {
      assert samples[j] == List([Int(j), Str(Numbers.Literal(values[j]))]);
      SampleOfLiteral(j, values[j]);
    }
    SampleValuesPointwise(samples, values[..k]);
  }

  /** Samples that each convert give their values, in order. */
  lemma {:induction false} SampleValuesPointwise(samples: seq<Value>, values: seq<Numbers.Decimal>)
    requires |samples| == |values|
    requires forall j :: 0 <= j < |samples| ==> SampleValue(samples[j]) == Ok(values[j])
    ensures SampleValues(samples) == Ok(values)
  {
    if samples != [] {
      var n := |samples| - 1;
      SampleValuesPointwise(samples[..n], values[..n]);
      assert values == values[..n] + [values[n]];
    }
  }

  /** A sample whose value is a written decimal converts to that decimal. */
  lemma SampleOfLiteral(at: int, d: Numbers.Decimal)
    ensures SampleValue(List([Int(at), Str(Numbers.Literal(d))])) == Ok(d)
  {
    Numbers.LiteralRoundTrip(d);
    SampleOfText(at, Numbers.Literal(d), d);
  }

  /** A sample whose value is text that `float()` reads as `d` converts to `d`. */
  lemma SampleOfText(at: int, text: string, d: Numbers.Decimal)
    requires Numbers.Parse(text) == Some(d)
    ensures SampleValue(List([Int(at), Str(text)])) == Ok(d)
  {
    assert SecondItem(List([Int(at), Str(text)])) == Ok(Str(text));
  }

  lemma {:induction false} AllSeriesOfMatrix(series: seq<seq<Numbers.Decimal>>, k: nat)
    requires k <= |series|
    ensures AllSeriesValues(Matrix(series).fields[0].value.items[..k]) == Ok(Flatten(series[..k]))
  {
    var items := Matrix(series).fields[0].value.items;
    if k > 0 {
      AllSeriesOfMatrix(series, k - 1);
      assert items[..k][..k - 1] == items[..k - 1];
      assert series[..k][..k - 1] == series[..k - 1];
      var values := series[k - 1];
      SampleValuesOfSeries(values, |values|);
      assert SeriesJson(values).fields[0].value.items[..|values|] == SeriesJson(values).fields[0].value.items;
      assert values[..|values|] == values;
      assert SeriesValues(items[k - 1]) == Ok(values);
    }
  }

  /** Extracting the values of a matrix answer gives the concatenation of its series, in order. */
  lemma ExtractMatrix(series: seq<seq<Numbers.Decimal>>)
    ensures Extract(Matrix(series)) == Ok(Flatten(series))
  {
    AllSeriesOfMatrix(series, |series|);
    assert Matrix(series).fields[0].value.items[..|series|] == Matrix(series).fields[0].value.items;
    assert series[..|series|] == series;
  }

  /**
   * `max(values)`: the scan keeps the first value and replaces it only by a strictly larger one, so
   * the result is a largest value.
   */
  function Max(values: seq<Numbers.Decimal>): (m: Numbers.Decimal)
    requires values != []
    ensures m in values && forall v :: v in values ==> Numbers.Real(v) <= Numbers.Real(m)
  {
    if |values| == 1 then values[0]
    else
      var init, last := values[..|values| - 1], values[|values| - 1];
      var best := Max(init);
      assert forall v :: v in values ==> v in init || v == last;
      if Numbers.Real(last) > Numbers.Real(best) then last else best
  }

  /** `max(values) if values else 0`: the float maximum, or the int 0. */
  function MaxOr0(values: seq<Numbers.Decimal>): Numbers.Number
  {
    if values == [] then Numbers.IntNum(0) else Numbers.FloatNum(Max(values))
  }

  /** The threshold as a number `>` can compare with: an int, a float, or a bool counted as 0 or 1. */
  function ThresholdReal(threshold: Value): Option<real>
  {
    match threshold
    case Int(i) => Some(i as real)
    case Float(f) => Some(Numbers.Real(f))
    case Bool(b) => Some(if b then 1.0 else 0.0)
    case _ => None
  }

  /** The TypeError text of `left > right` between a number of type `left` and a value `>` cannot order. */
  function CompareError(left: string, right: Value): string
  {
    "'>' not supported between instances of '" + left + "' and '" + TypeName(right) + "'"
  }

  /**
   * `check_threshold`: `max_value > threshold` raises a TypeError for a threshold that is not a number,
   * even with no values; otherwise there is at most one violation, present exactly when the maximum
   * strictly exceeds the threshold.
   */
  function CheckThreshold(metricName: string, threshold: Value, values: seq<Numbers.Decimal>, now: string): (r: Result<seq<Violation>, string>)
    ensures r.Err? <==> ThresholdReal(threshold).None?
    ensures r.Err? ==> r.error == CompareError(if values == [] then "int" else "float", threshold)
    ensures r.Ok? ==> |r.value| <= 1
    ensures r.Ok? ==> (|r.value| == 1 <==> Numbers.NumberReal(MaxOr0(values)) > ThresholdReal(threshold).value)
    ensures r.Ok? && values == [] ==> (|r.value| == 1 <==> 0.0 > ThresholdReal(threshold).value)
    ensures r.Ok? && values != [] ==>
      (|r.value| == 1 <==> exists v :: v in values && Numbers.Real(v) > ThresholdReal(threshold).value)
    ensures r.Ok? && |r.value| == 1 ==>
      r.value[0].metric == metricName && r.value[0].threshold == threshold &&
      Numbers.NumberReal(r.value[0].value) > ThresholdReal(threshold).value
    ensures r.Ok? && |r.value| == 1 && values != [] ==>
      r.value[0].value.FloatNum? && r.value[0].value.f in values &&
      forall v :: v in values ==> Numbers.Real(v) <= Numbers.Real(r.value[0].value.f)
    ensures r.Ok? && |r.value| == 1 && values == [] ==> r.value[0].value == Numbers.IntNum(0)
  {
    var m := MaxOr0(values);
    match ThresholdReal(threshold)
    case None => Err(CompareError(TypeName(NumberValue(m)), threshold))
    case Some(t) => Ok(if Numbers.NumberReal(m) > t then [Violation(metricName, threshold, m, now)] else [])
  }

  /** The number as it appears in a JSON or YAML document. */
  function NumberValue(n: Numbers.Number): Value
  {
    match n
    case IntNum(i) => Int(i)
    case FloatNum(f) => Float(f)
  }

  /** The alert raised for one violation of a metric configured with `severity`. */
  function AlertFor(severity: string, v: Violation): Alerting.AlertCall
  {
    Alerting.AlertCall(
      "Metric Threshold Violation: " + v.metric,
      "Metric " + v.metric + " exceeded threshold of " + Show(v.threshold) +
        ". Current value: " + Numbers.NumberText(v.value),
      severity,
      [Field("metric", Str(v.metric)), Field("threshold", v.threshold),
       Field("current_value", NumberValue(v.value)), Field("timestamp", Str(v.timestamp))])
  }

  /** The alert has the metric's severity, names the metric, and carries threshold and value in its metadata. */
  lemma AlertForMeaning(severity: string, v: Violation)
    ensures var a := AlertFor(severity, v);
      && a.severity == severity
      && a.title == "Metric Threshold Violation: " + v.metric
      && Get(Dict(a.metadata), "metric") == Some(Str(v.metric))
      && a.message == "Metric " + v.metric + " exceeded threshold of " + Show(v.threshold) +
           ". Current value: " + Numbers.NumberText(v.value)
      && Get(Dict(a.metadata), "threshold") == Some(v.threshold)
      && Get(Dict(a.metadata), "current_value") == Some(NumberValue(v.value))
  {
    var fs := AlertFor(severity, v).metadata;
    assert "threshold" != "metric" && "current_value" != "metric" && "current_value" != "threshold";
    assert fs[1..][1..] == [fs[2], fs[3]];
    assert Lookup(fs[1..][1..], "current_value") == Some(NumberValue(v.value));
    assert Lookup(fs[1..], "current_value") == Lookup(fs[1..][1..], "current_value");
    assert Lookup(fs, "current_value") == Lookup(fs[1..], "current_value");
    assert Lookup(fs[1..], "threshold") == Some(v.threshold);
  }

  /** One alert per violation, in order. */
  function AlertsFor(severity: string, vs: seq<Violation>): (r: seq<Alerting.AlertCall>)
    ensures |r| == |vs|
    ensures forall j :: 0 <= j < |r| ==> r[j] == AlertFor(severity, vs[j])
  {
    seq(|vs|, j requires 0 <= j < |vs| => AlertFor(severity, vs[j]))
  }

  /** What checking one metric comes to: its violations, or the error that stopped it. */
  datatype MetricStep = Checked(rule: MetricRule, violations: seq<Violation>) | CheckFailed(rule: MetricRule, error: string)

  function EvaluateMetric(rule: MetricRule, prom: string -> QueryReply, now: string): (s: MetricStep)
    ensures s.rule == rule
    ensures s.Checked? ==> |s.violations| <= 1
  {
    match QueryMetric(prom(QueryString(rule.name, DefaultDuration)))
    case Err(e) => CheckFailed(rule, e)
    case Ok(data) =>
      match Extract(data)
      case Err(e) => CheckFailed(rule, e)
      case Ok(values) =>
        match CheckThreshold(rule.name, rule.threshold, values, now)
        case Err(e) => CheckFailed(rule, e)
        case Ok(violations) => Checked(rule, violations)
  }

  /** The steps of one check, metric by metric. */
  function Steps(rules: seq<MetricRule>, prom: string -> QueryReply, now: string): (steps: seq<MetricStep>)
    ensures |steps| == |rules|
    ensures forall i :: 0 <= i < |rules| ==> steps[i] == EvaluateMetric(rules[i], prom, now)
  {
    seq(|rules|, i requires 0 <= i < |rules| => EvaluateMetric(rules[i], prom, now))
  }

  /**
   * One metric end to end: a successful answer in matrix shape is checked against the maximum over all
   * its series, a threshold that is not a number stops the metric with the comparison's TypeError, and a
   * failed query stops the metric with the query's error text.
   */
  lemma EvaluateMetricMeaning(rule: MetricRule, prom: string -> QueryReply, now: string, series: seq<seq<Numbers.Decimal>>)
    ensures var reply := prom(QueryString(rule.name, DefaultDuration));
      reply.Answer? && reply.statusCode == 200 && Subscript(reply.body, "status") == Ok(Str("success")) &&
      Subscript(reply.body, "data") == Ok(Matrix(series)) ==>
        if ThresholdReal(rule.threshold).Some? then
          EvaluateMetric(rule, prom, now) == Checked(rule, CheckThreshold(rule.name, rule.threshold, Flatten(series), now).value)
        else
          EvaluateMetric(rule, prom, now) ==
            CheckFailed(rule, CompareError(if Flatten(series) == [] then "int" else "float", rule.threshold))
    ensures var reply := prom(QueryString(rule.name, DefaultDuration));
      QueryMetric(reply).Err? ==> EvaluateMetric(rule, prom, now) == CheckFailed(rule, QueryMetric(reply).error)
  {
    ExtractMatrix(series);
  }

  function FailureEvent(rule: MetricRule, error: string, now: string): Audit.Event
  {
    Audit.ErrorEvent(now, Component, "Failed to check metric " + rule.name, Dict([Field("error", Str(error))]))
  }

  /** The violations found, in metric order (`all_violations`). */
  function ViolationsOf(steps: seq<MetricStep>): seq<Violation>
  {
    if steps == [] then []
    else
      var last := steps[|steps| - 1];
      ViolationsOf(steps[..|steps| - 1]) + (if last.Checked? then last.violations else [])
  }

  /** The alerts raised, in metric order and within a metric in violation order. */
  function AlertsOf(steps: seq<MetricStep>): seq<Alerting.AlertCall>
  {
    if steps == [] then []
    else
      var last := steps[|steps| - 1];
      AlertsOf(steps[..|steps| - 1]) + (if last.Checked? then AlertsFor(last.rule.severity, last.violations) else [])
  }

  /** The severity configured for the metric behind each violation, in the order of `ViolationsOf`. */
  function SeveritiesOf(steps: seq<MetricStep>): seq<string>
  {
    if steps == [] then []
    else
      var last := steps[|steps| - 1];
      SeveritiesOf(steps[..|steps| - 1]) +
        (if last.Checked? then seq(|last.violations|, j requires 0 <= j < |last.violations| => last.rule.severity) else [])
  }

  /** The error records written: one per metric whose check failed. */
  function ErrorsOf(steps: seq<MetricStep>, now: string): seq<Audit.Event>
  {
    if steps == [] then []
    else
      var last := steps[|steps| - 1];
      ErrorsOf(steps[..|steps| - 1], now) + (if last.CheckFailed? then [FailureEvent(last.rule, last.error, now)] else [])
  }

  function FailureCount(steps: seq<MetricStep>): nat
  {
    if steps == [] then 0 else FailureCount(steps[..|steps| - 1]) + (if steps[|steps| - 1].CheckFailed? then 1 else 0)
  }

  function SummaryEvent(metricCount: nat, found: seq<Violation>, now: string): Audit.Event
  {
    Audit.MonitorCheckEvent(now, "prometheus",
      Dict([Field("metrics_checked", Int(metricCount)), Field("violations_found", Int(|found|))]), found != [])
  }

  /** Everything a check writes to the audit log, in order: the failures, then the summary. */
  function CheckLog(rules: seq<MetricRule>, prom: string -> QueryReply, now: string): seq<Audit.Event>
  {
    var steps := Steps(rules, prom, now);
    ErrorsOf(steps, now) + [SummaryEvent(|rules|, ViolationsOf(steps), now)]
  }

  /**
   * Failure isolation: every metric either fails, writing one error record and raising nothing, or is
   * checked, adding at most one violation and one alert per violation.
   */
  lemma {:induction false} OutcomesPerMetric(steps: seq<MetricStep>, now: string)
    requires forall i :: 0 <= i < |steps| && steps[i].Checked? ==> |steps[i].violations| <= 1
    ensures |ErrorsOf(steps, now)| == FailureCount(steps)
    ensures |ViolationsOf(steps)| + FailureCount(steps) <= |steps|
    ensures |AlertsOf(steps)| == |ViolationsOf(steps)|
  {
    if steps != [] {
      OutcomesPerMetric(steps[..|steps| - 1], now);
    }
  }

  /**
   * Results built pointwise from two parallel lists, extended by results built from more items with
   * one fixed first argument, are still built pointwise.
   */
  lemma AppendPointwise<S, V, A>(made: seq<A>, xs: seq<S>, ys: seq<V>, f: (S, V) -> A, x: S, more: seq<V>, added: seq<A>)
    requires |made| == |xs| == |ys| && forall j :: 0 <= j < |made| ==> made[j] == f(xs[j], ys[j])
    requires |added| == |more| && forall i :: 0 <= i < |added| ==> added[i] == f(x, more[i])
    ensures var all, xs', ys' := made + added, xs + seq(|more|, i requires 0 <= i < |more| => x), ys + more;
      |all| == |xs'| == |ys'| && forall j :: 0 <= j < |all| ==> all[j] == f(xs'[j], ys'[j])
  {
    var repeated := seq(|more|, i requires 0 <= i < |more| => x);
    var all, xs', ys' := made + added, xs + repeated, ys + more;
    forall j | 0 <= j < |all|
      ensures all[j] == f(xs'[j], ys'[j])
    {
      if j >= |made| {
        var i := j - |made|;
        assert all[j] == added[i] && xs'[j] == repeated[i] && ys'[j] == more[i];
      }
    }
  }

  /** The j-th alert is the one built for the j-th violation, with the severity configured for that violation's metric. */
  lemma {:induction false} AlertsMatchViolations(steps: seq<MetricStep>)
    ensures var alerts, found, severities := AlertsOf(steps), ViolationsOf(steps), SeveritiesOf(steps);
      |alerts| == |found| == |severities| &&
      forall j :: 0 <= j < |alerts| ==> alerts[j] == AlertFor(severities[j], found[j])
  {
    if steps != [] {
      var init, last := steps[..|steps| - 1], steps[|steps| - 1];
      AlertsMatchViolations(init);
      if last.Checked? {
        AppendPointwise(AlertsOf(init), SeveritiesOf(init), ViolationsOf(init), AlertFor, last.rule.severity,
                        last.violations, AlertsFor(last.rule.severity, last.violations));
      }
    }
  }

  /** The summary counts the metrics and the violations, and flags issues exactly when there are violations. */
  lemma SummaryMeaning(metricCount: nat, found: seq<Violation>, now: string)
    ensures var s := SummaryEvent(metricCount, found, now);
      var metrics := Get(s.details, "metrics");
      && s.eventType == "monitor_check" && s.severity == "info"
      && Get(s.details, "issues_found") == Some(Bool(found != []))
      && metrics.Some?
      && Get(metrics.value, "metrics_checked") == Some(Int(metricCount))
      && Get(metrics.value, "violations_found") == Some(Int(|found|))
  {
    var metrics := Dict([Field("metrics_checked", Int(metricCount)), Field("violations_found", Int(|found|))]);
    Audit.MonitorCheckDetailsFields("prometheus", metrics, found != []);
    assert metrics.fields[1..] == [metrics.fields[1]];
    assert "violations_found" != "metrics_checked";
    assert Lookup(metrics.fields[1..], "violations_found") == Some(Int(|found|));
  }

  /** Every step that failed leaves its own error record. */
  lemma {:induction false} FailureRecorded(steps: seq<MetricStep>, i: nat, now: string)
    requires i < |steps| && steps[i].CheckFailed?
    ensures FailureEvent(steps[i].rule, steps[i].error, now) in ErrorsOf(steps, now)
  {
    if i < |steps| - 1 {
      FailureRecorded(steps[..|steps| - 1], i, now);
    }
  }

  /**
   * A metric whose threshold `>` cannot compare with a number (a quoted `"90"`, an empty entry) is caught
   * by the per-metric handler: it writes one `Failed to check metric` record carrying the TypeError text,
   * the other metrics are evaluated as before, and the summary record still ends the log.
   */
  lemma NonNumericThresholdRecorded(rules: seq<MetricRule>, k: nat, prom: string -> QueryReply, now: string,
                                    series: seq<seq<Numbers.Decimal>>)
    requires k < |rules| && ThresholdReal(rules[k].threshold).None?
    requires var reply := prom(QueryString(rules[k].name, DefaultDuration));
      reply.Answer? && reply.statusCode == 200 && Subscript(reply.body, "status") == Ok(Str("success")) &&
      Subscript(reply.body, "data") == Ok(Matrix(series))
    ensures var error := CompareError(if Flatten(series) == [] then "int" else "float", rules[k].threshold);
      FailureEvent(rules[k], error, now) in CheckLog(rules, prom, now)
    ensures forall i :: 0 <= i < |rules| ==> Steps(rules, prom, now)[i] == EvaluateMetric(rules[i], prom, now)
    ensures var log := CheckLog(rules, prom, now);
      log[|log| - 1] == SummaryEvent(|rules|, ViolationsOf(Steps(rules, prom, now)), now)
  {
    var steps := Steps(rules, prom, now);
    EvaluateMetricMeaning(rules[k], prom, now, series);
    FailureRecorded(steps, k, now);
  }

  /** One more step extends the violations, alerts and error records by that step's own contribution. */
  lemma StepsAppend(steps: seq<MetricStep>, step: MetricStep, now: string)
    ensures ViolationsOf(steps + [step]) == ViolationsOf(steps) + (if step.Checked? then step.violations else [])
    ensures AlertsOf(steps + [step]) == AlertsOf(steps) + (if step.Checked? then AlertsFor(step.rule.severity, step.violations) else [])
    ensures ErrorsOf(steps + [step], now) == ErrorsOf(steps, now) + (if step.CheckFailed? then [FailureEvent(step.rule, step.error, now)] else [])
  {
    assert (steps + [step])[..|steps|] == steps;
  }

  class PrometheusMonitor {
    const endpoint: string
    const metrics: seq<MetricRule>
    const interval: Value
    const audit: Audit.AuditLogger

    constructor (endpoint: string, metrics: seq<MetricRule>, interval: Value, audit: Audit.AuditLogger)
      ensures this.endpoint == endpoint && this.metrics == metrics && this.interval == interval && this.audit == audit
    {
      this.endpoint := endpoint;
      this.metrics := metrics;
      this.interval := interval;
      this.audit := audit;
    }

    /** The body of the per-metric `try`: query, extract, compare, and raise the alerts or record the failure. */
    method CheckMetric(rule: MetricRule, prom: string -> QueryReply, now: string) returns (raised: seq<Alerting.AlertCall>, step: MetricStep)
      modifies audit`records
      ensures step == EvaluateMetric(rule, prom, now)
      ensures raised == (if step.Checked? then AlertsFor(rule.severity, step.violations) else [])
      ensures audit.records == old(audit.records) +
        audit.Admit(if step.CheckFailed? then [FailureEvent(rule, step.error, now)] else [])
    {
      var queried := QueryMetric(prom(QueryString(rule.name, DefaultDuration)));
      var values: Result<seq<Numbers.Decimal>, string>;
      if queried.Err? {
        values := Err(queried.error);
      } else {
        values := ExtractValues(queried.value);
      }
      var checked: Result<seq<Violation>, string>;
      if values.Err? {
        checked := Err(values.error);
      } else {
        checked := CheckThreshold(rule.name, rule.threshold, values.value, now);
      }
      raised := [];
      if checked.Err? {
        step := CheckFailed(rule, checked.error);
        audit.LogError(Component, "Failed to check metric " + rule.name, Dict([Field("error", Str(checked.error))]), now);
      } else {
        var violations := checked.value;
        step := Checked(rule, violations);
        var j := 0;
        while j < |violations|
          invariant 0 <= j <= |violations|
          invariant raised == AlertsFor(rule.severity, violations[..j])
        {
          assert AlertsFor(rule.severity, violations[..j + 1]) ==
            AlertsFor(rule.severity, violations[..j]) + [AlertFor(rule.severity, violations[j])];
          raised := raised + [AlertFor(rule.severity, violations[j])];
          j := j + 1;
        }
        assert violations[..j] == violations;
      }
    }

    /** The per-metric loop of `check`: every metric is evaluated, whatever happened to the ones before. */
    method CheckAll(prom: string -> QueryReply, now: string) returns (alerts: seq<Alerting.AlertCall>, found: seq<Violation>)
      modifies audit`records
      ensures alerts == AlertsOf(Steps(metrics, prom, now))
      ensures found == ViolationsOf(Steps(metrics, prom, now))
      ensures audit.records == old(audit.records) + audit.Admit(ErrorsOf(Steps(metrics, prom, now), now))
    {
      ghost var steps: seq<MetricStep> := [];
      ghost var errors: seq<Audit.Event> := [];
      found := [];
      alerts := [];
      var k := 0;
      while k < |metrics|
        invariant 0 <= k <= |metrics|
        invariant steps == Steps(metrics, prom, now)[..k]
        invariant found == ViolationsOf(steps)
        invariant alerts == AlertsOf(steps)
        invariant errors == ErrorsOf(steps, now)
        invariant audit.records == old(audit.records) + audit.Admit(errors)
      {
        alerts, found, steps, errors := CheckNext(k, alerts, found, steps, errors, old(audit.records), prom, now);
        k := k + 1;
      }
      assert steps == Steps(metrics, prom, now);
    }

    /** One round of the per-metric loop: metric `k` is checked and its outcome appended. */
    method CheckNext(k: nat, alerts: seq<Alerting.AlertCall>, found: seq<Violation>, ghost steps: seq<MetricStep>,
                     ghost errors: seq<Audit.Event>, ghost start: seq<Audit.Event>, prom: string -> QueryReply, now: string)
      returns (alerts': seq<Alerting.AlertCall>, found': seq<Violation>, ghost steps': seq<MetricStep>, ghost errors': seq<Audit.Event>)
      requires k < |metrics| && steps == Steps(metrics, prom, now)[..k]
      requires found == ViolationsOf(steps) && alerts == AlertsOf(steps) && errors == ErrorsOf(steps, now)
      requires audit.records == start + audit.Admit(errors)
      modifies audit`records
      ensures steps' == Steps(metrics, prom, now)[..k + 1]
      ensures found' == ViolationsOf(steps') && alerts' == AlertsOf(steps') && errors' == ErrorsOf(steps', now)
      ensures audit.records == start + audit.Admit(errors')
    {
      var raised, step := CheckMetric(metrics[k], prom, now);
      ghost var added := if step.CheckFailed? then [FailureEvent(step.rule, step.error, now)] else [];
      audit.AdmitConcat(errors, added);
      AppendAssociative(start, audit.Admit(errors), audit.Admit(added));
      found' := if step.Checked? then found + step.violations else found;
      alerts' := alerts + raised;
      StepsAppend(steps, step, now);
      ghost var all := Steps(metrics, prom, now);
      assert all[k] == step;
      TakeOneMore(all, k);
      steps' := steps + [step];
      errors' := errors + added;
    }

    /** `check`: returns the alerts handed to the alert manager, in order, and appends the check's records. */
    method Check(prom: string -> QueryReply, now: string) returns (alerts: seq<Alerting.AlertCall>)
      modifies audit`records
      ensures alerts == AlertsOf(Steps(metrics, prom, now))
      ensures audit.records == old(audit.records) + audit.Admit(CheckLog(metrics, prom, now))
    {
      var found;
      alerts, found := CheckAll(prom, now);
      audit.LogMonitorCheck("prometheus",
        Dict([Field("metrics_checked", Int(|metrics|)), Field("violations_found", Int(|found|))]), found != [], now);
    }
  }
}
