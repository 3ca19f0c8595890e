/** `HTTPMonitor._parse_text_response`: CPU and memory readings from a plain-text status page. */
module TextProbe {
  import opened Wrappers
  import opened PyStrings
  import opened Monitoring

  /** `float(line.split(':')[1].strip().replace('%', ''))`; `None` when it raises. */
  function LineValue(line: string): Option<real> {
    var parts := Split(line, ":");
    if |parts| < 2 then None else ParseFloat(Replace(Strip(parts[1]), "%", ""))
  }

  /** The metric a line of a text page is about, if any (`line` already stripped and lower-cased). */
  function TextKey(line: string): Option<string> {
    if Contains(line, "cpu:") || Contains(line, "cpu usage:") then Some("cpu_usage")
    else if Contains(line, "memory:") || Contains(line, "memory usage:") then Some("memory_usage")
    else None
  }

  /** The metric and value a stripped, lower-cased line sets, if any. */
  function NormalUpdate(line: string): Update {
    match TextKey(line)
    case None => None
    case Some(k) =>
      match LineValue(line)
      case None => None
      case Some(v) => Some((k, v))
  }

  /** The update each line of a text page makes, in order. */
  function LineUpdates(lines: seq<string>): (us: seq<Update>)
    ensures |us| == |lines|
    ensures forall i :: 0 <= i < |lines| ==> us[i] == NormalUpdate(Lower(Strip(lines[i])))
  {
    seq(|lines|, i requires 0 <= i < |lines| => NormalUpdate(Lower(Strip(lines[i]))))
  }

  /** The metrics of a text page with lines `lines`; a later line overwrites an earlier one. */
  function PageMetrics(lines: seq<string>): MetricMap {
    Fold(LineUpdates(lines))
  }

  /**
   * A line about CPU is never taken for memory (the `elif`); a line sets a
   * metric iff it names one and its value converts, and then to that value.
   */
  lemma TextLineCases(line: string)
    ensures Contains(line, "cpu:") || Contains(line, "cpu usage:") ==> !Assigns(NormalUpdate(line), "memory_usage")
    ensures NormalUpdate(line).Some? <==> TextKey(line).Some? && LineValue(line).Some?
    ensures NormalUpdate(line).Some? ==> NormalUpdate(line).value.1 == LineValue(line).value
  {
  }

  /** `HTTPMonitor._parse_text_response(text)` */
  method ParseTextResponse(text: string) returns (metrics: MetricMap)
    ensures metrics == PageMetrics(Split(text, "\n"))
  {
    metrics := map[];
    var lines := Split(text, "\n");
    ghost var us := LineUpdates(lines);
    for i := 0 to |lines|
      invariant metrics == Fold(us[..i])
    {
      FoldStep(us, i);
      var u := NormalUpdate(Lower(Strip(lines[i])));
      if u.Some? {
        metrics := metrics[u.value.0 := u.value.1];
      }
    }
    assert us[..|lines|] == us;
  }

  /** The line `raw` of a text page sets metric `k`. */
  predicate SetsMetric(raw: string, k: string) {
    Assigns(NormalUpdate(Lower(Strip(raw))), k)
  }

  /** A text line only ever sets `cpu_usage` or `memory_usage`. */
  lemma TextKeys(line: string)
    ensures NormalUpdate(line).Some? ==> NormalUpdate(line).value.0 in {"cpu_usage", "memory_usage"}
  {
  }

  /** A text page yields only `cpu_usage` and `memory_usage`. */
  lemma PageMetricsKeys(lines: seq<string>)
    ensures PageMetrics(lines).Keys <= {"cpu_usage", "memory_usage"}
  {
    var us := LineUpdates(lines);
    forall i | 0 <= i < |us| && us[i].Some? ensures us[i].value.0 in {"cpu_usage", "memory_usage"} {
      TextKeys(Lower(Strip(lines[i])));
    }
    FoldKeys(us, {"cpu_usage", "memory_usage"});
  }

  /** A metric is present iff some line sets it. */
  lemma PageMetricsPresent(lines: seq<string>, k: string)
    ensures k in PageMetrics(lines) <==> exists i :: 0 <= i < |lines| && SetsMetric(lines[i], k)
  {
    var us := LineUpdates(lines);
    FoldLastWins(us, k);
    if k in PageMetrics(lines) {
      var i :| 0 <= i < |us| && Assigns(us[i], k);
      assert SetsMetric(lines[i], k);
    }
    if exists i :: 0 <= i < |lines| && SetsMetric(lines[i], k) {
      var i :| 0 <= i < |lines| && SetsMetric(lines[i], k);
      assert Assigns(us[i], k);
    }
  }

  /** A metric set by line `i` and by no later line holds the value line `i` gives it. */
  lemma PageMetricsLastLine(lines: seq<string>, k: string, i: nat)
    requires i < |lines| && SetsMetric(lines[i], k)
    requires forall j :: i < j < |lines| ==> !SetsMetric(lines[j], k)
    ensures k in PageMetrics(lines)
    ensures PageMetrics(lines)[k] == NormalUpdate(Lower(Strip(lines[i]))).value.1
  {
    var us := LineUpdates(lines);
    FoldLastWins(us, k);
    forall j | i < j < |us| ensures !Assigns(us[j], k) {
      assert !SetsMetric(lines[j], k);
    }
    assert Assigns(us[i], k);
  }
}
