/**
 * `DeviceMonitoringAgent`: which monitors a device gets (`setup_monitors`)
 * and how the results of one polling round are merged
 * (`combine_monitoring_results`).
 */
module Agent {
  import opened Wrappers
  import opened PyStrings
  import opened Monitoring
  import opened Monitors

  // ---------------------------------------------------------------------
  // Monitor set-up

  /** The probe a `monitoring_methods` entry names, after `strip().lower()`; `None` is an unknown name. */
  function ProbeOf(name: string): Option<Probe> {
    var m := Lower(Strip(name));
    if m == "ping" then Some(Ping)
    else if m == "snmp" then Some(Snmp)
    else if m == "http" then Some(Http)
    else None
  }

  /** What each `monitoring_methods` entry names, in order. */
  function Recognised(methods: seq<string>): (r: seq<Option<Probe>>)
    ensures |r| == |methods|
    ensures forall i :: 0 <= i < |methods| ==> r[i] == ProbeOf(methods[i])
  {
    seq(|methods|, i requires 0 <= i < |methods| => ProbeOf(methods[i]))
  }

  /** The present values of `os`, in order. */
  function Somes(os: seq<Option<Probe>>): seq<Probe>
    decreases |os|
  {
    if os == [] then []
    else
      var init := Somes(os[..|os| - 1]);
      match os[|os| - 1]
      case Some(p) => init + [p]
      case None => init
  }

  /** The probes `setup_monitors` creates for `methods`, in order; unknown names are skipped. */
  function MonitorKinds(methods: seq<string>): (ks: seq<Probe>)
    ensures |ks| <= |methods|
  {
    SomesCount(Recognised(methods));
    Somes(Recognised(methods))
  }

  /** The probe kinds of a list of monitors. */
  function Kinds(monitors: seq<DeviceMonitor>): (ks: seq<Probe>)
    ensures |ks| == |monitors|
    ensures forall i :: 0 <= i < |monitors| ==> ks[i] == monitors[i].probe
  {
    seq(|monitors|, i requires 0 <= i < |monitors| => monitors[i].probe)
  }

  lemma SomesStep(os: seq<Option<Probe>>, i: nat)
    requires i < |os|
    ensures Somes(os[..i + 1]) == Somes(os[..i]) + (if os[i].Some? then [os[i].value] else [])
  {
    assert os[..i + 1][..i] == os[..i];
  }

  lemma KindsStep(monitors: seq<DeviceMonitor>, m: DeviceMonitor)
    ensures Kinds(monitors + [m]) == Kinds(monitors) + [m.probe]
  {
  }

  lemma {:induction false} SomesAppend(a: seq<Option<Probe>>, b: seq<Option<Probe>>)
    ensures Somes(a + b) == Somes(a) + Somes(b)
    decreases |b|
  {
    if b != [] {
      var b0 := b[..|b| - 1];
      assert (a + b)[..|a + b| - 1] == a + b0;
      assert (a + b)[|a + b| - 1] == b[|b| - 1];
      SomesAppend(a, b0);
      assert Somes(a + b) == Somes(a + b0) + Somes([b[|b| - 1]]);
      assert Somes(b) == Somes(b0) + Somes([b[|b| - 1]]);
    } else {
      assert a + b == a;
    }
  }

  lemma {:induction false} SomesCount(os: seq<Option<Probe>>)
    ensures |Somes(os)| <= |os|
    ensures Somes(os) == [] <==> forall i :: 0 <= i < |os| ==> os[i].None?
    ensures forall p :: p in Somes(os) ==> exists i :: 0 <= i < |os| && os[i] == Some(p)
    decreases |os|
  {
    if os != [] {
      var init := os[..|os| - 1];
      SomesCount(init);
      assert forall i :: 0 <= i < |init| ==> init[i] == os[i];
      forall p | p in Somes(os)
        ensures exists i :: 0 <= i < |os| && os[i] == Some(p)
      {
        if p !in Somes(init) {
          assert os[|os| - 1] == Some(p);
        } else {
          var i :| 0 <= i < |init| && init[i] == Some(p);
          assert os[i] == Some(p);
        }
      }
    }
  }

  /** Set-up reads the method list left to right: it distributes over concatenation. */
  lemma MonitorKindsAppend(a: seq<string>, b: seq<string>)
    ensures MonitorKinds(a + b) == MonitorKinds(a) + MonitorKinds(b)
  {
    assert Recognised(a + b) == Recognised(a) + Recognised(b);
    SomesAppend(Recognised(a), Recognised(b));
  }

  /** One monitor per recognised entry, so never more monitors than entries; none iff no entry is recognised. */
  lemma MonitorKindsCount(methods: seq<string>)
    ensures |MonitorKinds(methods)| <= |methods|
    ensures MonitorKinds(methods) == [] <==> forall i :: 0 <= i < |methods| ==> ProbeOf(methods[i]).None?
    ensures forall p :: p in MonitorKinds(methods) ==> exists i :: 0 <= i < |methods| && ProbeOf(methods[i]) == Some(p)
  {
    var r := Recognised(methods);
    SomesCount(r);
    forall p | p in MonitorKinds(methods)
      ensures exists i :: 0 <= i < |methods| && ProbeOf(methods[i]) == Some(p)
    {
      var i :| 0 <= i < |r| && r[i] == Some(p);
      assert ProbeOf(methods[i]) == Some(p);
    }
  }

  /** A monitor as `setup_monitors` creates it: fresh counter, status unknown. */
  predicate Pristine(m: DeviceMonitor, config: DeviceConfig)
    reads m
  {
    m.config == config && m.consecutiveFailures == 0 && m.lastStatus == Other("unknown")
  }

  /** No monitor object appears twice: each has its own failure counter. */
  predicate Distinct(list: seq<DeviceMonitor>) {
    forall i, j :: 0 <= i < j < |list| ==> list[i] != list[j]
  }

  class DeviceAgent {
    /** `self.monitors`: device id to its monitors. */
    var monitors: map<string, seq<DeviceMonitor>>

    constructor ()
      ensures monitors == map[]
    {
      monitors := map[];
    }

    /** `setup_monitors(device_config)` */
    method SetupMonitors(config: DeviceConfig)
      modifies this
      ensures MonitorKinds(config.monitoringMethods) == [] ==> monitors == old(monitors)
      ensures MonitorKinds(config.monitoringMethods) != [] ==>
                config.id in monitors
                && monitors == old(monitors)[config.id := monitors[config.id]]
                && Kinds(monitors[config.id]) == MonitorKinds(config.monitoringMethods)
                && Distinct(monitors[config.id])
                && forall m :: m in monitors[config.id] ==> fresh(m) && Pristine(m, config)
    {
      var list := NewMonitors(config);
      if list != [] {
        monitors := monitors[config.id := list];
      }
    }
  }

  /** The loop of `setup_monitors`: one new monitor per recognised entry. */
  method NewMonitors(config: DeviceConfig) returns (list: seq<DeviceMonitor>)
    ensures Kinds(list) == MonitorKinds(config.monitoringMethods)
    ensures Distinct(list)
    ensures forall m :: m in list ==> fresh(m) && Pristine(m, config)
  {
    var methods := config.monitoringMethods;
    ghost var r := Recognised(methods);
    list := [];
    for i := 0 to |methods|
      invariant Kinds(list) == Somes(r[..i])
      invariant Distinct(list)
      invariant forall m :: m in list ==> fresh(m) && Pristine(m, config)
    {
      SomesStep(r, i);
      list := AddMonitor(list, ProbeOf(methods[i]), config);
    }
    assert r[..|methods|] == r;
  }

  /** One pass of that loop: a new monitor for a recognised entry, nothing for another. */
  method AddMonitor(list: seq<DeviceMonitor>, probe: Option<Probe>, config: DeviceConfig) returns (list2: seq<DeviceMonitor>)
    ensures Kinds(list2) == Kinds(list) + (if probe.Some? then [probe.value] else [])
    ensures probe.None? ==> list2 == list
    ensures probe.Some? ==> |list2| == |list| + 1 && list2[..|list|] == list && list2[|list|] !in list
    ensures forall m :: m in list2 ==> m in list || (fresh(m) && Pristine(m, config))
    ensures Distinct(list) ==> Distinct(list2)
  {
    list2 := list;
    if probe.Some? {
      var m := new DeviceMonitor(probe.value, config);
      KindsStep(list, m);
      list2 := list + [m];
    }
  }

  // ---------------------------------------------------------------------
  // Combining the results of one round

  /** `status_priority.get(status, 3)`: lower is worse. */
  function Priority(s: Status): (p: nat)
    ensures p <= 3
    ensures p == 0 <==> s == Offline
  {
    match s
    case Offline => 0
    case Critical => 1
    case Warning => 2
    case Online => 3
    case Other(_) => 3
  }

  /** `status_priority` as the code writes it, keyed by label. */
  const StatusPriorities: map<string, nat> := map["offline" := 0, "critical" := 1, "warning" := 2, "online" := 3]

  /** `Priority` agrees with `status_priority.get(label, 3)` on every label. */
  lemma PriorityIsDictGet(text: string)
    ensures Priority(StatusOf(text)) == (if text in StatusPriorities then StatusPriorities[text] else 3)
  {
  }

  /** `all_metrics` after `update` with every result's metrics in order. */
  function MergedMetrics(results: seq<DeviceMetrics>): MetricMap
    decreases |results|
  {
    if results == [] then map[]
    else MergedMetrics(results[..|results| - 1]) + results[|results| - 1].metrics
  }

  /** The index `min(results, key=...)` picks: the first result of least priority. */
  function WorstIndex(results: seq<DeviceMetrics>): (w: nat)
    requires results != []
    ensures w < |results|
    ensures forall i :: 0 <= i < |results| ==> Priority(results[w].status) <= Priority(results[i].status)
    ensures forall i :: 0 <= i < w ==> Priority(results[i].status) > Priority(results[w].status)
    decreases |results|
  {
    if |results| == 1 then 0
    else
      var w := WorstIndex(results[..|results| - 1]);
      if Priority(results[|results| - 1].status) < Priority(results[w].status) then |results| - 1 else w
  }

  lemma WorstIndexStep(results: seq<DeviceMetrics>, i: nat)
    requires i < |results|
    ensures i == 0 ==> WorstIndex(results[..i + 1]) == 0
    ensures i > 0 ==>
              var w := WorstIndex(results[..i]);
              WorstIndex(results[..i + 1]) == if Priority(results[i].status) < Priority(results[w].status) then i else w
  {
    var p := results[..i + 1];
    assert p[..i] == results[..i];
    assert p[i] == results[i];
  }

  function SumResponseTimes(results: seq<DeviceMetrics>): real
    decreases |results|
  {
    if results == [] then 0.0
    else SumResponseTimes(results[..|results| - 1]) + results[|results| - 1].responseTime
  }

  /** `[r.last_error for r in results if r.last_error]` */
  function Errors(results: seq<DeviceMetrics>): (es: seq<string>)
    ensures forall e :: e in es ==> e != ""
    decreases |results|
  {
    if results == [] then []
    else
      var init := Errors(results[..|results| - 1]);
      var r := results[|results| - 1];
      if Truthy(r.lastError) then init + [r.lastError.value] else init
  }

  /** What `combine_monitoring_results(results)` returns, without the timestamp. */
  function Combine(results: seq<DeviceMetrics>): (c: Option<DeviceMetrics>)
    ensures c.None? <==> results == []
    ensures c.Some? ==> c.value.deviceId == results[0].deviceId && c.value.monitoringMethod == "combined"
    ensures c.Some? ==> c.value.status in set r | r in results :: r.status
  {
    if results == [] then None
    else
      var errors := Errors(results);
      Some(DeviceMetrics(
        results[0].deviceId,
        results[WorstIndex(results)].status,
        MergedMetrics(results),
        SumResponseTimes(results) / |results| as real,
        if errors == [] then None else Some(Join(errors, "; ")),
        "combined"))
  }

  /** Extending a prefix of the results by one result extends each accumulated value by it. */
  lemma PrefixStep(results: seq<DeviceMetrics>, i: nat)
    requires i < |results|
    ensures MergedMetrics(results[..i + 1]) == MergedMetrics(results[..i]) + results[i].metrics
    ensures SumResponseTimes(results[..i + 1]) == SumResponseTimes(results[..i]) + results[i].responseTime
    ensures Errors(results[..i + 1]) ==
              Errors(results[..i]) + (if Truthy(results[i].lastError) then [results[i].lastError.value] else [])
  {
    assert results[..i + 1][..i] == results[..i];
  }

  /** `combine_monitoring_results(results)` */
  method CombineMonitoringResults(results: seq<DeviceMetrics>) returns (combined: Option<DeviceMetrics>)
    ensures combined == Combine(results)
  {
    if results == [] {
      return None;
    }
    var allMetrics: MetricMap := map[];
    var worst := 0;
    var total := 0.0;
    var errors: seq<string> := [];
    for i := 0 to |results|
      invariant allMetrics == MergedMetrics(results[..i])
      invariant total == SumResponseTimes(results[..i])
      invariant errors == Errors(results[..i])
      invariant worst == if i == 0 then 0 else WorstIndex(results[..i])
    {
      PrefixStep(results, i);
      var r := results[i];
      allMetrics := allMetrics + r.metrics;
      if i > 0 && Priority(r.status) < Priority(results[worst].status) {
        worst := i;
      }
      WorstIndexStep(results, i);
      total := total + r.responseTime;
      if r.lastError.Some? && r.lastError.value != "" {
        errors := errors + [r.lastError.value];
      }
    }
    assert results[..|results|] == results;
    var combinedError := if errors == [] then None else Some(Join(errors, "; "));
    return Some(DeviceMetrics(results[0].deviceId, results[worst].status, allMetrics,
                              total / |results| as real, combinedError, "combined"));
  }

  /** A metric is in the merge iff some result reports it. */
  lemma {:induction false} MergedMetricsPresent(results: seq<DeviceMetrics>, k: string)
    ensures k in MergedMetrics(results) <==> exists i :: 0 <= i < |results| && k in results[i].metrics
    decreases |results|
  {
    if results != [] {
      var init := results[..|results| - 1];
      var last := |results| - 1;
      MergedMetricsPresent(init, k);
      if k in MergedMetrics(results) && k !in results[last].metrics {
        var i :| 0 <= i < |init| && k in init[i].metrics;
        assert init[i] == results[i];
      }
      if exists i :: 0 <= i < |results| && k in results[i].metrics {
        var i :| 0 <= i < |results| && k in results[i].metrics;
        if i < last {
          assert init[i] == results[i];
        }
      }
    }
  }

  /** A metric reported by result `i` and by no later result has the value result `i` gives it. */
  lemma {:induction false} MergedMetricsLastWins(results: seq<DeviceMetrics>, k: string, i: nat)
    requires i < |results| && k in results[i].metrics
    requires forall j :: i < j < |results| ==> k !in results[j].metrics
    ensures k in MergedMetrics(results) && MergedMetrics(results)[k] == results[i].metrics[k]
    decreases |results|
  {
    var last := |results| - 1;
    if i < last {
      var init := results[..last];
      assert init[i] == results[i];
      assert forall j :: i < j < |init| ==> init[j] == results[j];
      MergedMetricsLastWins(init, k, i);
      assert k !in results[last].metrics;
    }
  }

  lemma {:induction false} SumBounds(results: seq<DeviceMetrics>, lo: real, hi: real)
    requires forall i :: 0 <= i < |results| ==> lo <= results[i].responseTime <= hi
    ensures |results| as real * lo <= SumResponseTimes(results) <= |results| as real * hi
    decreases |results|
  {
    if results != [] {
      var init := results[..|results| - 1];
      assert forall i :: 0 <= i < |init| ==> init[i] == results[i];
      SumBounds(init, lo, hi);
      var n := |init| as real;
      var x := results[|results| - 1].responseTime;
      BoundsStep(n, SumResponseTimes(init), x, lo, hi);
      assert |results| as real == n + 1.0;
      assert SumResponseTimes(results) == SumResponseTimes(init) + x;
      assert |results| as real * hi == (n + 1.0) * hi;
      assert |results| as real * lo == (n + 1.0) * lo;
    }
  }

  /** Adding one value in `[lo, hi]` to a sum of `n` such values. */
  lemma BoundsStep(n: real, sum: real, x: real, lo: real, hi: real)
    requires n * lo <= sum <= n * hi && lo <= x <= hi
    ensures (n + 1.0) * lo <= sum + x <= (n + 1.0) * hi
  {
    assert (n + 1.0) * lo == n * lo + lo;
    assert (n + 1.0) * hi == n * hi + hi;
  }

  /** The truthy errors, in result order. */
  lemma {:induction false} ErrorsAreTruthy(results: seq<DeviceMetrics>)
    ensures Errors(results) == [] <==> forall i :: 0 <= i < |results| ==> !Truthy(results[i].lastError)
    ensures forall e :: e in Errors(results) ==> exists i :: 0 <= i < |results| && results[i].lastError == Some(e)
    decreases |results|
  {
    if results != [] {
      var init := results[..|results| - 1];
      var last := |results| - 1;
      ErrorsAreTruthy(init);
      assert forall i :: 0 <= i < |init| ==> init[i] == results[i];
      forall e | e in Errors(results)
        ensures exists i :: 0 <= i < |results| && results[i].lastError == Some(e)
      {
        if e !in Errors(init) {
          assert results[last].lastError == Some(e);
        } else {
          var i :| 0 <= i < |init| && init[i].lastError == Some(e);
          assert results[i].lastError == Some(e);
        }
      }
    }
  }

  /** One record iff there are results: the first result's device, the method `"combined"`, the merged metrics. */
  lemma CombineShape(results: seq<DeviceMetrics>)
    ensures Combine(results).None? <==> results == []
    ensures results != [] ==> Combine(results).value.deviceId == results[0].deviceId
    ensures results != [] ==> Combine(results).value.monitoringMethod == "combined"
    ensures results != [] ==> Combine(results).value.metrics == MergedMetrics(results)
  {
  }

  /** The combined status is the worst reported, taken from the first result that has it. */
  lemma CombineStatus(results: seq<DeviceMetrics>)
    requires results != []
    ensures var c := Combine(results).value;
      && (forall i :: 0 <= i < |results| ==> Priority(c.status) <= Priority(results[i].status))
      && exists w :: 0 <= w < |results| && c.status == results[w].status
                     && forall j :: 0 <= j < w ==> Priority(results[j].status) > Priority(c.status)
  {
    var w := WorstIndex(results);
    assert Combine(results).value.status == results[w].status;
  }

  /** The combined response time is the mean, so it lies between the least and greatest. */
  lemma CombineResponseTime(results: seq<DeviceMetrics>, lo: real, hi: real)
    requires results != []
    requires forall i :: 0 <= i < |results| ==> lo <= results[i].responseTime <= hi
    ensures lo <= Combine(results).value.responseTime <= hi
  {
    SumBounds(results, lo, hi);
    AverageBounds(SumResponseTimes(results), |results| as real, lo, hi);
  }

  /** An error iff some result has a truthy one; then all of them, joined by `"; "`. */
  lemma CombineError(results: seq<DeviceMetrics>)
    requires results != []
    ensures var c := Combine(results).value;
      && (c.lastError.None? <==> forall i :: 0 <= i < |results| ==> !Truthy(results[i].lastError))
      && (c.lastError.Some? ==> c.lastError.value == Join(Errors(results), "; "))
  {
    ErrorsAreTruthy(results);
  }

  lemma AverageBounds(s: real, n: real, lo: real, hi: real)
    requires n > 0.0 && n * lo <= s <= n * hi
    ensures lo <= s / n <= hi
  {
    assert s / n * n == s;
  }

  /** One offline probe makes the combined status offline. */
  lemma OfflineDominates(results: seq<DeviceMetrics>, i: nat)
    requires i < |results| && results[i].status == Offline
    ensures Combine(results).Some? && Combine(results).value.status == Offline
  {
    var w := WorstIndex(results);
    assert Priority(results[w].status) <= Priority(results[i].status);
  }
}
