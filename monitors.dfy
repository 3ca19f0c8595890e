/**
 * `DeviceMonitor.determine_status`: a three-strike failure debouncer followed
 * by ordered threshold rules, and what it does over a sequence of polls.
 */
module Monitors {
  import opened Wrappers
  import opened Monitoring

  /** `self.max_failures` */
  const MaxFailures: nat := 3

  /** Some metric that has a threshold is at or above it. */
  ghost predicate Reaches(metrics: MetricMap, limits: MetricMap) {
    exists k :: k in metrics && k in limits && metrics[k] >= limits[k]
  }

  /** The status of a probe that reported no error, rules tried in order. */
  ghost function Classify(config: DeviceConfig, metrics: MetricMap, responseTime: real): (st: Status)
    ensures st == Online || st == Warning || st == Critical
    ensures st == Online ==> !Reaches(metrics, config.criticalThresholds) && !Reaches(metrics, config.warningThresholds)
  {
    if Reaches(metrics, config.criticalThresholds) then Critical
    else if Reaches(metrics, config.warningThresholds) then Warning
    else if responseTime >= Get(config.criticalThresholds, "response_time", 5000.0) then Critical
    else if responseTime >= Get(config.warningThresholds, "response_time", 2000.0) then Warning
    else Online
  }

  /** The arguments of one `determine_status` call. */
  datatype Observation = Observation(metrics: MetricMap, responseTime: real, error: Option<string>)

  predicate Failed(o: Observation) {
    Truthy(o.error)
  }

  /** The new failure count and the status returned. */
  datatype Verdict = Verdict(failures: nat, status: Status)

  /** One `determine_status` call on a monitor whose count is `failures`. */
  ghost function Assess(config: DeviceConfig, failures: nat, o: Observation): (v: Verdict)
    ensures v.failures == 0 <==> !Failed(o)
    ensures v.status == Offline <==> Failed(o) && failures + 1 >= MaxFailures
    ensures !v.status.Other?
  {
    if Failed(o) then
      Verdict(failures + 1, if failures + 1 >= MaxFailures then Offline else Warning)
    else
      Verdict(0, Classify(config, o.metrics, o.responseTime))
  }

  /** Is some metric at or above its limit? (one of the two loops of `determine_status`) */
  method AnyReaches(metrics: MetricMap, limits: MetricMap) returns (reached: bool)
    ensures reached <==> Reaches(metrics, limits)
  {
    var pending := metrics.Keys;
    while pending != {}
      invariant pending <= metrics.Keys
      invariant forall k :: k in metrics && k !in pending && k in limits ==> metrics[k] < limits[k]
      decreases pending
    {
      var k :| k in pending;
      if k in limits && metrics[k] >= limits[k] {
        return true;
      }
      pending := pending - {k};
    }
    return false;
  }

  class DeviceMonitor {
    const config: DeviceConfig
    const probe: Probe
    var lastStatus: Status
    var consecutiveFailures: nat

    constructor (probe: Probe, config: DeviceConfig)
      ensures this.probe == probe && this.config == config
      ensures consecutiveFailures == 0 && lastStatus == Other("unknown")
    {
      this.probe := probe;
      this.config := config;
      lastStatus := Other("unknown");
      consecutiveFailures := 0;
    }

    /** `determine_status(metrics, response_time, error)` */
    method DetermineStatus(metrics: MetricMap, responseTime: real, error: Option<string>) returns (status: Status)
      modifies this`consecutiveFailures
      ensures Verdict(consecutiveFailures, status)
           == Assess(config, old(consecutiveFailures), Observation(metrics, responseTime, error))
    {
      if error.Some? && error.value != "" {
        consecutiveFailures := consecutiveFailures + 1;
        if consecutiveFailures >= MaxFailures {
          return Offline;
        }
        return Warning;
      }
      consecutiveFailures := 0;
      var critical := AnyReaches(metrics, config.criticalThresholds);
      if critical {
        return Critical;
      }
      var warning := AnyReaches(metrics, config.warningThresholds);
      if warning {
        return Warning;
      }
      if responseTime >= Get(config.criticalThresholds, "response_time", 5000.0) {
        return Critical;
      } else if responseTime >= Get(config.warningThresholds, "response_time", 2000.0) {
        return Warning;
      }
      return Online;
    }
  }

  // ---------------------------------------------------------------------
  // One call

  /** A failed poll adds exactly one strike; it reports offline iff that reaches three. */
  lemma FailedCall(config: DeviceConfig, failures: nat, o: Observation)
    requires Failed(o)
    ensures Assess(config, failures, o).failures == failures + 1
    ensures Assess(config, failures, o).status == Offline <==> failures + 1 >= 3
    ensures Assess(config, failures, o).status != Offline ==> Assess(config, failures, o).status == Warning
  {
  }

  /** A successful poll clears the strikes and never reports offline. */
  lemma SucceededCall(config: DeviceConfig, failures: nat, o: Observation)
    requires !Failed(o)
    ensures Assess(config, failures, o).failures == 0
    ensures Assess(config, failures, o).status in {Online, Warning, Critical}
  {
  }

  /**
   * The rules in order: a critical metric wins; then a warning metric, even
   * over a response time at the critical level; then the response time.
   */
  lemma ThresholdOrder(config: DeviceConfig, metrics: MetricMap, responseTime: real)
    ensures Reaches(metrics, config.criticalThresholds) ==> Classify(config, metrics, responseTime) == Critical
    ensures !Reaches(metrics, config.criticalThresholds) && Reaches(metrics, config.warningThresholds)
            ==> Classify(config, metrics, responseTime) == Warning
    ensures Classify(config, metrics, responseTime) == Online <==>
              !Reaches(metrics, config.criticalThresholds) && !Reaches(metrics, config.warningThresholds)
              && responseTime < Get(config.criticalThresholds, "response_time", 5000.0)
              && responseTime < Get(config.warningThresholds, "response_time", 2000.0)
    ensures !Reaches(metrics, config.criticalThresholds) && !Reaches(metrics, config.warningThresholds) ==>
              (Classify(config, metrics, responseTime) == Critical <==>
                 responseTime >= Get(config.criticalThresholds, "response_time", 5000.0))
    ensures !Reaches(metrics, config.criticalThresholds) && !Reaches(metrics, config.warningThresholds)
            && responseTime < Get(config.criticalThresholds, "response_time", 5000.0) ==>
              (Classify(config, metrics, responseTime) == Warning <==>
                 responseTime >= Get(config.warningThresholds, "response_time", 2000.0))
  {
  }

  /** With the default thresholds: CPU 95 is critical, memory 80 a warning, memory 72 fine. */
  lemma DefaultThresholdExamples(config: DeviceConfig)
    requires config.criticalThresholds == DefaultCriticalThresholds
    requires config.warningThresholds == DefaultWarningThresholds
    ensures Classify(config, map["cpu_usage" := 95.0, "memory_usage" := 50.0], 10.0) == Critical
    ensures Classify(config, map["memory_usage" := 80.0], 6000.0) == Warning
    ensures Classify(config, map["memory_usage" := 72.0], 10.0) == Online
    ensures Classify(config, map["memory_usage" := 72.0], 2000.0) == Warning
  {
    var m1 := map["cpu_usage" := 95.0, "memory_usage" := 50.0];
    assert m1["cpu_usage"] >= DefaultCriticalThresholds["cpu_usage"];
    var m2 := map["memory_usage" := 80.0];
    assert !Reaches(m2, DefaultCriticalThresholds) by {
      forall k | k in m2 ensures !(k in DefaultCriticalThresholds && m2[k] >= DefaultCriticalThresholds[k]) {
        assert k == "memory_usage";
      }
    }
    assert m2["memory_usage"] >= DefaultWarningThresholds["memory_usage"];
    var m3 := map["memory_usage" := 72.0];
    forall k | k in m3
      ensures !(k in DefaultCriticalThresholds && m3[k] >= DefaultCriticalThresholds[k])
      ensures !(k in DefaultWarningThresholds && m3[k] >= DefaultWarningThresholds[k])
    {
      assert k == "memory_usage";
    }
  }

  // ---------------------------------------------------------------------
  // A sequence of calls on one monitor

  /** The failure count after the calls `obs`, starting from `start`. */
  ghost function FailuresAfter(config: DeviceConfig, start: nat, obs: seq<Observation>): nat
    decreases |obs|
  {
    if obs == [] then start
    else Assess(config, FailuresAfter(config, start, obs[..|obs| - 1]), obs[|obs| - 1]).failures
  }

  /** The status returned by call number `i`. */
  ghost function StatusOfCall(config: DeviceConfig, start: nat, obs: seq<Observation>, i: nat): Status
    requires i < |obs|
  {
    Assess(config, FailuresAfter(config, start, obs[..i]), obs[i]).status
  }

  /** How many of the last calls failed in a row. */
  function TrailingFailures(obs: seq<Observation>): (n: nat)
    ensures n <= |obs|
    decreases |obs|
  {
    if obs == [] || !Failed(obs[|obs| - 1]) then 0 else 1 + TrailingFailures(obs[..|obs| - 1])
  }

  /**
   * The counter is the number of trailing failed calls; only when every call
   * failed does the starting count still show.
   */
  lemma {:induction false} FailuresCountTrailing(config: DeviceConfig, start: nat, obs: seq<Observation>)
    ensures FailuresAfter(config, start, obs)
         == if TrailingFailures(obs) == |obs| then start + |obs| else TrailingFailures(obs)
    decreases |obs|
  {
    if obs != [] {
      FailuresCountTrailing(config, start, obs[..|obs| - 1]);
    }
  }

  /** From a fresh monitor, call `i` reports offline iff it ends a run of at least three failures. */
  lemma OfflineIffThreeStrikes(config: DeviceConfig, obs: seq<Observation>, i: nat)
    requires i < |obs|
    ensures StatusOfCall(config, 0, obs, i) == Offline <==> TrailingFailures(obs[..i + 1]) >= 3
  {
    var before := obs[..i];
    assert obs[..i + 1][..i] == before;
    FailuresCountTrailing(config, 0, before);
    assert obs[..i + 1][i] == obs[i];
  }

  /** Three failed calls in a row report offline on the third, whatever came before. */
  lemma ThirdStrikeOffline(config: DeviceConfig, start: nat, obs: seq<Observation>)
    requires |obs| == 3 && Failed(obs[0]) && Failed(obs[1]) && Failed(obs[2])
    ensures StatusOfCall(config, start, obs, 2) == Offline
  {
    var two := obs[..2];
    assert two[..1] == obs[..1] && two[1] == obs[1];
    assert obs[..1][..0] == [] && obs[..1][0] == obs[0];
    assert TrailingFailures(two) == 2;
    FailuresCountTrailing(config, start, two);
  }

  /** Two failures then a success, on a fresh monitor: never offline, and the count is back to 0. */
  lemma TwoStrikesThenSuccess(config: DeviceConfig, obs: seq<Observation>)
    requires |obs| == 3 && Failed(obs[0]) && Failed(obs[1]) && !Failed(obs[2])
    ensures forall i :: 0 <= i < 3 ==> StatusOfCall(config, 0, obs, i) != Offline
    ensures StatusOfCall(config, 0, obs, 0) == Warning && StatusOfCall(config, 0, obs, 1) == Warning
    ensures FailuresAfter(config, 0, obs) == 0
  {
    assert obs[..1][..0] == [] && obs[..1][0] == obs[0];
    assert obs[..2][..1] == obs[..1] && obs[..2][1] == obs[1];
    assert obs[..3] == obs;
    assert TrailingFailures(obs[..1]) == 1;
    assert TrailingFailures(obs[..2]) == 2;
    assert TrailingFailures(obs) == 0;
    OfflineIffThreeStrikes(config, obs, 0);
    OfflineIffThreeStrikes(config, obs, 1);
    OfflineIffThreeStrikes(config, obs, 2);
  }
}
