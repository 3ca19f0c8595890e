/**
 * The data the monitoring agent works on: metric maps, statuses, device
 * configurations and the record a probe produces.
 */
module Monitoring {
  import opened Wrappers

  /** Metric name to value. Values are exact reals, not binary floats. */
  type MetricMap = map<string, real>

  /** `d.get(k, default)` on a metric map. */
  function Get(m: MetricMap, k: string, default: real): (v: real)
    ensures k in m ==> v == m[k]
    ensures k !in m ==> v == default
  {
    if k in m then m[k] else default
  }

  /** A status label other than the four the agent produces, such as `unknown`. */
  type OtherLabel = t: string | t != "online" && t != "warning" && t != "critical" && t != "offline"
    witness "unknown"

  /** Device status labels; `Other` is any label outside the four the agent produces. */
  datatype Status = Online | Warning | Critical | Offline | Other(text: OtherLabel)

  /** The label a status is written as. */
  function Label(s: Status): string {
    match s
    case Online => "online"
    case Warning => "warning"
    case Critical => "critical"
    case Offline => "offline"
    case Other(t) => t
  }

  /** The status a label stands for; every label stands for exactly one. */
  function StatusOf(text: string): (s: Status)
    ensures Label(s) == text
  {
    if text == "online" then Online
    else if text == "warning" then Warning
    else if text == "critical" then Critical
    else if text == "offline" then Offline
    else Other(text)
  }

  /** Labels and statuses correspond one to one. */
  lemma StatusLabelRoundTrip(s: Status)
    ensures StatusOf(Label(s)) == s
  {
  }

  /** The three probe kinds (`PingMonitor`, `SNMPMonitor`, `HTTPMonitor`). */
  datatype Probe = Ping | Snmp | Http

  /** `DeviceConfig` after `__post_init__`: threshold maps are always present. */
  datatype DeviceConfig = DeviceConfig(
    id: string,
    name: string,
    deviceType: string,
    ipAddress: string,
    location: string,
    monitoringMethods: seq<string>,
    snmpCommunity: string,
    snmpPort: int,
    snmpVersion: string,
    httpEndpoint: Option<string>,
    pollInterval: int,
    timeout: int,
    enabled: bool,
    criticalThresholds: MetricMap,
    warningThresholds: MetricMap)

  /** The thresholds `__post_init__` fills in when none are given. */
  const DefaultCriticalThresholds: MetricMap :=
    map["cpu_usage" := 90.0, "memory_usage" := 90.0, "response_time" := 5000.0]
  const DefaultWarningThresholds: MetricMap :=
    map["cpu_usage" := 70.0, "memory_usage" := 75.0, "response_time" := 2000.0]

  /** `__post_init__`: a threshold map left as `None` becomes the default one. */
  function WithDefaultThresholds(config: DeviceConfig, critical: Option<MetricMap>, warning: Option<MetricMap>): (c: DeviceConfig)
    ensures critical.None? ==> c.criticalThresholds == DefaultCriticalThresholds
    ensures critical.Some? ==> c.criticalThresholds == critical.value
    ensures warning.None? ==> c.warningThresholds == DefaultWarningThresholds
    ensures warning.Some? ==> c.warningThresholds == warning.value
    ensures c.(criticalThresholds := config.criticalThresholds, warningThresholds := config.warningThresholds) == config
  {
    config.(criticalThresholds := critical.GetOr(DefaultCriticalThresholds),
            warningThresholds := warning.GetOr(DefaultWarningThresholds))
  }

  /** `DeviceMetrics`, without its wall-clock timestamp. */
  datatype DeviceMetrics = DeviceMetrics(
    deviceId: string,
    status: Status,
    metrics: MetricMap,
    responseTime: real,
    lastError: Option<string>,
    monitoringMethod: string)

  /** Python truthiness of an optional string: present and non-empty. */
  predicate Truthy(s: Option<string>) {
    s.Some? && s.value != ""
  }

  // ---------------------------------------------------------------------
  // Successive assignments into a metric map

  /** One optional assignment `metrics[name] = value`. */
  type Update = Option<(string, real)>

  /** `m` after the update `u`. */
  function Apply(m: MetricMap, u: Update): MetricMap {
    if u.Some? then m[u.value.0 := u.value.1] else m
  }

  /** The update `u` assigns metric `k`. */
  predicate Assigns(u: Update, k: string) {
    u.Some? && u.value.0 == k
  }

  /** The map built from `{}` by the updates `us`, in order. */
  function Fold(us: seq<Update>): MetricMap
    decreases |us|
  {
    if us == [] then map[] else Apply(Fold(us[..|us| - 1]), us[|us| - 1])
  }

  /** Extending the updates by one applies that one last. */
  lemma FoldStep(us: seq<Update>, i: nat)
    requires i < |us|
    ensures Fold(us[..i + 1]) == Apply(Fold(us[..i]), us[i])
  {
    assert us[..i + 1][..i] == us[..i];
  }

  /**
   * After a sequence of assignments, a metric is present iff some update
   * assigns it, and then holds the value of the last update that does.
   */
  lemma {:induction false} FoldLastWins(us: seq<Update>, k: string)
    ensures k in Fold(us) <==> exists i :: 0 <= i < |us| && Assigns(us[i], k)
    ensures forall i :: 0 <= i < |us| && Assigns(us[i], k)
                     && (forall j :: i < j < |us| ==> !Assigns(us[j], k))
                     ==> k in Fold(us) && Fold(us)[k] == us[i].value.1
    decreases |us|
  {
    if us != [] {
      var init := us[..|us| - 1];
      var last := |us| - 1;
      FoldLastWins(init, k);
      assert forall i :: 0 <= i < last ==> init[i] == us[i];
      if k in Fold(us) && !Assigns(us[last], k) {
        var i :| 0 <= i < |init| && Assigns(init[i], k);
        assert Assigns(us[i], k);
      }
      if exists i :: 0 <= i < |us| && Assigns(us[i], k) {
        var i :| 0 <= i < |us| && Assigns(us[i], k);
        if i < last {
          assert Assigns(init[i], k);
        }
      }
    }
  }

  /** A metric outside `names` that no update assigns stays absent. */
  lemma FoldKeys(us: seq<Update>, names: set<string>)
    requires forall i :: 0 <= i < |us| && us[i].Some? ==> us[i].value.0 in names
    ensures Fold(us).Keys <= names
  {
    forall k | k in Fold(us) ensures k in names {
      FoldLastWins(us, k);
    }
  }
}
