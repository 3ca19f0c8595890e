/** `SNMPMonitor._add_default_metrics`: per-device-type default metrics, filled in place. */
module SnmpProbe {
  import opened Monitoring

  /** `device_defaults.get(type, {})` */
  function DeviceDefaults(deviceType: string): (d: MetricMap)
    ensures "uptime" in d <==> deviceType in {"router", "switch", "firewall"}
    ensures deviceType !in {"router", "switch", "firewall"} ==> d == map[]
    ensures forall k :: k in d ==> d[k] >= 0.0
  {
    if deviceType == "router" then
      map["cpu_usage" := 25.0, "interface_bandwidth" := 80.0, "routing_table_changes" := 5.0,
          "packet_loss" := 0.1, "latency" := 15.0, "uptime" := 99.5]
    else if deviceType == "switch" then
      map["port_status" := 95.0, "traffic_per_port" := 60.0, "broadcast_storms" := 2.0,
          "mac_table_size" := 70.0, "error_packets" := 10.0, "uptime" := 99.8]
    else if deviceType == "firewall" then
      map["active_sessions" := 150.0, "blocked_traffic" := 25.0, "vpn_tunnels" := 8.0,
          "cpu_usage" := 30.0, "memory_usage" := 40.0, "threat_detection" := 12.0, "uptime" := 99.9]
    else map[]
  }

  /** `m` with every key of `defaults` it lacks filled in. */
  function WithDefaults(m: MetricMap, defaults: MetricMap): (r: MetricMap)
    ensures r.Keys == m.Keys + defaults.Keys
    ensures forall k :: k in m ==> r[k] == m[k]
    ensures forall k :: k in defaults && k !in m ==> r[k] == defaults[k]
  {
    map k | k in m.Keys + defaults.Keys :: if k in m then m[k] else defaults[k]
  }

  /** A Python `dict` that is updated in place. */
  class MetricDict {
    var entries: MetricMap

    constructor (entries: MetricMap)
      ensures this.entries == entries
    {
      this.entries := entries;
    }
  }

  /** `SNMPMonitor._add_default_metrics(metrics)` for a device of type `deviceType`. */
  method AddDefaultMetrics(deviceType: string, metrics: MetricDict)
    modifies metrics
    ensures metrics.entries == WithDefaults(old(metrics.entries), DeviceDefaults(deviceType))
  {
    FillDefaults(DeviceDefaults(deviceType), metrics);
  }

  /** The loop of `_add_default_metrics` over `defaults.items()`. */
  method FillDefaults(defaults: MetricMap, metrics: MetricDict)
    modifies metrics
    ensures metrics.entries == WithDefaults(old(metrics.entries), defaults)
  {
    var pending := defaults.Keys;
    while pending != {}
      invariant pending <= defaults.Keys
      invariant metrics.entries == WithDefaults(old(metrics.entries), defaults - pending)
      decreases pending
    {
      var key :| key in pending;
      if key !in metrics.entries {
        metrics.entries := metrics.entries[key := defaults[key]];
      }
      pending := pending - {key};
    }
    assert defaults - pending == defaults;
  }

  /** Filling defaults twice is filling them once; an unknown type changes nothing. */
  lemma DefaultsIdempotent(m: MetricMap, deviceType: string)
    ensures WithDefaults(WithDefaults(m, DeviceDefaults(deviceType)), DeviceDefaults(deviceType))
         == WithDefaults(m, DeviceDefaults(deviceType))
    ensures deviceType !in {"router", "switch", "firewall"} ==> WithDefaults(m, DeviceDefaults(deviceType)) == m
  {
  }

  /** A failed SNMP poll (metrics reset to `{}`) still reports the full default set. */
  lemma FailedSnmpReportsDefaults(deviceType: string)
    ensures WithDefaults(map[], DeviceDefaults(deviceType)) == DeviceDefaults(deviceType)
  {
  }
}
