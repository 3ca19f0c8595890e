/** `HTTPMonitor._parse_http_response`: metrics from a decoded JSON status reply. */
module HttpProbe {
  import opened Wrappers
  import opened PyStrings
  import opened Monitoring

  /** A decoded JSON value. */
  datatype Json =
    | JNull
    | JBool(b: bool)
    | JNumber(n: real)
    | JString(s: string)
    | JArray(items: seq<Json>)
    | JObject(fields: map<string, Json>)

  /** `float(x)` on a decoded JSON value; `None` is the `ValueError` or `TypeError`. */
  function ToFloat(j: Json): (r: Option<real>)
    ensures j.JNumber? ==> r == Some(j.n)
    ensures j.JString? ==> r == ParseFloat(j.s)
    ensures j.JBool? ==> r == Some(if j.b then 1.0 else 0.0)
    ensures j.JNull? || j.JArray? || j.JObject? ==> r.None?
  {
    match j
    case JNumber(n) => Some(n)
    case JBool(b) => Some(if b then 1.0 else 0.0)
    case JString(s) => ParseFloat(s)
    case _ => None
  }

  /** `field_mappings`, in its iteration order: reply field, metric. */
  const FieldMappings: seq<(string, string)> := [
    ("cpu", "cpu_usage"), ("cpu_usage", "cpu_usage"), ("cpu_percent", "cpu_usage"),
    ("memory", "memory_usage"), ("memory_usage", "memory_usage"), ("memory_percent", "memory_usage"),
    ("uptime", "uptime"), ("temperature", "temperature"), ("temp", "temperature"),
    ("load", "cpu_load"), ("load_avg", "cpu_load")]

  /** Reply field `f` is present and `float()` accepts it. */
  predicate Converts(data: map<string, Json>, f: string) {
    f in data && ToFloat(data[f]).Some?
  }

  /** The assignment one entry of the guarded mapping loop makes, if any. */
  function FieldUpdate(data: map<string, Json>, mapping: (string, string)): Update {
    if Converts(data, mapping.0) then Some((mapping.1, ToFloat(data[mapping.0]).value)) else None
  }

  function FieldUpdates(data: map<string, Json>, mappings: seq<(string, string)>): (us: seq<Update>)
    ensures |us| == |mappings|
    ensures forall i :: 0 <= i < |mappings| ==> us[i] == FieldUpdate(data, mappings[i])
  {
    seq(|mappings|, i requires 0 <= i < |mappings| => FieldUpdate(data, mappings[i]))
  }

  /** The metrics the guarded mapping loop over `mappings` produces. */
  function MapFields(data: map<string, Json>, mappings: seq<(string, string)>): MetricMap {
    Fold(FieldUpdates(data, mappings))
  }

  /** Store `float(x)` under `k`; `None` when `float` raises, which nothing catches. */
  function StoreFloat(m: MetricMap, k: string, x: Json): Option<MetricMap> {
    match ToFloat(x)
    case Some(v) => Some(m[k := v])
    case None => None
  }

  /** `isinstance(data[outer], dict) and inner in data[outer]` */
  predicate HasNested(data: map<string, Json>, outer: string, inner: string) {
    outer in data && data[outer].JObject? && inner in data[outer].fields
  }

  /** The router-specific part; its conversions are not guarded. */
  function RouterFields(data: map<string, Json>, m: MetricMap): Option<MetricMap> {
    var m1 :=
      if HasNested(data, "interfaces", "utilization")
      then StoreFloat(m, "interface_bandwidth", data["interfaces"].fields["utilization"])
      else Some(m);
    match m1
    case None => None
    case Some(m2) =>
      if HasNested(data, "routing", "changes")
      then StoreFloat(m2, "routing_table_changes", data["routing"].fields["changes"])
      else Some(m2)
  }

  /** Store `float(data[f])` under `k` when `f` is present; unguarded. */
  function StoreIfPresent(data: map<string, Json>, m: Option<MetricMap>, f: string, k: string): Option<MetricMap> {
    match m
    case None => None
    case Some(m1) => if f in data then StoreFloat(m1, k, data[f]) else Some(m1)
  }

  /** The firewall-specific part; its conversions are not guarded. */
  function FirewallFields(data: map<string, Json>, m: MetricMap): Option<MetricMap> {
    var m1 := StoreIfPresent(data, Some(m), "sessions", "active_sessions");
    var m2 := StoreIfPresent(data, m1, "blocked", "blocked_traffic");
    StoreIfPresent(data, m2, "vpn", "vpn_tunnels")
  }

  /** What `_parse_http_response` returns for a reply that is a JSON object. */
  function ObjectMetrics(deviceType: string, data: map<string, Json>): Option<MetricMap> {
    var m := MapFields(data, FieldMappings);
    if deviceType == "router" then RouterFields(data, m)
    else if deviceType == "firewall" then FirewallFields(data, m)
    else Some(m)
  }

  /** `f in data` for a list (an element equal to `f`) or a string (a substring). */
  predicate Member(data: Json, f: string)
    requires data.JArray? || data.JString?
  {
    if data.JArray? then JString(f) in data.items else Contains(data.s, f)
  }

  /**
   * What `_parse_http_response` returns for a list or a string: every
   * `data[api_field]` raises a `TypeError` the mapping loop catches, so it
   * stores nothing; a router or firewall field found by `in` is indexed
   * outside any `try`, and that `TypeError` escapes.
   */
  function SequenceMetrics(deviceType: string, data: Json): (r: Option<MetricMap>)
    requires data.JArray? || data.JString?
    ensures r.Some? ==> r.value == map[]
    ensures r.None? ==> deviceType == "router" || deviceType == "firewall"
  {
    if deviceType == "router" && (Member(data, "interfaces") || Member(data, "routing")) then None
    else if deviceType == "firewall" && (Member(data, "sessions") || Member(data, "blocked") || Member(data, "vpn")) then None
    else Some(map[])
  }

  /**
   * What `_parse_http_response(data)` returns; `None` when an exception
   * escapes it. For `null`, a number or a boolean the first `in` test raises.
   */
  function HttpMetrics(deviceType: string, data: Json): Option<MetricMap> {
    match data
    case JObject(fields) => ObjectMetrics(deviceType, fields)
    case JArray(_) => SequenceMetrics(deviceType, data)
    case JString(_) => SequenceMetrics(deviceType, data)
    case _ => None
  }

  /** `HTTPMonitor._parse_http_response(data)` for a device of type `deviceType`. */
  method ParseHttpResponse(deviceType: string, data: Json) returns (metrics: Option<MetricMap>)
    ensures metrics == HttpMetrics(deviceType, data)
  {
    match data {
      case JObject(fields) =>
        metrics := ParseObject(deviceType, fields);
      case JArray(_) =>
        metrics := ParseSequence(deviceType, data);
      case JString(_) =>
        metrics := ParseSequence(deviceType, data);
      case JNull =>
        metrics := None;
      case JBool(_) =>
        metrics := None;
      case JNumber(_) =>
        metrics := None;
    }
  }

  /** `_parse_http_response` on a list or a string. */
  method ParseSequence(deviceType: string, data: Json) returns (metrics: Option<MetricMap>)
    requires data.JArray? || data.JString?
    ensures metrics == SequenceMetrics(deviceType, data)
  {
    if deviceType == "router" {
      if Member(data, "interfaces") || Member(data, "routing") {
        return None;
      }
    } else if deviceType == "firewall" {
      if Member(data, "sessions") || Member(data, "blocked") || Member(data, "vpn") {
        return None;
      }
    }
    return Some(map[]);
  }

  /** `_parse_http_response` on a JSON object with fields `data`. */
  method ParseObject(deviceType: string, data: map<string, Json>) returns (metrics: Option<MetricMap>)
    ensures metrics == ObjectMetrics(deviceType, data)
  {
    var m: MetricMap := map[];
    ghost var us := FieldUpdates(data, FieldMappings);
    for i := 0 to |FieldMappings|
      invariant m == Fold(us[..i])
    {
      FoldStep(us, i);
      var (field, metric) := FieldMappings[i];
      if field in data {
        var v := ToFloat(data[field]);
        if v.Some? {
          m := m[metric := v.value];
        }
      }
    }
    assert us[..|FieldMappings|] == us;
    if deviceType == "router" {
      if "interfaces" in data && data["interfaces"].JObject? && "utilization" in data["interfaces"].fields {
        var v := ToFloat(data["interfaces"].fields["utilization"]);
        if v.None? {
          return None;
        }
        m := m["interface_bandwidth" := v.value];
      }
      if "routing" in data && data["routing"].JObject? && "changes" in data["routing"].fields {
        var v := ToFloat(data["routing"].fields["changes"]);
        if v.None? {
          return None;
        }
        m := m["routing_table_changes" := v.value];
      }
    } else if deviceType == "firewall" {
      if "sessions" in data {
        var v := ToFloat(data["sessions"]);
        if v.None? {
          return None;
        }
        m := m["active_sessions" := v.value];
      }
      if "blocked" in data {
        var v := ToFloat(data["blocked"]);
        if v.None? {
          return None;
        }
        m := m["blocked_traffic" := v.value];
      }
      if "vpn" in data {
        var v := ToFloat(data["vpn"]);
        if v.None? {
          return None;
        }
        m := m["vpn_tunnels" := v.value];
      }
    }
    return Some(m);
  }

  /**
   * A mapped metric is present iff some field mapped to it converts, and
   * then holds the value of the last such field in mapping order.
   */
  lemma MapFieldsLastWins(data: map<string, Json>, mappings: seq<(string, string)>, k: string)
    ensures k in MapFields(data, mappings) <==>
              exists i :: 0 <= i < |mappings| && mappings[i].1 == k && Converts(data, mappings[i].0)
    ensures forall i :: 0 <= i < |mappings| && mappings[i].1 == k && Converts(data, mappings[i].0)
                     && (forall j :: i < j < |mappings| ==> !(mappings[j].1 == k && Converts(data, mappings[j].0)))
                     ==> k in MapFields(data, mappings)
                         && MapFields(data, mappings)[k] == ToFloat(data[mappings[i].0]).value
  {
    var us := FieldUpdates(data, mappings);
    FoldLastWins(us, k);
    assert forall i :: 0 <= i < |mappings| ==>
      (Assigns(us[i], k) <==> mappings[i].1 == k && Converts(data, mappings[i].0));
  }

  /** `cpu_percent` beats `cpu_usage`, which beats `cpu`. */
  lemma CpuFieldPrecedence(data: map<string, Json>)
    ensures Converts(data, "cpu_percent") ==>
              "cpu_usage" in MapFields(data, FieldMappings) &&
              MapFields(data, FieldMappings)["cpu_usage"] == ToFloat(data["cpu_percent"]).value
    ensures !Converts(data, "cpu_percent") && Converts(data, "cpu_usage") ==>
              "cpu_usage" in MapFields(data, FieldMappings) &&
              MapFields(data, FieldMappings)["cpu_usage"] == ToFloat(data["cpu_usage"]).value
    ensures !Converts(data, "cpu_percent") && !Converts(data, "cpu_usage") && Converts(data, "cpu") ==>
              "cpu_usage" in MapFields(data, FieldMappings) &&
              MapFields(data, FieldMappings)["cpu_usage"] == ToFloat(data["cpu"]).value
    ensures !Converts(data, "cpu_percent") && !Converts(data, "cpu_usage") && !Converts(data, "cpu") ==>
              "cpu_usage" !in MapFields(data, FieldMappings)
  {
    var fm := FieldMappings;
    MapFieldsLastWins(data, fm, "cpu_usage");
    assert forall j :: 3 <= j < |fm| ==> fm[j].1 != "cpu_usage";
    assert fm[0] == ("cpu", "cpu_usage") && fm[1] == ("cpu_usage", "cpu_usage") && fm[2] == ("cpu_percent", "cpu_usage");
  }

  /** The metric names a JSON reply can produce, by device type. */
  function HttpMetricNames(deviceType: string): set<string> {
    {"cpu_usage", "memory_usage", "uptime", "temperature", "cpu_load"}
    + (if deviceType == "router" then {"interface_bandwidth", "routing_table_changes"} else {})
    + (if deviceType == "firewall" then {"active_sessions", "blocked_traffic", "vpn_tunnels"} else {})
  }

  /** The guarded loop assigns only metrics named in the mappings. */
  lemma MapFieldsKeys(data: map<string, Json>, mappings: seq<(string, string)>)
    ensures MapFields(data, mappings).Keys <= set i | 0 <= i < |mappings| :: mappings[i].1
  {
    FoldKeys(FieldUpdates(data, mappings), set i | 0 <= i < |mappings| :: mappings[i].1);
  }

  /**
   * A JSON reply yields only known metric names for its device type, and it
   * fails only for a router or firewall whose type-specific field `float()` rejects.
   */
  lemma HttpMetricsShape(deviceType: string, data: map<string, Json>)
    ensures HttpMetrics(deviceType, JObject(data)).Some? ==> HttpMetrics(deviceType, JObject(data)).value.Keys <= HttpMetricNames(deviceType)
    ensures HttpMetrics(deviceType, JObject(data)).None? ==> deviceType == "router" || deviceType == "firewall"
    ensures deviceType != "router" && deviceType != "firewall" ==>
              HttpMetrics(deviceType, JObject(data)) == Some(MapFields(data, FieldMappings))
  {
    MapFieldsKeys(data, FieldMappings);
    var names := set i | 0 <= i < |FieldMappings| :: FieldMappings[i].1;
    assert names <= {"cpu_usage", "memory_usage", "uptime", "temperature", "cpu_load"};
  }

  /** A router reply fails iff a nested field it reads is not a number. */
  lemma RouterFailure(data: map<string, Json>)
    ensures HttpMetrics("router", JObject(data)).None? <==>
              (HasNested(data, "interfaces", "utilization") && ToFloat(data["interfaces"].fields["utilization"]).None?)
              || (HasNested(data, "routing", "changes") && ToFloat(data["routing"].fields["changes"]).None?)
  {
  }

  /** A firewall reply fails iff one of `sessions`, `blocked`, `vpn` is present but not a number. */
  lemma FirewallFailure(data: map<string, Json>)
    ensures HttpMetrics("firewall", JObject(data)).None? <==>
              ("sessions" in data && ToFloat(data["sessions"]).None?)
              || ("blocked" in data && ToFloat(data["blocked"]).None?)
              || ("vpn" in data && ToFloat(data["vpn"]).None?)
  {
  }

  /**
   * A reply that is not an object: `null`, a number or a boolean always
   * fails; a list or a string yields no metric, and fails exactly for a
   * router or firewall whose own field names it contains.
   */
  lemma NonObjectReplies(deviceType: string, data: Json)
    requires !data.JObject?
    ensures data.JNull? || data.JBool? || data.JNumber? ==> HttpMetrics(deviceType, data).None?
    ensures HttpMetrics(deviceType, data).Some? ==> HttpMetrics(deviceType, data).value == map[]
    ensures data.JArray? || data.JString? ==>
              (HttpMetrics(deviceType, data).None? <==>
                 (deviceType == "router" && (Member(data, "interfaces") || Member(data, "routing")))
                 || (deviceType == "firewall" && (Member(data, "sessions") || Member(data, "blocked") || Member(data, "vpn"))))
  {
  }

  /** A switch replying `["cpu"]` reports no metric; a router replying `["interfaces"]` fails. */
  lemma ListReplyExamples()
    ensures HttpMetrics("switch", JArray([JString("cpu")])) == Some(map[])
    ensures HttpMetrics("router", JArray([JString("interfaces")])).None?
  {
    assert JString("interfaces") in [JString("interfaces")];
  }
}
