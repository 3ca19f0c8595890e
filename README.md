# Device monitoring agent and TR-069 server: a verified model

This project is a Dafny model of the decision logic of a network-device monitoring system, with proofs about that model. The system has two parts.

The **monitoring agent** (`device-monitoring-agent/agent.py`) polls routers, switches and firewalls by ping, SNMP and HTTP. From each poll it builds a metric map, and it judges the device's status with a three-strike debouncer followed by ordered thresholds. It merges the results of one round, and it reports them to the monitoring API. The API client logs in, keeps its token fresh and retries failed requests.

The **server** (`app.py`) does the following:
- computes a predictive health score from a device's status and metrics;
- turns a stored score into a maintenance insight (risk, action, cost);
- guards its routes with a `Bearer` token check;
- acts as a small TR-069 (CWMP) auto-configuration server: it keeps a registry of devices and their reported parameters, writes SOAP requests, and takes each device's host from its connection-request URL.

Modules, one per concern:

| file | module | what it holds |
|---|---|---|
| `wrappers.dfy` | `Wrappers` | `Option` |
| `pystrings.dfy` | `PyStrings` | the Python string built-ins the code relies on (`find`, `split`, `split()`, `strip`, `lower`, `replace`, `join`, `float`, `str(int)`) with their laws |
| `monitoring.dfy` | `Monitoring` | metric maps, statuses, `DeviceConfig` / `DeviceMetrics`, Python truthiness, and folds of ordered dict assignments |
| `monitors.dfy` | `Monitors` | `DeviceMonitor` and `determine_status` |
| `ping.dfy`, `httpprobe.dfy`, `textprobe.dfy`, `snmp.dfy` | `PingProbe`, `HttpProbe`, `TextProbe`, `SnmpProbe` | the reply parsers and the SNMP default metrics |
| `agent.dfy` | `Agent` | `setup_monitors` and `combine_monitoring_results` |
| `syncclient.dfy` | `SyncClient` | `APIClient` against a scripted server |
| `scoring.dfy` | `Scoring` | `calculate_predictive_score` and the maintenance insight |
| `tr069.dfy` | `Tr069` | `TR069Server`'s registry, its SOAP builders, and the URL host |
| `requireauth.dfy` | `RequireAuth` | the `require_auth` header check |

State the code changes in place is modelled as state, each with a specification function the method is proved against:
- the failure counter of a monitor;
- the monitor table of the agent;
- the metric dict that `_add_default_metrics` fills;
- the token and expiry of the API client;
- the device registry of the TR-069 server.

Loops are methods with invariants. Pure computations are functions. Metric values are exact reals.

Points of the code's behaviour that are easy to misread, all modelled as the code has them:
- `update_device` retries after a 401 on every attempt up to `retry_attempts`, not just once.
- The score penalty never takes the score below 10 (`max(10, ...)`), so a critical device with CPU 95 and memory 50 keeps 15 (its mean is 72.5). `Scoring.CriticalCpuExample` proves 15.
- `combine_monitoring_results` merges metrics with `dict.update` in result order, so a later result's value wins.
- The base score of an offline device is 25, higher than a critical one's 15.
- `create_device` counts as created a 200 whose body decodes as JSON of any kind. A 200 whose body does not decode raises inside the `try`, and that attempt is retried.
- A refusal (any status but 200 in `create_device`, any but 200 or 401 in `update_device`) ends the loop with false only when its body decodes to a JSON object. For any other body, `response.json()` or `.get(...)` raises inside the `try`, so the attempt is retried.
- `_parse_http_response` receives whatever `response.json()` decoded. A list or a string passes the `in` tests, and indexing it raises a `TypeError`. The mapping loop catches that error, but the router and firewall branches do not. `null`, a number or a boolean make the first `in` test raise.

## Model

| member | source | states |
|---|---|---|
| Monitoring.WithDefaultThresholds | device-monitoring-agent/agent.py:87-91 | a threshold map left unset becomes the default one (critical 90/90/5000, warning 70/75/2000), a given map is kept, and no other field changes |
| Monitoring.FoldLastWins | device-monitoring-agent/agent.py:597-602 | after a sequence of optional dict assignments, a key is present iff some step assigned it, and it holds the value of the last step that did |
| Monitoring.FoldKeys | device-monitoring-agent/agent.py:597-602 | a dict built by assignments has no key outside the names assigned |
| Monitoring.StatusOf | device-monitoring-agent/agent.py:129-157 | every status label stands for a status written with that label |
| Monitoring.StatusLabelRoundTrip | device-monitoring-agent/agent.py:129-157 | labels and statuses correspond one to one, so `Other` never holds one of the four labels the agent produces |
| Monitors.Classify | device-monitoring-agent/agent.py:139-157 | a successful poll is online, warning or critical, and online only when no metric reaches a threshold (`ThresholdOrder`) |
| Monitors.Assess | device-monitoring-agent/agent.py:129-157 | the count resets iff the call succeeded; offline iff the call failed and brought the count to at least 3 (`FailedCall`, `SucceededCall`) |
| Monitors.AnyReaches | device-monitoring-agent/agent.py:140-150 | the threshold loop reports true iff some metric that has a threshold is at or above it |
| Monitors.DeviceMonitor.constructor | device-monitoring-agent/agent.py:117-123 | a new monitor has no failures and status `unknown` |
| Monitors.DeviceMonitor.DetermineStatus | device-monitoring-agent/agent.py:129-157 | the returned status and the new failure count are those of the step function `Assess` applied to the old count |
| Monitors.FailedCall | device-monitoring-agent/agent.py:131-135 | a call with an error adds exactly one failure; it returns offline iff the new count is at least 3, otherwise warning |
| Monitors.SucceededCall | device-monitoring-agent/agent.py:137-157 | a call without an error resets the count to 0 and never returns offline |
| Monitors.ThresholdOrder | device-monitoring-agent/agent.py:140-157 | on success the rules fire in order: a critical metric, then a warning metric, then response time against its thresholds (default 5000/2000); online iff none fires, so a warning-level metric beats a critical response time |
| Monitors.DefaultThresholdExamples | device-monitoring-agent/agent.py:140-157 | with the default thresholds: CPU 95 is critical, memory 80 with a 6000 ms response is a warning, memory 72 is online at 10 ms and a warning at 2000 ms |
| Monitors.FailuresCountTrailing | device-monitoring-agent/agent.py:131-137 | from a fresh monitor, after any sequence of calls the counter equals the number of trailing failed calls |
| Monitors.OfflineIffThreeStrikes | device-monitoring-agent/agent.py:131-137 | from a fresh monitor, call i returns offline iff it ends a run of at least three failed calls |
| Monitors.ThirdStrikeOffline | device-monitoring-agent/agent.py:131-135 | three failed calls in a row return offline on the third, whatever the starting count |
| Monitors.TwoStrikesThenSuccess | device-monitoring-agent/agent.py:119-137 | two failures then a success on a fresh monitor: warning, warning, never offline, and the count ends at 0 |
| PingProbe.PingReading | device-monitoring-agent/agent.py:230-258 | an exception in the time loop leaves both defaults; the time is 0 unless the time scan read it, and the loss is 100 unless the loss scan read it; when the time loop does not raise and the loss scan reads a value, that value is the loss returned (`PingNothingFound`, `PingTimeUnreadable`, `PingFirstTimeLineWins`, `PingLossRead`, `PingLossDefault`) |
| PingProbe.LossOrDefault | device-monitoring-agent/agent.py:233-253 | the loss is 100 unless the loss scan read a value; when it read one, the loss is exactly that value |
| PingProbe.ScanTime | device-monitoring-agent/agent.py:239-243 | the response-time loop yields the reading of the first line containing `time=` (case-insensitive), an exception, or nothing |
| PingProbe.ScanLossTokens | device-monitoring-agent/agent.py:249-252 | the token loop yields the first token holding `%` followed within two tokens by `packet` or `loss`, read as a number |
| PingProbe.ScanLoss | device-monitoring-agent/agent.py:246-253 | the loss loop looks only at the first line mentioning `% packet loss` or `% loss` |
| PingProbe.ParsePingOutput | device-monitoring-agent/agent.py:230-258 | the pair returned is `PingReading(output)`: the defaults when the time loop raises, the time found with the default loss when the loss loop raises |
| PingProbe.TimeScanFirst | device-monitoring-agent/agent.py:239-243 | the first `time=` line decides the time scan, whatever follows |
| PingProbe.TimeScanNone | device-monitoring-agent/agent.py:239-243 | with no `time=` line the time scan finds nothing |
| PingProbe.LossScanNone | device-monitoring-agent/agent.py:246-253 | with no loss line the loss scan finds nothing |
| PingProbe.PingNothingFound | device-monitoring-agent/agent.py:232-258 | no `time=` line and no loss line give `(0.0, 100.0)` |
| PingProbe.PingTimeUnreadable | device-monitoring-agent/agent.py:241-258 | an unreadable first `time=` line gives `(0.0, 100.0)` whatever the loss line says |
| PingProbe.PingFirstTimeLineWins | device-monitoring-agent/agent.py:239-243 | the response time is the reading of the first `time=` line; later ones never count |
| PingProbe.PingLossRead | device-monitoring-agent/agent.py:246-253 | when the time loop does not raise and the loss line yields a number, the packet loss returned is that number |
| PingProbe.PingLossDefault | device-monitoring-agent/agent.py:233-253 | when the time loop raises or the loss loop reads no value, the packet loss returned is 100 |
| HttpProbe.ToFloat | device-monitoring-agent/agent.py:600 | `float()` of a JSON number is that number, of a boolean 1.0 or 0.0, of a string its parse; `null`, a list or an object raise |
| HttpProbe.ParseHttpResponse | device-monitoring-agent/agent.py:578-623 | for any decoded JSON value, the metrics returned are `HttpMetrics(type, data)`, or none when an exception escapes |
| HttpProbe.ParseObject | device-monitoring-agent/agent.py:578-623 | for a JSON object, the guarded mapping loop and then the router or firewall fields; none when an unguarded `float()` raises |
| HttpProbe.ParseSequence | device-monitoring-agent/agent.py:597-621 | for a list or string reply, the result is `SequenceMetrics` |
| HttpProbe.SequenceMetrics | device-monitoring-agent/agent.py:597-621 | a list or string reply never yields a metric, and only a router or firewall reply can fail |
| HttpProbe.NonObjectReplies | device-monitoring-agent/agent.py:597-621 | `null`, a number or a boolean always fail; a list or string yields `{}`, and fails iff the device is a router and it contains `interfaces` or `routing`, or a firewall and it contains `sessions`, `blocked` or `vpn` |
| HttpProbe.ListReplyExamples | device-monitoring-agent/agent.py:597-609 | a switch replying `["cpu"]` gets `{}`; a router replying `["interfaces"]` fails |
| HttpProbe.MapFieldsLastWins | device-monitoring-agent/agent.py:597-602 | a metric comes out of the mapping loop iff some field mapped to it is present and converts; its value is that of the last such field in mapping order |
| HttpProbe.CpuFieldPrecedence | device-monitoring-agent/agent.py:583-602 | `cpu_percent` beats `cpu_usage`, which beats `cpu`; none of them convertible leaves CPU unset |
| HttpProbe.MapFieldsKeys | device-monitoring-agent/agent.py:597-602 | the mapping loop produces only metric names listed in the mapping |
| HttpProbe.HttpMetricsShape | device-monitoring-agent/agent.py:578-623 | the result's keys are among the names the device type can produce; only routers and firewalls can raise; for other types the result is the mapping loop's map |
| HttpProbe.RouterFailure | device-monitoring-agent/agent.py:605-613 | a router reply raises iff `interfaces.utilization` or `routing.changes` is present inside an object and does not convert with `float()` |
| HttpProbe.FirewallFailure | device-monitoring-agent/agent.py:615-621 | a firewall reply raises iff one of `sessions`, `blocked`, `vpn` is present and does not convert with `float()` |
| TextProbe.TextLineCases | device-monitoring-agent/agent.py:632-644 | a line naming `cpu:` or `cpu usage:` never sets `memory_usage`; a line sets a metric iff it names one and the text between its first colon and the next colon (or the end of the line), stripped and with `%` removed, converts, and then to that number; an unreadable value changes nothing |
| TextProbe.ParseTextResponse | device-monitoring-agent/agent.py:625-646 | the metrics are the fold of the per-line updates over the page's lines, in order |
| TextProbe.TextKeys | device-monitoring-agent/agent.py:633-644 | a text line sets only `cpu_usage` or `memory_usage` |
| TextProbe.PageMetricsKeys | device-monitoring-agent/agent.py:625-646 | a text page yields no metric other than `cpu_usage` and `memory_usage` |
| TextProbe.PageMetricsPresent | device-monitoring-agent/agent.py:631-644 | a metric is present iff some line sets it |
| TextProbe.PageMetricsLastLine | device-monitoring-agent/agent.py:631-644 | the metric holds the value from the last line that sets it |
| SnmpProbe.DeviceDefaults | device-monitoring-agent/agent.py:491-517 | routers, switches and firewalls get defaults that include `uptime`; any other type gets none; no default is negative (`DefaultsIdempotent`, `FailedSnmpReportsDefaults`) |
| SnmpProbe.WithDefaults | device-monitoring-agent/agent.py:519-522 | the keys are the old keys plus the default keys; old values are kept; missing keys get their defaults |
| SnmpProbe.FillDefaults | device-monitoring-agent/agent.py:519-522 | the loop over the defaults leaves the dict equal to `WithDefaults(old dict, defaults)` |
| SnmpProbe.AddDefaultMetrics | device-monitoring-agent/agent.py:489-522 | the dict, updated in place, becomes `WithDefaults(old dict, defaults for the type)` |
| SnmpProbe.DefaultsIdempotent | device-monitoring-agent/agent.py:519-522 | filling twice equals filling once; an unknown type leaves the dict unchanged |
| SnmpProbe.FailedSnmpReportsDefaults | device-monitoring-agent/agent.py:323-330 | after a failed poll resets the metrics to `{}`, the reported metrics are exactly the type's defaults |
| Agent.Recognised | device-monitoring-agent/agent.py:915-924 | each `monitoring_methods` entry is read after `strip().lower()`, in order |
| Agent.MonitorKinds | device-monitoring-agent/agent.py:913-922 | at most one probe per entry (`MonitorKindsCount`, `MonitorKindsAppend`) |
| Agent.MonitorKindsAppend | device-monitoring-agent/agent.py:915-925 | set-up reads the method list left to right: the probes for `a + b` are those for `a` followed by those for `b` |
| Agent.MonitorKindsCount | device-monitoring-agent/agent.py:915-927 | never more monitors than entries; none iff no entry is `ping`, `snmp` or `http`; every monitor comes from a recognised entry |
| Agent.AddMonitor | device-monitoring-agent/agent.py:917-922 | one pass keeps the list as it was and, for a recognised entry, appends one fresh pristine monitor of its kind that is not already in the list; an unknown entry leaves the list unchanged; a list without repeats stays without repeats |
| Agent.NewMonitors | device-monitoring-agent/agent.py:913-925 | builds one new pristine monitor per recognised entry, with the probe kinds in configuration order, no object appearing twice |
| Agent.DeviceAgent.constructor | device-monitoring-agent/agent.py:787-790 | the monitor table starts empty |
| Agent.DeviceAgent.SetupMonitors | device-monitoring-agent/agent.py:911-929 | with no recognised entry the table is unchanged; otherwise only the device's entry changes, to distinct fresh pristine monitors of the recognised kinds in order |
| Agent.Priority | device-monitoring-agent/agent.py:1030-1031 | priorities run from 0 to 3, and 0 means offline |
| Agent.PriorityIsDictGet | device-monitoring-agent/agent.py:1030-1031 | on every status label, the rank equals `status_priority.get(label, 3)` |
| Agent.WorstIndex | device-monitoring-agent/agent.py:1031 | `min(..., key=...)` picks a result of least priority, the first one among ties |
| Agent.Errors | device-monitoring-agent/agent.py:1037 | the collected errors are non-empty strings |
| Agent.Combine | device-monitoring-agent/agent.py:1018-1048 | none iff there are no results; otherwise the first result's device id, method `combined`, and a status some result has (`CombineShape`, `CombineStatus`, `CombineResponseTime`, `CombineError`) |
| Agent.CombineMonitoringResults | device-monitoring-agent/agent.py:1016-1048 | the loop computes `Combine(results)` |
| Agent.MergedMetricsPresent | device-monitoring-agent/agent.py:1025-1027 | a metric is in the merge iff some result has it |
| Agent.MergedMetricsLastWins | device-monitoring-agent/agent.py:1025-1027 | a metric is in the merge with the value from the last result that has it |
| Agent.PrefixStep | device-monitoring-agent/agent.py:1025-1037 | one more result extends the merged metrics, the response-time sum and the error list by that result alone |
| Agent.SumBounds | device-monitoring-agent/agent.py:1034 | the response-time sum lies between n times the least and n times the greatest |
| Agent.ErrorsAreTruthy | device-monitoring-agent/agent.py:1037 | no errors iff no result has a truthy error; each error comes from a result |
| Agent.CombineShape | device-monitoring-agent/agent.py:1018-1048 | none iff there are no results; otherwise the first result's device id, method `combined`, and the merged metrics |
| Agent.CombineStatus | device-monitoring-agent/agent.py:1030-1031 | the status is the worst under offline < critical < warning < online (unknown ranks as online), taken from the first result that has it |
| Agent.CombineResponseTime | device-monitoring-agent/agent.py:1034 | the averaged response time lies between the least and greatest response times |
| Agent.CombineError | device-monitoring-agent/agent.py:1037-1038 | there is a combined error iff some result's error is truthy; it is all of them joined by `; ` |
| Agent.AverageBounds | device-monitoring-agent/agent.py:1034 | a mean of values between lo and hi is between lo and hi |
| Agent.OfflineDominates | device-monitoring-agent/agent.py:1030-1031 | one offline result makes the combined status offline |
| SyncClient.APIClient.constructor | device-monitoring-agent/agent.py:651-656 | a new client has no token and no expiry |
| SyncClient.APIClient.Authenticate | device-monitoring-agent/agent.py:669-696 | one login request; a granted login sets the token and expiry, anything else leaves them, as `AfterLogin` says |
| SyncClient.APIClient.EnsureAuthenticated | device-monitoring-agent/agent.py:698-701 | logs in iff there is no truthy token or the expiry has passed, as `Ensure` says |
| SyncClient.APIClient.UpdateDevice | device-monitoring-agent/agent.py:755-782 | the result, new session and number of requests and logins are those of `UpdateRun` on the server's scripts |
| SyncClient.APIClient.CreateDevice | device-monitoring-agent/agent.py:728-753 | ensures authentication, then the result and number of requests are those of `CreateLoop` |
| SyncClient.UpdateLoop | device-monitoring-agent/agent.py:758-782 | the loop only ever advances the request and login counters; its properties are `UpdateLoopBounded`, `UpdateAll401`, `UpdateRefused` and `UpdateRetriesOtherBody` |
| SyncClient.CreateLoop | device-monitoring-agent/agent.py:731-753 | the loop only ever advances the request counter; its bound is `CreateLoopBounded` and when it succeeds is `CreateSucceedsIff` |
| SyncClient.CreateLoopBounded | device-monitoring-agent/agent.py:731-753 | at most one request per attempt; success only on a 200 with a decodable body as the last request made |
| SyncClient.UpdateLoopBounded | device-monitoring-agent/agent.py:758-782 | at most one request per attempt and at most one login per request; success only on a 200 as the last request made |
| SyncClient.UpdateFirstOk | device-monitoring-agent/agent.py:765-766 | a first 200 returns true at once, with one request and no login |
| SyncClient.UpdateNoAttempts | device-monitoring-agent/agent.py:758-782 | with `retry_attempts <= 0` nothing is sent and the result is false |
| SyncClient.UpdateAll401 | device-monitoring-agent/agent.py:767-770 | a server that answers 401 every time costs one request and one login per attempt, then false |
| SyncClient.UpdateRefused | device-monitoring-agent/agent.py:771-775 | another status whose body decodes to a JSON object returns false after one request, without retry |
| SyncClient.UpdateRetriesOtherBody | device-monitoring-agent/agent.py:771-780 | another status whose body is not a JSON object (a list, a string, a number, `null`, or not JSON) raises in the `try` and is retried, so a following 200 succeeds |
| SyncClient.CreateSucceedsIff | device-monitoring-agent/agent.py:731-753 | creation succeeds iff, within the attempts, the first reply that ends the loop (a 200 whose body decodes, or a refusal whose body is a JSON object) is a 200 |
| SyncClient.CreateRetries200WithoutJson | device-monitoring-agent/agent.py:737-753 | a 200 whose body does not decode is retried, and a following 200 with any JSON body succeeds |
| SyncClient.CreateRetriesOtherBody | device-monitoring-agent/agent.py:743-751 | a refusal whose body is not a JSON object raises at `.get` and is retried rather than failing |
| SyncClient.AfterLogin | device-monitoring-agent/agent.py:669-696 | the login succeeds iff it was granted; then the token is the granted one with an expiry set; otherwise the session is unchanged (`GrantedLoginValidity`, `FailedLoginKeepsSession`) |
| SyncClient.NeedsLogin | device-monitoring-agent/agent.py:700 | no token always needs a login; a truthy token with no expiry never does (`EnsureLogsInOnlyWhenNeeded`) |
| SyncClient.Ensure | device-monitoring-agent/agent.py:698-701 | at most one login, made exactly when one is needed; without it the session is unchanged |
| SyncClient.EnsureLogsInOnlyWhenNeeded | device-monitoring-agent/agent.py:698-701 | a valid token means no login; a missing or expired one means exactly one |
| SyncClient.GrantedLoginValidity | device-monitoring-agent/agent.py:681-688 | a granted token is valid until 300 s before its stated lifetime ends (86400 s when none is stated), and it sets `Authorization: Bearer <token>` |
| SyncClient.FailedLoginKeepsSession | device-monitoring-agent/agent.py:689-696 | a refused or failed login leaves the token and expiry unchanged and returns false |
| Scoring.BaseScore | app.py:557-562 | a base score is between 15 and 85 |
| Scoring.PredictiveScore | app.py:555-573 | the score is between 10 and 85, inside `[0, 100]`, and never above the base score; the base is kept iff the mean lies in `[10, 90]` (`ScoreKeepsBase`), above 90 it is `max(10, base - 20)` (`ScoreFlatAbove90`) and below 10 `max(10, base - 15)` (`ScoreFlatBelow10`) |
| Scoring.AverageThresholds | app.py:567-571 | the mean is above 90 iff the sum is above 90·n, and below 10 iff the sum is below 10·n |
| Scoring.ScoreKeepsBase | app.py:564-573 | the score equals the base iff there are no metrics or the mean lies in `[10, 90]`; the bounds are strict |
| Scoring.ScoreFlatAbove90 | app.py:567-569 | above a mean of 90 the score is `max(10, base - 20)` whatever the mean, so a critical device gets 10 |
| Scoring.ScoreFlatBelow10 | app.py:567-571 | below a mean of 10 the score is `max(10, base - 15)` whatever the mean, so a critical or offline device gets 10 |
| Scoring.CriticalCpuExample | app.py:555-573 | critical with CPU 95 and memory 50 scores 15 |
| Scoring.BaseScoreOrder | app.py:557-562 | online > unknown > warning > offline > critical |
| Scoring.StoredScore | app.py:851 | a missing or zero stored score counts as 75; any other is used as it is |
| Scoring.RiskLevel | app.py:853 | high iff the score is below 30, low iff it is at least 60, medium otherwise (`InsightMonotone`, `RiskByStatus`) |
| Scoring.RecommendedAction | app.py:855-859 | every level has a non-empty action; low is exactly `Continue monitoring` |
| Scoring.ActionsDistinct | app.py:855-859 | different risk levels get different actions |
| Scoring.EstimatedCost | app.py:861 | the cost is at least 150 000 iff the score is at most 100, always in steps of 5 000 (`CostRange`, `InsightMonotone`) |
| Scoring.InsightMonotone | app.py:853-861 | a lower score never gives a lower cost or a less severe risk |
| Scoring.CostRange | app.py:861 | a score in `[0, 100]` costs 150 000 to 650 000, in steps of 5 000 |
| Scoring.StoredComputedScore | app.py:851-861 | a computed score is never 0, so it is used as stored; no score reads as 75: low risk and a cost of 275 000 |
| Scoring.RiskByStatus | app.py:853 | with a mean in `[10, 90]`: online is low risk, warning or unknown medium, critical or offline high |
| Tr069.Tr069Server.constructor | app.py:210-217 | a new server has an empty registry |
| Tr069.Tr069Server.RegisterDevice | app.py:424-427 | the registry entry for the device's id is set to the device, and nothing else changes |
| Tr069.Tr069Server.GetDeviceParameters | app.py:366-384 | none iff the device is unregistered; otherwise the keys are exactly the requested names the device reported, with their values unchanged |
| Tr069.RegisterThenLookup | app.py:366-427 | after registering a device, looking it up returns its selection; other ids are unaffected |
| Tr069.LookupNothing | app.py:376-380 | asking only for names the device lacks gives an empty map |
| Tr069.SoapEnvelope | app.py:235-251 | the envelope starts with the fixed prologue and is exactly as long as its fixed parts, the header and the body (`EnvelopeRoundTrip`, `EnvelopeInjective`) |
| Tr069.EnvelopeRoundTrip | app.py:235-251 | the envelope holds the body verbatim between fixed text and can be cut back out; the header is empty iff the session id is not truthy |
| Tr069.EnvelopeInjective | app.py:235-251 | within one session, equal envelopes carry equal bodies |
| Tr069.CutItem | app.py:309 | text without `<` that follows a tag is read back exactly |
| Tr069.WrappedItemParse | app.py:309 | one element whose text has no `<`, closed by a tag, reads back in front of whatever list follows it |
| Tr069.WrappedRoundTrip | app.py:307-309 | for any closing tag starting with `<`, the concatenated elements read back as the texts, in order, when none contains `<` |
| Tr069.StringListRoundTrip | app.py:307-309 | the `<string>` list reads back as the names, one element per name, in order, when no name contains `<` |
| Tr069.CreateGetParameterValuesRequest | app.py:305-316 | the request is the envelope of the GetParameterValues body with the `<string>` list and the count `len(parameter_names)` |
| Tr069.PairedItemParse | app.py:322-327 | one name/value element whose name and value have no `<` reads back in front of whatever list follows it |
| Tr069.PairedRoundTrip | app.py:320-327 | for middle and closing tags starting with `<`, the concatenated elements read back as the name/value pairs, in order, when none contains `<` |
| Tr069.StructListRoundTrip | app.py:320-327 | the `ParameterValueStruct` list reads back as the name/value pairs, in order, when none contains `<` |
| Tr069.CreateSetParameterValuesRequest | app.py:318-334 | the request is the envelope of the SetParameterValues body with one struct per parameter and the count |
| Tr069.ArrayTypeCount | app.py:312 | the decimal count written into `arrayType` reads back as the number of entries |
| Tr069.GetBodyInjective | app.py:311-315 | the GetParameterValues body determines both the `arrayType` count and `param_list` |
| Tr069.SetBodyInjective | app.py:328-333 | the SetParameterValues body determines both the `arrayType` count and `param_list` |
| Tr069.GetRequestInjective | app.py:305-316 | two GetParameterValues requests of one session with the same text ask for the same names in the same order (names without `<`) |
| Tr069.SetRequestInjective | app.py:318-334 | two SetParameterValues requests of one session with the same text set the same pairs in the same order (no `<` in them) |
| Tr069.HostOf | app.py:286 | a URL without `://` gives `''`; the host never holds a `:` (`HostOfIsAfterScheme`) |
| Tr069.PieceHost | app.py:286 | cutting at the first `://` never moves the first `:` |
| Tr069.HostOfIsAfterScheme | app.py:286 | the host is the text between the first `://` and the next `:` or the end, and holds no `:` |
| RequireAuth.BearerFind | app.py:539 | the first space of a `Bearer ` header is at index 6 |
| RequireAuth.BearerSplit | app.py:539 | `split(' ')[1]` of a `Bearer ` header is what follows `Bearer `, up to the next space |
| RequireAuth.BearerToken | app.py:535-539 | no token iff the header is missing, empty or not `Bearer `-prefixed; otherwise the text after `Bearer ` up to a space, which holds no space (`BearerRoundTrip`) |
| RequireAuth.Authorize | app.py:532-548 | the first 401 iff the header is not a `Bearer ` header; the handler runs only as the non-empty user the token verifies to (`AuthorizeIff`) |
| RequireAuth.BearerTokenCases | app.py:535-539 | no token iff the header is missing, empty or not `Bearer `-prefixed; otherwise the token is the text after `Bearer ` up to a space |
| RequireAuth.BearerRoundTrip | app.py:539 | `Bearer <t>` yields `t` cut at its first space, so it yields `t` exactly iff `t` has no space |
| RequireAuth.AgentHeaderAccepted | device-monitoring-agent/agent.py:703-708 | the header the agent sends always passes the check, and its token arrives unchanged when it has no space |
| RequireAuth.AuthorizeIff | app.py:532-548 | the handler runs as `u` iff the header yields a token that verifies to the non-empty user `u`; the first 401 happens iff the header is not a `Bearer ` header |

## Left out

- Probe I/O: the `ping` subprocess, the `pysnmp` GETs and the `aiohttp` requests. Their results are inputs to the parsers. The HTTP reply arrives as the JSON value `response.json()` decoded, of any kind. The fallback to `_parse_text_response` when decoding fails happens in `check_device`, which is not modelled.
- The hard-coded SNMP placeholder metrics (`_get_system_metrics` and the router/switch/firewall/interface helpers). They are constants with no logic.
- Timestamps. `DeviceMetrics.timestamp` and `last_inform` are not modelled. The API client reads the wall clock as an integer argument `now`, in seconds.
- The asyncio scheduling loop (`monitor_device`, `start`, `stop`, signal handlers), `asyncio.sleep(retry_delay)`, and `ensure_device_exists`. Their point is concurrency and waiting.
- `get_devices`. It is a single request with no retry.
- Loading and writing the configuration with `configparser`.
- The request payloads and URLs of the API client. A request is modelled only by the reply it gets.
- The `KeyError` that `device_data['name']` could raise after a successful create. It only happens inside a log call.
- An `expires_in` in the login reply that is not a number. In Python the token is stored before the exception. The model takes `expires_in` as an optional integer.
- Python strings. `lower()`, `strip()`, `split()` and digits are modelled for the characters the model's string type offers, with ASCII case folding. `float()` accepts an optional sign, digits and an optional fraction, not exponents, `inf`, `nan` or `_`.
- Floating point. Metric values and averages are exact reals. `calculate_predictive_score` receives `list(metrics.values())` as a sequence of reals.
- JWT handling (`generate_token`, `verify_token`). `verify_token` is a function parameter of `RequireAuth.Authorize`.
- Flask routes, SQLite access, the dashboard, analytics, IP-tracker and bandwidth-prediction code.
- TR-069 XML parsing (`parse_inform_message`, `_get_element_text`), which uses a foreign XML library. The only part of it modelled is the host split at app.py:286.
- Outbound connection requests. These are network calls.
- `set_device_parameters`, `reboot_device` and `create_inform_response`. They are outside the modelled operations.
- `Tr069.StringListRoundTrip`, `Tr069.StructListRoundTrip`, `Tr069.GetRequestInjective`, `Tr069.SetRequestInjective`: the round trips require that no name or value contains `<`. The builders insert text without XML escaping, so other input cannot be read back unambiguously.
- `Tr069.CreateSetParameterValuesRequest`: the parameter dictionary is given as its items in iteration order.
- `Tr069.Tr069Server.GetDeviceParameters`: the `except` branch is not modelled. Nothing in its body can raise for a model registry.
- `device-monitoring-agent/install.py` and `generate_sample_data.py`. They are packaging and random data generation.
