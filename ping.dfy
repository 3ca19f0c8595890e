/** `PingMonitor._parse_ping_output`: response time and packet loss from ping's standard output. */
module PingProbe {
  import opened Wrappers
  import opened PyStrings
  import opened Monitoring

  /** What a scan for a value found: nothing, a number, or an exception. */
  datatype Scan = Absent | Parsed(value: real) | Raised

  function ScanOf(v: Option<real>): Scan {
    match v
    case Some(x) => Parsed(x)
    case None => Raised
  }

  /** `'time=' in line.lower()` */
  predicate IsTimeLine(line: string) {
    Contains(Lower(line), "time=")
  }

  /** `float(line.split('time=')[1].split()[0].replace('ms', ''))`; `None` when it raises. */
  function TimeOfLine(line: string): Option<real> {
    var parts := Split(line, "time=");
    if |parts| < 2 then None
    else
      var words := SplitWhitespace(parts[1]);
      if words == [] then None else ParseFloat(Replace(words[0], "ms", ""))
  }

  /** `'% packet loss' in line or '% loss' in line` */
  predicate IsLossLine(line: string) {
    Contains(line, "% packet loss") || Contains(line, "% loss")
  }

  function Min(a: int, b: int): int {
    if a <= b then a else b
  }

  /** `parts[i+1:i+3]` */
  function Window(parts: seq<string>, i: nat): seq<string>
    requires i < |parts|
  {
    parts[i + 1..Min(i + 3, |parts|)]
  }

  /** `'%' in part and ('packet' in parts[i+1:i+3] or 'loss' in parts[i+1:i+3])` */
  predicate IsLossToken(parts: seq<string>, i: nat)
    requires i < |parts|
  {
    Contains(parts[i], "%") && ("packet" in Window(parts, i) || "loss" in Window(parts, i))
  }

  /** The inner loop of the packet-loss scan, from token `i` on. */
  function LossFrom(parts: seq<string>, i: nat): Scan
    decreases |parts| - i
  {
    if i >= |parts| then Absent
    else if IsLossToken(parts, i) then ScanOf(ParseFloat(Replace(parts[i], "%", "")))
    else LossFrom(parts, i + 1)
  }

  /** The first loop: only the first line containing `time=` counts. */
  function TimeScan(lines: seq<string>): Scan
    decreases |lines|
  {
    if lines == [] then Absent
    else if IsTimeLine(lines[0]) then ScanOf(TimeOfLine(lines[0]))
    else TimeScan(lines[1..])
  }

  /** The second loop: only the first line mentioning a loss counts. */
  function LossScan(lines: seq<string>): Scan
    decreases |lines|
  {
    if lines == [] then Absent
    else if IsLossLine(lines[0]) then LossFrom(SplitWhitespace(lines[0]), 0)
    else LossScan(lines[1..])
  }

  /**
   * The pair `_parse_ping_output` returns. An exception in the first loop
   * leaves both defaults; one in the second keeps the response time found.
   */
  function PingReading(output: string): (r: (real, real))
    ensures TimeScan(Split(output, "\n")).Raised? ==> r == (0.0, 100.0)
    ensures r.0 == 0.0 || TimeScan(Split(output, "\n")) == Parsed(r.0)
    ensures r.1 == 100.0 || LossScan(Split(output, "\n")) == Parsed(r.1)
    ensures !TimeScan(Split(output, "\n")).Raised? && LossScan(Split(output, "\n")).Parsed? ==>
              r.1 == LossScan(Split(output, "\n")).value
  {
    var lines := Split(output, "\n");
    match TimeScan(lines)
    case Raised => (0.0, 100.0)
    case Absent => (0.0, LossOrDefault(LossScan(lines)))
    case Parsed(t) => (t, LossOrDefault(LossScan(lines)))
  }

  /** The loss the second loop found, or the default 100 when it found none or raised. */
  function LossOrDefault(scan: Scan): (loss: real)
    ensures loss == 100.0 || scan == Parsed(loss)
    ensures scan.Parsed? ==> loss == scan.value
  {
    match scan
    case Parsed(loss) => loss
    case _ => 100.0
  }

  /** The first loop of `_parse_ping_output`; `None` when it raises. */
  method ScanTime(lines: seq<string>) returns (r: Scan)
    ensures r == TimeScan(lines)
  {
    var i := 0;
    while i < |lines|
      invariant 0 <= i <= |lines|
      invariant TimeScan(lines[i..]) == TimeScan(lines)
    {
      if Contains(Lower(lines[i]), "time=") {
        return ScanOf(TimeOfLine(lines[i]));
      }
      assert lines[i..][1..] == lines[i + 1..];
      i := i + 1;
    }
    return Absent;
  }

  /** The inner loop over the whitespace-separated tokens of a loss line. */
  method ScanLossTokens(parts: seq<string>) returns (r: Scan)
    ensures r == LossFrom(parts, 0)
  {
    var k := 0;
    while k < |parts|
      invariant 0 <= k <= |parts|
      invariant LossFrom(parts, k) == LossFrom(parts, 0)
    {
      if Contains(parts[k], "%") && ("packet" in Window(parts, k) || "loss" in Window(parts, k)) {
        return ScanOf(ParseFloat(Replace(parts[k], "%", "")));
      }
      k := k + 1;
    }
    return Absent;
  }

  /** The second loop of `_parse_ping_output`. */
  method ScanLoss(lines: seq<string>) returns (r: Scan)
    ensures r == LossScan(lines)
  {
    var j := 0;
    while j < |lines|
      invariant 0 <= j <= |lines|
      invariant LossScan(lines[j..]) == LossScan(lines)
    {
      if Contains(lines[j], "% packet loss") || Contains(lines[j], "% loss") {
        r := ScanLossTokens(SplitWhitespace(lines[j]));
        return;
      }
      assert lines[j..][1..] == lines[j + 1..];
      j := j + 1;
    }
    return Absent;
  }

  /** `PingMonitor._parse_ping_output(output)` */
  method ParsePingOutput(output: string) returns (responseTime: real, packetLoss: real)
    ensures (responseTime, packetLoss) == PingReading(output)
  {
    responseTime := 0.0;
    packetLoss := 100.0;
    var lines := Split(output, "\n");
    var t := ScanTime(lines);
    if t.Raised? {
      return;
    }
    if t.Parsed? {
      responseTime := t.value;
    }
    var loss := ScanLoss(lines);
    if loss.Parsed? {
      packetLoss := loss.value;
    }
  }

  /** The first time line decides the scan, whatever follows it. */
  lemma {:induction false} TimeScanFirst(lines: seq<string>, i: nat)
    requires i < |lines| && IsTimeLine(lines[i])
    requires forall j :: 0 <= j < i ==> !IsTimeLine(lines[j])
    ensures TimeScan(lines) == ScanOf(TimeOfLine(lines[i]))
    decreases i
  {
    if i > 0 {
      TimeScanFirst(lines[1..], i - 1);
    }
  }

  lemma {:induction false} TimeScanNone(lines: seq<string>)
    requires forall j :: 0 <= j < |lines| ==> !IsTimeLine(lines[j])
    ensures TimeScan(lines) == Absent
    decreases |lines|
  {
    if lines != [] {
      TimeScanNone(lines[1..]);
    }
  }

  lemma {:induction false} LossScanNone(lines: seq<string>)
    requires forall j :: 0 <= j < |lines| ==> !IsLossLine(lines[j])
    ensures LossScan(lines) == Absent
    decreases |lines|
  {
    if lines != [] {
      LossScanNone(lines[1..]);
    }
  }

  /** No line with `time=` and no loss line: the defaults `(0.0, 100.0)`. */
  lemma PingNothingFound(output: string)
    requires forall line :: line in Split(output, "\n") ==> !IsTimeLine(line) && !IsLossLine(line)
    ensures PingReading(output) == (0.0, 100.0)
  {
    TimeScanNone(Split(output, "\n"));
    LossScanNone(Split(output, "\n"));
  }

  /** The first `time=` line cannot be read: the defaults, whatever the loss line says. */
  lemma PingTimeUnreadable(output: string, i: nat)
    requires var lines := Split(output, "\n");
      i < |lines| && IsTimeLine(lines[i]) && TimeOfLine(lines[i]).None?
      && forall j :: 0 <= j < i ==> !IsTimeLine(lines[j])
    ensures PingReading(output) == (0.0, 100.0)
  {
    TimeScanFirst(Split(output, "\n"), i);
  }

  /** Only the first `time=` line is used: a later one never changes the response time. */
  lemma PingFirstTimeLineWins(output: string, i: nat)
    requires var lines := Split(output, "\n");
      i < |lines| && IsTimeLine(lines[i]) && TimeOfLine(lines[i]).Some?
      && forall j :: 0 <= j < i ==> !IsTimeLine(lines[j])
    ensures PingReading(output).0 == TimeOfLine(Split(output, "\n")[i]).value
  {
    TimeScanFirst(Split(output, "\n"), i);
  }

  /**
   * When the time loop does not raise and the loss loop reads a value, that
   * value is the packet loss returned; otherwise the loss is the default 100.
   */
  lemma PingLossRead(output: string)
    requires !TimeScan(Split(output, "\n")).Raised? && LossScan(Split(output, "\n")).Parsed?
    ensures PingReading(output).1 == LossScan(Split(output, "\n")).value
  {
  }

  /** Without a loss value read, or when the time loop raises, the loss is 100. */
  lemma PingLossDefault(output: string)
    requires TimeScan(Split(output, "\n")).Raised? || !LossScan(Split(output, "\n")).Parsed?
    ensures PingReading(output).1 == 100.0
  {
  }
}
