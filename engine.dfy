/**
 * The analysis engine as the scheduler sees it (src/services/analysisService.js):
 * which script a declared file type selects, the placeholder result produced
 * when the Python environment is unavailable, and how each way a run of the
 * engine can end becomes either a result or an error message.
 *
 * The subprocess itself is not modelled: its outcome is a value of
 * `EngineOutcome`, supplied by the caller.
 */
module Engine {
  import opened Common
  import opened Text

  // ---------------------------------------------------------------- result payloads

  /**
   * A field value of a result. Floating-point literals and the
   * `Math.floor(size * factor)` domain byte counts are kept as opaque values.
   */
  datatype Scalar =
    | IntV(i: int)
    | FloatLiteral(text: string)
    | ScaledFloor(base: nat, factor: string)

  /** A name with a count and a percentage: protocol and method shares. */
  datatype Share = Share(name: string, count: nat, percentage: Scalar)

  datatype DomainStat = DomainStat(domain: string, requests: nat, totalBytes: Scalar)
  datatype HostCount = HostCount(ip: string, packets: nat)
  datatype PortCount = PortCount(port: nat, packets: nat)
  datatype ConnectionCount = ConnectionCount(connection: string, packets: nat)
  datatype Anomaly = Anomaly(kind: string, severity: string, description: string, details: map<string, Scalar>)

  /**
   * An analysis result. The two placeholder shapes are written out field by
   * field; a result parsed from the engine's output is opaque except for its
   * `summary`, which is all the scheduler reads from it.
   */
  datatype AnalysisResult =
    | RequestArchive(
        summary: map<string, Scalar>, protocols: seq<Share>, domains: seq<DomainStat>,
        methods: seq<Share>, performance: map<string, Scalar>, anomalies: seq<Anomaly>)
    | PacketCapture(
        summary: map<string, Scalar>, protocols: seq<Share>,
        topSources: seq<HostCount>, topDestinations: seq<HostCount>,
        transport: map<string, Scalar>, topPorts: seq<PortCount>,
        totalConnections: nat, topConnections: seq<ConnectionCount>, anomalies: seq<Anomaly>)
    | EngineReport(summary: map<string, Scalar>)

  /** Request count and packet count the placeholder results report. */
  const MockRequests: nat := 145
  const MockPackets: nat := 1547

  const DemoAnomalyType := "demo_analysis"

  /** Whether a result carries the demo-mode anomaly that marks placeholder output. */
  predicate IsPlaceholder(r: AnalysisResult) {
    !r.EngineReport? && exists i :: 0 <= i < |r.anomalies| && r.anomalies[i].kind == DemoAnomalyType
  }

  predicate HasField(m: map<string, Scalar>, key: string, v: Scalar) {
    key in m && m[key] == v
  }

  /** `m[key]` is the whole number of `divisor`-sized parts in `total`, i.e. `Math.floor(total / divisor)`. */
  predicate IsFloorAverage(m: map<string, Scalar>, key: string, total: nat, divisor: nat) {
    key in m && m[key].IntV? && 0 <= m[key].i
    && m[key].i * divisor <= total < (m[key].i + 1) * divisor
  }

  /**
   * `getMockAnalysisResults`: the request-shaped result for `har` files and
   * the packet-shaped result for every other type, built from the file size.
   */
  function MockAnalysisResults(fileType: string, size: nat): (r: AnalysisResult)
    ensures fileType == "har" <==> r.RequestArchive?
    ensures fileType != "har" <==> r.PacketCapture?
    ensures HasField(r.summary, "totalBytes", IntV(size))
    ensures r.RequestArchive? ==>
              && HasField(r.summary, "totalRequests", IntV(MockRequests))
              && |r.methods| > 0 && |r.domains| > 0
              && IsFloorAverage(r.summary, "avgRequestSize", size, MockRequests)
              && IsFloorAverage(r.performance, "avgResponseSize", size, MockRequests)
    ensures r.PacketCapture? ==>
              && HasField(r.summary, "totalPackets", IntV(MockPackets))
              && |r.protocols| > 0
              && |r.anomalies| == 1
              && r.anomalies[0].kind == DemoAnomalyType && r.anomalies[0].severity == "info"
              && IsFloorAverage(r.summary, "avgPacketSize", size, MockPackets)
  {
    if fileType == "har" then
      var avg := size / MockRequests;
      RequestArchive(
        summary := map[
          "totalRequests" := IntV(MockRequests),
          "totalBytes" := IntV(size),
          "duration" := FloatLiteral("45.2"),
          "avgRequestSize" := IntV(avg),
          "requestsPerSecond" := FloatLiteral("3.2")],
        protocols := [Share("HTTPS", 120, FloatLiteral("82.8")), Share("HTTP", 25, FloatLiteral("17.2"))],
        domains := [
          DomainStat("api.example.com", 45, ScaledFloor(size, "0.3")),
          DomainStat("cdn.example.com", 38, ScaledFloor(size, "0.4"))],
        methods := [
          Share("GET", 98, FloatLiteral("67.6")),
          Share("POST", 35, FloatLiteral("24.1")),
          Share("PUT", 12, FloatLiteral("8.3"))],
        performance := map[
          "avgResponseTime" := FloatLiteral("245.6"),
          "maxResponseTime" := FloatLiteral("1234.5"),
          "minResponseTime" := FloatLiteral("23.4"),
          "avgResponseSize" := IntV(avg)],
        anomalies := [Anomaly("slow_requests", "medium", "发现 3 个慢请求", map["slowRequestCount" := IntV(3)])])
    else
      PacketCapture(
        summary := map[
          "totalPackets" := IntV(MockPackets),
          "totalBytes" := IntV(size),
          "duration" := FloatLiteral("120.5"),
          "avgPacketSize" := IntV(size / MockPackets),
          "packetsPerSecond" := FloatLiteral("12.8")],
        protocols := [
          Share("TCP", 1200, FloatLiteral("77.6")),
          Share("UDP", 300, FloatLiteral("19.4")),
          Share("ICMP", 47, FloatLiteral("3.0"))],
        topSources := [HostCount("192.168.1.100", 456), HostCount("192.168.1.105", 234), HostCount("10.0.0.15", 189)],
        topDestinations := [HostCount("8.8.8.8", 245), HostCount("1.1.1.1", 178), HostCount("192.168.1.1", 156)],
        transport := map["tcpPackets" := IntV(1200), "udpPackets" := IntV(300), "icmpPackets" := IntV(47)],
        topPorts := [PortCount(443, 567), PortCount(80, 345), PortCount(53, 234), PortCount(22, 89)],
        totalConnections := 87,
        topConnections := [
          ConnectionCount("192.168.1.100:45678->8.8.8.8:53", 45),
          ConnectionCount("192.168.1.100:443->1.1.1.1:443", 234)],
        anomalies := [Anomaly(DemoAnomalyType, "info", "这是演示模式的分析结果，实际环境需要Python+scapy", map[])])
  }

  /** Packet-shaped placeholders are always marked; the `har` placeholder never is. */
  lemma PlaceholderMarking(fileType: string, size: nat)
    ensures IsPlaceholder(MockAnalysisResults(fileType, size)) <==> fileType != "har"
  {
    var r := MockAnalysisResults(fileType, size);
    if fileType != "har" {
      assert r.anomalies[0].kind == DemoAnomalyType;
    }
  }

  // ---------------------------------------------------------------- script selection

  const HarScript := "analyze_har.py"
  const PcapScript := "analyze_pcap.py"

  /** `getPythonScript`: the table maps `har` to the HAR script and the capture types to the
      PCAP script; any other type falls back to the PCAP script. */
  function PythonScript(fileType: string): (script: string)
    ensures script == HarScript <==> fileType == "har"
    ensures script == PcapScript <==> fileType != "har"
  {
    if fileType in {"pcap", "cap", "pcapng"} then PcapScript
    else if fileType == "har" then HarScript
    else PcapScript
  }

  /** The directory the scripts live in, relative to the installation root. */
  const ScriptDir := "analysis-scripts/"

  function ScriptPath(script: string): (p: string)
    ensures StartsWith(p, ScriptDir) && EndsWith(p, script)
    ensures p[|ScriptDir|..] == script
  {
    var p := ScriptDir + script;
    assert p[..|ScriptDir|] == ScriptDir;
    assert p[|p| - |script|..] == script;
    p
  }

  // ---------------------------------------------------------------- engine outcomes

  /** What `fs.statSync` gives for the stored file: its size, or the error it throws. */
  datatype Stat = Size(bytes: nat) | StatError(message: string)

  /** What `JSON.parse` makes of the engine's standard output. */
  datatype ParsedOutput = Parsed(summary: map<string, Scalar>) | Unparsable(message: string)

  /**
   * How one engine run ends, as the caller observes it: the Python and scapy
   * probe fails; the script file is absent; the process cannot be started;
   * or the process closes, with an exit code (`None` when it was killed by
   * a signal, which is what the spawn timeout does), its parsed standard
   * output and its standard error.
   */
  datatype EngineOutcome =
    | EnvironmentUnavailable(stat: Stat)
    | ScriptMissing
    | SpawnFailed(message: string)
    | Closed(exitCode: Option<int>, stdout: ParsedOutput, stderr: string)

  /** The errors `runAnalysis` and the placeholder path can raise. */
  datatype AnalysisError =
    | StatFailed(message: string)
    | ScriptNotFound(path: string)
    | ResultUnparsable(parseMessage: string)
    | ExitFailure(exitCode: Option<int>, stderr: string)
    | StartFailure(spawnMessage: string)

  const ScriptMissingPrefix := "分析脚本不存在: "
  const ParseFailurePrefix := "解析分析结果失败: "
  const ExitFailurePrefix := "Python脚本执行失败 (exit code: "
  const StartFailurePrefix := "启动Python脚本失败: "

  /** How a template string renders an exit code: `null` when there is none. */
  function ExitCodeText(code: Option<int>): (t: string)
    ensures t == "null" <==> code.None?
    ensures code.Some? ==> |t| >= 1 && (t[0] == '-' <==> code.value < 0)
  {
    match code
    case None => "null"
    case Some(c) => IntToDecimal(c)
  }

  /** The `message` of the error thrown for each failure. */
  function ErrorMessage(e: AnalysisError): (msg: string)
    ensures e.ExitFailure? ==> StartsWith(msg, ExitFailurePrefix) && EndsWith(msg, e.stderr)
    ensures e.StartFailure? ==> msg == StartFailurePrefix + e.spawnMessage
    ensures e.ResultUnparsable? ==> StartsWith(msg, ParseFailurePrefix) && EndsWith(msg, e.parseMessage)
    ensures e.ScriptNotFound? ==> StartsWith(msg, ScriptMissingPrefix) && EndsWith(msg, e.path)
    ensures e.StatFailed? ==> msg == e.message
  {
    match e
    case StatFailed(m) => m
    case ScriptNotFound(p) =>
      var msg := ScriptMissingPrefix + p;
      assert msg[|msg| - |p|..] == p;
      assert msg[..|ScriptMissingPrefix|] == ScriptMissingPrefix;
      msg
    case ResultUnparsable(m) =>
      var msg := ParseFailurePrefix + m;
      assert msg[|msg| - |m|..] == m;
      assert msg[..|ParseFailurePrefix|] == ParseFailurePrefix;
      msg
    case ExitFailure(code, stderr) =>
      var msg := ExitFailurePrefix + ExitCodeText(code) + "): " + stderr;
      assert msg[|msg| - |stderr|..] == stderr;
      assert msg[..|ExitFailurePrefix|] == ExitFailurePrefix;
      msg
    case StartFailure(m) => StartFailurePrefix + m
  }

  /** The exit code can be read back from the message of an exit failure. */
  lemma ExitCodeRecoverable(code: int, stderr: string)
    ensures var msg := ErrorMessage(ExitFailure(Some(code), stderr));
            var digits := msg[|ExitFailurePrefix|..];
            ParseInt(digits) == Some(code)
  {
    var rest := "): " + stderr;
    var msg := ErrorMessage(ExitFailure(Some(code), stderr));
    assert msg == ExitFailurePrefix + (IntToDecimal(code) + rest);
    ParseAfterPrefix(ExitFailurePrefix, code, rest, msg);
  }

  /** An integer rendered after a fixed prefix, and followed by a non-digit, is read back after the prefix. */
  lemma ParseAfterPrefix(prefix: string, i: int, rest: string, msg: string)
    requires msg == prefix + (IntToDecimal(i) + rest)
    requires |rest| == 0 || !IsDigit(rest[0])
    ensures ParseInt(msg[|prefix|..]) == Some(i)
  {
    assert msg[|prefix|..] == IntToDecimal(i) + rest;
    ParseIntegerPrefix(i, rest);
  }

  /**
   * `runAnalysis`: without the Python environment the placeholder result is
   * returned (its `fs.statSync` may throw); otherwise a missing script, a
   * failed start, a non-zero (or absent) exit code and unparsable output are
   * errors, and a zero exit with parsable output is the engine's result.
   */
  function RunAnalysis(fileType: string, outcome: EngineOutcome): (r: Result<AnalysisResult, AnalysisError>)
    ensures outcome.EnvironmentUnavailable? && outcome.stat.Size? ==>
              r == Ok(MockAnalysisResults(fileType, outcome.stat.bytes))
    ensures outcome.ScriptMissing? ==> r == Err(ScriptNotFound(ScriptPath(PythonScript(fileType))))
    ensures outcome.EnvironmentUnavailable? && outcome.stat.StatError? ==> r == Err(StatFailed(outcome.stat.message))
    ensures outcome.SpawnFailed? ==> r == Err(StartFailure(outcome.message))
    ensures outcome.Closed? && outcome.exitCode == Some(0) && outcome.stdout.Parsed? ==>
              r == Ok(EngineReport(outcome.stdout.summary))
    ensures outcome.Closed? && outcome.exitCode == Some(0) && outcome.stdout.Unparsable? ==>
              r == Err(ResultUnparsable(outcome.stdout.message))
    ensures outcome.Closed? && outcome.exitCode != Some(0) ==>
              r == Err(ExitFailure(outcome.exitCode, outcome.stderr))
    ensures r.Ok? && r.value.EngineReport? <==> outcome.Closed? && outcome.exitCode == Some(0) && outcome.stdout.Parsed?
    ensures r.Ok? <==> (outcome.EnvironmentUnavailable? && outcome.stat.Size?)
                       || (outcome.Closed? && outcome.exitCode == Some(0) && outcome.stdout.Parsed?)
  {
    match outcome
    case EnvironmentUnavailable(stat) =>
      (match stat
       case Size(n) => Ok(MockAnalysisResults(fileType, n))
       case StatError(m) => Err(StatFailed(m)))
    case ScriptMissing => Err(ScriptNotFound(ScriptPath(PythonScript(fileType))))
    case SpawnFailed(m) => Err(StartFailure(m))
    case Closed(code, stdout, stderr) =>
      if code == Some(0) then
        match stdout
        case Parsed(summary) => Ok(EngineReport(summary))
        case Unparsable(m) => Err(ResultUnparsable(m))
      else Err(ExitFailure(code, stderr))
  }
}
