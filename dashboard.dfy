/**
 * The stateless helpers of the browser dashboard (public/js/app.js): upload
 * validation, private-address classification, URL truncation, the HTTP
 * status colour bands and the lookup tables that turn status, severity,
 * health and anomaly keys into display values.
 */
module Dashboard {
  import opened Common
  import opened Text

  // ---------------------------------------------------------------- upload validation

  /** The extensions an upload may carry, in the order the source lists them. */
  const ValidTypes: seq<string> := [".pcap", ".cap", ".pcapng", ".har"]

  /** `validateFile`: the lower-cased name ends with one of the capture extensions. */
  predicate ValidateFile(name: string): (ok: bool)
    ensures ok ==> |name| >= |".cap"|
  {
    var fileName := Lower(name);
    exists i :: 0 <= i < |ValidTypes| && EndsWith(fileName, ValidTypes[i])
  }

  /** Validation ignores letter case. */
  lemma ValidateFileIgnoresCase(name: string)
    ensures ValidateFile(Lower(name)) == ValidateFile(name)
  {
    LowerIdempotent(name);
  }

  /** Any stem followed by an accepted extension, in any letter case, is accepted. */
  lemma ValidateFileAcceptsExtension(stem: string, ext: string, i: nat)
    requires i < |ValidTypes| && Lower(ext) == ValidTypes[i]
    ensures ValidateFile(stem + ext)
  {
    assert Lower(stem + ext) == Lower(stem) + Lower(ext);
    EndsWithConcat(Lower(stem), ValidTypes[i]);
  }

  // ---------------------------------------------------------------- private addresses

  /** The address blocks of section 3 of RFC 1918, given the first two octets. */
  predicate InPrivateBlock(first: int, second: int) {
    first == 10 || (first == 172 && 16 <= second <= 31) || (first == 192 && second == 168)
  }

  /**
   * `isPrivateIP`: the text must split on '.' into exactly four pieces; the
   * first two pieces are read with `parseInt` and the address is private when
   * they fall in an RFC 1918 block. A piece that does not parse (NaN) equals
   * no number.
   */
  function IsPrivateIP(ip: string): (r: bool)
    ensures r ==> Count(ip, '.') == 3
    ensures r ==> ParseInt(Split(ip, '.')[0]) in {Some(10), Some(172), Some(192)}
  {
    var parts := Split(ip, '.');
    if |parts| != 4 then false
    else
      var first := ParseInt(parts[0]);
      var second := ParseInt(parts[1]);
      first == Some(10)
      || (first == Some(172) && second.Some? && second.value >= 16 && second.value <= 31)
      || (first == Some(192) && second == Some(168))
  }

  /** The dotted-quad text of four octets. */
  function DottedQuad(a: nat, b: nat, c: nat, d: nat): string {
    Join([NatToDecimal(a), NatToDecimal(b), NatToDecimal(c), NatToDecimal(d)], '.')
  }

  lemma DecimalHasNoDot(n: nat)
    ensures '.' !in NatToDecimal(n)
  {
    var s := NatToDecimal(n);
    assert forall i :: 0 <= i < |s| ==> s[i] != '.' by {
      forall i | 0 <= i < |s| ensures s[i] != '.' {
        assert IsDigit(s[i]);
      }
    }
  }

  /** On the canonical text of an address, `isPrivateIP` is exactly RFC 1918 membership. */
  lemma PrivateDottedQuad(a: nat, b: nat, c: nat, d: nat)
    ensures IsPrivateIP(DottedQuad(a, b, c, d)) <==> InPrivateBlock(a, b)
  {
    var parts := [NatToDecimal(a), NatToDecimal(b), NatToDecimal(c), NatToDecimal(d)];
    DecimalHasNoDot(a);
    DecimalHasNoDot(b);
    DecimalHasNoDot(c);
    DecimalHasNoDot(d);
    SplitJoin(parts, '.');
    ParseDecimalPrefix(a, "");
    ParseDecimalPrefix(b, "");
    assert NatToDecimal(a) + "" == NatToDecimal(a);
    assert NatToDecimal(b) + "" == NatToDecimal(b);
  }

  /** The last two pieces never matter: `10.x.y.z` is private whatever x, y and z are. */
  lemma PrivacyIgnoresLastPieces(p0: string, p1: string, p2: string, p3: string, q2: string, q3: string)
    requires '.' !in p0 && '.' !in p1 && '.' !in p2 && '.' !in p3 && '.' !in q2 && '.' !in q3
    ensures IsPrivateIP(Join([p0, p1, p2, p3], '.')) == IsPrivateIP(Join([p0, p1, q2, q3], '.'))
  {
    SplitJoin([p0, p1, p2, p3], '.');
    SplitJoin([p0, p1, q2, q3], '.');
  }

  const InternalToExternal := "内网到外网通信"
  const ExternalToInternal := "外网到内网通信"
  const InternalOnly := "内网通信"
  const ExternalOnly := "外网通信"

  /** `getConversationDescription`: one of four labels, chosen by which ends are private. */
  function GetConversationDescription(sourceIP: string, destIP: string): (desc: string)
    ensures desc == InternalToExternal <==> IsPrivateIP(sourceIP) && !IsPrivateIP(destIP)
    ensures desc == ExternalToInternal <==> !IsPrivateIP(sourceIP) && IsPrivateIP(destIP)
    ensures desc == InternalOnly <==> IsPrivateIP(sourceIP) && IsPrivateIP(destIP)
    ensures desc == ExternalOnly <==> !IsPrivateIP(sourceIP) && !IsPrivateIP(destIP)
  {
    if IsPrivateIP(sourceIP) && !IsPrivateIP(destIP) then InternalToExternal
    else if !IsPrivateIP(sourceIP) && IsPrivateIP(destIP) then ExternalToInternal
    else if IsPrivateIP(sourceIP) && IsPrivateIP(destIP) then InternalOnly
    else ExternalOnly
  }

  /** The label depends on nothing but the privacy of the two ends, and tells both apart. */
  lemma DescriptionDeterminedByPrivacy(s1: string, d1: string, s2: string, d2: string)
    ensures GetConversationDescription(s1, d1) == GetConversationDescription(s2, d2)
            <==> IsPrivateIP(s1) == IsPrivateIP(s2) && IsPrivateIP(d1) == IsPrivateIP(d2)
  {
  }

  // ---------------------------------------------------------------- truncation

  /** Whether `truncateUrl` cuts: the URL is non-empty and longer than `maxLength`. */
  predicate Truncates(url: string, maxLength: int) {
    |url| > 0 && |url| > maxLength
  }

  /**
   * `truncateUrl`: an empty URL or one no longer than `maxLength` comes back
   * unchanged; a longer one is cut to its first `maxLength` characters (none
   * when `maxLength` is negative, as `substring` clamps) followed by "...".
   */
  function TruncateUrl(url: string, maxLength: int): (r: string)
    ensures !Truncates(url, maxLength) ==> r == url
    ensures Truncates(url, maxLength) ==>
              && |r| == Max(maxLength, 0) + 3
              && r[..|r| - 3] == url[..|r| - 3]
              && EndsWith(r, "...")
    ensures maxLength >= 0 ==> |r| <= maxLength + 3
  {
    if |url| == 0 || |url| <= maxLength then url
    else
      var cut := Max(maxLength, 0);
      var r := url[..cut] + "...";
      assert r[..cut] == url[..cut];
      assert r[cut..] == "...";
      r
  }

  // ---------------------------------------------------------------- HTTP status colours

  const ColorMissing := "#9ca3af"
  const ColorSuccess := "#10b981"
  const ColorRedirect := "#f59e0b"
  const ColorClientError := "#ef4444"
  const ColorServerError := "#dc2626"
  const ColorOther := "#6b7280"

  /**
   * `getHttpStatusColor`: `None` stands for a missing (`undefined`, `null`,
   * NaN) code; a missing code and 0 are falsy.
   */
  function GetHttpStatusColor(statusCode: Option<int>): (color: string)
    ensures color == ColorMissing <==> statusCode == None || statusCode == Some(0)
    ensures statusCode.Some? && 200 <= statusCode.value < 300 ==> color == ColorSuccess
    ensures statusCode.Some? && 300 <= statusCode.value < 400 ==> color == ColorRedirect
    ensures statusCode.Some? && 400 <= statusCode.value < 500 ==> color == ColorClientError
    ensures statusCode.Some? && 500 <= statusCode.value ==> color == ColorServerError
    ensures color == ColorOther <==> statusCode.Some? && statusCode.value != 0 && statusCode.value < 200
  {
    match statusCode
    case None => ColorMissing
    case Some(code) =>
      if code == 0 then ColorMissing
      else if code >= 200 && code < 300 then ColorSuccess
      else if code >= 300 && code < 400 then ColorRedirect
      else if code >= 400 && code < 500 then ColorClientError
      else if code >= 500 then ColorServerError
      else ColorOther
  }

  // ---------------------------------------------------------------- lookup tables

  /** The status keys the three status tables know, in the source's order. */
  const StatusKeys: seq<string> := ["pending", "processing", "running", "completed", "failed"]

  /** `getStatusClass`; unknown keys get `status-processing`. */
  function GetStatusClass(status: string): (cls: string)
    ensures status !in StatusKeys ==> cls == "status-processing"
    ensures cls == "status-completed" <==> status == "completed"
    ensures cls == "status-failed" <==> status == "failed"
  {
    if status == "pending" || status == "processing" || status == "running" then "status-processing"
    else if status == "completed" then "status-completed"
    else if status == "failed" then "status-failed"
    else "status-processing"
  }

  const UnknownStatusText := "未知状态"

  /** `getStatusText`; unknown keys get the "unknown status" text. */
  function GetStatusText(status: string): (text: string)
    ensures text == UnknownStatusText <==> status !in StatusKeys
    ensures status in StatusKeys[1..3] <==> text == "分析中"
  {
    if status == "pending" then "等待分析"
    else if status == "processing" || status == "running" then "分析中"
    else if status == "completed" then "分析完成"
    else if status == "failed" then "分析失败"
    else UnknownStatusText
  }

  /** `getStatusIcon`; unknown keys get the question-mark icon. */
  function GetStatusIcon(status: string): (icon: string)
    ensures icon == "fa-question-circle" <==> status !in StatusKeys
  {
    if status == "pending" then "fa-clock"
    else if status == "processing" || status == "running" then "fa-spinner fa-spin"
    else if status == "completed" then "fa-check-circle"
    else if status == "failed" then "fa-exclamation-circle"
    else "fa-question-circle"
  }

  /** The three status tables agree on which keys they know. */
  lemma StatusTablesAgree(status: string)
    ensures GetStatusText(status) == UnknownStatusText <==> GetStatusIcon(status) == "fa-question-circle"
    ensures GetStatusText(status) == UnknownStatusText ==> GetStatusClass(status) == "status-processing"
  {
  }

  datatype SeverityConfig = SeverityConfig(labelText: string, bgColor: string, textColor: string)

  const SeverityCritical := SeverityConfig("严重", "#fef2f2", "#dc2626")
  const SeverityHigh := SeverityConfig("高", "#fef3e2", "#ea580c")
  const SeverityMedium := SeverityConfig("中", "#fefce8", "#ca8a04")
  const SeverityLow := SeverityConfig("低", "#f0fdf4", "#16a34a")

  /** `getSeverityConfig`; unknown severities are shown as medium. */
  function GetSeverityConfig(severity: string): (c: SeverityConfig)
    ensures c == SeverityMedium <==> severity !in ["critical", "high", "low"]
    ensures severity == "critical" <==> c == SeverityCritical
    ensures severity == "high" <==> c == SeverityHigh
    ensures severity == "low" <==> c == SeverityLow
  {
    if severity == "critical" then SeverityCritical
    else if severity == "high" then SeverityHigh
    else if severity == "medium" then SeverityMedium
    else if severity == "low" then SeverityLow
    else SeverityMedium
  }

  datatype HealthConfig = HealthConfig(
    title: string, description: string, bgColor: string, borderColor: string,
    iconColor: string, textColor: string, icon: string)

  const HealthGood := HealthConfig(
    "网络健康状况良好", "未检测到严重的性能或安全问题，网络运行状态正常",
    "rgba(16, 185, 129, 0.1)", "#10b981", "#059669", "#059669", "fas fa-check-circle")
  const HealthWarning := HealthConfig(
    "发现潜在问题", "检测到一些需要关注的性能或安全问题，建议及时处理",
    "rgba(245, 158, 11, 0.1)", "#f59e0b", "#d97706", "#d97706", "fas fa-exclamation-triangle")
  const HealthCritical := HealthConfig(
    "发现严重问题", "检测到严重的安全风险或性能问题，需要立即处理",
    "rgba(239, 68, 68, 0.1)", "#ef4444", "#dc2626", "#dc2626", "fas fa-exclamation-circle")

  /** `getHealthConfig`; unknown statuses are shown as good. */
  function GetHealthConfig(status: string): (c: HealthConfig)
    ensures c == HealthGood <==> status != "warning" && status != "critical"
    ensures c == HealthWarning <==> status == "warning"
    ensures c == HealthCritical <==> status == "critical"
  {
    if status == "good" then HealthGood
    else if status == "warning" then HealthWarning
    else if status == "critical" then HealthCritical
    else HealthGood
  }

  /** The anomaly types that have a title of their own, in the source's order. */
  const AnomalyTypes: seq<string> := [
    "high_icmp_traffic", "port_scan_detected", "ddos_attack", "high_retransmission",
    "unusual_protocol", "large_packets", "high_traffic_volume"]
  const AnomalyTitles: seq<string> := [
    "ICMP流量异常", "端口扫描攻击", "DDoS攻击迹象", "TCP重传过多",
    "异常协议使用", "异常大数据包", "流量峰值异常"]

  /** `getAnomalyTitle`; a type without a title is shown as itself. */
  function GetAnomalyTitle(kind: string): (title: string)
    ensures kind !in AnomalyTypes ==> title == kind
    ensures forall i :: 0 <= i < |AnomalyTypes| && AnomalyTypes[i] == kind ==> title == AnomalyTitles[i]
  {
    if kind == "high_icmp_traffic" then "ICMP流量异常"
    else if kind == "port_scan_detected" then "端口扫描攻击"
    else if kind == "ddos_attack" then "DDoS攻击迹象"
    else if kind == "high_retransmission" then "TCP重传过多"
    else if kind == "unusual_protocol" then "异常协议使用"
    else if kind == "large_packets" then "异常大数据包"
    else if kind == "high_traffic_volume" then "流量峰值异常"
    else kind
  }
}
