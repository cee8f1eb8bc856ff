/**
 * The build registry's log and metric classifiers: the HTTP error rate of the
 * application log, the status read from its recent lines, the lines that mention an
 * app, and the response time derived from status and error rate.
 */
module BuildRegistry {
  import opened Wrappers
  import opened Text

  /** Codes whose presence makes a line an HTTP request line. */
  const RequestCodes: seq<string> := ["200", "401", "422", "500"]
  /** Markers that make a request line an error. */
  const ErrorMarkers: seq<string> := ["401", "422", "500", "ERROR", "FAILED"]
  /** Markers of trouble in the upper-cased recent lines. */
  const StatusMarkers: seq<string> := ["ERROR", "FAILED", "500"]

  const StatusWindow: nat := 50
  const BuildLogWindow: nat := 20

  predicate IsRequestLine(line: string) {
    ContainsAny(line, RequestCodes)
  }

  /** Errors are counted only among request lines. */
  predicate IsErrorRequest(line: string) {
    IsRequestLine(line) && ContainsAny(line, ErrorMarkers)
  }

  /**
   * `get_error_rate`: the share of request lines that are errors; 0 for a missing
   * log or one without request lines.
   */
  method GetErrorRate(log: Option<seq<string>>) returns (rate: real)
    ensures 0.0 <= rate <= 1.0
    ensures log.None? ==> rate == 0.0
    ensures log.Some? && Count(log.value, IsRequestLine) == 0 ==> rate == 0.0
    ensures log.Some? && Count(log.value, IsRequestLine) > 0 ==>
              rate == Count(log.value, IsErrorRequest) as real / Count(log.value, IsRequestLine) as real
    ensures rate == 0.0 <==> log.None? || Count(log.value, IsErrorRequest) == 0
  {
    if log.None? {
      return 0.0;
    }
    var lines := log.value;
    var totalRequests := 0;
    var errorCount := 0;
    var i := 0;
    while i < |lines|
      invariant 0 <= i <= |lines|
      invariant totalRequests == Count(lines[..i], IsRequestLine)
      invariant errorCount == Count(lines[..i], IsErrorRequest)
    {
      assert lines[..i + 1][..i] == lines[..i];
      if IsRequestLine(lines[i]) {
        totalRequests := totalRequests + 1;
        if ContainsAny(lines[i], ErrorMarkers) {
          errorCount := errorCount + 1;
        }
      }
      i := i + 1;
    }
    assert lines[..i] == lines;
    CountMonotone(lines, IsErrorRequest, IsRequestLine);
    if totalRequests > 0 {
      RatioInUnit(errorCount, totalRequests);
      rate := errorCount as real / totalRequests as real;
    } else {
      rate := 0.0;
    }
  }

  predicate IsTroubleLine(line: string) {
    ContainsAny(Upper(line), StatusMarkers)
  }

  /** The thresholds of `_analyze_logs_for_status`: more than 10 hits fail, more than 3 degrade. */
  function StatusFromHits(hits: nat): (status: string)
    ensures status == "failed" <==> hits > 10
    ensures status == "degraded" <==> 3 < hits <= 10
    ensures status == "healthy" <==> hits <= 3
  {
    if hits > 10 then "failed" else if hits > 3 then "degraded" else "healthy"
  }

  /** `_analyze_logs_for_status`: the status read from the last 50 lines, `unknown` without a log. */
  method AnalyzeLogsForStatus(log: Option<seq<string>>) returns (status: string)
    ensures log.None? <==> status == "unknown"
    ensures log.Some? ==> status == StatusFromHits(Count(LastN(log.value, StatusWindow), IsTroubleLine))
  {
    if log.None? {
      return "unknown";
    }
    var recent := LastN(log.value, StatusWindow);
    var errorCount := 0;
    var i := 0;
    while i < |recent|
      invariant 0 <= i <= |recent|
      invariant errorCount == Count(recent[..i], IsTroubleLine)
    {
      assert recent[..i + 1][..i] == recent[..i];
      if IsTroubleLine(recent[i]) {
        errorCount := errorCount + 1;
      }
      i := i + 1;
    }
    assert recent[..i] == recent;
    status := StatusFromHits(errorCount);
  }

  /** Lines older than the last 50 never change the status. */
  lemma OnlyRecentLinesMatter(older: seq<string>, recent: seq<string>)
    requires |recent| >= StatusWindow
    ensures LastN(older + recent, StatusWindow) == LastN(recent, StatusWindow)
  {
    var s := older + recent;
    assert s[|s| - StatusWindow..] == recent[|recent| - StatusWindow..];
  }

  /** The line mentions the app or the env, ignoring case. */
  predicate MentionsApp(app: string, env: string, line: string) {
    Contains(Lower(line), Lower(app)) || Contains(Lower(line), Lower(env))
  }

  function Mentions(app: string, env: string): string -> bool {
    (line: string) => MentionsApp(app, env, line)
  }

  /** The stripped lines that mention the app or the env, in log order. */
  function RelevantLines(lines: seq<string>, app: string, env: string): seq<string> {
    FilterMap(lines, Mentions(app, env), Strip)
  }

  /** `x` is the stripped form of a log line that mentions the app or the env. */
  predicate StrippedMention(lines: seq<string>, app: string, env: string, x: string) {
    exists j :: 0 <= j < |lines| && MentionsApp(app, env, lines[j]) && x == Strip(lines[j])
  }

  /**
   * Exactly the mentioning lines are kept, stripped: each kept line comes from one,
   * and each one is kept.
   */
  lemma RelevantLinesExact(lines: seq<string>, app: string, env: string)
    ensures |RelevantLines(lines, app, env)| == Count(lines, Mentions(app, env))
    ensures forall k :: 0 <= k < |RelevantLines(lines, app, env)| ==> StrippedMention(lines, app, env, RelevantLines(lines, app, env)[k])
    ensures forall j :: 0 <= j < |lines| && MentionsApp(app, env, lines[j]) ==> Strip(lines[j]) in RelevantLines(lines, app, env)
  {
    forall k | 0 <= k < |RelevantLines(lines, app, env)|
      ensures StrippedMention(lines, app, env, RelevantLines(lines, app, env)[k])
    {
      FilterMapFrom(lines, Mentions(app, env), Strip, k);
      var j :| 0 <= j < |lines| && Mentions(app, env)(lines[j]) && RelevantLines(lines, app, env)[k] == Strip(lines[j]);
      assert MentionsApp(app, env, lines[j]);
    }
    forall j | 0 <= j < |lines| && MentionsApp(app, env, lines[j])
      ensures Strip(lines[j]) in RelevantLines(lines, app, env)
    {
      FilterMapKeeps(lines, Mentions(app, env), Strip, j);
    }
  }

  /** `get_build_logs`: the last 20 relevant lines; none without a log. */
  method GetBuildLogs(log: Option<seq<string>>, app: string, env: string) returns (logs: seq<string>)
    ensures log.None? ==> logs == []
    ensures log.Some? ==> logs == LastN(RelevantLines(log.value, app, env), BuildLogWindow)
    ensures |logs| <= BuildLogWindow
    ensures log.Some? && Count(log.value, Mentions(app, env)) <= BuildLogWindow ==>
              logs == RelevantLines(log.value, app, env)
  {
    if log.None? {
      return [];
    }
    var lines := log.value;
    var appLogs: seq<string> := [];
    var i := 0;
    while i < |lines|
      invariant 0 <= i <= |lines|
      invariant appLogs == RelevantLines(lines[..i], app, env)
    {
      assert lines[..i + 1][..i] == lines[..i];
      assert RelevantLines(lines[..i + 1], app, env) == appLogs + (if MentionsApp(app, env, lines[i]) then [Strip(lines[i])] else []);
      if MentionsApp(app, env, lines[i]) {
        appLogs := appLogs + [Strip(lines[i])];
      }
      i := i + 1;
    }
    assert lines[..i] == lines;
    logs := LastN(appLogs, BuildLogWindow);
  }

  /** `get_app_metrics`: the response time implied by the status and the error rate. */
  function ResponseTime(status: string, errorRate: real): (ms: int)
    requires 0.0 <= errorRate <= 1.0
    ensures status == "healthy" ==> 100 <= ms <= 1100
    ensures status == "degraded" ==> 300 <= ms <= 2300
    ensures status != "healthy" && status != "degraded" ==> 1000 <= ms <= 4000
    ensures errorRate == 0.0 ==> ms == (if status == "healthy" then 100 else if status == "degraded" then 300 else 1000)
  {
    if status == "healthy" then 100 + Trunc(errorRate * 1000.0)
    else if status == "degraded" then 300 + Trunc(errorRate * 2000.0)
    else 1000 + Trunc(errorRate * 3000.0)
  }

  /** A higher error rate never lowers the response time for the same status. */
  lemma ResponseTimeMonotone(status: string, e1: real, e2: real)
    requires 0.0 <= e1 <= e2 <= 1.0
    ensures ResponseTime(status, e1) <= ResponseTime(status, e2)
  {
    var scale := if status == "healthy" then 1000.0 else if status == "degraded" then 2000.0 else 3000.0;
    TruncMonotone(e1 * scale, e2 * scale);
  }

  lemma TruncMonotone(x: real, y: real)
    requires 0.0 <= x <= y
    ensures Trunc(x) <= Trunc(y)
  {
  }

  /** What `/health` answered: its HTTP code and the `status` field, or nothing reachable. */
  datatype HealthProbe = Answered(code: int, status: Option<string>) | Unreachable

  /** `get_health_status`: the endpoint's status on 200, failed on another code, the logs when unreachable. */
  method GetHealthStatus(probe: HealthProbe, log: Option<seq<string>>) returns (status: string)
    ensures probe.Answered? && probe.code == 200 ==> status == probe.status.GetOr("healthy")
    ensures probe.Answered? && probe.code != 200 ==> status == "failed"
    ensures probe.Unreachable? ==> (log.None? <==> status == "unknown")
    ensures probe.Unreachable? && log.Some? ==>
              status == StatusFromHits(Count(LastN(log.value, StatusWindow), IsTroubleLine))
  {
    match probe
    case Answered(code, reported) =>
      status := if code == 200 then reported.GetOr("healthy") else "failed";
    case Unreachable =>
      status := AnalyzeLogsForStatus(log);
  }

  datatype Performance = Performance(cpu: real, memory: real, disk: real, uptime: int)

  /** The `/metrics` payload fields `cpu_percent`, `memory_percent`, `disk_percent`, `uptime_seconds`. */
  datatype MetricsPayload = MetricsPayload(cpu: Option<real>, memory: Option<real>, disk: Option<real>, uptime: Option<int>)

  const FallbackPerformance := Performance(0.5, 0.4, 0.3, 3600)

  /** `get_performance_metrics`: the payload on 200 with missing fields 0, the fixed fallback otherwise. */
  function GetPerformanceMetrics(code: Option<int>, payload: MetricsPayload): (p: Performance)
    ensures code != Some(200) ==> p == FallbackPerformance
    ensures code == Some(200) ==>
              p.cpu == payload.cpu.GetOr(0.0) && p.memory == payload.memory.GetOr(0.0)
              && p.disk == payload.disk.GetOr(0.0) && p.uptime == payload.uptime.GetOr(0)
  {
    if code == Some(200) then
      Performance(payload.cpu.GetOr(0.0), payload.memory.GetOr(0.0), payload.disk.GetOr(0.0), payload.uptime.GetOr(0))
    else FallbackPerformance
  }

  datatype AppMetrics = AppMetrics(status: string, errorRate: real, responseTime: int, performance: Performance)

  /** `get_app_metrics`: status, error rate and performance from their sources, and the derived response time. */
  method GetAppMetrics(probe: HealthProbe, metricsCode: Option<int>, payload: MetricsPayload,
                       log: Option<seq<string>>) returns (m: AppMetrics)
    ensures probe.Answered? && probe.code == 200 ==> m.status == probe.status.GetOr("healthy")
    ensures probe.Answered? && probe.code != 200 ==> m.status == "failed"
    ensures probe.Unreachable? && log.Some? ==>
              m.status == StatusFromHits(Count(LastN(log.value, StatusWindow), IsTroubleLine))
    ensures 0.0 <= m.errorRate <= 1.0
    ensures log.None? || Count(log.value, IsRequestLine) == 0 ==> m.errorRate == 0.0
    ensures log.Some? && Count(log.value, IsRequestLine) > 0 ==>
              m.errorRate == Count(log.value, IsErrorRequest) as real / Count(log.value, IsRequestLine) as real
    ensures m.responseTime == ResponseTime(m.status, m.errorRate)
    ensures m.performance == GetPerformanceMetrics(metricsCode, payload)
    ensures probe.Unreachable? && log.None? ==> m.status == "unknown" && m.errorRate == 0.0 && m.responseTime == 1000
  {
    var status := GetHealthStatus(probe, log);
    var errorRate := GetErrorRate(log);
    m := AppMetrics(status, errorRate, ResponseTime(status, errorRate), GetPerformanceMetrics(metricsCode, payload));
  }
}
