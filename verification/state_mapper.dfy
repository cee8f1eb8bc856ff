/**
 * The state mapper: the discrete Q-table state key `app_env_status_errN` and the
 * whole-file log classifier.
 */
module StateMapper {
  import opened Wrappers
  import opened Text
  import opened Observations

  /** `int(error_rate * 100)`: the error rate in whole percent, truncated toward zero. */
  function ErrorBucket(errorRate: real): int {
    Trunc(errorRate * 100.0)
  }

  /** `f"{app}_{env}_{status}_err{int(error_rate*100)}"`. */
  function StateKey(app: string, env: string, status: string, errorRate: real): string {
    app + "_" + (env + "_" + (status + "_" + ("err" + IntToString(ErrorBucket(errorRate)))))
  }

  /**
   * `extract_state`: the key for the metrics the registry or the orchestrator returned,
   * or, when neither is available (`None`), for the healthy, error-free fallback.
   */
  function ExtractState(app: string, env: string, metrics: Option<Observation>): (key: string)
    ensures metrics.None? ==> key == app + "_" + env + "_healthy_err0"
    ensures metrics.Some? ==>
              key == StateKey(app, env, metrics.value.status.GetOr("unknown"), metrics.value.errorRate.GetOr(0.0))
  {
    match metrics
    case None => StateKey(app, env, "healthy", 0.0)
    case Some(m) => StateKey(app, env, m.status.GetOr("unknown"), m.errorRate.GetOr(0.0))
  }

  /** The fallback key ends in `_healthy_err0`. */
  lemma FallbackKeySuffix(app: string, env: string)
    ensures EndsWith(ExtractState(app, env, None), "_healthy_err0")
  {
    var key := ExtractState(app, env, None);
    assert key[|key| - |"_healthy_err0"|..] == "_healthy_err0";
  }

  /** Splitting `p + "_" + rest` at its first `_` gives back `p` and `rest` when `p` has none. */
  lemma SplitAfterPrefix(p: string, rest: string)
    requires '_' !in p
    ensures SplitFirst(p + "_" + rest, '_') == [p, rest]
  {
    var s := p + "_" + rest;
    assert s == p + ['_'] + rest;
    IndexOfAfterPrefix(p, '_', rest);
    assert s[..|p|] == p;
    assert s[|p| + 1..] == rest;
  }

  /** Two `_`-joined strings with `_`-free heads are equal only when heads and rests are. */
  lemma SplitUnique(p1: string, rest1: string, p2: string, rest2: string)
    requires '_' !in p1 && '_' !in p2
    requires p1 + "_" + rest1 == p2 + "_" + rest2
    ensures p1 == p2 && rest1 == rest2
  {
    SplitAfterPrefix(p1, rest1);
    SplitAfterPrefix(p2, rest2);
  }

  /**
   * With `_`-free app, env and status, the key determines all three and the error
   * bucket: distinct states get distinct Q-table rows.
   */
  lemma StateKeyInjective(app1: string, env1: string, status1: string, rate1: real,
                          app2: string, env2: string, status2: string, rate2: real)
    requires '_' !in app1 && '_' !in env1 && '_' !in status1
    requires '_' !in app2 && '_' !in env2 && '_' !in status2
    requires StateKey(app1, env1, status1, rate1) == StateKey(app2, env2, status2, rate2)
    ensures app1 == app2 && env1 == env2 && status1 == status2
    ensures ErrorBucket(rate1) == ErrorBucket(rate2)
  {
    var n1, n2 := ErrorBucket(rate1), ErrorBucket(rate2);
    var tail1, tail2 := "err" + IntToString(n1), "err" + IntToString(n2);
    var afterEnv1, afterEnv2 := status1 + "_" + tail1, status2 + "_" + tail2;
    var afterApp1, afterApp2 := env1 + "_" + afterEnv1, env2 + "_" + afterEnv2;
    SplitUnique(app1, afterApp1, app2, afterApp2);
    SplitUnique(env1, afterEnv1, env2, afterEnv2);
    SplitUnique(status1, tail1, status2, tail2);
    assert IntToString(n1) == tail1[3..] && IntToString(n2) == tail2[3..];
    IntToStringInjective(n1, n2);
  }

  /** An `_` in the app or env name lets two different states share one key. */
  lemma UnderscoreNamesCollide()
    ensures StateKey("a_b", "c", "healthy", 0.0) == StateKey("a", "b_c", "healthy", 0.0)
  {
  }

  /** What `parse_log_to_metrics` returns. */
  datatype LogMetrics = LogMetrics(errorRate: real, responseTime: int, status: string)

  predicate IsFailureLine(line: string) {
    Contains(line, "ERROR") || Contains(line, "FAIL")
  }

  /**
   * `parse_log_to_metrics`: defaults for a missing file; otherwise the share of lines
   * mentioning ERROR or FAIL, failed above one half, degraded for any, else healthy.
   */
  function ParseLogToMetrics(log: Option<seq<string>>): (m: LogMetrics)
    ensures log.None? ==> m == LogMetrics(0.0, 0, "healthy")
    ensures 0.0 <= m.errorRate <= 1.0 && m.responseTime == 0
    ensures log.Some? && log.value != [] ==>
              m.errorRate == Count(log.value, IsFailureLine) as real / |log.value| as real
    ensures log.Some? ==>
              && (m.status == "failed" <==> 2 * Count(log.value, IsFailureLine) > |log.value|)
              && (m.status == "degraded" <==> 0 < Count(log.value, IsFailureLine) && 2 * Count(log.value, IsFailureLine) <= |log.value|)
              && (m.status == "healthy" <==> Count(log.value, IsFailureLine) == 0)
    ensures m.status == "healthy" <==> m.errorRate == 0.0
  {
    match log
    case None => LogMetrics(0.0, 0, "healthy")
    case Some(lines) =>
      var errors := Count(lines, IsFailureLine);
      var total := |lines|;
      var rate := if total > 0 then errors as real / total as real else 0.0;
      var status := if errors as real > total as real * 0.5 then "failed"
                    else if errors > 0 then "degraded"
                    else "healthy";
      if total > 0 then
        RatioInUnit(errors, total);
        LogMetrics(rate, 0, status)
      else
        LogMetrics(rate, 0, status)
  }
}
