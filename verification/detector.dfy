/**
 * Dynamic state detection: readings from several providers merged in a fixed
 * order, the log-line classifier, the environment-based fallback, and the
 * normalisation that clamps metrics and derives a missing status.
 */
module Detector {
  import opened Wrappers
  import opened Text

  /** The keys a provider reading may carry. */
  datatype Key = Status | ErrorRate | AvgLatency | CpuUsage | MemoryUsage | Workers | Uptime

  /** A value in a reading: a number, a text, or Python's `None`. */
  datatype Value = Num(n: real) | Text(s: string) | Null

  /** One provider's dictionary. */
  type Reading = map<Key, Value>

  /** The providers, in the order `extract_real_state` consults them. */
  const MetricSources := ["logs", "process", "http_health", "docker"]

  // ---------------------------------------------------------------- merging

  /** Provider `o` returned a reading holding `k`. */
  predicate Provides(o: Option<Reading>, k: Key) {
    o.Some? && k in o.value
  }

  /** The readings folded left with `dict.update`; a failed provider (`None`) is skipped. */
  function Merge(readings: seq<Option<Reading>>): Reading {
    if readings == [] then map[]
    else
      var before := Merge(readings[..|readings| - 1]);
      var last := readings[|readings| - 1];
      if last.Some? then before + last.value else before
  }

  /** A key is merged exactly when some provider supplied it. */
  lemma {:induction false} MergeKeys(readings: seq<Option<Reading>>)
    ensures forall k :: k in Merge(readings) <==> exists i :: 0 <= i < |readings| && Provides(readings[i], k)
  {
    if readings != [] {
      var init := readings[..|readings| - 1];
      MergeKeys(init);
      forall k | k in Merge(readings) ensures exists i :: 0 <= i < |readings| && Provides(readings[i], k) {
        if !Provides(readings[|readings| - 1], k) {
          assert k in Merge(init);
          var i :| 0 <= i < |init| && Provides(init[i], k);
          assert readings[i] == init[i];
        }
      }
      forall k | exists i :: 0 <= i < |readings| && Provides(readings[i], k) ensures k in Merge(readings) {
        var i :| 0 <= i < |readings| && Provides(readings[i], k);
        if i < |init| {
          assert Provides(init[i], k);
        }
      }
    }
  }

  /** The last provider holding a key decides its value: later providers overwrite earlier ones. */
  lemma {:induction false} LastProviderWins(readings: seq<Option<Reading>>, j: nat, k: Key)
    requires j < |readings| && Provides(readings[j], k)
    requires forall i :: j < i < |readings| ==> !Provides(readings[i], k)
    ensures k in Merge(readings) && Merge(readings)[k] == readings[j].value[k]
  {
    var init := readings[..|readings| - 1];
    if j < |readings| - 1 {
      assert !Provides(readings[|readings| - 1], k);
      LastProviderWins(init, j, k);
    }
  }

  // ---------------------------------------------------------------- the log provider

  predicate IsErrorLine(line: string) {
    Contains(line, "ERROR") || Contains(line, "FATAL")
  }

  predicate IsWarnLine(line: string) {
    Contains(line, "WARN")
  }

  function Sum(xs: seq<real>): real {
    if xs == [] then 0.0 else Sum(xs[..|xs| - 1]) + xs[|xs| - 1]
  }

  /** The status the log provider reports for the given counts. */
  function LogStatus(errors: nat, warnings: nat): (s: string)
    ensures s == "failed" <==> errors > 5
    ensures s == "degraded" <==> errors <= 5 && warnings > 10
    ensures s == "healthy" <==> errors <= 5 && warnings <= 10
  {
    if errors > 5 then "failed" else if warnings > 10 then "degraded" else "healthy"
  }

  /**
   * `_extract_from_logs`: `None` without a log file; otherwise the classification of the
   * last 100 lines. `latencies` are the values the line parser found (parsing is not modelled).
   */
  method ExtractFromLogs(log: Option<seq<string>>, latencies: seq<real>) returns (r: Option<Reading>)
    ensures r.None? <==> log.None?
    ensures r.Some? ==>
              var recent := LastN(log.value, 100);
              var errors := Count(recent, IsErrorLine);
              && r.value.Keys == {Status, ErrorRate, AvgLatency}
              && r.value[Status] == Text(LogStatus(errors, Count(recent, IsWarnLine)))
              && r.value[ErrorRate] == Num(errors as real / 100.0)
              && 0.0 <= r.value[ErrorRate].n <= 1.0
              && (latencies == [] <==> r.value[AvgLatency] == Null)
              && (latencies != [] ==> r.value[AvgLatency] == Num(Sum(latencies) / |latencies| as real))
  {
    if log.None? {
      return None;
    }
    var recent := LastN(log.value, 100);
    var errors := 0;
    var warnings := 0;
    var i := 0;
    while i < |recent|
      invariant 0 <= i <= |recent|
      invariant errors == Count(recent[..i], IsErrorLine)
      invariant warnings == Count(recent[..i], IsWarnLine)
    {
      assert recent[..i + 1][..i] == recent[..i];
      if IsErrorLine(recent[i]) {
        errors := errors + 1;
      }
      if IsWarnLine(recent[i]) {
        warnings := warnings + 1;
      }
      i := i + 1;
    }
    assert recent[..i] == recent;
    var average := if latencies == [] then Null else Num(Sum(latencies) / |latencies| as real);
    var errorRate := if 1.0 <= errors as real / 100.0 then 1.0 else errors as real / 100.0;
    assert errors <= 100;
    r := Some(map[Status := Text(LogStatus(errors, warnings)), ErrorRate := Num(errorRate), AvgLatency := average]);
  }

  // ---------------------------------------------------------------- fallback

  /** `_intelligent_fallback`: production is assumed stable, other environments unstable. */
  function IntelligentFallback(env: string): (r: Reading)
    ensures r.Keys == {Status, ErrorRate, CpuUsage, MemoryUsage}
    ensures env == "prod" ==> r[Status] == Text("healthy") && r[ErrorRate] == Num(0.01)
                              && r[CpuUsage] == Num(0.6) && r[MemoryUsage] == Num(0.7)
    ensures env != "prod" ==> r[Status] == Text("degraded") && r[ErrorRate] == Num(0.05)
                              && r[CpuUsage] == Num(0.4) && r[MemoryUsage] == Num(0.5)
  {
    if env == "prod" then
      map[Status := Text("healthy"), ErrorRate := Num(0.01), CpuUsage := Num(0.6), MemoryUsage := Num(0.7)]
    else
      map[Status := Text("degraded"), ErrorRate := Num(0.05), CpuUsage := Num(0.4), MemoryUsage := Num(0.5)]
  }

  // ---------------------------------------------------------------- normalisation

  /** The state `_normalize_state` returns. `status` keeps whatever value the reading held. */
  datatype NormalState = NormalState(status: Value, errorRate: real, cpu: real, memory: real,
                                     avgLatency: real, workers: real, uptime: real)

  datatype NormalizeError = TypeError(key: Key)

  function Unit(x: real): (c: real)
    ensures 0.0 <= c <= 1.0
    ensures 0.0 <= x <= 1.0 ==> c == x
  {
    if x < 0.0 then 0.0 else if x > 1.0 then 1.0 else x
  }

  function AtLeast(lo: real, x: real): (c: real)
    ensures c >= lo && (x >= lo ==> c == x)
  {
    if x < lo then lo else x
  }

  /** The status derived from metrics when the reported one is `unknown`. */
  function DeriveStatus(errorRate: real, cpu: real, memory: real): (s: string)
    ensures s == "failed" <==> errorRate > 0.1
    ensures s == "degraded" <==> errorRate <= 0.1 && (cpu > 0.9 || memory > 0.95)
    ensures s == "healthy" <==> errorRate <= 0.1 && cpu <= 0.9 && memory <= 0.95
  {
    if errorRate > 0.1 then "failed" else if cpu > 0.9 || memory > 0.95 then "degraded" else "healthy"
  }

  /** The clamped record with the status derived when it reads `unknown`. */
  function Assemble(status: Value, errorRate: real, cpu: real, memory: real, latency: real,
                    workers: real, uptime: real): (n: NormalState)
    ensures 0.0 <= n.errorRate <= 1.0 && 0.0 <= n.cpu <= 1.0 && 0.0 <= n.memory <= 1.0
    ensures n.avgLatency >= 0.0 && n.workers >= 1.0 && n.uptime >= 0.0
    ensures n.status != Text("unknown")
    ensures status != Text("unknown") ==> n.status == status
    ensures status == Text("unknown") ==> n.status == Text(DeriveStatus(n.errorRate, n.cpu, n.memory))
  {
    var e, c, m := Unit(errorRate), Unit(cpu), Unit(memory);
    var derived := if status == Text("unknown") then Text(DeriveStatus(e, c, m)) else status;
    NormalState(derived, e, c, m, AtLeast(0.0, latency), AtLeast(1.0, workers), AtLeast(0.0, uptime))
  }

  /** `state.get(k, default)` passed to `min`/`max` as written: `None` and texts raise. */
  function NumberAsWritten(s: Reading, k: Key, default: real): (r: Result<real, NormalizeError>)
    ensures r.Failure? <==> k in s && !s[k].Num?
    ensures r.Success? && k in s ==> r.value == s[k].n
    ensures k !in s ==> r == Success(default)
  {
    if k !in s then Success(default)
    else match s[k]
      case Num(x) => Success(x)
      case _ => Failure(TypeError(k))
  }

  /** A numeric field read with `None` taken as absent: only a text raises. */
  function NumberOrDefault(s: Reading, k: Key, default: real): (r: Result<real, NormalizeError>)
    ensures r.Failure? <==> k in s && s[k].Text?
    ensures r.Success? && k in s && s[k].Num? ==> r.value == s[k].n
    ensures r.Success? && (k !in s || s[k] == Null) ==> r.value == default
  {
    if k !in s then Success(default)
    else match s[k]
      case Num(x) => Success(x)
      case Null => Success(default)
      case Text(_) => Failure(TypeError(k))
  }

  /** The numeric keys `_normalize_state` reads. */
  const NumericKeys := [ErrorRate, CpuUsage, MemoryUsage, AvgLatency, Workers, Uptime]

  /** `_normalize_state` as written: any numeric key holding a non-number raises `TypeError`. */
  function NormalizeAsWritten(s: Reading): (r: Result<NormalState, NormalizeError>)
    ensures r.Failure? <==> exists k :: k in NumericKeys && k in s && !s[k].Num?
  {
    var e := NumberAsWritten(s, ErrorRate, 0.0);
    var c := NumberAsWritten(s, CpuUsage, 0.0);
    var m := NumberAsWritten(s, MemoryUsage, 0.0);
    var l := NumberAsWritten(s, AvgLatency, 100.0);
    var w := NumberAsWritten(s, Workers, 1.0);
    var u := NumberAsWritten(s, Uptime, 0.0);
    if e.Failure? then Failure(e.error)
    else if c.Failure? then Failure(c.error)
    else if m.Failure? then Failure(m.error)
    else if l.Failure? then Failure(l.error)
    else if w.Failure? then Failure(w.error)
    else if u.Failure? then Failure(u.error)
    else
      var status := if Status in s then s[Status] else Text("unknown");
      Success(Assemble(status, e.value, c.value, m.value, l.value, w.value, u.value))
  }

  /**
   * `_normalize_state` with `None` read as a missing key, for every field: clamps
   * metrics, keeps an explicit status and derives a missing or `unknown` one.
   */
  function Normalize(s: Reading): (r: Result<NormalState, NormalizeError>)
    ensures r.Failure? <==> exists k :: k in NumericKeys && k in s && s[k].Text?
    ensures r.Success? ==>
              && 0.0 <= r.value.errorRate <= 1.0 && 0.0 <= r.value.cpu <= 1.0 && 0.0 <= r.value.memory <= 1.0
              && r.value.avgLatency >= 0.0 && r.value.workers >= 1.0 && r.value.uptime >= 0.0
              && r.value.status != Text("unknown")
    ensures r.Success? && Status in s && s[Status] != Null && s[Status] != Text("unknown") ==>
              r.value.status == s[Status]
    ensures r.Success? && (Status !in s || s[Status] == Null || s[Status] == Text("unknown")) ==>
              r.value.status == Text(DeriveStatus(r.value.errorRate, r.value.cpu, r.value.memory))
  {
    var e := NumberOrDefault(s, ErrorRate, 0.0);
    var c := NumberOrDefault(s, CpuUsage, 0.0);
    var m := NumberOrDefault(s, MemoryUsage, 0.0);
    var l := NumberOrDefault(s, AvgLatency, 100.0);
    var w := NumberOrDefault(s, Workers, 1.0);
    var u := NumberOrDefault(s, Uptime, 0.0);
    if e.Failure? then Failure(e.error)
    else if c.Failure? then Failure(c.error)
    else if m.Failure? then Failure(m.error)
    else if l.Failure? then Failure(l.error)
    else if w.Failure? then Failure(w.error)
    else if u.Failure? then Failure(u.error)
    else
      var status := if Status in s && s[Status] != Null then s[Status] else Text("unknown");
      Success(Assemble(status, e.value, c.value, m.value, l.value, w.value, u.value))
  }

  /** Where the source does not raise, the corrected normalisation gives the same state. */
  lemma NormalizeAgreesWhenNoNone(s: Reading)
    requires NormalizeAsWritten(s).Success?
    requires Status in s ==> s[Status] != Null
    ensures Normalize(s) == NormalizeAsWritten(s)
  {
  }

  /**
   * The log provider's reading when no latency was parsed holds `avg_latency: None`,
   * which the source's normalisation rejects and the corrected one accepts.
   */
  lemma LogReadingWithoutLatencyRejected(recentErrors: nat, recentWarnings: nat)
    requires recentErrors <= 100
    ensures var reading := map[Status := Text(LogStatus(recentErrors, recentWarnings)),
                               ErrorRate := Num(recentErrors as real / 100.0), AvgLatency := Null];
            && NormalizeAsWritten(reading) == Failure(TypeError(AvgLatency))
            && Normalize(reading).Success?
            && Normalize(reading).value.avgLatency == 100.0
  {
    var reading := map[Status := Text(LogStatus(recentErrors, recentWarnings)),
                       ErrorRate := Num(recentErrors as real / 100.0), AvgLatency := Null];
    assert AvgLatency in NumericKeys && AvgLatency in reading && !reading[AvgLatency].Num?;
    assert forall k :: k in NumericKeys && k in reading ==> !reading[k].Text?;
  }

  /** The fallback normalises to `healthy` in production and `degraded` elsewhere. */
  lemma FallbackNormalizes(env: string)
    ensures Normalize(IntelligentFallback(env)).Success?
    ensures Normalize(IntelligentFallback(env)).value.status == Text(if env == "prod" then "healthy" else "degraded")
  {
    var r := IntelligentFallback(env);
    assert forall k :: k in NumericKeys && k in r ==> r[k].Num?;
  }

  // ---------------------------------------------------------------- extract_real_state

  /** The merging loop of `extract_real_state`: each provider's reading updates the state in order. */
  method MergeReadings(readings: seq<Option<Reading>>) returns (state: Reading)
    ensures state == Merge(readings)
    ensures state == map[] <==> forall i, k :: 0 <= i < |readings| ==> !Provides(readings[i], k)
  {
    state := map[];
    var i := 0;
    while i < |readings|
      invariant 0 <= i <= |readings|
      invariant state == Merge(readings[..i])
    {
      assert readings[..i + 1][..i] == readings[..i];
      if readings[i].Some? && readings[i].value != map[] {
        state := state + readings[i].value;
      } else if readings[i].Some? {
        assert state + readings[i].value == state;
      }
      i := i + 1;
    }
    assert readings[..i] == readings;
    MergeKeys(readings);
    if Merge(readings) == map[] {
      forall i, k | 0 <= i < |readings| ensures !Provides(readings[i], k) {
        assert k !in Merge(readings);
      }
    } else {
      var k :| k in Merge(readings);
      var j :| 0 <= j < |readings| && Provides(readings[j], k);
    }
  }

  /**
   * `extract_real_state` as written: merge the readings of the four providers in
   * order (each `None` when the provider found nothing or raised), fall back when
   * nothing was merged, and normalise, where a `None` value raises.
   */
  method ExtractRealState(readings: seq<Option<Reading>>, env: string) returns (r: Result<NormalState, NormalizeError>)
    requires |readings| == |MetricSources|
    ensures r == NormalizeAsWritten(if Merge(readings) == map[] then IntelligentFallback(env) else Merge(readings))
    ensures Merge(readings) == map[] <==> forall i, k :: 0 <= i < |readings| ==> !Provides(readings[i], k)
  {
    var state := MergeReadings(readings);
    if state == map[] {
      state := IntelligentFallback(env);
    }
    r := NormalizeAsWritten(state);
  }

  /** `extract_real_state` corrected: as above, with `None` read as a missing value. */
  method ExtractRealStateCorrected(readings: seq<Option<Reading>>, env: string) returns (r: Result<NormalState, NormalizeError>)
    requires |readings| == |MetricSources|
    ensures r == Normalize(if Merge(readings) == map[] then IntelligentFallback(env) else Merge(readings))
    ensures Merge(readings) == map[] <==> forall i, k :: 0 <= i < |readings| ==> !Provides(readings[i], k)
  {
    var state := MergeReadings(readings);
    if state == map[] {
      state := IntelligentFallback(env);
    }
    r := Normalize(state);
  }

  /**
   * When the last provider supplying `avg_latency` supplied `None` (the log provider
   * that parsed no latency, with no later provider overriding it), the state as
   * written raises, while the corrected state uses the 100 ms default.
   */
  lemma MergedNullLatencyRejected(readings: seq<Option<Reading>>, j: nat)
    requires j < |readings| && Provides(readings[j], AvgLatency) && readings[j].value[AvgLatency] == Null
    requires forall i :: j < i < |readings| ==> !Provides(readings[i], AvgLatency)
    ensures Merge(readings) != map[]
    ensures NormalizeAsWritten(Merge(readings)).Failure?
    ensures Normalize(Merge(readings)).Success? ==> Normalize(Merge(readings)).value.avgLatency == 100.0
  {
    LastProviderWins(readings, j, AvgLatency);
    var s := Merge(readings);
    assert AvgLatency in NumericKeys && AvgLatency in s && !s[AvgLatency].Num?;
  }
}
