/**
 * The advanced reward: a weighted sum of stability, performance, efficiency and
 * reliability sub-scores clamped to [-10, 10], plus the stand-alone penalty terms
 * and the per-app counters and latency history they keep.
 */
module Rewards {
  import opened Wrappers
  import opened Text
  import opened AppSpecs
  import opened Observations

  function Abs(x: real): (a: real)
    ensures a >= 0.0 && (a == x || a == -x)
  {
    if x < 0.0 then -x else x
  }

  function Min(x: real, y: real): (m: real)
    ensures m <= x && m <= y && (m == x || m == y)
  {
    if x <= y then x else y
  }

  /** `status_values.get(status, 0)` with the status defaulting to `unknown`. */
  function StatusValue(status: Option<string>): (v: int)
    ensures 0 <= v <= 2
    ensures v == 2 <==> status == Some("healthy")
    ensures v == 1 <==> status == Some("degraded")
  {
    if status == Some("healthy") then 2 else if status == Some("degraded") then 1 else 0
  }

  /** `_stability_reward`: 3 per level gained, 2 per level lost, 1 for staying healthy. */
  function StabilityReward(prev: Observation, next: Observation): (r: real)
    ensures StatusValue(next.status) > StatusValue(prev.status) ==> r >= 3.0
    ensures StatusValue(next.status) < StatusValue(prev.status) ==> r <= -2.0
    ensures r > 0.0 <==> StatusValue(next.status) > StatusValue(prev.status)
                         || (StatusValue(next.status) == StatusValue(prev.status) && next.status == Some("healthy"))
    ensures -4.0 <= r <= 6.0
  {
    var improvement := StatusValue(next.status) - StatusValue(prev.status);
    if improvement > 0 then improvement as real * 3.0
    else if improvement < 0 then improvement as real * 2.0
    else if next.status == Some("healthy") then 1.0
    else 0.0
  }

  /** Falling one or two levels and climbing back earns more than it lost. */
  lemma StabilityRoundTripNetPositive(a: Observation, b: Observation)
    requires StatusValue(a.status) != StatusValue(b.status)
    ensures StabilityReward(a, b) + StabilityReward(b, a) > 0.0
  {
  }

  datatype ArithError = ZeroDivisionError

  /** `avg_latency`, defaulting to 100. */
  function Latency(s: Observation): real { s.avgLatency.GetOr(100.0) }

  /** `error_rate`, defaulting to 0. */
  function ErrorRate(s: Observation): real { s.errorRate.GetOr(0.0) }

  /** `_performance_reward`: relative latency gain times 4 plus error-rate gain times 10. */
  function PerformanceReward(prev: Observation, next: Observation): (r: Result<real, ArithError>)
    ensures r.Failure? <==> Latency(prev) == 0.0
    ensures (r.Success? && Latency(prev) > 0.0 && Latency(next) <= Latency(prev) && ErrorRate(next) <= ErrorRate(prev))
              ==> r.value >= 0.0
    ensures (r.Success? && Latency(prev) > 0.0 && Latency(next) >= Latency(prev) && ErrorRate(next) >= ErrorRate(prev))
              ==> r.value <= 0.0
  {
    if Latency(prev) == 0.0 then Failure(ZeroDivisionError)
    else
      var latencyImprovement := (Latency(prev) - Latency(next)) / Latency(prev);
      var errorImprovement := ErrorRate(prev) - ErrorRate(next);
      assert Latency(prev) > 0.0 && Latency(next) <= Latency(prev) ==> latencyImprovement >= 0.0;
      assert Latency(prev) > 0.0 && Latency(next) >= Latency(prev) ==> latencyImprovement <= 0.0;
      Success(latencyImprovement * 4.0 + errorImprovement * 10.0)
  }

  /** For a fixed positive previous latency, a lower new latency and error rate never score worse. */
  lemma PerformanceMonotone(prev: Observation, x: Observation, y: Observation)
    requires Latency(prev) > 0.0
    requires Latency(x) <= Latency(y) && ErrorRate(x) <= ErrorRate(y)
    ensures PerformanceReward(prev, x).value >= PerformanceReward(prev, y).value
  {
    var p := Latency(prev);
    assert (p - Latency(x)) / p >= (p - Latency(y)) / p by {
      assert (p - Latency(x)) / p - (p - Latency(y)) / p == (Latency(y) - Latency(x)) / p;
    }
  }

  /** CPU efficiency: `1 - |cpu - 0.7|` inside [0.6, 0.8], `-|cpu - 0.7|` outside. */
  function CpuScore(cpu: real): (s: real)
    ensures 0.6 <= cpu <= 0.8 ==> 0.9 <= s <= 1.0
    ensures !(0.6 <= cpu <= 0.8) ==> s < -0.1
    ensures s == 1.0 <==> cpu == 0.7
  {
    if 0.6 <= cpu <= 0.8 then 1.0 - Abs(cpu - 0.7) else -Abs(cpu - 0.7)
  }

  /** Memory efficiency: `1 - |mem - 0.6|` inside [0.5, 0.7], `-|mem - 0.6|` outside. */
  function MemoryScore(memory: real): (s: real)
    ensures 0.5 <= memory <= 0.7 ==> 0.9 <= s <= 1.0
    ensures !(0.5 <= memory <= 0.7) ==> s < -0.1
    ensures s == 1.0 <==> memory == 0.6
  {
    if 0.5 <= memory <= 0.7 then 1.0 - Abs(memory - 0.6) else -Abs(memory - 0.6)
  }

  /** `cpu_usage` and `memory_usage`, defaulting to 0 here. */
  function Cpu(s: Observation): real { s.cpu.GetOr(0.0) }
  function Memory(s: Observation): real { s.memory.GetOr(0.0) }

  /** `scale_up` or `deploy` while cpu or memory is above 0.8: the action penalty applies. */
  predicate HungryUnderPressure(next: Observation, action: string) {
    action in {ScaleUp, Deploy} && (Cpu(next) > 0.8 || Memory(next) > 0.8)
  }

  /** `_efficiency_reward`: twice the two scores, minus 2 for a hungry action under pressure. */
  function EfficiencyReward(next: Observation, action: string): (r: real)
    ensures r <= 4.0
    ensures HungryUnderPressure(next, action) ==> r < 0.0
    ensures 0.6 <= Cpu(next) <= 0.8 && 0.5 <= Memory(next) <= 0.7 ==> r >= 3.6
  {
    var penalty := if HungryUnderPressure(next, action) then -2.0 else 0.0;
    (CpuScore(Cpu(next)) + MemoryScore(Memory(next))) * 2.0 + penalty
  }

  /** `_reliability_reward`: `min(2, uptime/3600)` (linear) plus the worker-count term. */
  function ReliabilityReward(next: Observation): (r: real)
    ensures r <= 3.0
    ensures 1 <= Workers(next) <= 3 && next.uptime.GetOr(0.0) >= 0.0 ==> r >= 1.0
    ensures !(1 <= Workers(next) <= 3) ==> r <= 2.0 - 0.5 * Abs((Workers(next) - 2) as real)
  {
    var uptimeReward := Min(2.0, next.uptime.GetOr(0.0) / 3600.0);
    var workers := Workers(next);
    var workerStability := if 1 <= workers <= 3 then 1.0 else -Abs((workers - 2) as real) * 0.5;
    uptimeReward + workerStability
  }

  /** The weights of `calculate_reward`; they sum to 1. */
  function WeightedTotal(stability: real, performance: real, efficiency: real, reliability: real): real {
    stability * 0.3 + performance * 0.25 + efficiency * 0.25 + reliability * 0.2
  }

  function Clamp(x: real, lo: real, hi: real): (c: real)
    requires lo <= hi
    ensures lo <= c <= hi
    ensures lo <= x <= hi ==> c == x
    ensures x < lo ==> c == lo
    ensures x > hi ==> c == hi
  {
    if x < lo then lo else if x > hi then hi else x
  }

  /**
   * `calculate_reward`: the clamped weighted total, or the division error the
   * performance term raises for a previous latency of 0.
   */
  function CalculateReward(prev: Observation, action: string, next: Observation): (r: Result<real, ArithError>)
    ensures r.Failure? <==> Latency(prev) == 0.0
    ensures r.Success? ==> -10.0 <= r.value <= 10.0
    ensures r.Success? ==>
              var total := WeightedTotal(StabilityReward(prev, next), PerformanceReward(prev, next).value,
                                         EfficiencyReward(next, action), ReliabilityReward(next));
              (-10.0 <= total <= 10.0 ==> r.value == total) && (total > 10.0 ==> r.value == 10.0)
              && (total < -10.0 ==> r.value == -10.0)
  {
    match PerformanceReward(prev, next)
    case Failure(e) => Failure(e)
    case Success(performance) =>
      var total := WeightedTotal(StabilityReward(prev, next), performance, EfficiencyReward(next, action),
                                 ReliabilityReward(next));
      Success(Clamp(total, -10.0, 10.0))
  }

  /**
   * With the sub-scores at their bounds for inputs in range, no clamping happens:
   * stability in [-4, 6], efficiency and reliability as bounded above, performance given.
   */
  lemma ClampInactiveForModerateInputs(prev: Observation, action: string, next: Observation)
    requires Latency(prev) > 0.0 && 0.0 <= Latency(next) && Latency(next) <= 2.0 * Latency(prev)
    requires 0.0 <= ErrorRate(prev) <= 1.0 && 0.0 <= ErrorRate(next) <= 1.0
    requires 0.0 <= Cpu(next) <= 1.0 && 0.0 <= Memory(next) <= 1.0
    requires 0.0 <= next.uptime.GetOr(0.0) && 1 <= Workers(next) <= 3
    ensures CalculateReward(prev, action, next).value
              == WeightedTotal(StabilityReward(prev, next), PerformanceReward(prev, next).value,
                               EfficiencyReward(next, action), ReliabilityReward(next))
  {
    var p := Latency(prev);
    var li := (p - Latency(next)) / p;
    assert -p <= p - Latency(next) <= p;
    RatioWithinOne(p - Latency(next), p);
    assert -1.0 <= li <= 1.0;
    var performance := PerformanceReward(prev, next).value;
    assert -14.0 <= performance <= 14.0;
    var efficiency := EfficiencyReward(next, action);
    assert CpuScore(Cpu(next)) >= -0.7 && MemoryScore(Memory(next)) >= -0.6;
    assert efficiency >= -4.6;
    var reliability := ReliabilityReward(next);
    assert 1.0 <= reliability <= 3.0;
  }

  /** A quantity no larger in size than a positive whole is a ratio in [-1, 1]. */
  lemma RatioWithinOne(part: real, whole: real)
    requires whole > 0.0 && -whole <= part <= whole
    ensures -1.0 <= part / whole <= 1.0
  {
    var q := part / whole;
    assert q * whole == part;
  }

  /** The degraded/200 ms/0.05 to healthy/150 ms/0.01 recovery through `restart` is rewarded. */
  lemma RecoveryScenarioPositive()
    ensures var prev := Observation(Some("degraded"), Some(0.05), Some(200.0), None, None, None, None, None, None);
            var next := Observation(Some("healthy"), Some(0.01), Some(150.0), None, None, None, None, None, None);
            CalculateReward(prev, Restart, next) == Success(0.8)
  {
    var prev := Observation(Some("degraded"), Some(0.05), Some(200.0), None, None, None, None, None, None);
    var next := Observation(Some("healthy"), Some(0.01), Some(150.0), None, None, None, None, None, None);
    assert StabilityReward(prev, next) == 3.0;
    assert PerformanceReward(prev, next) == Success(1.4);
    assert EfficiencyReward(next, Restart) == -2.6;
    assert ReliabilityReward(next) == 1.0;
  }

  /** `_partial_degradation_penalty`: error-rate and resource penalties, never negative. */
  function PartialDegradationPenalty(next: Observation): (p: real)
    ensures p >= 0.0
    ensures p == 0.0 <==> ErrorRate(next) <= 0.01 && Cpu(next) <= 0.8 && Memory(next) <= 0.9
    ensures Cpu(next) <= 1.0 && Memory(next) <= 1.0 ==> p <= 4.0
  {
    var errorPart := if ErrorRate(next) > 0.01 then Min(2.0, ErrorRate(next) * 100.0) else 0.0;
    var cpuPart := if Cpu(next) > 0.8 then (Cpu(next) - 0.8) * 5.0 else 0.0;
    var memoryPart := if Memory(next) > 0.9 then (Memory(next) - 0.9) * 10.0 else 0.0;
    errorPart + cpuPart + memoryPart
  }

  /** The per-app counters `_long_term_penalty` keeps. */
  datatype Counters = Counters(restarts: nat, stops: nat)

  /** The counters after one more action: `restart` and `stop` bump their own count only. */
  function Bump(c: Counters, action: string): (d: Counters)
    ensures d.restarts == c.restarts + (if action == Restart then 1 else 0)
    ensures d.stops == c.stops + (if action == Stop then 1 else 0)
  {
    if action == Restart then c.(restarts := c.restarts + 1)
    else if action == Stop then c.(stops := c.stops + 1)
    else c
  }

  /** `min(2, 0.1 restarts) + min(3, 0.2 stops)`. */
  function LongTermPenaltyOf(c: Counters): (p: real)
    ensures 0.0 <= p <= 5.0
    ensures p == 5.0 <==> c.restarts >= 20 && c.stops >= 15
  {
    Min(2.0, c.restarts as real * 0.1) + Min(3.0, c.stops as real * 0.2)
  }

  /** More disruptive actions never lower the long-term penalty. */
  lemma LongTermPenaltyMonotone(c: Counters, action: string)
    ensures LongTermPenaltyOf(Bump(c, action)) >= LongTermPenaltyOf(c)
  {
  }

  /** The values `min(3, (increase/50) ** 1.5)` can take for a positive increase. */
  predicate InPenaltyRange(p: real) {
    0.0 < p <= 3.0
  }

  class RewardCalculator {
    var latencyHistory: map<string, seq<real>>
    var degradationPenalties: map<string, Counters>

    constructor ()
      ensures latencyHistory == map[] && degradationPenalties == map[]
    {
      latencyHistory := map[];
      degradationPenalties := map[];
    }

    /** `_long_term_penalty`: bump this app's counters only and return their penalty. */
    method LongTermPenalty(action: string, app: string) returns (p: real)
      modifies this
      ensures app in degradationPenalties
      ensures degradationPenalties ==
                old(degradationPenalties)[app := Bump(if app in old(degradationPenalties)
                                                      then old(degradationPenalties)[app]
                                                      else Counters(0, 0), action)]
      ensures latencyHistory == old(latencyHistory)
      ensures p == LongTermPenaltyOf(degradationPenalties[app]) && 0.0 <= p <= 5.0
    {
      if app !in degradationPenalties {
        degradationPenalties := degradationPenalties[app := Counters(0, 0)];
      }
      var counters := degradationPenalties[app];
      if action == Restart {
        counters := counters.(restarts := counters.restarts + 1);
      } else if action == Stop {
        counters := counters.(stops := counters.stops + 1);
      }
      degradationPenalties := degradationPenalties[app := counters];
      p := Min(2.0, counters.restarts as real * 0.1) + Min(3.0, counters.stops as real * 0.2);
    }

    /**
     * `_latency_gradient_penalty`: append the new latency to this app's history, keep the
     * last 10, and penalise an increase by a value in (0, 3] (the source's
     * `min(3, (increase/50) ** 1.5)`, whose exact value the model leaves open).
     */
    method LatencyGradientPenalty(prev: Observation, next: Observation, app: string) returns (p: real)
      modifies this
      ensures latencyHistory ==
                old(latencyHistory)[app := LastN((if app in old(latencyHistory) then old(latencyHistory)[app] else [])
                                                 + [Latency(next)], 10)]
      ensures degradationPenalties == old(degradationPenalties)
      ensures Latency(next) <= Latency(prev) ==> p == 0.0
      ensures Latency(next) > Latency(prev) ==> 0.0 < p <= 3.0
    {
      ghost var before := if app in latencyHistory then latencyHistory[app] else [];
      if app !in latencyHistory {
        latencyHistory := latencyHistory[app := []];
      }
      var recorded := latencyHistory[app] + [Latency(next)];
      assert recorded == before + [Latency(next)];
      if |recorded| > 10 {
        recorded := recorded[|recorded| - 10..];
      }
      assert recorded == LastN(before + [Latency(next)], 10);
      latencyHistory := latencyHistory[app := recorded];
      var increase := Latency(next) - Latency(prev);
      if increase > 0.0 {
        assert InPenaltyRange(3.0);
        p :| InPenaltyRange(p);
        assert InPenaltyRange(p);
      } else {
        p := 0.0;
      }
    }
  }
}
