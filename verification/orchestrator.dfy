/**
 * The simulated orchestrator: a registry of deployments keyed by `app_env`, with
 * deploy, stop, scale and the status and metrics queries the controller reads.
 */
module Orchestrator {
  import opened Wrappers
  import opened Text

  /** The registry key `f"{app_name}_{env}"`. */
  function AppKey(app: string, env: string): string {
    app + "_" + env
  }

  /** Workers a scale request may set. */
  const MinScale := 1
  const MaxScale := 3

  /** `min(max(workers, 1), 3)` as the source applies it: first the upper, then the lower bound. */
  function ClampWorkers(workers: int): (w: int)
    ensures MinScale <= w <= MaxScale
    ensures MinScale <= workers <= MaxScale ==> w == workers
    ensures workers < MinScale ==> w == MinScale
    ensures workers > MaxScale ==> w == MaxScale
  {
    var capped := if workers < MaxScale then workers else MaxScale;
    if capped > MinScale then capped else MinScale
  }

  /** One entry of `deployed_apps`. */
  datatype Deployment = Deployment(deploymentId: string, status: string, workers: int, deployedAt: string)

  /** What a successful `deploy` returns (its message text is left out). */
  datatype DeployReceipt = DeployReceipt(deploymentId: string, app: string, env: string, workers: int)

  /** What `get_status` returns. */
  datatype StatusReport = StatusReport(status: string, workers: int, deploymentId: Option<string>, deployedAt: Option<string>)

  /** What `get_metrics` returns; cpu and memory appear only for a deployed app. */
  datatype MetricsReport = MetricsReport(status: string, errorRate: real, responseTime: int,
                                         cpu: Option<real>, memory: Option<real>)

  /** The ranges `get_metrics` draws a deployed app's error rate and response time from, by status. */
  predicate InBand(status: string, errorRate: real, responseTime: int) {
    if status == "healthy" then 0.0 <= errorRate <= 0.1 && 50 <= responseTime <= 200
    else if status == "degraded" then 0.1 <= errorRate <= 0.3 && 200 <= responseTime <= 500
    else 0.3 <= errorRate <= 0.8 && 500 <= responseTime <= 2000
  }

  predicate UsageInRange(cpu: real, memory: real) {
    0.2 <= cpu <= 0.8 && 0.3 <= memory <= 0.7
  }

  class ShivamOrchestrator {
    var deployedApps: map<string, Deployment>
    var appStatus: map<string, string>

    /**
     * Both dictionaries have the same keys; every deployment runs 1 to 3 workers;
     * an entry is stopped exactly when its status is.
     */
    ghost predicate Valid()
      reads this
    {
      && deployedApps.Keys == appStatus.Keys
      && forall k :: k in deployedApps ==>
           && MinScale <= deployedApps[k].workers <= MaxScale
           && deployedApps[k].status in {"running", "stopped"}
           && appStatus[k] in {"healthy", "stopped"}
           && (deployedApps[k].status == "stopped" <==> appStatus[k] == "stopped")
    }

    constructor()
      ensures Valid()
      ensures deployedApps == map[] && appStatus == map[]
    {
      deployedApps := map[];
      appStatus := map[];
    }

    /** `get_status`: `not_deployed` with no workers, or the stored status and workers. */
    function GetStatus(app: string, env: string): (r: StatusReport)
      reads this
      ensures AppKey(app, env) !in deployedApps <==> r.status == "not_deployed" && r.deploymentId.None?
      ensures AppKey(app, env) !in deployedApps ==> r == StatusReport("not_deployed", 0, None, None)
      ensures AppKey(app, env) in deployedApps ==>
                r.workers == deployedApps[AppKey(app, env)].workers
                && r.deploymentId == Some(deployedApps[AppKey(app, env)].deploymentId)
                && r.deployedAt == Some(deployedApps[AppKey(app, env)].deployedAt)
                && r.status == (if AppKey(app, env) in appStatus then appStatus[AppKey(app, env)] else "unknown")
      ensures Valid() && AppKey(app, env) in deployedApps ==>
                r.status in {"healthy", "stopped"} && MinScale <= r.workers <= MaxScale
    {
      var key := AppKey(app, env);
      if key in deployedApps then
        var info := deployedApps[key];
        StatusReport(if key in appStatus then appStatus[key] else "unknown", info.workers,
                     Some(info.deploymentId), Some(info.deployedAt))
      else
        StatusReport("not_deployed", 0, None, None)
    }

    /**
     * `deploy`: (re)creates the entry running one worker, marks it healthy, and
     * overwrites any earlier entry for the key, a stopped one included.
     */
    method Deploy(app: string, env: string, now: int, nowIso: string) returns (r: DeployReceipt)
      requires Valid()
      modifies this
      ensures Valid()
      ensures r == DeployReceipt(AppKey(app, env) + "_" + IntToString(now), app, env, 1)
      ensures deployedApps == old(deployedApps)[AppKey(app, env) := Deployment(r.deploymentId, "running", 1, nowIso)]
      ensures appStatus == old(appStatus)[AppKey(app, env) := "healthy"]
      ensures GetStatus(app, env) == StatusReport("healthy", 1, Some(r.deploymentId), Some(nowIso))
    {
      var key := AppKey(app, env);
      var deploymentId := key + "_" + IntToString(now);
      deployedApps := deployedApps[key := Deployment(deploymentId, "running", 1, nowIso)];
      appStatus := appStatus[key := "healthy"];
      r := DeployReceipt(deploymentId, app, env, 1);
    }

    /** `stop`: a known entry becomes stopped in both dictionaries; an unknown one fails and changes nothing. */
    method Stop(app: string, env: string) returns (ok: bool)
      requires Valid()
      modifies this
      ensures Valid()
      ensures ok <==> AppKey(app, env) in old(deployedApps)
      ensures ok ==> deployedApps == old(deployedApps)[AppKey(app, env) := old(deployedApps)[AppKey(app, env)].(status := "stopped")]
                     && appStatus == old(appStatus)[AppKey(app, env) := "stopped"]
      ensures !ok ==> deployedApps == old(deployedApps) && appStatus == old(appStatus)
      ensures ok ==> GetStatus(app, env) == old(GetStatus(app, env)).(status := "stopped")
    {
      var key := AppKey(app, env);
      if key in deployedApps {
        deployedApps := deployedApps[key := deployedApps[key].(status := "stopped")];
        appStatus := appStatus[key := "stopped"];
        ok := true;
      } else {
        ok := false;
      }
    }

    /** `scale`: a known entry runs the request clamped to [1, 3]; an unknown one fails and changes nothing. */
    method Scale(app: string, env: string, workers: int) returns (r: Option<int>)
      requires Valid()
      modifies this
      ensures Valid()
      ensures r.Some? <==> AppKey(app, env) in old(deployedApps)
      ensures r.Some? ==> r.value == ClampWorkers(workers)
                          && deployedApps == old(deployedApps)[AppKey(app, env) := old(deployedApps)[AppKey(app, env)].(workers := r.value)]
      ensures r.None? ==> deployedApps == old(deployedApps)
      ensures appStatus == old(appStatus)
      ensures r.Some? ==> GetStatus(app, env) == old(GetStatus(app, env)).(workers := r.value)
    {
      var key := AppKey(app, env);
      if key in deployedApps {
        var w := ClampWorkers(workers);
        deployedApps := deployedApps[key := deployedApps[key].(workers := w)];
        r := Some(w);
      } else {
        r := None;
      }
    }

    /**
     * `get_metrics`: fixed values for an app that is not deployed; otherwise the
     * stored status with an error rate, response time and usage drawn from its band
     * (the draw is a choice here).
     */
    method GetMetrics(app: string, env: string) returns (r: MetricsReport)
      ensures AppKey(app, env) !in deployedApps ==> r == MetricsReport("not_deployed", 1.0, 0, None, None)
      ensures AppKey(app, env) in deployedApps ==>
                && r.status == (if AppKey(app, env) in appStatus then appStatus[AppKey(app, env)] else "unknown")
                && InBand(r.status, r.errorRate, r.responseTime)
                && r.cpu.Some? && r.memory.Some? && UsageInRange(r.cpu.value, r.memory.value)
    {
      var key := AppKey(app, env);
      if key !in deployedApps {
        return MetricsReport("not_deployed", 1.0, 0, None, None);
      }
      var status := if key in appStatus then appStatus[key] else "unknown";
      var lowRate, lowTime := if status == "healthy" then 0.0 else if status == "degraded" then 0.1 else 0.3,
                              if status == "healthy" then 50 else if status == "degraded" then 200 else 500;
      assert InBand(status, lowRate, lowTime);
      var errorRate: real, responseTime: int :| InBand(status, errorRate, responseTime);
      assert UsageInRange(0.2, 0.3);
      var cpu: real, memory: real :| UsageInRange(cpu, memory);
      r := MetricsReport(status, errorRate, responseTime, Some(cpu), Some(memory));
    }
  }

  /** `_` in names makes two apps share one registry entry. */
  lemma AppKeysCollide()
    ensures AppKey("a_b", "c") == AppKey("a", "b_c")
  {
  }
}
