/**
 * The state dictionaries the controller, the safety gate and the reward model
 * receive: every key may be missing, and each reader supplies its own default.
 */
module Observations {
  import opened Wrappers

  datatype Observation = Observation(
    status: Option<string>,
    errorRate: Option<real>,
    avgLatency: Option<real>,
    responseTime: Option<real>,
    cpu: Option<real>,
    memory: Option<real>,
    uptime: Option<real>,
    workers: Option<int>,
    env: Option<string>)

  /** `{}` */
  const Empty := Observation(None, None, None, None, None, None, None, None, None)

  /** `state.get('workers', 1)` */
  function Workers(s: Observation): int {
    s.workers.GetOr(1)
  }
}
