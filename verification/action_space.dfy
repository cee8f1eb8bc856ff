/** The legal action list of an app spec, the cheap structural safety check and its fallback. */
module ActionSpace {
  import opened Wrappers
  import opened AppSpecs
  import opened Observations

  const BaseActions := [Deploy, Stop, Restart]
  const ScalingActions := [ScaleUp, ScaleDown]

  /**
   * `get_valid_actions`: the three base actions, then `scale_up, scale_down` when
   * scaling is enabled, then the custom actions in spec order (duplicates kept).
   */
  function ValidActions(spec: AppSpec): (actions: seq<string>)
    ensures |actions| == 3 + (if ScalingEnabled(spec) then 2 else 0) + |CustomActions(spec)|
    ensures actions[..3] == BaseActions
    ensures ScalingEnabled(spec) ==> actions[3..5] == ScalingActions
    ensures actions[|actions| - |CustomActions(spec)|..] == CustomActions(spec)
  {
    BaseActions + (if ScalingEnabled(spec) then ScalingActions else []) + CustomActions(spec)
  }

  /** A scaling action is offered exactly when scaling is enabled or the spec lists it as custom. */
  lemma ScalingActionsOffered(spec: AppSpec)
    ensures ScaleUp in ValidActions(spec) <==> ScalingEnabled(spec) || ScaleUp in CustomActions(spec)
    ensures ScaleDown in ValidActions(spec) <==> ScalingEnabled(spec) || ScaleDown in CustomActions(spec)
  {
    var actions := ValidActions(spec);
    var custom := CustomActions(spec);
    assert actions == BaseActions + (if ScalingEnabled(spec) then ScalingActions else []) + custom;
  }

  /** A spec with no `scaling` and no `custom_actions` offers exactly `deploy, stop, restart`. */
  lemma MinimalSpecOffersBaseActions(name: string, kind: string)
    ensures ValidActions(MinimalSpec(name, kind)) == [Deploy, Stop, Restart]
  {
  }

  /**
   * `is_action_safe`: `scale_up` needs workers (default 1) below `scaling.max_workers`
   * (default 3), `scale_down` needs more than one worker, and a healthy `prod`
   * instance may not be stopped; every other action is safe.
   */
  function IsActionSafe(action: string, state: Observation, spec: AppSpec): (safe: bool)
    ensures action == ScaleUp ==> (safe <==> Workers(state) < SpecMaxWorkers(spec))
    ensures action == ScaleDown ==> (safe <==> Workers(state) > 1)
    ensures action == Stop ==> (safe <==> !(state.env == Some("prod") && state.status == Some("healthy")))
    ensures action != ScaleUp && action != ScaleDown && action != Stop ==> safe
  {
    if action == ScaleUp && Workers(state) >= SpecMaxWorkers(spec) then false
    else if action == ScaleDown && Workers(state) <= 1 then false
    else if action == Stop && state.env == Some("prod") && state.status == Some("healthy") then false
    else true
  }

  /** `get_fallback_action`: whatever the rejected action, fall back to `restart`. */
  function FallbackAction(rejected: string): (action: string)
    ensures action == Restart
  {
    Restart
  }

  /** The fallback is a legal action of every spec. */
  lemma FallbackIsValidAction(spec: AppSpec, rejected: string)
    ensures FallbackAction(rejected) in ValidActions(spec)
  {
    assert ValidActions(spec)[2] == Restart;
  }
}
