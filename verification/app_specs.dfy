/**
 * The application specification document and the bounded action vocabulary.
 * Keys the document may leave out are `Option`s, so every `spec.get(key, default)`
 * of the Python code is spelled out where it is used.
 */
module AppSpecs {
  import opened Wrappers

  const Deploy := "deploy"
  const Stop := "stop"
  const Restart := "restart"
  const ScaleUp := "scale_up"
  const ScaleDown := "scale_down"
  const Rollback := "rollback"

  /** The `scaling` block: `enabled`, `min_workers`, `max_workers`, each optional. */
  datatype Scaling = Scaling(enabled: Option<bool>, minWorkers: Option<int>, maxWorkers: Option<int>)

  /**
   * An app spec. `kind` is the `type` key; `actions` is the list the safety gate
   * checks against; `environmentConstraints` maps an environment to its
   * `forbidden_actions` (an environment entry without that key is the empty list).
   */
  datatype AppSpec = AppSpec(
    name: Option<string>,
    kind: Option<string>,
    scaling: Option<Scaling>,
    customActions: Option<seq<string>>,
    actions: Option<seq<string>>,
    environmentConstraints: map<string, seq<string>>)

  /** The spec with only the required keys present. */
  function MinimalSpec(name: string, kind: string): AppSpec {
    AppSpec(Some(name), Some(kind), None, None, None, map[])
  }

  /** `app_spec.get('scaling', {}).get('enabled', False)` */
  predicate ScalingEnabled(spec: AppSpec) {
    spec.scaling.Some? && spec.scaling.value.enabled == Some(true)
  }

  /** `app_spec.get('scaling', {}).get('max_workers', 3)` */
  function SpecMaxWorkers(spec: AppSpec): int {
    if spec.scaling.Some? then spec.scaling.value.maxWorkers.GetOr(3) else 3
  }

  /** `app_spec.get('custom_actions', [])` */
  function CustomActions(spec: AppSpec): seq<string> {
    spec.customActions.GetOr([])
  }
}
