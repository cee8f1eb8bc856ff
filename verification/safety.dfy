/**
 * The safety gate: schema rules from the app spec, the worker ceiling, actions
 * forbidden in production, minimum uptime and a 60-second rate limit, with a
 * bounded ledger of attempts and a deterministic fallback.
 */
module Safety {
  import opened Wrappers
  import opened Text
  import opened AppSpecs
  import opened Observations
  import opened Controller

  datatype Constraints = Constraints(
    maxWorkersGlobal: int,
    maxWorkersPerApp: int,
    minUptimeBeforeAction: real,
    maxActionsPerMinute: int,
    forbiddenProdActions: seq<string>,
    requiredApprovalActions: seq<string>)

  datatype Schema = Schema(version: string, constraints: Constraints, enforcementLevel: Option<string>)

  /** The schema used when no schema file exists. */
  const DefaultConstraints := Constraints(10, 3, 30.0, 5, [Stop], [ScaleUp])
  const DefaultSchema := Schema("1.0", DefaultConstraints, Some("STRICT"))

  /** Capacity of the action ledger. */
  const HistoryCapacity: nat := 1000
  /** Width of the rate-limit window, in seconds. */
  const RateWindow: real := 60.0

  /** One reported violation; the payload is what the source's message text carries. */
  datatype Violation =
    | NotInSpec(action: string, declared: seq<string>)
    | ForbiddenByAppSpec(action: string, env: string)
    | WorkerLimit(current: int, maxAllowed: int)
    | ForbiddenInProd(action: string)
    | UptimeTooLow(uptime: real, minimum: real)
    | RateLimited(recent: nat)

  /** One ledger entry, as `_log_action_attempt` writes it. */
  datatype HistoryEntry = HistoryEntry(action: string, app: string, env: string, timestamp: real,
                                       violations: seq<Violation>, allowed: bool)

  /** One audit record, as `_log_policy_violation` writes it. */
  datatype PolicyRecord = PolicyRecord(timestamp: real, action: string, app: string, env: string,
                                       violations: seq<Violation>, enforcementLevel: Option<string>)

  // ---------------------------------------------------------------- the rules

  /** The forbidden actions an app spec declares for `env` (none when `env` is not listed). */
  function EnvForbidden(spec: AppSpec, env: string): seq<string> {
    if env in spec.environmentConstraints then spec.environmentConstraints[env] else []
  }

  /** `_validate_against_schema`: the action must be declared in `actions` and not forbidden for `env`. */
  function SchemaViolations(action: string, env: string, spec: AppSpec): (v: seq<Violation>)
    ensures NotInSpec(action, spec.actions.GetOr([])) in v <==> action !in spec.actions.GetOr([])
    ensures ForbiddenByAppSpec(action, env) in v <==> action in EnvForbidden(spec, env)
    ensures v == [] <==> action in spec.actions.GetOr([]) && action !in EnvForbidden(spec, env)
    ensures forall k :: 0 <= k < |v| ==> v[k].NotInSpec? || v[k].ForbiddenByAppSpec?
  {
    var declared := spec.actions.GetOr([]);
    (if action !in declared then [NotInSpec(action, declared)] else [])
      + (if action in EnvForbidden(spec, env) then [ForbiddenByAppSpec(action, env)] else [])
  }

  /** `min(max_workers_per_app, scaling.max_workers)`, the spec's value defaulting to 3. */
  function MaxAllowedWorkers(c: Constraints, spec: AppSpec): (m: int)
    ensures m <= c.maxWorkersPerApp && m <= SpecMaxWorkers(spec)
    ensures m == c.maxWorkersPerApp || m == SpecMaxWorkers(spec)
  {
    if c.maxWorkersPerApp <= SpecMaxWorkers(spec) then c.maxWorkersPerApp else SpecMaxWorkers(spec)
  }

  predicate WorkerRuleFires(c: Constraints, action: string, spec: AppSpec, state: Observation) {
    action in {ScaleUp, Deploy} && Workers(state) >= MaxAllowedWorkers(c, spec)
  }

  predicate UptimeRuleFires(c: Constraints, action: string, state: Observation) {
    state.uptime.GetOr(0.0) < c.minUptimeBeforeAction && action != Deploy
  }

  /** The four checks after the schema, in source order, given how many recent attempts the ledger holds. */
  function RuleViolations(c: Constraints, action: string, env: string, spec: AppSpec, state: Observation,
                          recent: nat): (v: seq<Violation>)
    ensures WorkerLimit(Workers(state), MaxAllowedWorkers(c, spec)) in v <==> WorkerRuleFires(c, action, spec, state)
    ensures ForbiddenInProd(action) in v <==> env == "prod" && action in c.forbiddenProdActions
    ensures UptimeTooLow(state.uptime.GetOr(0.0), c.minUptimeBeforeAction) in v <==> UptimeRuleFires(c, action, state)
    ensures RateLimited(recent) in v <==> recent >= c.maxActionsPerMinute
    ensures v == [] <==> && !WorkerRuleFires(c, action, spec, state)
                         && !(env == "prod" && action in c.forbiddenProdActions)
                         && !UptimeRuleFires(c, action, state)
                         && recent < c.maxActionsPerMinute
    ensures forall k :: 0 <= k < |v| ==> !v[k].NotInSpec? && !v[k].ForbiddenByAppSpec?
  {
    var workers := Workers(state);
    var uptime := state.uptime.GetOr(0.0);
    (if WorkerRuleFires(c, action, spec, state) then [WorkerLimit(workers, MaxAllowedWorkers(c, spec))] else [])
      + (if env == "prod" && action in c.forbiddenProdActions then [ForbiddenInProd(action)] else [])
      + (if UptimeRuleFires(c, action, state) then [UptimeTooLow(uptime, c.minUptimeBeforeAction)] else [])
      + (if recent >= c.maxActionsPerMinute then [RateLimited(recent)] else [])
  }

  /** The ledger filter of `_get_recent_actions`: same app and env, strictly after `cutoff`. */
  function InWindow(app: string, env: string, cutoff: real): HistoryEntry -> bool {
    (e: HistoryEntry) => e.app == app && e.env == env && e.timestamp > cutoff
  }

  /** `_get_recent_actions(app, env, 60)` at time `now`. */
  function RecentActions(history: seq<HistoryEntry>, app: string, env: string, now: real): (r: seq<HistoryEntry>)
    ensures forall k :: 0 <= k < |r| ==> r[k] in history && r[k].app == app && r[k].env == env
                                         && r[k].timestamp > now - RateWindow
    ensures forall k :: (0 <= k < |history| && history[k].app == app && history[k].env == env
                         && history[k].timestamp > now - RateWindow) ==> history[k] in r
    ensures |r| == Count(history, InWindow(app, env, now - RateWindow))
  {
    Filter(history, InWindow(app, env, now - RateWindow))
  }

  /** `self.schema.get('enforcement_level') == 'STRICT'` with schema violations: block at once. */
  predicate ShortCircuits(schema: Schema, schemaViolations: seq<Violation>) {
    schemaViolations != [] && schema.enforcementLevel == Some("STRICT")
  }

  /** The violations `enforce_constraints` returns against ledger `history` at time `now`. */
  function GateViolations(schema: Schema, history: seq<HistoryEntry>, action: string, app: string, env: string,
                          spec: AppSpec, state: Observation, now: real): (v: seq<Violation>)
    ensures SchemaViolations(action, env, spec) <= v
    ensures !ShortCircuits(schema, SchemaViolations(action, env, spec)) ==>
              v[|SchemaViolations(action, env, spec)|..]
                == RuleViolations(schema.constraints, action, env, spec, state, |RecentActions(history, app, env, now)|)
    ensures ShortCircuits(schema, SchemaViolations(action, env, spec)) ==> v == SchemaViolations(action, env, spec)
  {
    var fromSchema := SchemaViolations(action, env, spec);
    if ShortCircuits(schema, fromSchema) then fromSchema
    else fromSchema + RuleViolations(schema.constraints, action, env, spec, state, |RecentActions(history, app, env, now)|)
  }

  /** An approved action is declared by the spec and not forbidden for its environment. */
  lemma ApprovedIsDeclared(schema: Schema, history: seq<HistoryEntry>, action: string, app: string, env: string,
                           spec: AppSpec, state: Observation, now: real)
    requires GateViolations(schema, history, action, app, env, spec, state, now) == []
    ensures action in spec.actions.GetOr([]) && action !in EnvForbidden(spec, env)
  {
    assert SchemaViolations(action, env, spec) == [];
  }

  /** An approved action passed every rule: below the ceiling, allowed in its environment, uptime met, rate not reached. */
  lemma ApprovedPassesRules(schema: Schema, history: seq<HistoryEntry>, action: string, app: string, env: string,
                            spec: AppSpec, state: Observation, now: real)
    requires GateViolations(schema, history, action, app, env, spec, state, now) == []
    ensures !WorkerRuleFires(schema.constraints, action, spec, state)
    ensures !(env == "prod" && action in schema.constraints.forbiddenProdActions)
    ensures !UptimeRuleFires(schema.constraints, action, state)
    ensures Count(history, InWindow(app, env, now - RateWindow)) < schema.constraints.maxActionsPerMinute
  {
    var fromSchema := SchemaViolations(action, env, spec);
    assert fromSchema == [];
    assert !ShortCircuits(schema, fromSchema);
    var v := GateViolations(schema, history, action, app, env, spec, state, now);
    assert v[|fromSchema|..] == v;
  }

  /** Under the default schema `stop` in production is never approved, whatever the spec declares. */
  lemma StopInProductionBlocked(history: seq<HistoryEntry>, app: string, spec: AppSpec, state: Observation, now: real)
    ensures GateViolations(DefaultSchema, history, Stop, app, "prod", spec, state, now) != []
  {
    var fromSchema := SchemaViolations(Stop, "prod", spec);
    if fromSchema == [] {
      var rules := RuleViolations(DefaultConstraints, Stop, "prod", spec, state, |RecentActions(history, app, "prod", now)|);
      assert ForbiddenInProd(Stop) in rules;
      assert GateViolations(DefaultSchema, history, Stop, app, "prod", spec, state, now) == rules;
    }
  }

  // ---------------------------------------------------------------- fallback and policy audit

  /** `get_safe_fallback_action`. */
  function SafeFallback(original: string, env: string, state: Observation): (a: string)
    ensures a in {Restart, ScaleDown, Deploy}
    ensures original == ScaleUp ==> a == Restart
    ensures original == Stop && env == "prod" ==> a == ScaleDown
    ensures a == ScaleDown <==> original == Stop && env == "prod"
    ensures a == Deploy <==> original != ScaleUp && !(original == Stop && env == "prod") && state.status == Some("healthy")
  {
    if original == ScaleUp then Restart
    else if original == Stop && env == "prod" then ScaleDown
    else if state.status != Some("healthy") then Restart
    else Deploy
  }

  /**
   * The fallback clears the rule that blocked the original: `restart` never meets the
   * worker ceiling, and `scale_down` is not forbidden in production by the default schema.
   */
  lemma FallbackClearsTrigger(original: string, env: string, spec: AppSpec, state: Observation, recent: nat)
    ensures original == ScaleUp ==>
              WorkerLimit(Workers(state), MaxAllowedWorkers(DefaultConstraints, spec))
                !in RuleViolations(DefaultConstraints, SafeFallback(original, env, state), env, spec, state, recent)
    ensures original == Stop && env == "prod" ==>
              ForbiddenInProd(ScaleDown) !in RuleViolations(DefaultConstraints, SafeFallback(original, env, state), env, spec, state, recent)
  {
  }

  datatype UnpackError = ValueError

  /**
   * `validate_policy_constraints`: the (state, action) pairs valued above 5.0 whose state
   * mentions `prod` and whose action is `stop`; unpacking a one-element key fails.
   */
  function UnsafePolicyEntries(q: map<QKey, real>): (r: Result<set<(string, string)>, UnpackError>)
    ensures r.Failure? <==> exists k :: k in q && k.Single?
    ensures r.Success? ==> forall s, a :: (s, a) in r.value <==>
              Pair(s, a) in q && q[Pair(s, a)] > 5.0 && Contains(s, "prod") && a == Stop
  {
    if exists k :: k in q && k.Single? then Failure(ValueError)
    else
      var flagged := set k | k in q && k.Pair? && q[k] > 5.0 && Contains(k.state, "prod") && k.action == Stop
                             :: (k.state, k.action);
      assert forall s, a :: (s, a) in flagged ==> Pair(s, a) in q by {
        forall s, a | (s, a) in flagged ensures Pair(s, a) in q {
          var k :| k in q && k.Pair? && q[k] > 5.0 && Contains(k.state, "prod") && k.action == Stop && (k.state, k.action) == (s, a);
        }
      }
      Success(flagged)
  }

  /** Every flagged entry is an action the default gate refuses in production. */
  lemma FlaggedEntriesBlockedInProduction(q: map<QKey, real>, s: string, a: string, spec: AppSpec,
                                          state: Observation, recent: nat)
    requires UnsafePolicyEntries(q).Success? && (s, a) in UnsafePolicyEntries(q).value
    ensures ForbiddenInProd(a) in RuleViolations(DefaultConstraints, a, "prod", spec, state, recent)
  {
  }

  // ---------------------------------------------------------------- the ledger

  /**
   * Every approved entry was approved while fewer than `limit` attempts for its app and
   * env lay in the window before it.
   */
  ghost predicate RateRespected(history: seq<HistoryEntry>, limit: int) {
    forall i :: 0 <= i < |history| && history[i].allowed ==>
      Count(history[..i], InWindow(history[i].app, history[i].env, history[i].timestamp - RateWindow)) < limit
  }

  /** Appending an entry approved under the rate rule keeps the ledger invariant. */
  lemma RateRespectedAppend(history: seq<HistoryEntry>, e: HistoryEntry, limit: int)
    requires RateRespected(history, limit)
    requires e.allowed ==> Count(history, InWindow(e.app, e.env, e.timestamp - RateWindow)) < limit
    ensures RateRespected(history + [e], limit)
  {
    var h := history + [e];
    forall i | 0 <= i < |h| && h[i].allowed
      ensures Count(h[..i], InWindow(h[i].app, h[i].env, h[i].timestamp - RateWindow)) < limit
    {
      if i < |history| {
        assert h[..i] == history[..i];
      } else {
        assert h[..i] == history;
      }
    }
  }

  /** Dropping the oldest entries keeps the ledger invariant. */
  lemma RateRespectedSuffix(history: seq<HistoryEntry>, d: nat, limit: int)
    requires d <= |history|
    requires RateRespected(history, limit)
    ensures RateRespected(history[d..], limit)
  {
    var h := history[d..];
    forall i | 0 <= i < |h| && h[i].allowed
      ensures Count(h[..i], InWindow(h[i].app, h[i].env, h[i].timestamp - RateWindow)) < limit
    {
      var e := history[d + i];
      assert h[..i] == history[d..d + i];
      CountSliceLe(history, d, d + i, InWindow(e.app, e.env, e.timestamp - RateWindow));
      assert history[..d + i] == history[..d + i];
    }
  }

  class SafetyGate {
    const schema: Schema
    var history: seq<HistoryEntry>
    var policyViolations: seq<PolicyRecord>

    /** The ledger is bounded and every approval in it respected the rate limit. */
    ghost predicate Valid()
      reads this
    {
      |history| <= HistoryCapacity && RateRespected(history, schema.constraints.maxActionsPerMinute)
    }

    /** `loaded` is the schema file's content, if the file exists. */
    constructor (loaded: Option<Schema>)
      ensures schema == loaded.GetOr(DefaultSchema)
      ensures history == [] && policyViolations == []
      ensures Valid()
    {
      schema := loaded.GetOr(DefaultSchema);
      history := [];
      policyViolations := [];
    }

    /** `_log_action_attempt`: append one entry, then keep only the newest 1000. */
    method LogActionAttempt(action: string, app: string, env: string, violations: seq<Violation>, now: real)
      requires Valid()
      requires violations == [] ==>
                 Count(history, InWindow(app, env, now - RateWindow)) < schema.constraints.maxActionsPerMinute
      modifies this
      ensures Valid()
      ensures history == LastN(old(history) + [HistoryEntry(action, app, env, now, violations, violations == [])], HistoryCapacity)
      ensures policyViolations == old(policyViolations)
    {
      var entry := HistoryEntry(action, app, env, now, violations, violations == []);
      RateRespectedAppend(history, entry, schema.constraints.maxActionsPerMinute);
      history := history + [entry];
      if |history| > HistoryCapacity {
        RateRespectedSuffix(history, |history| - HistoryCapacity, schema.constraints.maxActionsPerMinute);
        history := history[|history| - HistoryCapacity..];
      }
    }

    /** `_log_policy_violation`: append one audit record. */
    method LogPolicyViolation(action: string, app: string, env: string, violations: seq<Violation>, now: real)
      modifies this
      ensures policyViolations == old(policyViolations) + [PolicyRecord(now, action, app, env, violations, schema.enforcementLevel)]
      ensures history == old(history)
    {
      policyViolations := policyViolations + [PolicyRecord(now, action, app, env, violations, schema.enforcementLevel)];
    }

    /**
     * `enforce_constraints` at time `now`. A STRICT schema failure is recorded as a policy
     * violation and leaves the ledger alone; every other call appends exactly one entry.
     */
    method EnforceConstraints(action: string, app: string, env: string, spec: AppSpec, state: Observation, now: real)
      returns (violations: seq<Violation>)
      requires Valid()
      modifies this
      ensures Valid()
      ensures violations == GateViolations(schema, old(history), action, app, env, spec, state, now)
      ensures ShortCircuits(schema, SchemaViolations(action, env, spec)) ==>
                && history == old(history)
                && policyViolations == old(policyViolations) + [PolicyRecord(now, action, app, env, violations, schema.enforcementLevel)]
      ensures !ShortCircuits(schema, SchemaViolations(action, env, spec)) ==>
                && history == LastN(old(history) + [HistoryEntry(action, app, env, now, violations, violations == [])], HistoryCapacity)
                && policyViolations == old(policyViolations)
    {
      var fromSchema := SchemaViolations(action, env, spec);
      violations := fromSchema;
      if fromSchema != [] && schema.enforcementLevel == Some("STRICT") {
        LogPolicyViolation(action, app, env, fromSchema, now);
        return;
      }
      var c := schema.constraints;
      ghost var workerPart := if WorkerRuleFires(c, action, spec, state) then [WorkerLimit(Workers(state), MaxAllowedWorkers(c, spec))] else [];
      ghost var prodPart := if env == "prod" && action in c.forbiddenProdActions then [ForbiddenInProd(action)] else [];
      ghost var uptimePart := if UptimeRuleFires(c, action, state) then [UptimeTooLow(state.uptime.GetOr(0.0), c.minUptimeBeforeAction)] else [];
      var rules: seq<Violation> := [];
      if action in {ScaleUp, Deploy} {
        var workers := Workers(state);
        var maxAllowed := MaxAllowedWorkers(c, spec);
        if workers >= maxAllowed {
          rules := rules + [WorkerLimit(workers, maxAllowed)];
        }
      }
      assert rules == workerPart;
      if env == "prod" && action in c.forbiddenProdActions {
        rules := rules + [ForbiddenInProd(action)];
      }
      assert rules == workerPart + prodPart;
      var uptime := state.uptime.GetOr(0.0);
      if uptime < c.minUptimeBeforeAction && action != Deploy {
        rules := rules + [UptimeTooLow(uptime, c.minUptimeBeforeAction)];
      }
      assert rules == workerPart + prodPart + uptimePart;
      var recent := RecentActions(history, app, env, now);
      if |recent| >= c.maxActionsPerMinute {
        rules := rules + [RateLimited(|recent|)];
      }
      assert rules == RuleViolations(c, action, env, spec, state, |recent|);
      violations := fromSchema + rules;
      if violations == [] {
        ApprovedPassesRules(schema, history, action, app, env, spec, state, now);
      }
      LogActionAttempt(action, app, env, violations, now);
    }

    /** `enforce_safety`: the same gate, raising `SafetyViolationError` when anything was reported. */
    method EnforceSafety(action: string, app: string, env: string, spec: AppSpec, state: Observation, now: real)
      returns (r: Result<bool, seq<Violation>>)
      requires Valid()
      modifies this
      ensures Valid()
      ensures r.Success? <==> GateViolations(schema, old(history), action, app, env, spec, state, now) == []
      ensures r.Success? ==> r.value
      ensures r.Failure? ==> r.error == GateViolations(schema, old(history), action, app, env, spec, state, now)
      ensures ShortCircuits(schema, SchemaViolations(action, env, spec)) ==>
                && history == old(history)
                && policyViolations == old(policyViolations) + [PolicyRecord(now, action, app, env,
                     SchemaViolations(action, env, spec), schema.enforcementLevel)]
      ensures !ShortCircuits(schema, SchemaViolations(action, env, spec)) ==>
                && history == LastN(old(history) + [HistoryEntry(action, app, env, now,
                     GateViolations(schema, old(history), action, app, env, spec, state, now), r.Success?)], HistoryCapacity)
                && policyViolations == old(policyViolations)
    {
      var violations := EnforceConstraints(action, app, env, spec, state, now);
      if violations != [] {
        return Failure(violations);
      }
      return Success(true);
    }
  }
}
