# Universal RL remediation controller, modelled in Dafny

This project models the core of a tabular reinforcement-learning controller that
keeps applications healthy. It has these parts:

- **Action space.** The actions an app spec offers and the per-action safety rules.
- **Universal controller.** App-spec validation, ε-greedy action choice over a
  Q-table, the Q-learning update, dispatch of an action to orchestrator calls, the
  hand-written reward, and saving and loading the policy.
- **Safety gate.** Schema checks, worker, production, uptime and rate rules, an
  audit history capped at 1000 entries, policy-violation records and the safe
  fallback action.
- **Advanced rewards.** A weighted reward clamped to [-10, 10], and the latency,
  degradation and long-term penalties with their per-app memory.
- **State detector.** Merges metric readings from four providers, falls back by
  environment, and normalises the result.
- **State mapper.** The discrete state key `app_env_status_errN`, and a whole-log
  classifier.
- **Integration contracts.** Per-method parameter and response schemas, and mock
  APIs that raise on a broken contract.
- **Simulated orchestrator.** A registry keyed by `app_env`.
- **Build registry.** The log classifiers: HTTP error rate, recent-line status,
  lines that mention an app, and a derived response time.

Objects whose fields the source updates in place are Dafny classes:

- `RlController` (the Q-table);
- `SafetyGate` (history and policy violations), with the invariant `Valid()`
  (history capped, allowed entries within the rate limit);
- `RewardCalculator` (latency history and penalty counters);
- `ShivamOrchestrator` (the two registries), with an invariant tying its two
  dictionaries together.

Loops in the source are methods with loop invariants, proved against
specification functions. Pure code is functions and lemmas.

Python exceptions the core can raise are `Result` failures:

- `ZeroDivisionError` in the performance reward;
- `TypeError` in state normalisation;
- `IndexError` in `save_policy`;
- the failed unpacking in `validate_policy_constraints`;
- `ValueError` in the mocks.

Clocks, randomness, files and HTTP answers are parameters:

- `now` is a parameter;
- `explore` stands for the ε-draw;
- a `:|` choice within the documented ranges stands for `random.uniform` and `randint`;
- `Option<seq<string>>` is a log file that may be missing;
- probe datatypes are the HTTP answers.

Modules: `Wrappers`, `Text` (Python string and list behaviour), `AppSpecs`,
`Observations`, `ActionSpace`, `Controller`, `Safety`, `Rewards`, `Detector`,
`StateMapper`, `Contracts`, `Orchestrator`, `BuildRegistry`.

Where the prose description of the system and the code disagree, the model follows
the code:

- **Provider order.** Later metric providers overwrite earlier ones (`dict.update`).
  They do not "fill in" only what is missing (`Detector.LastProviderWins`).
- **Scaling bounds.** App-spec validation does not check `min_workers <= max_workers`
  (`Controller.InvertedScalingBoundsAccepted`).
- **History.** A STRICT schema short-circuit records a policy violation but appends
  nothing to the action history (`Safety.SafetyGate.EnforceConstraints`).
- **Unused constraints.** `max_workers_global` and `required_approval_actions` are
  loaded but never consulted.
- **Rollback.** `rollback` is in the validation vocabulary but is never dispatched
  (`Controller.RollbackIsNeverExecuted`).
- **Dispatcher and contracts.** The controller dispatches `deploy_app(app, env)` and
  `scale(app, env, direction=…)`. Those call shapes break the orchestrator
  contract (`Contracts.DispatcherCallShapesRejected`).
- **Underscores in names.** App and env names containing `_` make two states, or
  two registry entries, share a key (`StateMapper.UnderscoreNamesCollide`,
  `Orchestrator.AppKeysCollide`).

## Model

| member | source | states |
|---|---|---|
| ActionSpace.ValidActions | rl/app_action_space.py:5-21 | the base actions first, then scale_up/scale_down exactly when scaling is enabled, then the custom actions, in that order |
| ActionSpace.ScalingActionsOffered | rl/app_action_space.py:14-19 | scale_up (scale_down) is offered iff scaling is enabled or the spec lists it as custom |
| ActionSpace.MinimalSpecOffersBaseActions | rl/app_action_space.py:10-11 | a spec with no scaling and no custom actions offers exactly deploy, stop, restart |
| ActionSpace.IsActionSafe | rl/app_action_space.py:23-42 | scale_up is safe iff workers (default 1) are below the spec's max (default 3); scale_down iff workers > 1; stop iff not (prod and healthy); everything else is safe |
| ActionSpace.FallbackAction | rl/app_action_space.py:44-46 | the fallback is always restart |
| ActionSpace.FallbackIsValidAction | rl/app_action_space.py:44-46 | the fallback is a valid action of every spec |
| Controller.ValidateAppSpec | rl/universal_controller.py:44-66 | accepts iff name and type are present, max_workers ≤ 10, min_workers ≥ 1 and every custom action is in the six-name vocabulary |
| Controller.ValidSpecOffersVocabularyOnly | rl/universal_controller.py:60-64 | a valid spec offers only vocabulary actions |
| Controller.InvertedScalingBoundsAccepted | rl/universal_controller.py:52-57 | min_workers 5 with max_workers 2 still validates |
| Controller.MaxQ | rl/universal_controller.py:149 | the maximum over the next actions' values (unseen pairs count 0): an upper bound attained by one of them, 0 for no actions |
| Controller.Blend | rl/universal_controller.py:151 | the new value lies between the old value and the target, at α = 0.1 of the way |
| Controller.UpdatePreservesBound | rl/universal_controller.py:146-152 | with rewards in [-10, 10], every Q-value stays in [-100, 100] across an update |
| Controller.ExecuteAction | rl/universal_controller.py:86-99 | no call for an unknown action, two calls (stop then deploy) exactly for restart, and the last call is deploy iff the action is deploy or restart |
| Controller.RollbackIsNeverExecuted | rl/universal_controller.py:61 | rollback validates but dispatches nothing |
| Controller.StatusTerm | rl/universal_controller.py:106-111 | +15 iff the app became healthy, negative iff it ends failed or degraded |
| Controller.LatencyTerm | rl/universal_controller.py:114-117 | 0 for a non-positive previous latency (default 1000), positive iff latency fell, at most 10 |
| Controller.ErrorTerm | rl/universal_controller.py:120-126 | positive iff the error rate fell, negative iff it rose |
| Controller.ErrorTermAsymmetric | rl/universal_controller.py:123-126 | a rise costs more than the same fall earns |
| Controller.UptimeTerm | rl/universal_controller.py:129-134 | only a healthy app scores; negative iff uptime < 300, positive iff > 3600 |
| Controller.ResourceTerm | rl/universal_controller.py:137-142 | positive iff cpu < 0.3 and memory < 0.4, negative iff either exceeds 0.8 (defaults 0.5) |
| Controller.ComputeReward | rl/universal_controller.py:101-144 | the running total is the sum of the five terms |
| Controller.DecodeKey | rl/universal_controller.py:185 | splitting at the first `_` re-encodes to the text, and a pair's state has no `_` |
| Controller.DecodeRecoversPairIff | rl/universal_controller.py:168-185 | the as-written loader recovers a saved pair iff its state contains no `_` |
| Controller.FindActionSuffix | rl/universal_controller.py:185 | finds a vocabulary action the saved text ends with after `_`, and none exactly when no action does |
| Controller.DecodeKeyByVocabulary | rl/universal_controller.py:185 | the corrected decoder re-encodes to the text it read |
| Controller.VocabularyDecodeRoundTrip | rl/universal_controller.py:168-185 | every pair with a vocabulary action is read back unchanged |
| Controller.DecodeKeyByVocabularyInjective | rl/universal_controller.py:185 | distinct saved keys decode to distinct table keys |
| Controller.DecodeKeyInjective | rl/universal_controller.py:185 | the as-written decoder never maps two saved texts to one key |
| Controller.DecodeTableAsWritten | rl/universal_controller.py:185 | as written: each saved entry lands under its text cut at the first `_`, each loaded key re-encodes to a saved key, and no loaded pair has a `_` in its state |
| Controller.SaveLoadAsWrittenDropsUnderscoreStates | rl/universal_controller.py:168-185 | as written: a saved pair whose state holds a `_` (every `app_env_status_errN` key) is missing from the loaded table, which holds a different pair in its place |
| Controller.DecodeTable | rl/universal_controller.py:185 | corrected: each saved entry lands under its vocabulary-decoded key with its value, and each loaded key re-encodes to a saved key |
| Controller.SaveLoadRoundTrip | rl/universal_controller.py:168-185 | corrected: saving then loading a table of vocabulary pairs gives back the same table |
| Controller.RlController.ChooseAction | rl/universal_controller.py:72-84 | the choice is a valid action, and when not exploring no valid action has a higher Q-value |
| Controller.RlController.UpdateRlTable | rl/universal_controller.py:146-166 | returns the blended value and stores it under the pair, nothing else changes |
| Controller.RlController.SavePolicy | rl/universal_controller.py:168-179 | fails iff some key is not a pair; otherwise the document is the saved form of the table with α, γ, ε and the time |
| Controller.RlController.LoadPolicy | rl/universal_controller.py:181-185 | as written: a stored policy replaces the table by its first-`_` decoding; no file leaves it unchanged |
| Controller.RlController.LoadPolicyCorrected | rl/universal_controller.py:181-185 | corrected: a stored policy replaces the table by its vocabulary decoding; no file leaves it unchanged |
| Safety.SchemaViolations | rl/safety_constraints.py:130-146 | one violation for an undeclared action, one for an env-forbidden one, none iff declared and not forbidden |
| Safety.MaxAllowedWorkers | rl/safety_constraints.py:53-56 | the smaller of the per-app limit and the spec's max_workers (default 3) |
| Safety.RuleViolations | rl/safety_constraints.py:51-72 | each rule (worker, prod, uptime, rate) contributes its violation iff it fires; none iff no rule fires |
| Safety.RecentActions | rl/safety_constraints.py:79-85 | exactly the history entries of this app and env newer than a minute ago, in order |
| Safety.GateViolations | rl/safety_constraints.py:37-77 | schema violations come first; under STRICT they alone are returned, otherwise the rules follow |
| Safety.ApprovedIsDeclared | rl/safety_constraints.py:42-48 | an approved action is declared by the spec and not forbidden for the env |
| Safety.ApprovedPassesRules | rl/safety_constraints.py:51-72 | an approved action passes every rule, the rate limit included |
| Safety.StopInProductionBlocked | rl/safety_constraints.py:61-62 | under the default schema, stop in prod is never approved |
| Safety.SafeFallback | rl/safety_constraints.py:102-116 | restart for scale_up, scale_down for stop in prod, otherwise deploy iff healthy, else restart |
| Safety.FallbackClearsTrigger | rl/safety_constraints.py:102-116 | the fallback for a blocked scale_up or prod stop does not trip the rule that blocked it |
| Safety.UnsafePolicyEntries | rl/safety_constraints.py:118-128 | fails iff a key does not unpack into a pair; otherwise flags exactly the prod-state stop entries above 5.0 |
| Safety.FlaggedEntriesBlockedInProduction | rl/safety_constraints.py:118-128 | a flagged action is refused in prod by the default constraints |
| Safety.RateRespectedAppend | rl/safety_constraints.py:87-96 | appending an entry keeps the rate invariant when an allowed entry is within the limit |
| Safety.RateRespectedSuffix | rl/safety_constraints.py:98-100 | dropping the oldest entries keeps the rate invariant |
| Safety.SafetyGate.LogActionAttempt | rl/safety_constraints.py:87-100 | appends the attempt, allowed iff no violations, and keeps the last 1000 |
| Safety.SafetyGate.LogPolicyViolation | rl/safety_constraints.py:148-157 | appends one record with the enforcement level; history unchanged |
| Safety.SafetyGate.EnforceConstraints | rl/safety_constraints.py:37-77 | returns the gate's violations; a STRICT short-circuit logs a policy record only, otherwise the attempt is logged |
| Safety.SafetyGate.EnforceSafety | rl/safety_constraints.py:162-167 | succeeds with true iff there are no violations; otherwise fails carrying them |
| Rewards.StatusValue | rl/advanced_rewards.py:34-36 | healthy ranks 2, degraded 1, anything else (failed, unknown, missing) 0 |
| Rewards.Bump | rl/advanced_rewards.py:138-142 | restart bumps only the restart count, stop only the stop count, other actions neither |
| Rewards.StabilityReward | rl/advanced_rewards.py:29-44 | positive iff the status improved, ≥ 3 on improvement, ≤ -2 on decline, within [-4, 6] |
| Rewards.StabilityRoundTripNetPositive | rl/advanced_rewards.py:38-44 | going and coming back between two statuses nets a positive stability reward |
| Rewards.PerformanceReward | rl/advanced_rewards.py:46-61 | fails iff the previous latency is 0; no worse latency and errors give ≥ 0, no better give ≤ 0 |
| Rewards.PerformanceMonotone | rl/advanced_rewards.py:54-61 | lower latency and error rate never score less |
| Rewards.CpuScore | rl/advanced_rewards.py:69 | in [0.9, 1] inside 60-80 %, below -0.1 outside, 1 only at 70 % |
| Rewards.MemoryScore | rl/advanced_rewards.py:70 | in [0.9, 1] inside 50-70 %, below -0.1 outside, 1 only at 60 % |
| Rewards.EfficiencyReward | rl/advanced_rewards.py:63-77 | at most 4, negative for a resource-hungry action under pressure, ≥ 3.6 when both usages are in band |
| Rewards.ReliabilityReward | rl/advanced_rewards.py:79-90 | at most 3, at least 1 for 1-3 workers, lowered by the distance from 2 workers otherwise |
| Rewards.Clamp | rl/advanced_rewards.py:27 | the value clipped into [lo, hi], unchanged inside |
| Rewards.CalculateReward | rl/advanced_rewards.py:11-27 | fails iff the previous latency is 0; otherwise the weighted total clamped into [-10, 10] |
| Rewards.ClampInactiveForModerateInputs | rl/advanced_rewards.py:20-27 | for metrics in their normal ranges the clamp never bites |
| Rewards.RecoveryScenarioPositive | fix_static_states.py:50-53 | the degraded→healthy restart scenario is rewarded 0.8 |
| Rewards.PartialDegradationPenalty | rl/advanced_rewards.py:113-131 | never negative, 0 iff error ≤ 1 %, cpu ≤ 80 %, memory ≤ 90 %, at most 4 for usages ≤ 1 |
| Rewards.LongTermPenaltyOf | rl/advanced_rewards.py:144-148 | in [0, 5], reaching 5 iff 20 restarts and 15 stops |
| Rewards.LongTermPenaltyMonotone | rl/advanced_rewards.py:138-148 | counting one more action never lowers the penalty |
| Rewards.RewardCalculator.LongTermPenalty | rl/advanced_rewards.py:133-148 | bumps only this app's counters and returns their penalty |
| Rewards.RewardCalculator.LatencyGradientPenalty | rl/advanced_rewards.py:92-111 | appends the latency and keeps the last 10; 0 without an increase, in (0, 3] with one |
| Detector.MergeKeys | rl/dynamic_state_detector.py:19-38 | a key is merged iff some provider supplied it |
| Detector.LastProviderWins | rl/dynamic_state_detector.py:19-38 | the merged value of a key is the one from the last provider that supplied it |
| Detector.LogStatus | rl/dynamic_state_detector.py:73 | failed iff more than 5 errors, degraded iff otherwise more than 10 warnings, else healthy |
| Detector.ExtractFromLogs | rl/dynamic_state_detector.py:46-78 | no reading without a log; otherwise status, errors/100 in [0, 1], and an average latency that is absent iff none was found, over the last 100 lines |
| Detector.IntelligentFallback | rl/dynamic_state_detector.py:147-163 | prod assumes healthy at 1 % errors, other environments degraded at 5 % |
| Detector.DeriveStatus | rl/dynamic_state_detector.py:178-184 | failed iff error rate > 0.1, degraded iff otherwise cpu > 0.9 or memory > 0.95, else healthy |
| Detector.Assemble | rl/dynamic_state_detector.py:167-184 | every metric is clamped into range and the status is never unknown |
| Detector.NumberAsWritten | rl/dynamic_state_detector.py:167-175 | as written: a missing key gives the default, a number itself, anything else raises |
| Detector.NumberOrDefault | rl/dynamic_state_detector.py:167-175 | corrected: raises iff the key holds text; a number itself; missing or `None` the default |
| Detector.NormalizeAsWritten | rl/dynamic_state_detector.py:165-186 | as written: fails iff some numeric key holds anything but a number, `None` included |
| Detector.Normalize | rl/dynamic_state_detector.py:165-186 | corrected: fails iff a numeric key holds text; clamps, keeps an explicit status, derives a missing or unknown one |
| Detector.NormalizeAgreesWhenNoNone | rl/dynamic_state_detector.py:165-186 | without `None` values the corrected and as-written normalisers agree |
| Detector.LogReadingWithoutLatencyRejected | rl/dynamic_state_detector.py:165-175 | a log reading without latencies makes the as-written normaliser raise and the corrected one use 100 ms |
| Detector.FallbackNormalizes | rl/dynamic_state_detector.py:41-44 | the fallback always normalises, keeping its status |
| Detector.MergeReadings | rl/dynamic_state_detector.py:19-38 | the loop folds the readings in provider order, and the result is empty iff no provider supplied any key |
| Detector.ExtractRealState | rl/dynamic_state_detector.py:14-44 | as written: the as-written normalisation of the merged readings, or of the fallback exactly when no provider supplied anything |
| Detector.ExtractRealStateCorrected | rl/dynamic_state_detector.py:14-44 | corrected: the same with `None` values read as missing |
| Detector.MergedNullLatencyRejected | rl/dynamic_state_detector.py:44 | when the last provider giving `avg_latency` gave `None`, the as-written state raises and the corrected one uses 100 ms |
| StateMapper.ExtractState | rl/app_state_mapper.py:8-55 | the key of the metrics (status default unknown, error default 0), or the healthy, error-free fallback key |
| StateMapper.FallbackKeySuffix | rl/app_state_mapper.py:41-54 | the fallback key ends in `_healthy_err0` |
| StateMapper.StateKeyInjective | rl/app_state_mapper.py:54 | with `_`-free names the key determines app, env, status and the error bucket |
| StateMapper.UnderscoreNamesCollide | rl/app_state_mapper.py:54 | `a_b`/`c` and `a`/`b_c` share one key |
| StateMapper.ParseLogToMetrics | rl/app_state_mapper.py:57-81 | defaults without a file; rate = failing/total in [0, 1]; failed iff over half fail, degraded iff some but at most half, healthy iff none |
| Contracts.MissingParamErrors | integration_contracts.py:84-86 | none iff all required names are present; every error names an absent required name, and every absent required name has an error |
| Contracts.MissingParamErrorsInOrder | integration_contracts.py:84-86 | the errors are exactly the absent required names, each once, in schema order |
| Contracts.UnexpectedParams | integration_contracts.py:89-91 | every name is a parameter outside required ∪ optional, and every such parameter is named |
| Contracts.UnexpectedParamsInOrder | integration_contracts.py:89-91 | the names are exactly the parameters outside required ∪ optional, in call order |
| Contracts.ContractResult | integration_contracts.py:68-93 | unknown service or method gives exactly one error; otherwise valid iff all required names are present, with the missing-name errors and the unexpected-name warnings |
| Contracts.ExtraParamsNeverInvalidate | integration_contracts.py:89-93 | extra parameters only warn: a valid call stays valid |
| Contracts.ValidateContract | integration_contracts.py:68-93 | computes the contract result |
| Contracts.CollectMissingParams | integration_contracts.py:84-86 | the loop collects exactly the missing-parameter errors |
| Contracts.CollectUnexpectedParams | integration_contracts.py:89-91 | the loop collects exactly the unexpected-parameter names |
| Contracts.FieldErrors | integration_contracts.py:106-110 | no error iff every schema field is present with its type |
| Contracts.ValidateResponseSchema | integration_contracts.py:95-112 | one error for an unknown method; otherwise valid iff the response conforms; never a warning |
| Contracts.ValidateIntegrationCall | integration_contracts.py:172-181 | the dispatch agrees with the generic contract check for every service, unknown ones included |
| Contracts.Guarded | integration_contracts.py:126-127 | raises iff the validation is invalid, otherwise answers |
| Contracts.MockDeployApp | integration_contracts.py:121-130 | never raises for any extra keywords, and answers a conforming `deployed` response |
| Contracts.MockStopApp | integration_contracts.py:132-139 | never raises, and answers a conforming `stopped` response |
| Contracts.MockScale | integration_contracts.py:141-148 | never raises, and answers a conforming `scaled` response carrying the workers |
| Contracts.MockGetLatestBuild | integration_contracts.py:156-167 | never raises, and answers a conforming build record for the app |
| Contracts.MissingBuildPathRejected | integration_contracts.py:121-127 | a deploy parameter set without build_path fails the contract check, so the guard raises |
| Contracts.ScaleShapeErrors | integration_contracts.py:84-86 | a `scale` call with app_name, env and direction misses exactly `workers` |
| Contracts.ScaleShapeWarnings | integration_contracts.py:89-91 | a `scale` call with app_name, env and direction has exactly `direction` as unexpected |
| Contracts.DispatcherCallShapesRejected | integration_contracts.py:20-35 | `deploy_app(app, env)` is invalid; `scale(app, env, direction)` misses workers and warns about direction |
| Orchestrator.ClampWorkers | shivam_orchestrator.py:81-82 | the request clipped into [1, 3], unchanged inside |
| Orchestrator.ShivamOrchestrator.GetStatus | shivam_orchestrator.py:105-124 | not_deployed with 0 workers for an unknown key; otherwise the stored status and workers, never unknown under the invariant |
| Orchestrator.ShivamOrchestrator.Deploy | shivam_orchestrator.py:17-41 | (re)creates the entry running 1 worker, marks it healthy, touches no other key |
| Orchestrator.ShivamOrchestrator.Stop | shivam_orchestrator.py:49-67 | succeeds iff deployed, then marks the entry stopped in both registries; otherwise changes nothing |
| Orchestrator.ShivamOrchestrator.Scale | shivam_orchestrator.py:75-97 | succeeds iff deployed, then stores and returns the clamped workers; otherwise changes nothing |
| Orchestrator.ShivamOrchestrator.GetMetrics | shivam_orchestrator.py:126-160 | error 1.0 and 0 ms when not deployed; otherwise values from the status's band |
| Orchestrator.AppKeysCollide | shivam_orchestrator.py:24 | `a_b`/`c` and `a`/`b_c` share one registry entry |
| BuildRegistry.GetErrorRate | nilesh_build_registry.py:54-81 | errors/requests among request lines, in [0, 1]; 0 without a log or request lines; 0 iff no error line |
| BuildRegistry.StatusFromHits | nilesh_build_registry.py:97-102 | failed iff > 10 hits, degraded iff 4-10, healthy iff ≤ 3 |
| BuildRegistry.AnalyzeLogsForStatus | nilesh_build_registry.py:83-105 | unknown iff no log; otherwise the status of the ERROR/FAILED/500 hits among the last 50 upper-cased lines |
| BuildRegistry.OnlyRecentLinesMatter | nilesh_build_registry.py:90 | lines older than the last 50 do not affect the status |
| BuildRegistry.RelevantLinesExact | nilesh_build_registry.py:117-120 | the kept lines are exactly the stripped lines mentioning app or env, counted |
| BuildRegistry.GetBuildLogs | nilesh_build_registry.py:107-125 | the last 20 relevant lines; all of them when there are at most 20; none without a log |
| BuildRegistry.ResponseTime | nilesh_build_registry.py:134-139 | within [100, 1100] healthy, [300, 2300] degraded, [1000, 4000] otherwise, the base value at 0 errors |
| BuildRegistry.ResponseTimeMonotone | nilesh_build_registry.py:134-139 | a higher error rate never lowers the response time |
| BuildRegistry.GetHealthStatus | nilesh_build_registry.py:18-29 | the reported status (default healthy) on 200, failed on another code, the log status when unreachable |
| BuildRegistry.GetPerformanceMetrics | nilesh_build_registry.py:31-52 | the payload with 0 defaults on 200, otherwise the fixed fallback 0.5/0.4/0.3/3600 |
| BuildRegistry.GetAppMetrics | nilesh_build_registry.py:127-152 | the health status (endpoint's, failed, or from the logs), the error share of the request lines in [0, 1], the performance reading, and the response time derived from status and rate |

## Findings

| source | as written | input that shows it | evidently intended | confidence | as-written member | corrected member |
|---|---|---|---|---|---|---|
| rl/universal_controller.py:185 | `load_policy` rebuilds keys with `k.split('_', 1)`, splitting at the first `_` | every state key from the mapper, e.g. `("web_prod_healthy_err0", "restart")`, saved as `web_prod_healthy_err0_restart`, loads as `("web", "prod_healthy_err0_restart")` | saving then loading gives back the same Q-table | not executed | Controller.DecodeRecoversPairIff | Controller.VocabularyDecodeRoundTrip |
| rl/dynamic_state_detector.py:172 | the log provider stores `avg_latency: None` when no latency was found; `_normalize_state` then computes `max(0.0, None)` | a log file with no latency lines, so `state['avg_latency'] is None`, raises `TypeError` | a missing latency falls back to the 100 ms default | not executed | Detector.LogReadingWithoutLatencyRejected | Detector.Normalize |

## Left out

- Python floats are exact real numbers here. Results that truncate a product can differ by one from Python's: the error bucket of `StateMapper.ErrorBucket` and so `StateMapper.StateKey` (`int(0.29 * 100)` is 28 in Python, 29 here), and `BuildRegistry.ResponseTime` (`int(error_rate * 1000)` and its siblings). Exact constants such as the 0.8 of `Rewards.RecoveryScenarioPositive` hold for reals, not necessarily bit for bit in floating point.
- `BuildRegistry.GetHealthStatus`: a 200 answer whose body is not a JSON object raises inside the `try` and falls back to the logs; the model represents such an answer as `Unreachable`.

- I/O is not modelled: files, CSV event logging, JSON (de)serialisation, HTTP, psutil and Docker. Log files are `Option<seq<string>>` and HTTP answers are probe datatypes.
- The process, health-endpoint and Docker providers of the state detector are inputs (optional readings); their extraction code is I/O.
- Latency tokens are not parsed from log lines. `Detector.ExtractFromLogs` takes the parsed latencies as a parameter.
- Clocks are the `now`/`nowIso` parameters. One `now` stands for each call's single instant.
- Randomness is not modelled as random. The ε-draw is the `explore` flag. `random.choice` and `random.uniform`/`randint` are nondeterministic choices.
- Text uses ASCII only. Case mapping and `str.strip()` cover ASCII and Latin-1 white space, not the rest of Unicode.
- `Controller.ComputeReward`: the final `round(reward, 2)` is not applied.
- `BuildRegistry.GetErrorRate`: the final `round(…, 3)` is not applied.
- `Orchestrator.ShivamOrchestrator.GetMetrics`: `round(error_rate, 3)` is not applied. It cannot leave the band.
- `Rewards.RewardCalculator.LatencyGradientPenalty`: the value of `min(3, (increase/50) ** 1.5)` is only bounded to (0, 3]. Fractional powers are not modelled.
- `Safety.UnsafePolicyEntries` returns a set. The violation strings' order, which follows dict order, is not kept.
- Violation and error messages are datatypes, not formatted strings.
- `deploy`, `stop` and `scale` in the orchestrator catch exceptions their bodies cannot raise. That branch is not modelled.
- Loading a malformed safety schema file (`KeyError` on `constraints`) is not modelled. A loaded schema is an `Option<Schema>`.
- `shivam_real_orchestrator.py`, `rl/orchestrator_wrapper.py` and the dashboards and test scripts are not part of this model.
