/**
 * The tabular controller: app-spec validation, epsilon-greedy choice over the
 * Q-table, dispatch of an action to the orchestrator, the basic reward, the
 * one-step Q-update and the string-keyed save and load of the table.
 */
module Controller {
  import opened Wrappers
  import opened Text
  import opened AppSpecs
  import opened Observations
  import opened ActionSpace

  const Alpha: real := 0.1
  const Gamma: real := 0.9
  const Epsilon: real := 0.2

  /** The actions `_validate_app_spec` accepts as custom actions. */
  const AllowedActions := [Deploy, Stop, Restart, ScaleUp, ScaleDown, Rollback]

  /**
   * A Q-table key. The controller writes `(state, action)` pairs; reading a saved
   * table back turns a key without `_` into a one-element tuple, kept as `Single`.
   */
  datatype QKey = Pair(state: string, action: string) | Single(text: string)

  // ---------------------------------------------------------------- spec validation

  /** What `_validate_app_spec` accepts, stated declaratively. */
  predicate SpecIsValid(spec: AppSpec) {
    && spec.name.Some?
    && spec.kind.Some?
    && (spec.scaling.Some? ==>
          && (spec.scaling.value.maxWorkers.Some? ==> spec.scaling.value.maxWorkers.value <= 10)
          && (spec.scaling.value.minWorkers.Some? ==> spec.scaling.value.minWorkers.value >= 1))
    && (spec.customActions.Some? ==>
          forall k :: 0 <= k < |spec.customActions.value| ==> spec.customActions.value[k] in AllowedActions)
  }

  /** `_validate_app_spec`: required keys, worker bounds, then each custom action in turn. */
  method ValidateAppSpec(spec: AppSpec) returns (ok: bool)
    ensures ok <==> SpecIsValid(spec)
  {
    if spec.name.None? || spec.kind.None? {
      return false;
    }
    if spec.scaling.Some? {
      var scaling := spec.scaling.value;
      if scaling.maxWorkers.Some? && scaling.maxWorkers.value > 10 {
        return false;
      }
      if scaling.minWorkers.Some? && scaling.minWorkers.value < 1 {
        return false;
      }
    }
    if spec.customActions.Some? {
      var custom := spec.customActions.value;
      var i := 0;
      while i < |custom|
        invariant 0 <= i <= |custom|
        invariant forall k :: 0 <= k < i ==> custom[k] in AllowedActions
      {
        if custom[i] !in AllowedActions {
          return false;
        }
        i := i + 1;
      }
    }
    return true;
  }

  /** A spec that passes validation offers only actions from the bounded vocabulary. */
  lemma ValidSpecOffersVocabularyOnly(spec: AppSpec)
    requires SpecIsValid(spec)
    ensures forall a :: a in ValidActions(spec) ==> a in AllowedActions
  {
    var custom := CustomActions(spec);
    var actions := ValidActions(spec);
    forall a | a in actions ensures a in AllowedActions {
      var k :| 0 <= k < |actions| && actions[k] == a;
      if k >= |actions| - |custom| {
        assert a == custom[k - (|actions| - |custom|)];
      }
    }
  }

  /** Validation does not compare the bounds: `min_workers` above `max_workers` is accepted. */
  lemma InvertedScalingBoundsAccepted()
    ensures SpecIsValid(AppSpec(Some("x"), Some("backend"), Some(Scaling(Some(true), Some(5), Some(2))), None, None, map[]))
  {
  }

  // ---------------------------------------------------------------- Q-table lookups

  /** `q_table.get((state, action), 0.0)`: unseen pairs are worth 0. */
  function QValue(table: map<QKey, real>, state: string, action: string): real {
    if Pair(state, action) in table then table[Pair(state, action)] else 0.0
  }

  /** `max([q_table.get((state, a), 0.0) for a in actions], default=0.0)`. */
  function MaxQ(table: map<QKey, real>, state: string, actions: seq<string>): (m: real)
    ensures actions == [] ==> m == 0.0
    ensures forall a :: a in actions ==> QValue(table, state, a) <= m
    ensures actions != [] ==> exists a :: a in actions && QValue(table, state, a) == m
  {
    if |actions| == 0 then 0.0
    else if |actions| == 1 then QValue(table, state, actions[0])
    else
      var rest := MaxQ(table, state, actions[1..]);
      assert forall a :: a in actions ==> a == actions[0] || a in actions[1..];
      if QValue(table, state, actions[0]) > rest then QValue(table, state, actions[0]) else rest
  }

  /**
   * The one-step update `q + alpha * (reward + gamma * maxNext - q)`: the new value
   * lies between the old value and the target `reward + gamma * maxNext`.
   */
  function Blend(current: real, reward: real, maxNext: real): (v: real)
    ensures var target := reward + Gamma * maxNext;
      (current <= target ==> current <= v <= target) && (target <= current ==> target <= v <= current)
    ensures v == (1.0 - Alpha) * current + Alpha * (reward + Gamma * maxNext)
  {
    current + Alpha * (reward + Gamma * maxNext - current)
  }

  /** Every stored value lies in [-bound, bound]. */
  ghost predicate Bounded(table: map<QKey, real>, bound: real) {
    forall k :: k in table ==> -bound <= table[k] <= bound
  }

  /**
   * With rewards in [-10, 10], the table stays inside [-100, 100] = [-10/(1-gamma), 10/(1-gamma)]
   * under every update.
   */
  lemma UpdatePreservesBound(table: map<QKey, real>, state: string, action: string, reward: real,
                             nextState: string, nextActions: seq<string>)
    requires Bounded(table, 100.0)
    requires -10.0 <= reward <= 10.0
    ensures Bounded(table[Pair(state, action) := Blend(QValue(table, state, action), reward,
                                                       MaxQ(table, nextState, nextActions))], 100.0)
  {
    var m := MaxQ(table, nextState, nextActions);
    if nextActions != [] {
      var a :| a in nextActions && QValue(table, nextState, a) == m;
      assert -100.0 <= QValue(table, nextState, a) <= 100.0;
    }
    var current := QValue(table, state, action);
    assert -100.0 <= current <= 100.0;
  }

  // ---------------------------------------------------------------- execute_action

  /** The orchestrator calls `execute_action` makes. */
  datatype ApiCall = DeployApp | StopApp | ScaleApp(direction: string)

  /**
   * `execute_action`, dispatch only: the calls made, in order. The result is the last
   * call's response, or `{"status": "unknown_action"}` when no call is made.
   */
  function ExecuteAction(action: string): (calls: seq<ApiCall>)
    ensures calls == [] <==> action !in {Deploy, Stop, ScaleUp, ScaleDown, Restart}
    ensures |calls| <= 2 && (|calls| == 2 <==> action == Restart)
    ensures action == Restart ==> calls == [StopApp, DeployApp]
    ensures action in {Deploy, Restart} <==> calls != [] && calls[|calls| - 1] == DeployApp
  {
    if action == Deploy then [DeployApp]
    else if action == Stop then [StopApp]
    else if action == ScaleUp then [ScaleApp("up")]
    else if action == ScaleDown then [ScaleApp("down")]
    else if action == Restart then [StopApp, DeployApp]
    else []
  }

  /** `rollback` passes spec validation but `execute_action` has no branch for it. */
  lemma RollbackIsNeverExecuted()
    ensures Rollback in AllowedActions && ExecuteAction(Rollback) == []
  {
  }

  // ---------------------------------------------------------------- compute_reward

  /** +15 for reaching `healthy` from another status, otherwise -20 for `failed`, -5 for `degraded`. */
  function StatusTerm(pre: Observation, post: Observation): (r: real)
    ensures r == 15.0 <==> post.status == Some("healthy") && pre.status != Some("healthy")
    ensures r < 0.0 <==> post.status == Some("failed") || post.status == Some("degraded")
    ensures r == 0.0 || r == 15.0 || r == -20.0 || r == -5.0
  {
    if post.status == Some("healthy") && pre.status != Some("healthy") then 15.0
    else if post.status == Some("failed") then -20.0
    else if post.status == Some("degraded") then -5.0
    else 0.0
  }

  /** Ten times the relative drop of `response_time` (default 1000); 0 when the old value is not positive. */
  function LatencyTerm(pre: Observation, post: Observation): (r: real)
    ensures pre.responseTime.GetOr(1000.0) <= 0.0 ==> r == 0.0
    ensures pre.responseTime.GetOr(1000.0) > 0.0 ==>
              (r > 0.0 <==> post.responseTime.GetOr(1000.0) < pre.responseTime.GetOr(1000.0))
    ensures post.responseTime.GetOr(1000.0) >= 0.0 ==> r <= 10.0
  {
    var preLatency := pre.responseTime.GetOr(1000.0);
    var postLatency := post.responseTime.GetOr(1000.0);
    if preLatency > 0.0 then (preLatency - postLatency) / preLatency * 10.0 else 0.0
  }

  /** A rise of the error rate (default 0) costs 25 per unit, a fall earns 15 per unit. */
  function ErrorTerm(pre: Observation, post: Observation): (r: real)
    ensures r > 0.0 <==> post.errorRate.GetOr(0.0) < pre.errorRate.GetOr(0.0)
    ensures r < 0.0 <==> post.errorRate.GetOr(0.0) > pre.errorRate.GetOr(0.0)
  {
    var delta := post.errorRate.GetOr(0.0) - pre.errorRate.GetOr(0.0);
    if delta > 0.0 then -(delta * 25.0) else (-delta) * 15.0
  }

  /** Going up and back down in error rate loses more than it gains. */
  lemma ErrorTermAsymmetric(a: Observation, b: Observation)
    requires a.errorRate.GetOr(0.0) != b.errorRate.GetOr(0.0)
    ensures ErrorTerm(a, b) + ErrorTerm(b, a) < 0.0
  {
  }

  /** For a healthy result: -3 when uptime (default 0) is below 300 s, +2 above 3600 s. */
  function UptimeTerm(post: Observation): (r: real)
    ensures post.status != Some("healthy") ==> r == 0.0
    ensures r < 0.0 <==> post.status == Some("healthy") && post.uptime.GetOr(0.0) < 300.0
    ensures r > 0.0 <==> post.status == Some("healthy") && post.uptime.GetOr(0.0) > 3600.0
  {
    if post.status == Some("healthy") then
      var uptime := post.uptime.GetOr(0.0);
      if uptime < 300.0 then -3.0 else if uptime > 3600.0 then 2.0 else 0.0
    else 0.0
  }

  /** +1 when cpu < 0.3 and memory < 0.4 (defaults 0.5), otherwise -2 when either exceeds 0.8. */
  function ResourceTerm(post: Observation): (r: real)
    ensures r > 0.0 <==> post.cpu.GetOr(0.5) < 0.3 && post.memory.GetOr(0.5) < 0.4
    ensures r < 0.0 <==> (post.cpu.GetOr(0.5) > 0.8 || post.memory.GetOr(0.5) > 0.8)
  {
    var cpu := post.cpu.GetOr(0.5);
    var memory := post.memory.GetOr(0.5);
    if cpu < 0.3 && memory < 0.4 then 1.0 else if cpu > 0.8 || memory > 0.8 then -2.0 else 0.0
  }

  /** `compute_reward`: the five terms accumulated into one local, in source order. */
  method ComputeReward(pre: Observation, post: Observation) returns (reward: real)
    ensures reward == StatusTerm(pre, post) + LatencyTerm(pre, post) + ErrorTerm(pre, post)
                      + UptimeTerm(post) + ResourceTerm(post)
  {
    reward := 0.0;
    if post.status == Some("healthy") && pre.status != Some("healthy") {
      reward := reward + 15.0;
    } else if post.status == Some("failed") {
      reward := reward - 20.0;
    } else if post.status == Some("degraded") {
      reward := reward - 5.0;
    }
    var preLatency := pre.responseTime.GetOr(1000.0);
    var postLatency := post.responseTime.GetOr(1000.0);
    var latencyImprovement := if preLatency > 0.0 then (preLatency - postLatency) / preLatency else 0.0;
    reward := reward + latencyImprovement * 10.0;
    var errorDelta := post.errorRate.GetOr(0.0) - pre.errorRate.GetOr(0.0);
    if errorDelta > 0.0 {
      reward := reward - errorDelta * 25.0;
    } else {
      reward := reward + (-errorDelta) * 15.0;
    }
    if post.status == Some("healthy") {
      var uptime := post.uptime.GetOr(0.0);
      if uptime < 300.0 {
        reward := reward - 3.0;
      } else if uptime > 3600.0 {
        reward := reward + 2.0;
      }
    }
    var cpu := post.cpu.GetOr(0.5);
    var memory := post.memory.GetOr(0.5);
    if cpu < 0.3 && memory < 0.4 {
      reward := reward + 1.0;
    } else if cpu > 0.8 || memory > 0.8 {
      reward := reward - 2.0;
    }
  }

  // ---------------------------------------------------------------- policy keys

  /** `f"{state}_{action}"` for a pair key; a one-element key has no second part. */
  function EncodeKey(k: QKey): string {
    match k
    case Pair(s, a) => s + "_" + a
    case Single(t) => t
  }

  /** `tuple(k.split('_', 1))` in `load_policy`. */
  function DecodeKey(text: string): (k: QKey)
    ensures EncodeKey(k) == text
    ensures k.Pair? ==> '_' !in k.state
  {
    var parts := SplitFirst(text, '_');
    if |parts| == 2 then Pair(parts[0], parts[1]) else Single(text)
  }

  /** The pair is recovered from its saved key exactly when the state has no `_`. */
  lemma DecodeRecoversPairIff(state: string, action: string)
    ensures DecodeKey(EncodeKey(Pair(state, action))) == Pair(state, action) <==> '_' !in state
  {
    var text := EncodeKey(Pair(state, action));
    assert text == state + ['_'] + action;
    if '_' !in state {
      IndexOfAfterPrefix(state, '_', action);
      assert text[..|state|] == state;
      assert text[|state| + 1..] == action;
    }
  }

  /** Optionally the last `_`-separated action name of `text` from the vocabulary, first match in vocabulary order. */
  function FindActionSuffix(text: string, actions: seq<string>): (found: Option<string>)
    ensures found.Some? ==> found.value in actions && EndsWith(text, "_" + found.value)
    ensures found.None? ==> forall a :: a in actions ==> !EndsWith(text, "_" + a)
  {
    if actions == [] then None
    else if EndsWith(text, "_" + actions[0]) then Some(actions[0])
    else FindActionSuffix(text, actions[1..])
  }

  /** The decoder `load_policy` needs: peel a known action name off the end, else split as before. */
  function DecodeKeyByVocabulary(text: string): (k: QKey)
    ensures EncodeKey(k) == text
  {
    match FindActionSuffix(text, AllowedActions)
    case Some(a) =>
      var state := text[..|text| - |a| - 1];
      assert text == state + "_" + a;
      Pair(state, a)
    case None => DecodeKey(text)
  }

  /** The vocabulary's names are told apart by their last two characters. */
  lemma VocabularyEndingsDistinct(a: string, b: string)
    requires a in AllowedActions && b in AllowedActions
    requires a[|a| - 2..] == b[|b| - 2..]
    ensures a == b
  {
  }

  /** A text ends in at most one `_`-prefixed vocabulary name. */
  lemma VocabularySuffixUnique(text: string, a: string, b: string)
    requires a in AllowedActions && b in AllowedActions
    requires EndsWith(text, "_" + a) && EndsWith(text, "_" + b)
    ensures a == b
  {
    assert a[|a| - 2..] == ("_" + a)[|a| - 1..] == text[|text| - 2..];
    assert b[|b| - 2..] == ("_" + b)[|b| - 1..] == text[|text| - 2..];
    VocabularyEndingsDistinct(a, b);
  }

  /** Every saved pair whose action is in the vocabulary is read back as that pair. */
  lemma VocabularyDecodeRoundTrip(state: string, action: string)
    requires action in AllowedActions
    ensures DecodeKeyByVocabulary(EncodeKey(Pair(state, action))) == Pair(state, action)
  {
    var text := EncodeKey(Pair(state, action));
    assert text == state + "_" + action;
    assert EndsWith(text, "_" + action) by {
      assert text[|text| - |"_" + action|..] == "_" + action;
    }
    var found := FindActionSuffix(text, AllowedActions);
    assert found.Some?;
    VocabularySuffixUnique(text, action, found.value);
    assert text[..|text| - |action| - 1] == state;
  }

  /** The decoder is one-to-one, as a map comprehension over saved keys needs. */
  lemma DecodeKeyByVocabularyInjective()
    ensures forall t1, t2 :: DecodeKeyByVocabulary(t1) == DecodeKeyByVocabulary(t2) ==> t1 == t2
  {
    forall t1, t2 | DecodeKeyByVocabulary(t1) == DecodeKeyByVocabulary(t2) ensures t1 == t2 {
      assert EncodeKey(DecodeKeyByVocabulary(t1)) == t1;
      assert EncodeKey(DecodeKeyByVocabulary(t2)) == t2;
    }
  }

  /** `DecodeKey` is one-to-one, since it re-encodes to its text. */
  lemma DecodeKeyInjective()
    ensures forall t1, t2 :: DecodeKey(t1) == DecodeKey(t2) ==> t1 == t2
  {
    forall t1, t2 | DecodeKey(t1) == DecodeKey(t2) ensures t1 == t2 {
      assert EncodeKey(DecodeKey(t1)) == t1;
      assert EncodeKey(DecodeKey(t2)) == t2;
    }
  }

  /**
   * The table `load_policy` installs from the saved `q_table` entries as written:
   * every text is cut at its first `_`, so no loaded pair has a `_` in its state.
   */
  function DecodeTableAsWritten(saved: map<string, real>): (table: map<QKey, real>)
    ensures forall t :: t in saved ==> DecodeKey(t) in table && table[DecodeKey(t)] == saved[t]
    ensures forall k :: k in table ==> EncodeKey(k) in saved && saved[EncodeKey(k)] == table[k]
    ensures forall k :: k in table && k.Pair? ==> '_' !in k.state
  {
    DecodeKeyInjective();
    map t | t in saved :: DecodeKey(t) := saved[t]
  }

  /**
   * Saving and loading as written loses every pair whose state holds a `_`, which
   * every state key `app_env_status_errN` does: the pair is not in the loaded table.
   */
  lemma SaveLoadAsWrittenDropsUnderscoreStates(table: map<QKey, real>, saved: map<string, real>, k: QKey)
    requires IsSavedForm(table, saved)
    requires k in table && k.Pair? && '_' in k.state
    ensures EncodeKey(k) in saved
    ensures k !in DecodeTableAsWritten(saved)
    ensures DecodeKey(EncodeKey(k)) in DecodeTableAsWritten(saved) && DecodeKey(EncodeKey(k)) != k
  {
    DecodeRecoversPairIff(k.state, k.action);
  }

  /** The corrected table `load_policy` needs: each saved text decoded by its vocabulary suffix. */
  function DecodeTable(saved: map<string, real>): (table: map<QKey, real>)
    ensures forall t :: t in saved ==> DecodeKeyByVocabulary(t) in table && table[DecodeKeyByVocabulary(t)] == saved[t]
    ensures forall k :: k in table ==> EncodeKey(k) in saved && saved[EncodeKey(k)] == table[k]
    ensures forall k :: k in table ==> DecodeKeyByVocabulary(EncodeKey(k)) == k
  {
    DecodeKeyByVocabularyInjective();
    map t | t in saved :: DecodeKeyByVocabulary(t) := saved[t]
  }

  /** `saved` is what `save_policy` writes for `table`: one string key per pair key, values carried over. */
  ghost predicate IsSavedForm(table: map<QKey, real>, saved: map<string, real>) {
    && (forall k :: k in table ==> EncodeKey(k) in saved)
    && (forall t :: t in saved ==> exists k :: k in table && EncodeKey(k) == t && saved[t] == table[k])
  }

  /** Every key of the table is loaded back with its value. */
  lemma LoadedKeepsEntry(table: map<QKey, real>, saved: map<string, real>, k: QKey)
    requires IsSavedForm(table, saved)
    requires forall k :: k in table ==> k.Pair? && k.action in AllowedActions
    requires k in table
    ensures k in DecodeTable(saved) && DecodeTable(saved)[k] == table[k]
  {
    var t := EncodeKey(k);
    VocabularyDecodeRoundTrip(k.state, k.action);
    var k' :| k' in table && EncodeKey(k') == t && saved[t] == table[k'];
    VocabularyDecodeRoundTrip(k'.state, k'.action);
    assert k' == k;
  }

  /** Only keys of the table are loaded. */
  lemma LoadedOnlyTableKeys(table: map<QKey, real>, saved: map<string, real>, k: QKey)
    requires IsSavedForm(table, saved)
    requires forall k :: k in table ==> k.Pair? && k.action in AllowedActions
    requires k in DecodeTable(saved)
    ensures k in table
  {
    var t := EncodeKey(k);
    assert t in saved;
    var k' :| k' in table && EncodeKey(k') == t && saved[t] == table[k'];
    VocabularyDecodeRoundTrip(k'.state, k'.action);
  }

  /** A table of pair keys over vocabulary actions survives save and load unchanged. */
  lemma SaveLoadRoundTrip(table: map<QKey, real>, saved: map<string, real>)
    requires IsSavedForm(table, saved)
    requires forall k :: k in table ==> k.Pair? && k.action in AllowedActions
    ensures DecodeTable(saved) == table
  {
    var loaded := DecodeTable(saved);
    forall k | k in table ensures k in loaded && loaded[k] == table[k] {
      LoadedKeepsEntry(table, saved, k);
    }
    forall k | k in loaded ensures k in table {
      LoadedOnlyTableKeys(table, saved, k);
    }
  }

  datatype SaveError = IndexError(key: string)

  /** The document `save_policy` writes. */
  datatype PolicySnapshot = PolicySnapshot(qTable: map<string, real>, alpha: real, gamma: real,
                                           epsilon: real, lastUpdated: real)

  class RlController {
    var q: map<QKey, real>

    constructor ()
      ensures q == map[]
    {
      q := map[];
    }

    /**
     * `choose_action`: with `explore` (the `random() < epsilon` draw) any legal action;
     * otherwise an action whose Q-value is maximal among the legal ones.
     */
    method ChooseAction(state: string, spec: AppSpec, explore: bool) returns (action: string)
      ensures action in ValidActions(spec)
      ensures !explore ==> forall a :: a in ValidActions(spec) ==> QValue(q, state, a) <= QValue(q, state, action)
    {
      var valid := ValidActions(spec);
      assert valid[0] in valid;
      if explore {
        action :| action in valid;
      } else {
        var best := MaxQ(q, state, valid);
        var ties := set a | a in valid && QValue(q, state, a) == best;
        var top :| top in valid && QValue(q, state, top) == best;
        assert top in ties;
        action :| action in ties;
      }
    }

    /** `update_rl_table`: only entry (state, action) changes, to the blended value, which is returned. */
    method UpdateRlTable(state: string, action: string, reward: real, nextState: string,
                         validNextActions: seq<string>) returns (newQ: real)
      modifies this
      ensures newQ == Blend(QValue(old(q), state, action), reward, MaxQ(old(q), nextState, validNextActions))
      ensures q == old(q)[Pair(state, action) := newQ]
    {
      var current := QValue(q, state, action);
      var maxNext := MaxQ(q, nextState, validNextActions);
      newQ := current + Alpha * (reward + Gamma * maxNext - current);
      q := q[Pair(state, action) := newQ];
    }

    /**
     * `save_policy`: every pair key becomes `state_action`; a one-element key fails
     * with an index error. Which of two colliding pairs wins follows dictionary order,
     * which the model leaves open.
     */
    method SavePolicy(now: real) returns (snapshot: Result<PolicySnapshot, SaveError>)
      ensures snapshot.Failure? <==> exists k :: k in q && k.Single?
      ensures snapshot.Success? ==> IsSavedForm(q, snapshot.value.qTable)
      ensures snapshot.Success? ==> snapshot.value.alpha == Alpha && snapshot.value.gamma == Gamma
                                    && snapshot.value.epsilon == Epsilon && snapshot.value.lastUpdated == now
    {
      var rest := q.Keys;
      var saved: map<string, real> := map[];
      while rest != {}
        invariant rest <= q.Keys
        invariant forall k :: k in q && k !in rest ==> k.Pair? && EncodeKey(k) in saved
        invariant forall t :: t in saved ==> exists k :: k in q && EncodeKey(k) == t && saved[t] == q[k]
        decreases rest
      {
        var k :| k in rest;
        if k.Single? {
          return Failure(IndexError(k.text));
        }
        saved := saved[EncodeKey(k) := q[k]];
        rest := rest - {k};
      }
      snapshot := Success(PolicySnapshot(saved, Alpha, Gamma, Epsilon, now));
    }

    /**
     * `load_policy` as written: when the file exists, its `q_table` (empty if absent),
     * with each key cut at its first `_`, replaces the table.
     */
    method LoadPolicy(stored: Option<map<string, real>>)
      modifies this
      ensures stored.None? ==> q == old(q)
      ensures stored.Some? ==> q == DecodeTableAsWritten(stored.value)
    {
      if stored.Some? {
        q := DecodeTableAsWritten(stored.value);
      }
    }

    /** `load_policy` corrected: the saved keys are decoded by their vocabulary suffix. */
    method LoadPolicyCorrected(stored: Option<map<string, real>>)
      modifies this
      ensures stored.None? ==> q == old(q)
      ensures stored.Some? ==> q == DecodeTable(stored.value)
    {
      if stored.Some? {
        q := DecodeTable(stored.value);
      }
    }
  }
}
