/**
 * Integration contracts: static per-service, per-method schemas, the checks of a
 * call's parameters and of a response's fields against them, and the mock APIs
 * that refuse a call breaking its contract.
 */
module Contracts {
  import opened Wrappers
  import opened Text

  /** The Python values a parameter or response field may hold. */
  datatype PyValue = PStr(s: string) | PInt(i: int) | PBool(b: bool) | PFloat(x: real)
                   | PList(items: seq<PyValue>) | PNone

  /** The types a return schema names. */
  datatype PyType = TStr | TInt | TList

  /** `isinstance(v, t)`; a `bool` is an instance of `int`. */
  predicate IsInstance(v: PyValue, t: PyType) {
    match t
    case TStr => v.PStr?
    case TInt => v.PInt? || v.PBool?
    case TList => v.PList?
  }

  datatype MethodSchema = MethodSchema(required: seq<string>, optional: seq<string>,
                                       returnSchema: seq<(string, PyType)>)

  /** `_load_integration_schemas`. */
  const Schemas: map<string, map<string, MethodSchema>> := map[
    "orchestrator" := map[
      "deploy_app" := MethodSchema(["app_name", "env", "build_path"], ["workers", "config"],
                                   [("status", TStr), ("deployment_id", TStr)]),
      "stop_app" := MethodSchema(["app_name", "env"], [], [("status", TStr), ("stopped_at", TStr)]),
      "scale" := MethodSchema(["app_name", "env", "workers"], [], [("status", TStr), ("current_workers", TInt)])],
    "build_registry" := map[
      "get_latest_build" := MethodSchema(["app_name", "branch"], [],
                                         [("build_path", TStr), ("build_id", TStr), ("timestamp", TStr)]),
      "get_build_status" := MethodSchema(["build_id"], [], [("status", TStr), ("artifacts", TList)])],
    "qa_logs" := map[
      "inject_failure" := MethodSchema(["app_name", "failure_type", "duration"], [],
                                       [("injection_id", TStr), ("status", TStr)])]]

  datatype ContractError =
    | UnknownService(service: string)
    | UnknownMethod(service: string, op: string)
    | MissingParam(param: string)
    | CannotValidate(service: string, op: string)
    | MissingField(field: string)
    | WrongType(field: string, expected: PyType, got: PyValue)

  /** `ContractValidationResult`; warnings are the names of unexpected parameters. */
  datatype ValidationResult = ValidationResult(valid: bool, errors: seq<ContractError>, warnings: seq<string>)

  /** A call's parameters in insertion order. */
  type Params = seq<(string, PyValue)>

  function ParamNames(params: Params): set<string> {
    set k | 0 <= k < |params| :: params[k].0
  }

  /** One `MissingParam` per required name absent from `present`, in schema order. */
  function MissingParamErrors(required: seq<string>, present: set<string>): (errs: seq<ContractError>)
    ensures |errs| <= |required|
    ensures errs == [] <==> forall k :: 0 <= k < |required| ==> required[k] in present
    ensures forall k :: 0 <= k < |errs| ==> errs[k].MissingParam? && errs[k].param in required
                                            && errs[k].param !in present
    ensures forall k :: 0 <= k < |required| && required[k] !in present ==> MissingParam(required[k]) in errs
  {
    if required == [] then []
    else
      var init := required[..|required| - 1];
      var last := required[|required| - 1];
      var before := MissingParamErrors(init, present);
      assert forall k :: 0 <= k < |init| ==> init[k] == required[k];
      before + (if last !in present then [MissingParam(last)] else [])
  }

  /** The names of parameters outside `allowed`, in insertion order. */
  function UnexpectedParams(params: Params, allowed: seq<string>): (names: seq<string>)
    ensures |names| <= |params|
    ensures forall k :: 0 <= k < |names| ==> names[k] in ParamNames(params) && names[k] !in allowed
    ensures forall k :: 0 <= k < |params| && params[k].0 !in allowed ==> params[k].0 in names
  {
    if params == [] then []
    else
      var init := params[..|params| - 1];
      var last := params[|params| - 1];
      var before := UnexpectedParams(init, allowed);
      assert forall k :: 0 <= k < |init| ==> init[k] == params[k];
      assert ParamNames(init) <= ParamNames(params) by {
        forall n | n in ParamNames(init) ensures n in ParamNames(params) {
          var k :| 0 <= k < |init| && init[k].0 == n;
          assert params[k].0 == n;
        }
      }
      assert last.0 in ParamNames(params) by { assert params[|params| - 1].0 == last.0; }
      before + (if last.0 !in allowed then [last.0] else [])
  }

  /**
   * The missing-parameter errors are exactly the absent required names, each once
   * and in schema order.
   */
  lemma {:induction false} MissingParamErrorsInOrder(required: seq<string>, present: set<string>)
    ensures MissingParamErrors(required, present)
            == FilterMap(required, (n: string) => n !in present, (n: string) => MissingParam(n))
  {
    if required != [] {
      MissingParamErrorsInOrder(required[..|required| - 1], present);
    }
  }

  /** The unexpected names are exactly the parameters outside `allowed`, in call order. */
  lemma {:induction false} UnexpectedParamsInOrder(params: Params, allowed: seq<string>)
    ensures UnexpectedParams(params, allowed)
            == FilterMap(params, (p: (string, PyValue)) => p.0 !in allowed, (p: (string, PyValue)) => p.0)
  {
    if params != [] {
      UnexpectedParamsInOrder(params[..|params| - 1], allowed);
    }
  }

  /** What `_validate_contract` returns. */
  function ContractResult(service: string, op: string, params: Params): (r: ValidationResult)
    ensures service !in Schemas ==> r == ValidationResult(false, [UnknownService(service)], [])
    ensures service in Schemas && op !in Schemas[service] ==>
              r == ValidationResult(false, [UnknownMethod(service, op)], [])
    ensures service in Schemas && op in Schemas[service] ==>
              var schema := Schemas[service][op];
              && (r.valid <==> forall k :: 0 <= k < |schema.required| ==> schema.required[k] in ParamNames(params))
              && r.errors == MissingParamErrors(schema.required, ParamNames(params))
              && r.warnings == UnexpectedParams(params, schema.required + schema.optional)
    ensures r.valid <==> r.errors == []
  {
    if service !in Schemas then ValidationResult(false, [UnknownService(service)], [])
    else if op !in Schemas[service] then ValidationResult(false, [UnknownMethod(service, op)], [])
    else
      var schema := Schemas[service][op];
      var errors := MissingParamErrors(schema.required, ParamNames(params));
      ValidationResult(errors == [], errors, UnexpectedParams(params, schema.required + schema.optional))
  }

  /** Extra parameters give warnings only: validity is decided by the required names alone. */
  lemma ExtraParamsNeverInvalidate(service: string, op: string, params: Params, extra: Params)
    requires service in Schemas && op in Schemas[service]
    ensures ContractResult(service, op, params).valid ==> ContractResult(service, op, params + extra).valid
  {
    assert ParamNames(params) <= ParamNames(params + extra) by {
      forall n | n in ParamNames(params) ensures n in ParamNames(params + extra) {
        var k :| 0 <= k < |params| && params[k].0 == n;
        assert (params + extra)[k].0 == n;
      }
    }
  }

  /** `_validate_contract`: required names first, then each parameter in turn. */
  method ValidateContract(service: string, op: string, params: Params) returns (r: ValidationResult)
    ensures r == ContractResult(service, op, params)
  {
    if service !in Schemas {
      return ValidationResult(false, [UnknownService(service)], []);
    }
    if op !in Schemas[service] {
      return ValidationResult(false, [UnknownMethod(service, op)], []);
    }
    var schema := Schemas[service][op];
    var errors := CollectMissingParams(schema.required, ParamNames(params));
    var warnings := CollectUnexpectedParams(params, schema.required + schema.optional);
    return ValidationResult(|errors| == 0, errors, warnings);
  }

  /** The first loop of `_validate_contract`: a `MissingParam` for each absent required name. */
  method CollectMissingParams(required: seq<string>, present: set<string>) returns (errors: seq<ContractError>)
    ensures errors == MissingParamErrors(required, present)
  {
    errors := [];
    var i := 0;
    while i < |required|
      invariant 0 <= i <= |required|
      invariant errors == MissingParamErrors(required[..i], present)
    {
      assert required[..i + 1][..i] == required[..i];
      if required[i] !in present {
        errors := errors + [MissingParam(required[i])];
      }
      i := i + 1;
    }
    assert required[..i] == required;
  }

  /** The second loop of `_validate_contract`: the name of each parameter outside `allowed`. */
  method CollectUnexpectedParams(params: Params, allowed: seq<string>) returns (warnings: seq<string>)
    ensures warnings == UnexpectedParams(params, allowed)
  {
    warnings := [];
    var j := 0;
    while j < |params|
      invariant 0 <= j <= |params|
      invariant warnings == UnexpectedParams(params[..j], allowed)
    {
      assert params[..j + 1][..j] == params[..j];
      if params[j].0 !in allowed {
        warnings := warnings + [params[j].0];
      }
      j := j + 1;
    }
    assert params[..j] == params;
  }

  /** One error per schema field missing from the response or holding the wrong type, in schema order. */
  function FieldErrors(fields: seq<(string, PyType)>, response: map<string, PyValue>): (errs: seq<ContractError>)
    ensures |errs| <= |fields|
    ensures errs == [] <==> forall k :: 0 <= k < |fields| ==>
                              fields[k].0 in response && IsInstance(response[fields[k].0], fields[k].1)
  {
    if fields == [] then []
    else
      var init := fields[..|fields| - 1];
      var (name, expected) := fields[|fields| - 1];
      var before := FieldErrors(init, response);
      assert forall k :: 0 <= k < |init| ==> init[k] == fields[k];
      var here := if name !in response then [MissingField(name)]
                  else if !IsInstance(response[name], expected) then [WrongType(name, expected, response[name])]
                  else [];
      before + here
  }

  /** A response conforms to a known method's return schema. */
  predicate Conforms(service: string, op: string, response: map<string, PyValue>)
    requires service in Schemas && op in Schemas[service]
  {
    FieldErrors(Schemas[service][op].returnSchema, response) == []
  }

  /** `validate_response_schema`: every declared field present with its type; never any warning. */
  method ValidateResponseSchema(service: string, op: string, response: map<string, PyValue>)
    returns (r: ValidationResult)
    ensures r.warnings == []
    ensures !(service in Schemas && op in Schemas[service]) ==>
              r == ValidationResult(false, [CannotValidate(service, op)], [])
    ensures service in Schemas && op in Schemas[service] ==>
              r.errors == FieldErrors(Schemas[service][op].returnSchema, response)
              && (r.valid <==> Conforms(service, op, response))
  {
    if service !in Schemas || op !in Schemas[service] {
      return ValidationResult(false, [CannotValidate(service, op)], []);
    }
    var fields := Schemas[service][op].returnSchema;
    var errors: seq<ContractError> := [];
    var i := 0;
    while i < |fields|
      invariant 0 <= i <= |fields|
      invariant errors == FieldErrors(fields[..i], response)
    {
      assert fields[..i + 1][..i] == fields[..i];
      var (name, expected) := fields[i];
      if name !in response {
        errors := errors + [MissingField(name)];
      } else if !IsInstance(response[name], expected) {
        errors := errors + [WrongType(name, expected, response[name])];
      }
      i := i + 1;
    }
    assert fields[..i] == fields;
    return ValidationResult(|errors| == 0, errors, []);
  }

  /** `validate_integration_call`: dispatch on the service name; any other name is unknown. */
  function ValidateIntegrationCall(service: string, op: string, params: Params): (r: ValidationResult)
    ensures service !in {"orchestrator", "build_registry", "qa_logs"} ==>
              r == ValidationResult(false, [UnknownService(service)], [])
    ensures r == ContractResult(service, op, params)
  {
    if service == "orchestrator" then ContractResult("orchestrator", op, params)
    else if service == "build_registry" then ContractResult("build_registry", op, params)
    else if service == "qa_logs" then ContractResult("qa_logs", op, params)
    else ValidationResult(false, [UnknownService(service)], [])
  }

  datatype ContractViolation = ValueError(errors: seq<ContractError>)

  type Response = map<string, PyValue>

  /** Keyword names `deploy_app` binds itself; `**kwargs` cannot repeat them. */
  predicate FreshKeywords(extra: Params) {
    forall k :: 0 <= k < |extra| ==> extra[k].0 !in {"app_name", "env", "build_path"}
  }

  /** The mock's shape: raise on an invalid contract, otherwise answer. */
  function Guarded(validation: ValidationResult, response: Response): (r: Result<Response, ContractViolation>)
    ensures r.Failure? <==> !validation.valid
    ensures r.Success? ==> r.value == response
  {
    if !validation.valid then Failure(ValueError(validation.errors)) else Success(response)
  }

  /** `MockOrchestratorAPI.deploy_app`. */
  function MockDeployApp(app: string, env: string, buildPath: string, extra: Params): (r: Result<Response, ContractViolation>)
    requires FreshKeywords(extra)
    ensures r.Success?
    ensures r.value == map["status" := PStr("deployed"), "deployment_id" := PStr("dep_" + app + "_" + env)]
    ensures Conforms("orchestrator", "deploy_app", r.value)
  {
    var params := [("app_name", PStr(app)), ("env", PStr(env)), ("build_path", PStr(buildPath))] + extra;
    assert params[0].0 == "app_name" && params[1].0 == "env" && params[2].0 == "build_path";
    Guarded(ContractResult("orchestrator", "deploy_app", params),
            map["status" := PStr("deployed"), "deployment_id" := PStr("dep_" + app + "_" + env)])
  }

  /** `MockOrchestratorAPI.stop_app`. */
  function MockStopApp(app: string, env: string): (r: Result<Response, ContractViolation>)
    ensures r.Success?
    ensures r.value == map["status" := PStr("stopped"), "stopped_at" := PStr("2024-01-01T12:00:00Z")]
    ensures Conforms("orchestrator", "stop_app", r.value)
  {
    var params := [("app_name", PStr(app)), ("env", PStr(env))];
    assert params[0].0 == "app_name" && params[1].0 == "env";
    Guarded(ContractResult("orchestrator", "stop_app", params),
            map["status" := PStr("stopped"), "stopped_at" := PStr("2024-01-01T12:00:00Z")])
  }

  /** `MockOrchestratorAPI.scale`. */
  function MockScale(app: string, env: string, workers: int): (r: Result<Response, ContractViolation>)
    ensures r.Success?
    ensures r.value == map["status" := PStr("scaled"), "current_workers" := PInt(workers)]
    ensures Conforms("orchestrator", "scale", r.value)
  {
    var params := [("app_name", PStr(app)), ("env", PStr(env)), ("workers", PInt(workers))];
    assert params[0].0 == "app_name" && params[1].0 == "env" && params[2].0 == "workers";
    Guarded(ContractResult("orchestrator", "scale", params),
            map["status" := PStr("scaled"), "current_workers" := PInt(workers)])
  }

  /** `MockBuildRegistryAPI.get_latest_build` (the branch defaults to `main` at the call site). */
  function MockGetLatestBuild(app: string, branch: string): (r: Result<Response, ContractViolation>)
    ensures r.Success?
    ensures r.value == map["build_path" := PStr("/builds/" + app + "/latest.tar.gz"),
                           "build_id" := PStr("build_" + app + "_123"),
                           "timestamp" := PStr("2024-01-01T12:00:00Z")]
    ensures Conforms("build_registry", "get_latest_build", r.value)
  {
    var params := [("app_name", PStr(app)), ("branch", PStr(branch))];
    assert params[0].0 == "app_name" && params[1].0 == "branch";
    assert "app_name" in ParamNames(params) && "branch" in ParamNames(params);
    Guarded(ContractResult("build_registry", "get_latest_build", params),
            map["build_path" := PStr("/builds/" + app + "/latest.tar.gz"),
                "build_id" := PStr("build_" + app + "_123"),
                "timestamp" := PStr("2024-01-01T12:00:00Z")])
  }

  /**
   * A deploy parameter set without `build_path` fails the contract check, so the guard
   * raises. (Calling the Python mock itself without `build_path` already fails at
   * argument binding, before the check runs.)
   */
  lemma MissingBuildPathRejected(app: string, env: string)
    ensures Guarded(ContractResult("orchestrator", "deploy_app", [("app_name", PStr(app)), ("env", PStr(env))]), map[]).Failure?
  {
    var params := [("app_name", PStr(app)), ("env", PStr(env))];
    assert "build_path" !in ParamNames(params);
    assert Schemas["orchestrator"]["deploy_app"].required[2] == "build_path";
  }

  /** The missing-parameter half of the dispatcher's `scale` call: only `workers` is absent. */
  lemma ScaleShapeErrors(app: string, env: string, direction: string)
    ensures MissingParamErrors(Schemas["orchestrator"]["scale"].required,
                               ParamNames([("app_name", PStr(app)), ("env", PStr(env)), ("direction", PStr(direction))]))
            == [MissingParam("workers")]
  {
    var scale := [("app_name", PStr(app)), ("env", PStr(env)), ("direction", PStr(direction))];
    assert scale[0].0 == "app_name" && scale[1].0 == "env" && scale[2].0 == "direction";
    var present := ParamNames(scale);
    assert "app_name" in present && "env" in present && "workers" !in present;
    var required := Schemas["orchestrator"]["scale"].required;
    assert required == ["app_name", "env", "workers"];
    assert required[..2] == ["app_name", "env"];
    assert MissingParamErrors(required[..2], present) == [];
  }

  /** The unexpected-parameter half of the dispatcher's `scale` call: only `direction` is extra. */
  lemma ScaleShapeWarnings(app: string, env: string, direction: string)
    ensures UnexpectedParams([("app_name", PStr(app)), ("env", PStr(env)), ("direction", PStr(direction))],
                             Schemas["orchestrator"]["scale"].required + Schemas["orchestrator"]["scale"].optional)
            == ["direction"]
  {
    var deploy := [("app_name", PStr(app)), ("env", PStr(env))];
    var scale := [("app_name", PStr(app)), ("env", PStr(env)), ("direction", PStr(direction))];
    var allowed := Schemas["orchestrator"]["scale"].required + Schemas["orchestrator"]["scale"].optional;
    assert allowed == ["app_name", "env", "workers"];
    assert scale[..2] == deploy;
    assert UnexpectedParams(deploy, allowed) == [] by {
      assert deploy[..1] == [("app_name", PStr(app))];
      assert UnexpectedParams(deploy[..1], allowed) == [] by { assert deploy[..1][..0] == []; }
    }
  }

  /**
   * The call shapes the controller's dispatcher uses, `deploy_app(app, env)` and
   * `scale(app, env, direction=...)`, break the orchestrator contract: the first lacks
   * `build_path`, the second lacks `workers` and carries an unexpected `direction`.
   */
  lemma DispatcherCallShapesRejected(app: string, env: string, direction: string)
    ensures !ContractResult("orchestrator", "deploy_app", [("app_name", PStr(app)), ("env", PStr(env))]).valid
    ensures var r := ContractResult("orchestrator", "scale", [("app_name", PStr(app)), ("env", PStr(env)), ("direction", PStr(direction))]);
            !r.valid && r.errors == [MissingParam("workers")] && r.warnings == ["direction"]
  {
    var deploy := [("app_name", PStr(app)), ("env", PStr(env))];
    assert "build_path" !in ParamNames(deploy);
    assert Schemas["orchestrator"]["deploy_app"].required[2] == "build_path";
    ScaleShapeErrors(app, env, direction);
    ScaleShapeWarnings(app, env, direction);
  }
}
