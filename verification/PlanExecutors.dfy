/**
 The three plan executors and the policy gate they share: IncidentWorkflow
 (internal/controlplane/temporal/workflow.go), IncidentWorkflowIterative (workflow_agentic.go),
 Orchestrator.Run (internal/controlplane/orchestrator/orchestrator.go) and Activities.CallTool (activies.go).

 Agents, the tool server, approvals and elapsed time are arbitrary inputs (`Env`). An activity counts
 as one call; a receive on an exhausted approval stream is the ending `AwaitingApproval`.
 */
module PlanExecutors {
  import opened Wrappers
  import opened GoStrings
  import opened PlanContracts

  /**
   `getPlan(n)` is the plan of iteration `n` (0 where there is one plan only), `server(n, i)` the tool
   server's answer to its step `i`, `catalog` the tool catalog's verdict, `elapsed(i)` the nanoseconds
   since the start when step `i` is reached.
   */
  datatype Env = Env(
    policy: Result<PolicyDecision, string>,
    getPlan: nat -> Result<Plan, string>,
    catalog: PlanStep -> Option<string>,
    server: (nat, nat) -> Result<ToolOutput, string>,
    approvals: seq<bool>,
    elapsed: nat -> int)

  datatype Value =
    | PolicyValue(policy: PolicyDecision) | PlanValue(plan: Plan)
    | Approved | Text(text: string) | Output(output: ToolOutput)

  /**
   What happens for step `i` of iteration `n`: the approval at position `at` of the stream is received for
   it, the CallTool activity starts, the request gets past its gate to the tool server.
   */
  datatype Event =
    | ApprovalTaken(at: nat, n: nat, i: nat)
    | CallStarted(n: nat, i: nat)
    | ServerCalled(n: nat, i: nat)

  /**
   `ContinuedAsNew` is where IncidentWorkflow overruns its budget: Temporal starts it over for the same task,
   with a fresh count of calls and a fresh policy and plan. A `Run` is one such round.
   */
  datatype Ending =
    | Running
    | PolicyFailed(err: string) | PlanFailed(err: string) | Denied
    | ContinuedAsNew(i: nat) | BudgetExceeded(i: nat) | TimeExceeded(i: nat)
    | AwaitingApproval(i: nat) | Rejected(i: nat)
    | NeedsApproval(i: nat) | TagsBlocked(i: nat) | ScopeMissing(i: nat, scope: string)
    | StepFailed(i: nat, err: string)
    | Completed | CompletedWithRetries

  /** A run so far; `pos` counts the approvals received, `clean` is false once a step of the pass failed. */
  datatype Run = Run(
    allowWrites: bool, pos: nat, toolCalls: nat, clean: bool,
    events: seq<Event>, evidence: map<string, Value>, ending: Ending)

  // ---------- the policy gate ----------

  predicate Restricted(tag: string) {
    tag == "read" || tag == "write"
  }

  /** The first read/write tag from index `i` on that the policy does not list. */
  function BadTag(tags: seq<string>, allow: seq<string>, i: nat): Option<string>
    requires i <= |tags|
    decreases |tags| - i
  {
    if i == |tags| then None
    else if Restricted(tags[i]) && tags[i] !in allow then Some(tags[i])
    else BadTag(tags, allow, i + 1)
  }

  function MissingScope(scopes: seq<string>, granted: seq<string>, i: nat): Option<string>
    requires i <= |scopes|
    decreases |scopes| - i
  {
    if i == |scopes| then None
    else if scopes[i] !in granted then Some(scopes[i])
    else MissingScope(scopes, granted, i + 1)
  }

  function GateError(step: PlanStep, policy: PolicyDecision, catalog: PlanStep -> Option<string>): Option<string> {
    if catalog(step).Some? then catalog(step)
    else if "write" in step.tags && !policy.allowWrites then Some("write operation blocked by policy")
    else
      match BadTag(step.tags, policy.toolTagAllow, 0)
      case Some(tag) => Some("tag '" + tag + "' not allowed by policy")
      case None =>
        match MissingScope(step.scopes, policy.scopes, 0)
        case Some(scope) => Some("missing required scope: " + scope)
        case None => None
  }

  /** The part of the gate that no approval changes. */
  ghost predicate Permitted(step: PlanStep, policy: PolicyDecision, catalog: PlanStep -> Option<string>) {
    && catalog(step) == None
    && (forall t :: t in step.tags && t in {"read", "write"} ==> t in policy.toolTagAllow)
    && (forall s :: s in step.scopes ==> s in policy.scopes)
  }

  lemma {:induction false} BadTagIff(tags: seq<string>, allow: seq<string>, i: nat)
    requires i <= |tags|
    ensures BadTag(tags, allow, i) == None <==> forall k :: i <= k < |tags| && Restricted(tags[k]) ==> tags[k] in allow
    decreases |tags| - i
  {
    if i < |tags| { BadTagIff(tags, allow, i + 1); }
  }

  lemma {:induction false} MissingScopeIff(scopes: seq<string>, granted: seq<string>, i: nat)
    requires i <= |scopes|
    ensures MissingScope(scopes, granted, i) == None <==> forall k :: i <= k < |scopes| ==> scopes[k] in granted
    decreases |scopes| - i
  {
    if i < |scopes| { MissingScopeIff(scopes, granted, i + 1); }
  }

  /** A call reaches the tool server exactly when it is permitted and writes, if any, are allowed. */
  lemma GateIsExact(step: PlanStep, policy: PolicyDecision, catalog: PlanStep -> Option<string>)
    ensures GateError(step, policy, catalog) == None <==>
            Permitted(step, policy, catalog) && ("write" in step.tags ==> policy.allowWrites)
  {
    BadTagIff(step.tags, policy.toolTagAllow, 0);
    MissingScopeIff(step.scopes, policy.scopes, 0);
  }

  method CallTool(step: PlanStep, policy: PolicyDecision, catalog: PlanStep -> Option<string>,
                  answer: Result<ToolOutput, string>)
    returns (r: Result<ToolOutput, string>, reached: bool)
    ensures reached <==> GateError(step, policy, catalog) == None
    ensures r == CallResult(step, policy, catalog, answer)
  {
    reached := false;
    if catalog(step).Some? { return Failure(catalog(step).value), false; }
    if "write" in step.tags && !policy.allowWrites {
      return Failure("write operation blocked by policy"), false;
    }
    for k := 0 to |step.tags|
      invariant BadTag(step.tags, policy.toolTagAllow, k) == BadTag(step.tags, policy.toolTagAllow, 0)
    {
      var tag := step.tags[k];
      if tag == "read" || tag == "write" {
        if tag !in policy.toolTagAllow { return Failure("tag '" + tag + "' not allowed by policy"), false; }
      }
    }
    for k := 0 to |step.scopes|
      invariant MissingScope(step.scopes, policy.scopes, k) == MissingScope(step.scopes, policy.scopes, 0)
    {
      if step.scopes[k] !in policy.scopes {
        return Failure("missing required scope: " + step.scopes[k]), false;
      }
    }
    reached := true;
    match answer {
      case Failure(err) => r := Failure("tool call failed: " + err);
      case Success(out) => r := Success(out);
    }
  }

  function CallResult(step: PlanStep, policy: PolicyDecision, catalog: PlanStep -> Option<string>,
                      answer: Result<ToolOutput, string>): Result<ToolOutput, string> {
    match GateError(step, policy, catalog)
    case Some(err) => Failure(err)
    case None => match answer case Success(out) => Success(out) case Failure(err) => Failure("tool call failed: " + err)
  }

  // ---------- one step of the two workflows ----------

  /** The executors differ in the budget they enforce and in how they name evidence. */
  datatype Mode = Single | Iterative

  function OutKey(mode: Mode, step: PlanStep, n: nat): string {
    if mode.Single? then "step_out_" + step.stepId else "step_result_" + step.stepId + "_iter_" + Decimal(n)
  }

  function ErrorKey(mode: Mode, step: PlanStep, n: nat): string {
    if mode.Single? then "step_error_" + step.stepId else "step_error_" + step.stepId + "_iter_" + Decimal(n)
  }

  function OverBudget(mode: Mode, pd: PolicyDecision, toolCalls: nat): bool {
    mode.Single? && pd.maxToolCalls > 0 && toolCalls > pd.maxToolCalls
  }

  /** The call and what its outcome records. */
  function Call(env: Env, mode: Mode, pd: PolicyDecision, step: PlanStep, n: nat, i: nat, r: Run): Run {
    var policy := pd.(allowWrites := r.allowWrites);
    var events := r.events + [CallStarted(n, i)]
                  + if GateError(step, policy, env.catalog) == None then [ServerCalled(n, i)] else [];
    match CallResult(step, policy, env.catalog, env.server(n, i))
    case Success(out) => r.(events := events, evidence := r.evidence[OutKey(mode, step, n) := Output(out)])
    case Failure(err) =>
      if step.stopOnErr then r.(events := events, ending := StepFailed(i, err))
      else r.(events := events, evidence := r.evidence[ErrorKey(mode, step, n) := Text(err)], clean := false)
  }

  function DoStep(env: Env, mode: Mode, pd: PolicyDecision, plan: Plan, n: nat, r: Run, i: nat): Run
    requires i < |plan.steps|
  {
    var step, r1 := plan.steps[i], r.(toolCalls := r.toolCalls + 1);
    if OverBudget(mode, pd, r1.toolCalls) then r1.(ending := ContinuedAsNew(i))
    else if "write" in step.tags && !r.allowWrites then
      if r.pos >= |env.approvals| then r1.(ending := AwaitingApproval(i))
      else
        var r2 := r1.(pos := r.pos + 1, events := r.events + [ApprovalTaken(r.pos, n, i)]);
        if !env.approvals[r.pos] then r2.(ending := Rejected(i))
        else
          var noted := if mode.Single? then r2.evidence["approval" := Approved] else r2.evidence;
          Call(env, mode, pd, step, n, i, r2.(allowWrites := true, evidence := noted))
    else Call(env, mode, pd, step, n, i, r1)
  }

  function Steps(env: Env, mode: Mode, pd: PolicyDecision, plan: Plan, n: nat, r: Run, k: nat): Run
    requires k <= |plan.steps|
  {
    if k == 0 then r
    else
      var before := Steps(env, mode, pd, plan, n, r, k - 1);
      if before.ending == Running then DoStep(env, mode, pd, plan, n, before, k - 1) else before
  }

  lemma EndedStepsStay(env: Env, mode: Mode, pd: PolicyDecision, plan: Plan, n: nat, r: Run, j: nat, k: nat)
    requires j <= k <= |plan.steps| && Steps(env, mode, pd, plan, n, r, j).ending != Running
    ensures Steps(env, mode, pd, plan, n, r, k) == Steps(env, mode, pd, plan, n, r, j)
  {
  }

  /** The CallTool activity and the evidence its outcome leaves. */
  method MakeCall(env: Env, mode: Mode, pd: PolicyDecision, step: PlanStep, n: nat, i: nat, start: Run) returns (r: Run)
    ensures r == Call(env, mode, pd, step, n, i, start)
  {
    hide GateError, CallResult, OutKey, ErrorKey;
    var out, reached := CallTool(step, pd.(allowWrites := start.allowWrites), env.catalog, env.server(n, i));
    r := start.(events := start.events + [CallStarted(n, i)] + if reached then [ServerCalled(n, i)] else []);
    match out {
      case Failure(err) =>
        if step.stopOnErr { return r.(ending := StepFailed(i, err)); }
        r := r.(evidence := r.evidence[ErrorKey(mode, step, n) := Text(err)], clean := false);
      case Success(o) =>
        r := r.(evidence := r.evidence[OutKey(mode, step, n) := Output(o)]);
    }
  }

  method RunStep(env: Env, mode: Mode, pd: PolicyDecision, plan: Plan, n: nat, start: Run, i: nat) returns (r: Run)
    requires i < |plan.steps| && start.ending == Running
    ensures r == DoStep(env, mode, pd, plan, n, start, i)
  {
    hide Call;
    var step := plan.steps[i];
    r := start.(toolCalls := start.toolCalls + 1);
    if mode.Single? && pd.maxToolCalls > 0 && r.toolCalls > pd.maxToolCalls {
      return r.(ending := ContinuedAsNew(i));
    }
    if "write" in step.tags && !r.allowWrites {
      if r.pos >= |env.approvals| { return r.(ending := AwaitingApproval(i)); }
      var approved := env.approvals[r.pos];
      r := r.(events := r.events + [ApprovalTaken(r.pos, n, i)], pos := r.pos + 1);
      if !approved { return r.(ending := Rejected(i)); }
      r := r.(allowWrites := true);
      if mode.Single? {
        r := r.(evidence := r.evidence["approval" := Approved]);
      }
    }
    r := MakeCall(env, mode, pd, step, n, i, r);
  }

  method RunSteps(env: Env, mode: Mode, pd: PolicyDecision, plan: Plan, n: nat, start: Run) returns (r: Run)
    requires start.ending == Running
    ensures r == Steps(env, mode, pd, plan, n, start, |plan.steps|)
  {
    hide DoStep;
    r := start;
    for i := 0 to |plan.steps|
      invariant r == Steps(env, mode, pd, plan, n, start, i) && r.ending == Running
    {
      r := RunStep(env, mode, pd, plan, n, r, i);
      if r.ending != Running {
        EndedStepsStay(env, mode, pd, plan, n, start, i + 1, |plan.steps|);
        return;
      }
    }
  }

  // ---------- IncidentWorkflow ----------

  const NOTHING := Run(false, 0, 0, true, [], map[], Running)

  function IncidentRun(env: Env): Run {
    match env.policy
    case Failure(err) => NOTHING.(ending := PolicyFailed(err))
    case Success(pd) =>
      var judged := NOTHING.(allowWrites := pd.allowWrites, evidence := map["policy" := PolicyValue(pd)]);
      if !pd.allowed then judged.(ending := Denied)
      else
        match env.getPlan(0)
        case Failure(err) => judged.(ending := PlanFailed(err))
        case Success(plan) =>
          var r := Steps(env, Single, pd, plan, 0,
                         judged.(evidence := judged.evidence["plan" := PlanValue(plan)]), |plan.steps|);
          if r.ending == Running then r.(ending := Completed) else r
  }

  method IncidentWorkflow(env: Env) returns (r: Run)
    ensures r == IncidentRun(env)
  {
    hide Steps;
    r := NOTHING;
    match env.policy {
      case Failure(err) => return r.(ending := PolicyFailed(err));
      case Success(pd) =>
        r := r.(allowWrites := pd.allowWrites, evidence := map["policy" := PolicyValue(pd)]);
        if !pd.allowed { return r.(ending := Denied); }
        match env.getPlan(0) {
          case Failure(err) => return r.(ending := PlanFailed(err));
          case Success(plan) =>
            r := r.(evidence := r.evidence["plan" := PlanValue(plan)]);
            r := RunSteps(env, Single, pd, plan, 0, r);
            if r.ending == Running { r := r.(ending := Completed); }
        }
    }
  }

  // ---------- IncidentWorkflowIterative ----------

  const MAX_ITERATIONS := 3

  /** The run after `n` iterations; the approval, once given, carries over to later ones. */
  function Iterations(env: Env, pd: PolicyDecision, n: nat): Run {
    if n == 0 then NOTHING.(allowWrites := pd.allowWrites, evidence := map["policy" := PolicyValue(pd)])
    else
      var before := Iterations(env, pd, n - 1);
      if before.ending != Running then before
      else
        match env.getPlan(n)
        case Failure(err) => before.(ending := PlanFailed(err))
        case Success(plan) =>
          var r := Steps(env, Iterative, pd, plan, n, before.(clean := true), |plan.steps|);
          if r.ending == Running && r.clean then r.(ending := Completed) else r
  }

  function IterativeRun(env: Env): Run {
    match env.policy
    case Failure(err) => NOTHING.(ending := PolicyFailed(err))
    case Success(pd) =>
      if !pd.allowed then NOTHING.(ending := Denied)
      else
        var r := Iterations(env, pd, MAX_ITERATIONS);
        if r.ending == Running then r.(ending := CompletedWithRetries) else r
  }

  method IncidentWorkflowIterative(env: Env) returns (r: Run)
    ensures r == IterativeRun(env)
  {
    hide Steps;
    r := NOTHING;
    match env.policy {
      case Failure(err) => return r.(ending := PolicyFailed(err));
      case Success(pd) =>
        if !pd.allowed { return r.(ending := Denied); }
        r := r.(allowWrites := pd.allowWrites, evidence := map["policy" := PolicyValue(pd)]);
        var n := 1;
        while n <= MAX_ITERATIONS
          invariant 1 <= n <= MAX_ITERATIONS + 1
          invariant r == Iterations(env, pd, n - 1) && r.ending == Running
        {
          match env.getPlan(n) {
            case Failure(err) =>
              EndedIterationsStay(env, pd, n, MAX_ITERATIONS);
              return r.(ending := PlanFailed(err));
            case Success(plan) =>
              r := RunSteps(env, Iterative, pd, plan, n, r.(clean := true));
              if r.ending == Running && r.clean { r := r.(ending := Completed); }
              if r.ending != Running {
                EndedIterationsStay(env, pd, n, MAX_ITERATIONS);
                return;
              }
          }
          n := n + 1;
        }
        r := r.(ending := CompletedWithRetries);
    }
  }

  lemma EndedIterationsStay(env: Env, pd: PolicyDecision, m: nat, n: nat)
    requires m <= n && Iterations(env, pd, m).ending != Running
    ensures Iterations(env, pd, n) == Iterations(env, pd, m)
  {
  }

  // ---------- Orchestrator.Run ----------

  function OrchestratorStep(env: Env, pd: PolicyDecision, plan: Plan, r: Run, i: nat): Run
    requires i < |plan.steps|
  {
    var step, r1 := plan.steps[i], r.(toolCalls := r.toolCalls + 1);
    if r1.toolCalls > pd.maxToolCalls then r1.(ending := BudgetExceeded(i))
    else if env.elapsed(i) > pd.maxSeconds * 1_000_000_000 then r1.(ending := TimeExceeded(i))
    else if "write" in step.tags && !pd.allowWrites then r1.(ending := NeedsApproval(i))
    else if BadTag(step.tags, pd.toolTagAllow, 0).Some? then r1.(ending := TagsBlocked(i))
    else
      match MissingScope(step.scopes, pd.scopes, 0)
      case Some(scope) => r1.(ending := ScopeMissing(i, scope))
      case None =>
        var events := r.events + [ServerCalled(0, i)];
        match env.server(0, i)
        case Success(out) => r1.(events := events, evidence := r.evidence[OutKey(Single, step, 0) := Output(out)])
        case Failure(err) =>
          if step.stopOnErr then r1.(events := events, ending := StepFailed(i, err))
          else r1.(events := events, evidence := r.evidence[ErrorKey(Single, step, 0) := Text(err)], clean := false)
  }

  function OrchestratorSteps(env: Env, pd: PolicyDecision, plan: Plan, r: Run, k: nat): Run
    requires k <= |plan.steps|
  {
    if k == 0 then r
    else
      var before := OrchestratorSteps(env, pd, plan, r, k - 1);
      if before.ending == Running then OrchestratorStep(env, pd, plan, before, k - 1) else before
  }

  lemma EndedOrchestratorStays(env: Env, pd: PolicyDecision, plan: Plan, r: Run, j: nat, k: nat)
    requires j <= k <= |plan.steps| && OrchestratorSteps(env, pd, plan, r, j).ending != Running
    ensures OrchestratorSteps(env, pd, plan, r, k) == OrchestratorSteps(env, pd, plan, r, j)
  {
  }

  function OrchestratorRun(env: Env): Run {
    match env.policy
    case Failure(err) => NOTHING.(ending := PolicyFailed(err))
    case Success(pd) =>
      var judged := NOTHING.(allowWrites := pd.allowWrites, evidence := map["policy" := PolicyValue(pd)]);
      if !pd.allowed then judged.(ending := Denied)
      else
        match env.getPlan(0)
        case Failure(err) => judged.(ending := PlanFailed(err))
        case Success(plan) =>
          var r := OrchestratorSteps(env, pd, plan, judged, |plan.steps|);
          if r.ending == Running then r.(ending := Completed) else r
  }

  predicate TagsAllowed(allow: seq<string>, tags: seq<string>) {
    forall t :: t in tags && Restricted(t) ==> t in allow
  }

  method OrchestratorDoStep(env: Env, pd: PolicyDecision, plan: Plan, start: Run, i: nat) returns (r: Run)
    requires i < |plan.steps| && start.ending == Running
    ensures r == OrchestratorStep(env, pd, plan, start, i)
  {
    hide OutKey, ErrorKey;
    var step := plan.steps[i];
    r := start.(toolCalls := start.toolCalls + 1);
    if r.toolCalls > pd.maxToolCalls { return r.(ending := BudgetExceeded(i)); }
    if env.elapsed(i) > pd.maxSeconds * 1_000_000_000 { return r.(ending := TimeExceeded(i)); }
    if "write" in step.tags && !pd.allowWrites { return r.(ending := NeedsApproval(i)); }
    BadTagIff(step.tags, pd.toolTagAllow, 0);
    if !TagsAllowed(pd.toolTagAllow, step.tags) { return r.(ending := TagsBlocked(i)); }
    for k := 0 to |step.scopes|
      invariant MissingScope(step.scopes, pd.scopes, k) == MissingScope(step.scopes, pd.scopes, 0)
    {
      if step.scopes[k] !in pd.scopes { return r.(ending := ScopeMissing(i, step.scopes[k])); }
    }
    r := r.(events := r.events + [ServerCalled(0, i)]);
    match env.server(0, i) {
      case Failure(err) =>
        if step.stopOnErr { return r.(ending := StepFailed(i, err)); }
        r := r.(evidence := r.evidence[ErrorKey(Single, step, 0) := Text(err)], clean := false);
      case Success(out) =>
        r := r.(evidence := r.evidence[OutKey(Single, step, 0) := Output(out)]);
    }
  }

  method Orchestrate(env: Env) returns (r: Run)
    ensures r == OrchestratorRun(env)
  {
    hide OrchestratorStep;
    r := NOTHING;
    match env.policy {
      case Failure(err) => return r.(ending := PolicyFailed(err));
      case Success(pd) =>
        r := r.(allowWrites := pd.allowWrites, evidence := map["policy" := PolicyValue(pd)]);
        if !pd.allowed { return r.(ending := Denied); }
        match env.getPlan(0) {
          case Failure(err) => return r.(ending := PlanFailed(err));
          case Success(plan) =>
            ghost var judged := r;
            for i := 0 to |plan.steps|
              invariant r == OrchestratorSteps(env, pd, plan, judged, i) && r.ending == Running
            {
              r := OrchestratorDoStep(env, pd, plan, r, i);
              if r.ending != Running {
                EndedOrchestratorStays(env, pd, plan, judged, i + 1, |plan.steps|);
                return;
              }
            }
            r := r.(ending := Completed);
        }
    }
  }
}
