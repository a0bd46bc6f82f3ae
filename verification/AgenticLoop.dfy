/**
 AgenticLoop (internal/controlplane/temporal/agentic_loop.go): execute a plan, merge the results into
 the evidence, refine the plan, ask for feedback, and repeat up to a maximum number of iterations.

 Agents, tools and signals are arbitrary inputs (`Env`). A receive on an exhausted feedback stream is
 the ending `Blocked`.
 */
module Agentic {
  import opened Wrappers
  import opened GoStrings
  import opened PlanContracts

  datatype Config = Config(maxIterations: int, enableFeedback: bool, autoRefine: bool)

  datatype FeedbackEntry = FeedbackEntry(iteration: int, stepId: string, feedback: string, action: string)

  datatype RefinementEntry = RefinementEntry(iteration: nat, reason: string, original: Plan, refined: Plan)

  /** Evidence values of Go type `any`. */
  datatype Value =
    | PlanValue(plan: Plan) | Flag(flag: bool) | Text(text: string)
    | Waiting(prompt: string) | Output(output: ToolOutput)

  type Evidence = map<string, Value>

  /**
   What the outside world answers: the k-th call of GetPlan, the tool call for step `i` of iteration `n`,
   the stop and refine signals delivered while iteration `n` polls for them, and the feedback stream.
   */
  datatype Env = Env(
    getPlan: nat -> Result<Plan, string>,
    callTool: (nat, nat) -> Result<ToolOutput, string>,
    stopSignals: nat -> seq<bool>,
    refineSignals: nat -> seq<bool>,
    feedback: seq<FeedbackEntry>)

  datatype Ending =
    | PlanError(err: string)
    | Failed(err: string)
    | GoalAchieved
    | MaxIterationsReached
    | Blocked

  /** A call of GetPlan for a new plan: in which iteration, and why. */
  datatype Request = Request(iteration: nat, reason: string)

  const USER_ASKED := "User requested refinement"
  const EVIDENCE_ASKED := "Auto-refinement based on evidence"

  /** `merged[n]` keeps the result map iteration `n` merged into the evidence; `requests` are the calls of GetPlan. */
  datatype State = State(
    iteration: nat, plan: Plan, evidence: Evidence, feedback: seq<FeedbackEntry>,
    refinements: seq<RefinementEntry>, lastError: string, requests: seq<Request>,
    merged: map<nat, Evidence>)

  // ---------- one pass over the plan ----------

  /** The result map after the first `j` steps, or the error that stopped them. */
  function ExecuteSteps(env: Env, n: nat, plan: Plan, policy: PolicyDecision, j: nat): Result<Evidence, string>
    requires j <= |plan.steps|
  {
    if j == 0 then Success(map[])
    else
      match ExecuteSteps(env, n, plan, policy, j - 1)
      case Failure(err) => Failure(err)
      case Success(results) =>
        var step := plan.steps[j - 1];
        if "write" in step.tags && !policy.allowWrites then Failure("write operation requires approval")
        else
          match env.callTool(n, j - 1)
          case Success(out) => Success(results["step_result_" + step.stepId := Output(out)])
          case Failure(err) =>
            if step.stopOnErr then Failure(err) else Success(results["step_error_" + step.stepId := Text(err)])
  }

  function Execute(env: Env, n: nat, plan: Plan, policy: PolicyDecision): Result<Evidence, string> {
    ExecuteSteps(env, n, plan, policy, |plan.steps|)
  }

  method ExecutePlanIteration(env: Env, n: nat, plan: Plan, policy: PolicyDecision)
    returns (r: Result<Evidence, string>)
    ensures r == Execute(env, n, plan, policy)
  {
    var results: Evidence := map[];
    for i := 0 to |plan.steps|
      invariant ExecuteSteps(env, n, plan, policy, i) == Success(results)
    {
      var step := plan.steps[i];
      if Has(step.tags, "write") && !policy.allowWrites {
        r := Failure("write operation requires approval");
        FailureStays(env, n, plan, policy, i + 1, |plan.steps|);
        return;
      }
      match env.callTool(n, i) {
        case Failure(err) =>
          if step.stopOnErr {
            FailureStays(env, n, plan, policy, i + 1, |plan.steps|);
            return Failure(err);
          }
          results := results["step_error_" + step.stepId := Text(err)];
        case Success(out) =>
          results := results["step_result_" + step.stepId := Output(out)];
      }
    }
    return Success(results);
  }

  predicate Has(xs: seq<string>, x: string) {
    x in xs
  }

  lemma FailureStays(env: Env, n: nat, plan: Plan, policy: PolicyDecision, i: nat, j: nat)
    requires i <= j <= |plan.steps| && ExecuteSteps(env, n, plan, policy, i).Failure?
    ensures ExecuteSteps(env, n, plan, policy, j) == ExecuteSteps(env, n, plan, policy, i)
  {
  }

  // ---------- evidence keys ----------

  function IterationKey(n: nat, k: string): string {
    "iteration_" + Decimal(n) + "_" + k
  }

  const FIXED_KEYS := {"initial_plan", "stopped_by_user", "iteration_error", "waiting"}

  /** `fmt.Sprintf("iteration_%d_%s", n, k)` loses nothing. */
  lemma IterationKeyIsInjective(m: nat, j: string, n: nat, k: string)
    requires IterationKey(m, j) == IterationKey(n, k)
    ensures m == n && j == k
  {
    var a, b := Decimal(m) + ['_'] + j, Decimal(n) + ['_'] + k;
    assert IterationKey(m, j) == "iteration_" + a;
    assert IterationKey(n, k) == "iteration_" + b;
    assert IterationKey(m, j)[10..] == a && IterationKey(n, k)[10..] == b;
    SplitIsUnique(Decimal(m), Decimal(n), '_', j, k);
    DecimalIsInjective(m, n);
  }

  /** An iteration key is none of the fixed keys, nor a key the goal check reads. */
  lemma IterationKeyIsNotFixed(n: nat, k: string)
    ensures IterationKey(n, k) !in FIXED_KEYS
    ensures IterationKey(n, k) != "status" && IterationKey(n, k) != "goal_achieved"
  {
    var key := IterationKey(n, k);
    assert key[0] == 'i' && key[1] == 't' && key[10] == Decimal(n)[0];
    assert "initial_plan"[1] == 'n' && "iteration_error"[10] == 'e';
  }

  predicate IsGoalAchieved(evidence: Evidence) {
    || ("status" in evidence && evidence["status"] == Text("completed"))
    || ("goal_achieved" in evidence && evidence["goal_achieved"] == Flag(true))
  }

  predicate ShouldRefinePlan(evidence: Evidence) {
    exists k :: k in evidence && (Contains(k, "error") || Contains(k, "unexpected"))
  }

  method ContainsString(s: string, sub: string) returns (found: bool)
    ensures found == Contains(s, sub)
  {
    var i := 0;
    while i <= |s| - |sub|
      invariant 0 <= i
      invariant forall j :: 0 <= j < i ==> !OccursAt(s, j, sub)
    {
      if s[i..i + |sub|] == sub {
        assert OccursAt(s, i, sub);
        return true;
      }
      i := i + 1;
    }
    return false;
  }

  // ---------- specification of the loop ----------

  function Merge(evidence: Evidence, n: nat, results: Evidence): (merged: Evidence)
    ensures forall key :: key in merged <==>
              key in evidence || exists k :: k in results && key == IterationKey(n, k)
    ensures forall k :: k in results ==> merged[IterationKey(n, k)] == results[k]
    ensures forall key :: key in evidence && (forall k :: k in results ==> key != IterationKey(n, k))
              ==> merged[key] == evidence[key]
  {
    MergeKeysAreDistinct(n, results);
    evidence + Prefixed(n, results)
  }

  lemma MergeKeysAreDistinct(n: nat, results: Evidence)
    ensures forall j, k :: j in results && k in results && IterationKey(n, j) == IterationKey(n, k) ==> j == k
  {
    forall j, k | j in results && k in results && IterationKey(n, j) == IterationKey(n, k) ensures j == k {
      IterationKeyIsInjective(n, j, n, k);
    }
  }

  function Prefixed(n: nat, results: Evidence): Evidence {
    MergeKeysAreDistinct(n, results);
    map k | k in results :: IterationKey(n, k) := results[k]
  }

  function Stopped(env: Env, n: nat, evidence: Evidence): Evidence {
    if true in env.stopSignals(n) then evidence["stopped_by_user" := Flag(true)] else evidence
  }

  /** One call of GetPlan; an accepted answer is logged and becomes the current plan. */
  function Refine(env: Env, s: State, reason: string, needSteps: bool): State {
    var called := s.(requests := s.requests + [Request(s.iteration, reason)]);
    match env.getPlan(|s.requests| + 1)
    case Failure(_) => called
    case Success(plan) =>
      if needSteps && plan.steps == [] then called
      else called.(refinements := s.refinements + [RefinementEntry(s.iteration, reason, s.plan, plan)], plan := plan)
  }

  /** The refine signals delivered during one poll. */
  function UserRefine(env: Env, s: State, signals: seq<bool>): State {
    if signals == [] then s
    else
      var before := UserRefine(env, s, signals[..|signals| - 1]);
      if signals[|signals| - 1] then Refine(env, before, USER_ASKED, false) else before
  }

  /** The part of an iteration from merging the results on. */
  function Conclude(cfg: Config, env: Env, s: State, results: Evidence): (State, Option<Ending>) {
    var n := s.iteration;
    var s1 := s.(evidence := Merge(s.evidence, n, results), merged := s.merged[n := results]);
    if IsGoalAchieved(s1.evidence) then (s1, Some(GoalAchieved))
    else
      var s2 := UserRefine(env, s1, env.refineSignals(n));
      if cfg.autoRefine && n < cfg.maxIterations && ShouldRefinePlan(s2.evidence)
      then (Refine(env, s2, EVIDENCE_ASKED, true), None)
      else (s2, None)
  }

  /** After a failed pass: feedback if enabled, then failure at the last iteration or an empty merge. */
  function AfterError(cfg: Config, env: Env, s: State, err: string): (State, Option<Ending>) {
    if !cfg.enableFeedback then GiveUp(cfg, env, s, err)
    else
      var s1 := s.(evidence := s.evidence["waiting" := Waiting("Iteration failed: " + err)]);
      if |s.feedback| >= |env.feedback| then (s1, Some(Blocked))
      else
        var fb := env.feedback[|s.feedback|];
        var s2 := s1.(feedback := s.feedback + [fb]);
        if fb.action == "stop" then (s2, Some(MaxIterationsReached))
        else if fb.action == "continue" || fb.action == "modify" then (s2, None)
        else GiveUp(cfg, env, s2, err)
  }

  function GiveUp(cfg: Config, env: Env, s: State, err: string): (State, Option<Ending>) {
    if s.iteration >= cfg.maxIterations then (s, Some(Failed(err))) else Conclude(cfg, env, s, map[])
  }

  /** One turn of the loop; `None` means the loop goes on. */
  function Iterate(cfg: Config, env: Env, policy: PolicyDecision, s: State): (State, Option<Ending>) {
    var n := s.iteration + 1;
    var s1 := s.(iteration := n, evidence := Stopped(env, n, s.evidence));
    match Execute(env, n, s.plan, policy)
    case Success(results) => Conclude(cfg, env, s1, results)
    case Failure(err) =>
      var s2 := s1.(lastError := err, evidence := s1.evidence["iteration_error" := Text(err)]);
      if cfg.autoRefine && n < cfg.maxIterations then
        var s3 := Refine(env, s2, "Error recovery: " + err, true);
        if |s3.refinements| > |s2.refinements| then (s3, None) else AfterError(cfg, env, s3, err)
      else AfterError(cfg, env, s2, err)
  }

  function Start(plan: Plan): State {
    State(0, plan, map["initial_plan" := PlanValue(plan)], [], [], "", [], map[])
  }

  lemma ConcludeKeepsIteration(cfg: Config, env: Env, s: State, results: Evidence)
    ensures Conclude(cfg, env, s, results).0.iteration == s.iteration
  {
    hide ShouldRefinePlan, IsGoalAchieved, Merge, UserRefine;
    forall t: State, signals { UserRefineKeepsIteration(env, t, signals); }
  }

  lemma AfterErrorKeepsIteration(cfg: Config, env: Env, s: State, err: string)
    ensures AfterError(cfg, env, s, err).0.iteration == s.iteration
  {
    hide Conclude;
    forall t: State { ConcludeKeepsIteration(cfg, env, t, map[]); }
  }

  lemma TurnAdvances(cfg: Config, env: Env, policy: PolicyDecision, s: State)
    ensures Iterate(cfg, env, policy, s).0.iteration == s.iteration + 1
  {
    hide Conclude, AfterError, Execute, Stopped;
    forall t: State, results { ConcludeKeepsIteration(cfg, env, t, results); }
    forall t: State, err { AfterErrorKeepsIteration(cfg, env, t, err); }
  }

  lemma UserRefineKeepsIteration(env: Env, s: State, signals: seq<bool>)
    ensures UserRefine(env, s, signals).iteration == s.iteration
  {
  }

  /** The rest of a run from a loop head. */
  function LoopFrom(cfg: Config, env: Env, policy: PolicyDecision, s: State): (State, Ending)
    decreases cfg.maxIterations - s.iteration
  {
    if s.iteration >= cfg.maxIterations then (s, MaxIterationsReached)
    else
      TurnAdvances(cfg, env, policy, s);
      var (next, ending) := Iterate(cfg, env, policy, s);
      match ending case Some(e) => (next, e) case None => LoopFrom(cfg, env, policy, next)
  }

  /** A whole run: no state when there is no first plan. */
  function Run(cfg: Config, env: Env, policy: PolicyDecision): (Option<State>, Ending) {
    match env.getPlan(0)
    case Failure(err) => (None, PlanError(err))
    case Success(plan) =>
      var (s, ending) := LoopFrom(cfg, env, policy, Start(plan));
      (Some(s), ending)
  }

  // ---------- the loop ----------

  method CallGetPlan(env: Env, s: State, reason: string, needSteps: bool) returns (r: State, refined: bool)
    ensures r == Refine(env, s, reason, needSteps)
    ensures refined <==> |r.refinements| > |s.refinements|
  {
    r, refined := s.(requests := s.requests + [Request(s.iteration, reason)]), false;
    match env.getPlan(|s.requests| + 1) {
      case Failure(_) =>
      case Success(plan) =>
        if !needSteps || |plan.steps| > 0 {
          r := r.(refinements := r.refinements + [RefinementEntry(s.iteration, reason, s.plan, plan)], plan := plan);
          refined := true;
        }
    }
  }

  method PollRefine(env: Env, s: State) returns (r: State)
    ensures r == UserRefine(env, s, env.refineSignals(s.iteration))
  {
    var signals := env.refineSignals(s.iteration);
    r := s;
    for i := 0 to |signals|
      invariant r == UserRefine(env, s, signals[..i])
    {
      assert signals[..i + 1][..i] == signals[..i];
      if signals[i] {
        var refined;
        r, refined := CallGetPlan(env, r, USER_ASKED, false);
      }
    }
    assert signals[..|signals|] == signals;
  }

  /** The body from merging the results on; `goal` when the goal check holds. */
  method FinishTurn(cfg: Config, env: Env, start: State, results: Evidence) returns (s: State, goal: bool)
    ensures Conclude(cfg, env, start, results) == (s, if goal then Some(GoalAchieved) else None)
  {
    hide IsGoalAchieved, ShouldRefinePlan, UserRefine, Merge, Refine;
    var n := start.iteration;
    s, goal := start.(evidence := Merge(start.evidence, n, results), merged := start.merged[n := results]), false;
    if IsGoalAchieved(s.evidence) { return s, true; }
    s := PollRefine(env, s);
    if cfg.autoRefine && n < cfg.maxIterations {
      var should := ShouldRefinePlan(s.evidence);
      if should {
        var refined;
        s, refined := CallGetPlan(env, s, EVIDENCE_ASKED, true);
      }
    }
  }

  /** One turn of the loop body; `ending` stays `None` where the source continues. */
  method Turn(cfg: Config, env: Env, policy: PolicyDecision, start: State) returns (s: State, ending: Option<Ending>)
    ensures (s, ending) == Iterate(cfg, env, policy, start)
  {
    hide Execute, Conclude, Refine;
    var n := start.iteration + 1;
    s, ending := start.(iteration := n), None;
    if true in env.stopSignals(n) {
      s := s.(evidence := s.evidence["stopped_by_user" := Flag(true)]);
    }
    var pass := ExecutePlanIteration(env, n, s.plan, policy);
    var results: Evidence := map[];
    match pass {
      case Success(r) => results := r;
      case Failure(err) =>
        s := s.(lastError := err, evidence := s.evidence["iteration_error" := Text(err)]);
        if cfg.autoRefine && n < cfg.maxIterations {
          var refined;
          s, refined := CallGetPlan(env, s, "Error recovery: " + err, true);
          if refined { return; }
        }
        var over;
        s, ending, over := AskFeedback(cfg, env, s, err);
        if over { return; }
    }
    var goal;
    s, goal := FinishTurn(cfg, env, s, results);
    if goal { ending := Some(GoalAchieved); }
  }

  /** The feedback branch; `over` when the turn ends here. */
  method AskFeedback(cfg: Config, env: Env, start: State, err: string)
    returns (s: State, ending: Option<Ending>, over: bool)
    ensures AfterError(cfg, env, start, err) ==
            if over then (s, ending) else Conclude(cfg, env, s, map[])
    ensures !over ==> ending == None
  {
    hide Conclude;
    s, ending, over := start, None, false;
    if cfg.enableFeedback {
      s := s.(evidence := s.evidence["waiting" := Waiting("Iteration failed: " + err)]);
      if |s.feedback| >= |env.feedback| { return s, Some(Blocked), true; }
      var fb := env.feedback[|s.feedback|];
      s := s.(feedback := s.feedback + [fb]);
      if fb.action == "stop" {
        return s, Some(MaxIterationsReached), true;
      } else if fb.action == "continue" {
        return s, None, true;
      } else if fb.action == "modify" {
        return s, None, true;
      }
    }
    if s.iteration >= cfg.maxIterations { return s, Some(Failed(err)), true; }
  }

  method AgenticLoop(cfg: Config, env: Env, policy: PolicyDecision) returns (final: Option<State>, ending: Ending)
    ensures (final, ending) == Run(cfg, env, policy)
  {
    hide Iterate;
    match env.getPlan(0) {
      case Failure(err) => return None, PlanError(err);
      case Success(plan) =>
        var s := Start(plan);
        while s.iteration < cfg.maxIterations
          invariant LoopFrom(cfg, env, policy, s) == LoopFrom(cfg, env, policy, Start(plan))
          decreases cfg.maxIterations - s.iteration
        {
          TurnAdvances(cfg, env, policy, s);
          var stop;
          s, stop := Turn(cfg, env, policy, s);
          if stop.Some? { return Some(s), stop.value; }
        }
        return Some(s), MaxIterationsReached;
    }
  }
}
