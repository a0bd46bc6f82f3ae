/** What every run of AgenticLoop keeps (internal/controlplane/temporal/agentic_loop.go). */
module AgenticHistory {
  import opened Wrappers
  import opened PlanContracts
  import opened Agentic

  // ---------- the refinement log is a chain ----------

  /** From the initial plan to the current one, each entry starting where the previous one ended. */
  ghost predicate Chain(initial: Plan, log: seq<RefinementEntry>, current: Plan) {
    && (log == [] ==> current == initial)
    && (log != [] ==> log[0].original == initial && log[|log| - 1].refined == current)
    && (forall i :: 0 < i < |log| ==> log[i - 1].refined == log[i].original)
  }

  /** Entries carry the iteration that made them, in order. */
  ghost predicate Ordered(log: seq<RefinementEntry>, iteration: nat) {
    && (forall i :: 0 <= i < |log| ==> 1 <= log[i].iteration <= iteration)
    && (forall i, j :: 0 <= i <= j < |log| ==> log[i].iteration <= log[j].iteration)
  }

  /** The plan the log says was current when iteration `n` executed: the last one refined before `n`. */
  function PlanAt(initial: Plan, log: seq<RefinementEntry>, n: nat): Plan {
    if log == [] then initial
    else if log[|log| - 1].iteration < n then log[|log| - 1].refined
    else PlanAt(initial, log[..|log| - 1], n)
  }

  lemma ChainSnoc(initial: Plan, log: seq<RefinementEntry>, current: Plan, iteration: nat, e: RefinementEntry)
    requires Chain(initial, log, current) && Ordered(log, iteration)
    requires e.original == current && e.iteration == iteration >= 1
    ensures Chain(initial, log + [e], e.refined) && Ordered(log + [e], iteration)
    ensures forall n: nat :: n <= iteration ==> PlanAt(initial, log + [e], n) == PlanAt(initial, log, n)
  {
    assert (log + [e])[..|log|] == log;
  }

  lemma PlanAtNext(initial: Plan, log: seq<RefinementEntry>, current: Plan, iteration: nat)
    requires Chain(initial, log, current) && Ordered(log, iteration)
    ensures PlanAt(initial, log, iteration + 1) == current
  {
  }

  // ---------- the evidence is the history of merges ----------

  ghost predicate MergedUnder(merged: map<nat, Evidence>, key: string) {
    exists n, k :: n in merged && k in merged[n] && key == IterationKey(n, k)
  }

  /** Every key is fixed or comes from exactly one merged result, whose value it still holds. */
  ghost predicate History(evidence: Evidence, merged: map<nat, Evidence>, iteration: nat) {
    && (forall key :: key in evidence ==> key in FIXED_KEYS || MergedUnder(merged, key))
    && (forall n, k :: n in merged && k in merged[n] ==>
          IterationKey(n, k) in evidence && evidence[IterationKey(n, k)] == merged[n][k])
    && (forall n :: n in merged ==> 1 <= n <= iteration)
  }

  lemma FixedKeyKeepsHistory(evidence: Evidence, merged: map<nat, Evidence>, iteration: nat, key: string, v: Value)
    requires History(evidence, merged, iteration) && key in FIXED_KEYS
    ensures History(evidence[key := v], merged, iteration)
  {
    hide IterationKey;
    forall n, k | n in merged && k in merged[n] ensures IterationKey(n, k) != key {
      IterationKeyIsNotFixed(n, k);
    }
  }

  lemma MergeKeepsHistory(evidence: Evidence, merged: map<nat, Evidence>, n: nat, results: Evidence)
    requires History(evidence, merged, n) && n !in merged && n >= 1
    ensures History(Merge(evidence, n, results), merged[n := results], n)
  {
    hide IterationKey;
    var after, merged' := Merge(evidence, n, results), merged[n := results];
    forall key | key in after ensures key in FIXED_KEYS || MergedUnder(merged', key) {
      if key in evidence {
        if key !in FIXED_KEYS {
          var m, k :| m in merged && k in merged[m] && key == IterationKey(m, k);
          assert m in merged' && k in merged'[m];
        }
      } else {
        var k :| k in results && key == IterationKey(n, k);
        assert n in merged' && k in merged'[n];
      }
    }
    forall m, k | m in merged' && k in merged'[m]
      ensures IterationKey(m, k) in after && after[IterationKey(m, k)] == merged'[m][k]
    {
      if m != n {
        forall j | j in results ensures IterationKey(m, k) != IterationKey(n, j) {
          if IterationKey(m, k) == IterationKey(n, j) {
            IterationKeyIsInjective(m, k, n, j);
          }
        }
      }
    }
  }

  /** Nothing in the loop writes a key the goal check reads. */
  lemma HistoryHasNoGoal(evidence: Evidence, merged: map<nat, Evidence>, iteration: nat)
    requires History(evidence, merged, iteration)
    ensures !IsGoalAchieved(evidence)
  {
    NotFixed();
    forall n, k | n in merged && k in merged[n]
      ensures IterationKey(n, k) != "status" && IterationKey(n, k) != "goal_achieved"
    {
      IterationKeyIsNotFixed(n, k);
    }
  }

  lemma NotFixed()
    ensures "status" !in FIXED_KEYS && "goal_achieved" !in FIXED_KEYS
  {
    assert "status"[0] == 's' && "stopped_by_user"[2] == 'o' && "status"[2] == 'a';
    assert "goal_achieved"[0] == 'g' && "initial_plan"[0] == 'i' && "iteration_error"[0] == 'i' && "waiting"[0] == 'w';
  }

  // ---------- what an iteration merges ----------

  /** What executing the plan the log gives for `n` yields; nothing if the pass stopped on an error. */
  function ResultsAt(env: Env, policy: PolicyDecision, initial: Plan, log: seq<RefinementEntry>, n: nat): Evidence {
    match Execute(env, n, PlanAt(initial, log, n), policy) case Success(r) => r case Failure(_) => map[]
  }

  ghost predicate Planned(env: Env, policy: PolicyDecision, initial: Plan, s: State) {
    forall n :: n in s.merged ==> s.merged[n] == ResultsAt(env, policy, initial, s.refinements, n)
  }

  /** Each of the first `n` iterations whose pass succeeded has merged. */
  ghost predicate Complete(env: Env, policy: PolicyDecision, initial: Plan, s: State, n: int) {
    forall m :: 1 <= m <= n && Execute(env, m, PlanAt(initial, s.refinements, m), policy).Success? ==> m in s.merged
  }

  ghost predicate Inv(env: Env, policy: PolicyDecision, initial: Plan, s: State) {
    && Chain(initial, s.refinements, s.plan) && Ordered(s.refinements, s.iteration)
    && History(s.evidence, s.merged, s.iteration)
    && Planned(env, policy, initial, s) && Complete(env, policy, initial, s, s.iteration - 1)
    && |s.feedback| <= |env.feedback| && s.feedback == env.feedback[..|s.feedback|]
    && |s.feedback| <= s.iteration
  }

  lemma RefineKeepsInv(env: Env, policy: PolicyDecision, initial: Plan, s: State, reason: string, needSteps: bool)
    requires Inv(env, policy, initial, s) && s.iteration >= 1
    ensures var r := Refine(env, s, reason, needSteps);
      && Inv(env, policy, initial, r)
      && (Complete(env, policy, initial, s, s.iteration) ==> Complete(env, policy, initial, r, s.iteration))
  {
    hide History, Execute, Chain, Ordered;
    var r := Refine(env, s, reason, needSteps);
    if r.plan != s.plan || r.refinements != s.refinements {
      var e := RefinementEntry(s.iteration, reason, s.plan, env.getPlan(|s.requests| + 1).value);
      ChainSnoc(initial, s.refinements, s.plan, s.iteration, e);
      HistoryBounds(s.evidence, s.merged, s.iteration);
    }
  }

  lemma HistoryBounds(evidence: Evidence, merged: map<nat, Evidence>, iteration: nat)
    requires History(evidence, merged, iteration)
    ensures forall n :: n in merged ==> 1 <= n <= iteration
  {
  }

  lemma {:induction false} UserRefineKeepsInv(env: Env, policy: PolicyDecision, initial: Plan, s: State,
                                              signals: seq<bool>)
    requires Inv(env, policy, initial, s) && s.iteration >= 1
    ensures var r := UserRefine(env, s, signals);
      && Inv(env, policy, initial, r)
      && (Complete(env, policy, initial, s, s.iteration) ==> Complete(env, policy, initial, r, s.iteration))
  {
    hide Inv, Complete, Refine;
    if signals != [] {
      var front := signals[..|signals| - 1];
      UserRefineKeepsInv(env, policy, initial, s, front);
      UserRefineKeepsIteration(env, s, front);
      RefineKeepsInv(env, policy, initial, UserRefine(env, s, front), USER_ASKED, false);
    }
  }

  lemma ConcludeKeepsInv(cfg: Config, env: Env, policy: PolicyDecision, initial: Plan, s: State, results: Evidence)
    requires Inv(env, policy, initial, s) && s.iteration >= 1 && s.iteration !in s.merged
    requires results == ResultsAt(env, policy, initial, s.refinements, s.iteration)
    ensures Inv(env, policy, initial, Conclude(cfg, env, s, results).0)
    ensures Complete(env, policy, initial, Conclude(cfg, env, s, results).0, s.iteration)
    ensures Conclude(cfg, env, s, results).0.feedback == s.feedback
    ensures Conclude(cfg, env, s, results).1 == None
  {
    hide IsGoalAchieved, ShouldRefinePlan, Merge, Refine, Execute, History, Chain, Ordered;
    var n := s.iteration;
    var s1 := s.(evidence := Merge(s.evidence, n, results), merged := s.merged[n := results]);
    MergeKeepsHistory(s.evidence, s.merged, n, results);
    HistoryHasNoGoal(s1.evidence, s1.merged, n);
    assert Inv(env, policy, initial, s1) && Complete(env, policy, initial, s1, n);
    UserRefineKeepsInv(env, policy, initial, s1, env.refineSignals(n));
    UserRefineKeepsRest(env, s1, env.refineSignals(n));
    var s2 := UserRefine(env, s1, env.refineSignals(n));
    RefineKeepsInv(env, policy, initial, s2, EVIDENCE_ASKED, true);
    RefineKeepsRest(env, s2, EVIDENCE_ASKED, true);
  }

  lemma RefineKeepsRest(env: Env, s: State, reason: string, needSteps: bool)
    ensures var r := Refine(env, s, reason, needSteps);
            && r.iteration == s.iteration && r.feedback == s.feedback
            && r.evidence == s.evidence && r.merged == s.merged
            && (r.refinements == s.refinements ==> r.plan == s.plan)
            && s.refinements <= r.refinements
  {
  }

  lemma {:induction false} UserRefineKeepsRest(env: Env, s: State, signals: seq<bool>)
    ensures var r := UserRefine(env, s, signals);
            r.iteration == s.iteration && r.feedback == s.feedback
  {
    if signals != [] {
      UserRefineKeepsRest(env, s, signals[..|signals| - 1]);
    }
  }

  /** Ending conditions of one turn. */
  ghost predicate EndsWell(cfg: Config, s: State, ending: Ending) {
    match ending
    case GoalAchieved => false
    case PlanError(_) => false
    case Failed(_) => s.iteration >= cfg.maxIterations && s.iteration > 0
    case MaxIterationsReached =>
      s.iteration >= cfg.maxIterations || (s.feedback != [] && s.feedback[|s.feedback| - 1].action == "stop")
    case Blocked => cfg.enableFeedback
  }

  lemma AfterErrorKeepsInv(cfg: Config, env: Env, policy: PolicyDecision, initial: Plan, s: State, err: string)
    requires Inv(env, policy, initial, s) && s.iteration >= 1 && s.iteration !in s.merged
    requires |s.feedback| < s.iteration
    requires Execute(env, s.iteration, PlanAt(initial, s.refinements, s.iteration), policy).Failure?
    ensures var (r, ending) := AfterError(cfg, env, s, err);
      && Inv(env, policy, initial, r) && Complete(env, policy, initial, r, s.iteration)
      && (ending.Some? ==> EndsWell(cfg, r, ending.value))
  {
    hide Conclude, History, Chain, Ordered, Execute;
    var s1 := s.(evidence := s.evidence["waiting" := Waiting("Iteration failed: " + err)]);
    FixedKeyKeepsHistory(s.evidence, s.merged, s.iteration, "waiting", Waiting("Iteration failed: " + err));
    ConcludeKeepsInv(cfg, env, policy, initial, s, map[]);
    if |s.feedback| < |env.feedback| {
      var s2 := s1.(feedback := s.feedback + [env.feedback[|s.feedback|]]);
      assert s2.feedback == env.feedback[..|s2.feedback|];
      ConcludeKeepsInv(cfg, env, policy, initial, s2, map[]);
    }
  }

  lemma IterateKeepsInv(cfg: Config, env: Env, policy: PolicyDecision, initial: Plan, s: State)
    requires Inv(env, policy, initial, s) && Complete(env, policy, initial, s, s.iteration)
    ensures var (r, ending) := Iterate(cfg, env, policy, s);
      && Inv(env, policy, initial, r) && Complete(env, policy, initial, r, s.iteration + 1)
      && (ending.Some? ==> EndsWell(cfg, r, ending.value))
  {
    hide Conclude, AfterError, History, Chain, Ordered, Execute, Refine, EndsWell;
    var n := s.iteration + 1;
    var s1 := s.(iteration := n, evidence := Stopped(env, n, s.evidence));
    PlanAtNext(initial, s.refinements, s.plan, s.iteration);
    OneMoreIteration(s.evidence, s.merged, s.refinements, s.iteration);
    FixedKeyKeepsHistory(s.evidence, s.merged, n, "stopped_by_user", Flag(true));
    assert Inv(env, policy, initial, s1);
    match Execute(env, n, s.plan, policy)
    case Success(results) =>
      ConcludeKeepsInv(cfg, env, policy, initial, s1, results);
    case Failure(err) =>
      var s2 := s1.(lastError := err, evidence := s1.evidence["iteration_error" := Text(err)]);
      FixedKeyKeepsHistory(s1.evidence, s.merged, n, "iteration_error", Text(err));
      assert Inv(env, policy, initial, s2);
      var s3 := Refine(env, s2, "Error recovery: " + err, true);
      RefineKeepsInv(env, policy, initial, s2, "Error recovery: " + err, true);
      RefineKeepsRest(env, s2, "Error recovery: " + err, true);
      AfterErrorKeepsInv(cfg, env, policy, initial, s2, err);
      if |s3.refinements| <= |s2.refinements| {
        assert s3.refinements == s2.refinements;
        AfterErrorKeepsInv(cfg, env, policy, initial, s3, err);
      }
  }

  lemma OneMoreIteration(evidence: Evidence, merged: map<nat, Evidence>, log: seq<RefinementEntry>, iteration: nat)
    requires History(evidence, merged, iteration) && Ordered(log, iteration)
    ensures History(evidence, merged, iteration + 1) && Ordered(log, iteration + 1)
    ensures iteration + 1 !in merged
  {
  }

  lemma {:induction false} LoopKeepsInv(cfg: Config, env: Env, policy: PolicyDecision, initial: Plan, s: State)
    requires Inv(env, policy, initial, s) && Complete(env, policy, initial, s, s.iteration)
    requires s.iteration <= cfg.maxIterations || s.iteration == 0
    ensures var (r, ending) := LoopFrom(cfg, env, policy, s);
      && Inv(env, policy, initial, r) && Complete(env, policy, initial, r, r.iteration) && EndsWell(cfg, r, ending)
      && (r.iteration <= cfg.maxIterations || r.iteration == 0)
    decreases cfg.maxIterations - s.iteration
  {
    hide Inv, Complete, Iterate;
    if s.iteration < cfg.maxIterations {
      TurnAdvances(cfg, env, policy, s);
      IterateKeepsInv(cfg, env, policy, initial, s);
      var (next, ending) := Iterate(cfg, env, policy, s);
      if ending == None {
        LoopKeepsInv(cfg, env, policy, initial, next);
      }
    }
  }

  // ---------- main results ----------

  lemma StartInv(env: Env, policy: PolicyDecision, plan: Plan)
    ensures Inv(env, policy, plan, Start(plan)) && Complete(env, policy, plan, Start(plan), 0)
  {
  }

  /**
   Over every run: the refinement log is a chain from the initial plan to the current one, in order of
   iterations; feedback is taken in order, at most once per iteration; and the iteration count stays
   within the maximum.
   */
  lemma RefinementsFormAChain(cfg: Config, env: Env, policy: PolicyDecision, plan: Plan)
    ensures var (s, ending) := LoopFrom(cfg, env, policy, Start(plan));
      && Chain(plan, s.refinements, s.plan) && Ordered(s.refinements, s.iteration)
      && s.feedback <= env.feedback
      && |s.feedback| <= s.iteration <= if cfg.maxIterations > 0 then cfg.maxIterations else 0
  {
    StartInv(env, policy, plan);
    LoopKeepsInv(cfg, env, policy, plan, Start(plan));
  }

  /**
   The evidence is a faithful history: under the prefix of each iteration that took place it holds, key
   for key, what executing the plan then current returned, and nothing if that pass stopped on an error;
   no later write ever touches it.
   */
  lemma EvidenceIsFaithful(cfg: Config, env: Env, policy: PolicyDecision, plan: Plan, n: nat, k: string)
    ensures var (s, ending) := LoopFrom(cfg, env, policy, Start(plan));
      var results := ResultsAt(env, policy, plan, s.refinements, n);
      && (IterationKey(n, k) in s.evidence <==> 1 <= n <= s.iteration && k in results)
      && (IterationKey(n, k) in s.evidence ==> s.evidence[IterationKey(n, k)] == results[k])
  {
    hide Chain, Ordered, IterationKey, Execute, LoopFrom;
    StartInv(env, policy, plan);
    LoopKeepsInv(cfg, env, policy, plan, Start(plan));
    var (s, _) := LoopFrom(cfg, env, policy, Start(plan));
    IterationKeyIsNotFixed(n, k);
    if IterationKey(n, k) in s.evidence {
      var m, j :| m in s.merged && j in s.merged[m] && IterationKey(n, k) == IterationKey(m, j);
      IterationKeyIsInjective(n, k, m, j);
    }
  }

  /**
   No run ends with its goal achieved: the loop writes none of the keys the goal check reads. And a run
   reported as having reached the maximum did so, unless the last feedback told it to stop.
   */
  lemma GoalIsNeverAchieved(cfg: Config, env: Env, policy: PolicyDecision, plan: Plan)
    ensures var (s, ending) := LoopFrom(cfg, env, policy, Start(plan));
      && ending != GoalAchieved && !IsGoalAchieved(s.evidence)
      && (ending.Failed? ==> s.iteration == cfg.maxIterations)
      && (ending == MaxIterationsReached ==>
            || s.iteration == cfg.maxIterations || cfg.maxIterations <= 0
            || (s.feedback != [] && s.feedback[|s.feedback| - 1].action == "stop"))
  {
    hide LoopFrom;
    StartInv(env, policy, plan);
    LoopKeepsInv(cfg, env, policy, plan, Start(plan));
    var (s, ending) := LoopFrom(cfg, env, policy, Start(plan));
    HistoryHasNoGoal(s.evidence, s.merged, s.iteration);
  }

  // ---------- what one pass returns ----------

  /** A pass succeeds exactly when no step needs a missing write permission or fails with `stopOnErr`. */
  lemma {:induction false} PassSucceedsIff(env: Env, n: nat, plan: Plan, policy: PolicyDecision, j: nat)
    requires j <= |plan.steps|
    ensures ExecuteSteps(env, n, plan, policy, j).Success? <==>
      forall i :: 0 <= i < j ==>
        && ("write" in plan.steps[i].tags ==> policy.allowWrites)
        && (env.callTool(n, i).Failure? ==> !plan.steps[i].stopOnErr)
  {
    if j > 0 {
      PassSucceedsIff(env, n, plan, policy, j - 1);
    }
  }

  /** Why step `i` stops a pass, if it does. */
  function StopsPass(env: Env, n: nat, plan: Plan, policy: PolicyDecision, i: nat): Option<string>
    requires i < |plan.steps|
  {
    if "write" in plan.steps[i].tags && !policy.allowWrites then Some("write operation requires approval")
    else if plan.steps[i].stopOnErr && env.callTool(n, i).Failure? then Some(env.callTool(n, i).error)
    else None
  }

  ghost predicate FirstStop(env: Env, n: nat, plan: Plan, policy: PolicyDecision, i: nat, err: string)
    requires i < |plan.steps|
  {
    && StopsPass(env, n, plan, policy, i) == Some(err)
    && forall k :: 0 <= k < i ==> StopsPass(env, n, plan, policy, k) == None
  }

  /** A failed pass fails with the error of the first step that stops it. */
  lemma {:induction false} PassFailsWithTheFirst(env: Env, n: nat, plan: Plan, policy: PolicyDecision, j: nat)
    requires j <= |plan.steps| && ExecuteSteps(env, n, plan, policy, j).Failure?
    ensures exists i: nat :: i < j && FirstStop(env, n, plan, policy, i, ExecuteSteps(env, n, plan, policy, j).error)
  {
    hide StopsPass;
    if ExecuteSteps(env, n, plan, policy, j - 1).Failure? {
      PassFailsWithTheFirst(env, n, plan, policy, j - 1);
      var i: nat :| i < j - 1 && FirstStop(env, n, plan, policy, i, ExecuteSteps(env, n, plan, policy, j - 1).error);
      assert ExecuteSteps(env, n, plan, policy, j) == ExecuteSteps(env, n, plan, policy, j - 1) && i < j;
    } else {
      NoneStopped(env, n, plan, policy, j - 1);
      StepStops(env, n, plan, policy, j);
      assert FirstStop(env, n, plan, policy, j - 1, ExecuteSteps(env, n, plan, policy, j).error);
    }
  }

  lemma {:induction false} NoneStopped(env: Env, n: nat, plan: Plan, policy: PolicyDecision, j: nat)
    requires j <= |plan.steps| && ExecuteSteps(env, n, plan, policy, j).Success?
    ensures forall k :: 0 <= k < j ==> StopsPass(env, n, plan, policy, k) == None
  {
    if j > 0 {
      NoneStopped(env, n, plan, policy, j - 1);
    }
  }

  lemma StepStops(env: Env, n: nat, plan: Plan, policy: PolicyDecision, j: nat)
    requires 0 < j <= |plan.steps| && ExecuteSteps(env, n, plan, policy, j - 1).Success?
    requires ExecuteSteps(env, n, plan, policy, j).Failure?
    ensures StopsPass(env, n, plan, policy, j - 1) == Some(ExecuteSteps(env, n, plan, policy, j).error)
  {
  }

  function StepKey(env: Env, n: nat, plan: Plan, i: nat): string
    requires i < |plan.steps|
  {
    (if env.callTool(n, i).Success? then "step_result_" else "step_error_") + plan.steps[i].stepId
  }

  function StepValue(env: Env, n: nat, i: nat): Value {
    match env.callTool(n, i) case Success(out) => Output(out) case Failure(err) => Text(err)
  }

  ghost predicate UniqueSteps(plan: Plan) {
    forall i, j :: 0 <= i < j < |plan.steps| ==> plan.steps[i].stepId != plan.steps[j].stepId
  }

  lemma StepKeysDiffer(env: Env, n: nat, plan: Plan, i: nat, j: nat)
    requires i < |plan.steps| && j < |plan.steps| && plan.steps[i].stepId != plan.steps[j].stepId
    ensures StepKey(env, n, plan, i) != StepKey(env, n, plan, j)
  {
    var a, b := StepKey(env, n, plan, i), StepKey(env, n, plan, j);
    var x, y := plan.steps[i].stepId, plan.steps[j].stepId;
    assert "step_result_"[5] == 'r' && "step_error_"[5] == 'e';
    assert a[5] == if env.callTool(n, i).Success? then 'r' else 'e';
    assert b[5] == if env.callTool(n, j).Success? then 'r' else 'e';
    assert a[5] == 'r' ==> a[12..] == x;
    assert b[5] == 'r' ==> b[12..] == y;
    assert a[5] == 'e' ==> a[11..] == x;
    assert b[5] == 'e' ==> b[11..] == y;
  }

  /** With unique step IDs a successful pass returns exactly one entry per step, under the key its outcome calls for. */
  lemma {:induction false} PassRecordsEveryStep(env: Env, n: nat, plan: Plan, policy: PolicyDecision, j: nat)
    requires j <= |plan.steps| && UniqueSteps(plan)
    requires ExecuteSteps(env, n, plan, policy, j).Success?
    ensures var r := ExecuteSteps(env, n, plan, policy, j).value;
      && (forall i :: 0 <= i < j ==>
            StepKey(env, n, plan, i) in r && r[StepKey(env, n, plan, i)] == StepValue(env, n, i))
      && (forall key :: key in r ==> exists i :: 0 <= i < j && key == StepKey(env, n, plan, i))
  {
    hide StepKey;
    if j > 0 {
      PassRecordsEveryStep(env, n, plan, policy, j - 1);
      var before, r := ExecuteSteps(env, n, plan, policy, j - 1).value, ExecuteSteps(env, n, plan, policy, j).value;
      LastStep(env, n, plan, policy, j);
      forall i | 0 <= i < j - 1 ensures StepKey(env, n, plan, i) != StepKey(env, n, plan, j - 1) {
        StepKeysDiffer(env, n, plan, i, j - 1);
      }
      forall key | key in r ensures exists i :: 0 <= i < j && key == StepKey(env, n, plan, i) {
        if key in before {
          var i :| 0 <= i < j - 1 && key == StepKey(env, n, plan, i);
          assert 0 <= i < j;
        } else {
          assert key == StepKey(env, n, plan, j - 1);
        }
      }
    }
  }

  lemma LastStep(env: Env, n: nat, plan: Plan, policy: PolicyDecision, j: nat)
    requires 0 < j <= |plan.steps| && ExecuteSteps(env, n, plan, policy, j).Success?
    ensures ExecuteSteps(env, n, plan, policy, j - 1).Success?
    ensures ExecuteSteps(env, n, plan, policy, j).value ==
            ExecuteSteps(env, n, plan, policy, j - 1).value[StepKey(env, n, plan, j - 1) := StepValue(env, n, j - 1)]
  {
  }
}
