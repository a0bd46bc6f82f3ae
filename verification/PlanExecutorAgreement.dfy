/**
 Two implementations of one executor, IncidentWorkflow (internal/controlplane/temporal/workflow.go) and
 Orchestrator.Run (internal/controlplane/orchestrator/orchestrator.go): exactly when they agree.
 */
module PlanExecutorAgreement {
  import opened Wrappers
  import opened PlanContracts
  import opened PlanExecutors

  // ---------- what agreement means ----------

  /** The steps whose request reached the tool server, in order. */
  function Served(events: seq<Event>): seq<nat> {
    if events == [] then []
    else
      var e := events[|events| - 1];
      Served(events[..|events| - 1]) + if e.ServerCalled? then [e.i] else []
  }

  /** Same keys and same outputs; an error's text is the server's, prefixed by the activity. */
  ghost predicate SameEvidence(w: map<string, Value>, o: map<string, Value>) {
    && w.Keys - {"plan"} == o.Keys
    && forall k :: k in o ==> w[k] == match o[k] case Text(err) => Text("tool call failed: " + err) case v => v
  }

  /**
   The same ending at the same step. Overrunning the budget is never the same: Orchestrator.Run fails
   where IncidentWorkflow starts over.
   */
  ghost predicate SameEnding(w: Ending, o: Ending) {
    match o
    case StepFailed(i, err) => w == StepFailed(i, "tool call failed: " + err)
    case e => w == e
  }

  ghost predicate Agreed(w: Run, o: Run) {
    SameEnding(w.ending, o.ending) && Served(w.events) == Served(o.events) && SameEvidence(w.evidence, o.evidence)
  }

  /**
   Nothing treats step `i` differently: it is within the budget and in time, needs no approval, and passes
   the catalog, tags and scopes.
   */
  ghost predicate Unhindered(env: Env, pd: PolicyDecision, plan: Plan, i: nat)
    requires i < |plan.steps|
  {
    && i < pd.maxToolCalls && env.elapsed(i) <= pd.maxSeconds * 1_000_000_000
    && ("write" in plan.steps[i].tags ==> pd.allowWrites)
    && Permitted(plan.steps[i], pd, env.catalog)
  }

  /** The first `k` steps are unhindered. */
  ghost predicate Clear(env: Env, pd: PolicyDecision, plan: Plan, k: nat)
    requires k <= |plan.steps|
  {
    forall i :: 0 <= i < k ==> Unhindered(env, pd, plan, i)
  }

  // ---------- while they agree ----------

  ghost predicate Agree(pd: PolicyDecision, w: Run, o: Run) {
    && Agreed(w, o) && w.toolCalls == o.toolCalls && w.allowWrites == pd.allowWrites
  }

  lemma ServedSnoc(events: seq<Event>, i: nat)
    ensures Served(events + [ServerCalled(0, i)]) == Served(events) + [i]
    ensures Served(events + [CallStarted(0, i)]) == Served(events)
    ensures Served(events + [CallStarted(0, i)] + [ServerCalled(0, i)]) == Served(events) + [i]
  {
    var started := events + [CallStarted(0, i)];
    assert started[..|events|] == events;
    assert (started + [ServerCalled(0, i)])[..|started|] == started;
    assert (events + [ServerCalled(0, i)])[..|events|] == events;
  }

  lemma StepKeysAreNotPlan(step: PlanStep)
    ensures OutKey(Single, step, 0) != "plan" && ErrorKey(Single, step, 0) != "plan"
  {
    assert OutKey(Single, step, 0)[0] == 's' && ErrorKey(Single, step, 0)[0] == 's' && "plan"[0] == 'p';
  }

  lemma EvidenceStaysSame(w: map<string, Value>, o: map<string, Value>, k: string, v: Value, u: Value)
    requires SameEvidence(w, o) && k != "plan"
    requires v == match u case Text(err) => Text("tool call failed: " + err) case x => x
    ensures SameEvidence(w[k := v], o[k := u])
  {
  }

  lemma PermittedPassesChecks(step: PlanStep, pd: PolicyDecision, catalog: PlanStep -> Option<string>)
    ensures Permitted(step, pd, catalog) <==>
      && catalog(step) == None
      && BadTag(step.tags, pd.toolTagAllow, 0) == None && MissingScope(step.scopes, pd.scopes, 0) == None
  {
    BadTagIff(step.tags, pd.toolTagAllow, 0);
    MissingScopeIff(step.scopes, pd.scopes, 0);
  }

  lemma UnhinderedStepIsCalled(env: Env, pd: PolicyDecision, plan: Plan, w: Run, i: nat)
    requires i < |plan.steps| && Unhindered(env, pd, plan, i)
    requires w.toolCalls == i && w.allowWrites == pd.allowWrites
    ensures DoStep(env, Single, pd, plan, 0, w, i) ==
            Call(env, Single, pd, plan.steps[i], 0, i, w.(toolCalls := i + 1))
    ensures GateError(plan.steps[i], pd, env.catalog) == None && pd.(allowWrites := w.allowWrites) == pd
  {
    hide Call, GateError, Permitted;
    GateIsExact(plan.steps[i], pd, env.catalog);
  }

  /** The same call made by both: same request, same effect. */
  lemma UnhinderedStepAgrees(env: Env, pd: PolicyDecision, plan: Plan, w: Run, o: Run, i: nat)
    requires i < |plan.steps| && Unhindered(env, pd, plan, i) && w.toolCalls == i
    requires Agree(pd, w, o) && w.ending == Running && o.ending == Running
    ensures Agree(pd, DoStep(env, Single, pd, plan, 0, w, i), OrchestratorStep(env, pd, plan, o, i))
  {
    hide DoStep, GateError, BadTag, MissingScope, Permitted, SameEvidence, OutKey, ErrorKey, Served;
    var step := plan.steps[i];
    UnhinderedStepIsCalled(env, pd, plan, w, i);
    PermittedPassesChecks(step, pd, env.catalog);
    ServedSnoc(w.events, i);
    ServedSnoc(o.events, i);
    StepKeysAreNotPlan(step);
    match env.server(0, i)
    case Success(out) =>
      EvidenceStaysSame(w.evidence, o.evidence, OutKey(Single, step, 0), Output(out), Output(out));
    case Failure(err) =>
      EvidenceStaysSame(w.evidence, o.evidence, ErrorKey(Single, step, 0), Text("tool call failed: " + err), Text(err));
  }

  // ---------- once they have parted ----------

  /** The endings IncidentWorkflow can have. */
  ghost predicate WorkflowEnding(e: Ending) {
    !e.BudgetExceeded? && !e.TimeExceeded? && !e.NeedsApproval? && !e.TagsBlocked? && !e.ScopeMissing?
  }

  /** Orchestrator.Run ended as IncidentWorkflow never does, or served a step that the latter has passed by. */
  ghost predicate Parted(w: Run, o: Run, k: nat) {
    || !WorkflowEnding(o.ending)
    || exists j: nat :: j < k && j in Served(o.events) && j !in Served(w.events)
  }

  lemma PartedDisagree(w: Run, o: Run, k: nat)
    requires Parted(w, o, k) && WorkflowEnding(w.ending)
    ensures !Agreed(w, o)
  {
  }

  /** Nothing brings them together again. */
  lemma PartedStay(w: Run, o: Run, w': Run, o': Run, i: nat)
    requires Parted(w, o, i)
    requires Served(w'.events) == Served(w.events) || Served(w'.events) == Served(w.events) + [i]
    requires o' == o ||
      (o.ending == Running && (Served(o'.events) == Served(o.events) || Served(o'.events) == Served(o.events) + [i]))
    ensures Parted(w', o', i + 1)
  {
    hide Served;
    if WorkflowEnding(o.ending) {
      var j: nat :| j < i && j in Served(o.events) && j !in Served(w.events);
      assert j in Served(o'.events) && j !in Served(w'.events);
    }
  }

  /** What one step of IncidentWorkflow does to the steps served. */
  lemma WorkflowStepServes(env: Env, pd: PolicyDecision, plan: Plan, w: Run, i: nat)
    requires i < |plan.steps| && WorkflowEnding(w.ending) && w.ending == Running
    ensures var w' := DoStep(env, Single, pd, plan, 0, w, i);
      && w'.toolCalls == w.toolCalls + 1
      && WorkflowEnding(w'.ending)
      && (Served(w'.events) == Served(w.events) || Served(w'.events) == Served(w.events) + [i])
      && (env.catalog(plan.steps[i]).Some? ==> Served(w'.events) == Served(w.events))
  {
    hide BadTag, MissingScope, OutKey, ErrorKey, Served;
    var approved := w.events + [ApprovalTaken(w.pos, 0, i)];
    ServedSnoc(w.events, i);
    ServedSnoc(approved, i);
    ApprovalIsNotServed(w.events, w.pos, i);
    assert forall e: seq<Event> :: e + [] == e;
  }

  lemma ApprovalIsNotServed(events: seq<Event>, at: nat, i: nat)
    ensures Served(events + [ApprovalTaken(at, 0, i)]) == Served(events)
  {
    assert (events + [ApprovalTaken(at, 0, i)])[..|events|] == events;
  }

  lemma OrchestratorStepServes(env: Env, pd: PolicyDecision, plan: Plan, o: Run, i: nat)
    requires i < |plan.steps|
    ensures var o' := OrchestratorStep(env, pd, plan, o, i);
      Served(o'.events) == Served(o.events) || Served(o'.events) == Served(o.events) + [i]
  {
    hide BadTag, MissingScope, OutKey, ErrorKey, Served;
    ServedSnoc(o.events, i);
  }

  /** A hindered step that both executors take parts them. */
  lemma HinderedStepParts(env: Env, pd: PolicyDecision, plan: Plan, w: Run, o: Run, i: nat)
    requires i < |plan.steps| && !Unhindered(env, pd, plan, i) && i !in Served(w.events)
    requires w.ending == o.ending == Running && o.toolCalls == i
    ensures Parted(DoStep(env, Single, pd, plan, 0, w, i), OrchestratorStep(env, pd, plan, o, i), i + 1)
  {
    hide BadTag, MissingScope, Permitted, OutKey, ErrorKey, Served, DoStep;
    PermittedPassesChecks(plan.steps[i], pd, env.catalog);
    WorkflowStepServes(env, pd, plan, w, i);
    ServedSnoc(o.events, i);
    var o' := OrchestratorStep(env, pd, plan, o, i);
    if WorkflowEnding(o'.ending) {
      assert i in Served(o'.events);
    }
  }

  // ---------- whole runs ----------

  /** Both executors after `k` steps: in agreement if the workflow met no hindered step, parted otherwise. */
  ghost predicate InStep(env: Env, pd: PolicyDecision, plan: Plan, w: Run, o: Run, k: nat)
    requires k <= |plan.steps|
  {
    && w.toolCalls <= k && (w.ending == Running ==> w.toolCalls == k)
    && WorkflowEnding(w.ending) && (forall j :: j in Served(w.events) ==> j < k)
    && (if Clear(env, pd, plan, w.toolCalls) then Agree(pd, w, o) else Parted(w, o, k))
  }

  lemma StepKeepsInStep(env: Env, pd: PolicyDecision, plan: Plan, w: Run, o: Run, i: nat)
    requires i < |plan.steps| && InStep(env, pd, plan, w, o, i)
    ensures InStep(env, pd, plan,
                   if w.ending == Running then DoStep(env, Single, pd, plan, 0, w, i) else w,
                   if o.ending == Running then OrchestratorStep(env, pd, plan, o, i) else o,
                   i + 1)
  {
    hide DoStep, OrchestratorStep, Unhindered, Served, SameEvidence, WorkflowEnding, Parted;
    var w' := if w.ending == Running then DoStep(env, Single, pd, plan, 0, w, i) else w;
    var o' := if o.ending == Running then OrchestratorStep(env, pd, plan, o, i) else o;
    if w.ending == Running { WorkflowStepServes(env, pd, plan, w, i); }
    if o.ending == Running { OrchestratorStepServes(env, pd, plan, o, i); }
    if !Clear(env, pd, plan, w.toolCalls) {
      PartedStay(w, o, w', o', i);
    } else if w.ending == Running {
      if Unhindered(env, pd, plan, i) {
        UnhinderedStepAgrees(env, pd, plan, w, o, i);
      } else {
        HinderedStepParts(env, pd, plan, w, o, i);
      }
    }
  }

  lemma {:induction false} RunsAreInStep(env: Env, pd: PolicyDecision, plan: Plan, w: Run, o: Run, k: nat)
    requires k <= |plan.steps| && InStep(env, pd, plan, w, o, 0)
    ensures InStep(env, pd, plan, Steps(env, Single, pd, plan, 0, w, k), OrchestratorSteps(env, pd, plan, o, k), k)
  {
    hide DoStep, OrchestratorStep, InStep;
    if k > 0 {
      RunsAreInStep(env, pd, plan, w, o, k - 1);
      StepKeepsInStep(env, pd, plan, Steps(env, Single, pd, plan, 0, w, k - 1),
                      OrchestratorSteps(env, pd, plan, o, k - 1), k - 1);
    }
  }

  /** The steps IncidentWorkflow takes up are all unhindered; there are none when it gets no plan. */
  ghost predicate NeverHindered(env: Env) {
    env.policy.Success? && env.policy.value.allowed && env.getPlan(0).Success? ==>
      var plan := env.getPlan(0).value;
      forall i :: 0 <= i < |plan.steps| && i < IncidentRun(env).toolCalls ==> Unhindered(env, env.policy.value, plan, i)
  }

  /** The runs of both executors over the steps, from where they have a plan. */
  lemma PlannedRunsAreInStep(env: Env, pd: PolicyDecision, plan: Plan)
    requires env.policy == Success(pd) && pd.allowed && env.getPlan(0) == Success(plan)
    ensures exists w, o ::
      && InStep(env, pd, plan, w, o, |plan.steps|)
      && IncidentRun(env) == (if w.ending == Running then w.(ending := Completed) else w)
      && OrchestratorRun(env) == (if o.ending == Running then o.(ending := Completed) else o)
  {
    hide Steps, OrchestratorSteps;
    var start := NOTHING.(allowWrites := pd.allowWrites, evidence := map["policy" := PolicyValue(pd)]);
    var planned := start.(evidence := start.evidence["plan" := PlanValue(plan)]);
    assert "policy"[1] == 'o' && "plan"[1] == 'l';
    assert InStep(env, pd, plan, planned, start, 0);
    RunsAreInStep(env, pd, plan, planned, start, |plan.steps|);
    var w := Steps(env, Single, pd, plan, 0, planned, |plan.steps|);
    var o := OrchestratorSteps(env, pd, plan, start, |plan.steps|);
    assert InStep(env, pd, plan, w, o, |plan.steps|);
  }

  /**
   Over every input: the two executors send the same steps to the tool server in the same order, end the
   same way at the same step and leave the same evidence, exactly when every step that IncidentWorkflow
   takes up is unhindered.
   */
  lemma ExecutorsAgreeIff(env: Env)
    ensures Agreed(IncidentRun(env), OrchestratorRun(env)) <==> NeverHindered(env)
  {
    hide Steps, OrchestratorSteps, Unhindered, Served;
    if env.policy.Success? && env.policy.value.allowed && env.getPlan(0).Success? {
      PlannedExecutorsAgreeIff(env, env.policy.value, env.getPlan(0).value);
    } else {
      assert "policy"[1] == 'o' && "plan"[1] == 'l';
    }
  }

  lemma PlannedExecutorsAgreeIff(env: Env, pd: PolicyDecision, plan: Plan)
    requires env.policy == Success(pd) && pd.allowed && env.getPlan(0) == Success(plan)
    ensures Agreed(IncidentRun(env), OrchestratorRun(env)) <==> NeverHindered(env)
  {
    hide IncidentRun, OrchestratorRun, Unhindered, Served, SameEvidence;
    PlannedRunsAreInStep(env, pd, plan);
    var w, o :| InStep(env, pd, plan, w, o, |plan.steps|)
      && IncidentRun(env) == (if w.ending == Running then w.(ending := Completed) else w)
      && OrchestratorRun(env) == (if o.ending == Running then o.(ending := Completed) else o);
    if !Clear(env, pd, plan, w.toolCalls) {
      PartedDisagree(w, o, |plan.steps|);
    }
  }

  // ---------- whatever the tool server answers ----------

  type Server = (nat, nat) -> Result<ToolOutput, string>

  ghost predicate AgreeWith(env: Env, server: Server) {
    Agreed(IncidentRun(env.(server := server)), OrchestratorRun(env.(server := server)))
  }

  /** What a caller can check before the run: no step of the plan is hindered. */
  ghost predicate PlanIsClear(env: Env) {
    env.policy.Success? && env.policy.value.allowed && env.getPlan(0).Success? ==>
      Clear(env, env.policy.value, env.getPlan(0).value, |env.getPlan(0).value.steps|)
  }

  const ALWAYS_SUCCEEDS: Server := (n, i) => Success(map[])

  /** When all calls succeed, only a hindered step keeps the workflow from going on. */
  ghost predicate GoesOn(env: Env, pd: PolicyDecision, plan: Plan, w: Run, k: nat)
    requires k <= |plan.steps|
  {
    && w.toolCalls <= k && (w.ending == Running ==> w.toolCalls == k)
    && ((w.ending == Running && w.allowWrites == pd.allowWrites) || !Clear(env, pd, plan, w.toolCalls))
  }

  lemma StepGoesOn(env: Env, pd: PolicyDecision, plan: Plan, w: Run, i: nat)
    requires i < |plan.steps| && env.server == ALWAYS_SUCCEEDS
    requires w.ending == Running && GoesOn(env, pd, plan, w, i)
    ensures GoesOn(env, pd, plan, DoStep(env, Single, pd, plan, 0, w, i), i + 1)
  {
    hide BadTag, MissingScope, OutKey, ErrorKey, GateError, Permitted;
    assert w.allowWrites == pd.allowWrites ==> pd.(allowWrites := w.allowWrites) == pd;
    GateIsExact(plan.steps[i], pd, env.catalog);
    assert DoStep(env, Single, pd, plan, 0, w, i).toolCalls == i + 1;
    assert Clear(env, pd, plan, i + 1) ==> Unhindered(env, pd, plan, i);
  }

  lemma {:induction false} StepsGoOn(env: Env, pd: PolicyDecision, plan: Plan, w: Run, k: nat)
    requires k <= |plan.steps| && env.server == ALWAYS_SUCCEEDS
    requires w.ending == Running && w.toolCalls == 0 && w.allowWrites == pd.allowWrites
    ensures GoesOn(env, pd, plan, Steps(env, Single, pd, plan, 0, w, k), k)
  {
    hide DoStep, Unhindered;
    if k > 0 {
      StepsGoOn(env, pd, plan, w, k - 1);
      var before := Steps(env, Single, pd, plan, 0, w, k - 1);
      if before.ending == Running {
        StepGoesOn(env, pd, plan, before, k - 1);
      }
    }
  }

  /** With such a server, a run that meets no hindered step leaves none in the plan. */
  lemma NeverHinderedIsClear(env: Env)
    requires env.server == ALWAYS_SUCCEEDS && NeverHindered(env)
    ensures PlanIsClear(env)
  {
    hide Steps, Permitted;
    if env.policy.Success? && env.policy.value.allowed && env.getPlan(0).Success? {
      var pd, plan := env.policy.value, env.getPlan(0).value;
      var start := NOTHING.(allowWrites := pd.allowWrites,
                            evidence := map["policy" := PolicyValue(pd)]["plan" := PlanValue(plan)]);
      StepsGoOn(env, pd, plan, start, |plan.steps|);
      assert Clear(env, pd, plan, IncidentRun(env).toolCalls);
    }
  }

  lemma ServersDoNotHinder(env: Env, server: Server)
    ensures PlanIsClear(env.(server := server)) <==> PlanIsClear(env)
    ensures PlanIsClear(env.(server := server)) ==> NeverHindered(env.(server := server))
  {
    hide Permitted, IncidentRun;
    if env.policy.Success? && env.getPlan(0).Success? {
      var pd, plan, env' := env.policy.value, env.getPlan(0).value, env.(server := server);
      forall i: nat | i < |plan.steps| ensures Unhindered(env', pd, plan, i) <==> Unhindered(env, pd, plan, i) {}
    }
  }

  /**
   Over every input: the two executors agree whatever the tool server answers exactly when no step of the
   plan is hindered.
   */
  lemma ExecutorsAlwaysAgreeIff(env: Env)
    ensures (forall server :: AgreeWith(env, server)) <==> PlanIsClear(env)
  {
    hide Agreed, IncidentRun, OrchestratorRun, PlanIsClear, NeverHindered;
    forall server: Server ensures PlanIsClear(env) ==> AgreeWith(env, server) {
      ServersDoNotHinder(env, server);
      ExecutorsAgreeIff(env.(server := server));
    }
    if AgreeWith(env, ALWAYS_SUCCEEDS) {
      ServersDoNotHinder(env, ALWAYS_SUCCEEDS);
      ExecutorsAgreeIff(env.(server := ALWAYS_SUCCEEDS));
      NeverHinderedIsClear(env.(server := ALWAYS_SUCCEEDS));
    }
  }
}
