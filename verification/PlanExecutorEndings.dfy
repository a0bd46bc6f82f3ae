/**
 How runs of the three plan executors end and what they leave, from the answers of agents, humans and the
 tool server: IncidentWorkflow (internal/controlplane/temporal/workflow.go), IncidentWorkflowIterative
 (workflow_agentic.go) and Orchestrator.Run (internal/controlplane/orchestrator/orchestrator.go).
 */
module PlanExecutorEndings {
  import opened Wrappers
  import opened GoStrings
  import opened PlanContracts
  import opened PlanExecutors

  // ---------- what the gate says ----------

  lemma {:induction false} BadTagIsFirst(tags: seq<string>, allow: seq<string>, i: nat)
    requires i <= |tags| && BadTag(tags, allow, i).Some?
    ensures exists k: nat :: i <= k < |tags| && IsFirstBadTag(tags, allow, k) && tags[k] == BadTag(tags, allow, i).value
    requires forall j :: 0 <= j < i ==> Restricted(tags[j]) ==> tags[j] in allow
    decreases |tags| - i
  {
    if Restricted(tags[i]) && tags[i] !in allow {
      assert IsFirstBadTag(tags, allow, i);
    } else {
      BadTagIsFirst(tags, allow, i + 1);
    }
  }

  /** Tag `k` is the first read/write tag the policy does not list. */
  ghost predicate IsFirstBadTag(tags: seq<string>, allow: seq<string>, k: nat)
    requires k < |tags|
  {
    && tags[k] in {"read", "write"} && tags[k] !in allow
    && forall j :: 0 <= j < k ==> tags[j] in {"read", "write"} ==> tags[j] in allow
  }

  ghost predicate IsFirstMissing(scopes: seq<string>, granted: seq<string>, k: nat)
    requires k < |scopes|
  {
    scopes[k] !in granted && forall j :: 0 <= j < k ==> scopes[j] in granted
  }

  lemma {:induction false} MissingScopeIsFirst(scopes: seq<string>, granted: seq<string>, i: nat)
    requires i <= |scopes| && MissingScope(scopes, granted, i).Some?
    requires forall j :: 0 <= j < i ==> scopes[j] in granted
    ensures exists k: nat :: i <= k < |scopes| && IsFirstMissing(scopes, granted, k)
                             && scopes[k] == MissingScope(scopes, granted, i).value
    decreases |scopes| - i
  {
    if scopes[i] !in granted {
      assert IsFirstMissing(scopes, granted, i);
    } else {
      MissingScopeIsFirst(scopes, granted, i + 1);
    }
  }

  ghost predicate TagsPass(step: PlanStep, pd: PolicyDecision) {
    forall t :: t in step.tags && t in {"read", "write"} ==> t in pd.toolTagAllow
  }

  ghost predicate ScopesPass(step: PlanStep, pd: PolicyDecision) {
    forall s :: s in step.scopes ==> s in pd.scopes
  }

  /**
   The gate's error names the first check that fails: catalog, write permission, first bad tag, first
   missing scope.
   */
  lemma GateNamesTheFirstCheck(step: PlanStep, pd: PolicyDecision, catalog: PlanStep -> Option<string>)
    ensures var e, write := GateError(step, pd, catalog), "write" in step.tags && !pd.allowWrites;
      && (catalog(step).Some? ==> e == catalog(step))
      && (catalog(step) == None && write ==> e == Some("write operation blocked by policy"))
      && (catalog(step) == None && !write && !TagsPass(step, pd) ==>
            exists k: nat :: k < |step.tags| && IsFirstBadTag(step.tags, pd.toolTagAllow, k)
                             && e == Some("tag '" + step.tags[k] + "' not allowed by policy"))
      && (catalog(step) == None && !write && TagsPass(step, pd) && !ScopesPass(step, pd) ==>
            exists k: nat :: k < |step.scopes| && IsFirstMissing(step.scopes, pd.scopes, k)
                             && e == Some("missing required scope: " + step.scopes[k]))
  {
    BadTagIff(step.tags, pd.toolTagAllow, 0);
    MissingScopeIff(step.scopes, pd.scopes, 0);
    if BadTag(step.tags, pd.toolTagAllow, 0).Some? { BadTagIsFirst(step.tags, pd.toolTagAllow, 0); }
    if MissingScope(step.scopes, pd.scopes, 0).Some? { MissingScopeIsFirst(step.scopes, pd.scopes, 0); }
  }

  // ---------- what a step meets ----------

  predicate Writes(step: PlanStep) {
    "write" in step.tags
  }

  /** Why the call of step `i`, made with permission to write, fails. */
  function Fault(env: Env, pd: PolicyDecision, step: PlanStep, n: nat, i: nat): Option<string> {
    match GateError(step, pd.(allowWrites := true), env.catalog)
    case Some(err) => Some(err)
    case None => match env.server(n, i) case Success(_) => None case Failure(err) => Some("tool call failed: " + err)
  }

  predicate BeyondBudget(mode: Mode, pd: PolicyDecision, i: nat) {
    mode.Single? && 0 < pd.maxToolCalls <= i
  }

  /** What keeps step `i`, if it is reached, from being the step before the next. */
  function Obstacle(env: Env, mode: Mode, pd: PolicyDecision, plan: Plan, n: nat, i: nat): Option<Ending>
    requires i < |plan.steps|
  {
    var step, mustAsk := plan.steps[i], Writes(plan.steps[i]) && !pd.allowWrites;
    if BeyondBudget(mode, pd, i) then Some(ContinuedAsNew(i))
    else if mustAsk && env.approvals == [] then Some(AwaitingApproval(i))
    else if mustAsk && !env.approvals[0] then Some(Rejected(i))
    else if step.stopOnErr && Fault(env, pd, step, n, i).Some? then
      Some(StepFailed(i, Fault(env, pd, step, n, i).value))
    else None
  }

  /** The first obstacle from step `i` on; the number of steps if there is none. */
  function FirstObstacle(env: Env, mode: Mode, pd: PolicyDecision, plan: Plan, n: nat, i: nat): (k: nat)
    requires i <= |plan.steps|
    ensures i <= k <= |plan.steps|
    ensures forall j :: i <= j < k ==> Obstacle(env, mode, pd, plan, n, j) == None
    ensures k < |plan.steps| ==> Obstacle(env, mode, pd, plan, n, k).Some?
    decreases |plan.steps| - i
  {
    if i < |plan.steps| && Obstacle(env, mode, pd, plan, n, i) == None
    then FirstObstacle(env, mode, pd, plan, n, i + 1) else i
  }

  // ---------- what a step leaves ----------

  function NoteKey(mode: Mode, step: PlanStep, n: nat, failed: bool): string {
    (if failed then "step_error_" else if mode.Single? then "step_out_" else "step_result_") + step.stepId
    + if mode.Single? then "" else "_iter_" + Decimal(n)
  }

  function NoteOf(env: Env, pd: PolicyDecision, step: PlanStep, n: nat, i: nat): Value {
    match Fault(env, pd, step, n, i)
    case Some(err) => Text(err)
    case None => match env.server(n, i) case Success(out) => Output(out) case Failure(_) => Approved
  }

  /** The evidence `e` and the outcomes of the first `m` steps. */
  function Outcomes(env: Env, mode: Mode, pd: PolicyDecision, plan: Plan, n: nat, e: map<string, Value>, m: nat):
      map<string, Value>
    requires m <= |plan.steps|
  {
    if m == 0 then e
    else
      var step := plan.steps[m - 1];
      Outcomes(env, mode, pd, plan, n, e, m - 1)[
        NoteKey(mode, step, n, Fault(env, pd, step, n, m - 1).Some?) := NoteOf(env, pd, step, n, m - 1)]
  }

  /** The CallTool activities, in order. */
  function CallsIn(events: seq<Event>): seq<(nat, nat)> {
    if events == [] then []
    else
      var e := events[|events| - 1];
      CallsIn(events[..|events| - 1]) + if e.CallStarted? then [(e.n, e.i)] else []
  }

  function UpTo(n: nat, m: nat): seq<(nat, nat)> {
    if m == 0 then [] else UpTo(n, m - 1) + [(n, m - 1)]
  }

  lemma CallsSnoc(events: seq<Event>, e: Event)
    ensures CallsIn(events + [e]) == CallsIn(events) + if e.CallStarted? then [(e.n, e.i)] else []
  {
    assert (events + [e])[..|events|] == events;
  }

  /** Step `i` takes the approval when it is reached and none was taken before. */
  predicate Takes(env: Env, mode: Mode, pd: PolicyDecision, step: PlanStep, i: nat) {
    Writes(step) && !pd.allowWrites && env.approvals != [] && !BeyondBudget(mode, pd, i)
  }

  /** `r` is a run that has met no obstacle: the approval, if it took one, was granted. */
  ghost predicate Unobstructed(env: Env, mode: Mode, pd: PolicyDecision, r: Run) {
    && r.ending == Running && r.pos <= 1
    && (r.pos == 1 ==> env.approvals != [] && env.approvals[0] && !pd.allowWrites)
    && (r.allowWrites <==> pd.allowWrites || r.pos == 1)
    && ("approval" in r.evidence <==> mode.Single? && r.pos == 1)
    && ("approval" in r.evidence ==> r.evidence["approval"] == Approved)
  }

  const APPROVAL := "approval"

  /** What one step makes of a run that met no obstacle yet. */
  ghost predicate Meets(env: Env, mode: Mode, pd: PolicyDecision, plan: Plan, n: nat, r: Run, i: nat, t: Run)
    requires i < |plan.steps|
  {
    var step, ob := plan.steps[i], Obstacle(env, mode, pd, plan, n, i);
    var called := ob == None || ob.value.StepFailed?;
    && t.ending == (match ob case Some(e) => e case None => Running)
    && t.pos == (if Takes(env, mode, pd, step, i) then 1 else r.pos)
    && (ob == None ==> Unobstructed(env, mode, pd, t) && (t.clean <==> r.clean && Fault(env, pd, step, n, i) == None))
    && CallsIn(t.events) == CallsIn(r.events) + (if called then [(n, i)] else [])
    && t.toolCalls == r.toolCalls + 1
    && (APPROVAL in t.evidence <==> mode.Single? && t.pos == 1 && env.approvals != [] && env.approvals[0])
    && t.evidence - {APPROVAL} ==
       if ob == None
       then (r.evidence - {APPROVAL})[
              NoteKey(mode, step, n, Fault(env, pd, step, n, i).Some?) := NoteOf(env, pd, step, n, i)]
       else r.evidence - {APPROVAL}
  }

  lemma NoteKeyIsNotApproval(mode: Mode, step: PlanStep, n: nat, failed: bool)
    ensures NoteKey(mode, step, n, failed) != APPROVAL
    ensures NoteKey(mode, step, n, false) == OutKey(mode, step, n)
    ensures NoteKey(mode, step, n, true) == ErrorKey(mode, step, n)
  {
    assert NoteKey(mode, step, n, failed)[0] == 's' && APPROVAL[0] == 'a';
    assert ("step_out_" + step.stepId) + "" == "step_out_" + step.stepId;
    assert ("step_error_" + step.stepId) + "" == "step_error_" + step.stepId;
    var out, err := "step_result_" + step.stepId, "step_error_" + step.stepId;
    assert out + ("_iter_" + Decimal(n)) == out + "_iter_" + Decimal(n);
    assert err + ("_iter_" + Decimal(n)) == err + "_iter_" + Decimal(n);
  }

  /** The call itself, made with permission to write if the step needs it. */
  lemma CallMeets(env: Env, mode: Mode, pd: PolicyDecision, step: PlanStep, n: nat, i: nat, r: Run)
    requires Writes(step) ==> r.allowWrites
    ensures var t, fault := Call(env, mode, pd, step, n, i, r), Fault(env, pd, step, n, i);
      && t.pos == r.pos && t.allowWrites == r.allowWrites && t.toolCalls == r.toolCalls
      && CallsIn(t.events) == CallsIn(r.events) + [(n, i)]
      && (fault.Some? && step.stopOnErr ==> t.ending == StepFailed(i, fault.value) && t.evidence == r.evidence)
      && (!(fault.Some? && step.stopOnErr) ==>
            && t.ending == r.ending && (t.clean <==> r.clean && fault == None)
            && t.evidence == r.evidence[NoteKey(mode, step, n, fault.Some?) := NoteOf(env, pd, step, n, i)])
  {
    hide CallsIn, NoteKey, OutKey, ErrorKey, GateError;
    SamePermission(step, pd, r.allowWrites, env.catalog);
    NoteKeyIsNotApproval(mode, step, n, true);
    CallsSnoc(r.events, CallStarted(n, i));
    CallsSnoc(r.events + [CallStarted(n, i)], ServerCalled(n, i));
    assert r.events + [CallStarted(n, i)] + [] == r.events + [CallStarted(n, i)];
  }

  lemma SamePermission(step: PlanStep, pd: PolicyDecision, allow: bool, catalog: PlanStep -> Option<string>)
    requires Writes(step) ==> allow
    ensures GateError(step, pd.(allowWrites := allow), catalog) == GateError(step, pd.(allowWrites := true), catalog)
  {
    hide BadTag, MissingScope;
  }

  /** `before` is the run right before the call, the approval taken if need be. */
  lemma CalledMeets(env: Env, mode: Mode, pd: PolicyDecision, plan: Plan, n: nat, r: Run, i: nat, before: Run)
    requires i < |plan.steps|
    requires var ob := Obstacle(env, mode, pd, plan, n, i); ob == None || ob.value.StepFailed?
    requires Unobstructed(env, mode, pd, before) && (Writes(plan.steps[i]) ==> before.allowWrites)
    requires before.pos == (if Takes(env, mode, pd, plan.steps[i], i) then 1 else r.pos)
    requires CallsIn(before.events) == CallsIn(r.events) && before.toolCalls == r.toolCalls + 1
    requires before.clean == r.clean && before.evidence - {APPROVAL} == r.evidence - {APPROVAL}
    ensures Meets(env, mode, pd, plan, n, r, i, Call(env, mode, pd, plan.steps[i], n, i, before))
  {
    hide Call, CallsIn, NoteKey, Fault, NoteOf;
    var step := plan.steps[i];
    CallMeets(env, mode, pd, step, n, i, before);
    NoteKeyIsNotApproval(mode, step, n, Fault(env, pd, step, n, i).Some?);
    var key, v := NoteKey(mode, step, n, Fault(env, pd, step, n, i).Some?), NoteOf(env, pd, step, n, i);
    assert before.evidence[key := v] - {APPROVAL} == (before.evidence - {APPROVAL})[key := v];
  }

  /** A step that is not called: beyond the budget, or its approval does not come or is refused. */
  lemma StoppedMeets(env: Env, mode: Mode, pd: PolicyDecision, plan: Plan, n: nat, r: Run, i: nat)
    requires i < |plan.steps| && Unobstructed(env, mode, pd, r) && (mode.Single? ==> r.toolCalls == i)
    requires BeyondBudget(mode, pd, i) ||
      (Writes(plan.steps[i]) && !pd.allowWrites && (env.approvals == [] || !env.approvals[0]))
    ensures Meets(env, mode, pd, plan, n, r, i, DoStep(env, mode, pd, plan, n, r, i))
  {
    hide Call, CallsIn, NoteKey, Fault, NoteOf;
    CallsSnoc(r.events, ApprovalTaken(r.pos, n, i));
  }

  lemma ApprovedMeets(env: Env, mode: Mode, pd: PolicyDecision, plan: Plan, n: nat, r: Run, i: nat)
    requires i < |plan.steps| && Unobstructed(env, mode, pd, r) && !BeyondBudget(mode, pd, i)
    requires Writes(plan.steps[i]) && !r.allowWrites && env.approvals != [] && env.approvals[0]
    ensures var before := r.(toolCalls := r.toolCalls + 1, pos := r.pos + 1,
                             events := r.events + [ApprovalTaken(r.pos, n, i)], allowWrites := true,
                             evidence := if mode.Single? then r.evidence[APPROVAL := Approved] else r.evidence);
            Meets(env, mode, pd, plan, n, r, i, Call(env, mode, pd, plan.steps[i], n, i, before))
  {
    hide Call, CallsIn, NoteKey, Fault, NoteOf, Meets;
    CallsSnoc(r.events, ApprovalTaken(r.pos, n, i));
    var noted := if mode.Single? then r.evidence[APPROVAL := Approved] else r.evidence;
    assert noted - {APPROVAL} == r.evidence - {APPROVAL};
    CalledMeets(env, mode, pd, plan, n, r, i,
                r.(toolCalls := r.toolCalls + 1, pos := r.pos + 1,
                   events := r.events + [ApprovalTaken(r.pos, n, i)], allowWrites := true, evidence := noted));
  }

  lemma StepMeets(env: Env, mode: Mode, pd: PolicyDecision, plan: Plan, n: nat, r: Run, i: nat)
    requires i < |plan.steps| && Unobstructed(env, mode, pd, r) && (mode.Single? ==> r.toolCalls == i)
    ensures Meets(env, mode, pd, plan, n, r, i, DoStep(env, mode, pd, plan, n, r, i))
  {
    hide Call, CallsIn, NoteKey, Fault, NoteOf, Meets;
    var step := plan.steps[i];
    if BeyondBudget(mode, pd, i) || (Writes(step) && !pd.allowWrites && (env.approvals == [] || !env.approvals[0])) {
      StoppedMeets(env, mode, pd, plan, n, r, i);
    } else if Writes(step) && !r.allowWrites {
      ApprovedMeets(env, mode, pd, plan, n, r, i);
    } else {
      CalledMeets(env, mode, pd, plan, n, r, i, r.(toolCalls := r.toolCalls + 1));
    }
  }

  // ---------- a whole pass ----------

  /** The run from `r` after a whole pass over the plan, `k` being its first obstacle. */
  ghost predicate Passed(env: Env, mode: Mode, pd: PolicyDecision, plan: Plan, n: nat, r: Run, k: nat, t: Run)
    requires k <= |plan.steps|
  {
    var ob := if k < |plan.steps| then Obstacle(env, mode, pd, plan, n, k) else None;
    && t.ending == (match ob case Some(e) => e case None => Running)
    && (ob == None ==>
          && Unobstructed(env, mode, pd, t)
          && (t.clean <==> r.clean && forall i :: 0 <= i < k ==> Fault(env, pd, plan.steps[i], n, i) == None))
    && CallsIn(t.events) == CallsIn(r.events) + UpTo(n, if ob.Some? && ob.value.StepFailed? then k + 1 else k)
    && (t.pos == 1 <==>
          r.pos == 1 || exists i :: 0 <= i <= k && i < |plan.steps| && Takes(env, mode, pd, plan.steps[i], i))
    && t.pos <= 1
    && (APPROVAL in t.evidence <==> mode.Single? && t.pos == 1 && env.approvals != [] && env.approvals[0])
    && t.evidence - {APPROVAL} == Outcomes(env, mode, pd, plan, n, r.evidence - {APPROVAL}, k)
  }

  /** A pass that met no obstacle in `k` steps. */
  ghost predicate Free(env: Env, mode: Mode, pd: PolicyDecision, plan: Plan, n: nat, r: Run, k: nat, t: Run)
    requires k <= |plan.steps|
  {
    && Unobstructed(env, mode, pd, t) && t.toolCalls == r.toolCalls + k
    && (t.clean <==> r.clean && forall i :: 0 <= i < k ==> Fault(env, pd, plan.steps[i], n, i) == None)
    && CallsIn(t.events) == CallsIn(r.events) + UpTo(n, k)
    && (t.pos == 1 <==> r.pos == 1 || exists i :: 0 <= i < k && Takes(env, mode, pd, plan.steps[i], i))
    && t.evidence - {APPROVAL} == Outcomes(env, mode, pd, plan, n, r.evidence - {APPROVAL}, k)
  }

  /** As long as no obstacle is met. */
  lemma {:induction false} UnobstructedPass(env: Env, mode: Mode, pd: PolicyDecision, plan: Plan, n: nat, r: Run,
                                            k: nat)
    requires k <= |plan.steps| && Unobstructed(env, mode, pd, r) && (mode.Single? ==> r.toolCalls == 0)
    requires forall j :: 0 <= j < k ==> Obstacle(env, mode, pd, plan, n, j) == None
    ensures Free(env, mode, pd, plan, n, r, k, Steps(env, mode, pd, plan, n, r, k))
  {
    hide DoStep, CallsIn, NoteKey, Fault, NoteOf, Obstacle, Takes;
    if k > 0 {
      UnobstructedPass(env, mode, pd, plan, n, r, k - 1);
      StepMeets(env, mode, pd, plan, n, Steps(env, mode, pd, plan, n, r, k - 1), k - 1);
    } else {
      assert CallsIn(r.events) + UpTo(n, 0) == CallsIn(r.events);
    }
  }

  lemma ObstaclesEnd(env: Env, mode: Mode, pd: PolicyDecision, plan: Plan, n: nat, i: nat)
    requires i < |plan.steps| && Obstacle(env, mode, pd, plan, n, i).Some?
    ensures var e := Obstacle(env, mode, pd, plan, n, i).value;
            e != Running && e != Completed && e != CompletedWithRetries
  {
  }

  lemma FreePassed(env: Env, mode: Mode, pd: PolicyDecision, plan: Plan, n: nat, r: Run, t: Run)
    requires Free(env, mode, pd, plan, n, r, |plan.steps|, t)
    ensures Passed(env, mode, pd, plan, n, r, |plan.steps|, t)
  {
    hide CallsIn, Fault, Obstacle, Takes, Outcomes;
  }

  lemma MetPassed(env: Env, mode: Mode, pd: PolicyDecision, plan: Plan, n: nat, r: Run, k: nat, t: Run, u: Run)
    requires k < |plan.steps| && Free(env, mode, pd, plan, n, r, k, t) && Meets(env, mode, pd, plan, n, t, k, u)
    requires Obstacle(env, mode, pd, plan, n, k).Some?
    ensures Passed(env, mode, pd, plan, n, r, k, u)
  {
    hide CallsIn, Fault, Obstacle, Takes, Outcomes, NoteOf, NoteKey;
    assert CallsIn(r.events) + UpTo(n, k) + [(n, k)] == CallsIn(r.events) + UpTo(n, k + 1);
  }

  lemma PassMeets(env: Env, mode: Mode, pd: PolicyDecision, plan: Plan, n: nat, r: Run)
    requires Unobstructed(env, mode, pd, r) && (mode.Single? ==> r.toolCalls == 0)
    ensures Passed(env, mode, pd, plan, n, r, FirstObstacle(env, mode, pd, plan, n, 0),
                   Steps(env, mode, pd, plan, n, r, |plan.steps|))
  {
    hide DoStep, Obstacle, Passed;
    var k := FirstObstacle(env, mode, pd, plan, n, 0);
    UnobstructedPass(env, mode, pd, plan, n, r, k);
    var t := Steps(env, mode, pd, plan, n, r, k);
    if k < |plan.steps| {
      hide CallsIn, Fault, Outcomes, NoteOf, NoteKey, Takes;
      ObstaclesEnd(env, mode, pd, plan, n, k);
      StepMeets(env, mode, pd, plan, n, t, k);
      MetPassed(env, mode, pd, plan, n, r, k, t, DoStep(env, mode, pd, plan, n, t, k));
      EndedStepsStay(env, mode, pd, plan, n, r, k + 1, |plan.steps|);
    } else {
      FreePassed(env, mode, pd, plan, n, r, t);
    }
  }

  // ---------- IncidentWorkflow ----------

  function Judged(pd: PolicyDecision): Run {
    NOTHING.(allowWrites := pd.allowWrites, evidence := map["policy" := PolicyValue(pd)])
  }

  function WithPlan(pd: PolicyDecision, plan: Plan): Run {
    Judged(pd).(evidence := Judged(pd).evidence["plan" := PlanValue(plan)])
  }

  ghost predicate IncidentFits(env: Env, r: Run) {
    match env.policy
    case Failure(err) => r == NOTHING.(ending := PolicyFailed(err))
    case Success(pd) =>
      if !pd.allowed then r == Judged(pd).(ending := Denied)
      else
        match env.getPlan(0)
        case Failure(err) => r == Judged(pd).(ending := PlanFailed(err))
        case Success(plan) =>
          var k := FirstObstacle(env, Single, pd, plan, 0, 0);
          && (r.ending == Completed <==> k == |plan.steps|)
          && Passed(env, Single, pd, plan, 0, WithPlan(pd, plan), k,
                    r.(ending := if r.ending == Completed then Running else r.ending))
  }

  /**
   How every round of IncidentWorkflow ends, and what it leaves. Without a policy, permission or a plan it
   ends at once and calls nothing. With them it calls the steps in order up to the first obstacle: the end
   of the budget, an approval that is missing or refused, or a failing step marked to stop, which is the
   ending. It completes exactly when there is none. The evidence is policy, plan, the outcome of each step
   passed under the key that outcome calls for, and the approval if one was granted; one was received
   exactly when a step that writes was reached without permission.
   */
  lemma IncidentEnds(env: Env)
    ensures IncidentFits(env, IncidentRun(env))
  {
    hide Steps, CallsIn, Passed, Obstacle;
    if env.policy.Success? && env.policy.value.allowed && env.getPlan(0).Success? {
      var pd, plan := env.policy.value, env.getPlan(0).value;
      var start := WithPlan(pd, plan);
      assert APPROVAL[0] == 'a' && "plan"[0] == 'p' && "policy"[0] == 'p';
      PassMeets(env, Single, pd, plan, 0, start);
      var t := Steps(env, Single, pd, plan, 0, start, |plan.steps|);
      PassedEnding(env, Single, pd, plan, 0, start, t);
      assert t.ending == Running ==> t.(ending := Completed).(ending := Running) == t;
    }
  }

  lemma PassedEnding(env: Env, mode: Mode, pd: PolicyDecision, plan: Plan, n: nat, r: Run, t: Run)
    requires Passed(env, mode, pd, plan, n, r, FirstObstacle(env, mode, pd, plan, n, 0), t)
    ensures t.ending == Running <==> FirstObstacle(env, mode, pd, plan, n, 0) == |plan.steps|
    ensures t.ending != Completed && t.ending != CompletedWithRetries
    ensures t.ending == Running ==> Unobstructed(env, mode, pd, t)
  {
    hide Obstacle, CallsIn, Outcomes, Takes;
    var k := FirstObstacle(env, mode, pd, plan, n, 0);
    if k < |plan.steps| {
      ObstaclesEnd(env, mode, pd, plan, n, k);
    }
  }

  // ---------- IncidentWorkflowIterative ----------

  /** How iteration `n` ends the workflow, if it is reached: no plan, an obstacle, or a pass without a failed step. */
  function IterationEnds(env: Env, pd: PolicyDecision, n: nat): Option<Ending> {
    match env.getPlan(n)
    case Failure(err) => Some(PlanFailed(err))
    case Success(plan) =>
      var k := FirstObstacle(env, Iterative, pd, plan, n, 0);
      if k < |plan.steps| then Obstacle(env, Iterative, pd, plan, n, k)
      else if forall i :: 0 <= i < |plan.steps| ==> Fault(env, pd, plan.steps[i], n, i) == None then Some(Completed)
      else None
  }

  /** The outcomes of the first `m` iterations, each as far as it got. */
  function OutcomesUpTo(env: Env, pd: PolicyDecision, m: nat): map<string, Value> {
    if m == 0 then map["policy" := PolicyValue(pd)]
    else
      match env.getPlan(m)
      case Failure(_) => OutcomesUpTo(env, pd, m - 1)
      case Success(plan) =>
        Outcomes(env, Iterative, pd, plan, m, OutcomesUpTo(env, pd, m - 1),
                 FirstObstacle(env, Iterative, pd, plan, m, 0))
  }

  /** The calls of the first `m` iterations. */
  function CallsUpTo(env: Env, pd: PolicyDecision, m: nat): seq<(nat, nat)> {
    if m == 0 then []
    else
      match env.getPlan(m)
      case Failure(_) => CallsUpTo(env, pd, m - 1)
      case Success(plan) =>
        var k := FirstObstacle(env, Iterative, pd, plan, m, 0);
        CallsUpTo(env, pd, m - 1) +
        UpTo(m, if k < |plan.steps| && Obstacle(env, Iterative, pd, plan, m, k).value.StepFailed? then k + 1 else k)
  }

  ghost predicate AfterIterations(env: Env, pd: PolicyDecision, n: nat, m: nat, r: Run) {
    && m <= n && (r.ending == Running <==> forall j :: 1 <= j <= n ==> IterationEnds(env, pd, j) == None)
    && (r.ending == Running ==> m == n && Unobstructed(env, Iterative, pd, r))
    && (r.ending != Running ==>
          && 1 <= m && IterationEnds(env, pd, m) == Some(r.ending)
          && forall j :: 1 <= j < m ==> IterationEnds(env, pd, j) == None)
    && APPROVAL !in r.evidence && r.evidence == OutcomesUpTo(env, pd, m) && CallsIn(r.events) == CallsUpTo(env, pd, m)
  }

  lemma IterationPass(env: Env, pd: PolicyDecision, n: nat, plan: Plan, start: Run)
    requires env.getPlan(n) == Success(plan) && Unobstructed(env, Iterative, pd, start) && start.clean
    ensures var t := Steps(env, Iterative, pd, plan, n, start, |plan.steps|);
      var k := FirstObstacle(env, Iterative, pd, plan, n, 0);
      && t.evidence == Outcomes(env, Iterative, pd, plan, n, start.evidence, k) && APPROVAL !in t.evidence
      && CallsIn(t.events) == CallsIn(start.events) +
         UpTo(n, if k < |plan.steps| && Obstacle(env, Iterative, pd, plan, n, k).value.StepFailed? then k + 1 else k)
      && IterationEnds(env, pd, n) ==
         (if t.ending != Running then Some(t.ending) else if t.clean then Some(Completed) else None)
      && (t.ending == Running ==> Unobstructed(env, Iterative, pd, t))
  {
    hide Steps, CallsIn, Obstacle, Fault, Outcomes, Takes, Unobstructed;
    var t := Steps(env, Iterative, pd, plan, n, start, |plan.steps|);
    PassMeets(env, Iterative, pd, plan, n, start);
    PassedEnding(env, Iterative, pd, plan, n, start, t);
    NoApprovalNoted(env, pd, start);
    assert start.evidence - {APPROVAL} == start.evidence && t.evidence - {APPROVAL} == t.evidence;
  }

  lemma NoApprovalNoted(env: Env, pd: PolicyDecision, r: Run)
    requires Unobstructed(env, Iterative, pd, r)
    ensures APPROVAL !in r.evidence && r.ending == Running
  {
  }

  lemma OneIteration(env: Env, pd: PolicyDecision, n: nat, before: Run)
    requires n >= 1 && before.ending == Running && AfterIterations(env, pd, n - 1, n - 1, before)
    requires before == Iterations(env, pd, n - 1)
    ensures AfterIterations(env, pd, n, n, Iterations(env, pd, n))
  {
    hide Steps, CallsIn, Obstacle, Outcomes, Unobstructed, IterationEnds;
    match env.getPlan(n)
    case Failure(err) =>
      NoPlanEnds(env, pd, n);
    case Success(plan) =>
      SameButClean(env, pd, before);
      IterationPass(env, pd, n, plan, before.(clean := true));
      CompletedIsNotRunning(env, pd, n);
  }

  lemma SameButClean(env: Env, pd: PolicyDecision, r: Run)
    requires Unobstructed(env, Iterative, pd, r)
    ensures Unobstructed(env, Iterative, pd, r.(clean := true))
  {
  }

  lemma NoPlanEnds(env: Env, pd: PolicyDecision, n: nat)
    ensures env.getPlan(n).Failure? ==> IterationEnds(env, pd, n) == Some(PlanFailed(env.getPlan(n).error))
  {
  }

  lemma CompletedIsNotRunning(env: Env, pd: PolicyDecision, n: nat)
    ensures IterationEnds(env, pd, n) != Some(Running)
  {
    hide Fault, Outcomes;
  }

  lemma {:induction false} IterationsMeet(env: Env, pd: PolicyDecision, n: nat)
    ensures exists m: nat :: AfterIterations(env, pd, n, m, Iterations(env, pd, n))
  {
    hide Steps, CallsIn, Obstacle, Outcomes, Unobstructed, IterationEnds, AfterIterations;
    if n == 0 {
      NothingIterated(env, pd);
    } else {
      IterationsMeet(env, pd, n - 1);
      var before := Iterations(env, pd, n - 1);
      var m: nat :| AfterIterations(env, pd, n - 1, m, before);
      if before.ending == Running {
        RunningIsUpToDate(env, pd, n - 1, m, before);
        OneIteration(env, pd, n, before);
      } else {
        EndedIsUpToDate(env, pd, n, m, before);
        assert Iterations(env, pd, n) == before;
      }
    }
  }

  lemma NothingIterated(env: Env, pd: PolicyDecision)
    ensures AfterIterations(env, pd, 0, 0, Iterations(env, pd, 0))
  {
    assert APPROVAL[0] == 'a' && "policy"[0] == 'p';
  }

  lemma RunningIsUpToDate(env: Env, pd: PolicyDecision, n: nat, m: nat, r: Run)
    requires AfterIterations(env, pd, n, m, r) && r.ending == Running
    ensures m == n
  {
  }

  lemma EndedIsUpToDate(env: Env, pd: PolicyDecision, n: nat, m: nat, r: Run)
    requires n >= 1 && AfterIterations(env, pd, n - 1, m, r) && r.ending != Running
    ensures AfterIterations(env, pd, n, m, r)
  {
    hide IterationEnds, Unobstructed, CallsIn;
  }

  /** A run without an ending of its own counts as completed with retries. */
  function OfItsOwn(r: Run): Run {
    if r.ending == CompletedWithRetries then r.(ending := Running) else r
  }

  ghost predicate IterativeFits(env: Env, r: Run) {
    match env.policy
    case Failure(err) => r == NOTHING.(ending := PolicyFailed(err))
    case Success(pd) =>
      if !pd.allowed then r == NOTHING.(ending := Denied)
      else
        exists m: nat :: AfterIterations(env, pd, 3, m, OfItsOwn(r))
  }

  /**
   How every run of IncidentWorkflowIterative ends, and what it leaves. A denied policy ends it at once: no
   plan, no call, no approval. Otherwise the first of three iterations that has an ending decides: the
   agent has no plan, the pass meets an obstacle, or every step of it succeeded, which completes the run.
   If each of the three passes went through with some failed step the run is completed with retries. The
   evidence is the policy and the outcomes of all iterations up to that one, the calls are theirs.
   */
  lemma IterativeEnds(env: Env)
    ensures IterativeFits(env, IterativeRun(env))
  {
    hide Iterations, AfterIterations;
    if env.policy.Success? && env.policy.value.allowed {
      var pd := env.policy.value;
      IterationsMeet(env, pd, MAX_ITERATIONS);
      var r := Iterations(env, pd, MAX_ITERATIONS);
      var m: nat :| AfterIterations(env, pd, MAX_ITERATIONS, m, r);
      RetriesAreNoEnding(env, pd, m, r);
      assert OfItsOwn(IterativeRun(env)) == r;
    }
  }

  lemma RetriesAreNoEnding(env: Env, pd: PolicyDecision, m: nat, r: Run)
    requires AfterIterations(env, pd, MAX_ITERATIONS, m, r)
    ensures r.ending != CompletedWithRetries
  {
    hide Outcomes, Fault, CallsIn;
    if r.ending != Running && env.getPlan(m).Success? {
      var plan := env.getPlan(m).value;
      var k := FirstObstacle(env, Iterative, pd, plan, m, 0);
      if k < |plan.steps| {
        ObstaclesEnd(env, Iterative, pd, plan, m, k);
      }
    }
  }

  /** Keys of different iterations differ, and so do those of different steps or outcomes of one. */
  lemma IterativeKeysDiffer(s: PlanStep, m: nat, failed: bool, t: PlanStep, n: nat, failed': bool)
    requires NoteKey(Iterative, s, m, failed) == NoteKey(Iterative, t, n, failed')
    ensures m == n && s.stepId == t.stepId && failed == failed'
  {
    var a, b := NoteKey(Iterative, s, m, failed), NoteKey(Iterative, t, n, failed');
    var x, y := Decimal(m), Decimal(n);
    assert "_iter_"[5] == '_' && !IsDigit('_');
    assert a[|a| - |x|..] == x && b[|b| - |y|..] == y;
    assert a[|a| - |x| - 1] == '_' && b[|b| - |y| - 1] == '_';
    assert x == y;
    DecimalIsInjective(m, n);
    assert "step_error_"[5] == 'e' && "step_result_"[5] == 'r';
    assert a[5] == if failed then 'e' else 'r';
    assert b[5] == if failed' then 'e' else 'r';
    var k := if failed then 11 else 12;
    assert a[k..|a| - |x| - 6] == s.stepId && b[k..|b| - |y| - 6] == t.stepId;
  }

  // ---------- Orchestrator.Run ----------

  /** What keeps step `i`, if Orchestrator.Run reaches it, from being the step before the next. */
  ghost predicate Stops(env: Env, pd: PolicyDecision, plan: Plan, i: nat, e: Ending)
    requires i < |plan.steps|
  {
    var step, inTime := plan.steps[i], env.elapsed(i) <= pd.maxSeconds * 1_000_000_000;
    var mayWrite := Writes(step) ==> pd.allowWrites;
    if i >= pd.maxToolCalls then e == BudgetExceeded(i)
    else if !inTime then e == TimeExceeded(i)
    else if !mayWrite then e == NeedsApproval(i)
    else if !TagsPass(step, pd) then e == TagsBlocked(i)
    else if !ScopesPass(step, pd) then
      exists k: nat ::
        k < |step.scopes| && IsFirstMissing(step.scopes, pd.scopes, k) && e == ScopeMissing(i, step.scopes[k])
    else step.stopOnErr && env.server(0, i).Failure? && e == StepFailed(i, env.server(0, i).error)
  }

  /** The evidence `e` and the answers to the first `m` steps. */
  function AnswersTo(env: Env, plan: Plan, e: map<string, Value>, m: nat): map<string, Value>
    requires m <= |plan.steps|
  {
    if m == 0 then e
    else
      AnswersTo(env, plan, e, m - 1)[
        NoteKey(Single, plan.steps[m - 1], 0, env.server(0, m - 1).Failure?) :=
          match env.server(0, m - 1) case Success(out) => Output(out) case Failure(err) => Text(err)]
  }

  /** The requests to the tool server, in order. */
  function ServedIn(events: seq<Event>): seq<(nat, nat)> {
    if events == [] then []
    else
      var e := events[|events| - 1];
      ServedIn(events[..|events| - 1]) + if e.ServerCalled? then [(e.n, e.i)] else []
  }

  lemma ServedSnoc(events: seq<Event>, e: Event)
    ensures ServedIn(events + [e]) == ServedIn(events) + if e.ServerCalled? then [(e.n, e.i)] else []
  {
    assert (events + [e])[..|events|] == events;
  }

  /** After `k` steps of which none stopped the run. */
  ghost predicate Orchestrated(env: Env, pd: PolicyDecision, plan: Plan, k: nat, r: Run)
    requires k <= |plan.steps|
  {
    && r.ending == Running && r.toolCalls == k && r.pos == 0
    && ServedIn(r.events) == UpTo(0, k)
    && r.evidence == AnswersTo(env, plan, map["policy" := PolicyValue(pd)], k)
  }

  ghost predicate NothingStops(env: Env, pd: PolicyDecision, plan: Plan, i: nat)
    requires i < |plan.steps|
  {
    forall e :: !Stops(env, pd, plan, i, e)
  }

  /** Stopped at step `k`: called if it failed, not otherwise. */
  ghost predicate StoppedAt(env: Env, pd: PolicyDecision, plan: Plan, k: nat, r: Run)
    requires k < |plan.steps|
  {
    && Stops(env, pd, plan, k, r.ending) && r.pos == 0
    && ServedIn(r.events) == UpTo(0, if r.ending.StepFailed? then k + 1 else k)
    && r.evidence == AnswersTo(env, plan, map["policy" := PolicyValue(pd)], k)
  }

  ghost predicate StoppedFirst(env: Env, pd: PolicyDecision, plan: Plan, k: nat, r: Run)
    requires k < |plan.steps|
  {
    StoppedAt(env, pd, plan, k, r) && forall j :: 0 <= j < k ==> NothingStops(env, pd, plan, j)
  }

  lemma OrchestratorStepMeets(env: Env, pd: PolicyDecision, plan: Plan, r: Run, i: nat)
    requires i < |plan.steps| && Orchestrated(env, pd, plan, i, r)
    ensures var t := OrchestratorStep(env, pd, plan, r, i);
      if t.ending == Running then NothingStops(env, pd, plan, i) && Orchestrated(env, pd, plan, i + 1, t)
      else StoppedAt(env, pd, plan, i, t)
  {
    hide BadTag, MissingScope, OutKey, ErrorKey, NoteKey, ServedIn;
    var step := plan.steps[i];
    BadTagIff(step.tags, pd.toolTagAllow, 0);
    MissingScopeIff(step.scopes, pd.scopes, 0);
    if MissingScope(step.scopes, pd.scopes, 0).Some? { MissingScopeIsFirst(step.scopes, pd.scopes, 0); }
    ServedSnoc(r.events, ServerCalled(0, i));
    NoteKeyIsNotApproval(Single, step, 0, true);
  }

  lemma {:induction false} OrchestratorMeets(env: Env, pd: PolicyDecision, plan: Plan, r: Run, k: nat)
    requires k <= |plan.steps| && Orchestrated(env, pd, plan, 0, r)
    ensures var t := OrchestratorSteps(env, pd, plan, r, k);
      if t.ending == Running then
        Orchestrated(env, pd, plan, k, t) && forall i :: 0 <= i < k ==> NothingStops(env, pd, plan, i)
      else exists i: nat :: i < k && StoppedFirst(env, pd, plan, i, t)
  {
    hide OrchestratorStep, StoppedAt, NothingStops, ServedIn, AnswersTo;
    if k > 0 {
      OrchestratorMeets(env, pd, plan, r, k - 1);
      var before, t := OrchestratorSteps(env, pd, plan, r, k - 1), OrchestratorSteps(env, pd, plan, r, k);
      if before.ending == Running {
        OrchestratorStepMeets(env, pd, plan, before, k - 1);
        assert t.ending != Running ==> StoppedFirst(env, pd, plan, k - 1, t);
      } else {
        var i: nat :| i < k - 1 && StoppedFirst(env, pd, plan, i, before);
        assert t == before && StoppedFirst(env, pd, plan, i, t);
      }
    }
  }

  ghost predicate OrchestratorFits(env: Env, r: Run) {
    match env.policy
    case Failure(err) => r == NOTHING.(ending := PolicyFailed(err))
    case Success(pd) =>
      if !pd.allowed then r == Judged(pd).(ending := Denied)
      else
        match env.getPlan(0)
        case Failure(err) => r == Judged(pd).(ending := PlanFailed(err))
        case Success(plan) =>
          if r.ending == Completed then
            && (forall i :: 0 <= i < |plan.steps| ==> NothingStops(env, pd, plan, i))
            && Orchestrated(env, pd, plan, |plan.steps|, r.(ending := Running))
          else
            exists k: nat :: k < |plan.steps| && StoppedFirst(env, pd, plan, k, r)
  }

  /**
   How every run of Orchestrator.Run ends, and what it leaves. Without a policy, permission or a plan it
   ends at once. With them it calls the steps in order up to the first one that is beyond the budget, late,
   in need of an approval, of a tag or of a scope (the first one missing), or fails and is marked to stop;
   which is the ending. It completes exactly when there is none. The evidence is the policy and the answers
   to the steps passed, each under the key it calls for.
   */
  lemma OrchestratorEnds(env: Env)
    ensures OrchestratorFits(env, OrchestratorRun(env))
  {
    hide OrchestratorSteps, NothingStops, Stops;
    if env.policy.Success? && env.policy.value.allowed && env.getPlan(0).Success? {
      var pd, plan := env.policy.value, env.getPlan(0).value;
      OrchestratorMeets(env, pd, plan, Judged(pd), |plan.steps|);
      var t := OrchestratorSteps(env, pd, plan, Judged(pd), |plan.steps|);
      if t.ending == Running {
        assert t.(ending := Completed).(ending := Running) == t;
      } else {
        StoppingIsNotCompleting(env, pd, plan, t);
      }
    }
  }

  lemma StoppingIsNotCompleting(env: Env, pd: PolicyDecision, plan: Plan, r: Run)
    requires exists k: nat :: k < |plan.steps| && StoppedFirst(env, pd, plan, k, r)
    ensures r.ending != Completed
  {
  }
}
