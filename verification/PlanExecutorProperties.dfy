/** Safety of the two workflow executors over whole runs. */
module PlanExecutorProperties {
  import opened Wrappers
  import opened PlanContracts
  import opened PlanExecutors

  // ---------- safety ----------

  ghost predicate HasStep(env: Env, n: nat, i: nat) {
    env.getPlan(n).Success? && i < |env.getPlan(n).value.steps|
  }

  function StepAt(env: Env, n: nat, i: nat): PlanStep
    requires HasStep(env, n, i)
  {
    env.getPlan(n).value.steps[i]
  }

  ghost predicate ApprovalIn(events: seq<Event>) {
    exists e :: e in events && e.ApprovalTaken?
  }

  /** Writes were allowed by the original policy, or by an approval taken earlier in the run. */
  ghost predicate WritesAllowed(env: Env, pd: PolicyDecision, before: seq<Event>) {
    pd.allowWrites || (ApprovalIn(before) && |env.approvals| > 0 && env.approvals[0])
  }

  /** What may happen next after `before`; nothing if the policy denies the task. */
  ghost predicate Lawful(env: Env, pd: PolicyDecision, before: seq<Event>, e: Event) {
    pd.allowed &&
    match e
    case ApprovalTaken(at, n, i) =>
      && HasStep(env, n, i) && "write" in StepAt(env, n, i).tags && !pd.allowWrites
      && at == 0 && !ApprovalIn(before)
    case CallStarted(n, i) =>
      HasStep(env, n, i) && ("write" in StepAt(env, n, i).tags ==> WritesAllowed(env, pd, before))
    case ServerCalled(n, i) =>
      && HasStep(env, n, i) && Permitted(StepAt(env, n, i), pd, env.catalog)
      && ("write" in StepAt(env, n, i).tags ==> WritesAllowed(env, pd, before))
      && |before| > 0 && before[|before| - 1] == CallStarted(n, i)
  }

  ghost predicate AllLawful(env: Env, pd: PolicyDecision, events: seq<Event>) {
    forall k :: 0 <= k < |events| ==> Lawful(env, pd, events[..k], events[k])
  }

  /** No permitted call is held back: each one started goes straight to the server. */
  ghost predicate NoneHeldBack(env: Env, pd: PolicyDecision, events: seq<Event>) {
    forall k ::
      (&& 0 <= k < |events| && events[k].CallStarted? && HasStep(env, events[k].n, events[k].i)
       && Permitted(StepAt(env, events[k].n, events[k].i), pd, env.catalog))
      ==> k + 1 < |events| && events[k + 1] == ServerCalled(events[k].n, events[k].i)
  }

  function CallsStarted(events: seq<Event>): nat {
    if events == [] then 0
    else CallsStarted(events[..|events| - 1]) + if events[|events| - 1].CallStarted? then 1 else 0
  }

  lemma {:induction false} CallsStartedAdds(a: seq<Event>, b: seq<Event>)
    ensures CallsStarted(a + b) == CallsStarted(a) + CallsStarted(b)
  {
    if b == [] {
      assert a + b == a;
    } else {
      var front := b[..|b| - 1];
      assert (a + b)[..|a + b| - 1] == a + front;
      CallsStartedAdds(a, front);
    }
  }

  ghost predicate Safe(env: Env, pd: PolicyDecision, r: Run) {
    && pd.allowed && AllLawful(env, pd, r.events) && NoneHeldBack(env, pd, r.events)
    && r.pos <= 1 && (r.pos == 1 <==> ApprovalIn(r.events))
    && (r.pos == 1 ==> |env.approvals| > 0 && !pd.allowWrites)
    && (r.allowWrites <==> pd.allowWrites || (r.pos == 1 && env.approvals[0]))
    && (r.ending == Running && r.pos == 1 ==> env.approvals[0])
  }

  lemma LawfulSnoc(env: Env, pd: PolicyDecision, events: seq<Event>, e: Event)
    requires AllLawful(env, pd, events) && Lawful(env, pd, events, e)
    ensures AllLawful(env, pd, events + [e])
  {
    var more := events + [e];
    forall k | 0 <= k < |more| ensures Lawful(env, pd, more[..k], more[k]) {
      if k < |events| {
        assert more[..k] == events[..k];
      } else {
        assert more[..k] == events;
      }
    }
  }

  lemma HeldBackSnoc(env: Env, pd: PolicyDecision, events: seq<Event>, more: seq<Event>)
    requires NoneHeldBack(env, pd, events) && NoneHeldBack(env, pd, more)
    ensures NoneHeldBack(env, pd, events + more)
  {
    var all := events + more;
    forall k | 0 <= k < |all| && all[k].CallStarted? && HasStep(env, all[k].n, all[k].i)
               && Permitted(StepAt(env, all[k].n, all[k].i), pd, env.catalog)
      ensures k + 1 < |all| && all[k + 1] == ServerCalled(all[k].n, all[k].i)
    {
      if k < |events| {
        assert events[k] == all[k];
      } else {
        assert more[k - |events|] == all[k];
      }
    }
  }

  lemma CallEventsAreSafe(env: Env, pd: PolicyDecision, n: nat, i: nat, r: Run)
    requires HasStep(env, n, i) && Safe(env, pd, r)
    requires "write" in StepAt(env, n, i).tags ==> r.allowWrites
    ensures var reached := GateError(StepAt(env, n, i), pd.(allowWrites := r.allowWrites), env.catalog) == None;
      var events := r.events + [CallStarted(n, i)] + if reached then [ServerCalled(n, i)] else [];
      AllLawful(env, pd, events) && NoneHeldBack(env, pd, events) && (ApprovalIn(events) <==> ApprovalIn(r.events))
  {
    hide GateError, AllLawful, NoneHeldBack, Permitted;
    var step, policy := StepAt(env, n, i), pd.(allowWrites := r.allowWrites);
    GateIsExact(step, policy, env.catalog);
    PermissionIgnoresWrites(step, pd, r.allowWrites, env.catalog);
    var started := r.events + [CallStarted(n, i)];
    LawfulSnoc(env, pd, r.events, CallStarted(n, i));
    ApprovalInAdds(r.events, CallStarted(n, i));
    ApprovalInAdds(started, ServerCalled(n, i));
    if GateError(step, policy, env.catalog) == None {
      LawfulSnoc(env, pd, started, ServerCalled(n, i));
      OneCallIsNotHeldBack(env, pd, n, i, true);
      assert started + [ServerCalled(n, i)] == r.events + [CallStarted(n, i), ServerCalled(n, i)];
      HeldBackSnoc(env, pd, r.events, [CallStarted(n, i), ServerCalled(n, i)]);
    } else {
      OneCallIsNotHeldBack(env, pd, n, i, false);
      HeldBackSnoc(env, pd, r.events, [CallStarted(n, i)]);
      assert started + [] == started;
    }
  }

  lemma ApprovalInAdds(events: seq<Event>, e: Event)
    ensures ApprovalIn(events + [e]) <==> ApprovalIn(events) || e.ApprovalTaken?
  {
    assert forall x :: x in events + [e] <==> x in events || x == e;
  }

  lemma CallIsSafe(env: Env, mode: Mode, pd: PolicyDecision, n: nat, i: nat, r: Run)
    requires HasStep(env, n, i) && Safe(env, pd, r) && r.ending == Running
    requires "write" in StepAt(env, n, i).tags ==> r.allowWrites
    ensures Safe(env, pd, Call(env, mode, pd, StepAt(env, n, i), n, i, r))
  {
    hide GateError, CallResult, OutKey, ErrorKey, AllLawful, NoneHeldBack, ApprovalIn;
    CallEventsAreSafe(env, pd, n, i, r);
  }

  lemma PermissionIgnoresWrites(step: PlanStep, pd: PolicyDecision, allow: bool, catalog: PlanStep -> Option<string>)
    ensures Permitted(step, pd.(allowWrites := allow), catalog) == Permitted(step, pd, catalog)
  {
  }

  lemma OneCallIsNotHeldBack(env: Env, pd: PolicyDecision, n: nat, i: nat, reached: bool)
    requires HasStep(env, n, i)
    requires reached || !Permitted(StepAt(env, n, i), pd, env.catalog)
    ensures NoneHeldBack(env, pd, [CallStarted(n, i)] + if reached then [ServerCalled(n, i)] else [])
  {
  }

  /** Taking the first approval, granted or not, keeps the run safe; `stopped` is the ending of a refusal. */
  lemma ApprovalIsSafe(env: Env, pd: PolicyDecision, n: nat, i: nat, r: Run, evidence: map<string, Value>,
                       stopped: Ending)
    requires HasStep(env, n, i) && "write" in StepAt(env, n, i).tags
    requires Safe(env, pd, r) && r.ending == Running && !r.allowWrites && r.pos < |env.approvals| && stopped != Running
    ensures var granted := env.approvals[r.pos];
            Safe(env, pd, r.(pos := r.pos + 1, events := r.events + [ApprovalTaken(r.pos, n, i)],
                             allowWrites := granted, evidence := evidence,
                             ending := if granted then Running else stopped))
  {
    hide AllLawful, NoneHeldBack;
    var e := ApprovalTaken(r.pos, n, i);
    LawfulSnoc(env, pd, r.events, e);
    ApprovalIsNotACall(env, pd, e);
    HeldBackSnoc(env, pd, r.events, [e]);
    assert e in r.events + [e];
  }

  lemma CountIsNotSafety(env: Env, pd: PolicyDecision, r: Run, toolCalls: nat, ending: Ending)
    requires Safe(env, pd, r) && (r.ending == Running || ending != Running)
    ensures Safe(env, pd, r.(toolCalls := toolCalls, ending := ending))
  {
  }

  lemma StepIsSafe(env: Env, mode: Mode, pd: PolicyDecision, n: nat, r: Run, i: nat)
    requires HasStep(env, n, i) && Safe(env, pd, r) && r.ending == Running
    ensures Safe(env, pd, DoStep(env, mode, pd, env.getPlan(n).value, n, r, i))
  {
    hide Call, Safe;
    var step, r1 := StepAt(env, n, i), r.(toolCalls := r.toolCalls + 1);
    var ending := if OverBudget(mode, pd, r1.toolCalls) then ContinuedAsNew(i) else AwaitingApproval(i);
    CountIsNotSafety(env, pd, r, r1.toolCalls, ending);
    CountIsNotSafety(env, pd, r, r1.toolCalls, Running);
    if !OverBudget(mode, pd, r1.toolCalls) {
      if "write" in step.tags && !r.allowWrites {
        if r.pos < |env.approvals| {
          var granted := env.approvals[r.pos];
          var noted := if mode.Single? && granted then r.evidence["approval" := Approved] else r.evidence;
          ApprovalIsSafe(env, pd, n, i, r1, noted, Rejected(i));
          if granted {
            CallIsSafe(env, mode, pd, n, i,
                       r1.(pos := r.pos + 1, events := r.events + [ApprovalTaken(r.pos, n, i)],
                           allowWrites := true, evidence := noted));
          }
        }
      } else {
        CallIsSafe(env, mode, pd, n, i, r1);
      }
    }
  }

  lemma ApprovalIsNotACall(env: Env, pd: PolicyDecision, e: Event)
    requires e.ApprovalTaken?
    ensures NoneHeldBack(env, pd, [e])
  {
  }

  lemma {:induction false} StepsAreSafe(env: Env, mode: Mode, pd: PolicyDecision, n: nat, r: Run, k: nat)
    requires env.getPlan(n).Success? && k <= |env.getPlan(n).value.steps| && Safe(env, pd, r) && r.ending == Running
    ensures Safe(env, pd, Steps(env, mode, pd, env.getPlan(n).value, n, r, k))
  {
    hide DoStep, Safe;
    if k > 0 {
      StepsAreSafe(env, mode, pd, n, r, k - 1);
      var before := Steps(env, mode, pd, env.getPlan(n).value, n, r, k - 1);
      if before.ending == Running {
        StepIsSafe(env, mode, pd, n, before, k - 1);
      }
    }
  }

  lemma EndingIsNotSafety(env: Env, pd: PolicyDecision, r: Run, ending: Ending, clean: bool)
    requires Safe(env, pd, r) && (r.ending == Running || ending != Running)
    ensures Safe(env, pd, r.(ending := ending, clean := clean))
  {
  }

  // ---------- order ----------

  function Stage(e: Event): nat {
    match e case ApprovalTaken(_, _, _) => 0 case CallStarted(_, _) => 1 case ServerCalled(_, _) => 2
  }

  /** Iterations in order, the steps of each in plan order, each once: approval, call, request. */
  predicate Precedes(a: Event, b: Event) {
    a.n < b.n || (a.n == b.n && (a.i < b.i || (a.i == b.i && Stage(a) < Stage(b))))
  }

  ghost predicate InOrder(events: seq<Event>) {
    forall j, k :: 0 <= j < k < |events| ==> Precedes(events[j], events[k])
  }

  /** All events belong to steps before step `i` of iteration `n`. */
  ghost predicate UpTo(events: seq<Event>, n: nat, i: nat) {
    forall e :: e in events ==> e.n < n || (e.n == n && e.i < i)
  }

  lemma OrderSnoc(events: seq<Event>, e: Event)
    requires InOrder(events) && UpTo(events, e.n, e.i + 1) && forall x :: x in events ==> Precedes(x, e)
    ensures InOrder(events + [e]) && UpTo(events + [e], e.n, e.i + 1)
  {
  }

  lemma StepKeepsOrder(env: Env, mode: Mode, pd: PolicyDecision, plan: Plan, n: nat, r: Run, i: nat)
    requires i < |plan.steps| && InOrder(r.events) && UpTo(r.events, n, i)
    ensures var t := DoStep(env, mode, pd, plan, n, r, i); InOrder(t.events) && UpTo(t.events, n, i + 1)
  {
    hide GateError, CallResult, OutKey, ErrorKey, InOrder;
    var a, c, s := ApprovalTaken(r.pos, n, i), CallStarted(n, i), ServerCalled(n, i);
    OrderSnoc(r.events, a);
    OrderSnoc(r.events, c);
    OrderSnoc(r.events + [c], s);
    OrderSnoc(r.events + [a], c);
    OrderSnoc(r.events + [a] + [c], s);
    assert forall e: seq<Event> :: e + [] == e;
  }

  lemma {:induction false} StepsKeepOrder(env: Env, mode: Mode, pd: PolicyDecision, plan: Plan, n: nat, r: Run, k: nat)
    requires k <= |plan.steps| && InOrder(r.events) && UpTo(r.events, n, 0)
    ensures var t := Steps(env, mode, pd, plan, n, r, k); InOrder(t.events) && UpTo(t.events, n, k)
  {
    hide DoStep, InOrder;
    if k > 0 {
      StepsKeepOrder(env, mode, pd, plan, n, r, k - 1);
      StepKeepsOrder(env, mode, pd, plan, n, Steps(env, mode, pd, plan, n, r, k - 1), k - 1);
    }
  }

  lemma {:induction false} IterationsKeepOrder(env: Env, pd: PolicyDecision, n: nat)
    ensures var t := Iterations(env, pd, n); InOrder(t.events) && UpTo(t.events, n + 1, 0)
  {
    hide Steps;
    if n > 0 {
      IterationsKeepOrder(env, pd, n - 1);
      if env.getPlan(n).Success? {
        var plan, before := env.getPlan(n).value, Iterations(env, pd, n - 1);
        StepsKeepOrder(env, Iterative, pd, plan, n, before.(clean := true), |plan.steps|);
      }
    }
  }

  // ---------- the budget ----------

  /** Calls stay within the budget when there is one, whatever the plan. */
  lemma {:induction false} StepsStayInBudget(env: Env, pd: PolicyDecision, plan: Plan, n: nat, r: Run, k: nat)
    requires k <= |plan.steps| && r.ending == Running && CallsStarted(r.events) == r.toolCalls
    requires pd.maxToolCalls > 0 && r.toolCalls <= pd.maxToolCalls
    ensures var t := Steps(env, Single, pd, plan, n, r, k);
      && CallsStarted(t.events) <= pd.maxToolCalls
      && (t.ending == Running ==> CallsStarted(t.events) == t.toolCalls <= pd.maxToolCalls)
  {
    hide DoStep, CallsStarted;
    if k > 0 {
      StepsStayInBudget(env, pd, plan, n, r, k - 1);
      var before := Steps(env, Single, pd, plan, n, r, k - 1);
      if before.ending == Running {
        StepCountsItsCall(env, pd, plan, n, before, k - 1);
      }
    }
  }

  lemma StepCountsItsCall(env: Env, pd: PolicyDecision, plan: Plan, n: nat, r: Run, i: nat)
    requires i < |plan.steps| && r.ending == Running && CallsStarted(r.events) == r.toolCalls
    requires pd.maxToolCalls > 0 && r.toolCalls <= pd.maxToolCalls
    ensures var t := DoStep(env, Single, pd, plan, n, r, i);
      && CallsStarted(t.events) <= pd.maxToolCalls
      && (t.ending == Running ==> CallsStarted(t.events) == t.toolCalls <= pd.maxToolCalls)
  {
    hide GateError, CallResult, OutKey, ErrorKey, CallsStarted;
    var approval := [ApprovalTaken(r.pos, n, i)];
    var call, reached := [CallStarted(n, i)], [CallStarted(n, i), ServerCalled(n, i)];
    Counts(n, i, r.pos);
    CallsStartedAdds(r.events, approval);
    CallsStartedAdds(r.events, call);
    CallsStartedAdds(r.events, reached);
    CallsStartedAdds(r.events + approval, call);
    CallsStartedAdds(r.events + approval, reached);
    forall e: seq<Event> ensures e + [CallStarted(n, i)] + [ServerCalled(n, i)] == e + reached {}
    forall e: seq<Event> ensures e + [CallStarted(n, i)] + [] == e + call {}
  }

  lemma Counts(n: nat, i: nat, at: nat)
    ensures CallsStarted([ApprovalTaken(at, n, i)]) == 0
    ensures CallsStarted([CallStarted(n, i)]) == 1
    ensures CallsStarted([CallStarted(n, i), ServerCalled(n, i)]) == 1
  {
    assert [CallStarted(n, i), ServerCalled(n, i)][..1] == [CallStarted(n, i)];
  }

  /** IncidentWorkflow's run where it has its plan. */
  function Planned(pd: PolicyDecision, plan: Plan): Run {
    NOTHING.(allowWrites := pd.allowWrites, evidence := map["policy" := PolicyValue(pd)]["plan" := PlanValue(plan)])
  }

  lemma StepOverruns(env: Env, pd: PolicyDecision, plan: Plan, r: Run, i: nat)
    requires i < |plan.steps| && r.ending == Running
    ensures var t := DoStep(env, Single, pd, plan, 0, r, i);
      && t.toolCalls == r.toolCalls + 1 && t.ending != Completed
      && (t.ending.ContinuedAsNew? <==> OverBudget(Single, pd, t.toolCalls))
      && (t.ending.ContinuedAsNew? ==> t.ending.i == i && t.events == r.events)
  {
    hide GateError, CallResult, OutKey, ErrorKey;
  }

  lemma {:induction false} OverrunIff(env: Env, pd: PolicyDecision, plan: Plan, k: nat)
    requires k <= |plan.steps|
    ensures var max, t := pd.maxToolCalls, Steps(env, Single, pd, plan, 0, Planned(pd, plan), k);
      && (t.ending == Running ==> t.toolCalls == k && (max > 0 ==> k <= max))
      && (t.ending.ContinuedAsNew? <==>
            0 < max < k && Steps(env, Single, pd, plan, 0, Planned(pd, plan), max).ending == Running)
      && (t.ending.ContinuedAsNew? ==>
            t.ending.i == max && t.events == Steps(env, Single, pd, plan, 0, Planned(pd, plan), max).events)
      && t.ending != Completed
  {
    hide DoStep;
    if k > 0 {
      OverrunIff(env, pd, plan, k - 1);
      var before := Steps(env, Single, pd, plan, 0, Planned(pd, plan), k - 1);
      if before.ending == Running {
        StepOverruns(env, pd, plan, before, k - 1);
      }
    }
  }

  /**
   IncidentWorkflow starts over exactly when there is a positive budget, the plan is longer, and as many
   steps as the budget has calls went through; it has then made exactly that many calls. So a plan longer
   than a positive budget never completes, in however many rounds.
   */
  lemma StartsOverIff(env: Env)
    ensures var r := IncidentRun(env);
      r.ending.ContinuedAsNew? <==>
        && env.policy.Success? && env.policy.value.allowed && env.getPlan(0).Success?
        && var pd, plan := env.policy.value, env.getPlan(0).value;
           && 0 < pd.maxToolCalls < |plan.steps|
           && Steps(env, Single, pd, plan, 0, Planned(pd, plan), pd.maxToolCalls).ending == Running
    ensures var r := IncidentRun(env);
      r.ending.ContinuedAsNew? ==> CallsStarted(r.events) == r.ending.i == env.policy.value.maxToolCalls
    ensures IncidentRun(env).ending == Completed ==>
      env.policy.value.maxToolCalls > 0 ==> |env.getPlan(0).value.steps| <= env.policy.value.maxToolCalls
  {
    hide Steps;
    if env.policy.Success? && env.policy.value.allowed && env.getPlan(0).Success? {
      var pd, plan := env.policy.value, env.getPlan(0).value;
      OverrunIff(env, pd, plan, |plan.steps|);
      if 0 < pd.maxToolCalls < |plan.steps| {
        StepsStayInBudget(env, pd, plan, 0, Planned(pd, plan), pd.maxToolCalls);
        OverrunIff(env, pd, plan, pd.maxToolCalls);
      }
    }
  }

  // ---------- main results ----------

  /**
   IncidentWorkflow with CallTool, over every run, from its start or restart on: a step reaches the tool
   server only if the catalog, the original policy's scopes and its read/write tags permit it and, if it
   writes, the original policy allowed writes or an approval was taken earlier; every permitted call that
   is started reaches it; steps come in plan order, each at most once; at most one approval is consumed,
   for a step that writes; a positive budget bounds the calls started.
   */
  lemma IncidentIsSafe(env: Env)
    requires env.policy.Success?
    ensures var pd, r := env.policy.value, IncidentRun(env);
      && AllLawful(env, pd, r.events) && NoneHeldBack(env, pd, r.events) && InOrder(r.events)
      && r.pos <= 1
      && (pd.maxToolCalls > 0 ==> CallsStarted(r.events) <= pd.maxToolCalls)
  {
    hide Steps, AllLawful, NoneHeldBack;
    var pd := env.policy.value;
    NothingIsSafe(env, pd);
    if pd.allowed && env.getPlan(0).Success? {
      var plan := env.getPlan(0).value;
      var start := Planned(pd, plan);
      StepsAreSafe(env, Single, pd, 0, start, |plan.steps|);
      StepsKeepOrder(env, Single, pd, plan, 0, start, |plan.steps|);
      if pd.maxToolCalls > 0 {
        StepsStayInBudget(env, pd, plan, 0, start, |plan.steps|);
      }
    }
  }

  lemma NothingIsSafe(env: Env, pd: PolicyDecision)
    ensures AllLawful(env, pd, []) && NoneHeldBack(env, pd, [])
    ensures pd.allowed ==>
      forall evidence :: Safe(env, pd, NOTHING.(allowWrites := pd.allowWrites, evidence := evidence))
  {
  }

  lemma {:induction false} IterationsAreSafe(env: Env, pd: PolicyDecision, n: nat)
    requires pd.allowed
    ensures Safe(env, pd, Iterations(env, pd, n))
  {
    hide Steps, Safe;
    if n == 0 {
      NothingIsSafe(env, pd);
    } else {
      IterationsAreSafe(env, pd, n - 1);
      var before := Iterations(env, pd, n - 1);
      if before.ending == Running {
        match env.getPlan(n)
        case Failure(err) => EndingIsNotSafety(env, pd, before, PlanFailed(err), before.clean);
        case Success(plan) =>
          EndingIsNotSafety(env, pd, before, Running, true);
          StepsAreSafe(env, Iterative, pd, n, before.(clean := true), |plan.steps|);
          var r := Steps(env, Iterative, pd, plan, n, before.(clean := true), |plan.steps|);
          EndingIsNotSafety(env, pd, r, Completed, r.clean);
      }
    }
  }

  /** The iterative workflow keeps the same safety across its iterations: one approval serves them all. */
  lemma IterativeIsSafe(env: Env)
    requires env.policy.Success?
    ensures var pd, r := env.policy.value, IterativeRun(env);
      AllLawful(env, pd, r.events) && NoneHeldBack(env, pd, r.events) && InOrder(r.events) && r.pos <= 1
  {
    hide Iterations, AllLawful, NoneHeldBack;
    IterationsKeepOrder(env, env.policy.value, MAX_ITERATIONS);
    NothingIsSafe(env, env.policy.value);
    if env.policy.value.allowed {
      IterationsAreSafe(env, env.policy.value, MAX_ITERATIONS);
    }
  }
}
