/**
 The stop signal of AgenticLoop (internal/controlplane/temporal/agentic_loop.go): the documentation says
 it stops the loop; the code only notes it in the evidence, and no decision of the loop reads the note.
 */
module AgenticStop {
  import opened Wrappers
  import opened GoStrings
  import opened PlanContracts
  import opened Agentic

  const STOP_KEY := "stopped_by_user"

  ghost predicate SameEvidence(e: Evidence, f: Evidence) {
    forall k :: k != STOP_KEY ==> (k in e <==> k in f) && (k in e ==> e[k] == f[k])
  }

  /** Equal but for the note. */
  ghost predicate Same(s: State, t: State) {
    SameEvidence(s.evidence, t.evidence) && s == t.(evidence := s.evidence)
  }

  lemma KeysAreNotStop(n: nat, k: string)
    ensures IterationKey(n, k) != STOP_KEY
    ensures "status" != STOP_KEY && "goal_achieved" != STOP_KEY
    ensures "waiting" != STOP_KEY && "iteration_error" != STOP_KEY
  {
    assert IterationKey(n, k)[0] == 'i';
  }

  lemma StopKeyIsHarmless()
    ensures !Contains(STOP_KEY, "error") && !Contains(STOP_KEY, "unexpected")
  {
    forall i | 0 <= i <= |STOP_KEY| ensures !OccursAt(STOP_KEY, i, "error") {
      if i + 5 <= |STOP_KEY| {
        assert STOP_KEY[i..i + 5][0] == STOP_KEY[i] && STOP_KEY[i..i + 5][1] == STOP_KEY[i + 1];
        assert "error"[0] == 'e' && "error"[1] == 'r';
      }
    }
    forall i | 0 <= i <= |STOP_KEY| ensures !OccursAt(STOP_KEY, i, "unexpected") {
      if i + 10 <= |STOP_KEY| {
        assert STOP_KEY[i..i + 10][0] == STOP_KEY[i];
        assert "unexpected"[0] == 'u';
      }
    }
  }

  lemma SameChecks(e: Evidence, f: Evidence)
    requires SameEvidence(e, f)
    ensures IsGoalAchieved(e) == IsGoalAchieved(f) && ShouldRefinePlan(e) == ShouldRefinePlan(f)
  {
    KeysAreNotStop(0, "");
    StopKeyIsHarmless();
    hide Contains;
  }

  lemma SameMerge(e: Evidence, f: Evidence, n: nat, results: Evidence)
    requires SameEvidence(e, f)
    ensures SameEvidence(Merge(e, n, results), Merge(f, n, results))
  {
    hide IterationKey;
    var a, b := Merge(e, n, results), Merge(f, n, results);
    forall key | key != STOP_KEY ensures (key in a <==> key in b) && (key in a ==> a[key] == b[key]) {
      if k :| k in results && key == IterationKey(n, k) {
        assert a[key] == results[k] == b[key];
      }
    }
  }

  lemma SameRefine(env: Env, stops: nat -> seq<bool>, s: State, t: State, reason: string, needSteps: bool)
    requires Same(s, t)
    ensures Same(Refine(env, s, reason, needSteps), Refine(env.(stopSignals := stops), t, reason, needSteps))
  {
    hide SameEvidence;
  }

  lemma {:induction false} SameUserRefine(env: Env, stops: nat -> seq<bool>, s: State, t: State, signals: seq<bool>)
    requires Same(s, t)
    ensures Same(UserRefine(env, s, signals), UserRefine(env.(stopSignals := stops), t, signals))
  {
    hide Refine, Same;
    if signals != [] {
      var front := signals[..|signals| - 1];
      SameUserRefine(env, stops, s, t, front);
      SameRefine(env, stops, UserRefine(env, s, front), UserRefine(env.(stopSignals := stops), t, front),
                 USER_ASKED, false);
    }
  }

  lemma SameConclude(cfg: Config, env: Env, stops: nat -> seq<bool>, s: State, t: State, results: Evidence)
    requires Same(s, t)
    ensures var a, b := Conclude(cfg, env, s, results), Conclude(cfg, env.(stopSignals := stops), t, results);
            Same(a.0, b.0) && a.1 == b.1
  {
    hide Refine, UserRefine, SameEvidence, Merge, IsGoalAchieved, ShouldRefinePlan;
    var n := s.iteration;
    var s1 := s.(evidence := Merge(s.evidence, n, results), merged := s.merged[n := results]);
    var t1 := t.(evidence := Merge(t.evidence, n, results), merged := t.merged[n := results]);
    SameMerge(s.evidence, t.evidence, n, results);
    SameChecks(s1.evidence, t1.evidence);
    SameUserRefine(env, stops, s1, t1, env.refineSignals(n));
    var s2 := UserRefine(env, s1, env.refineSignals(n));
    var t2 := UserRefine(env.(stopSignals := stops), t1, env.refineSignals(n));
    SameChecks(s2.evidence, t2.evidence);
    SameRefine(env, stops, s2, t2, EVIDENCE_ASKED, true);
  }

  lemma SameAfterError(cfg: Config, env: Env, stops: nat -> seq<bool>, s: State, t: State, err: string)
    requires Same(s, t)
    ensures var a, b := AfterError(cfg, env, s, err), AfterError(cfg, env.(stopSignals := stops), t, err);
            Same(a.0, b.0) && a.1 == b.1
  {
    hide Conclude;
    SameConclude(cfg, env, stops, s, t, map[]);
    var note := Waiting("Iteration failed: " + err);
    if |s.feedback| < |env.feedback| {
      var more := s.feedback + [env.feedback[|s.feedback|]];
      SameConclude(cfg, env, stops, s.(evidence := s.evidence["waiting" := note], feedback := more),
                   t.(evidence := t.evidence["waiting" := note], feedback := more), map[]);
    }
  }

  lemma SameExecute(env: Env, stops: nat -> seq<bool>, n: nat, plan: Plan, policy: PolicyDecision, j: nat)
    requires j <= |plan.steps|
    ensures ExecuteSteps(env.(stopSignals := stops), n, plan, policy, j) == ExecuteSteps(env, n, plan, policy, j)
  {
  }

  lemma SameIterate(cfg: Config, env: Env, stops: nat -> seq<bool>, policy: PolicyDecision, s: State, t: State)
    requires Same(s, t)
    ensures var a, b := Iterate(cfg, env, policy, s), Iterate(cfg, env.(stopSignals := stops), policy, t);
            Same(a.0, b.0) && a.1 == b.1
  {
    hide Conclude, AfterError, Refine, ExecuteSteps;
    var n, env' := s.iteration + 1, env.(stopSignals := stops);
    SameExecute(env, stops, n, s.plan, policy, |s.plan.steps|);
    var s1 := s.(iteration := n, evidence := Stopped(env, n, s.evidence));
    var t1 := t.(iteration := n, evidence := Stopped(env', n, t.evidence));
    match Execute(env, n, s.plan, policy)
    case Success(results) => SameConclude(cfg, env, stops, s1, t1, results);
    case Failure(err) =>
      var s2 := s1.(lastError := err, evidence := s1.evidence["iteration_error" := Text(err)]);
      var t2 := t1.(lastError := err, evidence := t1.evidence["iteration_error" := Text(err)]);
      SameRefine(env, stops, s2, t2, "Error recovery: " + err, true);
      SameAfterError(cfg, env, stops, s2, t2, err);
      SameAfterError(cfg, env, stops, Refine(env, s2, "Error recovery: " + err, true),
                     Refine(env', t2, "Error recovery: " + err, true), err);
  }

  /**
   For the same answers of agents, tools and humans, the stop signals change nothing but the note: the
   loop ends the same way, after the same iterations, with the same plan, log and other evidence.
   */
  lemma {:induction false} StopSignalsStopNothing(cfg: Config, env: Env, stops: nat -> seq<bool>,
                                                  policy: PolicyDecision, s: State, t: State)
    requires Same(s, t)
    ensures var a, b := LoopFrom(cfg, env, policy, s), LoopFrom(cfg, env.(stopSignals := stops), policy, t);
            Same(a.0, b.0) && a.1 == b.1
    decreases cfg.maxIterations - s.iteration
  {
    hide Iterate, SameEvidence;
    if s.iteration < cfg.maxIterations {
      SameIterate(cfg, env, stops, policy, s, t);
      TurnAdvances(cfg, env, policy, s);
      var a, b := Iterate(cfg, env, policy, s), Iterate(cfg, env.(stopSignals := stops), policy, t);
      if a.1 == None {
        StopSignalsStopNothing(cfg, env, stops, policy, a.0, b.0);
      }
    }
  }
}
