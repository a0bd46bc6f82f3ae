/**
 What a run of RunbookAutomationWorkflow returns, and what its memory shows besides the history of steps.
 Continues RunbookApprovals.dfy for internal/controlplane/temporal/runbook_workflow.go.
 */
module WorkflowResult {
  import opened Wrappers
  import opened Memory
  import opened Workflow
  import opened WorkflowSafety
  import opened WorkflowApprovals

  // ---------- the rest of the memory ----------

  /** The step last taken up: the action a run is blocked on, or the one of the last event. */
  function LastTakenUp(book: Runbook, events: seq<Event>, ending: Ending): PlanState {
    if ending.Blocked? && ending.index < |book.actions| then
      PlanState(book, "actions", book.actions[ending.index].id, ending.index)
    else if events == [] then PlanState(book, "", "", 0)
    else
      var e := events[|events| - 1];
      if e.Diagnosed? && e.i < |book.diagnostics| then PlanState(book, "diagnostics", book.diagnostics[e.i].id, e.i)
      else if !e.Diagnosed? && e.i < |book.actions| then PlanState(book, "actions", book.actions[e.i].id, e.i)
      else PlanState(book, "", "", 0)
  }

  /** The non-empty comments of decisions, in order. */
  function Comments(decisions: seq<ApprovalSignal>): seq<string> {
    if decisions == [] then []
    else Comments(decisions[..|decisions| - 1]) + NonBlank(decisions[|decisions| - 1].comment)
  }

  lemma CommentsSnoc(decisions: seq<ApprovalSignal>, sig: ApprovalSignal)
    ensures Comments(decisions + [sig]) == Comments(decisions) + NonBlank(sig.comment)
  {
    assert (decisions + [sig])[..|decisions|] == decisions;
  }

  /** Why a run's memory is marked failed, if it is. */
  function FailureOf(ending: Ending): Option<string> {
    match ending
    case RuleAgentFailed(_) => Some("rule_agent_error")
    case RunbookAgentFailed(_) => Some("runbook_agent_error")
    case GateFailed(_, why) => Some("diagnostic_gate_failed: " + why)
    case _ => None
  }

  ghost predicate Shows(input: Input, env: Env, t: Trace)
    requires Started(input, env)
  {
    var book, out := env.book.value, env.rule.value;
    && t.mem.intent == Intent(input, env)
    && t.mem.plan == LastTakenUp(book, t.events, t.ending)
    && t.mem.pointers == PointersState(out.runbookId, map[])
    && t.mem.evidence.facts == map["severity" := Text(out.severity)]
    && t.mem.policyRisk.approvalReasons == [RULE_REASON] + Comments(DecisionsIn(env, t.events))
    && t.mem.progress.failed == FailureOf(t.ending).Some?
    && t.mem.progress.failureReason == match FailureOf(t.ending) case Some(why) => why case None => ""
  }

  lemma DiagnoseShows(input: Input, env: Env, t: Trace, i: nat)
    requires Started(input, env) && i < |env.book.value.diagnostics| && t.ending == Running && Shows(input, env, t)
    ensures Shows(input, env, Diagnose(env, env.book.value.diagnostics, t, i))
  {
    hide Do, DecisionsIn, Intent, EvalDiagnosticGate;
    var step := env.book.value.diagnostics[i];
    var m := Do(env, t.mem, CursorDelta("diagnostics", step.id, i));
    CursorEffect(env, t.mem, "diagnostics", step.id, i);
    HistorySnoc(env, env.book.value, t.events, Diagnosed(i));
    NotADecision(env, t.events, Diagnosed(i));
    match env.observe(i)
    case Failure(_) =>
    case Success(out) =>
      DiagnosticEffect(env, m, step.id, out);
      var m1 := Do(env, m, DiagnosticDelta(step.id, out));
      CompletedEffect(env, m1, step.id);
      var (ok, why) := EvalDiagnosticGate(step.gate, out, env.show);
      FailedEffect(env, Do(env, m1, CompletedDelta(step.id)), "diagnostic_gate_failed: " + why,
                   "Fail-safe diagnostic gate", map["step_id" := step.id]);
  }

  lemma NotADecision(env: Env, events: seq<Event>, e: Event)
    requires !e.Decided?
    ensures DecisionsIn(env, events + [e]) == DecisionsIn(env, events)
  {
    assert (events + [e])[..|events|] == events;
  }

  /** `t` has its cursor on action `i` already. */
  ghost predicate ShowsAt(input: Input, env: Env, t: Trace, i: nat)
    requires Started(input, env) && i < |env.book.value.actions|
  {
    && t.ending == Running
    && t.mem.plan == PlanState(env.book.value, "actions", env.book.value.actions[i].id, i)
    && Shows(input, env, t.(mem := t.mem.(plan := LastTakenUp(env.book.value, t.events, Running))))
  }

  lemma ExecuteShows(input: Input, env: Env, t: Trace, i: nat)
    requires Started(input, env) && i < |env.book.value.actions| && ShowsAt(input, env, t, i)
    ensures Shows(input, env, Execute(env, env.book.value.actions[i].id, t, i))
  {
    hide Do, DecisionsIn, Intent;
    var id := env.book.value.actions[i].id;
    NotADecision(env, t.events, Executed(i));
    ActionEffect(env, t.mem, id, Outcome(env, i));
    CompletedEffect(env, Do(env, t.mem, ActionDelta(id, Outcome(env, i))), id);
  }

  lemma CursorShowsAt(input: Input, env: Env, t: Trace, i: nat)
    requires Started(input, env) && i < |env.book.value.actions| && t.ending == Running && Shows(input, env, t)
    ensures ShowsAt(input, env, t.(mem := Do(env, t.mem, CursorDelta("actions", env.book.value.actions[i].id, i))), i)
  {
    hide Do, DecisionsIn, Intent, Comments;
    CursorEffect(env, t.mem, "actions", env.book.value.actions[i].id, i);
  }

  lemma DecisionShowsAt(input: Input, env: Env, t: Trace, i: nat, at: nat)
    requires Started(input, env) && i < |env.book.value.actions| && ShowsAt(input, env, t, i) && at < |env.signals|
    ensures var id := env.book.value.actions[i].id;
      var mem := Do(env, t.mem, ApprovalDelta(id, env.signals[at]));
      var decided := Trace(mem, at + 1, t.events + [Decided(i, at)], Running);
      ShowsAt(input, env, decided, i) && Shows(input, env, decided)
  {
    hide Do, DecisionsIn, Intent, Comments;
    ApprovalEffect(env, t.mem, env.book.value.actions[i].id, env.signals[at]);
    DecisionReflects(env, env.book.value, t.events, i, at);
    CommentsSnoc(DecisionsIn(env, t.events), env.signals[at]);
  }

  lemma BlockedShows(input: Input, env: Env, t: Trace, i: nat, pos: nat)
    requires Started(input, env) && i < |env.book.value.actions| && ShowsAt(input, env, t, i)
    ensures Shows(input, env, Trace(t.mem, pos, t.events, Blocked(i)))
  {
  }

  lemma ActShows(input: Input, env: Env, t: Trace, i: nat)
    requires Started(input, env) && i < |env.book.value.actions| && t.pos <= |env.signals|
    requires t.ending == Running && Shows(input, env, t)
    ensures Shows(input, env, Act(env, env.book.value.actions, t, i))
  {
    hide Do, Execute, Shows, ShowsAt;
    var id := env.book.value.actions[i].id;
    var up := t.(mem := Do(env, t.mem, CursorDelta("actions", id, i)));
    CursorShowsAt(input, env, t, i);
    ExecuteShows(input, env, up, i);
    var at := FirstMatch(env.signals, t.pos, id);
    if at < |env.signals| {
      DecisionShowsAt(input, env, up, i, at);
      var mem := Do(env, up.mem, ApprovalDelta(id, env.signals[at]));
      ExecuteShows(input, env, Trace(mem, at + 1, t.events + [Decided(i, at)], Running), i);
    } else {
      BlockedShows(input, env, up, i, at);
    }
  }

  lemma PlannedShows(input: Input, env: Env)
    requires Started(input, env)
    ensures Shows(input, env, Planned(input, env))
  {
    hide Do, Ruled, Intent;
    var m := Initial(Intent(input, env));
    RuledEffect(env, m, env.rule.value);
    RunbookEffect(env, Ruled(env, m, env.rule.value), env.book.value);
  }

  lemma {:induction false} DiagnosticsShow(input: Input, env: Env, n: nat)
    requires Started(input, env) && n <= |env.book.value.diagnostics|
    ensures Shows(input, env, Diagnostics(env, env.book.value.diagnostics, Planned(input, env), n))
  {
    hide Diagnose, Shows, Planned;
    if n == 0 {
      PlannedShows(input, env);
    } else {
      DiagnosticsShow(input, env, n - 1);
      var before := Diagnostics(env, env.book.value.diagnostics, Planned(input, env), n - 1);
      if before.ending == Running {
        DiagnoseShows(input, env, before, n - 1);
      }
    }
  }

  lemma {:induction false} ActionsShow(input: Input, env: Env, t: Trace, n: nat)
    requires Started(input, env) && n <= |env.book.value.actions| && t.pos <= |env.signals| && Shows(input, env, t)
    ensures Shows(input, env, Actions(env, env.book.value.actions, t, n))
  {
    hide Act, Shows;
    if n > 0 {
      ActionsShow(input, env, t, n - 1);
      var before := Actions(env, env.book.value.actions, t, n - 1);
      if before.ending == Running {
        ActShows(input, env, before, n - 1);
      }
    }
  }

  lemma CompletingShowsTheSame(input: Input, env: Env, t: Trace)
    requires Started(input, env) && t.ending == Running && Shows(input, env, t)
    ensures Shows(input, env, t.(ending := Completed))
  {
  }

  /**
   With MemoryIsTheHistory this is the whole memory a run leaves: the cursor names the step last taken up,
   the reasons are the rule agent's and then the deciding signals' comments, severity and selected runbook
   are the rule agent's, the intent is the request's, and it is marked failed, with the gate's reason,
   exactly when a gate failed.
   */
  lemma MemoryShowsTheRest(input: Input, env: Env)
    requires Started(input, env)
    ensures Shows(input, env, WorkflowRun(input, env))
  {
    hide Diagnostics, Actions, Shows, Planned;
    var book, t := env.book.value, Planned(input, env);
    DiagnosticsShow(input, env, |book.diagnostics|);
    DiagnosticsKeepPos(env, book.diagnostics, t, |book.diagnostics|);
    var checked := Diagnostics(env, book.diagnostics, t, |book.diagnostics|);
    PlannedIsNew(input, env);
    ActionsShow(input, env, checked, |book.actions|);
    var acted := Actions(env, book.actions, checked, |book.actions|);
    if acted.ending == Running {
      CompletingShowsTheSame(input, env, acted);
    }
  }

  lemma PlannedIsNew(input: Input, env: Env)
    requires Started(input, env)
    ensures Planned(input, env).pos == 0
  {
  }

  /** The metadata is the request's, with the execution's ID where it names no workflow. */
  lemma IntentNamesTheWorkflow(input: Input, env: Env, key: string)
    ensures var m := Intent(input, env).metadata;
      && (key != "workflow_id" ==>
            (key in m <==> key in input.metadata) && (key in m ==> m[key] == input.metadata[key]))
      && "workflow_id" in m
      && ("workflow_id" in input.metadata && input.metadata["workflow_id"] != "" ==>
            m["workflow_id"] == input.metadata["workflow_id"])
      && ("workflow_id" !in input.metadata || input.metadata["workflow_id"] == "" ==>
            m["workflow_id"] == env.executionId)
  {
  }

  // ---------- who is asked ----------

  /** A decision is taken only for an action that requires approval, or under a rule agent that requires it for all. */
  predicate MustAsk(input: Input, env: Env, i: nat)
    requires env.rule.Success? && env.book.Success?
  {
    i < |env.book.value.actions| && (env.book.value.actions[i].requiresApproval || env.rule.value.requiresHumanApproval)
  }

  /**
   An action is decided on exactly when it must be: one that must runs right after its decision only, and
   no other is ever decided on.
   */
  lemma ApprovalIsAskedWhenRequired(input: Input, env: Env, k: nat)
    requires Started(input, env) && k < |WorkflowRun(input, env).events|
    ensures var events := WorkflowRun(input, env).events;
      && (events[k].Decided? ==> MustAsk(input, env, events[k].i))
      && (events[k].Executed? && MustAsk(input, env, events[k].i) ==>
            k > 0 && events[k - 1].Decided? && events[k - 1].i == events[k].i
            && events[k - 1].at < |env.signals| && env.signals[events[k - 1].at].approved)
  {
    hide WorkflowRun, AllPass, InOrder, Settled, NextSignal;
    ExecSafety(input, env);
    var events := WorkflowRun(input, env).events;
    assert Authorized(env, env.book.value.actions, env.rule.value.requiresHumanApproval, events[..k], events[k]);
  }

  // ---------- the result ----------

  /** The first diagnostic that does not pass; their number if all do. */
  ghost function FirstFailing(env: Env, steps: seq<RunbookStep>, i: nat): (k: nat)
    requires i <= |steps|
    ensures i <= k <= |steps|
    ensures forall j :: i <= j < k ==> Passes(env, steps, j)
    ensures k < |steps| ==> !Passes(env, steps, k)
    decreases |steps| - i
  {
    if i < |steps| && Passes(env, steps, i) then FirstFailing(env, steps, i + 1) else i
  }

  /** Why a run fails, from its inputs: an agent's error, or the reason of the first gate that does not pass. */
  ghost function FailureFrom(env: Env): Option<string> {
    if env.rule.Failure? then Some("rule_agent_error")
    else if env.book.Failure? then Some("runbook_agent_error")
    else
      var steps := env.book.value.diagnostics;
      var k := FirstFailing(env, steps, 0);
      if k == |steps| then None
      else Some("diagnostic_gate_failed: " + EvalDiagnosticGate(steps[k].gate, env.observe(k).value, env.show).1)
  }

  function ReasonOf(failure: Option<string>): string {
    match failure case Some(why) => why case None => ""
  }

  /** Every run's memory is marked failed exactly when its inputs make it fail, with that reason. */
  lemma FailureIsTheFirst(input: Input, env: Env)
    ensures var t := WorkflowRun(input, env);
      && FailureOf(t.ending) == FailureFrom(env)
      && t.mem.progress.failed == FailureFrom(env).Some?
      && t.mem.progress.failureReason == ReasonOf(FailureFrom(env))
  {
    hide Diagnose, Act, Do, EvalDiagnosticGate, DecisionsIn, Comments, LastTakenUp, Ruled;
    var m := Initial(Intent(input, env));
    if env.rule.Failure? {
      FailedEffect(env, m, "rule_agent_error", env.rule.error, map[]);
    } else if env.book.Failure? {
      FailedEffect(env, Ruled(env, m, env.rule.value), "runbook_agent_error", env.book.error, map[]);
    } else {
      MemoryShowsTheRest(input, env);
      EndsAtFirstFailing(input, env);
    }
  }

  lemma EndsAtFirstFailing(input: Input, env: Env)
    requires Started(input, env)
    ensures FailureOf(WorkflowRun(input, env).ending) == FailureFrom(env)
  {
    hide Diagnose, Act, Planned, Passes, GatedIds, Greedy, EvalDiagnosticGate;
    var book := env.book.value;
    var steps := book.diagnostics;
    var k := FirstFailing(env, steps, 0);
    PlannedRuns(input, env);
    DiagnosticsStopAtFirstFailure(env, steps, Planned(input, env), |steps|);
    ActionPhaseIsGreedy(input, env);
    assert WorkflowRun(input, env).ending.GateFailed? ==>
        WorkflowRun(input, env).ending == Diagnostics(env, steps, Planned(input, env), |steps|).ending;
  }

  /**
   The result, over every run. There is none exactly when the run waits for an approval that never comes:
   all diagnostics pass and the gated IDs do not embed into the signals. Otherwise it tells the request,
   what the agents answered, whether and why the run failed, and when it ended if the agents answered;
   a run that completed returns all observations and outcomes, a failed one none.
   */
  lemma ResultTellsTheRun(input: Input, env: Env)
    ensures var t := WorkflowRun(input, env);
      var r, failure := ResultOf(input, env, t), FailureFrom(env);
      && (r == None <==>
            && Started(input, env) && AllPass(env, env.book.value.diagnostics)
            && !Embeddable(GatedIds(env.book.value.actions, env.rule.value.requiresHumanApproval), env.signals))
      && (r.Some? ==>
            && r.value.incidentId == input.incidentId && r.value.service == input.service
            && r.value.symptom == input.symptom
            && (r.value.ruleDecision == None <==> env.rule.Failure?)
            && (env.rule.Success? ==> r.value.ruleDecision == Some(env.rule.value))
            && r.value.runbook == (if Started(input, env) then env.book.value else EMPTY_RUNBOOK)
            && r.value.failed == failure.Some? && r.value.failureReason == ReasonOf(failure)
            && r.value.completedAt == (if Started(input, env) then Some(env.clock(|t.mem.deltas|)) else None)
            && r.value.diagnostics ==
               (if failure.Some? then map[] else ObservationsIn(env, env.book.value, t.events))
            && r.value.actions == (if failure.Some? then map[] else OutcomesIn(env, env.book.value, t.events)))
  {
    hide Diagnostics, Actions, FailureFrom, Embeddable, GatedIds, AllPass, ObservationsIn, OutcomesIn, CompletedIn,
         DecisionsIn, Do, Ruled, Planned;
    FailureIsTheFirst(input, env);
    if Started(input, env) {
      CompletesIffApprovalsEmbed(input, env);
      MemoryIsTheHistory(input, env);
      EndingsOfAStartedRun(input, env);
    }
  }

  lemma EndingsOfAStartedRun(input: Input, env: Env)
    requires Started(input, env)
    ensures var ending := WorkflowRun(input, env).ending;
            ending.GateFailed? || ending.Blocked? || ending == Completed
  {
    hide Diagnose, Act, Planned, GatedIds, Greedy, Embeddable;
    var checked := AfterDiagnostics(input, env);
    CompletesIffApprovalsEmbed(input, env);
  }
}
