/** What every run of RunbookAutomationWorkflow guarantees, for all agents, signal streams and clocks. */
module WorkflowSafety {
  import opened Wrappers
  import opened Memory
  import opened Workflow

  // ---------- effects of the workflow's deltas ----------

  /** `m` with the versions and the log of `m'`. */
  function Logged(m: Snapshot, m': Snapshot): Snapshot {
    m.(versions := m'.versions, deltas := m'.deltas)
  }

  lemma CursorEffect(env: Env, m: Snapshot, phase: string, id: string, i: int)
    ensures var m' := Do(env, m, CursorDelta(phase, id, i));
            m' == Logged(m, m').(plan := PlanState(m.plan.runbook, if phase != "" then phase else m.plan.phase, id, i))
  {
  }

  lemma DiagnosticEffect(env: Env, m: Snapshot, id: string, out: ObservabilityOutput)
    ensures var m' := Do(env, m, DiagnosticDelta(id, out));
            m' == if id == "" then m
                  else Logged(m, m').(evidence := m.evidence.(diagnostics := m.evidence.diagnostics[id := out]))
  {
  }

  lemma ActionEffect(env: Env, m: Snapshot, id: string, out: ExecOutput)
    ensures var m' := Do(env, m, ActionDelta(id, out));
            m' == if id == "" then m
                  else Logged(m, m').(evidence := m.evidence.(actions := m.evidence.actions[id := out]))
  {
  }

  lemma CompletedEffect(env: Env, m: Snapshot, id: string)
    ensures var m' := Do(env, m, CompletedDelta(id));
            m' == if id == "" then m
                  else Logged(m, m').(progress := m.progress.(completedSteps := m.progress.completedSteps + [id]))
  {
  }

  lemma FailedEffect(env: Env, m: Snapshot, reason: string, rationale: string, refs: map<string, string>)
    ensures var m' := Do(env, m, FailedDelta(reason, rationale, refs));
            m' == Logged(m, m').(progress := ProgressState(m.progress.completedSteps, true, reason))
  {
  }

  lemma ApprovalEffect(env: Env, m: Snapshot, id: string, sig: ApprovalSignal)
    ensures var m' := Do(env, m, ApprovalDelta(id, sig));
            m' == Logged(m, m').(policyRisk := PolicyRiskState(
                    m.policyRisk.requiresHumanApproval, m.policyRisk.approvalReasons + NonBlank(sig.comment),
                    m.policyRisk.approvals + [sig]))
  {
  }

  function NonBlank(s: string): seq<string> {
    if s == "" then [] else [s]
  }

  // ---------- the memory reflects the history ----------

  /** IDs of the steps whose activity returned without error, in the order they ran. */
  function CompletedIn(env: Env, book: Runbook, events: seq<Event>): seq<string> {
    if events == [] then []
    else CompletedIn(env, book, events[..|events| - 1]) +
         match events[|events| - 1]
         case Diagnosed(i) =>
           if i < |book.diagnostics| && env.observe(i).Success? && book.diagnostics[i].id != ""
           then [book.diagnostics[i].id] else []
         case Executed(i) =>
           if i < |book.actions| && env.execute(i).Success? && book.actions[i].id != ""
           then [book.actions[i].id] else []
         case Decided(_, _) => []
  }

  /** The signals taken as decisions, in order. */
  function DecisionsIn(env: Env, events: seq<Event>): seq<ApprovalSignal> {
    if events == [] then []
    else
      var e := events[|events| - 1];
      DecisionsIn(env, events[..|events| - 1]) +
      if e.Decided? && e.at < |env.signals| then [env.signals[e.at]] else []
  }

  function Outcome(env: Env, i: nat): ExecOutput {
    match env.execute(i) case Success(out) => out case Failure(err) => ExecOutput(false, err)
  }

  /** The outcome of each executed action under its ID; the last one wins. */
  function OutcomesIn(env: Env, book: Runbook, events: seq<Event>): map<string, ExecOutput> {
    if events == [] then map[]
    else
      var e, rest := events[|events| - 1], OutcomesIn(env, book, events[..|events| - 1]);
      if e.Executed? && e.i < |book.actions| && book.actions[e.i].id != ""
      then rest[book.actions[e.i].id := Outcome(env, e.i)] else rest
  }

  function ObservationsIn(env: Env, book: Runbook, events: seq<Event>): map<string, ObservabilityOutput> {
    if events == [] then map[]
    else
      var e, rest := events[|events| - 1], ObservationsIn(env, book, events[..|events| - 1]);
      if e.Diagnosed? && e.i < |book.diagnostics| && book.diagnostics[e.i].id != "" && env.observe(e.i).Success?
      then rest[book.diagnostics[e.i].id := env.observe(e.i).value] else rest
  }

  lemma HistorySnoc(env: Env, book: Runbook, events: seq<Event>, e: Event)
    ensures var all := events + [e];
      && CompletedIn(env, book, all) == CompletedIn(env, book, events) + CompletedIn(env, book, [e])
      && DecisionsIn(env, all) == DecisionsIn(env, events) + DecisionsIn(env, [e])
      && OutcomesIn(env, book, all) == OutcomesIn(env, book, events) + OutcomesIn(env, book, [e])
      && ObservationsIn(env, book, all) == ObservationsIn(env, book, events) + ObservationsIn(env, book, [e])
  {
    assert (events + [e])[..|events|] == events;
    assert [e][..0] == [];
  }

  ghost predicate Reflects(env: Env, book: Runbook, all: bool, t: Trace) {
    && t.mem.plan.runbook == book
    && t.mem.policyRisk.requiresHumanApproval == all
    && t.mem.policyRisk.approvals == DecisionsIn(env, t.events)
    && t.mem.progress.completedSteps == CompletedIn(env, book, t.events)
    && t.mem.evidence.actions == OutcomesIn(env, book, t.events)
    && t.mem.evidence.diagnostics == ObservationsIn(env, book, t.events)
  }

  lemma DiagnoseReflects(env: Env, book: Runbook, all: bool, t: Trace, i: nat)
    requires i < |book.diagnostics| && Reflects(env, book, all, t)
    ensures Reflects(env, book, all, Diagnose(env, book.diagnostics, t, i))
  {
    hide Do;
    var step := book.diagnostics[i];
    var m := Do(env, t.mem, CursorDelta("diagnostics", step.id, i));
    CursorEffect(env, t.mem, "diagnostics", step.id, i);
    HistorySnoc(env, book, t.events, Diagnosed(i));
    match env.observe(i)
    case Failure(_) =>
    case Success(out) =>
      DiagnosticEffect(env, m, step.id, out);
      var m1 := Do(env, m, DiagnosticDelta(step.id, out));
      CompletedEffect(env, m1, step.id);
      var (ok, why) := EvalDiagnosticGate(step.gate, out, env.show);
      FailedEffect(env, Do(env, m1, CompletedDelta(step.id)), "diagnostic_gate_failed: " + why,
                   "Fail-safe diagnostic gate", map["step_id" := step.id]);
  }

  lemma ExecuteReflects(env: Env, book: Runbook, all: bool, t: Trace, i: nat)
    requires i < |book.actions| && Reflects(env, book, all, t)
    ensures Reflects(env, book, all, Execute(env, book.actions[i].id, t, i))
  {
    hide Do;
    var id := book.actions[i].id;
    HistorySnoc(env, book, t.events, Executed(i));
    ActionEffect(env, t.mem, id, Outcome(env, i));
    CompletedEffect(env, Do(env, t.mem, ActionDelta(id, Outcome(env, i))), id);
  }

  lemma ActReflects(env: Env, book: Runbook, all: bool, t: Trace, i: nat)
    requires i < |book.actions| && t.pos <= |env.signals| && Reflects(env, book, all, t)
    ensures Reflects(env, book, all, Act(env, book.actions, t, i))
  {
    hide Do, Execute, CompletedIn, DecisionsIn, OutcomesIn, ObservationsIn;
    var id := book.actions[i].id;
    var m := Do(env, t.mem, CursorDelta("actions", id, i));
    CursorEffect(env, t.mem, "actions", id, i);
    ExecuteReflects(env, book, all, t.(mem := m), i);
    var at := FirstMatch(env.signals, t.pos, id);
    if at < |env.signals| {
      ApprovalEffect(env, m, id, env.signals[at]);
      DecisionReflects(env, book, t.events, i, at);
      var approved := Do(env, m, ApprovalDelta(id, env.signals[at]));
      var decided := Trace(approved, at + 1, t.events + [Decided(i, at)], Running);
      ExecuteReflects(env, book, all, decided, i);
    }
  }

  lemma DecisionReflects(env: Env, book: Runbook, events: seq<Event>, i: nat, at: nat)
    requires at < |env.signals|
    ensures var all := events + [Decided(i, at)];
      && CompletedIn(env, book, all) == CompletedIn(env, book, events)
      && DecisionsIn(env, all) == DecisionsIn(env, events) + [env.signals[at]]
      && OutcomesIn(env, book, all) == OutcomesIn(env, book, events)
      && ObservationsIn(env, book, all) == ObservationsIn(env, book, events)
  {
    HistorySnoc(env, book, events, Decided(i, at));
  }

  const RULE_REASON := "rule_agent_requires_human_approval"

  /** The rule agent's three deltas set the approval flag, the selected runbook and the severity. */
  lemma RuledEffect(env: Env, m: Snapshot, out: RuleAgentOutput)
    ensures var m' := Ruled(env, m, out);
            m' == Logged(m, m').(
              policyRisk := PolicyRiskState(out.requiresHumanApproval, m.policyRisk.approvalReasons + [RULE_REASON],
                                            m.policyRisk.approvals),
              pointers := m.pointers.(selectedRunbookId := out.runbookId),
              evidence := m.evidence.(facts := m.evidence.facts["severity" := Text(out.severity)]))
  {
    hide Do;
    var m1 := Do(env, m, PolicyDelta(out));
    PolicyEffect(env, m, out);
    SelectEffect(env, m1, out);
    SeverityEffect(env, Do(env, m1, SelectDelta(out)), out);
  }

  lemma PolicyEffect(env: Env, m: Snapshot, out: RuleAgentOutput)
    ensures var m' := Do(env, m, PolicyDelta(out));
            m' == Logged(m, m').(policyRisk := PolicyRiskState(
                    out.requiresHumanApproval, m.policyRisk.approvalReasons + [RULE_REASON], m.policyRisk.approvals))
  {
  }

  lemma SelectEffect(env: Env, m: Snapshot, out: RuleAgentOutput)
    ensures var m' := Do(env, m, SelectDelta(out));
            m' == Logged(m, m').(pointers := m.pointers.(selectedRunbookId := out.runbookId))
  {
  }

  lemma SeverityEffect(env: Env, m: Snapshot, out: RuleAgentOutput)
    ensures var m' := Do(env, m, SeverityDelta(out));
            m' == Logged(m, m').(
              evidence := m.evidence.(facts := m.evidence.facts["severity" := Text(out.severity)]))
  {
  }

  lemma RunbookEffect(env: Env, m: Snapshot, book: Runbook)
    ensures var m' := Do(env, m, RunbookDelta(book));
            m' == Logged(m, m').(plan := m.plan.(runbook := book))
  {
  }

  lemma PlannedReflects(input: Input, env: Env)
    requires env.rule.Success? && env.book.Success?
    ensures Reflects(env, env.book.value, env.rule.value.requiresHumanApproval, Planned(input, env))
  {
    hide Do, Ruled;
    var m := Initial(Intent(input, env));
    RuledEffect(env, m, env.rule.value);
    RunbookEffect(env, Ruled(env, m, env.rule.value), env.book.value);
  }

  lemma {:induction false} DiagnosticsReflect(env: Env, book: Runbook, all: bool, t: Trace, n: nat)
    requires n <= |book.diagnostics| && Reflects(env, book, all, t)
    ensures Reflects(env, book, all, Diagnostics(env, book.diagnostics, t, n))
  {
    hide Diagnose, Reflects;
    if n > 0 {
      DiagnosticsReflect(env, book, all, t, n - 1);
      DiagnoseReflects(env, book, all, Diagnostics(env, book.diagnostics, t, n - 1), n - 1);
    }
  }

  lemma {:induction false} ActionsReflect(env: Env, book: Runbook, all: bool, t: Trace, n: nat)
    requires n <= |book.actions| && t.pos <= |env.signals| && Reflects(env, book, all, t)
    ensures Reflects(env, book, all, Actions(env, book.actions, t, n))
  {
    hide Act, Reflects;
    if n > 0 {
      ActionsReflect(env, book, all, t, n - 1);
      ActReflects(env, book, all, Actions(env, book.actions, t, n - 1), n - 1);
    }
  }

  /**
   The memory a run leaves is its history: completed steps are exactly the steps whose activity
   returned without error, in order; the approvals are the decisions taken, in order; the evidence
   holds each executed action's and each observed diagnostic's outcome.
   */
  lemma MemoryIsTheHistory(input: Input, env: Env)
    requires env.rule.Success? && env.book.Success?
    ensures Reflects(env, env.book.value, env.rule.value.requiresHumanApproval, WorkflowRun(input, env))
  {
    hide Diagnose, Act, Reflects, Do, Ruled;
    var book, all, t := env.book.value, env.rule.value.requiresHumanApproval, Planned(input, env);
    PlannedReflects(input, env);
    DiagnosticsReflect(env, book, all, t, |book.diagnostics|);
    DiagnosticsKeepPos(env, book.diagnostics, t, |book.diagnostics|);
    var checked := Diagnostics(env, book.diagnostics, t, |book.diagnostics|);
    ActionsReflect(env, book, all, checked, |book.actions|);
    EndingIsNotReflected(env, book, all, Actions(env, book.actions, checked, |book.actions|));
  }

  lemma EndingIsNotReflected(env: Env, book: Runbook, all: bool, t: Trace)
    ensures Reflects(env, book, all, t) == Reflects(env, book, all, t.(ending := Completed))
  {
  }

  // ---------- the memory can be replayed ----------

  ghost predicate Rebuilds(s: Snapshot, m: Snapshot) {
    s.deltas == [] && Replay(s, m.deltas) == Success(m)
  }

  lemma DoRebuilds(env: Env, s: Snapshot, m: Snapshot, d: Delta)
    requires Rebuilds(s, m) && d.expectedVer == 0
    ensures Rebuilds(s, Do(env, m, d))
  {
    hide Replay;
    var now := env.clock(|m.deltas|);
    if Applied(m, now, d).Success? {
      ReplaySnoc(s, m.deltas, Entry(now, d, Version(m, d.bucket)));
    }
  }

  lemma DiagnoseRebuilds(env: Env, steps: seq<RunbookStep>, t: Trace, i: nat, s: Snapshot)
    requires i < |steps| && Rebuilds(s, t.mem)
    ensures Rebuilds(s, Diagnose(env, steps, t, i).mem)
  {
    hide Do, Rebuilds;
    forall m, d: Delta | Rebuilds(s, m) && d.expectedVer == 0 { DoRebuilds(env, s, m, d); }
  }

  lemma ActRebuilds(env: Env, steps: seq<RunbookStep>, t: Trace, i: nat, s: Snapshot)
    requires i < |steps| && t.pos <= |env.signals| && Rebuilds(s, t.mem)
    ensures Rebuilds(s, Act(env, steps, t, i).mem)
  {
    hide Do, Rebuilds;
    forall m, d: Delta | Rebuilds(s, m) && d.expectedVer == 0 { DoRebuilds(env, s, m, d); }
  }

  lemma {:induction false} DiagnosticsRebuild(env: Env, steps: seq<RunbookStep>, t: Trace, n: nat, s: Snapshot)
    requires n <= |steps| && Rebuilds(s, t.mem)
    ensures Rebuilds(s, Diagnostics(env, steps, t, n).mem)
  {
    hide Diagnose, Rebuilds;
    if n > 0 {
      DiagnosticsRebuild(env, steps, t, n - 1, s);
      DiagnoseRebuilds(env, steps, Diagnostics(env, steps, t, n - 1), n - 1, s);
    }
  }

  lemma {:induction false} ActionsRebuild(env: Env, steps: seq<RunbookStep>, t: Trace, n: nat, s: Snapshot)
    requires n <= |steps| && t.pos <= |env.signals| && Rebuilds(s, t.mem)
    ensures Rebuilds(s, Actions(env, steps, t, n).mem)
  {
    hide Act, Rebuilds;
    if n > 0 {
      ActionsRebuild(env, steps, t, n - 1, s);
      ActRebuilds(env, steps, Actions(env, steps, t, n - 1), n - 1, s);
    }
  }

  /** Whatever the run, its delta log alone rebuilds the memory it left. */
  lemma RunCanBeReplayed(input: Input, env: Env)
    ensures var m := WorkflowRun(input, env).mem;
            Replay(Initial(Intent(input, env)), m.deltas) == Success(m)
  {
    var s := Initial(Intent(input, env));
    assert Rebuilds(s, s);
    RunRebuilds(input, env, s);
  }

  lemma RunRebuilds(input: Input, env: Env, s: Snapshot)
    requires s == Initial(Intent(input, env)) && Rebuilds(s, s)
    ensures Rebuilds(s, WorkflowRun(input, env).mem)
  {
    hide Do, Diagnostics, Actions, Rebuilds, Initial;
    forall m, d: Delta | Rebuilds(s, m) && d.expectedVer == 0 { DoRebuilds(env, s, m, d); }
    if env.rule.Success? && env.book.Success? {
      var book, t := env.book.value, Planned(input, env);
      DiagnosticsRebuild(env, book.diagnostics, t, |book.diagnostics|, s);
      DiagnosticsKeepPos(env, book.diagnostics, t, |book.diagnostics|);
      ActionsRebuild(env, book.actions, Diagnostics(env, book.diagnostics, t, |book.diagnostics|), |book.actions|, s);
    }
  }
}
