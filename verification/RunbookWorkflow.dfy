/**
 RunbookAutomationWorkflow (internal/controlplane/temporal/runbook_workflow.go): rule agent, runbook
 agent, gated diagnostics, then actions that wait for matching approval signals.

 Agents, signals and the clock are arbitrary inputs (`Env`). A receive on an exhausted signal stream
 is the ending `Blocked`.
 */
module Workflow {
  import opened Wrappers
  import opened Memory

  // ---------- inputs and outputs ----------

  datatype RuleAgentOutput = RuleAgentOutput(runbookId: string, severity: string, requiresHumanApproval: bool)

  datatype Input = Input(incidentId: string, service: string, symptom: string, metadata: map<string, string>)

  /**
   What the outside world answers. `observe(i)` and `execute(i)` are the outcomes of the activities for
   diagnostic `i` and action `i`; `clock(k)` is the workflow time once the log holds `k` entries;
   `show` formats a failed comparison.
   */
  datatype Env = Env(
    executionId: string,
    rule: Result<RuleAgentOutput, string>,
    book: Result<Runbook, string>,
    observe: nat -> Result<ObservabilityOutput, string>,
    execute: nat -> Result<ExecOutput, string>,
    signals: seq<ApprovalSignal>,
    clock: nat -> int,
    show: (string, string, real, real) -> string)

  /** The observable steps of a run; `Decided(i, at)` is action `i` taking signal `at` as its decision. */
  datatype Event =
    | Diagnosed(i: nat)
    | Decided(i: nat, at: nat)
    | Executed(i: nat)

  datatype Ending =
    | Running
    | RuleAgentFailed(err: string) | RunbookAgentFailed(err: string)
    | GateFailed(index: nat, why: string)
    | Blocked(index: nat)
    | Completed

  /** A run so far; `pos` counts the signals received. */
  datatype Trace = Trace(mem: Snapshot, pos: nat, events: seq<Event>, ending: Ending)

  datatype RunbookAutomationResult = RunbookAutomationResult(
    incidentId: string, service: string, symptom: string,
    ruleDecision: Option<RuleAgentOutput>, runbook: Runbook,
    diagnostics: map<string, ObservabilityOutput>, actions: map<string, ExecOutput>,
    completedAt: Option<int>, failed: bool, failureReason: string)

  // ---------- the diagnostic gate ----------

  function CompareFloat(v: real, op: string, threshold: real): bool {
    if op == "<" then v < threshold
    else if op == "<=" then v <= threshold
    else if op == ">" then v > threshold
    else if op == ">=" then v >= threshold
    else if op == "==" then v == threshold
    else if op == "!=" then v != threshold
    else false
  }

  function EvalDiagnosticGate(gate: Gate, out: ObservabilityOutput,
                              show: (string, string, real, real) -> string): (bool, string) {
    if gate.sig == "" || gate.op == "" then (true, "")
    else if gate.threshold.Missing? then (false, "gate_threshold_missing")
    else if gate.threshold.Unparsable? then (false, "gate_threshold_invalid")
    else if out.degraded then (false, "observability_degraded")
    else if out.signals.None? then (false, "signals_missing")
    else if gate.sig !in out.signals.value then (false, "signal_not_found:" + gate.sig)
    else
      var v := out.signals.value[gate.sig];
      if CompareFloat(v, gate.op, gate.threshold.value) then (true, "")
      else (false, show(gate.sig, gate.op, gate.threshold.value, v))
  }

  ghost predicate Holds(v: real, op: string, threshold: real) {
    || (v < threshold && op in {"<", "<=", "!="})
    || (v == threshold && op in {"<=", ">=", "=="})
    || (v > threshold && op in {">", ">=", "!="})
  }

  /** Fail closed: a gate that is set passes only on healthy evidence whose named signal satisfies it. */
  lemma GateFailsClosed(gate: Gate, out: ObservabilityOutput, show: (string, string, real, real) -> string)
    ensures EvalDiagnosticGate(gate, out, show).0 <==>
            (gate.sig != "" && gate.op != "" ==>
              && gate.threshold.Number? && !out.degraded
              && out.signals.Some? && gate.sig in out.signals.value
              && Holds(out.signals.value[gate.sig], gate.op, gate.threshold.value))
  {
    if gate.threshold.Number? && out.signals.Some? && gate.sig in out.signals.value {
      CompareMeaning(out.signals.value[gate.sig], gate.op, gate.threshold.value);
    }
  }

  /** The reason names what a refusing gate lacks first: threshold, healthy evidence, signals, the signal, its value. */
  lemma GateReason(gate: Gate, out: ObservabilityOutput, show: (string, string, real, real) -> string)
    requires !EvalDiagnosticGate(gate, out, show).0
    ensures var why := EvalDiagnosticGate(gate, out, show).1;
      && (gate.threshold.Missing? ==> why == "gate_threshold_missing")
      && (gate.threshold.Unparsable? ==> why == "gate_threshold_invalid")
      && (gate.threshold.Number? && out.degraded ==> why == "observability_degraded")
      && (gate.threshold.Number? && !out.degraded ==>
            && (out.signals == None ==> why == "signals_missing")
            && (out.signals.Some? && gate.sig !in out.signals.value ==> why == "signal_not_found:" + gate.sig)
            && (out.signals.Some? && gate.sig in out.signals.value ==>
                  why == show(gate.sig, gate.op, gate.threshold.value, out.signals.value[gate.sig])))
  {
  }

  lemma CompareMeaning(v: real, op: string, threshold: real)
    ensures CompareFloat(v, op, threshold) <==> Holds(v, op, threshold)
  {
    assert "<" != ">" && "<" != "<=" && ">" != ">=" && "<=" != ">=" && "==" != "!=" && "<=" != "==" && ">=" != "=="
           && "<=" != "!=" && ">=" != "!=" by {
      assert "<"[0] != ">"[0] && "<="[0] != ">="[0] && "=="[0] != "!="[0] && "<="[0] != "=="[0];
      assert ">="[0] != "=="[0] && "<="[0] != "!="[0] && ">="[0] != "!="[0];
    }
  }

  // ---------- the deltas the workflow applies ----------

  function Plain(b: Bucket, a: Action, patch: Patch, actor: string, rationale: string,
                 refs: map<string, string>): Delta {
    Delta(b, a, patch, actor, rationale, refs, 0)
  }

  function FailedDelta(reason: string, rationale: string, refs: map<string, string>): Delta {
    Plain(ProgressBucket, MarkFailed, map[ReasonField := Text(reason)], "workflow", rationale, refs)
  }

  function PolicyDelta(out: RuleAgentOutput): Delta {
    Plain(PolicyRiskBucket, SetRequiresHumanApproval,
          map[RequiresHumanApprovalField := Bool(out.requiresHumanApproval),
              ReasonField := Text("rule_agent_requires_human_approval")],
          "rule_agent", "Rule evaluation output", map[])
  }

  function SelectDelta(out: RuleAgentOutput): Delta {
    Plain(PointersBucket, SetSelectedRunbookId, map[SelectedRunbookIdField := Text(out.runbookId)],
          "rule_agent", "Select runbook id for subsequent steps", map[])
  }

  function SeverityDelta(out: RuleAgentOutput): Delta {
    Plain(EvidenceBucket, SetFact, map[KeyField := Text("severity"), ValueField := Text(out.severity)],
          "rule_agent", "Severity from rule agent", map[])
  }

  function RunbookDelta(book: Runbook): Delta {
    Plain(PlanBucket, SetRunbook, map[RunbookField := RunbookValue(book)],
          "runbook_agent", "Fetched selected runbook", map[])
  }

  function CursorDelta(phase: string, id: string, index: int): Delta {
    Plain(PlanBucket, SetCursor,
          map[PhaseField := Text(phase), CurrentStepField := Text(id), CurrentIndexField := Int(index)],
          "workflow", "Advance plan cursor", map[])
  }

  function DiagnosticDelta(id: string, out: ObservabilityOutput): Delta {
    Plain(EvidenceBucket, RecordDiagnostic, map[StepIdField := Text(id), OutputField := ObservationValue(out)],
          "observability_agent", "", map["step_id" := id])
  }

  function CompletedDelta(id: string): Delta {
    Plain(ProgressBucket, MarkStepCompleted, map[StepIdField := Text(id)], "workflow", "", map[])
  }

  function ApprovalDelta(id: string, sig: ApprovalSignal): Delta {
    Plain(PolicyRiskBucket, AppendApproval,
          map[ApprovalField := ApprovalValue(sig), ReasonField := Text(sig.comment)],
          "human", "Approval signal received", map["step_id" := id, "approver" := sig.approver])
  }

  function ActionDelta(id: string, out: ExecOutput): Delta {
    Plain(EvidenceBucket, RecordAction, map[StepIdField := Text(id), OutputField := ExecValue(out)],
          "exec_agent", "", map["step_id" := id])
  }

  // ---------- specification of a run ----------

  function Do(env: Env, mem: Snapshot, d: Delta): Snapshot {
    Step(mem, Call(env.clock(|mem.deltas|), d))
  }

  function Intent(input: Input, env: Env): IntentState {
    var m := input.metadata;
    IntentState(input.incidentId, input.service, input.symptom, "resolve_incident",
                if "workflow_id" !in m || m["workflow_id"] == "" then m["workflow_id" := env.executionId] else m)
  }

  function Diagnose(env: Env, steps: seq<RunbookStep>, t: Trace, i: nat): Trace
    requires i < |steps|
  {
    var id := steps[i].id;
    var m := Do(env, t.mem, CursorDelta("diagnostics", id, i));
    var events := t.events + [Diagnosed(i)];
    match env.observe(i)
    case Failure(_) => Trace(m, t.pos, events, Running)
    case Success(out) =>
      var m' := Do(env, Do(env, m, DiagnosticDelta(id, out)), CompletedDelta(id));
      var (ok, why) := EvalDiagnosticGate(steps[i].gate, out, env.show);
      if ok then Trace(m', t.pos, events, Running)
      else Trace(Do(env, m', FailedDelta("diagnostic_gate_failed: " + why, "Fail-safe diagnostic gate",
                                         map["step_id" := id])),
                 t.pos, events, GateFailed(i, why))
  }

  /** The run after the first `n` diagnostics; a failed gate ends it. */
  function Diagnostics(env: Env, steps: seq<RunbookStep>, t: Trace, n: nat): Trace
    requires n <= |steps|
  {
    if n == 0 then t
    else
      var before := Diagnostics(env, steps, t, n - 1);
      if before.ending == Running then Diagnose(env, steps, before, n - 1) else before
  }

  /** The first signal for `id` at or after `pos`, or the length of the stream. */
  function FirstMatch(signals: seq<ApprovalSignal>, pos: nat, id: string): (p: nat)
    requires pos <= |signals|
    ensures pos <= p <= |signals|
    ensures p < |signals| ==> signals[p].stepId == id
    ensures forall q :: pos <= q < p ==> signals[q].stepId != id
    decreases |signals| - pos
  {
    if pos == |signals| || signals[pos].stepId == id then pos else FirstMatch(signals, pos + 1, id)
  }

  function Execute(env: Env, id: string, t: Trace, i: nat): Trace {
    var events := t.events + [Executed(i)];
    match env.execute(i)
    case Failure(err) => Trace(Do(env, t.mem, ActionDelta(id, ExecOutput(false, err))), t.pos, events, Running)
    case Success(out) =>
      Trace(Do(env, Do(env, t.mem, ActionDelta(id, out)), CompletedDelta(id)), t.pos, events, Running)
  }

  predicate Gated(step: RunbookStep, all: bool) {
    step.requiresApproval || all
  }

  function Act(env: Env, steps: seq<RunbookStep>, t: Trace, i: nat): (r: Trace)
    requires i < |steps| && t.pos <= |env.signals|
    ensures r.pos <= |env.signals|
  {
    var id := steps[i].id;
    var m := Do(env, t.mem, CursorDelta("actions", id, i));
    if !Gated(steps[i], m.policyRisk.requiresHumanApproval) then Execute(env, id, t.(mem := m), i)
    else
      var at := FirstMatch(env.signals, t.pos, id);
      if at == |env.signals| then Trace(m, at, t.events, Blocked(i))
      else
        var m' := Do(env, m, ApprovalDelta(id, env.signals[at]));
        var decided := Trace(m', at + 1, t.events + [Decided(i, at)], Running);
        if env.signals[at].approved then Execute(env, id, decided, i) else decided
  }

  /** The run after the first `n` actions; a receive that never returns ends it. */
  function Actions(env: Env, steps: seq<RunbookStep>, t: Trace, n: nat): (r: Trace)
    requires n <= |steps| && t.pos <= |env.signals|
    ensures r.pos <= |env.signals|
  {
    if n == 0 then t
    else
      var before := Actions(env, steps, t, n - 1);
      if before.ending == Running then Act(env, steps, before, n - 1) else before
  }

  function Ruled(env: Env, mem: Snapshot, out: RuleAgentOutput): Snapshot {
    Do(env, Do(env, Do(env, mem, PolicyDelta(out)), SelectDelta(out)), SeverityDelta(out))
  }

  function Planned(input: Input, env: Env): Trace
    requires env.rule.Success? && env.book.Success?
  {
    Trace(Do(env, Ruled(env, Initial(Intent(input, env)), env.rule.value), RunbookDelta(env.book.value)),
          0, [], Running)
  }

  function WorkflowRun(input: Input, env: Env): Trace {
    var m := Initial(Intent(input, env));
    match env.rule
    case Failure(err) => Trace(Do(env, m, FailedDelta("rule_agent_error", err, map[])), 0, [], RuleAgentFailed(err))
    case Success(out) =>
      match env.book
      case Failure(err) =>
        var failed := Do(env, Ruled(env, m, out), FailedDelta("runbook_agent_error", err, map[]));
        Trace(failed, 0, [], RunbookAgentFailed(err))
      case Success(book) =>
        var checked := Diagnostics(env, book.diagnostics, Planned(input, env), |book.diagnostics|);
        DiagnosticsKeepPos(env, book.diagnostics, Planned(input, env), |book.diagnostics|);
        if checked.ending != Running then checked
        else
          var acted := Actions(env, book.actions, checked, |book.actions|);
          if acted.ending == Running then acted.(ending := Completed) else acted
  }

  lemma DiagnosticsKeepPos(env: Env, steps: seq<RunbookStep>, t: Trace, n: nat)
    requires n <= |steps|
    ensures Diagnostics(env, steps, t, n).pos == t.pos
  {
  }

  /** What the workflow returns; `None` while it is blocked. */
  function ResultOf(input: Input, env: Env, t: Trace): Option<RunbookAutomationResult> {
    var rule := match env.rule case Success(out) => Some(out) case Failure(_) => None;
    var r := RunbookAutomationResult(
      input.incidentId, input.service, input.symptom, rule, t.mem.plan.runbook, map[], map[], None, true, "");
    match t.ending
    case RuleAgentFailed(_) => Some(r.(runbook := EMPTY_RUNBOOK, failureReason := "rule_agent_error"))
    case RunbookAgentFailed(_) => Some(r.(runbook := EMPTY_RUNBOOK, failureReason := "runbook_agent_error"))
    case GateFailed(_, why) =>
      Some(r.(completedAt := Some(env.clock(|t.mem.deltas|)), failureReason := "diagnostic_gate_failed: " + why))
    case Completed =>
      Some(r.(diagnostics := t.mem.evidence.diagnostics, actions := t.mem.evidence.actions,
              completedAt := Some(env.clock(|t.mem.deltas|)), failed := false))
    case _ => None
  }

  // ---------- the workflow ----------

  method Record(env: Env, mem: RunbookMemory, d: Delta)
    modifies mem
    ensures mem.State() == Do(env, old(mem.State()), d)
  {
    var _ := mem.Apply(env.clock(|mem.deltas|), d);
  }

  /** Receives signals until one decides `step`; `decision` is `None` when the stream ran dry. */
  method AwaitDecision(env: Env, step: RunbookStep, start: nat) returns (decision: Option<ApprovalSignal>, pos: nat)
    requires start <= |env.signals|
    ensures var at := FirstMatch(env.signals, start, step.id);
            if at == |env.signals| then decision == None && pos == at
            else decision == Some(env.signals[at]) && pos == at + 1
  {
    pos := start;
    while pos < |env.signals|
      invariant start <= pos <= |env.signals|
      invariant FirstMatch(env.signals, pos, step.id) == FirstMatch(env.signals, start, step.id)
    {
      var sig := env.signals[pos];
      pos := pos + 1;
      if sig.stepId != step.id { continue; }
      return Some(sig), pos;
    }
    return None, pos;
  }

  method RunDiagnostic(env: Env, mem: RunbookMemory, steps: seq<RunbookStep>, i: nat, ghost t: Trace)
    returns (failed: Option<string>)
    requires i < |steps| && t.mem == mem.State()
    modifies mem
    ensures Diagnose(env, steps, t, i) ==
            Trace(mem.State(), t.pos, t.events + [Diagnosed(i)],
                  match failed case None => Running case Some(why) => GateFailed(i, why))
  {
    hide Do;
    var step := steps[i];
    Record(env, mem, CursorDelta("diagnostics", step.id, i));
    match env.observe(i) {
      case Failure(_) => return None;
      case Success(obs) =>
        Record(env, mem, DiagnosticDelta(step.id, obs));
        Record(env, mem, CompletedDelta(step.id));
        var (ok, why) := EvalDiagnosticGate(step.gate, obs, env.show);
        if ok { return None; }
        Record(env, mem, FailedDelta("diagnostic_gate_failed: " + why, "Fail-safe diagnostic gate",
                                     map["step_id" := step.id]));
        return Some(why);
    }
  }

  method RunAction(env: Env, mem: RunbookMemory, steps: seq<RunbookStep>, i: nat, start: nat, ghost before: seq<Event>)
    returns (blocked: bool, pos: nat, events: seq<Event>)
    requires i < |steps| && start <= |env.signals|
    modifies mem
    ensures Act(env, steps, Trace(old(mem.State()), start, before, Running), i) ==
            Trace(mem.State(), pos, before + events, if blocked then Blocked(i) else Running)
  {
    hide Do;
    blocked, pos, events := false, start, [];
    var step := steps[i];
    Record(env, mem, CursorDelta("actions", step.id, i));
    if step.requiresApproval || mem.policyRisk.requiresHumanApproval {
      var decision;
      decision, pos := AwaitDecision(env, step, start);
      if decision == None {
        return true, pos, [];
      }
      Record(env, mem, ApprovalDelta(step.id, decision.value));
      events := [Decided(i, pos - 1)];
      if !decision.value.approved { return; }
      assert before + [Decided(i, pos - 1)] + [Executed(i)] == before + [Decided(i, pos - 1), Executed(i)];
    }
    events := events + [Executed(i)];
    match env.execute(i) {
      case Failure(err) =>
        Record(env, mem, ActionDelta(step.id, ExecOutput(false, err)));
      case Success(execOut) =>
        Record(env, mem, ActionDelta(step.id, execOut));
        Record(env, mem, CompletedDelta(step.id));
    }
  }

  method RunDiagnostics(env: Env, mem: RunbookMemory, steps: seq<RunbookStep>, ghost t: Trace)
    returns (events: seq<Event>, ending: Ending)
    requires t == Trace(mem.State(), 0, [], Running)
    modifies mem
    ensures Trace(mem.State(), 0, events, ending) == Diagnostics(env, steps, t, |steps|)
    ensures ending == Running || ending.GateFailed?
  {
    hide Diagnose;
    events, ending := [], Running;
    for i := 0 to |steps|
      invariant ending == Running
      invariant Trace(mem.State(), 0, events, Running) == Diagnostics(env, steps, t, i)
    {
      var failed := RunDiagnostic(env, mem, steps, i, Diagnostics(env, steps, t, i));
      events := events + [Diagnosed(i)];
      if failed.Some? {
        ending := GateFailed(i, failed.value);
        EndedDiagnosticsStay(env, steps, t, i + 1, |steps|);
        return;
      }
    }
  }

  method RunActions(env: Env, mem: RunbookMemory, steps: seq<RunbookStep>, ghost t: Trace)
    returns (pos: nat, events: seq<Event>, ending: Ending)
    requires t.mem == mem.State() && t.pos == 0 && t.ending == Running
    modifies mem
    ensures Trace(mem.State(), pos, t.events + events, ending) == Actions(env, steps, t, |steps|)
    ensures ending == Running || ending.Blocked?
  {
    hide Act;
    pos, events, ending := 0, [], Running;
    assert t.events + [] == t.events;
    for i := 0 to |steps|
      invariant ending == Running && pos <= |env.signals|
      invariant Trace(mem.State(), pos, t.events + events, Running) == Actions(env, steps, t, i)
    {
      var blocked, added;
      blocked, pos, added := RunAction(env, mem, steps, i, pos, t.events + events);
      assert t.events + events + added == t.events + (events + added);
      events := events + added;
      if blocked {
        ending := Blocked(i);
        EndedActionsStay(env, steps, t, i + 1, |steps|);
        return;
      }
    }
  }

  method RunbookAutomationWorkflow(input: Input, env: Env)
    returns (result: Option<RunbookAutomationResult>, mem: RunbookMemory, pos: nat, events: seq<Event>, ending: Ending)
    ensures fresh(mem)
    ensures Trace(mem.State(), pos, events, ending) == WorkflowRun(input, env)
    ensures result == ResultOf(input, env, WorkflowRun(input, env))
  {
    hide Do, Diagnostics, Actions;
    mem := new RunbookMemory(Intent(input, env));
    pos, events, ending := 0, [], Running;
    var out := RunbookAutomationResult(
      input.incidentId, input.service, input.symptom, None, EMPTY_RUNBOOK, map[], map[], None, false, "");

    match env.rule {
      case Failure(err) =>
        Record(env, mem, FailedDelta("rule_agent_error", err, map[]));
        ending := RuleAgentFailed(err);
        result := Some(out.(failed := true, failureReason := "rule_agent_error"));
        return;
      case Success(ruleOut) =>
        out := out.(ruleDecision := Some(ruleOut));
        Record(env, mem, PolicyDelta(ruleOut));
        Record(env, mem, SelectDelta(ruleOut));
        Record(env, mem, SeverityDelta(ruleOut));
    }

    match env.book {
      case Failure(err) =>
        Record(env, mem, FailedDelta("runbook_agent_error", err, map[]));
        ending := RunbookAgentFailed(err);
        result := Some(out.(failed := true, failureReason := "runbook_agent_error"));
        return;
      case Success(book) =>
        Record(env, mem, RunbookDelta(book));
    }
    RunbookStays(input, env);
    out := out.(runbook := mem.plan.runbook);
    var book := mem.plan.runbook;
    events, ending := RunDiagnostics(env, mem, book.diagnostics, Planned(input, env));
    ghost var checked := Trace(mem.State(), 0, events, ending);
    match ending {
      case GateFailed(_, why) =>
        result := Some(out.(failed := true, failureReason := "diagnostic_gate_failed: " + why,
                            completedAt := Some(env.clock(|mem.deltas|))));
        return;
      case _ =>
    }

    var acted;
    pos, acted, ending := RunActions(env, mem, book.actions, checked);
    events := events + acted;
    if ending.Blocked? { return None, mem, pos, events, ending; }
    ending := Completed;
    result := Some(out.(diagnostics := mem.evidence.diagnostics, actions := mem.evidence.actions,
                        runbook := mem.plan.runbook, completedAt := Some(env.clock(|mem.deltas|))));
  }

  /** Only `SetRunbook` changes the runbook, so every later phase still sees the one fetched. */
  lemma RunbookStays(input: Input, env: Env)
    requires env.rule.Success? && env.book.Success?
    ensures Planned(input, env).mem.plan.runbook == env.book.value
    ensures var steps := env.book.value.diagnostics;
            Diagnostics(env, steps, Planned(input, env), |steps|).mem.plan.runbook == env.book.value
  {
    DiagnosticsKeepRunbook(env, env.book.value.diagnostics, Planned(input, env), |env.book.value.diagnostics|);
  }

  lemma DiagnosticsKeepRunbook(env: Env, steps: seq<RunbookStep>, t: Trace, n: nat)
    requires n <= |steps|
    ensures Diagnostics(env, steps, t, n).mem.plan.runbook == t.mem.plan.runbook
  {
    hide Diagnose;
    if n > 0 {
      DiagnosticsKeepRunbook(env, steps, t, n - 1);
      DiagnoseKeepsRunbook(env, steps, Diagnostics(env, steps, t, n - 1), n - 1);
    }
  }

  lemma DiagnoseKeepsRunbook(env: Env, steps: seq<RunbookStep>, t: Trace, i: nat)
    requires i < |steps|
    ensures Diagnose(env, steps, t, i).mem.plan.runbook == t.mem.plan.runbook
  {
    hide Do;
    forall mem, d: Delta | d.action != SetRunbook {
      OtherDeltasKeepRunbook(env, mem, d);
    }
  }

  lemma OtherDeltasKeepRunbook(env: Env, mem: Snapshot, d: Delta)
    requires d.action != SetRunbook
    ensures Do(env, mem, d).plan.runbook == mem.plan.runbook
  {
  }

  lemma EndedDiagnosticsStay(env: Env, steps: seq<RunbookStep>, t: Trace, i: nat, n: nat)
    requires i <= n <= |steps|
    requires Diagnostics(env, steps, t, i).ending != Running
    ensures Diagnostics(env, steps, t, n) == Diagnostics(env, steps, t, i)
  {
    if i < n {
      EndedDiagnosticsStay(env, steps, t, i, n - 1);
    }
  }

  lemma EndedActionsStay(env: Env, steps: seq<RunbookStep>, t: Trace, i: nat, n: nat)
    requires i <= n <= |steps| && t.pos <= |env.signals|
    requires Actions(env, steps, t, i).ending != Running
    ensures Actions(env, steps, t, n) == Actions(env, steps, t, i)
  {
    if i < n {
      EndedActionsStay(env, steps, t, i, n - 1);
    }
  }
}
