/**
 The delta log RunbookAutomationWorkflow writes (internal/controlplane/temporal/runbook_workflow.go): who
 records what, after what and when.
 */
module WorkflowLog {
  import opened Wrappers
  import opened Memory
  import opened MemoryLog
  import opened Workflow

  // ---------- the protocol ----------

  function StepOf(d: Delta): string {
    TextOf(d.patch, if d.action == SetCursor then CurrentStepField else StepIdField)
  }

  /** The cursor stands on step `id` of `phase`. */
  predicate On(prev: Option<Delta>, phase: string, id: string) {
    && prev.Some? && prev.value.action == SetCursor
    && TextOf(prev.value.patch, PhaseField) == phase && StepOf(prev.value) == id
  }

  predicate After(prev: Option<Delta>, a: Action) {
    prev.Some? && prev.value.action == a
  }

  /** `prev` is a human's approval, for step `id`. */
  predicate ApprovedStep(prev: Option<Delta>, id: string) {
    && After(prev, AppendApproval) && Lookup(prev.value.patch, ApprovalField).ApprovalValue?
    && var sig := Lookup(prev.value.patch, ApprovalField).approval; sig.approved && sig.stepId == id
  }

  /** What may be recorded next after `prev`, and by whom. */
  predicate MayFollow(prev: Option<Delta>, d: Delta) {
    match d.action
    case SetRequiresHumanApproval => prev == None && d.actor == "rule_agent"
    case SetSelectedRunbookId => After(prev, SetRequiresHumanApproval) && d.actor == "rule_agent"
    case SetFact => After(prev, SetSelectedRunbookId) && d.actor == "rule_agent"
    case SetRunbook => After(prev, SetFact) && d.actor == "runbook_agent"
    case SetCursor =>
      d.actor == "workflow" &&
      (|| After(prev, SetRunbook) || After(prev, SetCursor) || After(prev, MarkStepCompleted)
       || After(prev, RecordAction) || After(prev, AppendApproval))
    case RecordDiagnostic =>
      && On(prev, "diagnostics", StepOf(d)) && d.actor == "observability_agent" && d.refs == map["step_id" := StepOf(d)]
    case AppendApproval =>
      && d.actor == "human" && Lookup(d.patch, ApprovalField).ApprovalValue?
      && var sig := Lookup(d.patch, ApprovalField).approval;
         On(prev, "actions", sig.stepId) && d.refs == map["step_id" := sig.stepId, "approver" := sig.approver]
    case RecordAction =>
      && (On(prev, "actions", StepOf(d)) || ApprovedStep(prev, StepOf(d)))
      && d.actor == "exec_agent" && d.refs == map["step_id" := StepOf(d)]
    case MarkStepCompleted =>
      && (After(prev, RecordDiagnostic) || After(prev, RecordAction)) && StepOf(prev.value) == StepOf(d)
      && d.actor == "workflow"
    case MarkFailed =>
      && d.actor == "workflow"
      && (|| prev == None || After(prev, SetFact)
          || (After(prev, MarkStepCompleted) && d.refs == map["step_id" := StepOf(prev.value)])
          || On(prev, "diagnostics", ""))
    case _ => false
  }

  function LastDelta(log: seq<DeltaEntry>): Option<Delta> {
    if log == [] then None else Some(AsDelta(log[|log| - 1]))
  }

  /** Each entry may follow the one before and carries the workflow's time of its moment. */
  ghost predicate Follows(env: Env, log: seq<DeltaEntry>) {
    forall k :: 0 <= k < |log| ==> MayFollow(LastDelta(log[..k]), AsDelta(log[k])) && log[k].at == env.clock(k)
  }

  lemma DoRecords(env: Env, m: Snapshot, d: Delta)
    requires d.expectedVer == 0 && d.action in Known(d.bucket)
    ensures var m' := Do(env, m, d);
      if WellTyped(d.action, d.patch) then
        && |m'.deltas| == |m.deltas| + 1 && m'.deltas[..|m.deltas|] == m.deltas
        && m'.deltas[|m.deltas|].at == env.clock(|m.deltas|) && AsDelta(m'.deltas[|m.deltas|]) == d
      else m' == m
  {
    hide Update, WellTyped;
    UpdateJudges(m, d.bucket, d.action, d.patch);
  }

  /** One delta more. */
  lemma DoFollows(env: Env, m: Snapshot, d: Delta)
    requires d.expectedVer == 0 && d.action in Known(d.bucket) && Follows(env, m.deltas)
    requires WellTyped(d.action, d.patch) ==> MayFollow(LastDelta(m.deltas), d)
    ensures Follows(env, Do(env, m, d).deltas)
    ensures LastDelta(Do(env, m, d).deltas) == if WellTyped(d.action, d.patch) then Some(d) else LastDelta(m.deltas)
  {
    hide Do, WellTyped, MayFollow;
    DoRecords(env, m, d);
    if WellTyped(d.action, d.patch) {
      var log, more := m.deltas, Do(env, m, d).deltas;
      forall k | 0 <= k < |more|
        ensures MayFollow(LastDelta(more[..k]), AsDelta(more[k])) && more[k].at == env.clock(k)
      {
        if k < |log| {
          assert more[..k] == log[..k] && more[k] == log[k];
        }
      }
    }
  }

  // ---------- the steps keep it ----------

  /** Between two steps. */
  ghost predicate Resting(env: Env, m: Snapshot) {
    && Follows(env, m.deltas)
    && MayFollow(LastDelta(m.deltas), CursorDelta("", "", 0))
  }

  lemma RuledFollows(env: Env, m: Snapshot, out: RuleAgentOutput)
    requires m.deltas == []
    ensures Follows(env, Ruled(env, m, out).deltas)
    ensures LastDelta(Ruled(env, m, out).deltas) == Some(SeverityDelta(out))
  {
    hide Do, Follows;
    assert Follows(env, m.deltas) by { NothingFollows(env); }
    DoFollows(env, m, PolicyDelta(out));
    var m1 := Do(env, m, PolicyDelta(out));
    DoFollows(env, m1, SelectDelta(out));
    DoFollows(env, Do(env, m1, SelectDelta(out)), SeverityDelta(out));
  }

  lemma NothingFollows(env: Env)
    ensures Follows(env, [])
  {
  }

  lemma PlannedRests(input: Input, env: Env)
    requires env.rule.Success? && env.book.Success?
    ensures Resting(env, Planned(input, env).mem)
  {
    hide Do, Follows, Ruled;
    var m := Initial(Intent(input, env));
    RuledFollows(env, m, env.rule.value);
    DoFollows(env, Ruled(env, m, env.rule.value), RunbookDelta(env.book.value));
  }

  /** An entry of one of the workflow's deltas. */
  predicate Recordable(d: Delta) {
    d.expectedVer == 0 && d.action in Known(d.bucket)
  }

  lemma CursorMoves(prev: Option<Delta>, phase: string, id: string, i: int)
    requires MayFollow(prev, CursorDelta("", "", 0))
    ensures var d := CursorDelta(phase, id, i);
            Recordable(d) && WellTyped(d.action, d.patch) && MayFollow(prev, d)
  {
  }

  lemma DiagnosticMoves(id: string, i: int, out: ObservabilityOutput, why: string)
    ensures var cursor, record, done := CursorDelta("diagnostics", id, i), DiagnosticDelta(id, out), CompletedDelta(id);
      var failed := FailedDelta(why, "Fail-safe diagnostic gate", map["step_id" := id]);
      && Recordable(record) && (WellTyped(record.action, record.patch) <==> id != "") && MayFollow(Some(cursor), record)
      && Recordable(done) && (WellTyped(done.action, done.patch) <==> id != "") && MayFollow(Some(record), done)
      && Recordable(failed) && WellTyped(failed.action, failed.patch)
      && MayFollow(if id == "" then Some(cursor) else Some(done), failed)
      && MayFollow(Some(cursor), CursorDelta("", "", 0)) && MayFollow(Some(done), CursorDelta("", "", 0))
  {
  }

  lemma DiagnoseFollows(env: Env, steps: seq<RunbookStep>, t: Trace, i: nat)
    requires i < |steps| && Resting(env, t.mem)
    ensures var r := Diagnose(env, steps, t, i);
      Follows(env, r.mem.deltas) && (r.ending == Running ==> Resting(env, r.mem))
  {
    hide Do, Follows, EvalDiagnosticGate, MayFollow, WellTyped, CursorDelta, DiagnosticDelta, CompletedDelta,
         FailedDelta, LastDelta;
    var id := steps[i].id;
    CursorMoves(LastDelta(t.mem.deltas), "diagnostics", id, i);
    DoFollows(env, t.mem, CursorDelta("diagnostics", id, i));
    var m := Do(env, t.mem, CursorDelta("diagnostics", id, i));
    var out := match env.observe(i) case Success(o) => o case Failure(_) => ObservabilityOutput("", None, false);
    var why := "diagnostic_gate_failed: " + EvalDiagnosticGate(steps[i].gate, out, env.show).1;
    DiagnosticMoves(id, i, out, why);
    if env.observe(i).Success? {
      DoFollows(env, m, DiagnosticDelta(id, out));
      var m1 := Do(env, m, DiagnosticDelta(id, out));
      DoFollows(env, m1, CompletedDelta(id));
      DoFollows(env, Do(env, m1, CompletedDelta(id)),
                FailedDelta(why, "Fail-safe diagnostic gate", map["step_id" := id]));
    }
  }

  lemma ActionMoves(prev: Option<Delta>, id: string, out: ExecOutput)
    requires On(prev, "actions", id) || ApprovedStep(prev, id)
    ensures var record, done := ActionDelta(id, out), CompletedDelta(id);
      && Recordable(record) && (WellTyped(record.action, record.patch) <==> id != "") && MayFollow(prev, record)
      && Recordable(done) && (WellTyped(done.action, done.patch) <==> id != "") && MayFollow(Some(record), done)
      && MayFollow(Some(record), CursorDelta("", "", 0)) && MayFollow(Some(done), CursorDelta("", "", 0))
      && MayFollow(prev, CursorDelta("", "", 0))
  {
  }

  lemma ApprovalMoves(id: string, i: int, sig: ApprovalSignal)
    requires sig.stepId == id
    ensures var cursor, approval := CursorDelta("actions", id, i), ApprovalDelta(id, sig);
      && On(Some(cursor), "actions", id) && MayFollow(Some(cursor), CursorDelta("", "", 0))
      && Recordable(approval) && WellTyped(approval.action, approval.patch) && MayFollow(Some(cursor), approval)
      && MayFollow(Some(approval), CursorDelta("", "", 0)) && (sig.approved ==> ApprovedStep(Some(approval), id))
  {
  }

  lemma ExecuteFollows(env: Env, id: string, t: Trace, i: nat)
    requires Follows(env, t.mem.deltas)
    requires On(LastDelta(t.mem.deltas), "actions", id) || ApprovedStep(LastDelta(t.mem.deltas), id)
    ensures Resting(env, Execute(env, id, t, i).mem)
  {
    hide Do, Follows, MayFollow, WellTyped, CursorDelta, ActionDelta, CompletedDelta, LastDelta, On, ApprovedStep;
    var out := match env.execute(i) case Success(o) => o case Failure(err) => ExecOutput(false, err);
    ActionMoves(LastDelta(t.mem.deltas), id, out);
    DoFollows(env, t.mem, ActionDelta(id, out));
    if env.execute(i).Success? {
      DoFollows(env, Do(env, t.mem, ActionDelta(id, out)), CompletedDelta(id));
    }
  }

  lemma ActFollows(env: Env, steps: seq<RunbookStep>, t: Trace, i: nat)
    requires i < |steps| && t.pos <= |env.signals| && Resting(env, t.mem)
    ensures var r := Act(env, steps, t, i);
      Follows(env, r.mem.deltas) && (r.ending == Running ==> Resting(env, r.mem))
  {
    hide Do, Follows, Execute, MayFollow, WellTyped, CursorDelta, ApprovalDelta, LastDelta, On, ApprovedStep;
    var id := steps[i].id;
    CursorMoves(LastDelta(t.mem.deltas), "actions", id, i);
    DoFollows(env, t.mem, CursorDelta("actions", id, i));
    var m := Do(env, t.mem, CursorDelta("actions", id, i));
    ApprovalMoves(id, i, ApprovalSignal(id, false, "", ""));
    var at := FirstMatch(env.signals, t.pos, id);
    if !Gated(steps[i], m.policyRisk.requiresHumanApproval) {
      ExecuteFollows(env, id, t.(mem := m), i);
    } else if at < |env.signals| {
      ApprovalMoves(id, i, env.signals[at]);
      DoFollows(env, m, ApprovalDelta(id, env.signals[at]));
      if env.signals[at].approved {
        var m' := Do(env, m, ApprovalDelta(id, env.signals[at]));
        ExecuteFollows(env, id, Trace(m', at + 1, t.events + [Decided(i, at)], Running), i);
      }
    }
  }

  lemma {:induction false} DiagnosticsFollow(env: Env, steps: seq<RunbookStep>, t: Trace, n: nat)
    requires n <= |steps| && t.ending == Running && Resting(env, t.mem)
    ensures var r := Diagnostics(env, steps, t, n);
      Follows(env, r.mem.deltas) && (r.ending == Running ==> Resting(env, r.mem))
  {
    hide Diagnose, MayFollow, Follows;
    if n > 0 {
      DiagnosticsFollow(env, steps, t, n - 1);
      var before := Diagnostics(env, steps, t, n - 1);
      if before.ending == Running { DiagnoseFollows(env, steps, before, n - 1); }
    }
  }

  lemma {:induction false} ActionsFollow(env: Env, steps: seq<RunbookStep>, t: Trace, n: nat)
    requires n <= |steps| && t.pos <= |env.signals| && t.ending == Running && Resting(env, t.mem)
    ensures var r := Actions(env, steps, t, n);
      Follows(env, r.mem.deltas) && (r.ending == Running ==> Resting(env, r.mem))
  {
    hide Act, MayFollow, Follows;
    if n > 0 {
      ActionsFollow(env, steps, t, n - 1);
      var before := Actions(env, steps, t, n - 1);
      if before.ending == Running { ActFollows(env, steps, before, n - 1); }
    }
  }

  /**
   In the log of every run each entry follows its predecessor as the protocol has it: the agents' entries
   come first, in order; evidence is recorded on the cursor's step, by the agent that gave it, an action's
   after the human's approval for it if there is one; a step is marked completed only right after its
   evidence; and the workflow marks a failure after an agent's error or a completed diagnostic. Each entry
   carries the time the workflow's clock showed.
   */
  lemma LogFollowsTheProtocol(input: Input, env: Env)
    ensures Follows(env, WorkflowRun(input, env).mem.deltas)
  {
    hide Do, Diagnostics, Actions, Follows, Ruled;
    var m := Initial(Intent(input, env));
    NothingFollows(env);
    if env.rule.Failure? {
      DoFollows(env, m, FailedDelta("rule_agent_error", env.rule.error, map[]));
    } else if env.book.Failure? {
      RuledFollows(env, m, env.rule.value);
      DoFollows(env, Ruled(env, m, env.rule.value), FailedDelta("runbook_agent_error", env.book.error, map[]));
    } else {
      var book, t := env.book.value, Planned(input, env);
      PlannedRests(input, env);
      DiagnosticsFollow(env, book.diagnostics, t, |book.diagnostics|);
      DiagnosticsKeepPos(env, book.diagnostics, t, |book.diagnostics|);
      var checked := Diagnostics(env, book.diagnostics, t, |book.diagnostics|);
      if checked.ending == Running { ActionsFollow(env, book.actions, checked, |book.actions|); }
    }
  }
}
