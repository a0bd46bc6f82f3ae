/**
 The data of runbook automation (internal/controlplane/contracts/run-book-a2a.go) and its
 workflow-owned, event-sourced memory (internal/controlplane/temporal/runbook_memory.go).

 Bucket names, action names and patch keys are strings in the source; here each is a datatype
 with one constructor per constant and one for every other string.
 */
module Memory {
  import opened Wrappers

  // ---------- contracts ----------

  /** `gate_threshold` of a step's input: absent, present but not a number, or a number. */
  datatype Threshold = Missing | Unparsable | Number(value: real)

  /** The trimmed `gate_*` inputs of a step; "" stands for an absent signal or operator. */
  datatype Gate = Gate(sig: string, op: string, threshold: Threshold)

  datatype RunbookStep = RunbookStep(
    id: string, name: string, taskType: string, gate: Gate, requiresApproval: bool)

  datatype Runbook = Runbook(
    id: string, version: string, name: string,
    diagnostics: seq<RunbookStep>, actions: seq<RunbookStep>)

  datatype ObservabilityOutput = ObservabilityOutput(
    summary: string, signals: Option<map<string, real>>, degraded: bool)

  datatype ExecOutput = ExecOutput(success: bool, details: string)

  datatype ApprovalSignal = ApprovalSignal(
    stepId: string, approved: bool, approver: string, comment: string)

  // ---------- the six buckets ----------

  datatype IntentState = IntentState(
    incidentId: string, service: string, symptom: string, goal: string,
    metadata: map<string, string>)

  datatype PlanState = PlanState(
    runbook: Runbook, phase: string, currentStep: string, currentIndex: int)

  datatype EvidenceState = EvidenceState(
    diagnostics: map<string, ObservabilityOutput>,
    actions: map<string, ExecOutput>,
    facts: map<string, Value>)

  datatype PolicyRiskState = PolicyRiskState(
    requiresHumanApproval: bool, approvalReasons: seq<string>, approvals: seq<ApprovalSignal>)

  datatype ProgressState = ProgressState(
    completedSteps: seq<string>, failed: bool, failureReason: string)

  datatype PointersState = PointersState(
    selectedRunbookId: string, artifacts: map<string, string>)

  // ---------- deltas ----------

  datatype Bucket =
    | UnnamedBucket
    | IntentBucket | PlanBucket | EvidenceBucket
    | PolicyRiskBucket | ProgressBucket | PointersBucket
    | OtherBucket(name: string)

  datatype Action =
    | UnnamedAction
    | SetGoal
    | SetRunbook | SetCursor
    | RecordDiagnostic | RecordAction | SetFact
    | SetRequiresHumanApproval | AppendApproval
    | MarkStepCompleted | MarkFailed
    | SetSelectedRunbookId | SetArtifactPointer
    | OtherAction(name: string)

  datatype Field =
    | GoalField | RunbookField | PhaseField | CurrentStepField | CurrentIndexField
    | StepIdField | OutputField | KeyField | ValueField
    | RequiresHumanApprovalField | ReasonField | ApprovalField | SelectedRunbookIdField
    | OtherField(name: string)

  /** A patch value of Go type `any`; a failed type assertion is a mismatched constructor. */
  datatype Value =
    | Nil
    | Bool(flag: bool)
    | Text(text: string)
    | Int(number: int)
    | ApprovalValue(approval: ApprovalSignal)
    | RunbookValue(runbook: Runbook)
    | ObservationValue(observation: ObservabilityOutput)
    | ExecValue(exec: ExecOutput)

  type Patch = map<Field, Value>

  datatype Delta = Delta(
    bucket: Bucket, action: Action, patch: Patch,
    actor: string, rationale: string, refs: map<string, string>, expectedVer: int)

  datatype DeltaEntry = DeltaEntry(
    at: int, bucket: Bucket, action: Action, patch: Patch,
    actor: string, rationale: string, refs: map<string, string>, prevVer: int, nextVer: int)

  datatype ApplyError =
    | BucketRequired | ActionRequired
    | VersionMismatch(expected: int, got: int)
    | UnsupportedAction | UnknownBucket | BadPatch

  /** The whole memory as a value. */
  datatype Snapshot = Snapshot(
    intent: IntentState, plan: PlanState, evidence: EvidenceState, policyRisk: PolicyRiskState,
    progress: ProgressState, pointers: PointersState,
    versions: map<Bucket, int>, deltas: seq<DeltaEntry>)

  const EMPTY_RUNBOOK := Runbook("", "", "", [], [])

  function Initial(intent: IntentState): Snapshot {
    Snapshot(
      intent, PlanState(EMPTY_RUNBOOK, "", "", 0), EvidenceState(map[], map[], map[]),
      PolicyRiskState(false, [], []), ProgressState([], false, ""), PointersState("", map[]),
      map[IntentBucket := 1, PlanBucket := 0, EvidenceBucket := 0,
          PolicyRiskBucket := 0, ProgressBucket := 0, PointersBucket := 0],
      [])
  }

  function Lookup(patch: Patch, f: Field): Value {
    if f in patch then patch[f] else Nil
  }

  /** `s, _ := patch[f].(string)`. */
  function TextOf(patch: Patch, f: Field): string {
    var v := Lookup(patch, f);
    if v.Text? then v.text else ""
  }

  function Version(s: Snapshot, b: Bucket): int {
    if b in s.versions then s.versions[b] else 0
  }

  // ---------- what each bucket does with a delta ----------

  function WithReason(reasons: seq<string>, patch: Patch): seq<string> {
    var r := TextOf(patch, ReasonField);
    if r != "" then reasons + [r] else reasons
  }

  function UpdatePolicyRisk(p: PolicyRiskState, a: Action, patch: Patch): Result<PolicyRiskState, ApplyError> {
    match a
    case SetRequiresHumanApproval =>
      var v := Lookup(patch, RequiresHumanApprovalField);
      Success(PolicyRiskState(if v.Bool? then v.flag else p.requiresHumanApproval,
                              WithReason(p.approvalReasons, patch), p.approvals))
    case AppendApproval =>
      var v := Lookup(patch, ApprovalField);
      if v.ApprovalValue? then
        Success(PolicyRiskState(p.requiresHumanApproval, WithReason(p.approvalReasons, patch),
                                p.approvals + [v.approval]))
      else Failure(BadPatch)
    case _ => Failure(UnsupportedAction)
  }

  function UpdatePointers(p: PointersState, a: Action, patch: Patch): Result<PointersState, ApplyError> {
    match a
    case SetSelectedRunbookId =>
      var v := Lookup(patch, SelectedRunbookIdField);
      Success(if v.Text? then p.(selectedRunbookId := v.text) else p)
    case SetArtifactPointer =>
      var k, v := TextOf(patch, KeyField), TextOf(patch, ValueField);
      Success(if k != "" && v != "" then p.(artifacts := p.artifacts[k := v]) else p)
    case _ => Failure(UnsupportedAction)
  }

  function UpdatePlan(p: PlanState, a: Action, patch: Patch): Result<PlanState, ApplyError> {
    match a
    case SetRunbook =>
      var v := Lookup(patch, RunbookField);
      if v.RunbookValue? then Success(p.(runbook := v.runbook)) else Failure(BadPatch)
    case SetCursor =>
      var phase, step, index :=
        TextOf(patch, PhaseField), Lookup(patch, CurrentStepField), Lookup(patch, CurrentIndexField);
      Success(PlanState(p.runbook,
                        if phase != "" then phase else p.phase,
                        if step.Text? then step.text else p.currentStep,
                        if index.Int? then index.number else p.currentIndex))
    case _ => Failure(UnsupportedAction)
  }

  function UpdateEvidence(e: EvidenceState, a: Action, patch: Patch): Result<EvidenceState, ApplyError> {
    match a
    case RecordDiagnostic =>
      var id, v := TextOf(patch, StepIdField), Lookup(patch, OutputField);
      if id != "" && v.ObservationValue? then Success(e.(diagnostics := e.diagnostics[id := v.observation]))
      else Failure(BadPatch)
    case RecordAction =>
      var id, v := TextOf(patch, StepIdField), Lookup(patch, OutputField);
      if id != "" && v.ExecValue? then Success(e.(actions := e.actions[id := v.exec]))
      else Failure(BadPatch)
    case SetFact =>
      var k := TextOf(patch, KeyField);
      if k != "" then Success(e.(facts := e.facts[k := Lookup(patch, ValueField)]))
      else Failure(BadPatch)
    case _ => Failure(UnsupportedAction)
  }

  function UpdateProgress(p: ProgressState, a: Action, patch: Patch): Result<ProgressState, ApplyError> {
    match a
    case MarkStepCompleted =>
      var id := TextOf(patch, StepIdField);
      if id != "" then Success(p.(completedSteps := p.completedSteps + [id])) else Failure(BadPatch)
    case MarkFailed =>
      var v := Lookup(patch, ReasonField);
      Success(p.(failed := true, failureReason := if v.Text? then v.text else p.failureReason))
    case _ => Failure(UnsupportedAction)
  }

  function UpdateIntent(i: IntentState, a: Action, patch: Patch): Result<IntentState, ApplyError> {
    match a
    case SetGoal =>
      var v := Lookup(patch, GoalField);
      Success(if v.Text? then i.(goal := v.text) else i)
    case _ => Failure(UnsupportedAction)
  }

  /** One bucket's contents, detached from the others. */
  datatype Contents =
    | OfIntent(intent: IntentState) | OfPlan(plan: PlanState) | OfEvidence(evidence: EvidenceState)
    | OfPolicyRisk(policyRisk: PolicyRiskState) | OfProgress(progress: ProgressState)
    | OfPointers(pointers: PointersState) | NoContents

  function View(s: Snapshot, b: Bucket): Contents {
    match b
    case IntentBucket => OfIntent(s.intent)
    case PlanBucket => OfPlan(s.plan)
    case EvidenceBucket => OfEvidence(s.evidence)
    case PolicyRiskBucket => OfPolicyRisk(s.policyRisk)
    case ProgressBucket => OfProgress(s.progress)
    case PointersBucket => OfPointers(s.pointers)
    case _ => NoContents
  }

  /** The bucket switch: a bucket's new contents depend on its old contents only. */
  function Update(c: Contents, a: Action, patch: Patch): Result<Contents, ApplyError> {
    match c
    case OfIntent(i) =>
      (match UpdateIntent(i, a, patch) case Success(v) => Success(OfIntent(v)) case Failure(e) => Failure(e))
    case OfPlan(p) =>
      (match UpdatePlan(p, a, patch) case Success(v) => Success(OfPlan(v)) case Failure(e) => Failure(e))
    case OfEvidence(x) =>
      (match UpdateEvidence(x, a, patch) case Success(v) => Success(OfEvidence(v)) case Failure(e) => Failure(e))
    case OfPolicyRisk(p) =>
      (match UpdatePolicyRisk(p, a, patch) case Success(v) => Success(OfPolicyRisk(v)) case Failure(e) => Failure(e))
    case OfProgress(p) =>
      (match UpdateProgress(p, a, patch) case Success(v) => Success(OfProgress(v)) case Failure(e) => Failure(e))
    case OfPointers(p) =>
      (match UpdatePointers(p, a, patch) case Success(v) => Success(OfPointers(v)) case Failure(e) => Failure(e))
    case NoContents => Failure(UnknownBucket)
  }

  function Put(s: Snapshot, c: Contents): Snapshot {
    match c
    case OfIntent(v) => s.(intent := v)
    case OfPlan(v) => s.(plan := v)
    case OfEvidence(v) => s.(evidence := v)
    case OfPolicyRisk(v) => s.(policyRisk := v)
    case OfProgress(v) => s.(progress := v)
    case OfPointers(v) => s.(pointers := v)
    case NoContents => s
  }

  function Entry(now: int, d: Delta, prev: int): DeltaEntry {
    DeltaEntry(now, d.bucket, d.action, d.patch, d.actor, d.rationale, d.refs, prev, prev + 1)
  }

  /** The specification of `Apply`: the memory it leaves, or the error it returns. */
  function Applied(s: Snapshot, now: int, d: Delta): Result<Snapshot, ApplyError> {
    var ver := Version(s, d.bucket);
    if d.bucket == UnnamedBucket then Failure(BucketRequired)
    else if d.action == UnnamedAction then Failure(ActionRequired)
    else if d.expectedVer > 0 && ver != d.expectedVer then Failure(VersionMismatch(d.expectedVer, ver))
    else
      match Update(View(s, d.bucket), d.action, d.patch)
      case Failure(e) => Failure(e)
      case Success(c) =>
        Success(Put(s, c).(versions := s.versions[d.bucket := ver + 1],
                           deltas := s.deltas + [Entry(now, d, ver)]))
  }

  /** `RunbookMemory`: six mutable buckets, their versions and the delta log. */
  class RunbookMemory {
    var intent: IntentState
    var plan: PlanState
    var evidence: EvidenceState
    var policyRisk: PolicyRiskState
    var progress: ProgressState
    var pointers: PointersState
    var versions: map<Bucket, int>
    var deltas: seq<DeltaEntry>

    function State(): Snapshot
      reads this
    {
      Snapshot(intent, plan, evidence, policyRisk, progress, pointers, versions, deltas)
    }

    constructor (intent: IntentState)
      ensures State() == Initial(intent)
    {
      this.intent := intent;
      plan := PlanState(EMPTY_RUNBOOK, "", "", 0);
      evidence := EvidenceState(map[], map[], map[]);
      policyRisk := PolicyRiskState(false, [], []);
      progress := ProgressState([], false, "");
      pointers := PointersState("", map[]);
      versions := map[IntentBucket := 1, PlanBucket := 0, EvidenceBucket := 0,
                      PolicyRiskBucket := 0, ProgressBucket := 0, PointersBucket := 0];
      deltas := [];
    }

    method BucketVer(b: Bucket) returns (ver: int)
      ensures ver == Version(State(), b)
    {
      if b in versions {
        ver := versions[b];
      } else {
        ver := 0;
      }
    }

    method Bump(b: Bucket) returns (prev: int, next: int)
      modifies this`versions
      ensures prev == Version(old(State()), b) && next == prev + 1
      ensures versions == old(versions)[b := next]
    {
      prev := BucketVer(b);
      next := prev + 1;
      versions := versions[b := next];
    }

    /** The error is `None` exactly when the delta was accepted; a rejected delta changes nothing. */
    method Apply(now: int, d: Delta) returns (err: Option<ApplyError>)
      modifies this
      ensures match Applied(old(State()), now, d)
              case Success(after) => err == None && State() == after
              case Failure(e) => err == Some(e) && State() == old(State())
    {
      hide Update, Put;
      if d.bucket == UnnamedBucket { return Some(BucketRequired); }
      if d.action == UnnamedAction { return Some(ActionRequired); }
      var ver := BucketVer(d.bucket);
      if d.expectedVer > 0 && ver != d.expectedVer {
        return Some(VersionMismatch(d.expectedVer, ver));
      }
      err := Mutate(d.bucket, d.action, d.patch);
      if err.Some? { return; }
      var prev, next := Bump(d.bucket);
      deltas := deltas + [DeltaEntry(now, d.bucket, d.action, d.patch, d.actor, d.rationale, d.refs, prev, next)];
    }

    /** The switch over buckets. */
    method Mutate(b: Bucket, a: Action, patch: Patch) returns (err: Option<ApplyError>)
      modifies `intent, `plan, `evidence, `policyRisk, `progress, `pointers
      ensures match Update(View(old(State()), b), a, patch)
              case Success(c) => err == None && State() == Put(old(State()), c)
              case Failure(e) => err == Some(e) && State() == old(State())
    {
      hide UpdateIntent, UpdatePlan, UpdateEvidence, UpdatePolicyRisk, UpdateProgress, UpdatePointers;
      match b {
        case PolicyRiskBucket => err := MutatePolicyRisk(a, patch);
        case PointersBucket => err := MutatePointers(a, patch);
        case PlanBucket => err := MutatePlan(a, patch);
        case EvidenceBucket => err := MutateEvidence(a, patch);
        case ProgressBucket => err := MutateProgress(a, patch);
        case IntentBucket => err := MutateIntent(a, patch);
        case _ => err := Some(UnknownBucket);
      }
    }

    method MutatePolicyRisk(a: Action, patch: Patch) returns (err: Option<ApplyError>)
      modifies `policyRisk
      ensures match UpdatePolicyRisk(old(policyRisk), a, patch)
              case Success(v) => err == None && policyRisk == v
              case Failure(e) => err == Some(e) && policyRisk == old(policyRisk)
    {
      match a {
        case SetRequiresHumanApproval =>
          var v := Lookup(patch, RequiresHumanApprovalField);
          if v.Bool? { policyRisk := policyRisk.(requiresHumanApproval := v.flag); }
          AppendReason(patch);
        case AppendApproval =>
          var v := Lookup(patch, ApprovalField);
          if !v.ApprovalValue? { return Some(BadPatch); }
          policyRisk := policyRisk.(approvals := policyRisk.approvals + [v.approval]);
          AppendReason(patch);
        case _ => return Some(UnsupportedAction);
      }
      return None;
    }

    method MutatePointers(a: Action, patch: Patch) returns (err: Option<ApplyError>)
      modifies `pointers
      ensures match UpdatePointers(old(pointers), a, patch)
              case Success(v) => err == None && pointers == v
              case Failure(e) => err == Some(e) && pointers == old(pointers)
    {
      match a {
        case SetSelectedRunbookId =>
          var v := Lookup(patch, SelectedRunbookIdField);
          if v.Text? { pointers := pointers.(selectedRunbookId := v.text); }
        case SetArtifactPointer =>
          var k, v := TextOf(patch, KeyField), TextOf(patch, ValueField);
          if k != "" && v != "" { pointers := pointers.(artifacts := pointers.artifacts[k := v]); }
        case _ => return Some(UnsupportedAction);
      }
      return None;
    }

    method MutatePlan(a: Action, patch: Patch) returns (err: Option<ApplyError>)
      modifies `plan
      ensures match UpdatePlan(old(plan), a, patch)
              case Success(v) => err == None && plan == v
              case Failure(e) => err == Some(e) && plan == old(plan)
    {
      match a {
        case SetRunbook =>
          var v := Lookup(patch, RunbookField);
          if !v.RunbookValue? { return Some(BadPatch); }
          plan := plan.(runbook := v.runbook);
        case SetCursor =>
          var phase := TextOf(patch, PhaseField);
          if phase != "" { plan := plan.(phase := phase); }
          var step := Lookup(patch, CurrentStepField);
          if step.Text? { plan := plan.(currentStep := step.text); }
          var index := Lookup(patch, CurrentIndexField);
          if index.Int? { plan := plan.(currentIndex := index.number); }
        case _ => return Some(UnsupportedAction);
      }
      return None;
    }

    method MutateEvidence(a: Action, patch: Patch) returns (err: Option<ApplyError>)
      modifies `evidence
      ensures match UpdateEvidence(old(evidence), a, patch)
              case Success(v) => err == None && evidence == v
              case Failure(e) => err == Some(e) && evidence == old(evidence)
    {
      match a {
        case RecordDiagnostic =>
          var id, v := TextOf(patch, StepIdField), Lookup(patch, OutputField);
          if id == "" || !v.ObservationValue? { return Some(BadPatch); }
          evidence := evidence.(diagnostics := evidence.diagnostics[id := v.observation]);
        case RecordAction =>
          var id, v := TextOf(patch, StepIdField), Lookup(patch, OutputField);
          if id == "" || !v.ExecValue? { return Some(BadPatch); }
          evidence := evidence.(actions := evidence.actions[id := v.exec]);
        case SetFact =>
          var k := TextOf(patch, KeyField);
          if k == "" { return Some(BadPatch); }
          evidence := evidence.(facts := evidence.facts[k := Lookup(patch, ValueField)]);
        case _ => return Some(UnsupportedAction);
      }
      return None;
    }

    method MutateProgress(a: Action, patch: Patch) returns (err: Option<ApplyError>)
      modifies `progress
      ensures match UpdateProgress(old(progress), a, patch)
              case Success(v) => err == None && progress == v
              case Failure(e) => err == Some(e) && progress == old(progress)
    {
      match a {
        case MarkStepCompleted =>
          var id := TextOf(patch, StepIdField);
          if id == "" { return Some(BadPatch); }
          progress := progress.(completedSteps := progress.completedSteps + [id]);
        case MarkFailed =>
          progress := progress.(failed := true);
          var v := Lookup(patch, ReasonField);
          if v.Text? { progress := progress.(failureReason := v.text); }
        case _ => return Some(UnsupportedAction);
      }
      return None;
    }

    method MutateIntent(a: Action, patch: Patch) returns (err: Option<ApplyError>)
      modifies `intent
      ensures match UpdateIntent(old(intent), a, patch)
              case Success(v) => err == None && intent == v
              case Failure(e) => err == Some(e) && intent == old(intent)
    {
      match a {
        case SetGoal =>
          var v := Lookup(patch, GoalField);
          if v.Text? { intent := intent.(goal := v.text); }
        case _ => return Some(UnsupportedAction);
      }
      return None;
    }

    method AppendReason(patch: Patch)
      modifies `policyRisk
      ensures policyRisk == old(policyRisk).(approvalReasons := WithReason(old(policyRisk.approvalReasons), patch))
    {
      var r := TextOf(patch, ReasonField);
      if r != "" {
        policyRisk := policyRisk.(approvalReasons := policyRisk.approvalReasons + [r]);
      }
    }
  }

  // ---------- runs ----------

  datatype Call = Call(now: int, delta: Delta)

  /** One call of `Apply` whose error is ignored, as every caller in the workflow does. */
  function Step(s: Snapshot, c: Call): Snapshot {
    match Applied(s, c.now, c.delta)
    case Success(t) => t
    case Failure(_) => s
  }

  function Run(s: Snapshot, calls: seq<Call>): Snapshot {
    if calls == [] then s else Step(Run(s, calls[..|calls| - 1]), calls[|calls| - 1])
  }

  /** A log entry read back as the delta it records. */
  function AsDelta(e: DeltaEntry): Delta {
    Delta(e.bucket, e.action, e.patch, e.actor, e.rationale, e.refs, 0)
  }

  function Replay(s: Snapshot, log: seq<DeltaEntry>): Result<Snapshot, ApplyError> {
    if log == [] then Success(s)
    else
      match Replay(s, log[..|log| - 1])
      case Failure(e) => Failure(e)
      case Success(t) => Applied(t, log[|log| - 1].at, AsDelta(log[|log| - 1]))
  }

  lemma ReplaySnoc(s: Snapshot, log: seq<DeltaEntry>, e: DeltaEntry)
    ensures Replay(s, log + [e]) ==
            match Replay(s, log) case Failure(x) => Failure(x) case Success(t) => Applied(t, e.at, AsDelta(e))
  {
    assert (log + [e])[..|log|] == log;
  }

  /** The expected version gates a delta but has no part in its effect. */
  lemma LoggedDeltaActsTheSame(s: Snapshot, now: int, d: Delta)
    requires Applied(s, now, d).Success?
    ensures var e := Entry(now, d, Version(s, d.bucket));
            Applied(s, now, d).value.deltas == s.deltas + [e] && Applied(s, e.at, AsDelta(e)) == Applied(s, now, d)
  {
  }

  /**
   Replaying what a run appended to the log always succeeds and rebuilds the memory the run left:
   the six buckets, the versions and the log. With `s := Initial(intent)` this is a replay from scratch.
   */
  lemma {:induction false} ReplayRebuilds(s: Snapshot, calls: seq<Call>)
    ensures s.deltas <= Run(s, calls).deltas
    ensures Replay(s, Run(s, calls).deltas[|s.deltas|..]) == Success(Run(s, calls))
  {
    hide Applied;
    if calls == [] {
      assert s.deltas[|s.deltas|..] == [];
    } else {
      var before, last, after := Run(s, calls[..|calls| - 1]), calls[|calls| - 1], Run(s, calls);
      ReplayRebuilds(s, calls[..|calls| - 1]);
      if Applied(before, last.now, last.delta).Success? {
        LoggedDeltaActsTheSame(before, last.now, last.delta);
        var e := Entry(last.now, last.delta, Version(before, last.delta.bucket));
        assert after.deltas[|s.deltas|..] == before.deltas[|s.deltas|..] + [e];
        ReplaySnoc(s, before.deltas[|s.deltas|..], e);
      }
    }
  }

  // ---------- version discipline ----------

  function Count(log: seq<DeltaEntry>, b: Bucket): nat {
    if log == [] then 0
    else Count(log[..|log| - 1], b) + if log[|log| - 1].bucket == b then 1 else 0
  }

  lemma CountSnoc(log: seq<DeltaEntry>, e: DeltaEntry, b: Bucket)
    ensures Count(log + [e], b) == Count(log, b) + if e.bucket == b then 1 else 0
  {
    assert (log + [e])[..|log|] == log;
  }

  /** Each bucket's version counts its entries, and its entries chain without a gap. */
  ghost predicate Versioned(s: Snapshot, t: Snapshot) {
    && |s.deltas| <= |t.deltas|
    && (forall b :: Version(t, b) == Version(s, b) + Count(t.deltas[|s.deltas|..], b))
    && (forall i :: |s.deltas| <= i < |t.deltas| ==>
          && t.deltas[i].prevVer == Version(s, t.deltas[i].bucket)
                                    + Count(t.deltas[|s.deltas|..i], t.deltas[i].bucket)
          && t.deltas[i].nextVer == t.deltas[i].prevVer + 1)
  }

  /** An accepted delta changes its own bucket and version and adds one entry; the rest is untouched. */
  lemma AcceptedTouchesOneBucket(s: Snapshot, now: int, d: Delta, b: Bucket)
    requires Applied(s, now, d).Success?
    ensures var t := Applied(s, now, d).value;
      && (b != d.bucket ==> View(t, b) == View(s, b) && Version(t, b) == Version(s, b))
      && Version(t, d.bucket) == Version(s, d.bucket) + 1
      && t.deltas == s.deltas + [Entry(now, d, Version(s, d.bucket))]
  {
  }

  lemma VersionedSnoc(s: Snapshot, t: Snapshot, u: Snapshot, e: DeltaEntry)
    requires Versioned(s, t)
    requires u.deltas == t.deltas + [e]
    requires e.prevVer == Version(t, e.bucket) && e.nextVer == e.prevVer + 1
    requires forall b :: Version(u, b) == Version(t, b) + if b == e.bucket then 1 else 0
    ensures Versioned(s, u)
  {
    hide Count;
    var k := |s.deltas|;
    assert u.deltas[k..] == t.deltas[k..] + [e];
    forall b ensures Version(u, b) == Version(s, b) + Count(u.deltas[k..], b) {
      CountSnoc(t.deltas[k..], e, b);
    }
    forall i | k <= i < |u.deltas|
      ensures u.deltas[i].prevVer == Version(s, u.deltas[i].bucket) + Count(u.deltas[k..i], u.deltas[i].bucket)
      ensures u.deltas[i].nextVer == u.deltas[i].prevVer + 1
    {
      assert u.deltas[k..i] == t.deltas[k..i];
      if i == |t.deltas| {
        assert t.deltas[k..i] == t.deltas[k..];
      }
    }
  }

  lemma {:induction false} VersionsCountEntries(s: Snapshot, calls: seq<Call>)
    ensures Versioned(s, Run(s, calls))
  {
    if calls == [] {
      assert s.deltas[|s.deltas|..] == [];
    } else {
      var before, last := Run(s, calls[..|calls| - 1]), calls[|calls| - 1];
      VersionsCountEntries(s, calls[..|calls| - 1]);
      if Applied(before, last.now, last.delta).Success? {
        forall b {
          AcceptedTouchesOneBucket(before, last.now, last.delta, b);
        }
        VersionedSnoc(s, before, Run(s, calls), Entry(last.now, last.delta, Version(before, last.delta.bucket)));
      }
    }
  }

  ghost predicate Accepted(s: Snapshot, calls: seq<Call>, i: nat)
    requires i < |calls|
  {
    Applied(Run(s, calls[..i]), calls[i].now, calls[i].delta).Success?
  }

  lemma RunPrefix(s: Snapshot, calls: seq<Call>, i: nat)
    requires i < |calls|
    ensures Run(s, calls[..i + 1]) == Step(Run(s, calls[..i]), calls[i])
  {
    assert calls[..i + 1][..i] == calls[..i];
  }

  lemma StepNeverLowersVersion(s: Snapshot, c: Call, b: Bucket)
    ensures Version(s, b) <= Version(Step(s, c), b)
  {
    hide Applied;
    if Applied(s, c.now, c.delta).Success? {
      AcceptedTouchesOneBucket(s, c.now, c.delta, b);
    }
  }

  lemma {:induction false} VersionsOnlyGrow(s: Snapshot, calls: seq<Call>, i: nat, j: nat, b: Bucket)
    requires i <= j <= |calls|
    ensures Version(Run(s, calls[..i]), b) <= Version(Run(s, calls[..j]), b)
  {
    hide Applied, Run;
    if i < j {
      VersionsOnlyGrow(s, calls, i, j - 1, b);
      RunPrefix(s, calls, j - 1);
      StepNeverLowersVersion(Run(s, calls[..j - 1]), calls[j - 1], b);
    }
  }

  /** Optimistic concurrency: of all deltas expecting the same version of a bucket, a run accepts one at most. */
  lemma ExpectedVersionIsSpentOnce(s: Snapshot, calls: seq<Call>, i: nat, j: nat)
    requires i < j < |calls|
    requires calls[i].delta.bucket == calls[j].delta.bucket
    requires calls[i].delta.expectedVer == calls[j].delta.expectedVer > 0
    ensures !(Accepted(s, calls, i) && Accepted(s, calls, j))
  {
    hide Update, Run;
    RunPrefix(s, calls, i);
    VersionsOnlyGrow(s, calls, i + 1, j, calls[i].delta.bucket);
    if Accepted(s, calls, i) {
      AcceptedTouchesOneBucket(Run(s, calls[..i]), calls[i].now, calls[i].delta, calls[i].delta.bucket);
    }
  }

  // ---------- buckets are independent ----------

  function OnlyBucket(log: seq<DeltaEntry>, b: Bucket): seq<DeltaEntry> {
    if log == [] then []
    else OnlyBucket(log[..|log| - 1], b) + if log[|log| - 1].bucket == b then [log[|log| - 1]] else []
  }

  /** Read back from the log, a delta is judged by its bucket's contents alone. */
  lemma SameBucketSameEffect(t: Snapshot, u: Snapshot, e: DeltaEntry)
    requires View(t, e.bucket) == View(u, e.bucket) && Version(t, e.bucket) == Version(u, e.bucket)
    requires Applied(t, e.at, AsDelta(e)).Success?
    ensures Applied(u, e.at, AsDelta(e)).Success?
    ensures View(Applied(u, e.at, AsDelta(e)).value, e.bucket) == View(Applied(t, e.at, AsDelta(e)).value, e.bucket)
    ensures Version(Applied(u, e.at, AsDelta(e)).value, e.bucket) ==
            Version(Applied(t, e.at, AsDelta(e)).value, e.bucket)
  {
    var c := Update(View(t, e.bucket), e.action, e.patch).value;
    assert View(Put(t, c), e.bucket) == c == View(Put(u, c), e.bucket);
  }

  /**
   A bucket is a function of its own log entries: replaying those alone succeeds and gives the same
   contents and the same version as replaying the whole log.
   */
  lemma {:induction false} BucketsAreIndependent(s: Snapshot, log: seq<DeltaEntry>, b: Bucket)
    requires Replay(s, log).Success?
    ensures Replay(s, OnlyBucket(log, b)).Success?
    ensures View(Replay(s, OnlyBucket(log, b)).value, b) == View(Replay(s, log).value, b)
    ensures Version(Replay(s, OnlyBucket(log, b)).value, b) == Version(Replay(s, log).value, b)
  {
    if log != [] {
      var front, e := log[..|log| - 1], log[|log| - 1];
      BucketsAreIndependent(s, front, b);
      if e.bucket == b {
        ReplaySnoc(s, OnlyBucket(front, b), e);
        SameBucketSameEffect(Replay(s, front).value, Replay(s, OnlyBucket(front, b)).value, e);
      } else {
        assert OnlyBucket(log, b) == OnlyBucket(front, b);
        AcceptedTouchesOneBucket(Replay(s, front).value, e.at, AsDelta(e), b);
      }
    }
  }
}
