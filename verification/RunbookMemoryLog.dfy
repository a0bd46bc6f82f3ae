/**
 The delta log of internal/controlplane/temporal/runbook_memory.go read as a query model: what the
 memory holds can be read off the accepted entries directly, without replaying them.
 */
module MemoryLog {
  import opened Wrappers
  import opened Memory

  // ---------- queries on the log ----------

  /** The actions that write one key of a map. */
  predicate WritesMap(a: Action) {
    a in {RecordDiagnostic, RecordAction, SetFact, SetArtifactPointer}
  }

  function KeyOf(e: DeltaEntry): string {
    TextOf(e.patch, if e.action in {RecordDiagnostic, RecordAction} then StepIdField else KeyField)
  }

  function Written(e: DeltaEntry): Value {
    Lookup(e.patch, if e.action in {RecordDiagnostic, RecordAction} then OutputField else ValueField)
  }

  /** Entry `e` writes `key` of the map of action `a`; an artifact pointer without a value writes nothing. */
  predicate Writes(e: DeltaEntry, a: Action, key: string) {
    e.action == a && key != "" && KeyOf(e) == key && (a == SetArtifactPointer ==> TextOf(e.patch, ValueField) != "")
  }

  /** The value of the last entry that writes `key`. */
  function LastWrite(log: seq<DeltaEntry>, a: Action, key: string): Option<Value> {
    if log == [] then None
    else if Writes(log[|log| - 1], a, key) then Some(Written(log[|log| - 1]))
    else LastWrite(log[..|log| - 1], a, key)
  }

  function StepsCompleted(log: seq<DeltaEntry>): seq<string> {
    if log == [] then []
    else
      var e := log[|log| - 1];
      StepsCompleted(log[..|log| - 1]) + if e.action == MarkStepCompleted then [TextOf(e.patch, StepIdField)] else []
  }

  function ApprovalsGiven(log: seq<DeltaEntry>): seq<ApprovalSignal> {
    if log == [] then []
    else
      var e := log[|log| - 1];
      var v := Lookup(e.patch, ApprovalField);
      ApprovalsGiven(log[..|log| - 1]) + if e.action == AppendApproval && v.ApprovalValue? then [v.approval] else []
  }

  /** The last entry that sets the flag with a boolean; without one the flag is off. */
  function ApprovalRequired(log: seq<DeltaEntry>): bool {
    if log == [] then false
    else
      var e := log[|log| - 1];
      var v := Lookup(e.patch, RequiresHumanApprovalField);
      if e.action == SetRequiresHumanApproval && v.Bool? then v.flag else ApprovalRequired(log[..|log| - 1])
  }

  function FailureMarked(log: seq<DeltaEntry>): bool {
    log != [] && (log[|log| - 1].action == MarkFailed || FailureMarked(log[..|log| - 1]))
  }

  /** What the last entry that has an answer to `read` answers. */
  function Last<T>(log: seq<DeltaEntry>, read: DeltaEntry -> Option<T>, before: T): T {
    if log == [] then before
    else
      match read(log[|log| - 1])
      case Some(v) => v
      case None => Last(log[..|log| - 1], read, before)
  }

  function TextIn(e: DeltaEntry, a: Action, f: Field): Option<string> {
    var v := Lookup(e.patch, f);
    if e.action == a && v.Text? then Some(v.text) else None
  }

  /** An empty phase is no phase. */
  function PhaseIn(e: DeltaEntry): Option<string> {
    if TextIn(e, SetCursor, PhaseField) == Some("") then None else TextIn(e, SetCursor, PhaseField)
  }

  function IndexIn(e: DeltaEntry): Option<int> {
    var v := Lookup(e.patch, CurrentIndexField);
    if e.action == SetCursor && v.Int? then Some(v.number) else None
  }

  function RunbookIn(e: DeltaEntry): Option<Runbook> {
    var v := Lookup(e.patch, RunbookField);
    if e.action == SetRunbook && v.RunbookValue? then Some(v.runbook) else None
  }

  function StepIn(e: DeltaEntry): Option<string> { TextIn(e, SetCursor, CurrentStepField) }

  function SelectedIn(e: DeltaEntry): Option<string> { TextIn(e, SetSelectedRunbookId, SelectedRunbookIdField) }

  function GoalIn(e: DeltaEntry): Option<string> { TextIn(e, SetGoal, GoalField) }

  function FailureIn(e: DeltaEntry): Option<string> { TextIn(e, MarkFailed, ReasonField) }

  /** The non-empty reasons for asking for approval and for giving it, in order. */
  function ReasonsGiven(log: seq<DeltaEntry>): seq<string> {
    if log == [] then []
    else
      var e := log[|log| - 1];
      var reason := TextOf(e.patch, ReasonField);
      ReasonsGiven(log[..|log| - 1]) +
      if e.action in {SetRequiresHumanApproval, AppendApproval} && reason != "" then [reason] else []
  }

  // ---------- what the memory shows ----------

  function Shown(s: Snapshot, a: Action, key: string): Option<Value> {
    match a
    case RecordDiagnostic =>
      if key in s.evidence.diagnostics then Some(ObservationValue(s.evidence.diagnostics[key])) else None
    case RecordAction => if key in s.evidence.actions then Some(ExecValue(s.evidence.actions[key])) else None
    case SetFact => if key in s.evidence.facts then Some(s.evidence.facts[key]) else None
    case SetArtifactPointer => if key in s.pointers.artifacts then Some(Text(s.pointers.artifacts[key])) else None
    case _ => None
  }

  /** The fields that hold a single value. */
  ghost predicate ToldValues(intent: IntentState, s: Snapshot) {
    && s.intent == intent.(goal := Last(s.deltas, GoalIn, intent.goal))
    && s.plan == PlanState(Last(s.deltas, RunbookIn, EMPTY_RUNBOOK), Last(s.deltas, PhaseIn, ""),
                           Last(s.deltas, StepIn, ""), Last(s.deltas, IndexIn, 0))
    && s.pointers.selectedRunbookId == Last(s.deltas, SelectedIn, "")
    && s.progress.failureReason == Last(s.deltas, FailureIn, "")
    && s.policyRisk.approvalReasons == ReasonsGiven(s.deltas)
  }

  ghost predicate Told(s: Snapshot) {
    && (forall a, key :: WritesMap(a) ==> Shown(s, a, key) == LastWrite(s.deltas, a, key))
    && s.progress.completedSteps == StepsCompleted(s.deltas)
    && s.policyRisk.approvals == ApprovalsGiven(s.deltas)
    && s.policyRisk.requiresHumanApproval == ApprovalRequired(s.deltas)
    && s.progress.failed == FailureMarked(s.deltas)
  }

  lemma AcceptedShowsEvidence(s: Snapshot, now: int, d: Delta, a: Action, key: string)
    requires Applied(s, now, d).Success? && a in {RecordDiagnostic, RecordAction, SetFact}
    ensures var t, e := Applied(s, now, d).value, Entry(now, d, Version(s, d.bucket));
            Shown(t, a, key) == if Writes(e, a, key) then Some(Written(e)) else Shown(s, a, key)
  {
    hide UpdateIntent, UpdatePlan, UpdatePolicyRisk, UpdateProgress, UpdatePointers;
    OtherBucketsReject(View(s, d.bucket), d.action, d.patch);
  }

  lemma AcceptedShowsPointer(s: Snapshot, now: int, d: Delta, key: string)
    requires Applied(s, now, d).Success?
    ensures var t, e, a := Applied(s, now, d).value, Entry(now, d, Version(s, d.bucket)), SetArtifactPointer;
            Shown(t, a, key) == if Writes(e, a, key) then Some(Written(e)) else Shown(s, a, key)
  {
    hide UpdateIntent, UpdatePlan, UpdatePolicyRisk, UpdateProgress, UpdateEvidence;
    OtherBucketsReject(View(s, d.bucket), d.action, d.patch);
  }

  /** Map-writing actions are accepted by their own bucket only. */
  lemma OtherBucketsReject(c: Contents, a: Action, patch: Patch)
    ensures a in {RecordDiagnostic, RecordAction, SetFact} && Update(c, a, patch).Success? ==> c.OfEvidence?
    ensures a == SetArtifactPointer && Update(c, a, patch).Success? ==> c.OfPointers?
  {
  }

  /** An accepted delta changes what one key shows exactly when its entry writes that key. */
  lemma AcceptedShows(s: Snapshot, now: int, d: Delta, a: Action, key: string)
    requires Applied(s, now, d).Success? && WritesMap(a)
    ensures var t, e := Applied(s, now, d).value, Entry(now, d, Version(s, d.bucket));
            Shown(t, a, key) == if Writes(e, a, key) then Some(Written(e)) else Shown(s, a, key)
  {
    hide Applied, Shown, Writes, Written;
    if a == SetArtifactPointer {
      AcceptedShowsPointer(s, now, d, key);
    } else {
      AcceptedShowsEvidence(s, now, d, a, key);
    }
  }

  /** An accepted delta adds to the lists and flags what its entry says. */
  lemma AcceptedLists(s: Snapshot, now: int, d: Delta)
    requires Applied(s, now, d).Success?
    ensures var t, e := Applied(s, now, d).value, Entry(now, d, Version(s, d.bucket));
      && t.progress.completedSteps == s.progress.completedSteps + StepsCompleted([e])
      && t.policyRisk.approvals == s.policyRisk.approvals + ApprovalsGiven([e])
      && t.progress.failed == (s.progress.failed || e.action == MarkFailed)
      && t.policyRisk.requiresHumanApproval ==
         if e.action == SetRequiresHumanApproval && Lookup(e.patch, RequiresHumanApprovalField).Bool?
         then Lookup(e.patch, RequiresHumanApprovalField).flag else s.policyRisk.requiresHumanApproval
  {
    assert [Entry(now, d, Version(s, d.bucket))][..0] == [];
  }

  function Or<T>(o: Option<T>, before: T): T {
    match o case Some(v) => v case None => before
  }

  lemma AcceptedPlan(s: Snapshot, now: int, d: Delta)
    requires Applied(s, now, d).Success?
    ensures var t, e := Applied(s, now, d).value, Entry(now, d, Version(s, d.bucket));
      t.plan == PlanState(Or(RunbookIn(e), s.plan.runbook), Or(PhaseIn(e), s.plan.phase),
                          Or(StepIn(e), s.plan.currentStep), Or(IndexIn(e), s.plan.currentIndex))
  {
    hide WellTyped;
    UpdateJudges(s, d.bucket, d.action, d.patch);
    hide UpdateIntent, UpdateEvidence, UpdatePolicyRisk, UpdateProgress, UpdatePointers;
  }

  /** An accepted delta sets the single values its entry carries and no other. */
  lemma AcceptedValues(s: Snapshot, now: int, d: Delta)
    requires Applied(s, now, d).Success?
    ensures var t, e := Applied(s, now, d).value, Entry(now, d, Version(s, d.bucket));
      && t.intent == s.intent.(goal := Or(GoalIn(e), s.intent.goal))
      && t.pointers.selectedRunbookId == Or(SelectedIn(e), s.pointers.selectedRunbookId)
      && t.progress.failureReason == Or(FailureIn(e), s.progress.failureReason)
  {
    hide UpdateEvidence, UpdatePolicyRisk, UpdatePlan, WellTyped;
    UpdateJudges(s, d.bucket, d.action, d.patch);
  }

  lemma AcceptedReasons(s: Snapshot, now: int, d: Delta)
    requires Applied(s, now, d).Success?
    ensures var t, e := Applied(s, now, d).value, Entry(now, d, Version(s, d.bucket));
            t.policyRisk.approvalReasons == s.policyRisk.approvalReasons + ReasonsGiven([e])
  {
    hide UpdateEvidence, UpdatePlan, UpdateIntent, UpdateProgress, UpdatePointers, WellTyped;
    assert [Entry(now, d, Version(s, d.bucket))][..0] == [];
    UpdateJudges(s, d.bucket, d.action, d.patch);
  }

  lemma LastSnoc<T>(log: seq<DeltaEntry>, e: DeltaEntry, read: DeltaEntry -> Option<T>, before: T)
    ensures Last(log + [e], read, before) == Or(read(e), Last(log, read, before))
  {
    assert (log + [e])[..|log|] == log;
  }

  lemma ReasonsSnoc(log: seq<DeltaEntry>, e: DeltaEntry)
    ensures ReasonsGiven(log + [e]) == ReasonsGiven(log) + ReasonsGiven([e])
  {
    assert (log + [e])[..|log|] == log;
    assert [e][..0] == [];
  }

  lemma AcceptedValuesAreTold(intent: IntentState, s: Snapshot, now: int, d: Delta)
    requires Applied(s, now, d).Success? && ToldValues(intent, s)
    ensures ToldValues(intent, Applied(s, now, d).value)
  {
    hide Applied, Last, ReasonsGiven;
    var e := Entry(now, d, Version(s, d.bucket));
    LoggedDeltaActsTheSame(s, now, d);
    AcceptedPlan(s, now, d);
    AcceptedValues(s, now, d);
    AcceptedReasons(s, now, d);
    LastSnoc(s.deltas, e, GoalIn, intent.goal);
    LastSnoc(s.deltas, e, RunbookIn, EMPTY_RUNBOOK);
    LastSnoc(s.deltas, e, PhaseIn, "");
    LastSnoc(s.deltas, e, StepIn, "");
    LastSnoc(s.deltas, e, IndexIn, 0);
    LastSnoc(s.deltas, e, SelectedIn, "");
    LastSnoc(s.deltas, e, FailureIn, "");
    ReasonsSnoc(s.deltas, e);
  }

  lemma QueriesSnoc(log: seq<DeltaEntry>, e: DeltaEntry)
    ensures var all := log + [e];
      && (forall a, key ::
            LastWrite(all, a, key) == if Writes(e, a, key) then Some(Written(e)) else LastWrite(log, a, key))
      && StepsCompleted(all) == StepsCompleted(log) + StepsCompleted([e])
      && ApprovalsGiven(all) == ApprovalsGiven(log) + ApprovalsGiven([e])
      && FailureMarked(all) == (FailureMarked(log) || e.action == MarkFailed)
      && ApprovalRequired(all) ==
         if e.action == SetRequiresHumanApproval && Lookup(e.patch, RequiresHumanApprovalField).Bool?
         then Lookup(e.patch, RequiresHumanApprovalField).flag else ApprovalRequired(log)
  {
    assert (log + [e])[..|log|] == log;
    assert [e][..0] == [];
  }

  /**
   In every run from a fresh memory each map holds, for each key, what the last accepted entry for it
   wrote; completed steps, approvals and reasons are those of the log, in order; the flags are the log's
   too; and runbook, cursor, goal, selected runbook and failure reason are the last ones well-typed in the
   log. That is every field of the memory.
   */
  lemma {:induction false} LogTellsTheMemory(intent: IntentState, calls: seq<Call>)
    ensures Told(Run(Initial(intent), calls)) && ToldValues(intent, Run(Initial(intent), calls))
  {
    if calls != [] {
      hide Applied, Shown, Writes, Written, LastWrite, StepsCompleted, ApprovalsGiven, ApprovalRequired, FailureMarked,
           ToldValues;
      LogTellsTheMemory(intent, calls[..|calls| - 1]);
      var s, c := Run(Initial(intent), calls[..|calls| - 1]), calls[|calls| - 1];
      if Applied(s, c.now, c.delta).Success? {
        var e := Entry(c.now, c.delta, Version(s, c.delta.bucket));
        LoggedDeltaActsTheSame(s, c.now, c.delta);
        AcceptedValuesAreTold(intent, s, c.now, c.delta);
        QueriesSnoc(s.deltas, e);
        AcceptedLists(s, c.now, c.delta);
        forall a, key | WritesMap(a)
          ensures Shown(Applied(s, c.now, c.delta).value, a, key) == LastWrite(s.deltas + [e], a, key)
        {
          AcceptedShows(s, c.now, c.delta, a, key);
        }
      }
    }
  }

  // ---------- which deltas are accepted ----------

  /** The actions each bucket knows. */
  function Known(b: Bucket): set<Action> {
    match b
    case IntentBucket => {SetGoal}
    case PlanBucket => {SetRunbook, SetCursor}
    case EvidenceBucket => {RecordDiagnostic, RecordAction, SetFact}
    case PolicyRiskBucket => {SetRequiresHumanApproval, AppendApproval}
    case ProgressBucket => {MarkStepCompleted, MarkFailed}
    case PointersBucket => {SetSelectedRunbookId, SetArtifactPointer}
    case _ => {}
  }

  /** What an action cannot do without; the other actions skip what is missing or mistyped. */
  predicate WellTyped(a: Action, patch: Patch) {
    && (a in {RecordDiagnostic, RecordAction, MarkStepCompleted} ==> TextOf(patch, StepIdField) != "")
    && (a == RecordDiagnostic ==> Lookup(patch, OutputField).ObservationValue?)
    && (a == RecordAction ==> Lookup(patch, OutputField).ExecValue?)
    && (a == SetFact ==> TextOf(patch, KeyField) != "")
    && (a == AppendApproval ==> Lookup(patch, ApprovalField).ApprovalValue?)
    && (a == SetRunbook ==> Lookup(patch, RunbookField).RunbookValue?)
  }

  predicate Expected(s: Snapshot, d: Delta) {
    d.expectedVer <= 0 || d.expectedVer == Version(s, d.bucket)
  }

  /** The switch over one bucket's actions. */
  lemma UpdateJudges(s: Snapshot, b: Bucket, a: Action, patch: Patch)
    ensures var r := Update(View(s, b), a, patch);
      && (r.Success? <==> a in Known(b) && WellTyped(a, patch))
      && (r == Failure(UnknownBucket) <==> View(s, b) == NoContents)
      && (r == Failure(UnsupportedAction) <==> View(s, b) != NoContents && a !in Known(b))
      && (r == Failure(BadPatch) <==> a in Known(b) && !WellTyped(a, patch))
  {
  }

  /**
   A delta is accepted exactly when it has a bucket that knows its action, a version, if it expects one,
   that is the bucket's, and a patch with what the action cannot do without. Otherwise the error is the
   first of these it lacks.
   */
  lemma AcceptedExactlyWhen(s: Snapshot, now: int, d: Delta)
    ensures var r := Applied(s, now, d);
      && (r.Success? <==> Expected(s, d) && d.action in Known(d.bucket) && WellTyped(d.action, d.patch))
      && (r == Failure(BucketRequired) <==> d.bucket == UnnamedBucket)
      && (r == Failure(ActionRequired) <==> d.bucket != UnnamedBucket && d.action == UnnamedAction)
      && (r.Failure? && r.error.VersionMismatch? ==> r.error == VersionMismatch(d.expectedVer, Version(s, d.bucket)))
      && (d.bucket != UnnamedBucket && d.action != UnnamedAction ==>
            && (r.Failure? && r.error.VersionMismatch? <==> !Expected(s, d))
            && (r == Failure(UnknownBucket) <==> Expected(s, d) && d.bucket.OtherBucket?)
            && (r == Failure(UnsupportedAction) <==>
                  Expected(s, d) && !d.bucket.OtherBucket? && d.action !in Known(d.bucket))
            && (r == Failure(BadPatch) <==>
                  Expected(s, d) && d.action in Known(d.bucket) && !WellTyped(d.action, d.patch)))
  {
    hide Update, WellTyped;
    UpdateJudges(s, d.bucket, d.action, d.patch);
  }

  // ---------- what the log records ----------

  /** The accepted calls of a run, without the versions they expected. */
  function AcceptedCalls(s: Snapshot, calls: seq<Call>): seq<Call> {
    if calls == [] then []
    else
      var front, c := calls[..|calls| - 1], calls[|calls| - 1];
      AcceptedCalls(s, front) +
      if Applied(Run(s, front), c.now, c.delta).Success? then [Call(c.now, c.delta.(expectedVer := 0))] else []
  }

  function Recorded(log: seq<DeltaEntry>): seq<Call> {
    seq(|log|, i requires 0 <= i < |log| => Call(log[i].at, AsDelta(log[i])))
  }

  /**
   The log records every accepted call of a run and nothing else, in order, with its time, bucket, action,
   patch, actor, rationale and references.
   */
  lemma {:induction false} LogRecordsTheCalls(intent: IntentState, calls: seq<Call>)
    ensures Recorded(Run(Initial(intent), calls).deltas) == AcceptedCalls(Initial(intent), calls)
  {
    if calls != [] {
      hide Applied;
      LogRecordsTheCalls(intent, calls[..|calls| - 1]);
      var s, c := Run(Initial(intent), calls[..|calls| - 1]), calls[|calls| - 1];
      if Applied(s, c.now, c.delta).Success? {
        LoggedDeltaActsTheSame(s, c.now, c.delta);
        assert AsDelta(Entry(c.now, c.delta, Version(s, c.delta.bucket))) == c.delta.(expectedVer := 0);
      }
    }
  }

  /** From a fresh memory a bucket's version is the number of its entries, plus one for the intent. */
  lemma FreshVersions(intent: IntentState, calls: seq<Call>, b: Bucket)
    ensures var t := Run(Initial(intent), calls);
            Version(t, b) == Count(t.deltas, b) + if b == IntentBucket then 1 else 0
  {
    var s, t := Initial(intent), Run(Initial(intent), calls);
    VersionsCountEntries(s, calls);
    assert t.deltas[|s.deltas|..] == t.deltas;
    assert Version(t, b) == Version(s, b) + Count(t.deltas[|s.deltas|..], b);
  }
}
