/**
 Order and authorization of a run's events, and which signal streams let a runbook finish.
 Continues RunbookSafety.dfy for internal/controlplane/temporal/runbook_workflow.go.
 */
module WorkflowApprovals {
  import opened Wrappers
  import opened Memory
  import opened Workflow
  import opened WorkflowSafety

  // ---------- order ----------

  /** Diagnostics first, then actions in runbook order, a decision just before its action, signals in order. */
  predicate Before(a: Event, b: Event) {
    match a
    case Diagnosed(i) => !b.Diagnosed? || i < b.i
    case Decided(i, p) => (b.Decided? && i < b.i && p < b.at) || (b.Executed? && i <= b.i)
    case Executed(i) => !b.Diagnosed? && i < b.i
  }

  ghost predicate InOrder(events: seq<Event>) {
    forall j, k :: 0 <= j < k < |events| ==> Before(events[j], events[k])
  }

  /** Where the next receive reads: just after the last decision. */
  function NextSignal(events: seq<Event>): nat {
    if events == [] then 0
    else
      var e := events[|events| - 1];
      if e.Decided? then e.at + 1 else NextSignal(events[..|events| - 1])
  }

  /** The first signal for the step since the last decision decides it; only an approval lets a gated step run. */
  ghost predicate Authorized(env: Env, steps: seq<RunbookStep>, all: bool, before: seq<Event>, e: Event) {
    match e
    case Diagnosed(_) => true
    case Decided(i, at) =>
      && i < |steps| && Gated(steps[i], all)
      && NextSignal(before) <= at < |env.signals| && env.signals[at].stepId == steps[i].id
      && forall q :: NextSignal(before) <= q < at ==> env.signals[q].stepId != steps[i].id
    case Executed(i) =>
      && i < |steps|
      && (Gated(steps[i], all) ==>
            && |before| > 0
            && var d := before[|before| - 1];
               d.Decided? && d.i == i && d.at < |env.signals| && env.signals[d.at].approved)
  }

  ghost predicate AllAuthorized(env: Env, steps: seq<RunbookStep>, all: bool, events: seq<Event>) {
    forall k :: 0 <= k < |events| ==> Authorized(env, steps, all, events[..k], events[k])
  }

  /** All events belong to diagnostics or to the first `n` actions and the first `pos` signals. */
  ghost predicate Within(events: seq<Event>, n: nat, pos: nat) {
    forall e :: e in events ==> e.Diagnosed? || (e.i < n && (e.Decided? ==> e.at < pos))
  }

  ghost predicate Rejected(env: Env, events: seq<Event>, i: nat) {
    exists at :: 0 <= at < |env.signals| && Decided(i, at) in events && !env.signals[at].approved
  }

  /** Every action before `n` was executed or rejected. */
  ghost predicate Settled(env: Env, events: seq<Event>, n: nat) {
    forall i :: 0 <= i < n ==> Executed(i) in events || Rejected(env, events, i)
  }

  ghost predicate Sound(env: Env, steps: seq<RunbookStep>, all: bool, n: nat, pos: nat, events: seq<Event>) {
    InOrder(events) && AllAuthorized(env, steps, all, events) && Within(events, n, pos) && pos == NextSignal(events)
  }

  lemma SoundSnoc(env: Env, steps: seq<RunbookStep>, all: bool, n: nat, pos: nat, events: seq<Event>, e: Event)
    requires InOrder(events) && AllAuthorized(env, steps, all, events) && Within(events, n, pos)
    requires Authorized(env, steps, all, events, e)
    requires !e.Diagnosed? && e.i < n && (e.Decided? ==> e.at < pos)
    requires forall x :: x in events ==> Before(x, e)
    requires pos == NextSignal(events + [e])
    ensures Sound(env, steps, all, n, pos, events + [e])
  {
    var more := events + [e];
    forall k | 0 <= k < |more| ensures Authorized(env, steps, all, more[..k], more[k]) {
      assert more[..k] == events[..k];
      if k == |events| {
        assert events[..k] == events;
      }
    }
  }

  lemma NextSignalSnoc(events: seq<Event>, e: Event)
    ensures NextSignal(events + [e]) == if e.Decided? then e.at + 1 else NextSignal(events)
  {
    assert (events + [e])[..|events|] == events;
  }

  lemma DecideIsSound(env: Env, steps: seq<RunbookStep>, all: bool, n: nat, pos: nat, events: seq<Event>, at: nat)
    requires n < |steps| && Gated(steps[n], all) && pos <= |env.signals|
    requires Sound(env, steps, all, n, pos, events)
    requires at == FirstMatch(env.signals, pos, steps[n].id) < |env.signals|
    ensures Sound(env, steps, all, n + 1, at + 1, events + [Decided(n, at)])
  {
    NextSignalSnoc(events, Decided(n, at));
    SoundSnoc(env, steps, all, n + 1, at + 1, events, Decided(n, at));
  }

  lemma ExecuteIsSound(env: Env, steps: seq<RunbookStep>, all: bool, n: nat, pos: nat, events: seq<Event>)
    requires n < |steps| && !Gated(steps[n], all)
    requires Sound(env, steps, all, n, pos, events)
    ensures Sound(env, steps, all, n + 1, pos, events + [Executed(n)])
  {
    NextSignalSnoc(events, Executed(n));
    SoundSnoc(env, steps, all, n + 1, pos, events, Executed(n));
  }

  lemma ExecuteAfterApprovalIsSound(env: Env, steps: seq<RunbookStep>, all: bool, n: nat, events: seq<Event>, at: nat)
    requires n < |steps| && at < |env.signals| && env.signals[at].approved
    requires Within(events, n, at)
    requires Sound(env, steps, all, n + 1, at + 1, events + [Decided(n, at)])
    ensures Sound(env, steps, all, n + 1, at + 1, events + [Decided(n, at)] + [Executed(n)])
  {
    var decided := events + [Decided(n, at)];
    NextSignalSnoc(events, Decided(n, at));
    NextSignalSnoc(decided, Executed(n));
    SoundSnoc(env, steps, all, n + 1, at + 1, decided, Executed(n));
  }

  lemma SettledSnoc(env: Env, events: seq<Event>, more: seq<Event>, n: nat)
    requires Settled(env, events, n)
    requires Executed(n) in more || Rejected(env, more, n)
    ensures Settled(env, events + more, n + 1)
  {
    forall i | 0 <= i < n + 1 ensures Executed(i) in events + more || Rejected(env, events + more, i) {
      if i < n {
        if Executed(i) !in events {
          var at :| 0 <= at < |env.signals| && Decided(i, at) in events && !env.signals[at].approved;
          assert Decided(i, at) in events + more;
        }
      } else if Executed(n) !in more {
        var at :| 0 <= at < |env.signals| && Decided(n, at) in more && !env.signals[at].approved;
        assert Decided(n, at) in events + more;
      }
    }
  }

  /** What holds after the first `n` actions. */
  ghost predicate Faithful(env: Env, steps: seq<RunbookStep>, all: bool, n: nat, t: Trace)
  {
    && t.mem.policyRisk.requiresHumanApproval == all
    && t.pos <= |env.signals|
    && InOrder(t.events) && AllAuthorized(env, steps, all, t.events)
    && (t.ending == Running || t.ending.Blocked?)
    && (t.ending == Running ==> Sound(env, steps, all, n, t.pos, t.events) && Settled(env, t.events, n))
  }

  /** The events of action `n`, once it is decided, keep the history sound and settle it. */
  lemma DecisionIsFaithful(env: Env, steps: seq<RunbookStep>, all: bool, n: nat, pos: nat, events: seq<Event>, at: nat)
    requires n < |steps| && Gated(steps[n], all) && pos <= |env.signals|
    requires Sound(env, steps, all, n, pos, events) && Settled(env, events, n)
    requires at == FirstMatch(env.signals, pos, steps[n].id) < |env.signals|
    ensures var decided := events + [Decided(n, at)];
            var after := if env.signals[at].approved then decided + [Executed(n)] else decided;
            Sound(env, steps, all, n + 1, at + 1, after) && Settled(env, after, n + 1)
  {
    hide InOrder, AllAuthorized, Settled;
    DecideIsSound(env, steps, all, n, pos, events, at);
    WithinWeaken(events, n, pos, at);
    if env.signals[at].approved {
      ExecuteAfterApprovalIsSound(env, steps, all, n, events, at);
      assert events + [Decided(n, at)] + [Executed(n)] == events + [Decided(n, at), Executed(n)];
      SettledSnoc(env, events, [Decided(n, at), Executed(n)], n);
    } else {
      assert Decided(n, at) in [Decided(n, at)];
      SettledSnoc(env, events, [Decided(n, at)], n);
    }
  }

  lemma ActIsFaithful(env: Env, steps: seq<RunbookStep>, all: bool, t: Trace, n: nat)
    requires n < |steps| && t.ending == Running && Faithful(env, steps, all, n, t)
    ensures Faithful(env, steps, all, n + 1, Act(env, steps, t, n))
  {
    hide Do, InOrder, AllAuthorized, Within, Settled, Rejected;
    ActKeepsFlag(env, steps, t, n);
    var id, r := steps[n].id, Act(env, steps, t, n);
    CursorEffect(env, t.mem, "actions", id, n);
    if !Gated(steps[n], all) {
      ExecuteIsSound(env, steps, all, n, t.pos, t.events);
      SettledSnoc(env, t.events, [Executed(n)], n);
    } else {
      var at := FirstMatch(env.signals, t.pos, id);
      if at < |env.signals| {
        DecisionIsFaithful(env, steps, all, n, t.pos, t.events, at);
      }
    }
  }

  lemma WithinWeaken(events: seq<Event>, n: nat, pos: nat, pos': nat)
    requires Within(events, n, pos) && pos <= pos'
    ensures Within(events, n, pos')
  {
  }

  lemma ActKeepsFlag(env: Env, steps: seq<RunbookStep>, t: Trace, n: nat)
    requires n < |steps| && t.pos <= |env.signals|
    ensures Act(env, steps, t, n).mem.policyRisk.requiresHumanApproval == t.mem.policyRisk.requiresHumanApproval
  {
    hide Do;
    forall m, d: Delta | d.action != SetRequiresHumanApproval { OtherDeltasKeepFlag(env, m, d); }
  }

  lemma OtherDeltasKeepFlag(env: Env, m: Snapshot, d: Delta)
    requires d.action != SetRequiresHumanApproval
    ensures Do(env, m, d).policyRisk.requiresHumanApproval == m.policyRisk.requiresHumanApproval
  {
  }

  lemma {:induction false} ActionsAreFaithful(env: Env, steps: seq<RunbookStep>, all: bool, t: Trace, n: nat)
    requires n <= |steps| && t.ending == Running && Faithful(env, steps, all, 0, t)
    ensures Faithful(env, steps, all, n, Actions(env, steps, t, n))
  {
    hide Act, Sound, InOrder, AllAuthorized, Settled;
    if n > 0 {
      ActionsAreFaithful(env, steps, all, t, n - 1);
      if Actions(env, steps, t, n - 1).ending == Running {
        ActIsFaithful(env, steps, all, Actions(env, steps, t, n - 1), n - 1);
      }
    }
  }

  // ---------- diagnostics ----------

  /** The observability call failed, or its gate passed. */
  ghost predicate Passes(env: Env, steps: seq<RunbookStep>, i: nat)
    requires i < |steps|
  {
    env.observe(i).Success? ==> EvalDiagnosticGate(steps[i].gate, env.observe(i).value, env.show).0
  }

  ghost predicate AllPass(env: Env, steps: seq<RunbookStep>) {
    forall i :: 0 <= i < |steps| ==> Passes(env, steps, i)
  }

  function DiagnosedUpTo(n: nat): seq<Event> {
    seq(n, i requires 0 <= i => Diagnosed(i))
  }

  /** Diagnostics run in order up to and including the first whose gate fails, and no further. */
  lemma {:induction false} DiagnosticsStopAtFirstFailure(env: Env, steps: seq<RunbookStep>, t: Trace, n: nat)
    requires n <= |steps| && t.ending == Running && t.events == []
    ensures var r := Diagnostics(env, steps, t, n);
      match r.ending
      case Running => (forall i :: 0 <= i < n ==> Passes(env, steps, i)) && r.events == DiagnosedUpTo(n)
      case GateFailed(k, why) =>
        && k < n && !Passes(env, steps, k) && (forall i :: 0 <= i < k ==> Passes(env, steps, i))
        && r.events == DiagnosedUpTo(k + 1)
        && why == EvalDiagnosticGate(steps[k].gate, env.observe(k).value, env.show).1
      case _ => false
  {
    hide Do, EvalDiagnosticGate;
    if n == 0 {
      assert DiagnosedUpTo(0) == [];
    } else {
      DiagnosticsStopAtFirstFailure(env, steps, t, n - 1);
      assert DiagnosedUpTo(n) == DiagnosedUpTo(n - 1) + [Diagnosed(n - 1)];
    }
  }

  // ---------- exec safety ----------

  lemma {:induction false} NoSignalTakenYet(n: nat)
    ensures NextSignal(DiagnosedUpTo(n)) == 0
  {
    if n > 0 {
      NoSignalTakenYet(n - 1);
      assert DiagnosedUpTo(n) == DiagnosedUpTo(n - 1) + [Diagnosed(n - 1)];
      NextSignalSnoc(DiagnosedUpTo(n - 1), Diagnosed(n - 1));
    }
  }

  lemma OnlyDiagnosedIsSound(env: Env, steps: seq<RunbookStep>, all: bool, n: nat)
    ensures Sound(env, steps, all, 0, 0, DiagnosedUpTo(n))
  {
    hide NextSignal;
    NoSignalTakenYet(n);
  }

  ghost predicate Started(input: Input, env: Env) {
    env.rule.Success? && env.book.Success?
  }

  lemma AfterDiagnostics(input: Input, env: Env) returns (checked: Trace)
    requires Started(input, env)
    ensures checked == Diagnostics(env, env.book.value.diagnostics, Planned(input, env), |env.book.value.diagnostics|)
    ensures checked.ending == Running <==> AllPass(env, env.book.value.diagnostics)
    ensures checked.ending == Running || checked.ending.GateFailed?
    ensures checked.pos == 0
    ensures checked.ending == Running ==>
      Faithful(env, env.book.value.actions, env.rule.value.requiresHumanApproval, 0, checked)
    ensures exists n :: checked.events == DiagnosedUpTo(n)
  {
    hide Diagnose, Reflects, Sound, EvalDiagnosticGate, Do, Ruled;
    var book, t := env.book.value, Planned(input, env);
    var all := env.rule.value.requiresHumanApproval;
    var n := |book.diagnostics|;
    checked := Diagnostics(env, book.diagnostics, t, n);
    DiagnosticsStopAtFirstFailure(env, book.diagnostics, t, n);
    DiagnosticsKeepPos(env, book.diagnostics, t, n);
    PlannedReflects(input, env);
    DiagnosticsReflect(env, book, all, t, n);
    ReflectsFlag(env, book, all, checked);
    OnlyDiagnosedIsSound(env, book.actions, all, n);
    SoundParts(env, book.actions, all, DiagnosedUpTo(n));
  }

  lemma ReflectsFlag(env: Env, book: Runbook, all: bool, t: Trace)
    requires Reflects(env, book, all, t)
    ensures t.mem.policyRisk.requiresHumanApproval == all
  {
  }

  lemma SoundParts(env: Env, steps: seq<RunbookStep>, all: bool, events: seq<Event>)
    requires Sound(env, steps, all, 0, 0, events)
    ensures InOrder(events) && AllAuthorized(env, steps, all, events)
  {
  }

  /**
   Exec safety over whole runs. Steps happen in runbook order, each at most once; a gated action runs
   only directly after an approving signal was taken for it; and no decision is taken and no action
   runs unless every diagnostic errored or passed its gate. A completed run settled every action.
   */
  lemma ExecSafety(input: Input, env: Env)
    requires Started(input, env)
    ensures var book, all, t := env.book.value, env.rule.value.requiresHumanApproval, WorkflowRun(input, env);
      && InOrder(t.events)
      && AllAuthorized(env, book.actions, all, t.events)
      && ((exists e :: e in t.events && !e.Diagnosed?) ==> AllPass(env, book.diagnostics))
      && (t.ending == Completed ==> Settled(env, t.events, |book.actions|))
  {
    hide Diagnostics, Actions, Planned, Sound, AllAuthorized, InOrder, Settled;
    var book, all := env.book.value, env.rule.value.requiresHumanApproval;
    var checked := AfterDiagnostics(input, env);
    if checked.ending == Running {
      ActionsAreFaithful(env, book.actions, all, checked, |book.actions|);
    } else {
      var n :| checked.events == DiagnosedUpTo(n);
      OnlyDiagnosedIsSound(env, book.actions, all, n);
      SoundParts(env, book.actions, all, checked.events);
    }
  }

  // ---------- which signal streams let the runbook finish ----------

  function GatedIds(steps: seq<RunbookStep>, all: bool): seq<string> {
    if steps == [] then []
    else
      var last := steps[|steps| - 1];
      GatedIds(steps[..|steps| - 1], all) + if Gated(last, all) then [last.id] else []
  }

  /** `at` places `ids` at strictly increasing positions of the stream, each on a signal for that ID. */
  ghost predicate Embeds(ids: seq<string>, signals: seq<ApprovalSignal>, at: seq<nat>) {
    && |at| == |ids|
    && (forall k :: 0 <= k < |at| ==> at[k] < |signals| && signals[at[k]].stepId == ids[k])
    && (forall j, k :: 0 <= j < k < |at| ==> at[j] < at[k])
  }

  ghost predicate Embeddable(ids: seq<string>, signals: seq<ApprovalSignal>) {
    exists at :: Embeds(ids, signals, at)
  }

  /** The greedy consume-and-drop loop on IDs alone: positions taken, or `None` when the stream runs dry. */
  function Greedy(ids: seq<string>, signals: seq<ApprovalSignal>): (at: Option<seq<nat>>)
    ensures at.Some? ==> Embeds(ids, signals, at.value)
  {
    if ids == [] then Some([])
    else
      match Greedy(ids[..|ids| - 1], signals)
      case None => None
      case Some(at) =>
        var p := FirstMatch(signals, Cursor(at), ids[|ids| - 1]);
        if p == |signals| then None else Some(at + [p])
  }

  function Cursor(at: seq<nat>): nat {
    if at == [] then 0 else at[|at| - 1] + 1
  }

  /** Greedy is complete, and every position it takes is the earliest any embedding can take. */
  lemma {:induction false} GreedyIsLeast(ids: seq<string>, signals: seq<ApprovalSignal>, f: seq<nat>)
    requires Embeds(ids, signals, f)
    ensures Greedy(ids, signals).Some?
    ensures forall k :: 0 <= k < |ids| ==> Greedy(ids, signals).value[k] <= f[k]
  {
    if ids != [] {
      GreedyIsLeast(ids[..|ids| - 1], signals, f[..|f| - 1]);
    }
  }

  /** The stream positions of the decisions taken. */
  function DecidedAt(events: seq<Event>): seq<nat> {
    if events == [] then []
    else
      var e := events[|events| - 1];
      DecidedAt(events[..|events| - 1]) + if e.Decided? then [e.at] else []
  }

  lemma DecidedAtSnoc(events: seq<Event>, e: Event)
    ensures DecidedAt(events + [e]) == DecidedAt(events) + if e.Decided? then [e.at] else []
  {
    assert (events + [e])[..|events|] == events;
  }

  lemma {:induction false} NoneDecidedYet(n: nat)
    ensures DecidedAt(DiagnosedUpTo(n)) == []
  {
    if n > 0 {
      NoneDecidedYet(n - 1);
      assert DiagnosedUpTo(n) == DiagnosedUpTo(n - 1) + [Diagnosed(n - 1)];
      DecidedAtSnoc(DiagnosedUpTo(n - 1), Diagnosed(n - 1));
    }
  }

  /**
   How far the action loop is after `n` actions, against greedy on the gated IDs: running, it has taken
   greedy's positions; blocked on action `i`, it took those for the actions before, and greedy fails from `i` on.
   */
  ghost predicate Tracks(env: Env, steps: seq<RunbookStep>, all: bool, n: nat, r: Trace)
    requires n <= |steps|
  {
    match r.ending
    case Running =>
      && Greedy(GatedIds(steps[..n], all), env.signals) == Some(DecidedAt(r.events))
      && r.pos == Cursor(DecidedAt(r.events)) && r.mem.policyRisk.requiresHumanApproval == all
    case Blocked(i) =>
      && i < n && r.pos == |env.signals|
      && Greedy(GatedIds(steps[..i], all), env.signals) == Some(DecidedAt(r.events))
      && Greedy(GatedIds(steps[..i + 1], all), env.signals) == None
      && Greedy(GatedIds(steps[..n], all), env.signals) == None
    case _ => false
  }

  lemma GatedIdsSnoc(steps: seq<RunbookStep>, all: bool, n: nat)
    requires n < |steps|
    ensures GatedIds(steps[..n + 1], all) ==
            GatedIds(steps[..n], all) + if Gated(steps[n], all) then [steps[n].id] else []
  {
    assert steps[..n + 1][..n] == steps[..n];
  }

  lemma ActTracks(env: Env, steps: seq<RunbookStep>, all: bool, t: Trace, i: nat)
    requires i < |steps| && t.ending == Running && t.pos <= |env.signals| && Tracks(env, steps, all, i, t)
    ensures Tracks(env, steps, all, i + 1, Act(env, steps, t, i))
  {
    hide Act, Greedy, GatedIds;
    GatedIdsSnoc(steps, all, i);
    GreedySnoc(GatedIds(steps[..i], all), steps[i].id, env.signals);
    ActIsGreedy(env, steps, all, t, i);
  }

  lemma EndedTracks(env: Env, steps: seq<RunbookStep>, all: bool, t: Trace, n: nat)
    requires n < |steps| && t.ending != Running && Tracks(env, steps, all, n, t)
    ensures Tracks(env, steps, all, n + 1, t)
  {
    hide Greedy, GatedIds;
    GatedIdsSnoc(steps, all, n);
    GreedySnoc(GatedIds(steps[..n], all), steps[n].id, env.signals);
  }

  /** The action loop is greedy on the gated IDs: it stays unblocked exactly as long as greedy succeeds. */
  lemma {:induction false} ActionsAreGreedy(env: Env, steps: seq<RunbookStep>, all: bool, t: Trace, n: nat)
    requires n <= |steps| && t.ending == Running && t.pos == 0 && t.mem.policyRisk.requiresHumanApproval == all
    requires DecidedAt(t.events) == []
    ensures Tracks(env, steps, all, n, Actions(env, steps, t, n))
  {
    hide Act, Greedy, GatedIds, DecidedAt;
    if n == 0 {
      NothingTracked(steps, all, env.signals);
    } else {
      hide Tracks;
      ActionsAreGreedy(env, steps, all, t, n - 1);
      var before := Actions(env, steps, t, n - 1);
      if before.ending == Running {
        ActTracks(env, steps, all, before, n - 1);
      } else {
        EndedTracks(env, steps, all, before, n - 1);
      }
    }
  }

  lemma NothingTracked(steps: seq<RunbookStep>, all: bool, signals: seq<ApprovalSignal>)
    ensures Greedy(GatedIds(steps[..0], all), signals) == Some([])
  {
  }

  lemma GreedySnoc(ids: seq<string>, id: string, signals: seq<ApprovalSignal>)
    ensures ids + [] == ids
    ensures Greedy(ids + [id], signals) ==
            match Greedy(ids, signals)
            case None => None
            case Some(at) =>
              var p := FirstMatch(signals, Cursor(at), id);
              if p == |signals| then None else Some(at + [p])
  {
    assert (ids + [id])[..|ids|] == ids;
  }

  lemma ActIsGreedy(env: Env, steps: seq<RunbookStep>, all: bool, t: Trace, i: nat)
    requires i < |steps| && t.ending == Running && t.mem.policyRisk.requiresHumanApproval == all
    requires t.pos <= |env.signals|
    ensures var r := Act(env, steps, t, i);
      && r.mem.policyRisk.requiresHumanApproval == all
      && (!Gated(steps[i], all) ==> r.ending == Running && r.pos == t.pos && DecidedAt(r.events) == DecidedAt(t.events))
      && (Gated(steps[i], all) ==>
            var p := FirstMatch(env.signals, t.pos, steps[i].id);
            if p == |env.signals| then r.ending == Blocked(i) && r.pos == p && r.events == t.events
            else r.ending == Running && r.pos == p + 1 && DecidedAt(r.events) == DecidedAt(t.events) + [p])
  {
    hide Do, DecidedAt;
    ActKeepsFlag(env, steps, t, i);
    CursorEffect(env, t.mem, "actions", steps[i].id, i);
    var p := FirstMatch(env.signals, t.pos, steps[i].id);
    DecidedAtSnoc(t.events, Executed(i));
    DecidedAtSnoc(t.events, Decided(i, p));
    DecidedAtSnoc(t.events + [Decided(i, p)], Executed(i));
  }

  /** How many actions a run got past. */
  function ActionsPassed(book: Runbook, ending: Ending): nat {
    match ending case Completed => |book.actions| case Blocked(i) => i case _ => 0
  }

  /** The action phase of a run, against greedy on the gated IDs. */
  lemma ActionPhaseIsGreedy(input: Input, env: Env)
    requires Started(input, env)
    ensures var book, all, t := env.book.value, env.rule.value.requiresHumanApproval, WorkflowRun(input, env);
      var g, m := Greedy(GatedIds(book.actions, all), env.signals), ActionsPassed(book, t.ending);
      && (t.ending.GateFailed? <==> !AllPass(env, book.diagnostics))
      && (t.ending == Completed <==> AllPass(env, book.diagnostics) && g.Some?)
      && (t.ending.Blocked? <==> AllPass(env, book.diagnostics) && g.None?)
      && m <= |book.actions| && Greedy(GatedIds(book.actions[..m], all), env.signals) == Some(DecidedAt(t.events))
      && (t.ending.Blocked? ==>
            m < |book.actions| && Greedy(GatedIds(book.actions[..m + 1], all), env.signals) == None)
  {
    hide Diagnostics, Actions, Planned, Faithful, DecidedAt, GatedIds, Greedy, AllPass, NextSignal;
    var book, all := env.book.value, env.rule.value.requiresHumanApproval;
    var checked := AfterDiagnostics(input, env);
    NothingTracked(book.actions, all, env.signals);
    var n :| checked.events == DiagnosedUpTo(n);
    NoneDecidedYet(n);
    assert book.actions[..|book.actions|] == book.actions;
    if checked.ending == Running {
      FaithfulFlag(env, book.actions, all, checked);
      ActionsAreGreedy(env, book.actions, all, checked, |book.actions|);
    }
  }

  /**
   The run ends as `Completed` exactly when all diagnostics pass and the gated action IDs embed, in
   order, into the step IDs of the arriving signals; if diagnostics pass and they do not embed it blocks.
   */
  lemma CompletesIffApprovalsEmbed(input: Input, env: Env)
    requires Started(input, env)
    ensures var book, t := env.book.value, WorkflowRun(input, env);
      var ids := GatedIds(book.actions, env.rule.value.requiresHumanApproval);
      && (t.ending.GateFailed? <==> !AllPass(env, book.diagnostics))
      && (t.ending == Completed <==> AllPass(env, book.diagnostics) && Embeddable(ids, env.signals))
      && (t.ending.Blocked? <==> AllPass(env, book.diagnostics) && !Embeddable(ids, env.signals))
  {
    hide WorkflowRun, AllPass, Embeds, GatedIds;
    ActionPhaseIsGreedy(input, env);
    var ids := GatedIds(env.book.value.actions, env.rule.value.requiresHumanApproval);
    forall at | Embeds(ids, env.signals, at) {
      GreedyIsLeast(ids, env.signals, at);
    }
  }

  lemma {:induction false} DecisionsAreAtPositions(env: Env, events: seq<Event>)
    requires forall e :: e in events && e.Decided? ==> e.at < |env.signals|
    ensures |DecisionsIn(env, events)| == |DecidedAt(events)|
    ensures forall k :: 0 <= k < |DecidedAt(events)| ==>
              DecidedAt(events)[k] < |env.signals| && DecisionsIn(env, events)[k] == env.signals[DecidedAt(events)[k]]
  {
    if events != [] {
      assert events[|events| - 1] in events;
      DecisionsAreAtPositions(env, events[..|events| - 1]);
    }
  }

  lemma AuthorizedInRange(env: Env, steps: seq<RunbookStep>, all: bool, events: seq<Event>)
    requires AllAuthorized(env, steps, all, events)
    ensures forall e :: e in events && e.Decided? ==> e.at < |env.signals|
  {
    forall e | e in events && e.Decided? ensures e.at < |env.signals| {
      var k :| 0 <= k < |events| && events[k] == e;
      assert Authorized(env, steps, all, events[..k], events[k]);
    }
  }

  /**
   The approvals log of any run is a subsequence of the signal stream with exactly one entry per gated
   action the run got past, each for that action's ID, and no embedding of those IDs uses an earlier
   signal anywhere. A run that blocks got past as many actions as the stream allows: with the one it
   blocks on, the IDs do not embed.
   */
  lemma ApprovalsAreTheEarliest(input: Input, env: Env)
    requires Started(input, env)
    ensures var book, all, t := env.book.value, env.rule.value.requiresHumanApproval, WorkflowRun(input, env);
      var m, at := ActionsPassed(book, t.ending), DecidedAt(t.events);
      && m <= |book.actions|
      && Embeds(GatedIds(book.actions[..m], all), env.signals, at)
      && |t.mem.policyRisk.approvals| == |at|
      && (forall k :: 0 <= k < |at| ==> t.mem.policyRisk.approvals[k] == env.signals[at[k]])
      && (forall f, k :: Embeds(GatedIds(book.actions[..m], all), env.signals, f) && 0 <= k < |at| ==> at[k] <= f[k])
      && (t.ending.Blocked? ==>
            m < |book.actions| && !Embeddable(GatedIds(book.actions[..m + 1], all), env.signals))
  {
    hide WorkflowRun, AllPass, GatedIds, InOrder, AllAuthorized, CompletedIn, OutcomesIn, ObservationsIn, Greedy;
    var book, t, all := env.book.value, WorkflowRun(input, env), env.rule.value.requiresHumanApproval;
    var m := ActionsPassed(book, t.ending);
    ActionPhaseIsGreedy(input, env);
    ExecSafety(input, env);
    MemoryIsTheHistory(input, env);
    AuthorizedInRange(env, book.actions, all, t.events);
    DecisionsAreAtPositions(env, t.events);
    var ids := GatedIds(book.actions[..m], all);
    forall f | Embeds(ids, env.signals, f) {
      GreedyIsLeast(ids, env.signals, f);
    }
    if t.ending.Blocked? {
      var more := GatedIds(book.actions[..m + 1], all);
      forall f | Embeds(more, env.signals, f) {
        GreedyIsLeast(more, env.signals, f);
      }
    }
  }

  lemma FaithfulFlag(env: Env, steps: seq<RunbookStep>, all: bool, t: Trace)
    requires Faithful(env, steps, all, 0, t)
    ensures t.mem.policyRisk.requiresHumanApproval == all
  {
  }

  lemma FailedGateIsLast(input: Input, env: Env)
    requires Started(input, env) && WorkflowRun(input, env).ending.GateFailed?
    ensures var t := WorkflowRun(input, env);
      && t.ending.index < |env.book.value.diagnostics| && !Passes(env, env.book.value.diagnostics, t.ending.index)
      && t.events == DiagnosedUpTo(t.ending.index + 1)
  {
    hide Diagnose, Act, Planned, Passes;
    var book := env.book.value;
    var checked := AfterDiagnostics(input, env);
    PlannedRuns(input, env);
    DiagnosticsStopAtFirstFailure(env, book.diagnostics, Planned(input, env), |book.diagnostics|);
    if checked.ending == Running {
      ActionsAreFaithful(env, book.actions, env.rule.value.requiresHumanApproval, checked, |book.actions|);
    }
  }

  lemma PlannedRuns(input: Input, env: Env)
    requires Started(input, env)
    ensures Planned(input, env).ending == Running && Planned(input, env).events == []
  {
    hide Do;
  }

  lemma LastDiagnosedIsCompleted(env: Env, book: Runbook, k: nat)
    requires k < |book.diagnostics| && env.observe(k).Success? && book.diagnostics[k].id != ""
    ensures book.diagnostics[k].id in CompletedIn(env, book, DiagnosedUpTo(k + 1))
  {
    var events := DiagnosedUpTo(k + 1);
    assert events[|events| - 1] == Diagnosed(k);
  }

  /** The diagnostic whose gate stops a run is among the completed steps all the same, if it has an ID. */
  lemma FailedDiagnosticIsCompleted(input: Input, env: Env)
    requires Started(input, env) && WorkflowRun(input, env).ending.GateFailed?
    ensures var book, t := env.book.value, WorkflowRun(input, env);
      && t.ending.index < |book.diagnostics|
      && (book.diagnostics[t.ending.index].id != "" ==>
            book.diagnostics[t.ending.index].id in t.mem.progress.completedSteps)
  {
    hide WorkflowRun, CompletedIn, DecisionsIn, OutcomesIn, ObservationsIn;
    FailedGateIsLast(input, env);
    MemoryIsTheHistory(input, env);
    var book, k := env.book.value, WorkflowRun(input, env).ending.index;
    if book.diagnostics[k].id != "" {
      LastDiagnosedIsCompleted(env, book, k);
    }
  }

  // ---------- rejected steps ----------

  ghost predicate UniqueIds(book: Runbook) {
    && (forall i, j :: 0 <= i < j < |book.actions| ==> book.actions[i].id != book.actions[j].id)
    && (forall i, j :: 0 <= i < |book.diagnostics| && 0 <= j < |book.actions| ==>
          book.diagnostics[i].id != book.actions[j].id)
  }

  lemma DecidedOnce(events: seq<Event>, j: nat, k: nat)
    requires InOrder(events) && j < |events| && k < |events|
    requires events[j].Decided? && events[k].Decided? && events[j].i == events[k].i
    ensures j == k
  {
  }

  lemma ExecutedWasApproved(env: Env, steps: seq<RunbookStep>, all: bool, events: seq<Event>, d: nat, x: nat)
    requires InOrder(events) && AllAuthorized(env, steps, all, events)
    requires d < |events| && x < |events| && events[d].Decided? && events[x] == Executed(events[d].i)
    ensures events[d].at < |env.signals| && env.signals[events[d].at].approved
  {
    hide InOrder;
    assert Authorized(env, steps, all, events[..d], events[d]);
    assert Authorized(env, steps, all, events[..x], events[x]);
    assert events[..x][x - 1] == events[x - 1];
    DecidedOnce(events, d, x - 1);
  }

  /** An action whose decision was a rejection never runs. */
  lemma RejectedIsNotExecuted(env: Env, steps: seq<RunbookStep>, all: bool, events: seq<Event>, i: nat)
    requires InOrder(events) && AllAuthorized(env, steps, all, events)
    requires Rejected(env, events, i)
    ensures Executed(i) !in events
  {
    hide InOrder, AllAuthorized;
    var at :| 0 <= at < |env.signals| && Decided(i, at) in events && !env.signals[at].approved;
    var d :| 0 <= d < |events| && events[d] == Decided(i, at);
    forall x | 0 <= x < |events| && events[x] == Executed(i) ensures false {
      ExecutedWasApproved(env, steps, all, events, d, x);
    }
  }

  lemma {:induction false} OnlyRunStepsAreRecorded(env: Env, book: Runbook, events: seq<Event>, i: nat)
    requires UniqueIds(book) && i < |book.actions| && Executed(i) !in events
    ensures book.actions[i].id !in CompletedIn(env, book, events)
    ensures book.actions[i].id !in OutcomesIn(env, book, events)
  {
    if events != [] {
      OnlyRunStepsAreRecorded(env, book, events[..|events| - 1], i);
      assert events[|events| - 1] in events;
    }
  }

  /** With unique step IDs, a rejected step is in neither the completed steps nor the action evidence. */
  lemma RejectedLeavesNoTrace(input: Input, env: Env, i: nat)
    requires Started(input, env) && UniqueIds(env.book.value)
    requires i < |env.book.value.actions| && Rejected(env, WorkflowRun(input, env).events, i)
    ensures var t, id := WorkflowRun(input, env), env.book.value.actions[i].id;
            id !in t.mem.progress.completedSteps && id !in t.mem.evidence.actions
  {
    hide WorkflowRun, InOrder, AllAuthorized, UniqueIds;
    var t := WorkflowRun(input, env);
    ExecSafety(input, env);
    MemoryIsTheHistory(input, env);
    RejectedIsNotExecuted(env, env.book.value.actions, env.rule.value.requiresHumanApproval, t.events, i);
    OnlyRunStepsAreRecorded(env, env.book.value, t.events, i);
  }
}
