/**
 Who ends a run of AgenticLoop, when it asks for another plan and for feedback, and what it notes
 (internal/controlplane/temporal/agentic_loop.go).
 */
module AgenticEnding {
  import opened Wrappers
  import opened GoStrings
  import opened PlanContracts
  import opened Agentic
  import opened AgenticHistory

  // ---------- what decides a turn ----------

  /** The pass of the turn that starts in `s`. */
  function PassOf(env: Env, policy: PolicyDecision, s: State): Result<Evidence, string> {
    Execute(env, s.iteration + 1, s.plan, policy)
  }

  predicate MayRefine(cfg: Config, n: nat) {
    cfg.autoRefine && n < cfg.maxIterations
  }

  /** A failed pass gets a new plan with steps, when the loop may ask for one. */
  predicate Recovers(cfg: Config, env: Env, policy: PolicyDecision, s: State) {
    && PassOf(env, policy, s).Failure? && MayRefine(cfg, s.iteration + 1)
    && env.getPlan(|s.requests| + 1).Success? && env.getPlan(|s.requests| + 1).value.steps != []
  }

  /** A failed pass that got no new plan is put to the user. */
  predicate Asks(cfg: Config, env: Env, policy: PolicyDecision, s: State) {
    PassOf(env, policy, s).Failure? && !Recovers(cfg, env, policy, s) && cfg.enableFeedback
  }

  function Answer(env: Env, s: State): Option<FeedbackEntry> {
    if |s.feedback| < |env.feedback| then Some(env.feedback[|s.feedback|]) else None
  }

  predicate Answers(env: Env, s: State, actions: set<string>) {
    Answer(env, s).Some? && Answer(env, s).value.action in actions
  }

  /** The user leaves a failed pass to the loop. */
  predicate LeftToTheLoop(cfg: Config, env: Env, s: State) {
    cfg.enableFeedback ==> Answer(env, s).Some? && !Answers(env, s, {"stop", "continue", "modify"})
  }

  /** The turn gets to merging and polling: its pass succeeded, or failed before the last iteration for nobody. */
  predicate Concludes(cfg: Config, env: Env, policy: PolicyDecision, s: State) {
    PassOf(env, policy, s).Failure? ==>
      !Recovers(cfg, env, policy, s) && s.iteration + 1 < cfg.maxIterations && LeftToTheLoop(cfg, env, s)
  }

  // ---------- how a turn ends ----------

  ghost predicate EndingFits(cfg: Config, env: Env, policy: PolicyDecision, s: State, ending: Option<Ending>) {
    && (ending == Some(Blocked) <==> Asks(cfg, env, policy, s) && Answer(env, s) == None)
    && (ending == Some(MaxIterationsReached) <==> Asks(cfg, env, policy, s) && Answers(env, s, {"stop"}))
    && (ending.Some? && ending.value.Failed? <==>
          && PassOf(env, policy, s).Failure? && s.iteration + 1 >= cfg.maxIterations && LeftToTheLoop(cfg, env, s))
    && (ending.Some? && ending.value.Failed? ==> ending.value.err == PassOf(env, policy, s).error)
    && (ending.Some? ==> ending.value.Failed? || ending.value == Blocked || ending.value == MaxIterationsReached)
  }

  /** One USER_ASKED for every refine signal that is true. */
  function Polled(n: nat, signals: seq<bool>): seq<Request> {
    if signals == [] then []
    else Polled(n, signals[..|signals| - 1]) + if signals[|signals| - 1] then [Request(n, USER_ASKED)] else []
  }

  /** The requests of a turn that concludes: the polled ones, and one for troubled evidence. */
  function ConcludingRequests(cfg: Config, env: Env, n: nat, after: Evidence): seq<Request> {
    Polled(n, env.refineSignals(n)) +
    if MayRefine(cfg, n) && ShouldRefinePlan(after) then [Request(n, EVIDENCE_ASKED)] else []
  }

  /** The calls of GetPlan in the turn from `s`, whose evidence at the end is `after`. */
  function RequestsOf(cfg: Config, env: Env, policy: PolicyDecision, s: State, after: Evidence): seq<Request> {
    var n := s.iteration + 1;
    (match PassOf(env, policy, s)
     case Failure(err) => if MayRefine(cfg, n) then [Request(n, "Error recovery: " + err)] else []
     case Success(_) => [])
    + if !Concludes(cfg, env, policy, s) then []
      else ConcludingRequests(cfg, env, n, after)
  }

  lemma {:induction false} UserRefineRequests(env: Env, s: State, signals: seq<bool>)
    ensures var r := UserRefine(env, s, signals);
      && r.requests == s.requests + Polled(s.iteration, signals)
      && r.evidence == s.evidence && r.feedback == s.feedback && r.lastError == s.lastError
      && r.iteration == s.iteration
  {
    if signals != [] {
      UserRefineRequests(env, s, signals[..|signals| - 1]);
    }
  }

  lemma ConcludeRequests(cfg: Config, env: Env, s: State, results: Evidence)
    ensures var (r, ending) := Conclude(cfg, env, s, results);
      && (ending == None || ending == Some(GoalAchieved))
      && r.feedback == s.feedback && r.lastError == s.lastError && r.iteration == s.iteration
      && r.evidence == Merge(s.evidence, s.iteration, results)
      && (ending == None ==>
            r.requests == s.requests + (Polled(s.iteration, env.refineSignals(s.iteration)) +
              if MayRefine(cfg, s.iteration) && ShouldRefinePlan(r.evidence)
              then [Request(s.iteration, EVIDENCE_ASKED)] else []))
  {
    hide IsGoalAchieved, ShouldRefinePlan, Merge, UserRefine;
    var n := s.iteration;
    var s1 := s.(evidence := Merge(s.evidence, n, results), merged := s.merged[n := results]);
    UserRefineRequests(env, s1, env.refineSignals(n));
  }

  lemma AfterErrorIsDecided(cfg: Config, env: Env, s: State, err: string)
    requires AfterError(cfg, env, s, err).1 != Some(GoalAchieved)
    ensures var (r, ending) := AfterError(cfg, env, s, err);
      && (ending == Some(Blocked) <==> cfg.enableFeedback && Answer(env, s) == None)
      && (ending == Some(MaxIterationsReached) <==> cfg.enableFeedback && Answers(env, s, {"stop"}))
      && (ending.Some? && ending.value.Failed? <==> s.iteration >= cfg.maxIterations && LeftToTheLoop(cfg, env, s))
      && (ending.Some? ==> ending.value in {Failed(err), Blocked, MaxIterationsReached})
      && r.feedback == s.feedback + (if cfg.enableFeedback && Answer(env, s).Some? then [Answer(env, s).value] else [])
      && r.requests == s.requests +
         if s.iteration < cfg.maxIterations && LeftToTheLoop(cfg, env, s)
         then ConcludingRequests(cfg, env, s.iteration, r.evidence) else []
  {
    hide Conclude, ConcludingRequests;
    ConcludeIsDecided(cfg, env, s, map[]);
    if |s.feedback| < |env.feedback| {
      var waiting := s.evidence["waiting" := Waiting("Iteration failed: " + err)];
      ConcludeIsDecided(cfg, env, s.(evidence := waiting, feedback := s.feedback + [env.feedback[|s.feedback|]]),
                        map[]);
    }
  }

  lemma ConcludeIsDecided(cfg: Config, env: Env, s: State, results: Evidence)
    ensures var (r, ending) := Conclude(cfg, env, s, results);
      && (ending == None || ending == Some(GoalAchieved))
      && r.feedback == s.feedback
      && (ending == None ==> r.requests == s.requests + ConcludingRequests(cfg, env, s.iteration, r.evidence))
  {
    hide Conclude, ShouldRefinePlan, Polled;
    ConcludeRequests(cfg, env, s, results);
  }

  lemma TurnIsDecided(cfg: Config, env: Env, policy: PolicyDecision, initial: Plan, s: State)
    requires Inv(env, policy, initial, s) && Complete(env, policy, initial, s, s.iteration)
    ensures var (r, ending) := Iterate(cfg, env, policy, s);
      && EndingFits(cfg, env, policy, s, ending)
      && r.feedback == s.feedback +
         (if Asks(cfg, env, policy, s) && Answer(env, s).Some? then [Answer(env, s).value] else [])
      && r.requests == s.requests + RequestsOf(cfg, env, policy, s, r.evidence)
  {
    hide Conclude, AfterError, Execute, Inv, Complete, ConcludingRequests, Stopped;
    IterateKeepsInv(cfg, env, policy, initial, s);
    var n := s.iteration + 1;
    var s1 := s.(iteration := n, evidence := Stopped(env, n, s.evidence));
    match Execute(env, n, s.plan, policy)
    case Success(results) => ConcludeIsDecided(cfg, env, s1, results);
    case Failure(err) =>
      var s2 := s1.(lastError := err, evidence := s1.evidence["iteration_error" := Text(err)]);
      var s3 := if MayRefine(cfg, n) then Refine(env, s2, "Error recovery: " + err, true) else s2;
      if !Recovers(cfg, env, policy, s) {
        AfterErrorIsDecided(cfg, env, s3, err);
      }
  }

  // ---------- which answers become plans ----------

  /** The refinement log and the current plan that the answers to `requests` give. */
  function Granted(env: Env, initial: Plan, requests: seq<Request>): (seq<RefinementEntry>, Plan) {
    if requests == [] then ([], initial)
    else
      var (log, plan) := Granted(env, initial, requests[..|requests| - 1]);
      var asked, answer := requests[|requests| - 1], env.getPlan(|requests|);
      if answer.Success? && (answer.value.steps != [] || asked.reason == USER_ASKED)
      then (log + [RefinementEntry(asked.iteration, asked.reason, plan, answer.value)], answer.value)
      else (log, plan)
  }

  ghost predicate IsGranted(env: Env, initial: Plan, s: State) {
    (s.refinements, s.plan) == Granted(env, initial, s.requests)
  }

  lemma RefineIsGranted(env: Env, initial: Plan, s: State, reason: string, needSteps: bool)
    requires IsGranted(env, initial, s) && (needSteps <==> reason != USER_ASKED)
    ensures IsGranted(env, initial, Refine(env, s, reason, needSteps))
  {
    var asked := Request(s.iteration, reason);
    assert (s.requests + [asked])[..|s.requests|] == s.requests;
  }

  lemma {:induction false} UserRefineIsGranted(env: Env, initial: Plan, s: State, signals: seq<bool>)
    requires IsGranted(env, initial, s)
    ensures IsGranted(env, initial, UserRefine(env, s, signals))
  {
    hide IsGranted, Refine;
    if signals != [] {
      UserRefineIsGranted(env, initial, s, signals[..|signals| - 1]);
      RefineIsGranted(env, initial, UserRefine(env, s, signals[..|signals| - 1]), USER_ASKED, false);
    }
  }

  lemma ReasonsDiffer(err: string)
    ensures EVIDENCE_ASKED != USER_ASKED && "Error recovery: " + err != USER_ASKED
  {
    assert EVIDENCE_ASKED[0] == 'A' && USER_ASKED[0] == 'U' && ("Error recovery: " + err)[0] == 'E';
  }

  lemma NotesAreNotGranted(env: Env, initial: Plan, s: State, t: State)
    requires IsGranted(env, initial, s)
    requires s.refinements == t.refinements && s.plan == t.plan && s.requests == t.requests
    ensures IsGranted(env, initial, t)
  {
  }

  lemma ConcludeIsGranted(cfg: Config, env: Env, initial: Plan, s: State, results: Evidence)
    requires IsGranted(env, initial, s)
    ensures IsGranted(env, initial, Conclude(cfg, env, s, results).0)
  {
    hide IsGranted, UserRefine, Refine, Merge, IsGoalAchieved, ShouldRefinePlan;
    var n := s.iteration;
    var s1 := s.(evidence := Merge(s.evidence, n, results), merged := s.merged[n := results]);
    NotesAreNotGranted(env, initial, s, s1);
    UserRefineIsGranted(env, initial, s1, env.refineSignals(n));
    ReasonsDiffer("");
    RefineIsGranted(env, initial, UserRefine(env, s1, env.refineSignals(n)), EVIDENCE_ASKED, true);
  }

  lemma AfterErrorIsGranted(cfg: Config, env: Env, initial: Plan, s: State, err: string)
    requires IsGranted(env, initial, s)
    ensures IsGranted(env, initial, AfterError(cfg, env, s, err).0)
  {
    hide IsGranted, Conclude;
    var s1 := s.(evidence := s.evidence["waiting" := Waiting("Iteration failed: " + err)]);
    NotesAreNotGranted(env, initial, s, s1);
    ConcludeIsGranted(cfg, env, initial, s, map[]);
    if |s.feedback| < |env.feedback| {
      var s2 := s1.(feedback := s.feedback + [env.feedback[|s.feedback|]]);
      NotesAreNotGranted(env, initial, s, s2);
      ConcludeIsGranted(cfg, env, initial, s2, map[]);
    }
  }

  lemma TurnIsGranted(cfg: Config, env: Env, policy: PolicyDecision, initial: Plan, s: State)
    requires IsGranted(env, initial, s)
    ensures IsGranted(env, initial, Iterate(cfg, env, policy, s).0)
  {
    hide IsGranted, Conclude, AfterError, Execute, Refine, Stopped;
    var n := s.iteration + 1;
    var s1 := s.(iteration := n, evidence := Stopped(env, n, s.evidence));
    NotesAreNotGranted(env, initial, s, s1);
    match Execute(env, n, s.plan, policy)
    case Success(results) => ConcludeIsGranted(cfg, env, initial, s1, results);
    case Failure(err) =>
      var s2 := s1.(lastError := err, evidence := s1.evidence["iteration_error" := Text(err)]);
      NotesAreNotGranted(env, initial, s, s2);
      ReasonsDiffer(err);
      RefineIsGranted(env, initial, s2, "Error recovery: " + err, true);
      AfterErrorIsGranted(cfg, env, initial, s2, err);
      AfterErrorIsGranted(cfg, env, initial, Refine(env, s2, "Error recovery: " + err, true), err);
  }

  // ---------- what a turn notes ----------

  function Note(evidence: Evidence, key: string): Option<Value> {
    if key in evidence then Some(evidence[key]) else None
  }

  lemma MergeKeepsNotes(evidence: Evidence, n: nat, results: Evidence, key: string)
    requires key in FIXED_KEYS
    ensures Note(Merge(evidence, n, results), key) == Note(evidence, key)
  {
    hide IterationKey;
    forall k ensures IterationKey(n, k) != key {
      IterationKeyIsNotFixed(n, k);
    }
  }

  /** The notes on `evidence` after the turn from `s` has noted what it notes. */
  ghost predicate Noted(cfg: Config, env: Env, policy: PolicyDecision, s: State, r: State) {
    var pass := PassOf(env, policy, s);
    && Note(r.evidence, "initial_plan") == Note(s.evidence, "initial_plan")
    && Note(r.evidence, "stopped_by_user") ==
       (if true in env.stopSignals(s.iteration + 1) then Some(Flag(true)) else Note(s.evidence, "stopped_by_user"))
    && Note(r.evidence, "iteration_error") ==
       (if pass.Failure? then Some(Text(pass.error)) else Note(s.evidence, "iteration_error"))
    && r.lastError == (if pass.Failure? then pass.error else s.lastError)
    && Note(r.evidence, "waiting") ==
       (if Asks(cfg, env, policy, s) then Some(Waiting("Iteration failed: " + pass.error))
        else Note(s.evidence, "waiting"))
  }

  lemma NotesDiffer()
    ensures "initial_plan" != "stopped_by_user" && "initial_plan" != "iteration_error" && "initial_plan" != "waiting"
    ensures "stopped_by_user" != "iteration_error" && "stopped_by_user" != "waiting" && "iteration_error" != "waiting"
  {
    assert "initial_plan"[1] == 'n' && "stopped_by_user"[1] == 't';
    assert "iteration_error"[0] == 'i' && "waiting"[1] == 'a';
    assert "stopped_by_user"[0] == 's' && "iteration_error"[1] == 't';
  }

  lemma ConcludeKeepsNotes(cfg: Config, env: Env, s: State, results: Evidence, key: string)
    requires key in FIXED_KEYS
    ensures var r := Conclude(cfg, env, s, results).0;
            Note(r.evidence, key) == Note(s.evidence, key) && r.lastError == s.lastError
  {
    hide Conclude, Note, ShouldRefinePlan, Merge, Polled;
    ConcludeRequests(cfg, env, s, results);
    MergeKeepsNotes(s.evidence, s.iteration, results, key);
  }

  lemma AfterErrorNotes(cfg: Config, env: Env, s: State, err: string, key: string)
    requires key in FIXED_KEYS
    ensures var r := AfterError(cfg, env, s, err).0;
      && r.lastError == s.lastError
      && Note(r.evidence, key) ==
         if cfg.enableFeedback && key == "waiting" then Some(Waiting("Iteration failed: " + err))
         else Note(s.evidence, key)
  {
    hide Conclude, FIXED_KEYS;
    var s1 := s.(evidence := s.evidence["waiting" := Waiting("Iteration failed: " + err)]);
    ConcludeKeepsNotes(cfg, env, s, map[], key);
    if |s.feedback| < |env.feedback| {
      ConcludeKeepsNotes(cfg, env, s1.(feedback := s.feedback + [env.feedback[|s.feedback|]]), map[], key);
    }
  }

  lemma TurnNotes(cfg: Config, env: Env, policy: PolicyDecision, s: State)
    ensures Noted(cfg, env, policy, s, Iterate(cfg, env, policy, s).0)
  {
    hide Conclude, AfterError, Execute;
    NotesDiffer();
    var n := s.iteration + 1;
    var s1 := s.(iteration := n, evidence := Stopped(env, n, s.evidence));
    match Execute(env, n, s.plan, policy)
    case Success(results) =>
      forall key | key in FIXED_KEYS { ConcludeKeepsNotes(cfg, env, s1, results, key); }
    case Failure(err) =>
      var s2 := s1.(lastError := err, evidence := s1.evidence["iteration_error" := Text(err)]);
      var s3 := if MayRefine(cfg, n) then Refine(env, s2, "Error recovery: " + err, true) else s2;
      forall key | key in FIXED_KEYS { AfterErrorNotes(cfg, env, s3, err, key); }
  }

  // ---------- whole runs ----------

  /** The run after `n` turns, if it gets that far. */
  function At(cfg: Config, env: Env, policy: PolicyDecision, plan: Plan, n: nat): State {
    if n == 0 then Start(plan) else Iterate(cfg, env, policy, At(cfg, env, policy, plan, n - 1)).0
  }

  /** How the turn from there ends it, if it does. */
  function EndingOf(cfg: Config, env: Env, policy: PolicyDecision, plan: Plan, n: nat): Option<Ending> {
    Iterate(cfg, env, policy, At(cfg, env, policy, plan, n)).1
  }

  lemma {:induction false} AtKeepsInv(cfg: Config, env: Env, policy: PolicyDecision, plan: Plan, n: nat)
    ensures var s := At(cfg, env, policy, plan, n);
      && s.iteration == n && Inv(env, policy, plan, s) && Complete(env, policy, plan, s, n) && IsGranted(env, plan, s)
  {
    hide Iterate, Inv, Complete, IsGranted;
    if n == 0 {
      StartInv(env, policy, plan);
      NothingGranted(env, plan);
    } else {
      AtKeepsInv(cfg, env, policy, plan, n - 1);
      var before := At(cfg, env, policy, plan, n - 1);
      TurnAdvances(cfg, env, policy, before);
      IterateKeepsInv(cfg, env, policy, plan, before);
      TurnIsGranted(cfg, env, policy, plan, before);
    }
  }

  lemma NothingGranted(env: Env, plan: Plan)
    ensures IsGranted(env, plan, Start(plan))
  {
  }

  /** The loop goes from turn to turn until one has an ending or the turns are used up. */
  lemma {:induction false} RunUnfolds(cfg: Config, env: Env, policy: PolicyDecision, plan: Plan, n: nat)
    requires n == 0 || n <= cfg.maxIterations
    requires forall k :: 0 <= k < n ==> EndingOf(cfg, env, policy, plan, k) == None
    ensures var (s, ending) := LoopFrom(cfg, env, policy, At(cfg, env, policy, plan, n));
      var last := s.iteration;
      && n <= last && s == At(cfg, env, policy, plan, last) && (last == 0 || last <= cfg.maxIterations)
      && (forall k :: 0 <= k < last - 1 ==> EndingOf(cfg, env, policy, plan, k) == None)
      && (if last >= 1 && EndingOf(cfg, env, policy, plan, last - 1).Some?
          then ending == EndingOf(cfg, env, policy, plan, last - 1).value
          else ending == MaxIterationsReached && last >= cfg.maxIterations)
    decreases cfg.maxIterations - n
  {
    hide Iterate;
    AtKeepsInv(cfg, env, policy, plan, n);
    if n < cfg.maxIterations {
      TurnAdvances(cfg, env, policy, At(cfg, env, policy, plan, n));
      assert At(cfg, env, policy, plan, n + 1) == Iterate(cfg, env, policy, At(cfg, env, policy, plan, n)).0;
      if EndingOf(cfg, env, policy, plan, n) == None {
        RunUnfolds(cfg, env, policy, plan, n + 1);
      }
    }
  }

  /** Every turn of a run ends, takes feedback, asks for plans and notes as TurnIsDecided and TurnNotes say. */
  lemma EveryTurnIsDecided(cfg: Config, env: Env, policy: PolicyDecision, plan: Plan, n: nat)
    ensures var s, r := At(cfg, env, policy, plan, n), At(cfg, env, policy, plan, n + 1);
      && s.iteration == n && EndingFits(cfg, env, policy, s, EndingOf(cfg, env, policy, plan, n))
      && r.feedback == s.feedback +
         (if Asks(cfg, env, policy, s) && Answer(env, s).Some? then [Answer(env, s).value] else [])
      && r.requests == s.requests + RequestsOf(cfg, env, policy, s, r.evidence)
      && (r.refinements, r.plan) == Granted(env, plan, r.requests)
      && Noted(cfg, env, policy, s, r)
  {
    hide Iterate, Inv, Complete, EndingFits, Noted, Asks, RequestsOf, Granted;
    AtKeepsInv(cfg, env, policy, plan, n);
    AtKeepsInv(cfg, env, policy, plan, n + 1);
    TurnIsDecided(cfg, env, policy, plan, At(cfg, env, policy, plan, n));
    TurnNotes(cfg, env, policy, At(cfg, env, policy, plan, n));
  }

  lemma RunBegins(cfg: Config, env: Env, policy: PolicyDecision, plan: Plan)
    ensures At(cfg, env, policy, plan, 0) == Start(plan)
  {
  }

  /** No turn that goes on was told to stop. */
  lemma {:induction false} NobodySaidStop(cfg: Config, env: Env, policy: PolicyDecision, plan: Plan, n: nat)
    requires forall k :: 0 <= k < n ==> EndingOf(cfg, env, policy, plan, k) == None
    ensures forall fb :: fb in At(cfg, env, policy, plan, n).feedback ==> fb.action != "stop"
  {
    hide At, EndingOf, Iterate, Asks, PassOf, LeftToTheLoop, RequestsOf, Noted, Granted;
    if n == 0 {
      RunBegins(cfg, env, policy, plan);
    } else {
      NobodySaidStop(cfg, env, policy, plan, n - 1);
      EveryTurnIsDecided(cfg, env, policy, plan, n - 1);
      assert EndingOf(cfg, env, policy, plan, n - 1) == None;
    }
  }

  /**
   Who ends a run, with `last` the number of its turns and `before` where the last one began.
   It waits for ever exactly when that turn's pass failed, got no new plan and finds the feedback used up.
   It fails, with that pass's error, exactly when the pass was the last allowed one and nobody was asked or
   the answer was none of "stop", "continue" and "modify". It is reported as exhausted exactly when the
   answer was "stop", or the turns are used up and neither of the former holds. No earlier turn was any of
   this; and "stop" is found among the feedback only as the last answer, to the last turn.
   */
  lemma WhoEndsTheRun(cfg: Config, env: Env, policy: PolicyDecision, plan: Plan)
    ensures var (s, ending) := LoopFrom(cfg, env, policy, Start(plan));
      var last := s.iteration;
      && s == At(cfg, env, policy, plan, last) && (last == 0 || last <= cfg.maxIterations)
      && (ending == Blocked || ending.Failed? || ending == MaxIterationsReached)
      && (last == 0 ==> ending == MaxIterationsReached && cfg.maxIterations <= 0)
      && (last >= 1 ==>
            var before := At(cfg, env, policy, plan, last - 1);
            var fails := 
              PassOf(env, policy, before).Failure? && last == cfg.maxIterations && LeftToTheLoop(cfg, env, before);
            var waits := Asks(cfg, env, policy, before) && Answer(env, before) == None;
            && (ending == Blocked <==> waits)
            && (ending.Failed? <==> fails)
            && (ending.Failed? ==> ending.err == PassOf(env, policy, before).error)
            && (ending == MaxIterationsReached <==>
                  || (Asks(cfg, env, policy, before) && Answers(env, before, {"stop"}))
                  || (last == cfg.maxIterations && !fails && !waits)))
      && (forall k :: 0 <= k < last - 1 && Asks(cfg, env, policy, At(cfg, env, policy, plan, k)) ==>
            Answer(env, At(cfg, env, policy, plan, k)).Some? && !Answers(env, At(cfg, env, policy, plan, k), {"stop"}))
      && (forall k :: 0 <= k < |s.feedback| && s.feedback[k].action == "stop" ==>
            && k == |s.feedback| - 1 && ending == MaxIterationsReached && last >= 1
            && Asks(cfg, env, policy, At(cfg, env, policy, plan, last - 1)))
  {
    hide At, EndingOf, Iterate, LoopFrom, Asks, PassOf, LeftToTheLoop, RequestsOf, Noted, Granted;
    RunUnfolds(cfg, env, policy, plan, 0);
    RunBegins(cfg, env, policy, plan);
    var (s, ending) := LoopFrom(cfg, env, policy, Start(plan));
    forall k | 0 <= k < s.iteration
      ensures EndingFits(cfg, env, policy, At(cfg, env, policy, plan, k), EndingOf(cfg, env, policy, plan, k))
    {
      EveryTurnIsDecided(cfg, env, policy, plan, k);
    }
    if s.iteration >= 1 {
      EveryTurnIsDecided(cfg, env, policy, plan, s.iteration - 1);
      NobodySaidStop(cfg, env, policy, plan, s.iteration - 1);
    }
  }

  // ---------- notes of a whole run ----------

  /** The error of the last pass, of the first `n`, that failed. */
  function LastError(cfg: Config, env: Env, policy: PolicyDecision, plan: Plan, n: nat): Option<string> {
    if n == 0 then None
    else
      match PassOf(env, policy, At(cfg, env, policy, plan, n - 1))
      case Failure(err) => Some(err)
      case Success(_) => LastError(cfg, env, policy, plan, n - 1)
  }

  /** The error of the last pass that was put to the user. */
  function LastAsked(cfg: Config, env: Env, policy: PolicyDecision, plan: Plan, n: nat): Option<string> {
    if n == 0 then None
    else
      var before := At(cfg, env, policy, plan, n - 1);
      if Asks(cfg, env, policy, before) then Some(PassOf(env, policy, before).error)
      else LastAsked(cfg, env, policy, plan, n - 1)
  }

  predicate StopSignalled(env: Env, n: nat) {
    n > 0 && (true in env.stopSignals(n) || StopSignalled(env, n - 1))
  }

  /**
   After every turn, the fixed keys of the evidence: the first plan; the stop note exactly if a stop signal
   was delivered; the error of the last failed pass, also kept as the last error; the last one put to the
   user. With IterationKeyIsNotFixed and EvidenceIsFaithful that is all the evidence.
   */
  lemma {:induction false} NotesTellTheRun(cfg: Config, env: Env, policy: PolicyDecision, plan: Plan, n: nat)
    ensures var s := At(cfg, env, policy, plan, n);
      && Note(s.evidence, "initial_plan") == Some(PlanValue(plan))
      && Note(s.evidence, "stopped_by_user") == (if StopSignalled(env, n) then Some(Flag(true)) else None)
      && (match LastError(cfg, env, policy, plan, n)
          case Some(err) => Note(s.evidence, "iteration_error") == Some(Text(err)) && s.lastError == err
          case None => Note(s.evidence, "iteration_error") == None && s.lastError == "")
      && (match LastAsked(cfg, env, policy, plan, n)
          case Some(err) => Note(s.evidence, "waiting") == Some(Waiting("Iteration failed: " + err))
          case None => Note(s.evidence, "waiting") == None)
  {
    hide Iterate, Asks, PassOf, RequestsOf, Granted, EndingFits;
    NotesDiffer();
    if n > 0 {
      NotesTellTheRun(cfg, env, policy, plan, n - 1);
      hide At;
      EveryTurnIsDecided(cfg, env, policy, plan, n - 1);
    }
  }

  /** Without a first plan there is no run. */
  lemma NoPlanNoRun(cfg: Config, env: Env, policy: PolicyDecision)
    ensures var (final, ending) := Run(cfg, env, policy);
      && (final == None <==> env.getPlan(0).Failure?)
      && (ending.PlanError? <==> env.getPlan(0).Failure?) && (ending.PlanError? ==> ending.err == env.getPlan(0).error)
      && (final.Some? ==> LoopFrom(cfg, env, policy, Start(env.getPlan(0).value)) == (final.value, ending))
  {
    hide LoopFrom, At, Asks, PassOf, LeftToTheLoop, Answers, Answer;
    if env.getPlan(0).Success? {
      WhoEndsTheRun(cfg, env, policy, env.getPlan(0).value);
    }
  }

  /** What would achieve the goal: a status text "completed", or the flag itself. */
  lemma GoalIsAchievedIff(evidence: Evidence)
    ensures IsGoalAchieved(evidence) <==>
            || Note(evidence, "status") == Some(Text("completed"))
            || Note(evidence, "goal_achieved") == Some(Flag(true))
  {
  }

  // ---------- what makes evidence ask for a plan ----------

  ghost predicate HasInside(s: string, sub: string) {
    exists before: string, after: string :: s == before + sub + after
  }

  lemma ContainsIff(s: string, sub: string)
    ensures Contains(s, sub) <==> HasInside(s, sub)
  {
    if Contains(s, sub) {
      var i :| 0 <= i <= |s| && OccursAt(s, i, sub);
      assert s == s[..i] + sub + s[i + |sub|..];
    }
    forall before: string, after: string | s == before + sub + after ensures Contains(s, sub) {
      assert OccursAt(s, |before|, sub);
    }
  }

  /** Evidence asks for a new plan exactly when some key has "error" or "unexpected" somewhere inside. */
  lemma RefinesOnTrouble(evidence: Evidence)
    ensures ShouldRefinePlan(evidence) <==>
            exists key :: key in evidence && (HasInside(key, "error") || HasInside(key, "unexpected"))
  {
    hide Contains, HasInside;
    forall key | key in evidence
      ensures Contains(key, "error") <==> HasInside(key, "error")
      ensures Contains(key, "unexpected") <==> HasInside(key, "unexpected")
    {
      ContainsIff(key, "error");
      ContainsIff(key, "unexpected");
    }
  }
}
