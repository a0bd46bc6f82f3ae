/**
 What ranks one agent ahead of another in AgentRouter.Route (internal/transport/a2a/router.go), in terms of
 the agents and the table of learned weights.
 */
module AgentRoutingLaws {
  import opened Wrappers
  import opened GoStrings
  import opened AgentRouting
  import opened AgentRoutingProperties

  // ---------- the table ----------

  ghost predicate HasEntry(opt: RouterOptions, req: RouteRequest, id: string) {
    && opt.runtimeWeightsEnabled && opt.runtimeWeights.Some?
    && var at, tt, table := TrimSpace(req.agentType), TrimSpace(req.taskType), opt.runtimeWeights.value;
       tt != "" && at in table && tt in table[at] && id in table[at][tt]
  }

  /** The entry for the agent ID, agent type and task type; 0 without one. */
  ghost function EntryOf(opt: RouterOptions, req: RouteRequest, id: string): real {
    if HasEntry(opt, req, id)
    then opt.runtimeWeights.value[TrimSpace(req.agentType)][TrimSpace(req.taskType)][id] else 0.0
  }

  /** The nearest number to `w` within `c` of 0. */
  ghost predicate IsNearest(w: real, c: real, x: real) {
    -c <= x <= c && (w < x ==> x == -c) && (x < w ==> x == c)
  }

  function Limit(w: real, c: real): (x: real)
    requires c >= 0.0
    ensures IsNearest(w, c, x)
  {
    if w < -c then -c else if c < w then c else w
  }

  function LimitOf(opt: RouterOptions): (c: real)
    ensures c > 0.0
  {
    if opt.runtimeWeightsMax > 0.0 then opt.runtimeWeightsMax else 5.0
  }

  ghost function LimitedEntry(opt: RouterOptions, req: RouteRequest, id: string): real {
    Limit(EntryOf(opt, req, id), LimitOf(opt))
  }

  // ---------- who is ahead ----------

  ghost predicate Ahead(ranked: seq<Cand>, a: Agent, b: Agent) {
    exists i, j :: 0 <= i < j < |ranked| && ranked[i].agent == a && ranked[j].agent == b
  }

  /** How many of the requested tags the agent has. */
  ghost function TagsHad(tags: seq<string>, have: seq<string>): nat {
    |set i | 0 <= i < |tags| && tags[i] in have|
  }

  lemma {:induction false} TagsAreCounted(tags: seq<string>, have: seq<string>)
    ensures MatchingTags(tags, have) == TagsHad(tags, have)
  {
    var had := set i | 0 <= i < |tags| && tags[i] in have;
    if tags != [] {
      var front, last := tags[..|tags| - 1], |tags| - 1;
      TagsAreCounted(front, have);
      var before := set i | 0 <= i < |front| && front[i] in have;
      assert had == before + if tags[last] in have then {last} else {};
    }
  }

  function Worth(yes: bool, points: real): real {
    if yes then points else 0.0
  }

  /** By how much `a` leads `b`: 50 for the task type, 10 a requested tag, the weights, 0.1 for a name, the entries. */
  ghost function Lead(a: Agent, b: Agent, req: RouteRequest, opt: RouterOptions): real {
    var wanted := req.taskType != "";
    Worth(wanted && req.taskType in a.taskTypes, 50.0) - Worth(wanted && req.taskType in b.taskTypes, 50.0)
    + 10.0 * (TagsHad(req.tags, a.tags) - TagsHad(req.tags, b.tags)) as real
    + (a.weight - b.weight)
    + (Worth(a.name != "", 0.1) - Worth(b.name != "", 0.1))
    + (LimitedEntry(opt, req, a.id) - LimitedEntry(opt, req, b.id))
  }

  lemma EntryIsLearned(a: Agent, req: RouteRequest, opt: RouterOptions)
    ensures Clamp(Learned(a, req, opt), Cap(opt)) == LimitedEntry(opt, req, a.id)
  {
    hide TrimSpace;
  }

  lemma LeadIsTheDifference(a: Agent, b: Agent, req: RouteRequest, opt: RouterOptions)
    ensures Lead(a, b, req, opt) == Score(a, req, opt) - Score(b, req, opt)
  {
    hide TrimSpace, MatchingTags, TagsHad, Learned, Clamp, LimitedEntry;
    TagsAreCounted(req.tags, a.tags);
    TagsAreCounted(req.tags, b.tags);
    EntryIsLearned(a, req, opt);
    EntryIsLearned(b, req, opt);
  }

  lemma PlaceOf(agents: seq<Agent>, req: RouteRequest, opt: RouterOptions, a: Agent) returns (i: nat)
    requires a in agents && a.agentType == TrimSpace(req.agentType)
    ensures var ranked, r := RankedFor(agents, req, opt), req.(agentType := TrimSpace(req.agentType));
            i < |ranked| && ranked[i] == Cand(a, Score(a, r, opt))
  {
    hide Score, StableSort, TrimSpace, Candidates;
    var r := req.(agentType := TrimSpace(req.agentType));
    CandidatesComeFromAgents(agents, r, opt);
    SortKeepsMembers(Candidates(agents, r, opt));
    var c := Cand(a, Score(a, r, opt));
    assert c in Candidates(agents, r, opt) && c in RankedFor(agents, req, opt);
    i :| 0 <= i < |RankedFor(agents, req, opt)| && RankedFor(agents, req, opt)[i] == c;
  }

  /**
   Of two agents of the type with different IDs, one is ranked ahead of the other exactly when it leads, or
   they are even and its ID is less.
   */
  lemma AheadIff(agents: seq<Agent>, req: RouteRequest, opt: RouterOptions, a: Agent, b: Agent)
    requires DistinctIds(agents) && a in agents && b in agents && a.id != b.id
    requires a.agentType == b.agentType == TrimSpace(req.agentType)
    ensures var lead := Lead(a, b, req.(agentType := TrimSpace(req.agentType)), opt);
            Ahead(RankedFor(agents, req, opt), a, b) <==> lead > 0.0 || (lead == 0.0 && Less(a.id, b.id))
  {
    hide Score, StableSort, TrimSpace, Candidates, Lead;
    var r := req.(agentType := TrimSpace(req.agentType));
    var ranked := RankedFor(agents, req, opt);
    LeadIsTheDifference(a, b, r, opt);
    RankingIsStrict(agents, r, opt);
    var i := PlaceOf(agents, req, opt, a);
    var j := PlaceOf(agents, req, opt, b);
    LessIsTotal(a.id, b.id);
    ScoresAreScores(agents, req, opt);
    if i < j {
      assert Better(ranked[i], ranked[j]);
    } else {
      assert Better(ranked[j], ranked[i]);
      OnePlace(ranked, j, i);
    }
  }

  lemma ScoresAreScores(agents: seq<Agent>, req: RouteRequest, opt: RouterOptions)
    ensures var r := req.(agentType := TrimSpace(req.agentType));
            forall c :: c in RankedFor(agents, req, opt) ==> c.score == Score(c.agent, r, opt)
  {
    hide Score, StableSort, TrimSpace, Candidates;
    var r := req.(agentType := TrimSpace(req.agentType));
    CandidatesComeFromAgents(agents, r, opt);
    SortKeepsMembers(Candidates(agents, r, opt));
  }

  /** In a strict ranking where an agent always has the same score, each agent has one place. */
  lemma OnePlace(ranked: seq<Cand>, j: nat, i: nat)
    requires Strict(ranked) && j < i < |ranked|
    requires forall c, d :: c in ranked && d in ranked && c.agent == d.agent ==> c == d
    ensures !Ahead(ranked, ranked[i].agent, ranked[j].agent)
  {
    forall k, l | 0 <= k < |ranked| && 0 <= l < |ranked| && ranked[k].agent == ranked[l].agent ensures k == l {
      assert ranked[k] in ranked && ranked[l] in ranked;
      LessIsTotal(ranked[k].agent.id, ranked[k].agent.id);
    }
  }

  // ---------- what the law means ----------

  /** Of two agents alike in all but their IDs, the one with the larger limited entry is ranked ahead. */
  lemma LargerEntryIsAhead(agents: seq<Agent>, req: RouteRequest, opt: RouterOptions, a: Agent, b: Agent)
    requires DistinctIds(agents) && a in agents && b in agents && a == b.(id := a.id)
    requires a.agentType == TrimSpace(req.agentType)
    requires var r := req.(agentType := TrimSpace(req.agentType));
             LimitedEntry(opt, r, a.id) > LimitedEntry(opt, r, b.id)
    ensures Ahead(RankedFor(agents, req, opt), a, b)
  {
    hide TrimSpace, RankedFor, LimitedEntry, TagsHad;
    AheadIff(agents, req, opt, a, b);
  }

  /** The table has no other influence: two tables whose limited entries for the agents agree rank alike. */
  lemma {:induction false} OnlyEntriesCount(agents: seq<Agent>, req: RouteRequest, opt: RouterOptions,
                                            opt': RouterOptions)
    requires forall a :: a in agents ==> LimitedEntry(opt, req, a.id) == LimitedEntry(opt', req, a.id)
    ensures Candidates(agents, req, opt) == Candidates(agents, req, opt')
  {
    hide TrimSpace, LimitedEntry, Learned, Clamp, StaticScore;
    if agents != [] {
      var front, last := agents[..|agents| - 1], agents[|agents| - 1];
      assert last in agents && forall a :: a in front ==> a in agents;
      OnlyEntriesCount(front, req, opt, opt');
      EntryIsLearned(last, req, opt);
      EntryIsLearned(last, req, opt');
    }
  }

  /** So with the weights off, or without an entry for any agent, the table might as well not be there. */
  lemma NoEntryNoInfluence(agents: seq<Agent>, req: RouteRequest, opt: RouterOptions)
    requires forall a :: a in agents ==> !HasEntry(opt, req.(agentType := TrimSpace(req.agentType)), a.id)
    ensures RankedFor(agents, req, opt) == RankedFor(agents, req, opt.(runtimeWeights := None))
  {
    hide TrimSpace, StableSort;
    var r := req.(agentType := TrimSpace(req.agentType));
    OnlyEntriesCount(agents, r, opt, opt.(runtimeWeights := None));
  }

  // ---------- softmax ----------

  /** All scores `c` times as large and then moved by `d`. */
  function Rescaled(ranked: seq<Cand>, c: real, d: real): seq<Cand> {
    seq(|ranked|, i requires 0 <= i < |ranked| => ranked[i].(score := Line(c, d, ranked[i].score)))
  }

  function Line(c: real, d: real, x: real): real {
    c * x + d
  }

  lemma ScaledIsScaleFree(s: real, best: real, temp: real, c: real, d: real)
    requires c > 0.0 && temp > 0.0
    ensures c * temp > 0.0 && Scaled(Line(c, d, s), Line(c, d, best), c * temp) == Scaled(s, best, temp)
  {
    var q := (s - best) / temp;
    assert q * temp == s - best;
    assert q * (c * temp) == c * (q * temp) == c * (s - best) == c * s - c * best;
    assert Line(c, d, s) - Line(c, d, best) == q * (c * temp);
  }

  /** Softmax weights depend on the differences of the scores in units of the temperature, on nothing else. */
  lemma SoftmaxIsScaleFree(ranked: seq<Cand>, n: nat, temp: real, exp: real -> real, c: real, d: real)
    requires n <= |ranked| && temp > 0.0 && c > 0.0
    ensures c * temp > 0.0
    ensures Weights(Rescaled(ranked, c, d), n, c * temp, exp) == Weights(ranked, n, temp, exp)
  {
    hide Scaled, Line;
    ScaledIsScaleFree(0.0, 0.0, temp, c, d);
    forall i | 0 <= i < n
      ensures Scaled(Line(c, d, ranked[i].score), Line(c, d, ranked[0].score), c * temp)
              == Scaled(ranked[i].score, ranked[0].score, temp)
    {
      ScaledIsScaleFree(ranked[i].score, ranked[0].score, temp, c, d);
    }
  }

  /** Options that are not positive stand for their defaults, and the top is cut to the candidates there are. */
  lemma DefaultOptions(opt: RouterOptions, n: nat)
    ensures 0 < opt.softmaxTopN <= n ==> TopN(opt, n) == opt.softmaxTopN
    ensures opt.softmaxTopN >= n ==> opt.softmaxTopN <= 0 || TopN(opt, n) == n
    ensures opt.softmaxTopN <= 0 ==> TopN(opt, n) == TopN(opt.(softmaxTopN := 5), n)
    ensures opt.softmaxTemperature > 0.0 ==> Temperature(opt) == opt.softmaxTemperature
    ensures opt.softmaxTemperature <= 0.0 ==> Temperature(opt) == Temperature(opt.(softmaxTemperature := 1.0))
  {
  }
}
