/** What AgentRouter.Route guarantees about the agent it chooses (internal/transport/a2a/router.go). */
module AgentRoutingProperties {
  import opened GoStrings
  import opened AgentRouting

  // ---------- deterministic routing is canonical ----------

  ghost predicate DistinctIds(agents: seq<Agent>) {
    forall i, j :: 0 <= i < j < |agents| ==> agents[i].id != agents[j].id
  }

  /** `c` strictly beats every other candidate: maximal score, and least ID among those. */
  ghost predicate IsBest(c: Cand, cands: seq<Cand>) {
    && c in cands
    && forall d :: d in cands && d != c ==>
         d.score < c.score || (d.score == c.score && Less(c.agent.id, d.agent.id))
  }

  lemma {:induction false} CandidatesComeFromAgents(agents: seq<Agent>, req: RouteRequest, opt: RouterOptions)
    ensures forall c :: c in Candidates(agents, req, opt) <==>
              c.agent in agents && c.agent.agentType == req.agentType && c.score == Score(c.agent, req, opt)
    ensures Candidates(agents, req, opt) == [] <==> forall a :: a in agents ==> a.agentType != req.agentType
  {
    if agents != [] {
      var front, last := agents[..|agents| - 1], agents[|agents| - 1];
      CandidatesComeFromAgents(front, req, opt);
      assert agents == front + [last];
      assert last in agents;
    }
  }

  lemma DistinctById(agents: seq<Agent>, a: Agent, b: Agent)
    requires DistinctIds(agents) && a in agents && b in agents && a.id == b.id
    ensures a == b
  {
  }

  lemma SortKeepsMembers(cands: seq<Cand>)
    ensures forall c :: c in StableSort(cands) <==> c in cands
  {
    SortRanks(cands);
    assert forall c :: c in StableSort(cands) <==> c in multiset(StableSort(cands));
    assert forall c :: c in cands <==> c in multiset(cands);
  }

  /** The head of the ranking is the unique best candidate. */
  lemma HeadIsBest(agents: seq<Agent>, req: RouteRequest, opt: RouterOptions)
    requires DistinctIds(agents) && Candidates(agents, req, opt) != []
    ensures StableSort(Candidates(agents, req, opt)) != []
    ensures IsBest(StableSort(Candidates(agents, req, opt))[0], Candidates(agents, req, opt))
  {
    hide Score;
    var cands := Candidates(agents, req, opt);
    var ranked := StableSort(cands);
    SortRanks(cands);
    SortKeepsMembers(cands);
    CandidatesComeFromAgents(agents, req, opt);
    var c := ranked[0];
    assert c in ranked;
    forall d | d in cands && d != c
      ensures d.score < c.score || (d.score == c.score && Less(c.agent.id, d.agent.id))
    {
      assert d in ranked;
      var j :| 0 <= j < |ranked| && ranked[j] == d;
      assert !Better(ranked[j], ranked[0]);
      LessIsTotal(c.agent.id, d.agent.id);
      if c.agent.id == d.agent.id {
        DistinctById(agents, c.agent, d.agent);
      }
    }
  }

  // ---------- the ranking is canonical ----------

  ghost predicate Strict(ranked: seq<Cand>) {
    forall i, j :: 0 <= i < j < |ranked| ==> Better(ranked[i], ranked[j])
  }

  lemma {:induction false} CandidatesOccurOnce(agents: seq<Agent>, req: RouteRequest, opt: RouterOptions, c: Cand)
    requires DistinctIds(agents)
    ensures multiset(Candidates(agents, req, opt))[c] <= 1
  {
    hide Score;
    if agents != [] {
      var front, last := agents[..|agents| - 1], agents[|agents| - 1];
      CandidatesOccurOnce(front, req, opt, c);
      CandidatesComeFromAgents(front, req, opt);
      forall a | a in front ensures a.id != last.id {
        var i :| 0 <= i < |front| && front[i] == a;
        assert agents[i].id != agents[|agents| - 1].id;
      }
    }
  }

  lemma TwiceInMultiset(s: seq<Cand>, i: nat, j: nat)
    requires i < j < |s| && s[i] == s[j]
    ensures multiset(s)[s[i]] >= 2
  {
    assert s == s[..j] + [s[j]] + s[j + 1..];
    assert s[i] in s[..j];
  }

  lemma RankingIsStrict(agents: seq<Agent>, req: RouteRequest, opt: RouterOptions)
    requires DistinctIds(agents)
    ensures Strict(StableSort(Candidates(agents, req, opt)))
  {
    hide Score, StableSort, Candidates;
    var cands := Candidates(agents, req, opt);
    var ranked := StableSort(cands);
    SortRanks(cands);
    SortKeepsMembers(cands);
    CandidatesComeFromAgents(agents, req, opt);
    forall i, j | 0 <= i < j < |ranked| ensures Better(ranked[i], ranked[j]) {
      var c, d := ranked[i], ranked[j];
      assert c in ranked && d in ranked;
      LessIsTotal(c.agent.id, d.agent.id);
      CandidatesOccurOnce(agents, req, opt, c);
      if c.agent.id == d.agent.id {
        DistinctById(agents, c.agent, d.agent);
        TwiceInMultiset(ranked, i, j);
      }
    }
  }

  lemma StrictTail(s: seq<Cand>)
    requires Strict(s) && s != []
    ensures forall c :: c in s[1..] <==> c in s && c != s[0]
  {
    LessIsTotal(s[0].agent.id, s[0].agent.id);
    assert forall j :: 0 < j < |s| ==> Better(s[0], s[j]);
    assert s == [s[0]] + s[1..];
  }

  lemma {:induction false} StrictRankingIsUnique(s: seq<Cand>, t: seq<Cand>)
    requires Strict(s) && Strict(t) && forall c :: c in s <==> c in t
    ensures s == t
  {
    assert t != [] ==> t[0] in t;
    if s != [] {
      assert s[0] in t && t[0] in s;
      LessIsTotal(s[0].agent.id, t[0].agent.id);
      assert s[0] == t[0];
      StrictTail(s);
      StrictTail(t);
      assert s == [s[0]] + s[1..] && t == [t[0]] + t[1..];
      StrictRankingIsUnique(s[1..], t[1..]);
    }
  }

  /**
   With distinct IDs, listing the agents in any other order gives the same ranking: so every choice made
   from it, the random tie-break and softmax included, since their draws depend on the request alone.
   */
  lemma RankingIgnoresOrder(agents: seq<Agent>, agents': seq<Agent>, req: RouteRequest, opt: RouterOptions)
    requires DistinctIds(agents) && DistinctIds(agents') && forall a :: a in agents <==> a in agents'
    ensures RankedFor(agents, req, opt) == RankedFor(agents', req, opt)
  {
    hide Score, StableSort, Candidates, TrimSpace;
    var r := req.(agentType := TrimSpace(req.agentType));
    CandidatesComeFromAgents(agents, r, opt);
    CandidatesComeFromAgents(agents', r, opt);
    SortKeepsMembers(Candidates(agents, r, opt));
    SortKeepsMembers(Candidates(agents', r, opt));
    RankingIsStrict(agents, r, opt);
    RankingIsStrict(agents', r, opt);
    StrictRankingIsUnique(RankedFor(agents, req, opt), RankedFor(agents', req, opt));
  }

  /**
   With distinct IDs and no random tie-break the choice is the candidate of maximal score and, among
   those, of least ID, in whatever order the agents are listed.
   */
  lemma DeterministicChoiceIsCanonical(agents: seq<Agent>, agents': seq<Agent>, req: RouteRequest, opt: RouterOptions,
                                       rng: Rng, exp: real -> real)
    requires DistinctIds(agents) && DistinctIds(agents') && forall a :: a in agents <==> a in agents'
    requires opt.selection != "softmax" && !opt.tieBreakRandom
    requires RankedFor(agents, req, opt) != []
    ensures var ranked, ranked' := RankedFor(agents, req, opt), RankedFor(agents', req, opt);
      var c := ranked[Choice(ranked, opt, rng, exp)];
      && IsBest(c, Candidates(agents, req.(agentType := TrimSpace(req.agentType)), opt))
      && ranked' == ranked
  {
    hide Score, StableSort, TrimSpace, Candidates, TieCount;
    var r := req.(agentType := TrimSpace(req.agentType));
    SortRanks(Candidates(agents, r, opt));
    HeadIsBest(agents, r, opt);
    RankingIgnoresOrder(agents, agents', req, opt);
  }

  // ---------- the tie scan ----------

  lemma RankedScoresFall(ranked: seq<Cand>, i: nat, j: nat)
    requires Ranked(ranked) && i <= j < |ranked|
    ensures ranked[j].score <= ranked[i].score
  {
    if i < j {
      assert !Better(ranked[j], ranked[i]);
    }
  }

  lemma {:induction false} TieCountIsExact(ranked: seq<Cand>, eps: real, i: nat)
    requires Ranked(ranked) && 0 < i <= |ranked| && eps >= 0.0
    requires forall k :: 0 <= k < i ==> Abs(ranked[k].score - ranked[0].score) <= eps
    ensures forall k :: 0 <= k < |ranked| ==>
              (k < TieCount(ranked, eps, i) <==> Abs(ranked[k].score - ranked[0].score) <= eps)
    decreases |ranked| - i
  {
    if i < |ranked| {
      if Abs(ranked[i].score - ranked[0].score) <= eps {
        TieCountIsExact(ranked, eps, i + 1);
      } else {
        RankedScoresFall(ranked, 0, i);
        forall k | i <= k < |ranked| ensures Abs(ranked[k].score - ranked[0].score) > eps {
          RankedScoresFall(ranked, i, k);
        }
      }
    }
  }

  /**
   For a non-negative epsilon the early-breaking scan misses nothing: it collects exactly the candidates
   whose score is within epsilon of the best. For a negative one it collects the best candidate alone.
   */
  lemma TieScanCollectsExactly(ranked: seq<Cand>, eps: real)
    requires Ranked(ranked) && ranked != []
    ensures eps >= 0.0 ==> forall k :: 0 <= k < |ranked| ==>
              (k < TieCount(ranked, eps, 1) <==> Abs(ranked[k].score - ranked[0].score) <= eps)
    ensures eps < 0.0 ==> TieCount(ranked, eps, 1) == 1
  {
    if eps >= 0.0 {
      TieCountIsExact(ranked, eps, 1);
    }
  }

  // ---------- learned weights have bounded influence ----------

  lemma LearnedIsBounded(a: Agent, req: RouteRequest, opt: RouterOptions)
    ensures StaticScore(a, req) - Cap(opt) <= Score(a, req, opt) <= StaticScore(a, req) + Cap(opt)
  {
  }

  /**
   However the weights are learned, a choice made without softmax has a static score no more than twice
   the cap (plus epsilon, under the random tie-break) below that of any other agent of the type.
   */
  lemma LearnedInfluenceIsBounded(agents: seq<Agent>, req: RouteRequest, opt: RouterOptions,
                                  rng: Rng, exp: real -> real, other: Agent)
    requires opt.selection != "softmax" && FairRng(rng)
    requires other in agents && other.agentType == TrimSpace(req.agentType)
    ensures var ranked, r := RankedFor(agents, req, opt), req.(agentType := TrimSpace(req.agentType));
      && ranked != [] && Choice(ranked, opt, rng, exp) < |ranked|
      && var chosen := ranked[Choice(ranked, opt, rng, exp)].agent;
         StaticScore(chosen, r) >= StaticScore(other, r) - 2.0 * Cap(opt)
           - (if opt.tieBreakRandom && opt.tieEpsilon > 0.0 then opt.tieEpsilon else 0.0)
  {
    hide Score, StaticScore, StableSort, TieCount, TrimSpace, Learned, Candidates;
    var r := req.(agentType := TrimSpace(req.agentType));
    var cands := Candidates(agents, r, opt);
    CandidatesComeFromAgents(agents, r, opt);
    var c := Cand(other, Score(other, r, opt));
    assert c in cands;
    SortRanks(cands);
    SortKeepsMembers(cands);
    var ranked := StableSort(cands);
    assert c in ranked;
    var j :| 0 <= j < |ranked| && ranked[j] == c;
    RankedScoresFall(ranked, 0, j);
    ChoiceIsInRange(ranked, opt, rng, exp);
    var k := Choice(ranked, opt, rng, exp);
    TieScanCollectsExactly(ranked, opt.tieEpsilon);
    RankedScoresFall(ranked, 0, k);
    assert ranked[k] in cands;
    LearnedIsBounded(ranked[k].agent, r, opt);
    LearnedIsBounded(other, r, opt);
  }

  // ---------- softmax selection ----------

  ghost predicate PositiveMonotone(exp: real -> real) {
    && (forall x :: exp(x) > 0.0)
    && (forall x, y :: x <= y ==> exp(x) <= exp(y))
  }

  lemma {:induction false} SumsRise(ws: seq<real>, i: nat, j: nat)
    requires i <= j <= |ws| && forall k :: 0 <= k < |ws| ==> ws[k] > 0.0
    ensures SumTo(ws, i) <= SumTo(ws, j)
    ensures i < j ==> SumTo(ws, i) < SumTo(ws, j)
    ensures SumTo(ws, i) >= 0.0
    decreases j + i
  {
    if i < j {
      SumsRise(ws, i, j - 1);
    } else if i > 0 {
      SumsRise(ws, i - 1, j - 1);
    }
  }

  lemma DrawIsInside(u: real, sum: real)
    requires 0.0 <= u < 1.0 && sum > 0.0
    ensures 0.0 <= Draw(u, sum) < sum
    ensures Draw(u, sum) == 0.0 <==> u == 0.0
  {
    var gap := (1.0 - u) * sum;
    assert gap > 0.0;
    assert gap == sum - u * sum;
    if u > 0.0 {
      assert u * sum > 0.0;
    }
  }

  lemma {:induction false} PickIsTheInterval(ws: seq<real>, x: real, i: nat)
    requires i < |ws| && forall k :: 0 <= k < |ws| ==> ws[k] > 0.0
    requires x <= SumTo(ws, |ws|) && (i == 0 || SumTo(ws, i) < x)
    ensures var k := Pick(ws, x, i);
            i <= k < |ws| && x <= SumTo(ws, k + 1) && (k == 0 || SumTo(ws, k) < x)
    decreases |ws| - i
  {
    if x > SumTo(ws, i + 1) && i + 1 < |ws| {
      PickIsTheInterval(ws, x, i + 1);
    }
  }

  /**
   The draw `u` in [0,1), scaled by the total weight, falls in exactly one interval (S(k-1), S(k)] of
   the cumulative weights, with 0 belonging to the first; the loop finds that interval's index.
   */
  lemma SoftmaxPartitionsTheUnitInterval(ws: seq<real>, u: real, k: nat)
    requires ws != [] && forall i :: 0 <= i < |ws| ==> ws[i] > 0.0
    requires 0.0 <= u < 1.0 && k < |ws|
    ensures var x := Draw(u, SumTo(ws, |ws|));
            Pick(ws, x, 0) == k <==>
            (SumTo(ws, k) < x <= SumTo(ws, k + 1) || (k == 0 && u == 0.0))
  {
    var x := Draw(u, SumTo(ws, |ws|));
    SumsRise(ws, 0, |ws|);
    DrawIsInside(u, SumTo(ws, |ws|));
    PickIsTheInterval(ws, x, 0);
    var p := Pick(ws, x, 0);
    if p < k {
      SumsRise(ws, p + 1, k);
    } else if k < p {
      SumsRise(ws, k + 1, p);
      SumsRise(ws, 0, p);
    }
  }

  lemma ScalingKeepsOrder(a: real, b: real, best: real, temp: real)
    requires a <= b && temp > 0.0
    ensures Scaled(a, best, temp) <= Scaled(b, best, temp)
  {
  }

  /** Softmax stays within the top N of the ranking, and a better rank never has a shorter interval. */
  lemma SoftmaxFavoursTheRanking(ranked: seq<Cand>, opt: RouterOptions, rng: Rng, exp: real -> real, i: nat, j: nat)
    requires Ranked(ranked) && ranked != [] && opt.selection == "softmax" && FairRng(rng) && PositiveMonotone(exp)
    requires i <= j < TopN(opt, |ranked|)
    ensures Choice(ranked, opt, rng, exp) < TopN(opt, |ranked|)
    ensures var ws := Weights(ranked, TopN(opt, |ranked|), Temperature(opt), exp);
      && 0.0 < SumTo(ws, j + 1) - SumTo(ws, j) <= SumTo(ws, i + 1) - SumTo(ws, i)
      && (Choice(ranked, opt, rng, exp) == j <==>
            SumTo(ws, j) < Draw(rng.float, SumTo(ws, |ws|)) <= SumTo(ws, j + 1) || (j == 0 && rng.float == 0.0))
  {
    hide Draw, Scaled;
    var temp := Temperature(opt);
    var ws := Weights(ranked, TopN(opt, |ranked|), temp, exp);
    RankedScoresFall(ranked, i, j);
    ScalingKeepsOrder(ranked[j].score, ranked[i].score, ranked[0].score, temp);
    SoftmaxPartitionsTheUnitInterval(ws, rng.float, j);
    ChoiceIsInRange(ranked, opt, rng, exp);
  }
}
