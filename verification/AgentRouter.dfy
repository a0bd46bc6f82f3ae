/**
 AgentRouter.Route (internal/transport/a2a/router.go): score the agents of a type, rank them, and choose
 deterministically (with an optional random tie-break) or by softmax sampling.

 Scores are reals. The generator seeded from the request and `math.Exp` are inputs.
 */
module AgentRouting {
  import opened Wrappers
  import opened GoStrings

  datatype Agent = Agent(
    id: string, agentType: string, taskTypes: seq<string>, tags: seq<string>, weight: real, name: string)

  datatype RouteRequest = RouteRequest(
    agentType: string, taskType: string, tags: seq<string>, goal: string, seed: string)

  /** agentType -> taskType -> agentID -> weight */
  type WeightTable = map<string, map<string, map<string, real>>>

  datatype RouterOptions = RouterOptions(
    selection: string, tieBreakRandom: bool, tieEpsilon: real,
    softmaxTopN: int, softmaxTemperature: real,
    runtimeWeightsEnabled: bool, runtimeWeightsMax: real, runtimeWeights: Option<WeightTable>)

  /** Draws of the generator seeded from the request: `rng.Intn(n)` and `rng.Float64()`. */
  datatype Rng = Rng(intn: nat -> nat, float: real)

  ghost predicate FairRng(rng: Rng) {
    0.0 <= rng.float < 1.0 && forall n :: n > 0 ==> rng.intn(n) < n
  }

  datatype RouteError = AgentTypeRequired | NoAgentFound(agentType: string)

  datatype Cand = Cand(agent: Agent, score: real)

  // ---------- scoring ----------

  function MatchingTags(tags: seq<string>, have: seq<string>): nat {
    if tags == [] then 0
    else MatchingTags(tags[..|tags| - 1], have) + if tags[|tags| - 1] in have then 1 else 0
  }

  function StaticScore(a: Agent, req: RouteRequest): real {
    (if req.taskType != "" && req.taskType in a.taskTypes then 50.0 else 0.0)
    + 10.0 * MatchingTags(req.tags, a.tags) as real
    + a.weight
    + (if a.name != "" then 0.1 else 0.0)
  }

  method ScoreAgent(a: Agent, req: RouteRequest) returns (score: real)
    ensures score == StaticScore(a, req)
  {
    score := 0.0;
    if req.taskType != "" && req.taskType in a.taskTypes {
      score := score + 50.0;
    }
    ghost var base := score;
    for i := 0 to |req.tags|
      invariant score == base + 10.0 * MatchingTags(req.tags[..i], a.tags) as real
    {
      assert req.tags[..i + 1][..i] == req.tags[..i];
      if req.tags[i] in a.tags {
        score := score + 10.0;
      }
    }
    assert req.tags[..|req.tags|] == req.tags;
    if a.weight != 0.0 {
      score := score + a.weight;
    }
    if a.name != "" {
      score := score + 0.1;
    }
  }

  /** The bound on a learned weight. */
  function Cap(opt: RouterOptions): real {
    if opt.runtimeWeightsMax <= 0.0 then 5.0 else opt.runtimeWeightsMax
  }

  /** The learned weight as configured; a missing table, type, task or agent is weight 0. */
  function Learned(a: Agent, req: RouteRequest, opt: RouterOptions): real {
    var at, tt := TrimSpace(req.agentType), TrimSpace(req.taskType);
    if opt.runtimeWeightsEnabled && opt.runtimeWeights.Some? && tt != ""
       && at in opt.runtimeWeights.value && tt in opt.runtimeWeights.value[at]
       && a.id in opt.runtimeWeights.value[at][tt]
    then opt.runtimeWeights.value[at][tt][a.id] else 0.0
  }

  function Clamp(w: real, cap: real): real {
    if w > cap then cap else if w < -cap then -cap else w
  }

  function Score(a: Agent, req: RouteRequest, opt: RouterOptions): real {
    StaticScore(a, req) + Clamp(Learned(a, req, opt), Cap(opt))
  }

  method ScoreAgentWithOptions(a: Agent, req: RouteRequest, opt: RouterOptions) returns (score: real)
    ensures score == Score(a, req, opt)
  {
    score := ScoreAgent(a, req);
    if !opt.runtimeWeightsEnabled || opt.runtimeWeights == None { return; }
    var tt := TrimSpace(req.taskType);
    if tt == "" { return; }
    var at := TrimSpace(req.agentType);
    if at !in opt.runtimeWeights.value { return; }
    var byType := opt.runtimeWeights.value[at];
    if tt !in byType { return; }
    var byTask := byType[tt];
    var w := if a.id in byTask then byTask[a.id] else 0.0;
    if w == 0.0 { return; }
    var maxAbs := opt.runtimeWeightsMax;
    if maxAbs <= 0.0 { maxAbs := 5.0; }
    if w > maxAbs { w := maxAbs; }
    if w < -maxAbs { w := -maxAbs; }
    score := score + w;
  }

  // ---------- candidates and their order ----------

  function Candidates(agents: seq<Agent>, req: RouteRequest, opt: RouterOptions): seq<Cand> {
    if agents == [] then []
    else
      var a := agents[|agents| - 1];
      Candidates(agents[..|agents| - 1], req, opt) +
      if a.agentType == req.agentType then [Cand(a, Score(a, req, opt))] else []
  }

  /** Higher score first, then smaller ID. */
  predicate Better(x: Cand, y: Cand) {
    if x.score == y.score then Less(x.agent.id, y.agent.id) else x.score > y.score
  }

  ghost predicate Ranked(cands: seq<Cand>) {
    forall i, j :: 0 <= i < j < |cands| ==> !Better(cands[j], cands[i])
  }

  lemma BetterIsTransitive(x: Cand, y: Cand, z: Cand)
    requires !Better(y, x) && !Better(z, y)
    ensures !Better(z, x)
  {
    LessIsTotal(x.agent.id, y.agent.id);
    LessIsTotal(y.agent.id, z.agent.id);
    LessIsTotal(x.agent.id, z.agent.id);
    if Less(x.agent.id, y.agent.id) && Less(y.agent.id, z.agent.id) {
      LessIsTransitive(x.agent.id, y.agent.id, z.agent.id);
    }
  }

  /** `sort.SliceStable`: a later element goes behind every earlier one it is not better than. */
  function StableInsert(ranked: seq<Cand>, x: Cand): seq<Cand> {
    if ranked == [] || !Better(x, ranked[|ranked| - 1]) then ranked + [x]
    else StableInsert(ranked[..|ranked| - 1], x) + [ranked[|ranked| - 1]]
  }

  function StableSort(cands: seq<Cand>): seq<Cand> {
    if cands == [] then []
    else StableInsert(StableSort(cands[..|cands| - 1]), cands[|cands| - 1])
  }

  lemma {:induction false} InsertAdds(ranked: seq<Cand>, x: Cand)
    ensures multiset(StableInsert(ranked, x)) == multiset(ranked) + multiset{x}
  {
    hide Better;
    if ranked != [] {
      InsertAdds(ranked[..|ranked| - 1], x);
      assert ranked == ranked[..|ranked| - 1] + [ranked[|ranked| - 1]];
    }
  }

  /** Behind every element of a ranking it is not better than. */
  lemma BehindAll(ranked: seq<Cand>, x: Cand)
    requires Ranked(ranked) && ranked != [] && !Better(x, ranked[|ranked| - 1])
    ensures Ranked(ranked + [x])
  {
    hide Better;
    forall i | 0 <= i < |ranked| ensures !Better(x, ranked[i]) {
      if i < |ranked| - 1 {
        BetterIsTransitive(ranked[i], ranked[|ranked| - 1], x);
      }
    }
  }

  lemma BetterIsAsymmetric(x: Cand, y: Cand)
    requires Better(x, y)
    ensures !Better(y, x)
  {
    LessIsTotal(x.agent.id, y.agent.id);
  }

  lemma {:induction false} InsertRanks(ranked: seq<Cand>, x: Cand)
    requires Ranked(ranked)
    ensures Ranked(StableInsert(ranked, x))
  {
    hide Better;
    if ranked != [] {
      var front, last := ranked[..|ranked| - 1], ranked[|ranked| - 1];
      if Better(x, last) {
        InsertRanks(front, x);
        InsertAdds(front, x);
        BetterIsAsymmetric(x, last);
        var r := StableInsert(front, x);
        forall i | 0 <= i < |r| ensures !Better(last, r[i]) {
          assert r[i] in multiset(r);
          if r[i] != x {
            assert r[i] in front;
          }
        }
      } else {
        BehindAll(ranked, x);
      }
    }
  }

  lemma {:induction false} SortRanks(cands: seq<Cand>)
    ensures Ranked(StableSort(cands)) && multiset(StableSort(cands)) == multiset(cands)
    ensures |StableSort(cands)| == |cands|
  {
    if cands != [] {
      SortRanks(cands[..|cands| - 1]);
      InsertRanks(StableSort(cands[..|cands| - 1]), cands[|cands| - 1]);
      InsertAdds(StableSort(cands[..|cands| - 1]), cands[|cands| - 1]);
      assert cands == cands[..|cands| - 1] + [cands[|cands| - 1]];
      assert |multiset(StableSort(cands))| == |multiset(cands)|;
    }
  }

  // ---------- choosing ----------

  function Abs(x: real): real {
    if x < 0.0 then -x else x
  }

  /** How many leading candidates the tie scan collects from index `i` on. */
  function TieCount(ranked: seq<Cand>, eps: real, i: nat): (n: nat)
    requires 0 < i <= |ranked|
    ensures i <= n <= |ranked|
    decreases |ranked| - i
  {
    if i < |ranked| && Abs(ranked[i].score - ranked[0].score) <= eps then TieCount(ranked, eps, i + 1) else i
  }

  function TopN(opt: RouterOptions, n: nat): nat {
    var top := if opt.softmaxTopN <= 0 then 5 else opt.softmaxTopN;
    if top > n then n else top
  }

  function Temperature(opt: RouterOptions): real {
    if opt.softmaxTemperature <= 0.0 then 1.0 else opt.softmaxTemperature
  }

  function Scaled(score: real, best: real, temp: real): real
    requires temp > 0.0
  {
    (score - best) / temp
  }

  function Weights(ranked: seq<Cand>, n: nat, temp: real, exp: real -> real): seq<real>
    requires n <= |ranked| && temp > 0.0
  {
    seq(n, i requires 0 <= i < n => exp(Scaled(ranked[i].score, ranked[0].score, temp)))
  }

  function SumTo(ws: seq<real>, n: nat): real
    requires n <= |ws|
  {
    if n == 0 then 0.0 else SumTo(ws, n - 1) + ws[n - 1]
  }

  /** The first index from `i` on whose cumulative weight reaches `x`, or 0. */
  function Pick(ws: seq<real>, x: real, i: nat): (k: nat)
    requires i <= |ws|
    ensures ws != [] ==> k < |ws|
    decreases |ws| - i
  {
    if i == |ws| then 0 else if x <= SumTo(ws, i + 1) then i else Pick(ws, x, i + 1)
  }

  function Draw(u: real, sum: real): real {
    u * sum
  }

  /** The index chosen among the ranked candidates. */
  function Choice(ranked: seq<Cand>, opt: RouterOptions, rng: Rng, exp: real -> real): nat
    requires ranked != []
  {
    if opt.selection != "softmax" then
      var n := TieCount(ranked, opt.tieEpsilon, 1);
      if opt.tieBreakRandom && n > 1 then rng.intn(n) else 0
    else
      var ws := Weights(ranked, TopN(opt, |ranked|), Temperature(opt), exp);
      Pick(ws, Draw(rng.float, SumTo(ws, |ws|)), 0)
  }

  function RankedFor(agents: seq<Agent>, req: RouteRequest, opt: RouterOptions): seq<Cand> {
    StableSort(Candidates(agents, req.(agentType := TrimSpace(req.agentType)), opt))
  }

  lemma ChoiceIsInRange(ranked: seq<Cand>, opt: RouterOptions, rng: Rng, exp: real -> real)
    requires ranked != [] && FairRng(rng)
    ensures Choice(ranked, opt, rng, exp) < |ranked|
    ensures opt.selection != "softmax" ==> Choice(ranked, opt, rng, exp) < TieCount(ranked, opt.tieEpsilon, 1)
    ensures opt.selection == "softmax" ==> Choice(ranked, opt, rng, exp) < TopN(opt, |ranked|)
  {
  }

  method Route(agents: seq<Agent>, opt: RouterOptions, request: RouteRequest, rng: Rng, exp: real -> real)
    returns (r: Result<Cand, RouteError>)
    requires FairRng(rng)
    ensures var ranked := RankedFor(agents, request, opt);
            if TrimSpace(request.agentType) == "" then r == Failure(AgentTypeRequired)
            else if ranked == [] then r == Failure(NoAgentFound(TrimSpace(request.agentType)))
            else Choice(ranked, opt, rng, exp) < |ranked| && r == Success(ranked[Choice(ranked, opt, rng, exp)])
  {
    hide Score, TrimSpace, Choice;
    var req := request.(agentType := TrimSpace(request.agentType));
    if req.agentType == "" { return Failure(AgentTypeRequired); }
    var cands := [];
    for i := 0 to |agents|
      invariant cands == Candidates(agents[..i], req, opt)
    {
      assert agents[..i + 1][..i] == agents[..i];
      if agents[i].agentType != req.agentType { continue; }
      var score := ScoreAgentWithOptions(agents[i], req, opt);
      cands := cands + [Cand(agents[i], score)];
    }
    assert agents[..|agents|] == agents;
    SortRanks(cands);
    if |cands| == 0 { return Failure(NoAgentFound(req.agentType)); }
    cands := StableSort(cands);
    ChoiceIsInRange(cands, opt, rng, exp);
    var k := Choose(cands, opt, rng, exp);
    return Success(cands[k]);
  }

  method Choose(ranked: seq<Cand>, opt: RouterOptions, rng: Rng, exp: real -> real) returns (k: nat)
    requires ranked != [] && FairRng(rng)
    ensures k == Choice(ranked, opt, rng, exp)
  {
    if opt.selection != "softmax" {
      k := ChooseTied(ranked, opt, rng);
    } else {
      k := ChooseSoftmax(ranked, opt, rng, exp);
    }
  }

  /** Top-1, or a random pick among the leading candidates within epsilon of it. */
  method ChooseTied(ranked: seq<Cand>, opt: RouterOptions, rng: Rng) returns (k: nat)
    requires ranked != [] && FairRng(rng)
    ensures var n := TieCount(ranked, opt.tieEpsilon, 1);
            k == if opt.tieBreakRandom && n > 1 then rng.intn(n) else 0
  {
    var bestScore, tied := ranked[0].score, 1;
    while tied < |ranked|
      invariant 1 <= tied <= |ranked|
      invariant TieCount(ranked, opt.tieEpsilon, tied) == TieCount(ranked, opt.tieEpsilon, 1)
    {
      if Abs(ranked[tied].score - bestScore) <= opt.tieEpsilon {
        tied := tied + 1;
        continue;
      }
      break;
    }
    k := 0;
    if opt.tieBreakRandom && tied > 1 {
      k := rng.intn(tied);
    }
  }

  method SoftmaxWeights(ranked: seq<Cand>, topN: nat, temp: real, exp: real -> real)
    returns (weights: seq<real>, sum: real)
    requires topN <= |ranked| && temp > 0.0
    ensures weights == Weights(ranked, topN, temp, exp) && sum == SumTo(weights, |weights|)
  {
    hide Scaled;
    weights, sum := [], 0.0;
    for i := 0 to topN
      invariant weights == Weights(ranked, i, temp, exp)
      invariant sum == SumTo(weights, |weights|)
    {
      var w := exp(Scaled(ranked[i].score, ranked[0].score, temp));
      SumToPrefix(weights, [w], |weights|);
      weights := weights + [w];
      sum := sum + w;
    }
  }

  /** Cumulative selection among the top `topN`. */
  method ChooseSoftmax(ranked: seq<Cand>, opt: RouterOptions, rng: Rng, exp: real -> real) returns (k: nat)
    requires ranked != []
    ensures var ws := Weights(ranked, TopN(opt, |ranked|), Temperature(opt), exp);
            k == Pick(ws, Draw(rng.float, SumTo(ws, |ws|)), 0)
  {
    hide Weights, Draw;
    var topN := opt.softmaxTopN;
    if topN <= 0 { topN := 5; }
    if topN > |ranked| { topN := |ranked|; }
    var temp := opt.softmaxTemperature;
    if temp <= 0.0 { temp := 1.0; }
    var weights, sum := SoftmaxWeights(ranked, topN, temp, exp);
    var x, acc := Draw(rng.float, sum), 0.0;
    k := 0;
    for i := 0 to |weights|
      invariant acc == SumTo(weights, i)
      invariant Pick(weights, x, i) == Pick(weights, x, 0)
    {
      acc := acc + weights[i];
      if x <= acc {
        k := i;
        return;
      }
    }
  }

  lemma {:induction false} SumToPrefix(ws: seq<real>, more: seq<real>, n: nat)
    requires n <= |ws|
    ensures SumTo(ws + more, n) == SumTo(ws, n)
  {
    if n > 0 {
      SumToPrefix(ws, more, n - 1);
    }
  }
}
