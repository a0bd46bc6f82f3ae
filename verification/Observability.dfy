/**
 Range-query signals of cmd/data-observability-agent/main.go: summing matrix series by timestamp,
 basic statistics, and the slope of the least-squares line. Numbers are reals, already parsed.
 */
module Observability {
  import opened Wrappers

  /** One `[timestamp, value]` pair; pairs that are too short or do not parse are skipped. */
  datatype Sample = Skipped | Sample(t: real, v: real)

  /** One element of `data.result`; its `values` may be absent. An absent result is an empty matrix. */
  datatype Series = NoValues | Series(samples: seq<Sample>)

  // ---------- sums ----------

  function Sum(xs: seq<real>): real {
    if xs == [] then 0.0 else Sum(xs[..|xs| - 1]) + xs[|xs| - 1]
  }

  /** Sum of the parsed values, of one timestamp or of all. */
  function TotalAt(samples: seq<Sample>, t: real): real {
    if samples == [] then 0.0
    else
      var s := samples[|samples| - 1];
      TotalAt(samples[..|samples| - 1], t) + if s.Sample? && s.t == t then s.v else 0.0
  }

  function Total(samples: seq<Sample>): real {
    if samples == [] then 0.0
    else
      var s := samples[|samples| - 1];
      Total(samples[..|samples| - 1]) + if s.Sample? then s.v else 0.0
  }

  function Flatten(matrix: seq<Series>): seq<Sample> {
    if matrix == [] then []
    else
      var s := matrix[|matrix| - 1];
      Flatten(matrix[..|matrix| - 1]) + if s.Series? then s.samples else []
  }

  function Timestamps(samples: seq<Sample>): set<real> {
    set i | 0 <= i < |samples| && samples[i].Sample? :: samples[i].t
  }

  function SeriesCount(matrix: seq<Series>): nat {
    if matrix == [] then 0
    else SeriesCount(matrix[..|matrix| - 1]) + if matrix[|matrix| - 1].Series? then 1 else 0
  }

  ghost predicate Increasing(ts: seq<real>) {
    forall i, j :: 0 <= i < j < |ts| ==> ts[i] < ts[j]
  }

  function Totals(samples: seq<Sample>, ts: seq<real>): seq<real> {
    seq(|ts|, i requires 0 <= i < |ts| => TotalAt(samples, ts[i]))
  }

  /** Each series contributes its own samples, wherever it stands; one without values contributes nothing. */
  lemma {:induction false} EverySeriesCounts(before: seq<Series>, item: Series, after: seq<Series>)
    ensures var samples := if item.Series? then item.samples else [];
            Flatten(before + [item] + after) == Flatten(before) + samples + Flatten(after)
    ensures SeriesCount(before + [item] + after) ==
            SeriesCount(before) + (if item.Series? then 1 else 0) + SeriesCount(after)
  {
    var matrix := before + [item] + after;
    if after == [] {
      assert matrix == before + [item] && matrix[..|before|] == before;
    } else {
      var front, last := after[..|after| - 1], after[|after| - 1];
      EverySeriesCounts(before, item, front);
      assert matrix[..|matrix| - 1] == before + [item] + front && matrix[|matrix| - 1] == last;
    }
  }

  // ---------- conservation ----------

  function Share(ts: seq<real>, t: real, v: real): seq<real> {
    seq(|ts|, i requires 0 <= i < |ts| => if ts[i] == t then v else 0.0)
  }

  lemma {:induction false} ShareSums(ts: seq<real>, t: real, v: real)
    requires Increasing(ts)
    ensures Sum(Share(ts, t, v)) == if t in ts then v else 0.0
  {
    if ts != [] {
      var front := ts[..|ts| - 1];
      assert Share(ts, t, v)[..|front|] == Share(front, t, v);
      ShareSums(front, t, v);
    }
  }

  lemma {:induction false} SumAdds(xs: seq<real>, ys: seq<real>, zs: seq<real>)
    requires |xs| == |ys| == |zs|
    requires forall i :: 0 <= i < |xs| ==> zs[i] == xs[i] + ys[i]
    ensures Sum(zs) == Sum(xs) + Sum(ys)
  {
    if xs != [] {
      SumAdds(xs[..|xs| - 1], ys[..|ys| - 1], zs[..|zs| - 1]);
    }
  }

  /** Grouping by timestamp loses nothing: the per-timestamp totals add up to all the parsed values. */
  lemma {:induction false} GroupingConserves(samples: seq<Sample>, ts: seq<real>)
    requires Increasing(ts)
    requires forall t :: t in Timestamps(samples) ==> t in ts
    ensures Sum(Totals(samples, ts)) == Total(samples)
  {
    if samples == [] {
      SumOfZeros(Totals(samples, ts));
    } else {
      var front, s := samples[..|samples| - 1], samples[|samples| - 1];
      assert forall t :: t in Timestamps(front) ==> t in Timestamps(samples);
      GroupingConserves(front, ts);
      if s.Sample? {
        assert s.t in Timestamps(samples);
        ShareSums(ts, s.t, s.v);
        SumAdds(Totals(front, ts), Share(ts, s.t, s.v), Totals(samples, ts));
      } else {
        assert Totals(samples, ts) == Totals(front, ts);
      }
    }
  }

  lemma {:induction false} SumOfZeros(xs: seq<real>)
    requires forall i :: 0 <= i < |xs| ==> xs[i] == 0.0
    ensures Sum(xs) == 0.0
  {
    if xs != [] {
      SumOfZeros(xs[..|xs| - 1]);
    }
  }

  // ---------- extracting the summed series ----------

  method AddSamples(byTS: map<real, real>, samples: seq<Sample>, ghost before: seq<Sample>) returns (r: map<real, real>)
    requires byTS.Keys == Timestamps(before)
    requires forall t :: t in byTS ==> byTS[t] == TotalAt(before, t)
    ensures r.Keys == Timestamps(before + samples)
    ensures forall t :: t in r ==> r[t] == TotalAt(before + samples, t)
  {
    r := byTS;
    assert before + samples[..0] == before;
    for i := 0 to |samples|
      invariant r.Keys == Timestamps(before + samples[..i])
      invariant forall t :: t in r ==> r[t] == TotalAt(before + samples[..i], t)
    {
      var s := samples[i];
      SnocSample(before + samples[..i], s);
      assert before + samples[..i + 1] == before + samples[..i] + [s];
      if s.Sample? {
        r := r[s.t := (if s.t in r then r[s.t] else 0.0) + s.v];
      }
    }
    assert samples[..|samples|] == samples;
  }

  lemma SnocSample(samples: seq<Sample>, s: Sample)
    ensures Timestamps(samples + [s]) == Timestamps(samples) + if s.Sample? then {s.t} else {}
    ensures forall t :: TotalAt(samples + [s], t) ==
                        TotalAt(samples, t) + if s.Sample? && s.t == t then s.v else 0.0
    ensures s.Sample? && s.t !in Timestamps(samples) ==> TotalAt(samples, s.t) == 0.0
  {
    var more := samples + [s];
    assert more[..|samples|] == samples;
    forall t | t in Timestamps(samples) ensures t in Timestamps(more) {
      var i :| 0 <= i < |samples| && samples[i].Sample? && samples[i].t == t;
      assert more[i] == samples[i];
    }
    if s.Sample? {
      assert more[|samples|] == s;
      if s.t !in Timestamps(samples) {
        NothingAt(samples, s.t);
      }
    }
  }

  lemma {:induction false} NothingAt(samples: seq<Sample>, t: real)
    requires t !in Timestamps(samples)
    ensures TotalAt(samples, t) == 0.0
  {
    if samples != [] {
      var front := samples[..|samples| - 1];
      assert forall i :: 0 <= i < |front| ==> front[i] == samples[i];
      assert Timestamps(front) <= Timestamps(samples);
      NothingAt(front, t);
    }
  }

  /** Inserts `t` into its place. */
  method Insert(sorted: seq<real>, t: real) returns (r: seq<real>)
    requires Increasing(sorted) && t !in sorted
    ensures Increasing(r)
    ensures forall x :: x in r <==> x == t || x in sorted
  {
    var k := |sorted|;
    while k > 0 && sorted[k - 1] > t
      invariant 0 <= k <= |sorted|
      invariant forall i :: k <= i < |sorted| ==> sorted[i] > t
    {
      k := k - 1;
    }
    if k > 0 {
      assert sorted[k - 1] in sorted;
    }
    r := sorted[..k] + [t] + sorted[k..];
  }

  ghost predicate Distinct(ts: seq<real>) {
    forall i, j :: 0 <= i < j < |ts| ==> ts[i] != ts[j]
  }

  method SortFloats(keys: seq<real>) returns (sorted: seq<real>)
    requires Distinct(keys)
    ensures Increasing(sorted)
    ensures forall t :: t in sorted <==> t in keys
  {
    sorted := [];
    for i := 0 to |keys|
      invariant Increasing(sorted)
      invariant forall t :: t in sorted <==> t in keys[..i]
    {
      sorted := Insert(sorted, keys[i]);
    }
  }

  /** `visit` is the order in which the runtime ranges over the map of timestamps: any order at all. */
  method KeysOf(byTS: map<real, real>, visit: seq<real>) returns (keys: seq<real>)
    requires Distinct(visit) && forall t :: t in visit <==> t in byTS
    ensures Increasing(keys) && forall t :: t in keys <==> t in byTS
  {
    keys := [];
    for i := 0 to |visit|
      invariant keys == visit[..i]
    {
      keys := keys + [visit[i]];
    }
    keys := SortFloats(keys);
  }

  /** Strictly increasing timestamps, each with the sum of its values; nothing is lost or invented. */
  method ExtractMatrixAsSummedSeries(matrix: seq<Series>, visit: seq<real>)
    returns (ts: seq<real>, ys: seq<real>, series: nat)
    requires Distinct(visit) && forall t :: t in visit <==> t in Timestamps(Flatten(matrix))
    ensures series == SeriesCount(matrix)
    ensures |ts| == |ys| && Increasing(ts)
    ensures forall t :: t in ts <==> t in Timestamps(Flatten(matrix))
    ensures forall i :: 0 <= i < |ts| ==> ys[i] == TotalAt(Flatten(matrix), ts[i])
    ensures Sum(ys) == Total(Flatten(matrix))
  {
    var byTS := map[];
    series := 0;
    for i := 0 to |matrix|
      invariant series == SeriesCount(matrix[..i])
      invariant byTS.Keys == Timestamps(Flatten(matrix[..i]))
      invariant forall t :: t in byTS ==> byTS[t] == TotalAt(Flatten(matrix[..i]), t)
    {
      assert matrix[..i + 1][..i] == matrix[..i];
      var item := matrix[i];
      if item.NoValues? {
        assert Flatten(matrix[..i + 1]) == Flatten(matrix[..i]);
        continue;
      }
      series := series + 1;
      byTS := AddSamples(byTS, item.samples, Flatten(matrix[..i]));
    }
    assert matrix[..|matrix|] == matrix;

    ts := KeysOf(byTS, visit);
    ys := [];
    for i := 0 to |ts|
      invariant |ys| == i
      invariant forall k :: 0 <= k < i ==> ys[k] == TotalAt(Flatten(matrix), ts[k])
    {
      assert ts[i] in ts;
      ys := ys + [byTS[ts[i]]];
    }
    assert ys == Totals(Flatten(matrix), ts);
    GroupingConserves(Flatten(matrix), ts);
  }

  // ---------- the least-squares slope ----------

  function Square(x: real): real {
    x * x
  }

  function Product(x: real, y: real): real {
    x * y
  }

  function Line(slope: real, intercept: real, t: real): real {
    intercept + slope * t
  }

  /** Sum of squared deviations of `ts` from `m`, and of products of deviations. */
  function SquaredDeviation(ts: seq<real>, m: real): real {
    if ts == [] then 0.0
    else SquaredDeviation(ts[..|ts| - 1], m) + Square(ts[|ts| - 1] - m)
  }

  function CoDeviation(ts: seq<real>, ys: seq<real>, m: real, n: real): real
    requires |ts| == |ys|
  {
    if ts == [] then 0.0
    else CoDeviation(ts[..|ts| - 1], ys[..|ys| - 1], m, n) + Product(ts[|ts| - 1] - m, ys[|ys| - 1] - n)
  }

  function Mean(xs: seq<real>): real
    requires xs != []
  {
    Sum(xs) / |xs| as real
  }

  function Slope(ts: seq<real>, ys: seq<real>): real {
    if |ts| != |ys| || |ts| < 2 then 0.0
    else
      var spread := SquaredDeviation(ts, Mean(ts));
      if spread == 0.0 then 0.0 else CoDeviation(ts, ys, Mean(ts), Mean(ys)) / spread
  }

  /** Of the line with slope `Slope` through the means. */
  function Intercept(ts: seq<real>, ys: seq<real>): real
    requires ts != [] && ys != []
  {
    Mean(ys) - Slope(ts, ys) * Mean(ts)
  }

  /** Sum of squared residuals of the line `intercept + slope * t`. */
  function Residuals(ts: seq<real>, ys: seq<real>, slope: real, intercept: real): real
    requires |ts| == |ys|
  {
    if ts == [] then 0.0
    else Residuals(ts[..|ts| - 1], ys[..|ys| - 1], slope, intercept)
         + Square(ys[|ys| - 1] - Line(slope, intercept, ts[|ts| - 1]))
  }

  method Sums(ts: seq<real>, ys: seq<real>) returns (sumT: real, sumY: real)
    requires |ts| == |ys|
    ensures sumT == Sum(ts) && sumY == Sum(ys)
  {
    sumT, sumY := 0.0, 0.0;
    for i := 0 to |ts|
      invariant sumT == Sum(ts[..i]) && sumY == Sum(ys[..i])
    {
      assert ts[..i + 1][..i] == ts[..i] && ys[..i + 1][..i] == ys[..i];
      sumT := sumT + ts[i];
      sumY := sumY + ys[i];
    }
    assert ts[..|ts|] == ts && ys[..|ys|] == ys;
  }

  method Deviations(ts: seq<real>, ys: seq<real>, meanT: real, meanY: real) returns (varNum: real, cov: real)
    requires |ts| == |ys|
    ensures varNum == SquaredDeviation(ts, meanT) && cov == CoDeviation(ts, ys, meanT, meanY)
  {
    varNum, cov := 0.0, 0.0;
    for i := 0 to |ts|
      invariant varNum == SquaredDeviation(ts[..i], meanT)
      invariant cov == CoDeviation(ts[..i], ys[..i], meanT, meanY)
    {
      assert ts[..i + 1][..i] == ts[..i] && ys[..i + 1][..i] == ys[..i];
      var dt, dy := ts[i] - meanT, ys[i] - meanY;
      varNum := varNum + dt * dt;
      cov := cov + dt * dy;
    }
    assert ts[..|ts|] == ts && ys[..|ys|] == ys;
  }

  method LinearRegressionSlope(ts: seq<real>, ys: seq<real>) returns (slope: real)
    ensures slope == Slope(ts, ys)
  {
    hide SquaredDeviation, CoDeviation, Sum;
    if |ts| != |ys| || |ts| < 2 { return 0.0; }
    var meanT, meanY := Sums(ts, ys);
    meanT := meanT / |ts| as real;
    meanY := meanY / |ys| as real;
    var varNum, cov := Deviations(ts, ys, meanT, meanY);
    if varNum == 0.0 { return 0.0; }
    return cov / varNum;
  }

  lemma ProductIsPositive(x: real, y: real, product: real)
    requires x > 0.0 && y > 0.0 && product == x * y
    ensures product > 0.0
  {
  }

  lemma SquareSign(x: real)
    ensures Square(x) >= 0.0
    ensures Square(x) == 0.0 <==> x == 0.0
  {
    if x > 0.0 {
      ProductIsPositive(x, x, Square(x));
    } else if x < 0.0 {
      ProductIsPositive(-x, -x, Square(x));
    }
  }

  lemma {:induction false} DeviationIsNonnegative(ts: seq<real>, m: real)
    ensures SquaredDeviation(ts, m) >= 0.0
    ensures SquaredDeviation(ts, m) == 0.0 <==> forall i :: 0 <= i < |ts| ==> ts[i] == m
  {
    if ts != [] {
      var front, last := ts[..|ts| - 1], ts[|ts| - 1];
      DeviationIsNonnegative(front, m);
      SquareSign(last - m);
      if forall i :: 0 <= i < |front| ==> front[i] == m {
        assert forall i :: 0 <= i < |front| ==> ts[i] == front[i];
      } else {
        var i :| 0 <= i < |front| && front[i] != m;
        assert ts[i] != m;
      }
    }
  }

  /**
   Squared residuals of `k` points, from the sums of squares `y2` and `t2`, the sum of products `ty`
   and the sum `off` of the deviations from slope `b`, with the line passing `c` below the means.
   */
  function Parabola(b: real, c: real, y2: real, ty: real, t2: real, off: real, k: real): real {
    y2 - 2.0 * b * ty + b * b * t2 + 2.0 * c * off + k * Square(c)
  }

  lemma SquareOfSum(e: real, c: real)
    ensures Square(e + c) == Square(e) + 2.0 * c * e + Square(c)
  {
  }

  lemma SquareOfGap(dt: real, dy: real, b: real)
    ensures Square(dy - Product(b, dt)) == Square(dy) - 2.0 * b * Product(dt, dy) + b * b * Square(dt)
  {
    var f := b * dt;
    assert (dy - f) * (dy - f) == dy * dy - 2.0 * (f * dy) + f * f;
    assert f * dy == b * (dt * dy);
    assert f * f == b * b * (dt * dt);
  }

  lemma ResidualAround(t: real, y: real, b: real, a: real, m: real, n: real)
    ensures y - Line(b, a, t) == (y - n) - Product(b, t - m) + (n - Line(b, a, m))
  {
  }

  /** One residual, split around the point (m, n). */
  lemma SplitResidual(t: real, y: real, b: real, a: real, m: real, n: real)
    ensures var dt, dy := t - m, y - n;
            Square(y - Line(b, a, t)) ==
            Parabola(b, n - Line(b, a, m), Square(dy), Product(dt, dy), Square(dt), dy - Product(b, dt), 1.0)
  {
    hide Square, Product, Line;
    var dt, dy, c := t - m, y - n, n - Line(b, a, m);
    ResidualAround(t, y, b, a, m, n);
    SquareOfSum(dy - Product(b, dt), c);
    SquareOfGap(dt, dy, b);
  }

  lemma ParabolasAdd(b: real, c: real, y2: real, ty: real, t2: real, off: real, k: real,
                     y2': real, ty': real, t2': real, off': real, k': real)
    ensures Parabola(b, c, y2 + y2', ty + ty', t2 + t2', off + off', k + k') ==
            Parabola(b, c, y2, ty, t2, off, k) + Parabola(b, c, y2', ty', t2', off', k')
  {
    assert 2.0 * b * (ty + ty') == 2.0 * b * ty + 2.0 * b * ty';
    assert b * b * (t2 + t2') == b * b * t2 + b * b * t2';
    assert 2.0 * c * (off + off') == 2.0 * c * off + 2.0 * c * off';
    assert (k + k') * Square(c) == k * Square(c) + k' * Square(c);
  }

  /** Sum of the deviations of the points from slope `b` through (m, n). */
  function Offset(ts: seq<real>, ys: seq<real>, b: real, m: real, n: real): real
    requires |ts| == |ys|
  {
    if ts == [] then 0.0
    else Offset(ts[..|ts| - 1], ys[..|ys| - 1], b, m, n) + ((ys[|ys| - 1] - n) - Product(b, ts[|ts| - 1] - m))
  }

  lemma {:induction false} SplitResiduals(ts: seq<real>, ys: seq<real>, b: real, a: real, m: real, n: real)
    requires |ts| == |ys|
    ensures Residuals(ts, ys, b, a) ==
            Parabola(b, n - Line(b, a, m), SquaredDeviation(ys, n), CoDeviation(ts, ys, m, n), SquaredDeviation(ts, m),
                     Offset(ts, ys, b, m, n), |ts| as real)
  {
    if ts != [] {
      hide Parabola, Square, Product, Line;
      var t, y, ts', ys' := ts[|ts| - 1], ys[|ys| - 1], ts[..|ts| - 1], ys[..|ys| - 1];
      SplitResiduals(ts', ys', b, a, m, n);
      SplitResidual(t, y, b, a, m, n);
      var dt, dy := t - m, y - n;
      ParabolasAdd(b, n - Line(b, a, m),
                   SquaredDeviation(ys', n), CoDeviation(ts', ys', m, n), SquaredDeviation(ts', m),
                   Offset(ts', ys', b, m, n), |ts'| as real,
                   Square(dy), Product(dt, dy), Square(dt), dy - Product(b, dt), 1.0);
    }
  }

  function Deviation(xs: seq<real>, m: real): real {
    if xs == [] then 0.0 else Deviation(xs[..|xs| - 1], m) + (xs[|xs| - 1] - m)
  }

  lemma {:induction false} OffsetFromDeviations(ts: seq<real>, ys: seq<real>, b: real, m: real, n: real)
    requires |ts| == |ys|
    ensures Offset(ts, ys, b, m, n) == Deviation(ys, n) - Product(b, Deviation(ts, m))
  {
    if ts != [] {
      OffsetFromDeviations(ts[..|ts| - 1], ys[..|ys| - 1], b, m, n);
      Distribute(b, Deviation(ts[..|ts| - 1], m), ts[|ts| - 1] - m);
    }
  }

  lemma Distribute(b: real, x: real, y: real)
    ensures Product(b, x + y) == Product(b, x) + Product(b, y)
  {
  }

  lemma {:induction false} DeviationFromSum(xs: seq<real>, m: real)
    ensures Deviation(xs, m) == Sum(xs) - |xs| as real * m
  {
    if xs != [] {
      DeviationFromSum(xs[..|xs| - 1], m);
      var k := |xs| as real - 1.0;
      assert (k + 1.0) * m == k * m + m;
    }
  }

  lemma MeanTimesCount(xs: seq<real>)
    requires xs != []
    ensures |xs| as real * Mean(xs) == Sum(xs)
  {
  }

  lemma OffsetAtMeans(ts: seq<real>, ys: seq<real>, b: real)
    requires |ts| == |ys| && ts != []
    ensures Offset(ts, ys, b, Mean(ts), Mean(ys)) == 0.0
  {
    hide Mean, Sum, Offset;
    OffsetFromDeviations(ts, ys, b, Mean(ts), Mean(ys));
    DeviationFromSum(ts, Mean(ts));
    DeviationFromSum(ys, Mean(ys));
    MeanTimesCount(ts);
    MeanTimesCount(ys);
  }

  /** Around the means the offsets cancel: what is left depends on the slope and on the distance `c` to the means. */
  lemma ResidualsAroundMeans(ts: seq<real>, ys: seq<real>, b: real, a: real, c: real)
    requires |ts| == |ys| && ts != []
    requires c == Mean(ys) - Line(b, a, Mean(ts))
    ensures var m, n := Mean(ts), Mean(ys);
            Residuals(ts, ys, b, a) ==
            Parabola(b, c, SquaredDeviation(ys, n), CoDeviation(ts, ys, m, n), SquaredDeviation(ts, m), 0.0,
                     |ts| as real)
  {
    hide Residuals, SquaredDeviation, CoDeviation, Parabola, Mean, Line;
    SplitResiduals(ts, ys, b, a, Mean(ts), Mean(ys));
    OffsetAtMeans(ts, ys, b);
  }

  /** The parabola's minimum is at slope `ty / t2` and offset 0; moving away costs two squares. */
  lemma CompleteSquare(b: real, c: real, y2: real, ty: real, t2: real, k: real)
    requires t2 != 0.0
    ensures var s := ty / t2;
            Parabola(b, c, y2, ty, t2, 0.0, k) ==
            Parabola(s, 0.0, y2, ty, t2, 0.0, k) + (t2 * Square(b - s) + k * Square(c))
  {
    var s := ty / t2;
    assert ty == s * t2;
    assert 2.0 * b * ty == 2.0 * (b * s) * t2;
    assert 2.0 * s * ty == 2.0 * (s * s) * t2;
    assert (b - s) * (b - s) == b * b - 2.0 * (b * s) + s * s;
    assert t2 * (b * b - 2.0 * (b * s) + s * s) == t2 * (b * b) - 2.0 * (b * s) * t2 + t2 * (s * s);
    assert k * Square(0.0) == 0.0;
  }

  ghost predicate AllEqual(ts: seq<real>) {
    forall i, j :: 0 <= i < |ts| && 0 <= j < |ts| ==> ts[i] == ts[j]
  }

  lemma {:induction false} SumOfEqual(ts: seq<real>, x: real)
    requires forall i :: 0 <= i < |ts| ==> ts[i] == x
    ensures Sum(ts) == |ts| as real * x
  {
    if ts != [] {
      SumOfEqual(ts[..|ts| - 1], x);
      assert |ts| as real == (|ts| - 1) as real + 1.0;
    }
  }

  /** The spread is zero exactly when all timestamps are equal. */
  lemma SpreadIsZeroIffEqual(ts: seq<real>)
    requires ts != []
    ensures SquaredDeviation(ts, Mean(ts)) == 0.0 <==> AllEqual(ts)
  {
    DeviationIsNonnegative(ts, Mean(ts));
    if AllEqual(ts) {
      SumOfEqual(ts, ts[0]);
      assert Mean(ts) == ts[0];
    }
  }

  /** Too few points, unequal lengths or a single timestamp give slope 0. */
  lemma NoSpreadNoSlope(ts: seq<real>, ys: seq<real>)
    requires |ts| < 2 || |ts| != |ys| || AllEqual(ts)
    ensures Slope(ts, ys) == 0.0
  {
    if ts != [] && AllEqual(ts) {
      SpreadIsZeroIffEqual(ts);
    }
  }

  /**
   Least squares: unless all timestamps are equal, the line with the computed slope through the means
   has the smallest sum of squared residuals of all lines, and no other line reaches it.
   */
  lemma SlopeIsLeastSquares(ts: seq<real>, ys: seq<real>, b: real, a: real)
    requires |ts| == |ys| && !AllEqual(ts)
    ensures Residuals(ts, ys, Slope(ts, ys), Intercept(ts, ys)) <= Residuals(ts, ys, b, a)
    ensures Residuals(ts, ys, Slope(ts, ys), Intercept(ts, ys)) == Residuals(ts, ys, b, a)
            ==> b == Slope(ts, ys) && a == Intercept(ts, ys)
  {
    hide Residuals, SquaredDeviation, CoDeviation, AllEqual, Mean, Parabola, Square, Line, Slope, Intercept;
    DistinctMeansTwo(ts);
    var m, n := Mean(ts), Mean(ys);
    var p, q := CoDeviation(ts, ys, m, n), SquaredDeviation(ts, m);
    var slope, intercept, c := Slope(ts, ys), Intercept(ts, ys), n - Line(b, a, m);
    SlopeIsRatio(ts, ys);
    LineThroughMeans(ts, ys, b, a);
    ResidualsAroundMeans(ts, ys, b, a, c);
    ResidualsAroundMeans(ts, ys, slope, intercept, 0.0);
    CompleteSquare(b, c, SquaredDeviation(ys, n), p, q, |ts| as real);
    Excess(|ts| as real, q, b - slope, c);
  }

  lemma SlopeIsRatio(ts: seq<real>, ys: seq<real>)
    requires |ts| == |ys| && !AllEqual(ts)
    ensures SquaredDeviation(ts, Mean(ts)) > 0.0
    ensures Slope(ts, ys) == CoDeviation(ts, ys, Mean(ts), Mean(ys)) / SquaredDeviation(ts, Mean(ts))
  {
    hide SquaredDeviation, CoDeviation, Mean;
    DistinctMeansTwo(ts);
    SpreadIsZeroIffEqual(ts);
    DeviationIsNonnegative(ts, Mean(ts));
  }

  lemma LineThroughMeans(ts: seq<real>, ys: seq<real>, b: real, a: real)
    requires ts != [] && ys != []
    ensures Mean(ys) - Line(Slope(ts, ys), Intercept(ts, ys), Mean(ts)) == 0.0
    ensures b == Slope(ts, ys) && Mean(ys) - Line(b, a, Mean(ts)) == 0.0 ==> a == Intercept(ts, ys)
  {
    hide Slope, Mean;
  }

  lemma DistinctMeansTwo(ts: seq<real>)
    requires !AllEqual(ts)
    ensures |ts| >= 2
  {
  }

  lemma Excess(k: real, q: real, d: real, c: real)
    requires k > 0.0 && q > 0.0
    ensures q * Square(d) + k * Square(c) >= 0.0
    ensures q * Square(d) + k * Square(c) == 0.0 ==> d == 0.0 && c == 0.0
  {
    SquareSign(d);
    SquareSign(c);
    hide Square;
    if d != 0.0 { ProductIsPositive(q, Square(d), q * Square(d)); }
    if c != 0.0 { ProductIsPositive(k, Square(c), k * Square(c)); }
  }

  lemma {:induction false} ResidualsAreNonnegative(ts: seq<real>, ys: seq<real>, b: real, a: real)
    requires |ts| == |ys|
    ensures Residuals(ts, ys, b, a) >= 0.0
    ensures Residuals(ts, ys, b, a) == 0.0 <==> forall i :: 0 <= i < |ts| ==> ys[i] == Line(b, a, ts[i])
  {
    hide Line;
    if ts != [] {
      var front, rest := ts[..|ts| - 1], ys[..|ys| - 1];
      ResidualsAreNonnegative(front, rest, b, a);
      SquareSign(ys[|ys| - 1] - Line(b, a, ts[|ts| - 1]));
      if forall i :: 0 <= i < |front| ==> rest[i] == Line(b, a, front[i]) {
        assert forall i :: 0 <= i < |front| ==> ys[i] == rest[i] && ts[i] == front[i];
      } else {
        var i :| 0 <= i < |front| && rest[i] != Line(b, a, front[i]);
        assert ys[i] != Line(b, a, ts[i]);
      }
    }
  }

  /** On an extracted series of two points or more: if the points lie on a line, its slope is the one computed. */
  lemma ExactLineIsRecovered(ts: seq<real>, ys: seq<real>, b: real, a: real)
    requires |ts| == |ys| >= 2 && Increasing(ts)
    requires forall i :: 0 <= i < |ts| ==> ys[i] == Line(b, a, ts[i])
    ensures Slope(ts, ys) == b && Intercept(ts, ys) == a
  {
    hide Slope, Intercept, Line;
    assert !AllEqual(ts) by {
      assert ts[0] < ts[1];
    }
    SlopeIsLeastSquares(ts, ys, b, a);
    ResidualsAreNonnegative(ts, ys, b, a);
    ResidualsAreNonnegative(ts, ys, Slope(ts, ys), Intercept(ts, ys));
  }

  // ---------- statistics ----------

  datatype Stats = Stats(min: real, max: real, avg: real, last: real, samples: nat, slope: Option<real>)

  lemma {:induction false} SumIsBounded(xs: seq<real>, low: real, high: real)
    requires forall i :: 0 <= i < |xs| ==> low <= xs[i] <= high
    ensures |xs| as real * low <= Sum(xs) <= |xs| as real * high
  {
    if xs != [] {
      SumIsBounded(xs[..|xs| - 1], low, high);
      assert |xs| as real == (|xs| - 1) as real + 1.0;
    }
  }

  lemma MeanIsBounded(xs: seq<real>, low: real, high: real)
    requires xs != [] && forall i :: 0 <= i < |xs| ==> low <= xs[i] <= high
    ensures low <= Mean(xs) <= high
  {
    SumIsBounded(xs, low, high);
    MeanTimesCount(xs);
    CancelCount(|xs| as real, low, Mean(xs));
    CancelCount(|xs| as real, Mean(xs), high);
  }

  lemma CancelCount(k: real, x: real, y: real)
    requires k > 0.0 && k * x <= k * y
    ensures x <= y
  {
    if x > y {
      ProductIsPositive(k, x - y, k * (x - y));
    }
  }

  method SeriesStats(ts: seq<real>, ys: seq<real>, includeTrend: bool) returns (stats: Option<Stats>)
    ensures stats.None? <==> ts == [] || ys == []
    ensures stats.Some? ==>
      var s := stats.value;
      && s.min in ys && s.max in ys
      && (forall i :: 0 <= i < |ys| ==> s.min <= ys[i] <= s.max)
      && s.avg == Mean(ys) && s.min <= s.avg <= s.max
      && s.last == ys[|ys| - 1] && s.samples == |ys|
      && s.slope == if includeTrend then Some(Slope(ts, ys)) else None
  {
    if ts == [] || ys == [] { return None; }
    var minV, maxV, sum := ys[0], ys[0], 0.0;
    for i := 0 to |ys|
      invariant sum == Sum(ys[..i])
      invariant minV in ys && maxV in ys
      invariant forall k :: 0 <= k < i ==> minV <= ys[k] <= maxV
    {
      assert ys[..i + 1][..i] == ys[..i];
      sum := sum + ys[i];
      if ys[i] < minV { minV := ys[i]; }
      if ys[i] > maxV { maxV := ys[i]; }
    }
    assert ys[..|ys|] == ys;
    MeanIsBounded(ys, minV, maxV);
    var slope := None;
    if includeTrend {
      var b := LinearRegressionSlope(ts, ys);
      slope := Some(b);
    }
    return Some(Stats(minV, maxV, sum / |ys| as real, ys[|ys| - 1], |ys|, slope));
  }
}
