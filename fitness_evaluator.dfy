/** The genetic search's objective: normalise a candidate gene vector into
    traffic shares, offer each server its share of 100 units through the
    injection channel, and combine the averaged replies into one score.

    The channel (`send_traffic`) is a parameter `send` from the position of
    a query in the evaluation, the server name and the load to the reply's
    metrics, so that a server listed twice may answer its two queries
    differently; the square root inside `statistics.stdev`
    is a parameter `sqrt`. The server list and the four weights come from the
    configuration and are parameters too. */
module FitnessEvaluator {
  import opened Stats

  /** Total traffic budget split across the servers. */
  const TotalTraffic: real := 100.0
  /** Substitutes for metrics missing from a reply. */
  const DefaultLatencyMs: real := 1000.0
  const DefaultThroughputMbps: real := 0.0
  const DefaultErrorRate: real := 1.0
  /** Fixed scaling of the error and imbalance penalties. */
  const ErrorScale: real := 20.0
  const ImbalanceScale: real := 10.0

  const LatencyKey: string := "latency_ms"
  const ThroughputKey: string := "throughput_mbps"
  const ErrorKey: string := "error_rate"

  /** The `weights` section of the configuration. */
  datatype Weights = Weights(throughput: real, latency: real, errorRate: real, loadVariance: real)

  /** A reply's numeric fields, by JSON key. */
  type Metrics = map<string, real>

  /** One injection: the server addressed and the load sent to it. */
  datatype Query = Query(server: string, traffic: real)

  /** `dict.get(key, default)`. */
  function Get(m: Metrics, key: string, default: real): (v: real)
    ensures key in m ==> v == m[key]
    ensures key !in m ==> v == default
  {
    if key in m then m[key] else default
  }

  /** Gene vector to traffic shares: each gene over the total when the total
      is positive, otherwise equal shares. An empty vector divides by zero in
      the source, so it is excluded. */
  function Normalize(xs: seq<real>): (r: seq<real>)
    requires |xs| > 0
    ensures |r| == |xs|
  {
    var total := Sum(xs);
    if total > 0.0 then seq(|xs|, i requires 0 <= i < |xs| => xs[i] / total)
    else seq(|xs|, _ => 1.0 / |xs| as real)
  }

  /** Entry i is gene i over the total when the total is positive, and 1/n
      when it is not (all zeros, or a negative total). */
  lemma NormalizeEntries(xs: seq<real>)
    requires |xs| > 0
    ensures Sum(xs) > 0.0 ==> forall i :: 0 <= i < |xs| ==> Normalize(xs)[i] == xs[i] / Sum(xs)
    ensures Sum(xs) <= 0.0 ==> forall i :: 0 <= i < |xs| ==> Normalize(xs)[i] == 1.0 / |xs| as real
  {
  }

  /** The shares always sum to 1, on the fallback path too. */
  lemma NormalizeSumsToOne(xs: seq<real>)
    requires |xs| > 0
    ensures Sum(Normalize(xs)) == 1.0
  {
    var r := Normalize(xs);
    var total := Sum(xs);
    if total > 0.0 {
      forall i | 0 <= i < |xs| ensures r[i] == Scaled(xs, 1.0 / total)[i] {
        assert xs[i] / total == (1.0 / total) * xs[i];
      }
      assert r == Scaled(xs, 1.0 / total);
      SumScaled(xs, 1.0 / total);
    } else {
      SumConstant(r, 1.0 / |xs| as real);
    }
  }

  /** With a positive total, shares keep the ratios between genes. */
  lemma NormalizePreservesRatios(xs: seq<real>, i: nat, j: nat)
    requires i < |xs| && j < |xs|
    requires Sum(xs) > 0.0
    ensures Normalize(xs)[i] * xs[j] == Normalize(xs)[j] * xs[i]
  {
    NormalizeEntries(xs);
    QuotientsCross(xs, Normalize(xs), Sum(xs), i, j);
  }

  /** Two entries of a sequence divided through by one total keep their ratio. */
  lemma QuotientsCross(xs: seq<real>, ys: seq<real>, t: real, i: nat, j: nat)
    requires i < |xs| && j < |xs| && |ys| == |xs| && t != 0.0
    requires forall k :: 0 <= k < |xs| ==> ys[k] == xs[k] / t
    ensures ys[i] * xs[j] == ys[j] * xs[i]
  {
    CrossRatio(xs[i], xs[j], t, ys[i], ys[j]);
  }

  /** Non-negative genes with a positive total give shares in [0, 1]. */
  lemma NormalizeShareBounds(xs: seq<real>)
    requires |xs| > 0
    requires forall i :: 0 <= i < |xs| ==> xs[i] >= 0.0
    ensures forall i :: 0 <= i < |xs| ==> 0.0 <= Normalize(xs)[i] <= 1.0
  {
    var t := Sum(xs);
    if t > 0.0 {
      forall i | 0 <= i < |xs| ensures 0.0 <= Normalize(xs)[i] <= 1.0 {
        TermAtMostSum(xs, i);
        RatioInUnitInterval(xs[i], t);
      }
    }
  }

  /** Scaling every gene by the same positive factor changes no share. */
  lemma NormalizeScaleInvariant(xs: seq<real>, c: real)
    requires |xs| > 0 && c > 0.0
    ensures Normalize(Scaled(xs, c)) == Normalize(xs)
  {
    SumScaled(xs, c);
    var ys := Scaled(xs, c);
    if Sum(xs) > 0.0 {
      forall i | 0 <= i < |xs| ensures Normalize(ys)[i] == Normalize(xs)[i] {
        CancelFactor(c, xs[i], Sum(xs));
      }
    } else {
      assert c * Sum(xs) <= 0.0;
    }
  }

  /** Shares are already normalised. */
  lemma NormalizeIdempotent(xs: seq<real>)
    requires |xs| > 0
    ensures Normalize(Normalize(xs)) == Normalize(xs)
  {
    NormalizeSumsToOne(xs);
  }

  /** The load offered to each server: its share of the budget. */
  function Injected(dist: seq<real>): (loads: seq<real>)
    ensures |loads| == |dist|
    ensures forall i :: 0 <= i < |dist| ==> loads[i] == dist[i] * TotalTraffic
  {
    seq(|dist|, i requires 0 <= i < |dist| => dist[i] * TotalTraffic)
  }

  /** The injected loads of any candidate add up to the budget. */
  lemma InjectedSumsToBudget(xs: seq<real>)
    requires |xs| > 0
    ensures Sum(Injected(Normalize(xs))) == TotalTraffic
  {
    var dist := Normalize(xs);
    NormalizeSumsToOne(xs);
    assert Injected(dist) == Scaled(dist, TotalTraffic);
    SumScaled(dist, TotalTraffic);
  }

  /** The loads carried by a sequence of queries. */
  function Loads(qs: seq<Query>): (loads: seq<real>)
    ensures |loads| == |qs|
    ensures forall i :: 0 <= i < |qs| ==> loads[i] == qs[i].traffic
  {
    seq(|qs|, i requires 0 <= i < |qs| => qs[i].traffic)
  }

  /** The reply of each server to its share, in server order. */
  function Replies(dist: seq<real>, servers: seq<string>, send: (nat, string, real) -> Metrics): (rs: seq<Metrics>)
    requires |dist| <= |servers|
    ensures |rs| == |dist|
    ensures forall i :: 0 <= i < |dist| ==> rs[i] == send(i, servers[i], dist[i] * TotalTraffic)
  {
    seq(|dist|, i requires 0 <= i < |dist| => send(i, servers[i], dist[i] * TotalTraffic))
  }

  /** One metric of every reply, with the default where it is missing. */
  function Column(replies: seq<Metrics>, key: string, default: real): (c: seq<real>)
    ensures |c| == |replies|
    ensures forall i :: 0 <= i < |replies| ==> c[i] == Get(replies[i], key, default)
  {
    seq(|replies|, i requires 0 <= i < |replies| => Get(replies[i], key, default))
  }

  /** The imbalance term: the sample standard deviation of the shares, that
      is, the square root of a non-negative variance, and 0 for a single
      server. */
  function Imbalance(dist: seq<real>, sqrt: real -> real): (sd: real)
    ensures |dist| <= 1 ==> sd == 0.0
    ensures |dist| > 1 ==> exists v :: v >= 0.0 && sd == sqrt(v)
  {
    if |dist| > 1 then sqrt(SampleVariance(dist)) else 0.0
  }

  /** The weighted score: throughput rewarded, latency, errors and imbalance
      penalised. With non-negative figures and penalty weights, the score is
      at most the throughput reward, and equals it when there is nothing to
      penalise. */
  function Fitness(avgThroughput: real, avgLatency: real, avgError: real, imbalance: real, w: Weights): (f: real)
    ensures w.latency >= 0.0 && w.errorRate >= 0.0 && w.loadVariance >= 0.0
         && avgLatency >= 0.0 && avgError >= 0.0 && imbalance >= 0.0
         ==> f <= avgThroughput * w.throughput
    ensures avgLatency == 0.0 && avgError == 0.0 && imbalance == 0.0 ==> f == avgThroughput * w.throughput
  {
    avgThroughput * w.throughput
    - avgLatency * w.latency
    - avgError * ErrorScale * w.errorRate
    - imbalance * ImbalanceScale * w.loadVariance
  }

  /** The score of a share vector given the servers' replies: the weighted
      formula over the three metric means and the imbalance term. */
  function ScoreOf(dist: seq<real>, replies: seq<Metrics>, w: Weights, sqrt: real -> real): (score: real)
    requires 0 < |dist| == |replies|
    ensures |dist| == 1 ==> score == Fitness(
      Get(replies[0], ThroughputKey, DefaultThroughputMbps),
      Get(replies[0], LatencyKey, DefaultLatencyMs),
      Get(replies[0], ErrorKey, DefaultErrorRate),
      0.0, w)
  {
    var throughputs := Column(replies, ThroughputKey, DefaultThroughputMbps);
    var latencies := Column(replies, LatencyKey, DefaultLatencyMs);
    var errorRates := Column(replies, ErrorKey, DefaultErrorRate);
    MeanOfOne(throughputs);
    MeanOfOne(latencies);
    MeanOfOne(errorRates);
    Fitness(Mean(throughputs), Mean(latencies), Mean(errorRates), Imbalance(dist, sqrt), w)
  }

  /** The loop of `evaluate_solution`: server i, in index order, is sent
      its share of the budget, and the three metrics of its reply are
      collected, with the defaults where they are missing. */
  method QueryServers(dist: seq<real>, servers: seq<string>, send: (nat, string, real) -> Metrics)
    returns (queries: seq<Query>, latencies: seq<real>, throughputs: seq<real>, errorRates: seq<real>)
    requires |dist| <= |servers|
    ensures |queries| == |dist|
    ensures forall i :: 0 <= i < |dist| ==> queries[i] == Query(servers[i], dist[i] * TotalTraffic)
    ensures latencies == Column(Replies(dist, servers, send), LatencyKey, DefaultLatencyMs)
    ensures throughputs == Column(Replies(dist, servers, send), ThroughputKey, DefaultThroughputMbps)
    ensures errorRates == Column(Replies(dist, servers, send), ErrorKey, DefaultErrorRate)
  {
    ghost var replies := Replies(dist, servers, send);
    latencies, throughputs, errorRates := [], [], [];
    queries := [];
    for i := 0 to |dist|
      invariant |queries| == |latencies| == |throughputs| == |errorRates| == i
      invariant forall k :: 0 <= k < i ==> queries[k] == Query(servers[k], dist[k] * TotalTraffic)
      invariant forall k :: 0 <= k < i ==> latencies[k] == Get(replies[k], LatencyKey, DefaultLatencyMs)
      invariant forall k :: 0 <= k < i ==> throughputs[k] == Get(replies[k], ThroughputKey, DefaultThroughputMbps)
      invariant forall k :: 0 <= k < i ==> errorRates[k] == Get(replies[k], ErrorKey, DefaultErrorRate)
    {
      var traffic := dist[i] * TotalTraffic;
      var metrics := send(i, servers[i], traffic);
      assert metrics == replies[i];
      queries := queries + [Query(servers[i], traffic)];
      latencies := latencies + [Get(metrics, LatencyKey, DefaultLatencyMs)];
      throughputs := throughputs + [Get(metrics, ThroughputKey, DefaultThroughputMbps)];
      errorRates := errorRates + [Get(metrics, ErrorKey, DefaultErrorRate)];
    }
  }

  /** `evaluate_solution`: normalise, query every server once in index order
      with its share of the budget, then score the averaged replies. */
  method EvaluateSolution(solution: seq<real>, servers: seq<string>, w: Weights,
                          send: (nat, string, real) -> Metrics, sqrt: real -> real)
    returns (score: real, queries: seq<Query>)
    requires 0 < |solution| <= |servers|
    ensures |queries| == |solution|
    ensures forall i :: 0 <= i < |queries| ==>
      queries[i] == Query(servers[i], Normalize(solution)[i] * TotalTraffic)
    ensures Sum(Loads(queries)) == TotalTraffic
    ensures score == ScoreOf(Normalize(solution), Replies(Normalize(solution), servers, send), w, sqrt)
  {
    var dist := Normalize(solution);
    var latencies, throughputs, errorRates;
    queries, latencies, throughputs, errorRates := QueryServers(dist, servers, send);
    var avgLatency := Mean(latencies);
    var avgThroughput := Mean(throughputs);
    var avgError := Mean(errorRates);
    var loadVariance := Imbalance(dist, sqrt);
    score := Fitness(avgThroughput, avgLatency, avgError, loadVariance, w);
    QueriedLoadsSumToBudget(solution, queries);
  }

  /** Queries that carry the shares of a candidate carry 100 units in all. */
  lemma QueriedLoadsSumToBudget(solution: seq<real>, queries: seq<Query>)
    requires 0 < |solution| == |queries|
    requires forall i :: 0 <= i < |queries| ==> queries[i].traffic == Normalize(solution)[i] * TotalTraffic
    ensures Sum(Loads(queries)) == TotalTraffic
  {
    assert Loads(queries) == Injected(Normalize(solution));
    InjectedSumsToBudget(solution);
  }

  /** The reply a failed or refused query produces. */
  const FailureReply: Metrics := map[ErrorKey := 1.0]

  /** A failure reply counts as latency 1000, throughput 0 and error 1. */
  lemma FailureIsWorstCase(replies: seq<Metrics>, k: nat)
    requires k < |replies| && replies[k] == FailureReply
    ensures Column(replies, LatencyKey, DefaultLatencyMs)[k] == 1000.0
    ensures Column(replies, ThroughputKey, DefaultThroughputMbps)[k] == 0.0
    ensures Column(replies, ErrorKey, DefaultErrorRate)[k] == 1.0
  {
  }

  /** The score falls strictly with the mean error and mean latency, and with
      the imbalance, and rises strictly with the mean throughput, whenever the
      corresponding weight is positive. */
  lemma FitnessStrictlyMonotone(tp: real, lat: real, err: real, sd: real, w: Weights, d: real)
    requires d > 0.0
    ensures w.throughput > 0.0 ==> Fitness(tp + d, lat, err, sd, w) > Fitness(tp, lat, err, sd, w)
    ensures w.latency > 0.0 ==> Fitness(tp, lat + d, err, sd, w) < Fitness(tp, lat, err, sd, w)
    ensures w.errorRate > 0.0 ==> Fitness(tp, lat, err + d, sd, w) < Fitness(tp, lat, err, sd, w)
    ensures w.loadVariance > 0.0 ==> Fitness(tp, lat, err, sd + d, w) < Fitness(tp, lat, err, sd, w)
  {
  }

  /** Changing one reply's error rate leaves every other metric column as it was. */
  lemma OtherColumnsUnchanged(replies: seq<Metrics>, k: nat, e: real, key: string, default: real)
    requires k < |replies| && key != ErrorKey
    ensures Column(replies[k := replies[k][ErrorKey := e]], key, default) == Column(replies, key, default)
  {
    var replies' := replies[k := replies[k][ErrorKey := e]];
    forall i | 0 <= i < |replies|
      ensures Get(replies'[i], key, default) == Get(replies[i], key, default)
    {
      if i == k {
        assert key in replies'[i] <==> key in replies[i];
      }
    }
  }

  /** Raising one server's reported error rate, all else fixed, strictly
      lowers the score when the error weight is positive. */
  lemma ServerErrorLowersScore(dist: seq<real>, replies: seq<Metrics>, k: nat, e: real,
                               w: Weights, sqrt: real -> real)
    requires 0 < |dist| == |replies| && k < |replies|
    requires e > Get(replies[k], ErrorKey, DefaultErrorRate)
    requires w.errorRate > 0.0
    ensures ScoreOf(dist, replies[k := replies[k][ErrorKey := e]], w, sqrt) < ScoreOf(dist, replies, w, sqrt)
  {
    var replies' := replies[k := replies[k][ErrorKey := e]];
    assert LatencyKey[0] != ErrorKey[0];
    assert ThroughputKey[0] != ErrorKey[0];
    OtherColumnsUnchanged(replies, k, e, LatencyKey, DefaultLatencyMs);
    OtherColumnsUnchanged(replies, k, e, ThroughputKey, DefaultThroughputMbps);
    var before := Column(replies, ErrorKey, DefaultErrorRate);
    var after := Column(replies', ErrorKey, DefaultErrorRate);
    assert forall i :: 0 <= i < |before| && i != k ==> before[i] == after[i];
    assert before[k] < after[k];
    SumMonotone(before, after);
    MeanStrictlyIncreases(before, after);
    FitnessStrictlyMonotone(
      Mean(Column(replies, ThroughputKey, DefaultThroughputMbps)),
      Mean(Column(replies, LatencyKey, DefaultLatencyMs)),
      Mean(before), Imbalance(dist, sqrt), w, Mean(after) - Mean(before));
  }

  /** The imbalance term is never negative when the square root is not. */
  lemma ImbalanceNonNegative(dist: seq<real>, sqrt: real -> real)
    requires forall v :: v >= 0.0 ==> sqrt(v) >= 0.0
    ensures Imbalance(dist, sqrt) >= 0.0
  {
  }

  /** A candidate whose genes do not sum to a positive total gets equal
      shares, and so no imbalance penalty. */
  lemma FallbackHasNoImbalance(xs: seq<real>, sqrt: real -> real)
    requires |xs| > 0 && Sum(xs) <= 0.0
    requires sqrt(0.0) == 0.0
    ensures Imbalance(Normalize(xs), sqrt) == 0.0
  {
    var dist := Normalize(xs);
    if |dist| > 1 {
      SampleVarianceOfConstant(dist, 1.0 / |xs| as real);
    }
  }
}
