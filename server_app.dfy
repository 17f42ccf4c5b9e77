/** The simulated backend server: the `/serve` endpoint, which records the
    offered load in a bounded history and answers with latency, throughput
    and error figures, and the read-only `/status` endpoint.

    The three random draws of a request (`base` from uniform(0.1, 0.4),
    `r` from uniform(0.5, 1.5), `coin` from random()) are parameters. */
module ServerApp {
  import opened Stats

  datatype Option<T> = None | Some(value: T)

  /** Capacity of the load history. */
  const MaxHistory: nat := 10
  /** Number of history entries reported by `/status`. */
  const StatusWindow: nat := 5
  /** Loads strictly above this may be refused as overloaded. */
  const OverloadThreshold: real := 80.0
  /** Probability of refusing a load above the threshold. */
  const OverloadProbability: real := 0.3
  /** Throughput never drops below this figure. */
  const MinThroughput: real := 0.1
  /** The longest delay `time.sleep` accepts: it counts nanoseconds in a
      signed 64-bit integer, so (2^63 - 1) / 10^9 seconds. */
  const MaxSleepSeconds: real := 9223372036.854775807
  /** A mean load up to which no base draw pushes the latency past `MaxSleepSeconds`. */
  const MaxSafeMeanLoad: real := 2.0e12

  /** The `traffic_load` field of a request body, as `float()` sees it. */
  datatype LoadField =
    | Absent              // key missing: `get` supplies 0
    | Numeric(value: real) // anything `float()` accepts
    | NotNumeric          // `float()` raises ValueError or TypeError

  /** What `/serve` answers. */
  datatype Response =
    | Ok(latencyMs: real, throughputMbps: real, errorRate: real, handledTraffic: real, avgLoad: real)
    | Overloaded(errorRate: real) // status 500, {"error": "Overloaded", ...}
    | Invalid                     // status 400, {"error": "Invalid input"}
    | SleepFailed                 // `time.sleep` of a negative or too long latency raises; the framework answers 500

  /** What `/status` answers. */
  datatype StatusReport = StatusReport(avgLoad: real, latencyEstimateMs: real, recent: seq<real>)

  /** Coercion of the request field to a load; failure means a 400 answer. */
  function ParseTraffic(field: LoadField): (t: Option<real>)
    ensures t.None? <==> field.NotNumeric?
    ensures field.Absent? ==> t == Some(0.0)
    ensures field.Numeric? ==> t == Some(field.value)
  {
    match field
    case Absent => Some(0.0)
    case Numeric(v) => Some(v)
    case NotNumeric => None
  }

  /** The last `k` elements of `s` (all of them when there are fewer). */
  function Last<T>(s: seq<T>, k: nat): (r: seq<T>)
    ensures |r| == if |s| <= k then |s| else k
    ensures r == s[|s| - |r|..]
  {
    if |s| <= k then s else s[|s| - k..]
  }

  /** Append `x`, then drop the oldest entry if the capacity is exceeded. */
  function Push<T>(h: seq<T>, x: T, cap: nat): (r: seq<T>)
    requires cap > 0
    ensures |h| < cap ==> r == h + [x]
    ensures |h| >= cap ==> r == h[1..] + [x]
    ensures |r| > 0 && r[|r| - 1] == x
  {
    var h' := h + [x];
    if |h'| > cap then
      assert h'[1..] == h[1..] + [x];
      h'[1..]
    else h'
  }

  /** Push on the window of the last `cap` loads gives the window of the
      last `cap` loads once `x` is added. */
  lemma PushKeepsLastWindow<T>(s: seq<T>, x: T, cap: nat)
    requires cap > 0
    ensures Push(Last(s, cap), x, cap) == Last(s + [x], cap)
  {
  }

  /** Taking the last `j` of the last `k` is taking the last `j`. */
  lemma LastOfLast<T>(s: seq<T>, j: nat, k: nat)
    requires j <= k
    ensures Last(Last(s, k), j) == Last(s, j)
  {
    if |s| > k {
      assert s[|s| - k..][k - j..] == s[|s| - j..];
    }
  }

  /** Simulated latency in seconds: the base draw scaled by the mean load.
      A non-negative mean load never makes it smaller than the base draw,
      and for a positive base draw it is negative exactly when the mean
      load is below -100. */
  function Latency(base: real, avgLoad: real): (l: real)
    ensures base >= 0.0 && avgLoad >= 0.0 ==> l >= base
    ensures base > 0.0 ==> (l < 0.0 <==> avgLoad < -100.0)
  {
    var f := 1.0 + avgLoad / 100.0;
    base * f
  }

  /** Throughput falls with the request's own load, floored at `MinThroughput`. */
  function Throughput(traffic: real, r: real): (t: real)
    ensures t >= MinThroughput && t >= 100.0 - traffic * r
    ensures t == MinThroughput || t == 100.0 - traffic * r
  {
    var raw := 100.0 - traffic * r;
    if raw > MinThroughput then raw else MinThroughput
  }

  /** `time.sleep` raises on a negative delay (ValueError) and on one too
      long for its nanosecond counter (OverflowError). */
  predicate SleepFails(seconds: real)
  {
    seconds < 0.0 || seconds > MaxSleepSeconds
  }

  /** A base draw of at most 0.4 and a mean load in [-100, 2e12] keep the
      latency within what the sleep accepts; a base draw of at least 0.1 and
      a mean load above 1e13 push it past the limit. */
  lemma LatencyBounds(base: real, avgLoad: real)
    requires 0.1 <= base <= 0.4
    ensures -100.0 <= avgLoad <= MaxSafeMeanLoad ==> 0.0 <= Latency(base, avgLoad) <= MaxSleepSeconds
    ensures avgLoad > 1.0e13 ==> Latency(base, avgLoad) > MaxSleepSeconds
  {
    var f := 1.0 + avgLoad / 100.0;
    if -100.0 <= avgLoad <= MaxSafeMeanLoad {
      assert 0.0 <= f <= 2.0e10 + 1.0;
      assert base * f <= 0.4 * f;
    }
    if avgLoad > 1.0e13 {
      assert f > 1.0e11;
      assert base * f >= 0.1 * f;
    }
  }

  /** The answer to an accepted request, from its load, the mean of the
      history after recording it, and the three draws. */
  function Respond(traffic: real, avgLoad: real, base: real, r: real, coin: real): (resp: Response)
    ensures !resp.Invalid?
    ensures resp.SleepFailed? <==> SleepFails(Latency(base, avgLoad))
    ensures resp.Overloaded? <==>
      !SleepFails(Latency(base, avgLoad)) && traffic > OverloadThreshold && coin < OverloadProbability
    ensures resp.Overloaded? ==> resp.errorRate == 1.0
    ensures resp.Ok? ==>
      && resp.latencyMs == Latency(base, avgLoad) * 1000.0
      && resp.throughputMbps == Throughput(traffic, r)
      && resp.errorRate == 0.0
      && resp.handledTraffic == traffic
      && resp.avgLoad == avgLoad
  {
    var latency := Latency(base, avgLoad);
    if SleepFails(latency) then SleepFailed
    else if traffic > OverloadThreshold && coin < OverloadProbability then Overloaded(1.0)
    else Ok(latency * 1000.0, Throughput(traffic, r), 0.0, traffic, avgLoad)
  }

  /** With a base draw in [0.1, 0.4], the sleep fails in two ways: a negative
      latency, which happens exactly when the mean load is below -100, and a
      latency too long for the sleep, which cannot happen for a mean load up
      to 2e12 and always happens above 1e13. */
  lemma SleepFailureRule(traffic: real, avgLoad: real, base: real, r: real, coin: real)
    requires 0.1 <= base <= 0.4
    ensures Respond(traffic, avgLoad, base, r, coin).SleepFailed? <==>
      avgLoad < -100.0 || Latency(base, avgLoad) > MaxSleepSeconds
    ensures avgLoad <= MaxSafeMeanLoad ==>
      (Respond(traffic, avgLoad, base, r, coin).SleepFailed? <==> avgLoad < -100.0)
    ensures avgLoad > 1.0e13 ==> Respond(traffic, avgLoad, base, r, coin).SleepFailed?
  {
    LatencyBounds(base, avgLoad);
  }

  /** The error rule, for a mean load in [-100, 2e12] where the sleep
      succeeds: a load of at most 80 always succeeds with error rate 0; a 500
      with error rate 1.0 happens exactly when the load exceeds 80 and the
      coin falls below 0.3. */
  lemma ErrorRule(traffic: real, avgLoad: real, base: real, r: real, coin: real)
    requires 0.1 <= base <= 0.4 && 0.0 <= coin < 1.0
    requires -100.0 <= avgLoad <= MaxSafeMeanLoad
    ensures var resp := Respond(traffic, avgLoad, base, r, coin);
      && (resp.Ok? || resp.Overloaded?)
      && (traffic <= OverloadThreshold ==> resp.Ok? && resp.errorRate == 0.0)
      && (resp.Overloaded? <==> traffic > OverloadThreshold && coin < OverloadProbability)
      && (resp.Overloaded? ==> resp.errorRate == 1.0)
      && (resp.Ok? ==> resp.errorRate == 0.0)
  {
    SleepFailureRule(traffic, avgLoad, base, r, coin);
  }

  /** Over a non-negative history whose mean is at most 2e12 the sleep never
      fails, and every successful answer reports a latency of at least the
      base draw (in milliseconds), a throughput of at least 0.1 and an error
      rate in [0, 1]. */
  lemma OutputFloors(h: seq<real>, traffic: real, base: real, r: real, coin: real)
    requires |h| > 0 && forall i :: 0 <= i < |h| ==> h[i] >= 0.0
    requires Mean(h) <= MaxSafeMeanLoad
    requires 0.1 <= base <= 0.4
    ensures var resp := Respond(traffic, Mean(h), base, r, coin);
      && !resp.SleepFailed?
      && (resp.Ok? ==> resp.latencyMs >= base * 1000.0 && resp.throughputMbps >= MinThroughput)
      && (resp.Ok? || resp.Overloaded? ==> 0.0 <= resp.errorRate <= 1.0)
  {
    MeanNonNegative(h);
    LatencyBounds(base, Mean(h));
  }

  /** The process-wide state of the server: the bounded load history. The
      ghost field `accepted` is every load recorded so far, in call order. */
  class Server {
    var loadHistory: seq<real>
    ghost var accepted: seq<real>

    /** The history is the last `MaxHistory` accepted loads, in call order. */
    ghost predicate Valid()
      reads this
    {
      loadHistory == Last(accepted, MaxHistory)
    }

    constructor ()
      ensures Valid() && loadHistory == [] && accepted == []
    {
      loadHistory := [];
      accepted := [];
    }

    /** `/serve`: parse, record, then answer. A request whose load cannot be
        parsed is answered 400 before anything is recorded; every other
        request, the overloaded ones included, is recorded first. */
    method Serve(field: LoadField, base: real, r: real, coin: real) returns (resp: Response)
      requires Valid()
      requires 0.1 <= base <= 0.4 && 0.5 <= r <= 1.5 && 0.0 <= coin < 1.0
      modifies this
      ensures Valid() && |loadHistory| <= MaxHistory
      ensures field.NotNumeric? ==>
        resp == Invalid && loadHistory == old(loadHistory) && accepted == old(accepted)
      ensures !field.NotNumeric? ==>
        var t := ParseTraffic(field).value;
        && accepted == old(accepted) + [t]
        && loadHistory == Push(old(loadHistory), t, MaxHistory)
        && resp == Respond(t, Mean(loadHistory), base, r, coin)
    {
      var parsed := ParseTraffic(field);
      if parsed.None? {
        return Invalid;
      }
      var traffic := parsed.value;
      loadHistory := loadHistory + [traffic];
      if |loadHistory| > MaxHistory {
        loadHistory := loadHistory[1..];
      }
      PushKeepsLastWindow(accepted, traffic, MaxHistory);
      accepted := accepted + [traffic];
      var avgLoad := Mean(loadHistory);
      resp := Respond(traffic, avgLoad, base, r, coin);
    }

    /** `/status`: the mean of the history (0 when empty), the estimate drawn
        from uniform(100, 400), and the last `StatusWindow` entries. */
    function Status(estimateMs: real): (s: StatusReport)
      reads this
      ensures s.recent == Last(loadHistory, StatusWindow)
      ensures |s.recent| <= StatusWindow
      ensures loadHistory == [] ==> s.avgLoad == 0.0
      ensures loadHistory != [] ==> s.avgLoad == Mean(loadHistory)
      ensures s.latencyEstimateMs == estimateMs
    {
      StatusReport(
        if loadHistory == [] then 0.0 else Mean(loadHistory),
        estimateMs,
        Last(loadHistory, StatusWindow))
    }
  }

  /** The recorded history holds the last ten loads in call order, and
      exactly ten once ten or more have been recorded. */
  lemma HistoryIsLastTen(srv: Server)
    requires srv.Valid()
    ensures |srv.loadHistory| == if |srv.accepted| <= MaxHistory then |srv.accepted| else MaxHistory
    ensures srv.loadHistory == srv.accepted[|srv.accepted| - |srv.loadHistory|..]
  {
  }

  /** `/status` reports the last five accepted loads in call order. */
  lemma StatusShowsLastFive(srv: Server, estimateMs: real)
    requires srv.Valid()
    ensures srv.Status(estimateMs).recent == Last(srv.accepted, StatusWindow)
  {
    LastOfLast(srv.accepted, StatusWindow, MaxHistory);
  }

  /** A server that has only ever been offered non-negative loads reports a
      non-negative mean load on `/status`. */
  lemma StatusMeanNonNegative(srv: Server, estimateMs: real)
    requires srv.Valid()
    requires forall i :: 0 <= i < |srv.accepted| ==> srv.accepted[i] >= 0.0
    ensures srv.Status(estimateMs).avgLoad >= 0.0
  {
    var h := srv.loadHistory;
    assert forall i :: 0 <= i < |h| ==> h[i] == srv.accepted[|srv.accepted| - |h| + i];
    if h != [] {
      MeanNonNegative(h);
    }
  }
}
