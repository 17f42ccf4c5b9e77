/** The injection channel between the evaluator and one server: what the
    HTTP client hands back to the evaluator for each way a request can end. */
module ServerClient {
  import ServerApp
  import Stats
  import opened FitnessEvaluator

  /** How one POST ends: the server answered, or the transport failed
      (connection refused, timeout). */
  datatype Delivery = Answered(resp: ServerApp.Response) | Unreachable

  /** How a POST ends given the server's answer, the seconds the server
      slept before sending it and the client's `timeout`: an answer that
      takes longer than the timeout is lost to a read timeout, which the
      client sees as a transport failure. */
  function Deliver(resp: ServerApp.Response, sleptSeconds: real, timeout: real): (d: Delivery)
    ensures d.Unreachable? <==> sleptSeconds > timeout
    ensures d.Answered? ==> d.resp == resp
  {
    if sleptSeconds > timeout then Unreachable else Answered(resp)
  }

  /** What a call of the client produces: a metrics dictionary, or an
      exception that escapes to the caller. */
  datatype SendResult = Returned(metrics: Metrics) | RaisedNameError

  /** The JSON body of an answer with status 200, and `{"error_rate": 1.0}`
      for any other status (400, 500). */
  function ReplyMetrics(resp: ServerApp.Response): (m: Metrics)
    ensures resp.Ok? ==>
      && LatencyKey in m && m[LatencyKey] == resp.latencyMs
      && ThroughputKey in m && m[ThroughputKey] == resp.throughputMbps
      && ErrorKey in m && m[ErrorKey] == resp.errorRate
    ensures !resp.Ok? ==> m == FailureReply
  {
    match resp
    case Ok(latencyMs, throughputMbps, errorRate, handledTraffic, avgLoad) =>
      map[LatencyKey := latencyMs, ThroughputKey := throughputMbps, ErrorKey := errorRate,
          "handled_traffic" := handledTraffic, "avg_load" := avgLoad]
    case _ => FailureReply
  }

  /** The client as written: the handler of a transport failure formats an
      undefined name, so that path raises instead of returning. */
  function SendTrafficAsWritten(d: Delivery): (r: SendResult)
    ensures r.RaisedNameError? <==> d.Unreachable?
    ensures d.Answered? ==> r == Returned(ReplyMetrics(d.resp))
  {
    match d
    case Answered(resp) => Returned(ReplyMetrics(resp))
    case Unreachable => RaisedNameError
  }

  /** The client as intended: a transport failure yields the failure reply. */
  function SendTraffic(d: Delivery): (m: Metrics)
    ensures d.Answered? ==> m == ReplyMetrics(d.resp)
    ensures !(d.Answered? && d.resp.Ok?) ==> m == FailureReply
  {
    match d
    case Answered(resp) => ReplyMetrics(resp)
    case Unreachable => FailureReply
  }

  /** As written, an unreachable server makes the client raise, while every
      answered request returns what the intended client returns. */
  lemma UnreachableServerRaisesAsWritten(d: Delivery)
    ensures SendTrafficAsWritten(d).RaisedNameError? <==> d.Unreachable?
    ensures SendTrafficAsWritten(Unreachable) != Returned(SendTraffic(Unreachable))
    ensures d.Answered? ==> SendTrafficAsWritten(d) == Returned(SendTraffic(d))
  {
  }

  /** Any request that does not end in a 200 answer, the unreachable server
      included, reaches the evaluator as latency 1000, throughput 0, error 1. */
  lemma FailedDeliveryIsWorstCase(d: Delivery)
    requires !(d.Answered? && d.resp.Ok?)
    ensures Get(SendTraffic(d), LatencyKey, DefaultLatencyMs) == 1000.0
    ensures Get(SendTraffic(d), ThroughputKey, DefaultThroughputMbps) == 0.0
    ensures Get(SendTraffic(d), ErrorKey, DefaultErrorRate) == 1.0
  {
    FailureIsWorstCase([SendTraffic(d)], 0);
  }

  /** A 200 answer reaches the evaluator with its own three figures. */
  lemma AnsweredMetricsPassThrough(resp: ServerApp.Response)
    requires resp.Ok?
    ensures Get(SendTraffic(Answered(resp)), LatencyKey, DefaultLatencyMs) == resp.latencyMs
    ensures Get(SendTraffic(Answered(resp)), ThroughputKey, DefaultThroughputMbps) == resp.throughputMbps
    ensures Get(SendTraffic(Answered(resp)), ErrorKey, DefaultErrorRate) == resp.errorRate
  {
  }

  /** An answer slower than the timeout reaches the evaluator as the failure
      reply from the intended client, and makes the client as written raise. */
  lemma SlowAnswerIsWorstCase(resp: ServerApp.Response, sleptSeconds: real, timeout: real)
    requires sleptSeconds > timeout
    ensures SendTraffic(Deliver(resp, sleptSeconds, timeout)) == FailureReply
    ensures SendTrafficAsWritten(Deliver(resp, sleptSeconds, timeout)).RaisedNameError?
  {
  }

  /** A share of at most 80 units, sent to a server that has only seen
      non-negative loads with a mean of at most 2e12, and answered within the
      client's timeout, comes back with error rate 0 and a throughput of at
      least 0.1. */
  lemma LightShareSeesNoError(h: seq<real>, traffic: real, base: real, r: real, coin: real, timeout: real)
    requires |h| > 0 && forall i :: 0 <= i < |h| ==> h[i] >= 0.0
    requires Stats.Mean(h) <= ServerApp.MaxSafeMeanLoad
    requires 0.1 <= base <= 0.4 && 0.0 <= coin < 1.0
    requires traffic <= ServerApp.OverloadThreshold
    requires ServerApp.Latency(base, Stats.Mean(h)) <= timeout
    ensures var resp := ServerApp.Respond(traffic, Stats.Mean(h), base, r, coin);
      var m := SendTraffic(Deliver(resp, ServerApp.Latency(base, Stats.Mean(h)), timeout));
      Get(m, ErrorKey, DefaultErrorRate) == 0.0 && Get(m, ThroughputKey, DefaultThroughputMbps) >= 0.1
  {
    var avg := Stats.Mean(h);
    ServerApp.OutputFloors(h, traffic, base, r, coin);
    ServerApp.ErrorRule(traffic, avg, base, r, coin);
    AnsweredMetricsPassThrough(ServerApp.Respond(traffic, avg, base, r, coin));
  }
}
