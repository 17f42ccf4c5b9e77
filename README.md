# Network GA optimiser: the server response rule and the fitness evaluator

This project models, in Dafny, the numeric core of a system that tunes a
traffic split across backend servers with a genetic search:

- the simulated server (`ServerApp`, file `server_app.dfy`): `/serve` records
  each accepted load in a process-wide history of the last 10 loads, then
  answers with a latency, a throughput and an error rate computed from the
  load, the history mean and three random draws; `/status` reports the mean
  and the last five entries. The history is a `seq<real>` field of the class
  `Server`, updated by the method `Serve`.
- the fitness evaluator (`FitnessEvaluator`, file `fitness_evaluator.dfy`):
  `Normalize` turns a gene vector into traffic shares; the method
  `EvaluateSolution` sends each server its share of 100 units, averages the
  replies with defaults for missing metrics, and combines them into the
  weighted score.
- the HTTP client's mapping of server answers to metrics (`ServerClient`,
  file `server_client.dfy`), as the channel between the two.
- the percentage helper `ScaleToPercent` (`Utils`, file `utils.dfy`).
- `Stats` (file `stats.dfy`) holds exact versions of `sum`, `statistics.mean`
  and the sample variance, with the lemmas about them.

Floating-point numbers are Dafny `real`s, with exact arithmetic. Each
request's random draws are parameters: `base` from uniform(0.1, 0.4), `r`
from uniform(0.5, 1.5) and `coin` from random(). The channel `send_traffic`
is a parameter `send` that maps the position of a query within one
evaluation, the server and the load to a reply dictionary
(`map<string, real>`), so a server listed twice may answer its two queries
differently. The square root inside `statistics.stdev` is a
parameter `sqrt`, and `round(x, 2)` is a parameter `round2`. The server list
and the four fitness weights come from the configuration; here they are
parameters.

Behaviour of the code a reader may not expect:
- the server accepts negative loads;
- a load above 80 units is refused with probability 0.3, whatever its size; the error rate reported is either 0 or 1;
- the latency depends only on the base draw and the mean load of the history;
- the `load_variance` term is the sample standard deviation of the shares, not their variance;
- an empty gene vector divides by zero rather than falling back to equal shares;
- a transport failure in the client raises instead of producing a worst-case reply (see Findings).

## Model

| member | source | states |
|---|---|---|
| ServerApp.ParseTraffic | simulated_server/server-app.py:14-17 | a missing field reads as load 0; a numeric field gives its value; a non-numeric one gives no load, which means a 400 "Invalid input" |
| ServerApp.Last | simulated_server/server-app.py:56 | Python's slice `s[-k:]`: the last min(len(s), k) elements of s, in order |
| ServerApp.Push | simulated_server/server-app.py:20-22 | the new load is always the last entry; below capacity nothing is dropped; at capacity exactly the oldest entry is dropped |
| ServerApp.PushKeepsLastWindow | simulated_server/server-app.py:20-22 | updating the window of the last 10 loads gives the window of the last 10 loads once the new load is added |
| ServerApp.Throughput | simulated_server/server-app.py:32 | throughput is the larger of 0.1 and 100 - traffic*r, so it is at least 0.1 whatever the traffic or r |
| ServerApp.Latency | simulated_server/server-app.py:26-28 | the latency is at least the base draw when the base draw and the mean load are non-negative; for a positive base draw it is negative exactly when the mean load is below -100 |
| ServerApp.Respond | simulated_server/server-app.py:26-47 | an accepted request never gets the 400 answer; the request fails in the sleep exactly when the latency is negative or longer than the 9223372036.854775807 s `time.sleep` accepts; otherwise a 500 with error rate 1.0 exactly when traffic > 80 and coin < 0.3; a success reports latency*1000, the throughput rule, error rate 0.0, the load itself and the mean load |
| ServerApp.LatencyBounds | simulated_server/server-app.py:26-29 | for a base draw in [0.1, 0.4], a mean load in [-100, 2e12] keeps the latency within [0, 9223372036.854775807] s, and a mean load above 1e13 pushes it past the limit |
| ServerApp.SleepFailureRule | simulated_server/server-app.py:26-29 | for a base draw in [0.1, 0.4], the sleep fails exactly when the mean load is below -100 (a negative latency) or the latency passes the sleep limit; for a mean load up to 2e12 only the first can happen, and above 1e13 the sleep always fails |
| ServerApp.ErrorRule | simulated_server/server-app.py:35-39 | for a mean load in [-100, 2e12], where the sleep succeeds: traffic ≤ 80 succeeds; a 500 with error rate 1.0 happens exactly when traffic > 80 and coin < 0.3; every success, above 80 too, reports error rate 0.0 |
| ServerApp.OutputFloors | simulated_server/server-app.py:23-47 | over a non-empty, non-negative history with mean at most 2e12 the request does not fail in the sleep; a success reports latency ≥ base*1000 ms and throughput ≥ 0.1; the error rate is in [0, 1] |
| ServerApp.Server.constructor | simulated_server/server-app.py:9 | the history starts empty |
| ServerApp.Server.Serve | simulated_server/server-app.py:12-47 | a non-numeric load gives Invalid and changes nothing; any other load, missing ones included, is appended to the history with oldest-first eviction, on the 500 path too; the history stays within 10 entries and equal to the last 10 accepted loads; the answer is computed from the load and the mean of the updated history, which includes the load just recorded |
| ServerApp.Server.Status | simulated_server/server-app.py:49-57 | reports the last 5 entries of the history in order (all of them when fewer); the mean of the history, and 0 for an empty one; the latency estimate drawn by the caller |
| ServerApp.HistoryIsLastTen | simulated_server/server-app.py:20-22 | the history is the last min(n, 10) accepted loads in call order |
| ServerApp.StatusShowsLastFive | simulated_server/server-app.py:56 | the status entries are the last five accepted loads, in call order |
| ServerApp.StatusMeanNonNegative | simulated_server/server-app.py:54 | a server that has only been offered non-negative loads reports a non-negative mean |
| FitnessEvaluator.Get | ga_controller/fitness_evaluator.py:31-33 | `dict.get`: the stored value when the key is present, the default otherwise |
| FitnessEvaluator.Normalize | ga_controller/fitness_evaluator.py:13-15 | the shares have one entry per gene |
| FitnessEvaluator.NormalizeEntries | ga_controller/fitness_evaluator.py:15 | entry i is x_i/total when total > 0; every entry is 1/len when total ≤ 0 (all zeros or a negative total) |
| FitnessEvaluator.NormalizeSumsToOne | ga_controller/fitness_evaluator.py:15 | the shares sum to exactly 1 on both paths |
| FitnessEvaluator.NormalizePreservesRatios | ga_controller/fitness_evaluator.py:15 | with a positive total, out_i * x_j == out_j * x_i |
| FitnessEvaluator.NormalizeShareBounds | ga_controller/fitness_evaluator.py:15 | non-negative genes give shares in [0, 1] |
| FitnessEvaluator.NormalizeScaleInvariant | ga_controller/fitness_evaluator.py:15 | multiplying every gene by one positive constant changes no share |
| FitnessEvaluator.NormalizeIdempotent | ga_controller/fitness_evaluator.py:15 | normalising shares again returns them unchanged |
| FitnessEvaluator.Injected | ga_controller/fitness_evaluator.py:25-26 | one load per share, share_i*100 |
| FitnessEvaluator.InjectedSumsToBudget | ga_controller/fitness_evaluator.py:25-26 | the loads share_i*100 sent to the servers add up to 100 for every non-empty gene vector |
| FitnessEvaluator.Replies | ga_controller/fitness_evaluator.py:25-28 | reply i is the channel's answer to query i, addressed to server i with share_i*100 |
| FitnessEvaluator.Column | ga_controller/fitness_evaluator.py:31-33 | one entry per reply: the reply's value for the key, or the default where the key is missing |
| FitnessEvaluator.QueryServers | ga_controller/fitness_evaluator.py:25-33 | server i is queried once, in index order, with share_i*100; the three lists hold each reply's latency, throughput and error rate, or 1000, 0 and 1 where missing |
| FitnessEvaluator.QueriedLoadsSumToBudget | ga_controller/fitness_evaluator.py:25-26 | queries carrying a candidate's shares carry 100 units in all |
| FitnessEvaluator.Imbalance | ga_controller/fitness_evaluator.py:38 | 0 for a single server; otherwise the square root of a non-negative number (the sample variance of the shares) |
| FitnessEvaluator.Fitness | ga_controller/fitness_evaluator.py:41-46 | with non-negative penalty weights and figures the score is at most the throughput reward, and equals it when latency, error and imbalance are all 0 |
| FitnessEvaluator.ScoreOf | ga_controller/fitness_evaluator.py:35-46 | for a single server the score is the weighted formula over that server's own three figures, with no imbalance |
| FitnessEvaluator.EvaluateSolution | ga_controller/fitness_evaluator.py:18-48 | server i is queried once, in index order, with share_i*100; the loads sent sum to 100; the score is the weighted formula over the means of the three metric columns, with defaults 1000, 0 and 1, and the imbalance term |
| FitnessEvaluator.FailureIsWorstCase | ga_controller/fitness_evaluator.py:31-33 | a `{"error_rate": 1.0}` reply contributes latency 1000, throughput 0 and error 1.0 |
| FitnessEvaluator.FitnessStrictlyMonotone | ga_controller/fitness_evaluator.py:41-46 | the score strictly decreases in the mean error, the mean latency and the imbalance, and strictly increases in the mean throughput, whenever the matching weight is positive |
| FitnessEvaluator.ServerErrorLowersScore | ga_controller/fitness_evaluator.py:33-46 | raising one server's reported error rate, all else fixed, strictly lowers the score when the error weight is positive |
| FitnessEvaluator.ImbalanceNonNegative | ga_controller/fitness_evaluator.py:38 | the imbalance term, the sample standard deviation of the shares or 0 for one server, is non-negative |
| FitnessEvaluator.FallbackHasNoImbalance | ga_controller/fitness_evaluator.py:38 | a gene vector whose total is not positive gets equal shares and so no imbalance penalty |
| ServerClient.ReplyMetrics | ga_controller/server_client.py:23-26 | a 200 answer carries its latency, throughput and error rate under their keys; any other status gives `{"error_rate": 1.0}` |
| ServerClient.SendTrafficAsWritten | ga_controller/server_client.py:17-29 | as written: an unreachable server raises, and an answered request returns the answer's metrics |
| ServerClient.SendTraffic | ga_controller/server_client.py:17-29 | as intended: an answered request gives the answer's metrics, and every outcome other than a 200 answer gives `{"error_rate": 1.0}` |
| ServerClient.UnreachableServerRaisesAsWritten | ga_controller/server_client.py:27-28 | as written, the client raises exactly when the server is unreachable, so there it fails to return the intended `{"error_rate": 1.0}`; on every answered request it agrees with the intended client |
| ServerClient.FailedDeliveryIsWorstCase | ga_controller/server_client.py:23-29 | every request that does not end in a 200 answer reaches the evaluator as latency 1000, throughput 0, error 1 |
| ServerClient.AnsweredMetricsPassThrough | ga_controller/server_client.py:23-24 | a 200 answer reaches the evaluator with the server's own latency, throughput and error rate |
| ServerClient.Deliver | ga_controller/server_client.py:18-22 | the answer reaches the client exactly when the server's sleep before answering is within the client's timeout; otherwise the POST ends as a transport failure |
| ServerClient.SlowAnswerIsWorstCase | ga_controller/server_client.py:18-29 | an answer slower than the timeout reaches the evaluator as `{"error_rate": 1.0}` from the intended client, and makes the client as written raise |
| ServerClient.LightShareSeesNoError | ga_controller/server_client.py:18-24 | a share of at most 80 units sent to a server whose history is non-negative with mean at most 2e12, and answered within the timeout, comes back with error rate 0 and throughput ≥ 0.1 |
| Stats.Sum | ga_controller/fitness_evaluator.py:14 | Python's `sum` over exact reals, defined by recursion; it carries no contract of its own, and its facts are the next four lemmas |
| Stats.SumConstant | ga_controller/fitness_evaluator.py:15 | n equal terms c sum to n*c |
| Stats.SumScaled | ga_controller/fitness_evaluator.py:15 | multiplying every term by c multiplies the sum by c |
| Stats.SumMonotone | ga_controller/fitness_evaluator.py:35-37 | termwise ≤ gives a sum ≤, and strictly < when one term is strictly smaller |
| Stats.TermAtMostSum | ga_controller/fitness_evaluator.py:15 | a term of a non-negative sequence is at most its sum |
| Stats.Mean | simulated_server/server-app.py:23 | the arithmetic mean of a non-empty list: the mean times the count is the sum; it stands both for `statistics.mean` (simulated_server/server-app.py:23 and :54) and for the evaluator's `sum(...) / len(...)` (ga_controller/fitness_evaluator.py:35-37) |
| Stats.MeanNonNegative | simulated_server/server-app.py:23 | non-negative data have a non-negative mean |
| Stats.SampleVariance | ga_controller/fitness_evaluator.py:38 | the variance under `statistics.stdev` (divisor n - 1, at least two points) is never negative |
| Stats.SampleVarianceOfConstant | ga_controller/fitness_evaluator.py:38 | equal data have sample variance 0 |
| Utils.ScaleToPercent | ga_controller/utils.py:3-5 | same length; all zeros when the total is 0; entry i is round2(v_i/total*100) for any non-zero total, negative included |
| Utils.PercentBounds | ga_controller/utils.py:5 | non-negative values with a positive total give entries in [0, 100] when rounding keeps [0, 100] |
| Utils.PercentScaleInvariant | ga_controller/utils.py:5 | multiplying every value by one positive constant changes no entry |
| Utils.PercentAgreesWithShares | ga_controller/utils.py:5 | with a positive total, entry i is the rounded normalised share times 100 |
| Utils.NegativeTotalGuardsDisagree | ga_controller/utils.py:5 | for every vector with a negative total, entry i is round2(v_i/total*100) through the truth-test guard, while the normalisation's `total > 0` guard gives every share 1/n |
| Utils.NegativeTotalExample | ga_controller/utils.py:5 | [-1, -3] is reported as round2(25) and round2(75), while the normalisation gives [0.5, 0.5] |

## Left out

- HTTP plumbing: Flask routing, JSON encoding and status codes are left out. An answer is one of the `Response` cases: `Ok`, `Overloaded` (500), `Invalid` (400) or `SleepFailed` (the framework's 500).
- The request body: `float()` coercion is abstracted into the three `LoadField` cases. NaN and infinite loads are not modelled. A JSON integer too large for a float makes `float()` raise OverflowError, which the handler at simulated_server/server-app.py:16 does not catch; the framework answers 500 and nothing is recorded; this path is not modelled. A body that is not a JSON object raises an exception the handler at simulated_server/server-app.py:16 does not catch (AttributeError on `.get`, or the framework's own 400 or 415 for a malformed or non-JSON body); that path is not modelled.
- `time.sleep`: the delay itself is left out. Only its failures are modelled: ValueError on a negative latency and OverflowError on one above 9223372036.854775807 s.
- Rounding to two decimals: `latency_ms`, `throughput_mbps` and `avg_load` in `/serve`, and `avg_load` and the latency estimate in `/status`, are reported unrounded. `round2` in `ScaleToPercent` and `sqrt` in the imbalance term are uninterpreted parameters. IEEE floating-point rounding is not modelled anywhere.
- The sleep limit: the cut-off is the exact real 9223372036.854775807 s; where CPython's conversion of the float delay to nanoseconds rounds near that value is not modelled.
- The client's timeout: `TIMEOUT` from the configuration is a parameter `timeout`, and an answer is lost exactly when the server's sleep exceeds it. Connection time and the time to send the answer are not modelled.
- Randomness: the draws are parameters, with the ranges the library promises as preconditions. The `/status` latency estimate is a parameter.
- EvaluateSolution: the channel `send` is a pure function of the query's position, the server and the load, for one evaluation. The state a remote server keeps between queries, and its random draws, are folded into its replies. The `print` calls are left out.
- EvaluateSolution: also returns the list of queries it makes (server and load), so that "each server once, in index order" can be stated. The source performs these queries but returns only the score.
- Normalize: an empty gene vector raises ZeroDivisionError in the source. Here it is excluded by a precondition, since the genetic search always produces one gene per server.
- Configuration loading at import time: the server list and the weights are parameters. `len(solution) <= len(servers)` is a precondition, because a longer vector raises IndexError in the source.
- Push: requires a positive capacity; the server's capacity is the constant 10.
- The genetic search (`ga_runner.py`, a wrapper over the pygad library, whose selection, crossover, mutation and `best_solution` are not visible) is not part of this model. Neither are `main.py`, `load_driver/load-driver.py` and `log_traffic_result`, which are orchestration, an endless load loop with sleeps, and printing.
- Server.Serve: each request runs as one atomic step. Flask's development server started by `app.run` (simulated_server/server-app.py:60) handles requests on several threads, and the module-level `load_history` is appended to, popped and averaged without a lock, while the load driver posts to the same servers during the search. Interleavings are not modelled: for example request A appends (11 entries), request B appends (12), A pops and averages 11 entries, one of them B's load, and B then pops back to 10.

## Findings

| source | as written | input that shows it | evidently intended | confidence | as-written member | corrected member |
|---|---|---|---|---|---|---|
| ga_controller/server_client.py:27-28 | the `except` handler formats `{e}`, but the exception is not bound to a name, so formatting the message raises NameError and the `return {"error_rate": 1.0}` after it is never reached | a server that refuses the connection or times out | an unreachable server yields the worst-case reply `{"error_rate": 1.0}`, so the evaluation goes on | high (not executed) | ServerClient.UnreachableServerRaisesAsWritten | ServerClient.FailedDeliveryIsWorstCase |
