# Jenkins health and security scoring, modelled in Dafny

The modelled system is a reporter for a Jenkins build server. It reads gauge metrics from a
Prometheus query endpoint. It combines them with a fixed set of security findings. From these it
computes three scores in [0, 100]: a health score, a security score and a weighted final score.

The model covers the arithmetic and the metric handling of
`scripts/jenkins_scoring_system_visual.py`:

- `MetricsClient` (`metrics_client.dfy`) models `prom_query`. It reduces a decoded backend
  answer to one number, and any failure gives 0 ("fail to zero"). `PromQuery` is the row-by-row
  loop of the source. It is proved equal to `QueryValue`, which is defined by the right-recursive
  sum `Total`.
- `HealthCollector` (`health_collector.dfy`) models `get_health_metrics`. It issues nine
  queries and derives `total_builds` as the sum of the four build-outcome counts. The backend
  is a parameter: a function from the query issued to the decoded answer.
- `SecurityCollector` (`security_collector.dfy`) models `get_security_metrics`, which returns a
  fixed set of findings.
- `Scorer` (`scorer.dfy`) holds the three scores: `calculate_health_score` with its sub-scores,
  fallbacks, weights and clamp; `calculate_security_score`; and the final-score formula.
- `Rounding` (`rounding.dfy`) models `round(x, 2)` on exact reals. A value goes to the nearest
  hundredth, and a tie goes to the even hundredth.
- `Reporter` (`reporter.dfy`) models the computing part of `generate_report`. It also proves
  the sample figures: a health score of 69, a security score of 60 and a final score of 65.4.
  With the backend down, the health score is 85 and the final score is 75.

Some facts about the code that shape the model:

- The security score is an integer: the findings are integers and `round(n, 2)` returns an
  integer unchanged.
- The code checks `memory_max > 0`, so every non-positive maximum takes the 50 % fallback.
- The clamp applies to every input, so the health score is in [0, 100] for all metrics.
- The executor sub-score is not floored at 0. With more busy executors than defined ones it
  goes negative, and only the final clamp bounds the result.

## Model

| member | source | states |
|---|---|---|
| `Rounding.Round2` | scripts/jenkins_scoring_system_visual.py:102 | the rounded value is a whole number of hundredths within 0.005 of the input |
| `Rounding.Round2Monotone` | scripts/jenkins_scoring_system_visual.py:102 | rounding to two decimals never reverses the order of two values |
| `Rounding.Round2Fixes` | scripts/jenkins_scoring_system_visual.py:102 | a value that already has at most two decimals is unchanged |
| `Rounding.Round2Idempotent` | scripts/jenkins_scoring_system_visual.py:102 | rounding a rounded value changes nothing |
| `Rounding.Round2KeepsScoreRange` | scripts/jenkins_scoring_system_visual.py:102 | a value in [0, 100] stays in [0, 100] after rounding |
| `MetricsClient.PromQuery` | scripts/jenkins_scoring_system_visual.py:12-24 | the row-by-row loop, which returns 0 at an unreadable row, returns exactly the value of `QueryValue`: the sum of the rows, or 0 on any failure |
| `MetricsClient.FailToZero` | scripts/jenkins_scoring_system_visual.py:17-24 | a transport failure, a status other than "success", an empty result list or an unreadable row gives 0; a usable answer gives the sum of its rows |
| `MetricsClient.TotalAppend` | scripts/jenkins_scoring_system_visual.py:18-20 | the sum of two concatenated row lists is the sum of the two sums, so adding one row at a time computes the whole sum |
| `MetricsClient.TotalNonNegative` | scripts/jenkins_scoring_system_visual.py:18-20 | rows with non-negative values sum to a non-negative total |
| `MetricsClient.SingleSeries` | scripts/jenkins_scoring_system_visual.py:17-21 | a successful answer with a single series yields that series' value |
| `MetricsClient.QueryValueNonNegative` | scripts/jenkins_scoring_system_visual.py:17-24 | a backend that reports only non-negative values yields a non-negative metric |
| `HealthCollector.GetHealthMetrics` | scripts/jenkins_scoring_system_visual.py:30-57 | each field is the reduced answer to its own query, and `total_builds` is the sum of the four outcome counts |
| `HealthCollector.FailedQueryReadsZero` | scripts/jenkins_scoring_system_visual.py:36-55 | a query that fails leaves exactly its own field at 0 |
| `HealthCollector.BackendDownCollectsZeros` | scripts/jenkins_scoring_system_visual.py:36-55 | with every query failing, every field, the derived total included, is 0 |
| `SecurityCollector.GetSecurityMetrics` | scripts/jenkins_scoring_system_visual.py:63-69 | the hard-coded findings are non-negative counts |
| `Scorer.SuccessRate` | scripts/jenkins_scoring_system_visual.py:76-79 | no builds gives 100; with 0 <= successful <= total the rate is in [0, 100]; with builds present it is 100 exactly when every build succeeded |
| `Scorer.ExecutorScore` | scripts/jenkins_scoring_system_visual.py:81-84 | no executors, or none busy, gives 100; with 0 <= busy <= total the score is in [0, 100] and is 0 exactly when all executors are busy |
| `Scorer.QueueScore` | scripts/jenkins_scoring_system_visual.py:86 | never negative; at most 100 for a non-negative queue; 100 for an empty queue; 0 exactly when 10 or more items wait |
| `Scorer.MemUsage` | scripts/jenkins_scoring_system_visual.py:88-91 | a non-positive maximum gives the 50 fallback; otherwise the usage is non-negative for non-negative use and reaches 100 exactly when use reaches the maximum |
| `Scorer.MemScore` | scripts/jenkins_scoring_system_visual.py:93 | never negative; at most 100; 50 when the maximum is unknown; 0 exactly when memory is full |
| `Scorer.Weighted` | scripts/jenkins_scoring_system_visual.py:95-100 | the weights 0.4, 0.2, 0.1 and 0.3 form a convex combination: sub-scores in [0, 100] give a sum in [0, 100] |
| `Scorer.Clamp` | scripts/jenkins_scoring_system_visual.py:102 | the result is in [0, 100]; a value in range is kept; a value out of range goes to the nearer bound |
| `Scorer.HealthScore` | scripts/jenkins_scoring_system_visual.py:75-102 | for every metrics record the health score is in [0, 100], has two decimals and is within 0.005 of the clamped weighted sum |
| `Scorer.ClampMonotone` | scripts/jenkins_scoring_system_visual.py:102 | the clamp preserves order |
| `Scorer.HealthScoreFollowsWeighted` | scripts/jenkins_scoring_system_visual.py:95-102 | a lower weighted sum never gives a higher health score |
| `Scorer.ClampInactiveWhenPlausible` | scripts/jenkins_scoring_system_visual.py:95-102 | for non-negative counts with consistent totals and busy <= defined executors, every sub-score is in [0, 100] and the clamp changes nothing |
| `Scorer.HealthFallbacks` | scripts/jenkins_scoring_system_visual.py:76-93 | zero builds give a success rate of 100, zero executors give an executor score of 100, and a non-positive memory maximum gives a usage and a memory score of 50 |
| `Scorer.HealthScoreQueueMonotone` | scripts/jenkins_scoring_system_visual.py:86 | a longer queue never raises the health score |
| `Scorer.HealthScoreMemoryMonotone` | scripts/jenkins_scoring_system_visual.py:88-93 | more memory in use never raises the health score, whatever the memory maximum |
| `Scorer.HealthScoreBusyMonotone` | scripts/jenkins_scoring_system_visual.py:81-84 | more busy executors, with a known number of executors, never raise the health score |
| `Scorer.HealthScoreFailuresMonotone` | scripts/jenkins_scoring_system_visual.py:76-79 | recording more failed builds, and hence more builds in total, never raises the health score |
| `Scorer.ExtraAdmins` | scripts/jenkins_scoring_system_visual.py:112 | zero or one admin account counts as none; beyond that, every admin account but the first counts |
| `Scorer.SecurityScore` | scripts/jenkins_scoring_system_visual.py:108-114 | never negative; at most 100 for non-negative counts; exactly 100 when the penalty is 0; 100 minus the penalty whenever the penalty is below 100, and 0 exactly when it reaches 100 |
| `Scorer.CalculateSecurityScore` | scripts/jenkins_scoring_system_visual.py:108-114 | lowering a running score one finding at a time and then flooring it gives the security score |
| `Scorer.SecurityScoreClean` | scripts/jenkins_scoring_system_visual.py:108-114 | with all four counters at zero, the security score is exactly 100 |
| `Scorer.SecurityScoreMonotone` | scripts/jenkins_scoring_system_visual.py:110-114 | the security score is non-increasing in each of the four counters |
| `Scorer.FirstAdminFree` | scripts/jenkins_scoring_system_visual.py:112 | a single admin account scores the same as none |
| `Scorer.ExtraAdminCosts5` | scripts/jenkins_scoring_system_visual.py:112 | each admin beyond the first costs exactly 5 points until the score reaches 0 |
| `Scorer.FinalScore` | scripts/jenkins_scoring_system_visual.py:148 | health and security scores in [0, 100] give a final score in [0, 100] with two decimals |
| `Scorer.FinalScoreBetween` | scripts/jenkins_scoring_system_visual.py:148 | the final score lies between the health and security scores, up to the rounding of 0.005 |
| `Scorer.FinalScoreMonotone` | scripts/jenkins_scoring_system_visual.py:148 | a better health or security score never lowers the final score |
| `Reporter.GenerateReport` | scripts/jenkins_scoring_system_visual.py:140-148 | the report holds the collected metrics, the fixed findings and their three scores, all in [0, 100]; the security score is 60; with every query failing, the scores are 85 and 75 |
| `Reporter.SimulatedSecurityScore` | scripts/jenkins_scoring_system_visual.py:63-69 | the hard-coded findings score 60 |
| `Reporter.BackendDownScores` | scripts/jenkins_scoring_system_visual.py:75-102 | all-zero metrics score 85 through the fallbacks, and 85 with 60 gives a final score of 75 |
| `Reporter.BackendDownReport` | scripts/jenkins_scoring_system_visual.py:140-148 | metrics collected with every query failing give a health score of 85 and a final score of 75 |
| `Reporter.HealthScenario` | scripts/jenkins_scoring_system_visual.py:75-102 | 8 of 10 builds successful, 2 of 4 executors busy, 1 queued item and 40 % memory in use give 69 |
| `Reporter.FinalScenario` | scripts/jenkins_scoring_system_visual.py:148 | a health score of 69 and a security score of 60 give 65.4 |

## Left out

- Rounding.Round2: it rounds exact reals. Python's `round(x, 2)` works on the binary double
  nearest to the decimal, so a value such as 2.675 (stored just below) rounds down there. The
  model rounds it to even. The contract does not capture that difference.
- Scorer.HealthScore, Scorer.Weighted, Scorer.FinalScore: the weights and ratios are exact
  reals, while the source computes them in IEEE-754 doubles. NaN and infinite values, which
  `float()` accepts, are not modelled.
- The HTTP request, its 10-second timeout and the JSON decoding in `prom_query` are network
  I/O. The model receives the decoded answer, and every exception raised before the rows are
  read becomes the single `Failed` answer.
- Parsing a row's value string with `float()` is not modelled. A row carries either its number
  or the `Malformed` marker.
- The PromQL expressions are opaque strings for the backend. The model names each query by
  what it asks for.
- `generate_visual` is chart rendering, and it is not part of this model.
- The printing, the `datetime.now()` timestamp and the JSON file in `generate_report` are I/O.
  The timestamp is a parameter, and the JSON round-trip of the written file is not modelled.
