/**
 * The reporter: collects both metric sets, scores them and assembles the
 * report that is printed, saved as JSON and drawn as a bar chart.
 *
 * Printing, the JSON file, the chart and the clock are not modelled; the
 * timestamp is handed in.
 */
module Reporter {
  import opened Rounding
  import opened MetricsClient
  import opened HealthCollector
  import opened SecurityCollector
  import opened Scorer

  /** The report of one run. */
  datatype ScoreReport = ScoreReport(
    timestamp: string,
    healthMetrics: HealthMetrics,
    securityMetrics: SecurityMetrics,
    healthScore: real,
    securityScore: int,
    finalScore: real)

  /** Every score of the report lies in [0, 100]. */
  predicate ScoresInRange(r: ScoreReport) {
    && 0.0 <= r.healthScore <= 100.0
    && 0 <= r.securityScore <= 100
    && 0.0 <= r.finalScore <= 100.0
  }

  /** `generate_report`, without its output: collect, then score. */
  method GenerateReport(backend: MetricQuery -> Response, now: string) returns (report: ScoreReport)
    ensures Collected(backend, report.healthMetrics) && BuildsTotalled(report.healthMetrics)
    ensures report.securityMetrics == GetSecurityMetrics()
    ensures report.healthScore == HealthScore(report.healthMetrics)
    ensures report.securityScore == SecurityScore(report.securityMetrics) == 60
    ensures report.finalScore == FinalScore(report.healthScore, report.securityScore)
    ensures ScoresInRange(report)
    ensures report.timestamp == now
    ensures (forall q :: backend(q) == Failed) ==> report.healthScore == 85.0 && report.finalScore == 75.0
  {
    var health := GetHealthMetrics(backend);
    var sec := GetSecurityMetrics();
    var healthScore := HealthScore(health);
    var secScore := CalculateSecurityScore(sec);
    SimulatedSecurityScore();
    var finalScore := FinalScore(healthScore, secScore);
    if forall q :: backend(q) == Failed {
      BackendDownReport(backend, health);
    }
    report := ScoreReport(now, health, sec, healthScore, secScore, finalScore);
  }

  /** The hard-coded findings score 100 - 10 - 20 - 10 - 0 = 60. */
  lemma SimulatedSecurityScore()
    ensures SecurityScore(GetSecurityMetrics()) == 60
  {
    assert ExtraAdmins(GetSecurityMetrics()) == 2;
  }

  /**
   * With every query failing, every metric reads 0 and the fallbacks give
   * 0.4 * 100 + 0.2 * 100 + 0.1 * 100 + 0.3 * 50 = 85; with the fixed
   * security score of 60 the final score is 75.
   */
  lemma BackendDownScores()
    ensures HealthScore(AllZero) == 85.0
    ensures FinalScore(85.0, 60) == 75.0
  {
    assert Weighted(AllZero) == 85.0;
    Round2Fixes(8500);
    Round2Fixes(7500);
  }

  /** With every query failing, the collected metrics score 85 and the run 75. */
  lemma BackendDownReport(backend: MetricQuery -> Response, health: HealthMetrics)
    requires forall q :: backend(q) == Failed
    requires Collected(backend, health) && BuildsTotalled(health)
    ensures HealthScore(health) == 85.0
    ensures FinalScore(HealthScore(health), 60) == 75.0
  {
    BackendDownCollectsZeros(backend, health);
    assert health == AllZero;
    BackendDownScores();
  }

  /** 8 of 10 builds successful, 2 of 4 executors busy, 1 queued, 40% memory: 69. */
  lemma HealthScenario()
    ensures HealthScore(HealthMetrics(8.0, 2.0, 0.0, 0.0, 10.0, 2.0, 4.0, 1.0, 400.0, 1000.0)) == 69.0
  {
    var m := HealthMetrics(8.0, 2.0, 0.0, 0.0, 10.0, 2.0, 4.0, 1.0, 400.0, 1000.0);
    assert SuccessRate(m) == 80.0;
    assert ExecutorScore(m) == 50.0;
    assert QueueScore(m) == 90.0;
    assert MemScore(m) == 60.0;
    Round2Fixes(6900);
  }

  /** A health score of 69 with a security score of 60 gives a final score of 65.4. */
  lemma FinalScenario()
    ensures FinalScore(69.0, 60) == 65.4
  {
    Round2Fixes(6540);
  }
}
