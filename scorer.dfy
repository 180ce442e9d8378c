/**
 * The scorer: the health score, the security score and the final score,
 * each a number in [0, 100].
 *
 * Weights and ratios are exact reals here; Python computes them in binary
 * floating point.
 */
module Scorer {
  import opened Rounding
  import opened HealthCollector
  import opened SecurityCollector

  // ---------------------------------------------------------------------
  // Health score
  // ---------------------------------------------------------------------

  /** How a ratio `a / b` with a positive denominator compares with 0 and 1. */
  lemma RatioFacts(a: real, b: real)
    ensures b > 0.0 ==> (0.0 <= a ==> 0.0 <= a / b)
    ensures b > 0.0 ==> (a / b <= 1.0 <==> a <= b)
    ensures b > 0.0 ==> (a / b >= 1.0 <==> a >= b)
    ensures b > 0.0 ==> (a / b == 1.0 <==> a == b)
  {
    if b > 0.0 {
      var q := a / b;
      assert q * b == a;
      if q <= 1.0 { assert q * b <= b; }
      if q >= 1.0 { assert q * b >= b; }
    }
  }

  /** Dividing a non-negative number by a larger positive one gives no more. */
  lemma DivAntitone(s: real, t: real, u: real)
    requires 0.0 <= s && 0.0 < t <= u
    ensures s / u <= s / t
  {
    assert (s / u) * u == s;
    assert (s / t) * t == s;
    calc {
      (s / u) * t;
    <= (s / u) * u;
    == s;
    == (s / t) * t;
    }
  }

  /** Share of successful builds, in percent; no builds at all counts as 100. */
  function SuccessRate(m: HealthMetrics): (r: real)
    ensures m.totalBuilds == 0.0 ==> r == 100.0
    ensures 0.0 <= m.successfulBuilds <= m.totalBuilds ==> 0.0 <= r <= 100.0
    ensures 0.0 < m.totalBuilds ==> (r == 100.0 <==> m.successfulBuilds == m.totalBuilds)
  {
    if m.totalBuilds == 0.0 then 100.0
    else
      RatioFacts(m.successfulBuilds, m.totalBuilds);
      m.successfulBuilds / m.totalBuilds * 100.0
  }

  /** Share of idle executors, in percent; no executors at all counts as 100. */
  function ExecutorScore(m: HealthMetrics): (r: real)
    ensures m.executorTotal == 0.0 ==> r == 100.0
    ensures m.executorBusy == 0.0 ==> r == 100.0
    ensures 0.0 <= m.executorBusy <= m.executorTotal ==> 0.0 <= r <= 100.0
    ensures 0.0 < m.executorTotal ==> (r == 0.0 <==> m.executorBusy == m.executorTotal)
  {
    if m.executorTotal == 0.0 then 100.0
    else
      RatioFacts(m.executorBusy, m.executorTotal);
      100.0 - m.executorBusy / m.executorTotal * 100.0
  }

  /** Ten points off per queued item, never below 0. */
  function QueueScore(m: HealthMetrics): (r: real)
    ensures r >= 0.0
    ensures m.queueSize >= 0.0 ==> r <= 100.0
    ensures r == 0.0 <==> m.queueSize >= 10.0
    ensures m.queueSize == 0.0 ==> r == 100.0
  {
    if 100.0 - m.queueSize * 10.0 > 0.0 then 100.0 - m.queueSize * 10.0 else 0.0
  }

  /** Memory in use, in percent of the maximum; an unknown maximum counts as 50. */
  function MemUsage(m: HealthMetrics): (r: real)
    ensures m.memoryMax <= 0.0 ==> r == 50.0
    ensures 0.0 < m.memoryMax && 0.0 <= m.memoryUsed ==> 0.0 <= r
    ensures 0.0 < m.memoryMax ==> (r >= 100.0 <==> m.memoryUsed >= m.memoryMax)
  {
    if m.memoryMax > 0.0 then
      RatioFacts(m.memoryUsed, m.memoryMax);
      m.memoryUsed / m.memoryMax * 100.0
    else 50.0
  }

  /** Share of free memory, in percent, never below 0. */
  function MemScore(m: HealthMetrics): (r: real)
    ensures r >= 0.0
    ensures MemUsage(m) >= 0.0 ==> r <= 100.0
    ensures m.memoryMax <= 0.0 ==> r == 50.0
    ensures 0.0 < m.memoryMax ==> (r == 0.0 <==> m.memoryUsed >= m.memoryMax)
  {
    if 100.0 - MemUsage(m) > 0.0 then 100.0 - MemUsage(m) else 0.0
  }

  /** Each sub-score lies in the score range. */
  predicate SubScoresInRange(m: HealthMetrics) {
    && 0.0 <= SuccessRate(m) <= 100.0
    && 0.0 <= ExecutorScore(m) <= 100.0
    && 0.0 <= QueueScore(m) <= 100.0
    && 0.0 <= MemScore(m) <= 100.0
  }

  /** The weighted combination of the four sub-scores (weights 0.4, 0.2, 0.1, 0.3). */
  function Weighted(m: HealthMetrics): (r: real)
    ensures SubScoresInRange(m) ==> 0.0 <= r <= 100.0
  {
    SuccessRate(m) * 0.40 + ExecutorScore(m) * 0.20 + QueueScore(m) * 0.10 + MemScore(m) * 0.30
  }

  /** `min(max(x, 0), 100)`. */
  function Clamp(x: real): (r: real)
    ensures 0.0 <= r <= 100.0
    ensures 0.0 <= x <= 100.0 ==> r == x
    ensures x < 0.0 ==> r == 0.0
    ensures x > 100.0 ==> r == 100.0
  {
    var low := if x > 0.0 then x else 0.0;
    if low < 100.0 then low else 100.0
  }

  /** `calculate_health_score`. */
  function HealthScore(m: HealthMetrics): (r: real)
    ensures 0.0 <= r <= 100.0
    ensures IsHundredths(r)
    ensures -0.005 <= r - Clamp(Weighted(m)) <= 0.005
  {
    Round2KeepsScoreRange(Clamp(Weighted(m)));
    Round2(Clamp(Weighted(m)))
  }

  lemma ClampMonotone(x: real, y: real)
    requires x <= y
    ensures Clamp(x) <= Clamp(y)
  {
  }

  /** A lower weighted sum never gives a higher health score. */
  lemma HealthScoreFollowsWeighted(m: HealthMetrics, m': HealthMetrics)
    requires Weighted(m') <= Weighted(m)
    ensures HealthScore(m') <= HealthScore(m)
  {
    ClampMonotone(Weighted(m'), Weighted(m));
    Round2Monotone(Clamp(Weighted(m')), Clamp(Weighted(m)));
  }

  /**
   * Metrics as a live server reports them: counts are non-negative, the
   * total is the sum of the outcomes, and no more executors are busy than
   * are defined.
   */
  predicate Plausible(m: HealthMetrics) {
    && BuildsTotalled(m)
    && m.successfulBuilds >= 0.0 && m.failedBuilds >= 0.0
    && m.unstableBuilds >= 0.0 && m.abortedBuilds >= 0.0
    && 0.0 <= m.executorBusy <= m.executorTotal
    && m.queueSize >= 0.0
    && m.memoryUsed >= 0.0
  }

  /** On plausible metrics the clamp to [0, 100] never changes the weighted sum. */
  lemma ClampInactiveWhenPlausible(m: HealthMetrics)
    requires Plausible(m)
    ensures SubScoresInRange(m)
    ensures Clamp(Weighted(m)) == Weighted(m)
  {
  }

  /** Zero-denominator fallbacks: no builds, no executors, no memory maximum. */
  lemma HealthFallbacks(m: HealthMetrics)
    ensures m.totalBuilds == 0.0 ==> SuccessRate(m) == 100.0
    ensures m.executorTotal == 0.0 ==> ExecutorScore(m) == 100.0
    ensures m.memoryMax <= 0.0 ==> MemUsage(m) == 50.0 && MemScore(m) == 50.0
  {
  }

  /** A longer queue never raises the health score. */
  lemma HealthScoreQueueMonotone(m: HealthMetrics, q: real)
    requires m.queueSize <= q
    ensures HealthScore(m.(queueSize := q)) <= HealthScore(m)
  {
    HealthScoreFollowsWeighted(m, m.(queueSize := q));
  }

  /** More memory in use never raises the health score. */
  lemma HealthScoreMemoryMonotone(m: HealthMetrics, used: real)
    requires m.memoryUsed <= used
    ensures HealthScore(m.(memoryUsed := used)) <= HealthScore(m)
  {
    var m' := m.(memoryUsed := used);
    if m.memoryMax > 0.0 {
      assert m.memoryUsed / m.memoryMax <= used / m.memoryMax;
      assert MemUsage(m) <= MemUsage(m');
    }
    HealthScoreFollowsWeighted(m, m');
  }

  /** More busy executors (of a known number) never raise the health score. */
  lemma HealthScoreBusyMonotone(m: HealthMetrics, busy: real)
    requires m.executorTotal > 0.0
    requires m.executorBusy <= busy
    ensures HealthScore(m.(executorBusy := busy)) <= HealthScore(m)
  {
    var m' := m.(executorBusy := busy);
    assert m.executorBusy / m.executorTotal <= busy / m.executorTotal;
    HealthScoreFollowsWeighted(m, m');
  }

  /** Recording `d` more failed builds never raises the health score. */
  lemma HealthScoreFailuresMonotone(m: HealthMetrics, d: real)
    requires 0.0 <= m.successfulBuilds <= m.totalBuilds
    requires d >= 0.0
    ensures HealthScore(m.(failedBuilds := m.failedBuilds + d, totalBuilds := m.totalBuilds + d))
            <= HealthScore(m)
  {
    var m' := m.(failedBuilds := m.failedBuilds + d, totalBuilds := m.totalBuilds + d);
    var s, t := m.successfulBuilds, m.totalBuilds;
    if t > 0.0 {
      DivAntitone(s, t, t + d);
    }
    assert SuccessRate(m') <= SuccessRate(m);
    HealthScoreFollowsWeighted(m, m');
  }

  // ---------------------------------------------------------------------
  // Security score
  // ---------------------------------------------------------------------

  /** Admin accounts beyond the first, `max(0, admins - 1)`. */
  function ExtraAdmins(s: SecurityMetrics): (n: nat)
    ensures s.userAccountsAdmin <= 1 ==> n == 0
    ensures s.userAccountsAdmin >= 1 ==> n + 1 == s.userAccountsAdmin
  {
    if s.userAccountsAdmin - 1 > 0 then s.userAccountsAdmin - 1 else 0
  }

  /** Points lost to findings: 5 per outdated plugin, 20 per critical
      vulnerability, 5 per extra admin, 15 per missing auth setting. */
  function Penalty(s: SecurityMetrics): int {
    s.outdatedPlugins * 5 + s.criticalVulnerabilities * 20 + ExtraAdmins(s) * 5
      + s.missingAuthSettings * 15
  }

  /** The security score: 100 less the penalty, floored at 0. */
  function SecurityScore(s: SecurityMetrics): (r: int)
    ensures r >= 0
    ensures Counts(s) ==> r <= 100
    ensures r == 100 <==> Penalty(s) == 0
    ensures 0 < r ==> r + Penalty(s) == 100
    ensures Penalty(s) < 100 ==> r == 100 - Penalty(s)
    ensures r == 0 <==> Penalty(s) >= 100
  {
    if 100 - Penalty(s) > 0 then 100 - Penalty(s) else 0
  }

  /** `calculate_security_score`: the running score is lowered finding by finding. */
  method CalculateSecurityScore(s: SecurityMetrics) returns (score: int)
    ensures score == SecurityScore(s)
  {
    score := 100;
    score := score - s.outdatedPlugins * 5;
    score := score - s.criticalVulnerabilities * 20;
    var extra := s.userAccountsAdmin - 1;
    if extra < 0 {
      extra := 0;
    }
    score := score - extra * 5;
    score := score - s.missingAuthSettings * 15;
    if score < 0 {
      score := 0;
    }
  }

  /** No findings at all gives the full 100. */
  lemma SecurityScoreClean()
    ensures SecurityScore(SecurityMetrics(0, 0, 0, 0)) == 100
  {
  }

  /** More findings of any kind never raise the security score. */
  lemma SecurityScoreMonotone(s: SecurityMetrics, t: SecurityMetrics)
    requires s.outdatedPlugins <= t.outdatedPlugins
    requires s.criticalVulnerabilities <= t.criticalVulnerabilities
    requires s.userAccountsAdmin <= t.userAccountsAdmin
    requires s.missingAuthSettings <= t.missingAuthSettings
    ensures SecurityScore(t) <= SecurityScore(s)
  {
  }

  /** The first admin account is free. */
  lemma FirstAdminFree(s: SecurityMetrics)
    requires 0 <= s.userAccountsAdmin <= 1
    ensures SecurityScore(s) == SecurityScore(s.(userAccountsAdmin := 0))
  {
  }

  /** Each admin account beyond the first costs 5 points, until the floor at 0. */
  lemma ExtraAdminCosts5(s: SecurityMetrics)
    requires s.userAccountsAdmin >= 1
    ensures SecurityScore(s.(userAccountsAdmin := s.userAccountsAdmin + 1))
            == if SecurityScore(s) >= 5 then SecurityScore(s) - 5 else 0
  {
  }

  // ---------------------------------------------------------------------
  // Final score
  // ---------------------------------------------------------------------

  /** `round(health * 0.6 + security * 0.4, 2)`. */
  function FinalScore(health: real, security: int): (r: real)
    ensures 0.0 <= health <= 100.0 && 0 <= security <= 100 ==> 0.0 <= r <= 100.0
    ensures IsHundredths(r)
  {
    var x := health * 0.6 + security as real * 0.4;
    if 0.0 <= x <= 100.0 then
      Round2KeepsScoreRange(x);
      Round2(x)
    else
      Round2(x)
  }

  /** The final score lies between its two inputs, up to rounding. */
  lemma FinalScoreBetween(health: real, security: int)
    ensures var lo := if health <= security as real then health else security as real;
            var hi := if health <= security as real then security as real else health;
            lo - 0.005 <= FinalScore(health, security) <= hi + 0.005
  {
  }

  /** A better health or security score never lowers the final score. */
  lemma FinalScoreMonotone(h: real, s: int, h': real, s': int)
    requires h <= h' && s <= s'
    ensures FinalScore(h, s) <= FinalScore(h', s')
  {
    Round2Monotone(h * 0.6 + s as real * 0.4, h' * 0.6 + s' as real * 0.4);
  }
}
