/**
 * The security collector: the security-posture counters. The repository
 * does not scan anything; it returns a fixed set of findings.
 */
module SecurityCollector {

  /** The security metrics record, one field per key of the mapping. */
  datatype SecurityMetrics = SecurityMetrics(
    outdatedPlugins: int,
    criticalVulnerabilities: int,
    userAccountsAdmin: int,
    missingAuthSettings: int)

  /** Every counter is a count, hence non-negative. */
  predicate Counts(s: SecurityMetrics) {
    s.outdatedPlugins >= 0 && s.criticalVulnerabilities >= 0 &&
    s.userAccountsAdmin >= 0 && s.missingAuthSettings >= 0
  }

  /** `get_security_metrics`: the hard-coded findings. */
  function GetSecurityMetrics(): (s: SecurityMetrics)
    ensures Counts(s)
  {
    SecurityMetrics(outdatedPlugins := 2, criticalVulnerabilities := 1,
                    userAccountsAdmin := 3, missingAuthSettings := 0)
  }
}
