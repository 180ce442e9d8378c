/**
 * The health collector: nine independent queries against the metrics
 * backend, each subject to the fail-to-zero policy, assembled into one
 * record; the total number of builds is derived, not queried.
 *
 * The backend is a parameter: a function from the query issued to the
 * decoded answer it returns. The query expressions themselves are named by
 * what they ask for rather than spelled out.
 */
module HealthCollector {
  import opened MetricsClient

  /** The outcome of a job's last build, with the result code the backend reports. */
  datatype BuildResult = Success | Failure | Unstable | Aborted {
    function Code(): (c: nat)
      ensures c <= 3
    {
      match this
      case Success => 0
      case Failure => 1
      case Unstable => 2
      case Aborted => 3
    }
  }

  /** The nine queries the collector issues. */
  datatype MetricQuery =
    | JobsWithLastResult(result: BuildResult)  // count of jobs whose last build reported result.Code()
    | ExecutorsBusy
    | ExecutorsDefined
    | QueueLength
    | JvmMemoryUsed
    | JvmMemoryMax

  /** The health metrics record, one field per key of the collected mapping. */
  datatype HealthMetrics = HealthMetrics(
    successfulBuilds: real,
    failedBuilds: real,
    unstableBuilds: real,
    abortedBuilds: real,
    totalBuilds: real,
    executorBusy: real,
    executorTotal: real,
    queueSize: real,
    memoryUsed: real,
    memoryMax: real)

  /** The derived field agrees with the four outcome counts. */
  predicate BuildsTotalled(m: HealthMetrics) {
    m.totalBuilds == m.successfulBuilds + m.failedBuilds + m.unstableBuilds + m.abortedBuilds
  }

  /** Every queried field of `m` is what the backend's answer to its query reduces to. */
  predicate Collected(backend: MetricQuery -> Response, m: HealthMetrics) {
    && m.successfulBuilds == QueryValue(backend(JobsWithLastResult(Success)))
    && m.failedBuilds == QueryValue(backend(JobsWithLastResult(Failure)))
    && m.unstableBuilds == QueryValue(backend(JobsWithLastResult(Unstable)))
    && m.abortedBuilds == QueryValue(backend(JobsWithLastResult(Aborted)))
    && m.executorBusy == QueryValue(backend(ExecutorsBusy))
    && m.executorTotal == QueryValue(backend(ExecutorsDefined))
    && m.queueSize == QueryValue(backend(QueueLength))
    && m.memoryUsed == QueryValue(backend(JvmMemoryUsed))
    && m.memoryMax == QueryValue(backend(JvmMemoryMax))
  }

  /** `get_health_metrics`: one query per field, then the derived total. */
  method GetHealthMetrics(backend: MetricQuery -> Response) returns (m: HealthMetrics)
    ensures Collected(backend, m)
    ensures BuildsTotalled(m)
  {
    var successful := PromQuery(backend(JobsWithLastResult(Success)));
    var failed := PromQuery(backend(JobsWithLastResult(Failure)));
    var unstable := PromQuery(backend(JobsWithLastResult(Unstable)));
    var aborted := PromQuery(backend(JobsWithLastResult(Aborted)));
    var total := successful + failed + unstable + aborted;
    var busy := PromQuery(backend(ExecutorsBusy));
    var executors := PromQuery(backend(ExecutorsDefined));
    var queue := PromQuery(backend(QueueLength));
    var used := PromQuery(backend(JvmMemoryUsed));
    var max := PromQuery(backend(JvmMemoryMax));
    m := HealthMetrics(successful, failed, unstable, aborted, total, busy, executors, queue, used, max);
  }

  /** A query that fails leaves its field at 0 and the other fields as collected. */
  lemma FailedQueryReadsZero(backend: MetricQuery -> Response, m: HealthMetrics, q: MetricQuery)
    requires Collected(backend, m)
    requires !Usable(backend(q))
    ensures q == JobsWithLastResult(Success) ==> m.successfulBuilds == 0.0
    ensures q == JobsWithLastResult(Failure) ==> m.failedBuilds == 0.0
    ensures q == JobsWithLastResult(Unstable) ==> m.unstableBuilds == 0.0
    ensures q == JobsWithLastResult(Aborted) ==> m.abortedBuilds == 0.0
    ensures q == ExecutorsBusy ==> m.executorBusy == 0.0
    ensures q == ExecutorsDefined ==> m.executorTotal == 0.0
    ensures q == QueueLength ==> m.queueSize == 0.0
    ensures q == JvmMemoryUsed ==> m.memoryUsed == 0.0
    ensures q == JvmMemoryMax ==> m.memoryMax == 0.0
  {
  }

  /** The record every field of which is the fallback 0. */
  const AllZero := HealthMetrics(0.0, 0.0, 0.0, 0.0, 0.0, 0.0, 0.0, 0.0, 0.0, 0.0)

  /** With the backend unreachable for every query, the collected record is all zeros. */
  lemma BackendDownCollectsZeros(backend: MetricQuery -> Response, m: HealthMetrics)
    requires forall q :: backend(q) == Failed
    requires Collected(backend, m) && BuildsTotalled(m)
    ensures m == AllZero
  {
  }
}
