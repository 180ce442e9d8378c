/**
 * The metrics client: one query against the metrics backend, reduced to a
 * single number, with the "fail to zero" policy.
 *
 * The HTTP request and the JSON decoding are not modelled; the client is
 * handed the already-decoded answer. Every exception raised before the rows
 * are read (network error, timeout, a body that is not JSON, a missing
 * `status`, `data` or `result` key) is the single `Failed` answer.
 */
module MetricsClient {

  /** The number carried by one result row (`value[1]`), as `float()` reads it. */
  datatype SampleValue =
    | Number(x: real)
    | Malformed  // a string `float()` rejects, or a row without a value pair

  /** A decoded backend answer. */
  datatype Response =
    | Failed
    | Reply(status: string, result: seq<SampleValue>)

  predicate AllNumbers(rows: seq<SampleValue>) {
    forall i | 0 <= i < |rows| :: rows[i].Number?
  }

  /** The arithmetic sum of the row values, first row first. */
  function Total(rows: seq<SampleValue>): real
    requires AllNumbers(rows)
  {
    if rows == [] then 0.0 else rows[0].x + Total(rows[1..])
  }

  /** An answer the client turns into a number other than the fallback. */
  predicate Usable(resp: Response) {
    resp.Reply? && resp.status == "success" && |resp.result| > 0 && AllNumbers(resp.result)
  }

  /** The scalar a query yields: the sum of its rows, or 0 on any failure. */
  function QueryValue(resp: Response): real {
    if Usable(resp) then Total(resp.result) else 0.0
  }

  lemma {:induction false} TotalAppend(a: seq<SampleValue>, b: seq<SampleValue>)
    requires AllNumbers(a) && AllNumbers(b)
    ensures AllNumbers(a + b)
    ensures Total(a + b) == Total(a) + Total(b)
  {
    if a == [] {
      assert a + b == b;
    } else {
      assert (a + b)[1..] == a[1..] + b;
      TotalAppend(a[1..], b);
    }
  }

  lemma {:induction false} TotalNonNegative(rows: seq<SampleValue>)
    requires AllNumbers(rows)
    requires forall i | 0 <= i < |rows| :: rows[i].x >= 0.0
    ensures Total(rows) >= 0.0
  {
    if rows != [] {
      TotalNonNegative(rows[1..]);
    }
  }

  /**
   * Fail to zero: a transport failure, a status other than "success", an
   * empty result list or an unreadable row all give 0; otherwise the value is
   * the sum of the rows.
   */
  lemma FailToZero(resp: Response)
    ensures resp.Failed? ==> QueryValue(resp) == 0.0
    ensures resp.Reply? && resp.status != "success" ==> QueryValue(resp) == 0.0
    ensures resp.Reply? && resp.result == [] ==> QueryValue(resp) == 0.0
    ensures resp.Reply? && !AllNumbers(resp.result) ==> QueryValue(resp) == 0.0
    ensures Usable(resp) ==> QueryValue(resp) == Total(resp.result)
  {
  }

  /** A one-series answer (such as a `count(...)` query) yields that series' value. */
  lemma SingleSeries(x: real)
    ensures QueryValue(Reply("success", [Number(x)])) == x
  {
    assert Total([Number(x)][1..]) == 0.0;
  }

  /** When every reported value is non-negative, so is the query's value. */
  lemma QueryValueNonNegative(resp: Response)
    requires resp.Reply? ==> forall i | 0 <= i < |resp.result| :: resp.result[i].Number? ==> resp.result[i].x >= 0.0
    ensures QueryValue(resp) >= 0.0
  {
    if Usable(resp) {
      TotalNonNegative(resp.result);
    }
  }

  /**
   * `prom_query`: checks the status and the result list, then adds up the
   * rows one by one; an unreadable row aborts the loop and the fallback 0 is
   * returned instead of a partial sum.
   */
  method PromQuery(resp: Response) returns (total: real)
    ensures total == QueryValue(resp)
  {
    if resp.Failed? {
      return 0.0;
    }
    if resp.status == "success" && |resp.result| > 0 {
      var rows := resp.result;
      total := 0.0;
      var i := 0;
      while i < |rows|
        invariant 0 <= i <= |rows|
        invariant AllNumbers(rows[..i])
        invariant total == Total(rows[..i])
      {
        if rows[i].Malformed? {
          assert !AllNumbers(rows);
          return 0.0;
        }
        TotalAppend(rows[..i], [rows[i]]);
        assert rows[..i] + [rows[i]] == rows[..i + 1];
        assert Total([rows[i]]) == rows[i].x by {
          assert [rows[i]][1..] == [];
        }
        total := total + rows[i].x;
        i := i + 1;
      }
      assert rows[..i] == rows;
      return total;
    }
    return 0.0;
  }
}
