/**
 * A row of the team usage table as both dashboards read it, and the sum of
 * requests both compute with `reduce((sum, u) => sum + (u.requests || 0), 0)`.
 */
module UsageRows {
  import opened Wrappers

  /**
   * One usage row. `requests` and `service` may be missing (null); the CO2
   * column is a decimal string and is not part of this model.
   */
  datatype Row = Row(teamId: string, requests: Option<nat>, service: Option<string>, recordedAt: string)

  /** `u.requests || 0`: a missing count reads as 0. */
  function Requests(u: Row): nat {
    u.requests.GetOr(0)
  }

  /** The left fold over the rows, in the order `reduce` visits them. */
  function SumRequests(rows: seq<Row>): nat
    decreases |rows|
  {
    if rows == [] then 0 else SumRequests(rows[..|rows| - 1]) + Requests(rows[|rows| - 1])
  }

  /** The sum splits over concatenation, so the order of the fold does not matter. */
  lemma {:induction false} SumRequestsAppend(a: seq<Row>, b: seq<Row>)
    ensures SumRequests(a + b) == SumRequests(a) + SumRequests(b)
    decreases |b|
  {
    if b == [] {
      assert a + b == a;
    } else {
      var last := b[|b| - 1];
      assert (a + b)[..|a + b| - 1] == a + b[..|b| - 1];
      assert (a + b)[|a + b| - 1] == last;
      SumRequestsAppend(a, b[..|b| - 1]);
    }
  }
}
