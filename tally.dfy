/**
 * The counters above both admin tables: the list length and the number of
 * entries with each of the three review statuses.
 */
module Tally {
  import opened Seqs

  datatype StatusCounts = StatusCounts(total: nat, pending: nat, approved: nat, rejected: nat)

  /** `app => app.status === status`, for a record type whose status `statusOf` reads. */
  function StatusEquals<T>(statusOf: T -> string, status: string): T -> bool {
    x => statusOf(x) == status
  }

  /** The counter for one status is the number of positions holding an entry with that status. */
  lemma CountStatus<T>(s: seq<T>, statusOf: T -> string, status: string)
    ensures Count(s, StatusEquals(statusOf, status)) == |set i | 0 <= i < |s| && statusOf(s[i]) == status|
  {
    CountIsPassingPositions(s, StatusEquals(statusOf, status));
    assert PassingPositions(s, StatusEquals(statusOf, status)) == set i | 0 <= i < |s| && statusOf(s[i]) == status;
  }

  /**
   * `getStatusCounts`: `total` is the list length and each other counter is
   * `filter(app => app.status === s).length`, the number of positions holding
   * an entry with status `s`; three distinct statuses never count one entry
   * twice, so together they stay within the total.
   */
  function StatusTally<T>(s: seq<T>, statusOf: T -> string, pending: string, approved: string, rejected: string): (c: StatusCounts)
    requires pending != approved && pending != rejected && approved != rejected
    ensures c.total == |s|
    ensures c.pending == |set i | 0 <= i < |s| && statusOf(s[i]) == pending|
    ensures c.approved == |set i | 0 <= i < |s| && statusOf(s[i]) == approved|
    ensures c.rejected == |set i | 0 <= i < |s| && statusOf(s[i]) == rejected|
    ensures c.pending + c.approved + c.rejected <= c.total
  {
    CountStatus(s, statusOf, pending);
    CountStatus(s, statusOf, approved);
    CountStatus(s, statusOf, rejected);
    DisjointCountsBounded(s, StatusEquals(statusOf, pending), StatusEquals(statusOf, approved), StatusEquals(statusOf, rejected));
    StatusCounts(|s|, Count(s, StatusEquals(statusOf, pending)), Count(s, StatusEquals(statusOf, approved)),
                 Count(s, StatusEquals(statusOf, rejected)))
  }
}
