/**
 * The analytics cards (components/Analytics.tsx): the total and the four
 * per-status counts over the cached jobs, and the acceptance rate's guard.
 */
module Analytics {
  import opened JobStore
  import opened Board

  /** `jobs.filter(j => j.status === status).length`. */
  function CountStatus(jobs: seq<Job>, status: string): (n: nat)
    ensures n <= |jobs|
  {
    if jobs == [] then 0
    else (if jobs[0].status == status then 1 else 0) + CountStatus(jobs[1..], status)
  }

  /** The acceptance rate before it is turned into a percentage string: the
      literal 0 when there are no jobs, else the ratio accepted / total. */
  datatype Rate = Zero | Ratio(accepted: nat, total: nat)

  /** The numbers the cards show. */
  datatype Summary = Summary(
    totalJobs: nat,
    acceptedJobs: nat,
    inProgressJobs: nat,
    appliedJobs: nat,
    rejectedJobs: nat,
    acceptanceRate: Rate)

  function Summarize(jobs: seq<Job>): (s: Summary)
    ensures s.totalJobs == |jobs|
    ensures s.acceptedJobs == |WithStatus(jobs, Accepted)|
    ensures s.inProgressJobs == |WithStatus(jobs, InProgress)|
    ensures s.appliedJobs == |WithStatus(jobs, Applied)|
    ensures s.rejectedJobs == |WithStatus(jobs, Rejected)|
    ensures s.acceptanceRate == Zero <==> s.totalJobs == 0
    ensures s.acceptanceRate.Ratio? ==>
      s.acceptanceRate.accepted == s.acceptedJobs && s.acceptanceRate.total == s.totalJobs
  {
    CountIsBucketSize(jobs, Accepted);
    CountIsBucketSize(jobs, InProgress);
    CountIsBucketSize(jobs, Applied);
    CountIsBucketSize(jobs, Rejected);
    var total := |jobs|;
    var accepted := CountStatus(jobs, Accepted);
    Summary(total, accepted, CountStatus(jobs, InProgress), CountStatus(jobs, Applied),
            CountStatus(jobs, Rejected), if total > 0 then Ratio(accepted, total) else Zero)
  }

  /** Each count is the size of the board bucket of the same status. */
  lemma {:induction false} CountIsBucketSize(jobs: seq<Job>, status: string)
    ensures CountStatus(jobs, status) == |WithStatus(jobs, status)|
  {
    if jobs != [] {
      CountIsBucketSize(jobs[1..], status);
      assert jobs == [jobs[0]] + jobs[1..];
      WithStatusAppend([jobs[0]], jobs[1..], status);
      assert WithStatus([jobs[0]], status) == WithStatus([], status) + (if jobs[0].status == status then [jobs[0]] else []);
    }
  }

  /** The Accepted card equals the size of the board's Accepted column. */
  lemma AcceptedMatchesBoard(jobs: seq<Job>)
    ensures Summarize(jobs).acceptedJobs == |WithStatus(jobs, Accepted)|
  {
  }

  /** When every status is one of the four, the four counts add up to the
      total. */
  lemma {:induction false} CountsSumToTotal(jobs: seq<Job>)
    requires forall i :: 0 <= i < |jobs| ==> IsJobStatus(jobs[i].status)
    ensures var s := Summarize(jobs);
      s.acceptedJobs + s.inProgressJobs + s.appliedJobs + s.rejectedJobs == s.totalJobs
  {
    if jobs != [] {
      CountsSumToTotal(jobs[1..]);
    }
  }
}
