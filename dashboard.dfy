/** The administrator dashboard: the four stat cards and the recent-jobs table computed
    from the `/models`, `/datasets` and `/jobs` answers. A request that fails is caught
    as an empty list, and so is an answer that is not an array. */
module Dashboard {
  import opened Base
  import Lists

  /** A job as `/jobs` lists it; an element of the array may be null (`None`). */
  datatype JobRow = JobRow(id: string, status: string)

  /** An answer of a list endpoint: `Some` array, or `None` for a failed request or a
      body that is not an array. */
  type ListAnswer<T> = Option<seq<T>>

  /** `Array.isArray(res.data) ? res.data : []`. */
  function ListOf<T>(answer: ListAnswer<T>): (xs: seq<T>)
    ensures answer.None? ==> xs == []
    ensures answer.Some? ==> xs == answer.value
  {
    answer.GetOr([])
  }

  datatype Stats = Stats(totalModels: nat, totalDatasets: nat, activeJobs: nat, successRate: int)

  /** The cards after an unexpected error. */
  const FallbackStats: Stats := Stats(5, 4, 2, 85)

  predicate IsActive(j: Option<JobRow>)
  {
    j.Some? && (j.value.status == "running" || j.value.status == "pending")
  }

  predicate IsCompleted(j: Option<JobRow>)
  {
    j.Some? && j.value.status == "completed"
  }

  /** `Math.round(completed / total * 100)`, and 0 without jobs. */
  function SuccessRate(jobs: seq<Option<JobRow>>): (rate: int)
    ensures |jobs| == 0 ==> rate == 0
    ensures |jobs| > 0 ==>
      2 * |jobs| * rate <= 200 * Lists.Count(jobs, IsCompleted) + |jobs| < 2 * |jobs| * (rate + 1)
  {
    if |jobs| > 0 then RoundPercent(Lists.Count(jobs, IsCompleted), |jobs|) else 0
  }

  /** The success rate is a percentage: between 0 and 100. */
  lemma SuccessRateBounds(jobs: seq<Option<JobRow>>)
    ensures 0 <= SuccessRate(jobs) <= 100
  {
    if |jobs| > 0 {
      RoundPercentBounds(Lists.Count(jobs, IsCompleted), |jobs|);
    }
  }

  /** No job is both active and completed, so the two counts together stay within the list. */
  lemma {:induction false} ActiveAndCompletedDisjoint(jobs: seq<Option<JobRow>>)
    ensures Lists.Count(jobs, IsActive) + Lists.Count(jobs, IsCompleted) <= |jobs|
  {
    if jobs != [] {
      ActiveAndCompletedDisjoint(jobs[1..]);
    }
  }

  /** What the fetch leaves behind: the cards and the recent jobs. */
  datatype Loaded = Loaded(stats: Stats, recentJobs: seq<Option<JobRow>>)

  /** `fetchDashboardData` once the three answers are in. Reading `status` of a null job
      throws, which the catch turns into the fallback cards and no recent jobs. */
  function FetchDashboard(models: ListAnswer<string>, datasets: ListAnswer<string>,
                          jobs: ListAnswer<Option<JobRow>>): (r: Loaded)
    ensures (exists i :: 0 <= i < |ListOf(jobs)| && ListOf(jobs)[i].None?) ==>
      r == Loaded(FallbackStats, [])
    ensures (forall i :: 0 <= i < |ListOf(jobs)| ==> ListOf(jobs)[i].Some?) ==>
      && r.stats.totalModels == |ListOf(models)|
      && r.stats.totalDatasets == |ListOf(datasets)|
      && r.stats.activeJobs == Lists.Count(ListOf(jobs), IsActive)
      && r.stats.successRate == SuccessRate(ListOf(jobs))
      && r.recentJobs == Lists.Take(ListOf(jobs), 5)
  {
    var js := ListOf(jobs);
    if exists i :: 0 <= i < |js| && js[i].None? then Loaded(FallbackStats, [])
    else
      Loaded(Stats(|ListOf(models)|, |ListOf(datasets)|, Lists.Count(js, IsActive), SuccessRate(js)),
             Lists.Take(js, 5))
  }

  /** The recent-jobs table shows the first five jobs in order, all of them when there
      are five or fewer; the active count never exceeds the job count. */
  lemma RecentJobsPrefix(models: ListAnswer<string>, datasets: ListAnswer<string>, jobs: ListAnswer<Option<JobRow>>)
    requires forall i :: 0 <= i < |ListOf(jobs)| ==> ListOf(jobs)[i].Some?
    ensures var r := FetchDashboard(models, datasets, jobs);
      && |r.recentJobs| == (if |ListOf(jobs)| < 5 then |ListOf(jobs)| else 5)
      && (forall k :: 0 <= k < |r.recentJobs| ==> r.recentJobs[k] == ListOf(jobs)[k])
      && r.stats.activeJobs <= |ListOf(jobs)|
      && 0 <= r.stats.successRate <= 100
  {
    SuccessRateBounds(ListOf(jobs));
  }
}
