/** The client dashboard: the stat cards computed from the API keys, the recent workflow
    history and the organization's quota, the quota bar and warning, and the effect that
    opens the welcome wizard. The three supabase queries are inputs (`None` where the
    query returned no data). */
module ClientDashboard {
  import opened Base
  import Lists
  import Onboarding

  /** A `user_workflow_history` row. */
  datatype Workflow = Workflow(id: string, status: string)

  /** The organization's `quota_minutes` and `used_minutes`. */
  datatype OrgQuota = OrgQuota(quotaMinutes: Option<int>, usedMinutes: Option<int>)

  datatype ClientStats = ClientStats(apiKeysCount: nat, workflowsRun: nat, minutesUsed: int, quotaMinutes: int, successRate: int)

  /** The cards before the fetch completes. */
  const InitialStats: ClientStats := ClientStats(0, 0, 0, 100, 0)

  predicate IsCompleted(w: Workflow)
  {
    w.status == "completed"
  }

  /** The cards once the queries answer: active keys counted (0 without data), quota 100
      and usage 0 when the organization has none, and the rounded share of completed
      workflows, 0 without workflows. A quota of 0 also falls back to 100, so the quota is
      never 0. */
  function StatsOf(apiKeys: Option<seq<string>>, workflows: Option<seq<Workflow>>, org: Option<OrgQuota>): (s: ClientStats)
    ensures s.apiKeysCount == (if apiKeys.Some? then |apiKeys.value| else 0)
    ensures s.workflowsRun == |workflows.GetOr([])|
    ensures org.None? ==> s.quotaMinutes == 100 && s.minutesUsed == 0
    ensures org.Some? ==>
      s.minutesUsed == OrInt(org.value.usedMinutes, 0) && s.quotaMinutes == OrInt(org.value.quotaMinutes, 100)
    ensures s.quotaMinutes != 0
    ensures s.workflowsRun == 0 ==> s.successRate == 0
    ensures s.workflowsRun > 0 ==>
      var done := Lists.Count(workflows.value, IsCompleted);
      2 * s.workflowsRun * s.successRate <= 200 * done + s.workflowsRun < 2 * s.workflowsRun * (s.successRate + 1)
  {
    var ws := workflows.GetOr([]);
    var quota := if org.Some? then org.value.quotaMinutes else None;
    var used := if org.Some? then org.value.usedMinutes else None;
    ClientStats(
      if apiKeys.Some? then |apiKeys.value| else 0,
      |ws|,
      OrInt(used, 0),
      OrInt(quota, 100),
      if |ws| > 0 then RoundPercent(Lists.Count(ws, IsCompleted), |ws|) else 0)
  }

  /** The success rate card is a percentage: between 0 and 100. */
  lemma SuccessRateBounds(apiKeys: Option<seq<string>>, workflows: Option<seq<Workflow>>, org: Option<OrgQuota>)
    ensures 0 <= StatsOf(apiKeys, workflows, org).successRate <= 100
  {
    var ws := workflows.GetOr([]);
    if |ws| > 0 {
      RoundPercentBounds(Lists.Count(ws, IsCompleted), |ws|);
    }
  }

  /** `minutesUsed / quotaMinutes * 100`. */
  function QuotaPercentage(s: ClientStats): real
    requires s.quotaMinutes != 0
  {
    s.minutesUsed as real / s.quotaMinutes as real * 100.0
  }

  datatype BarColour = Red | Yellow | Green

  /** Above 90 red, above 70 yellow, else green. */
  function BarColourOf(pct: real): (c: BarColour)
    ensures c == Red <==> pct > 90.0
    ensures c == Yellow <==> 70.0 < pct <= 90.0
    ensures c == Green <==> pct <= 70.0
  {
    if pct > 90.0 then Red else if pct > 70.0 then Yellow else Green
  }

  /** `Math.min(quotaPercentage, 100)`. */
  function BarWidth(pct: real): (w: real)
    ensures w <= 100.0 && (w == pct || w == 100.0)
    ensures pct <= 100.0 ==> w == pct
  {
    if pct < 100.0 then pct else 100.0
  }

  /** The quota warning shows above 80 percent. */
  predicate ShowsQuotaWarning(pct: real)
  {
    pct > 80.0
  }

  /** On a positive quota the thresholds read on whole minutes: red beyond nine tenths of
      the quota, the warning beyond four fifths, green up to seven tenths; a red bar
      always comes with the warning, a green one never does. */
  lemma QuotaThresholds(s: ClientStats)
    requires s.quotaMinutes > 0
    ensures BarColourOf(QuotaPercentage(s)) == Red <==> 10 * s.minutesUsed > 9 * s.quotaMinutes
    ensures ShowsQuotaWarning(QuotaPercentage(s)) <==> 5 * s.minutesUsed > 4 * s.quotaMinutes
    ensures BarColourOf(QuotaPercentage(s)) == Green <==> 10 * s.minutesUsed <= 7 * s.quotaMinutes
    ensures BarColourOf(QuotaPercentage(s)) == Red ==> ShowsQuotaWarning(QuotaPercentage(s))
    ensures BarColourOf(QuotaPercentage(s)) == Green ==> !ShowsQuotaWarning(QuotaPercentage(s))
  {
    var u := s.minutesUsed as real;
    var q := s.quotaMinutes as real;
    var pct := QuotaPercentage(s);
    assert pct * q == 100.0 * u;
    ScaledCompare(pct, q, 100.0 * u, 90.0);
    ScaledCompare(pct, q, 100.0 * u, 80.0);
    ScaledCompare(pct, q, 100.0 * u, 70.0);
    assert 10 * s.minutesUsed > 9 * s.quotaMinutes <==> 100.0 * u > 90.0 * q;
    assert 5 * s.minutesUsed > 4 * s.quotaMinutes <==> 100.0 * u > 80.0 * q;
    assert 10 * s.minutesUsed <= 7 * s.quotaMinutes <==> 100.0 * u <= 70.0 * q;
  }

  /** Comparing a ratio `p` with `t` is comparing `p * q` with `t * q` for positive `q`. */
  lemma ScaledCompare(p: real, q: real, m: real, t: real)
    requires q > 0.0 && p * q == m
    ensures p > t <==> m > t * q
  {
    if p > t {
      assert m - t * q == (p - t) * q;
      assert (p - t) * q > 0.0;
    } else {
      assert t * q - m == (t - p) * q;
      assert (t - p) * q >= 0.0;
    }
  }

  /** The wizard effect: it opens the wizard for a record that is neither completed nor
      skipped, and never closes it. */
  function ShowWizardAfter(showing: bool, onboarding: Option<Onboarding.UserOnboarding>): (show: bool)
    ensures showing ==> show
    ensures onboarding.None? ==> show == showing
  {
    if onboarding.Some? && !onboarding.value.isCompleted && !onboarding.value.skipped then true else showing
  }

  /** A freshly started onboarding opens the wizard; a skipped one does not. */
  lemma WizardOnStartAndSkip(userId: string, now: string, prev: Onboarding.UserOnboarding)
    ensures ShowWizardAfter(false, Some(Onboarding.StartOnboarding(userId, now)))
    ensures !ShowWizardAfter(false, Onboarding.SkipOnboarding(Some(prev), now))
  {
  }
}
