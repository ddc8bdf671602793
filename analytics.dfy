/** The analytics page: sign and tier classifiers used by the template, and
    the views the page derives from the six resolved server responses (the
    last two weeks of trends, the chart scale, and the top-five lists). */
module Analytics {
  import opened Collections

  // ---------------------------------------------------------------------------
  // Server responses, stored as received

  datatype AllTimeStats = AllTimeStats(
    totalGigs: int, verifiedGigs: int, verificationRate: real,
    totalEarnings: real, uniqueOrgs: int, creditScore: real)

  datatype PeriodStats = PeriodStats(totalGigs: int, verifiedGigs: int, totalEarnings: real)

  datatype TopPerformers = TopPerformers(
    topOrganization: string, topOrganizationGigs: int, topOrganizationEarnings: real,
    topJobType: string, topJobTypeGigs: int, topJobTypeEarnings: real)

  datatype SummaryStats = SummaryStats(
    allTime: AllTimeStats, last7Days: PeriodStats, last30Days: PeriodStats, topPerformers: TopPerformers)

  datatype WorkTrend = WorkTrend(
    period: string, totalGigs: int, verifiedGigs: int, totalEarnings: real, verificationRate: real)

  datatype OrganizationPerformance = OrganizationPerformance(
    organizationId: int, organizationName: string, totalGigs: int,
    verifiedGigs: int, verificationRate: real, totalEarnings: real)

  datatype JobTypeAnalytics = JobTypeAnalytics(
    jobType: string, totalGigs: int, verifiedGigs: int, totalEarnings: real, verificationRate: real)

  datatype RecentTrend = RecentTrend(last7DaysChange: real, numChanges: int)

  /** The credit-score response; its untyped `score_history` is not read by the page. */
  datatype CreditScoreData = CreditScoreData(currentScore: real, recentTrend: RecentTrend)

  datatype PeriodTotals = PeriodTotals(totalGigs: int, verifiedGigs: int, totalEarnings: real, uniqueOrgs: int)

  datatype Changes = Changes(gigsChange: real, verifiedChange: real, earningsChange: real, orgsChange: real)

  datatype ComparativeData = ComparativeData(currentPeriod: PeriodTotals, previousPeriod: PeriodTotals, changes: Changes)

  /** The work-trends response, whose `trends` array may be missing. */
  datatype TrendsResponse = TrendsResponse(trends: Option<seq<WorkTrend>>)

  /** What the joined request delivers when all six calls succeed. */
  datatype AnalyticsResults = AnalyticsResults(
    summary: SummaryStats,
    trends: TrendsResponse,
    organizations: seq<OrganizationPerformance>,
    jobTypes: seq<JobTypeAnalytics>,
    creditScore: CreditScoreData,
    comparative: ComparativeData)

  // ---------------------------------------------------------------------------
  // Classifiers

  /** `getChangeClass`: the CSS class of a change, by its sign. */
  function ChangeClass(change: real): (r: string)
    ensures r == "positive" <==> change > 0.0
    ensures r == "negative" <==> change < 0.0
    ensures r == "neutral" <==> change == 0.0
  {
    if change > 0.0 then "positive"
    else if change < 0.0 then "negative"
    else "neutral"
  }

  /** `getChangeIcon`: the icon of a change, by its sign. */
  function ChangeIcon(change: real): (r: string)
    ensures r == "trending_up" <==> change > 0.0
    ensures r == "trending_down" <==> change < 0.0
    ensures r == "trending_flat" <==> change == 0.0
  {
    if change > 0.0 then "trending_up"
    else if change < 0.0 then "trending_down"
    else "trending_flat"
  }

  /** The icon that belongs with each class. */
  function IconOfClass(c: string): string
  {
    if c == "positive" then "trending_up"
    else if c == "negative" then "trending_down"
    else "trending_flat"
  }

  /** The icon and the class of a change always describe the same sign, and
      each class has its own icon. */
  lemma IconAgreesWithClass(change: real, other: real)
    ensures ChangeIcon(change) == IconOfClass(ChangeClass(change))
    ensures ChangeClass(change) == ChangeClass(other) <==> ChangeIcon(change) == ChangeIcon(other)
  {
  }

  /** `getCreditScoreClass`: the tier of a score, with thresholds 70 and 40. */
  function CreditScoreClass(score: real): (r: string)
    ensures r == "excellent" <==> score >= 70.0
    ensures r == "good" <==> 40.0 <= score < 70.0
    ensures r == "needs-improvement" <==> score < 40.0
  {
    if score >= 70.0 then "excellent"
    else if score >= 40.0 then "good"
    else "needs-improvement"
  }

  /** The order of the tiers, lowest first. */
  function TierRank(tier: string): nat
  {
    if tier == "excellent" then 2 else if tier == "good" then 1 else 0
  }

  /** A higher score never lands in a lower tier. */
  lemma CreditScoreClassMonotone(a: real, b: real)
    requires a <= b
    ensures TierRank(CreditScoreClass(a)) <= TierRank(CreditScoreClass(b))
  {
  }

  // ---------------------------------------------------------------------------
  // Derived views

  /** `results.trends.trends || []`. */
  function TrendList(response: TrendsResponse): (r: seq<WorkTrend>)
    ensures response.trends.None? ==> r == []
    ensures response.trends.Some? ==> r == response.trends.value
  {
    match response.trends
    case None => []
    case Some(ts) => ts
  }

  /** `trends.slice(-14)`: the last fourteen trends, or all of them when there
      are fewer, in their original order. */
  function LastTrends(trends: seq<WorkTrend>): (w: seq<WorkTrend>)
    ensures |w| == Min(14, |trends|)
    ensures trends == trends[..|trends| - |w|] + w
  {
    SliceFromEndIsSuffix(trends, 14);
    JsSlice(trends, -14, |trends|)
  }

  /** `Math.max(...trends.map(t => t.total_gigs), 1)`: the largest gig count
      over every trend, not only the displayed ones, and never below 1. */
  function MaxTotalGigs(trends: seq<WorkTrend>): (m: int)
    ensures m >= 1
    ensures forall i :: 0 <= i < |trends| ==> trends[i].totalGigs <= m
    ensures m == 1 || exists i :: 0 <= i < |trends| && trends[i].totalGigs == m
  {
    if trends == [] then 1
    else
      var rest := MaxTotalGigs(trends[1..]);
      assert forall i :: 1 <= i < |trends| ==> trends[i] == trends[1..][i - 1];
      if trends[0].totalGigs > rest then trends[0].totalGigs else rest
  }

  /** `slice(0, 5)`: the first five entries, or all of them when there are
      fewer, in server order. */
  function TopFive<T>(entries: seq<T>): (top: seq<T>)
    ensures |top| == Min(5, |entries|)
    ensures entries == top + entries[|top|..]
  {
    SliceFromStartIsPrefix(entries, 5);
    JsSlice(entries, 0, 5)
  }

  /** Every bar of the trend chart fits under the chart's scale. */
  lemma TrendWindowWithinScale(trends: seq<WorkTrend>)
    ensures forall t :: t in LastTrends(trends) ==> 1 <= MaxTotalGigs(trends) && t.totalGigs <= MaxTotalGigs(trends)
  {
    var w := LastTrends(trends);
    forall t | t in w
      ensures t.totalGigs <= MaxTotalGigs(trends)
    {
      assert t in trends by {
        assert trends == trends[..|trends| - |w|] + w;
      }
    }
  }

  // ---------------------------------------------------------------------------
  // The component

  class AnalyticsPage {
    var isLoading: bool
    var summaryStats: Option<SummaryStats>
    var workTrends: seq<WorkTrend>
    var maxTrendValue: int
    var topOrganizations: seq<OrganizationPerformance>
    var topJobTypes: seq<JobTypeAnalytics>
    var creditScoreData: Option<CreditScoreData>
    var comparativeData: Option<ComparativeData>

    constructor ()
      ensures isLoading
      ensures summaryStats == None && creditScoreData == None && comparativeData == None
      ensures workTrends == [] && maxTrendValue == 0 && topOrganizations == [] && topJobTypes == []
    {
      isLoading := true;
      summaryStats, creditScoreData, comparativeData := None, None, None;
      workTrends, maxTrendValue, topOrganizations, topJobTypes := [], 0, [], [];
    }

    /** The trend chart's bars all fit under its scale. */
    ghost predicate ChartScaled()
      reads this
    {
      maxTrendValue >= 1 && forall t :: t in workTrends ==> t.totalGigs <= maxTrendValue
    }

    /** `loadAnalytics` up to the joined request: the page shows its spinner.
        The outcome arrives through `OnAnalyticsLoaded` or `OnAnalyticsFailed`. */
    method LoadAnalytics()
      modifies this`isLoading
      ensures isLoading
    {
      isLoading := true;
    }

    /** The success handler of the joined request. */
    method OnAnalyticsLoaded(results: AnalyticsResults)
      modifies this
      ensures summaryStats == Some(results.summary)
      ensures workTrends == LastTrends(TrendList(results.trends))
      ensures maxTrendValue == MaxTotalGigs(TrendList(results.trends))
      ensures topOrganizations == TopFive(results.organizations)
      ensures topJobTypes == TopFive(results.jobTypes)
      ensures creditScoreData == Some(results.creditScore)
      ensures comparativeData == Some(results.comparative)
      ensures !isLoading
      ensures ChartScaled()
    {
      summaryStats := Some(results.summary);

      var trends := TrendList(results.trends);
      workTrends := LastTrends(trends);

      maxTrendValue := MaxTotalGigs(trends);
      TrendWindowWithinScale(trends);

      topOrganizations := TopFive(results.organizations);
      topJobTypes := TopFive(results.jobTypes);
      creditScoreData := Some(results.creditScore);
      comparativeData := Some(results.comparative);
      isLoading := false;
    }

    /** The error handler of the joined request: the spinner stops, nothing
        already shown changes, and a 401 sends the user to the login page. */
    method OnAnalyticsFailed(status: int) returns (redirectToLogin: bool)
      modifies this`isLoading
      ensures !isLoading
      ensures redirectToLogin <==> status == 401
    {
      isLoading := false;
      redirectToLogin := status == 401;
    }
  }
}
