/** The candidate dashboard (app/candidate/dashboard/page.tsx): the upcoming-assessment
    filter, the first-four views of both lists, the three statistics and the two fetches. */
module CandidateDashboard {
  import opened Portal

  datatype Status = Upcoming | Completed

  datatype AssessmentItem = AssessmentItem(
    id: string, title: string, description: Option<string>, scheduledFor: Option<string>,
    durationMinutes: Option<int>, status: Status)

  datatype CandidateResult = CandidateResult(
    assessmentId: string, assessmentTitle: string, score: int, maxScore: int, gradedAt: string)

  /** Body of the `/api/candidate/assessments` reply. */
  datatype AssessmentsBody = AssessmentsBody(assessments: Option<seq<AssessmentItem>>)
  /** Body of the `/api/candidate/results` reply. */
  datatype ResultsBody = ResultsBody(results: Option<seq<CandidateResult>>)

  function HasStatus(s: Status): AssessmentItem -> bool {
    (a: AssessmentItem) => a.status == s
  }

  /** `upcomingAssessments.filter(a => a.status === 'upcoming')`. */
  function UpcomingOf(items: seq<AssessmentItem>): (r: seq<AssessmentItem>)
    ensures forall a :: a in r <==> a in items && a.status == Upcoming
    ensures forall a :: multiset(r)[a] == if a.status == Upcoming then multiset(items)[a] else 0
    ensures SubsequenceOf(r, items)
  {
    FilterMembers(items, HasStatus(Upcoming));
    FilterCounts(items, HasStatus(Upcoming));
    FilterKeepsOrder(items, HasStatus(Upcoming));
    Filter(items, HasStatus(Upcoming))
  }

  /** The visible upcoming list is a prefix of the upcoming items, at most four of them
      unless expanded, and never holds a completed assessment. */
  lemma VisibleUpcomingIsUpcomingPrefix(items: seq<AssessmentItem>, showAll: bool)
    ensures var up := UpcomingOf(items); var v := Visible(up, showAll);
            && v == up[..|v|]
            && |v| == (if showAll || |up| <= PageSize then |up| else PageSize)
            && forall a :: a in v ==> a in items && a.status != Completed
  {
    var up := UpcomingOf(items);
    var v := Visible(up, showAll);
    forall a | a in v ensures a in up {
      var k :| 0 <= k < |v| && v[k] == a;
      assert up[k] == a;
    }
  }

  /** The Upcoming and the (unshown) completed counts split the assigned list: every item
      has one of the two statuses, so the Upcoming stat counts exactly the upcoming ones. */
  lemma {:induction false} StatusesSplitItems(items: seq<AssessmentItem>)
    ensures |UpcomingOf(items)| + |Filter(items, HasStatus(Completed))| == |items|
    decreases |items|
  {
    if items != [] {
      StatusesSplitItems(items[1..]);
    }
  }

  /** `(r.score / r.max_score) * 100`, over idealised reals: the score as a share of
      one hundred, and a percentage whenever the score lies within its maximum. */
  function Percent(r: CandidateResult): (pct: real)
    requires r.maxScore > 0
    ensures pct * r.maxScore as real == r.score as real * 100.0
    ensures 0 <= r.score <= r.maxScore ==> 0.0 <= pct <= 100.0
  {
    var share := r.score as real / r.maxScore as real;
    assert share * r.maxScore as real == r.score as real;
    share * 100.0
  }

  predicate Scored(rs: seq<CandidateResult>) {
    forall i :: 0 <= i < |rs| ==> rs[i].maxScore > 0
  }

  /** The sum of the percentages, at most one hundred per result when every score lies
      within its maximum. */
  function TotalPercent(rs: seq<CandidateResult>): (total: real)
    requires Scored(rs)
    ensures (forall i :: 0 <= i < |rs| ==> 0 <= rs[i].score <= rs[i].maxScore) ==>
              0.0 <= total <= 100.0 * |rs| as real
    decreases |rs|
  {
    if rs == [] then 0.0 else Percent(rs[0]) + TotalPercent(rs[1..])
  }

  /** The Average Score stat: 0 without results, otherwise the rounded mean percentage. */
  function AverageScore(rs: seq<CandidateResult>): (avg: int)
    requires Scored(rs)
    ensures |rs| == 0 ==> avg == 0
    ensures |rs| > 0 ==> avg as real - 0.5 <= TotalPercent(rs) / |rs| as real < avg as real + 0.5
  {
    if |rs| > 0 then Round(TotalPercent(rs) / |rs| as real) else 0
  }

  /** With every score between zero and its maximum, the average is a percentage. */
  lemma AverageScoreIsPercentage(rs: seq<CandidateResult>)
    requires forall i :: 0 <= i < |rs| ==> 0 <= rs[i].score <= rs[i].maxScore && rs[i].maxScore > 0
    ensures 0 <= AverageScore(rs) <= 100
  {
    if |rs| > 0 {
      MeanIsPercentage(TotalPercent(rs), |rs| as real);
    }
  }

  /** A total between 0 and 100·n has a mean between 0 and 100. */
  lemma MeanIsPercentage(total: real, n: real)
    requires n > 0.0 && 0.0 <= total <= 100.0 * n
    ensures 0.0 <= total / n <= 100.0
  {
    var q := total / n;
    assert q * n == total;
    assert (100.0 - q) * n == 100.0 * n - total;
  }

  /** The list a `/api/candidate/assessments` reply carries. */
  function ItemsOf(body: AssessmentsBody): Option<seq<AssessmentItem>> {
    body.assessments
  }

  /** The list a `/api/candidate/results` reply carries. */
  function ResultsOf(body: ResultsBody): Option<seq<CandidateResult>> {
    body.results
  }

  class CandidateDashboardPage {
    var user: Option<Session>
    var upcomingAssessments: seq<AssessmentItem>
    var visibleUpcomingAssessments: seq<AssessmentItem>
    var showAllUpcoming: bool
    var pastResults: seq<CandidateResult>
    var visiblePastResults: seq<CandidateResult>
    var showAllResults: bool
    var loading: bool

    /** The two effects have run: the visible lists are the views of the current lists. */
    ghost predicate Valid()
      reads this
    {
      && visibleUpcomingAssessments == Visible(UpcomingOf(upcomingAssessments), showAllUpcoming)
      && visiblePastResults == Visible(pastResults, showAllResults)
    }

    constructor ()
      ensures Valid()
      ensures user == None && upcomingAssessments == [] && pastResults == []
      ensures !showAllUpcoming && !showAllResults && loading
    {
      user := None;
      upcomingAssessments := [];
      visibleUpcomingAssessments := [];
      showAllUpcoming := false;
      pastResults := [];
      visiblePastResults := [];
      showAllResults := false;
      loading := true;
    }

    /** The two `useEffect`s that recompute the visible lists. */
    method SyncVisible()
      modifies this`visibleUpcomingAssessments, this`visiblePastResults
      ensures Valid()
    {
      visibleUpcomingAssessments := Visible(UpcomingOf(upcomingAssessments), showAllUpcoming);
      visiblePastResults := Visible(pastResults, showAllResults);
    }

    /** The mount effect: only candidates stay, and their own id is what the fetches ask for. */
    method Mount(browser: Browser, assessments: Reply<AssessmentsBody>, results: Reply<ResultsBody>)
      returns (queried: Option<string>)
      requires Valid()
      modifies this`user, this`upcomingAssessments, this`pastResults, this`loading,
               this`visibleUpcomingAssessments, this`visiblePastResults, browser
      ensures Valid()
      ensures browser.session == old(browser.session) && browser.alerts == old(browser.alerts)
      ensures showAllUpcoming == old(showAllUpcoming) && showAllResults == old(showAllResults)
      ensures Guard(browser.session, RolesAt(CandidateDashboardPath)).Redirect? ==>
                && browser.pushed == old(browser.pushed) + [HomePath] && queried == None
                && user == old(user) && loading == old(loading)
                && upcomingAssessments == old(upcomingAssessments) && pastResults == old(pastResults)
      ensures Guard(browser.session, RolesAt(CandidateDashboardPath)).Render? ==>
                && browser.pushed == old(browser.pushed)
                && user == browser.session && queried == Some(browser.session.value.id)
                && upcomingAssessments == Fetched(assessments, ItemsOf, old(upcomingAssessments))
                && pastResults == (if Aborts(assessments) then old(pastResults)
                                   else Fetched(results, ResultsOf, old(pastResults)))
                && !loading
    {
      match Guard(browser.session, RolesAt(CandidateDashboardPath)) {
        case Redirect(path) =>
          browser.Push(path);
          queried := None;
        case Render(s) =>
          user := Some(s);
          queried := Some(s.id);
          FetchDashboardData(assessments, results);
      }
    }

    /** `fetchDashboardData`: each list is replaced only by its own ok reply; a throw while
        fetching the assessments skips the results fetch; loading ends in every case. */
    method FetchDashboardData(assessments: Reply<AssessmentsBody>, results: Reply<ResultsBody>)
      modifies this`upcomingAssessments, this`pastResults, this`loading,
               this`visibleUpcomingAssessments, this`visiblePastResults
      ensures Valid()
      ensures upcomingAssessments == Fetched(assessments, ItemsOf, old(upcomingAssessments))
      ensures pastResults == if Aborts(assessments) then old(pastResults)
                             else Fetched(results, ResultsOf, old(pastResults))
      ensures !loading
    {
      if Succeeded(assessments) {
        upcomingAssessments := match assessments.body.value.assessments
          case Some(items) => items
          case None => [];
      }
      if !Aborts(assessments) && Succeeded(results) {
        pastResults := match results.body.value.results
          case Some(rs) => rs
          case None => [];
      }
      loading := false;
      SyncVisible();
    }

    /** The upcoming list's View More / Show Less button. */
    method ToggleShowAllUpcoming()
      modifies this`showAllUpcoming, this`visibleUpcomingAssessments, this`visiblePastResults
      ensures Valid()
      ensures showAllUpcoming == !old(showAllUpcoming)
    {
      showAllUpcoming := !showAllUpcoming;
      SyncVisible();
    }

    /** The past results' View More / Show Less button. */
    method ToggleShowAllResults()
      modifies this`showAllResults, this`visibleUpcomingAssessments, this`visiblePastResults
      ensures Valid()
      ensures showAllResults == !old(showAllResults)
    {
      showAllResults := !showAllResults;
      SyncVisible();
    }
  }
}
