/** The examiner dashboard (app/examiner/dashboard/page.tsx): the fetch of the examiner's
    assessments with its statistics defaults, and the first-four view of the list. */
module ExaminerDashboard {
  import opened Portal

  datatype ExamItem = ExamItem(
    id: string, title: string, description: Option<string>, createdAt: string,
    assignedTo: seq<string>, questionsCount: int)

  /** Body of the `/examiner/assessments` reply. */
  datatype DashboardBody = DashboardBody(
    assessments: Option<seq<ExamItem>>, totalCandidates: Option<int>, avgScore: Option<real>)

  datatype Stats = Stats(totalAssessments: int, totalCandidates: int, avgScore: real)

  /** The three figures after an ok reply: the number of assessments sent (0 when the list
      is missing), and the backend's candidate count and average, each defaulting to 0. */
  function StatsOf(data: DashboardBody): (s: Stats)
    ensures s.totalAssessments == if data.assessments.Some? then |data.assessments.value| else 0
    ensures s.totalCandidates == if data.totalCandidates.Some? then data.totalCandidates.value else 0
    ensures s.avgScore == if data.avgScore.Some? then data.avgScore.value else 0.0
  {
    Stats(
      match data.assessments case Some(list) => |list| case None => 0,
      NumOrElse(data.totalCandidates, 0),
      match data.avgScore case Some(a) => a case None => 0.0)
  }

  class ExaminerDashboardPage {
    var user: Option<Session>
    var assessments: seq<ExamItem>
    var visibleAssessments: seq<ExamItem>
    var showAllAssessments: bool
    var stats: Stats
    var loading: bool

    /** The effect has run, and the Total Assessments figure counts the list shown. */
    ghost predicate Valid()
      reads this
    {
      && visibleAssessments == Visible(assessments, showAllAssessments)
      && stats.totalAssessments == |assessments|
    }

    constructor ()
      ensures Valid()
      ensures user == None && assessments == [] && !showAllAssessments && loading
      ensures stats == Stats(0, 0, 0.0)
    {
      user := None;
      assessments := [];
      visibleAssessments := [];
      showAllAssessments := false;
      stats := Stats(0, 0, 0.0);
      loading := true;
    }

    /** The mount effect: only examiners stay, and their own id is the `examinerId` asked for. */
    method Mount(browser: Browser, reply: Reply<DashboardBody>) returns (queried: Option<string>)
      requires Valid()
      modifies this`user, this`assessments, this`stats, this`loading, this`visibleAssessments, browser
      ensures Valid()
      ensures browser.session == old(browser.session) && browser.alerts == old(browser.alerts)
      ensures showAllAssessments == old(showAllAssessments)
      ensures Guard(browser.session, RolesAt(ExaminerDashboardPath)).Redirect? ==>
                && browser.pushed == old(browser.pushed) + [HomePath] && queried == None
                && user == old(user) && assessments == old(assessments) && stats == old(stats)
                && loading == old(loading)
      ensures Guard(browser.session, RolesAt(ExaminerDashboardPath)).Render? ==>
                && browser.pushed == old(browser.pushed)
                && user == browser.session && queried == Some(browser.session.value.id)
                && !loading
                && (Succeeded(reply) ==> assessments == OrEmpty(reply.body.value.assessments) && stats == StatsOf(reply.body.value))
                && (!Succeeded(reply) ==> assessments == old(assessments) && stats == old(stats))
    {
      match Guard(browser.session, RolesAt(ExaminerDashboardPath)) {
        case Redirect(path) =>
          browser.Push(path);
          queried := None;
        case Render(s) =>
          user := Some(s);
          queried := Some(s.id);
          FetchDashboardData(reply);
      }
    }

    /** `fetchDashboardData`: an ok reply replaces the list and the figures; anything else
        changes neither; loading ends in every case. */
    method FetchDashboardData(reply: Reply<DashboardBody>)
      requires Valid()
      modifies this`assessments, this`stats, this`loading, this`visibleAssessments
      ensures Valid()
      ensures !loading
      ensures Succeeded(reply) ==> assessments == OrEmpty(reply.body.value.assessments) && stats == StatsOf(reply.body.value)
      ensures !Succeeded(reply) ==> assessments == old(assessments) && stats == old(stats)
    {
      if Succeeded(reply) {
        var data := reply.body.value;
        assessments := OrEmpty(data.assessments);
        stats := StatsOf(data);
      }
      loading := false;
      visibleAssessments := Visible(assessments, showAllAssessments);
    }

    /** The View More / Show Less button. */
    method ToggleShowAll()
      requires Valid()
      modifies this`showAllAssessments, this`visibleAssessments
      ensures Valid()
      ensures showAllAssessments == !old(showAllAssessments)
    {
      showAllAssessments := !showAllAssessments;
      visibleAssessments := Visible(assessments, showAllAssessments);
    }

    /** The Avg Score figure, `Math.round(stats.avgScore)`. */
    function ShownAverage(): (r: int)
      reads this
      ensures r as real - 0.5 <= stats.avgScore < r as real + 0.5
    {
      Round(stats.avgScore)
    }
  }
}
