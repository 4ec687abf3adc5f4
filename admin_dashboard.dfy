/** The admin dashboard (app/admin/page.tsx): the initial fetch of every assessment, the
    confirmed delete with its re-fetch, and the per-assessment display defaults. */
module AdminDashboard {
  import opened Portal

  datatype Assessment = Assessment(
    assessmentId: string, title: string, createdAt: string, assignedTo: Option<seq<string>>,
    durationMinutes: Option<int>, difficulty: Option<string>)

  /** Body of the `/admin/assessments` reply. */
  datatype AssessmentsBody = AssessmentsBody(assessments: Option<seq<Assessment>>)
  /** Body of a failed `/assessments/{id}/delete` reply. */
  datatype DeleteBody = DeleteBody(error: Option<string>)

  const DeleteFailed := "Failed to delete assessment"
  const UnknownError := "Unknown error occurred"
  const DeleteErrorPrefix := "Error deleting assessment: "
  const DeletedText := "Assessment deleted successfully"
  const DefaultDuration := 30

  // ---------------------------------------------------------------------------
  // Display defaults
  // ---------------------------------------------------------------------------

  /** `assessment.assigned_to?.length || 0`. */
  function CandidateCount(a: Assessment): (n: nat)
    ensures a.assignedTo.Some? ==> n == |a.assignedTo.value|
    ensures a.assignedTo.None? ==> n == 0
  {
    match a.assignedTo
    case Some(ids) => |ids|
    case None => 0
  }

  /** `assessment.duration_minutes || 30`: a missing or zero duration shows as 30 minutes. */
  function DurationShown(a: Assessment): (m: int)
    ensures m != 0
    ensures a.durationMinutes.Some? && a.durationMinutes.value != 0 ==> m == a.durationMinutes.value
    ensures a.durationMinutes.None? || a.durationMinutes.value == 0 ==> m == DefaultDuration
  {
    NumOrElse(a.durationMinutes, DefaultDuration)
  }

  datatype BadgeColour = RedBadge | YellowBadge | GreenBadge

  /** The difficulty badge: none for a missing or empty difficulty, red for `hard`,
      yellow for `medium`, green for any other text. */
  function Badge(difficulty: Option<string>): (b: Option<BadgeColour>)
    ensures b.None? <==> !Truthy(difficulty)
    ensures b == Some(RedBadge) <==> difficulty == Some("hard")
    ensures b == Some(YellowBadge) <==> difficulty == Some("medium")
    ensures b == Some(GreenBadge) <==>
              Truthy(difficulty) && difficulty.value != "hard" && difficulty.value != "medium"
  {
    if !Truthy(difficulty) then None
    else if difficulty.value == "hard" then Some(RedBadge)
    else if difficulty.value == "medium" then Some(YellowBadge)
    else Some(GreenBadge)
  }

  // ---------------------------------------------------------------------------
  // Fetch and delete
  // ---------------------------------------------------------------------------

  /** The list a `/admin/assessments` reply carries. */
  function AssessmentsOf(body: AssessmentsBody): Option<seq<Assessment>> {
    body.assessments
  }

  /** `error.message || 'Unknown error occurred'`. */
  function ShownMessage(message: string): (shown: string)
    ensures shown != ""
    ensures message != "" ==> shown == message
    ensures message == "" ==> shown == UnknownError
  {
    if message != "" then message else UnknownError
  }

  /** The message of a failed delete call; an undecodable error body counts as `{}`. */
  function DeleteFailure(reply: Reply<DeleteBody>): (text: string)
    requires !(reply.Reply? && reply.ok)
    ensures text != ""
    ensures reply.Thrown? ==> text == ShownMessage(reply.message)
    ensures reply.Reply? && reply.body.Unparsable? ==> text == DeleteFailed
    ensures reply.Reply? && reply.body.Parsed? && Truthy(reply.body.value.error) ==>
              text == reply.body.value.error.value
    ensures reply.Reply? && reply.body.Parsed? && !Truthy(reply.body.value.error) ==> text == DeleteFailed
  {
    match reply
    case Thrown(message) => ShownMessage(message)
    case Reply(_, Unparsable(_)) => DeleteFailed
    case Reply(_, Parsed(data)) => OrElse(data.error, DeleteFailed)
  }

  class AdminDashboardPage {
    var assessments: seq<Assessment>
    var loading: bool
    var currentUser: Option<Session>

    constructor ()
      ensures assessments == [] && loading && currentUser == None
    {
      assessments := [];
      loading := true;
      currentUser := None;
    }

    /** The mount effect: only admins stay; the initial fetch replaces the (empty) list
        only on an ok reply, and loading ends in every case. */
    method Mount(browser: Browser, reply: Reply<AssessmentsBody>)
      modifies this`currentUser, this`assessments, this`loading, browser
      ensures browser.session == old(browser.session) && browser.alerts == old(browser.alerts)
      ensures Guard(browser.session, RolesAt(AdminPath)).Redirect? ==>
                && browser.pushed == old(browser.pushed) + [HomePath]
                && assessments == old(assessments) && loading == old(loading) && currentUser == old(currentUser)
      ensures Guard(browser.session, RolesAt(AdminPath)).Render? ==>
                && browser.pushed == old(browser.pushed)
                && currentUser == browser.session
                && assessments == Fetched(reply, AssessmentsOf, old(assessments)) && !loading
    {
      match Guard(browser.session, RolesAt(AdminPath)) {
        case Redirect(path) =>
          browser.Push(path);
        case Render(s) =>
          currentUser := Some(s);
          if Succeeded(reply) {
            assessments := match reply.body.value.assessments
              case Some(list) => list
              case None => [];
          }
          loading := false;
      }
    }

    /** `handleDeleteAssessment`: nothing is sent without confirmation; the list is
        re-fetched only after the delete returned ok, and replaced only if that re-fetch is
        ok; a failure at either step alerts and leaves the list as it was. */
    method HandleDeleteAssessment(browser: Browser, confirmed: bool,
                                  reply: Reply<DeleteBody>, refresh: Reply<AssessmentsBody>)
      returns (deleteSent: bool, refetched: bool)
      modifies this`assessments, browser
      ensures browser.session == old(browser.session) && browser.pushed == old(browser.pushed)
      ensures deleteSent == confirmed
      ensures refetched <==> confirmed && reply.Reply? && reply.ok
      ensures !confirmed ==> assessments == old(assessments) && browser.alerts == old(browser.alerts)
      ensures deleteSent && !refetched ==>
                && assessments == old(assessments)
                && browser.alerts == old(browser.alerts) + [DeleteErrorPrefix + DeleteFailure(reply)]
      ensures refetched && Aborts(refresh) ==>
                && assessments == old(assessments)
                && browser.alerts == old(browser.alerts) + [DeleteErrorPrefix + ShownMessage(AbortMessage(refresh))]
      ensures refetched && !Aborts(refresh) ==>
                && assessments == Fetched(refresh, AssessmentsOf, old(assessments))
                && browser.alerts == old(browser.alerts) + [DeletedText]
    {
      if !confirmed {
        return false, false;
      }
      deleteSent := true;
      if !(reply.Reply? && reply.ok) {
        browser.Alert(DeleteErrorPrefix + DeleteFailure(reply));
        return deleteSent, false;
      }
      refetched := true;
      if Aborts(refresh) {
        browser.Alert(DeleteErrorPrefix + ShownMessage(AbortMessage(refresh)));
        return;
      }
      if Succeeded(refresh) {
        assessments := match refresh.body.value.assessments
          case Some(list) => list
          case None => [];
      }
      browser.Alert(DeletedText);
    }
  }
}
