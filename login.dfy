/** The sign-in page (app/page.tsx): the login submit with its first-login branch and
    role dispatch, and the forced password reset that follows a first login. */
module Login {
  import opened Portal

  datatype Credentials = Credentials(email: string, password: string)
  datatype ResetForm = ResetForm(newPassword: string, confirmPassword: string)
  datatype ResetRequest = ResetRequest(userId: string, oldPassword: string, newPassword: string)

  /** Body of the `/auth/login` reply. */
  datatype LoginBody = LoginBody(error: Option<string>, isFirstLogin: bool, user: Session)

  /** Body of a failed `/auth/reset-password` reply. */
  datatype ErrorBody = ErrorBody(error: Option<string>)

  const AuthFailed := "Authentication failed"
  const PasswordsDiffer := "Passwords do not match"
  const ResetFailed := "Failed to reset password"

  /** Where a signed-in user is sent: candidates and admins to their own pages,
      every other role to the examiner dashboard. */
  function SignInRoute(r: Role): (path: string)
    ensures path == CandidateDashboardPath <==> r == Candidate
    ensures path == AdminPath <==> r == Admin
    ensures path == ExaminerDashboardPath <==> r != Candidate && r != Admin
  {
    if r == Candidate then CandidateDashboardPath
    else if r == Admin then AdminPath
    else ExaminerDashboardPath
  }

  /** Where a user who completed the forced reset is sent: candidates to their
      dashboard, everyone else, admins included, to the examiner dashboard. */
  function ResetRoute(r: Role): (path: string)
    ensures path == CandidateDashboardPath <==> r == Candidate
    ensures path == ExaminerDashboardPath <==> r != Candidate
  {
    if r == Candidate then CandidateDashboardPath else ExaminerDashboardPath
  }

  /** Every user with a known role lands, after signing in, on a page whose guard admits them. */
  lemma SignInLandsOnAdmittingPage(r: Role)
    requires KnownRole(r)
    ensures r in RolesAt(SignInRoute(r))
  {
  }

  /** The two dispatches differ for admins only; an admin who finishes the reset lands on
      the examiner dashboard, whose guard sends them straight back home. */
  lemma ResetRouteRejectsOnlyAdmin(r: Role)
    requires KnownRole(r)
    ensures ResetRoute(r) != SignInRoute(r) <==> r == Admin
    ensures r in RolesAt(ResetRoute(r)) <==> r != Admin
    ensures r == Admin ==> Guard(Some(Session("", "", "", r, false)), RolesAt(ResetRoute(r))) == Redirect(HomePath)
  {
  }

  class LoginPage {
    var formData: Credentials
    var loading: bool
    var error: string
    var showResetModal: bool
    var tempUser: Option<Session>
    var resetData: ResetForm

    /** The reset modal is only ever opened together with the user it resets. */
    ghost predicate Valid()
      reads this
    {
      showResetModal ==> tempUser.Some?
    }

    constructor ()
      ensures Valid()
      ensures formData == Credentials("", "") && resetData == ResetForm("", "")
      ensures !loading && error == "" && !showResetModal && tempUser == None
    {
      formData := Credentials("", "");
      loading := false;
      error := "";
      showResetModal := false;
      tempUser := None;
      resetData := ResetForm("", "");
    }

    /** `handleSubmit` up to its request: the error is cleared, loading is set, and the
        credentials are posted. */
    method HandleSubmit() returns (request: Credentials)
      requires Valid()
      modifies this`error, this`loading
      ensures Valid()
      ensures request == formData
      ensures error == "" && loading
      ensures formData == old(formData) && resetData == old(resetData)
      ensures showResetModal == old(showResetModal) && tempUser == old(tempUser)
    {
      error := "";
      loading := true;
      request := formData;
    }

    /** `handleSubmit` from the reply on: a failure shows its message and stores nothing;
        a first login keeps the user and opens the reset modal without storing a session;
        any other success stores the user and dispatches on the role. */
    method HandleSubmitReply(browser: Browser, reply: Reply<LoginBody>)
      requires Valid()
      modifies this`error, this`loading, this`tempUser, this`showResetModal, browser
      ensures Valid()
      ensures !loading
      ensures formData == old(formData) && resetData == old(resetData)
      ensures browser.alerts == old(browser.alerts)
      ensures reply.Thrown? ==> error == reply.message
      ensures reply.Reply? && reply.body.Unparsable? ==> error == reply.body.message
      ensures reply.Reply? && reply.body.Parsed? && !reply.ok ==>
                error == OrElse(reply.body.value.error, AuthFailed)
      ensures !Succeeded(reply) ==>
                && browser.session == old(browser.session) && browser.pushed == old(browser.pushed)
                && showResetModal == old(showResetModal) && tempUser == old(tempUser)
      ensures Succeeded(reply) && reply.body.value.isFirstLogin ==>
                && tempUser == Some(reply.body.value.user) && showResetModal
                && error == old(error)
                && browser.session == old(browser.session) && browser.pushed == old(browser.pushed)
      ensures Succeeded(reply) && !reply.body.value.isFirstLogin ==>
                && browser.session == Some(reply.body.value.user)
                && browser.pushed == old(browser.pushed) + [SignInRoute(reply.body.value.user.role)]
                && error == old(error)
                && showResetModal == old(showResetModal) && tempUser == old(tempUser)
    {
      match reply {
        case Thrown(message) =>
          error := message;
        case Reply(ok, body) =>
          match body {
            case Unparsable(message) =>
              error := message;
            case Parsed(data) =>
              if !ok {
                error := OrElse(data.error, AuthFailed);
              } else if data.isFirstLogin {
                tempUser := Some(data.user);
                showResetModal := true;
              } else {
                browser.Store(data.user);
                browser.Push(SignInRoute(data.user.role));
              }
          }
      }
      loading := false;
    }

    /** `handleResetPassword` up to its request: mismatched passwords are reported without
        contacting the backend and without touching `loading`; otherwise loading is set and
        the reset is posted for the kept user with the password typed at sign-in. */
    method HandleResetPassword() returns (request: Option<ResetRequest>)
      requires Valid() && showResetModal
      modifies this`error, this`loading
      ensures Valid()
      ensures formData == old(formData) && resetData == old(resetData)
      ensures showResetModal == old(showResetModal) && tempUser == old(tempUser)
      ensures resetData.newPassword != resetData.confirmPassword ==>
                request == None && error == PasswordsDiffer && loading == old(loading)
      ensures resetData.newPassword == resetData.confirmPassword ==>
                && request == Some(ResetRequest(tempUser.value.id, formData.password, resetData.newPassword))
                && loading && error == old(error)
    {
      if resetData.newPassword != resetData.confirmPassword {
        error := PasswordsDiffer;
        return None;
      }
      loading := true;
      request := Some(ResetRequest(tempUser.value.id, formData.password, resetData.newPassword));
    }

    /** `handleResetPassword` from the reply on: success stores the kept user with the
        first-login flag cleared and dispatches on the role; failure shows its message and
        stores nothing. The body of a successful reply is not read. */
    method HandleResetReply(browser: Browser, reply: Reply<ErrorBody>)
      requires Valid() && tempUser.Some?
      modifies this`error, this`loading, browser
      ensures Valid()
      ensures !loading
      ensures formData == old(formData) && resetData == old(resetData)
      ensures showResetModal == old(showResetModal) && tempUser == old(tempUser)
      ensures browser.alerts == old(browser.alerts)
      ensures reply.Thrown? ==> error == reply.message
      ensures reply.Reply? && !reply.ok && reply.body.Unparsable? ==> error == reply.body.message
      ensures reply.Reply? && !reply.ok && reply.body.Parsed? ==>
                error == OrElse(reply.body.value.error, ResetFailed)
      ensures !(reply.Reply? && reply.ok) ==>
                browser.session == old(browser.session) && browser.pushed == old(browser.pushed)
      ensures reply.Reply? && reply.ok ==>
                && browser.session == Some(tempUser.value.(isFirstLogin := false))
                && browser.pushed == old(browser.pushed) + [ResetRoute(tempUser.value.role)]
                && error == old(error)
    {
      match reply {
        case Thrown(message) =>
          error := message;
        case Reply(ok, body) =>
          if !ok {
            match body {
              case Unparsable(message) =>
                error := message;
              case Parsed(data) =>
                error := OrElse(data.error, ResetFailed);
            }
          } else {
            var updatedUser := tempUser.value.(isFirstLogin := false);
            browser.Store(updatedUser);
            browser.Push(ResetRoute(updatedUser.role));
          }
      }
      loading := false;
    }
  }
}
