/** The user-management page (app/admin/users/page.tsx): the role partition of the user
    list, the create and delete handlers, a candidate's result statistics and score bands,
    and the rows and file name of the full-report export. */
module ManageUsers {
  import opened Portal

  datatype User = User(id: string, name: string, email: string, role: UserRole, createdAt: string)

  /** The create-user form. */
  datatype NewUser = NewUser(name: string, email: string, role: UserRole)

  const BlankForm := NewUser("", "", Examiner)

  datatype UserResult = UserResult(
    assessmentTitle: string, score: int, maxScore: int, percentage: int,
    attemptNumber: Option<int>, gradedAt: string)

  /** Body of the `/admin/users` reply. */
  datatype UsersBody = UsersBody(users: Option<seq<User>>)
  /** Body of a failed `/auth/signup` reply. */
  datatype SignupBody = SignupBody(error: Option<string>)
  /** Body of the `DELETE /admin/users` reply. */
  datatype DeleteBody = DeleteBody(error: Option<string>, message: Option<string>)
  /** Body of the `/admin/users/{id}/results` reply. */
  datatype ResultsBody = ResultsBody(results: Option<seq<UserResult>>)

  datatype DeleteRequest = DeleteRequest(userId: string, adminId: string)

  const CreateFailed := "Failed to create user"
  const CreatedText := "User created successfully!"
  const DeleteFailed := "Failed to delete user"

  // ---------------------------------------------------------------------------
  // Role partition
  // ---------------------------------------------------------------------------

  /** `users.filter(u => u.role === role)`. */
  function WithRole(users: seq<User>, role: Role): (r: seq<User>)
    ensures |r| <= |users|
    ensures forall u :: u in r <==> u in users && u.role == role
  {
    FilterMembers(users, (u: User) => u.role == role);
    Filter(users, (u: User) => u.role == role)
  }

  /** No user is shown in two of the three groups. */
  lemma PartitionDisjoint(users: seq<User>, u: User)
    ensures !(u in WithRole(users, Candidate) && u in WithRole(users, Examiner))
    ensures !(u in WithRole(users, Candidate) && u in WithRole(users, Admin))
    ensures !(u in WithRole(users, Examiner) && u in WithRole(users, Admin))
  {
  }

  /** Each group lists its users in the order the backend sent them. */
  lemma PartitionKeepsOrder(users: seq<User>, role: Role)
    ensures SubsequenceOf(WithRole(users, role), users)
  {
    FilterKeepsOrder(users, (u: User) => u.role == role);
  }

  /** When every user has one of the three roles, the three groups together hold exactly
      the users of the list, each as often as it occurs there. */
  lemma {:induction false} PartitionComplete(users: seq<User>)
    requires forall i :: 0 <= i < |users| ==> KnownRole(users[i].role)
    ensures multiset(WithRole(users, Candidate)) + multiset(WithRole(users, Examiner))
            + multiset(WithRole(users, Admin)) == multiset(users)
    ensures |WithRole(users, Candidate)| + |WithRole(users, Examiner)| + |WithRole(users, Admin)| == |users|
    decreases |users|
  {
    if users != [] {
      PartitionComplete(users[1..]);
      assert users == [users[0]] + users[1..];
    }
  }

  // ---------------------------------------------------------------------------
  // Result statistics and score bands
  // ---------------------------------------------------------------------------

  function TotalPercentage(rs: seq<UserResult>): int
    decreases |rs|
  {
    if rs == [] then 0 else rs[0].percentage + TotalPercentage(rs[1..])
  }

  /** `Math.max(...results.map(r => r.percentage))`. */
  function Highest(rs: seq<UserResult>): (h: int)
    requires |rs| > 0
    ensures forall i :: 0 <= i < |rs| ==> rs[i].percentage <= h
    ensures exists i :: 0 <= i < |rs| && rs[i].percentage == h
    decreases |rs|
  {
    if |rs| == 1 then rs[0].percentage
    else
      var rest := Highest(rs[1..]);
      assert forall i :: 1 <= i < |rs| ==> rs[i] == rs[1..][i - 1];
      if rs[0].percentage >= rest then rs[0].percentage else rest
  }

  datatype ResultStats = ResultStats(total: nat, average: int, highest: int)

  /** The three figures of the reports modal, shown only for a non-empty result list:
      the count, the rounded mean percentage and the highest percentage. */
  function StatsOf(rs: seq<UserResult>): (s: ResultStats)
    requires |rs| > 0
    ensures s.total == |rs|
    ensures s.average as real - 0.5 <= TotalPercentage(rs) as real / |rs| as real < s.average as real + 0.5
    ensures forall i :: 0 <= i < |rs| ==> rs[i].percentage <= s.highest
    ensures exists i :: 0 <= i < |rs| && rs[i].percentage == s.highest
  {
    ResultStats(|rs|, Round(TotalPercentage(rs) as real / |rs| as real), Highest(rs))
  }

  lemma {:induction false} TotalBetween(rs: seq<UserResult>, lo: int, hi: int)
    requires forall i :: 0 <= i < |rs| ==> lo <= rs[i].percentage <= hi
    ensures |rs| * lo <= TotalPercentage(rs) <= |rs| * hi
    decreases |rs|
  {
    if rs != [] {
      TotalBetween(rs[1..], lo, hi);
    }
  }

  lemma MeanBetween(total: int, n: int, lo: int, hi: int)
    requires n > 0 && n * lo <= total <= n * hi
    ensures lo as real <= total as real / n as real <= hi as real
  {
    var q := total as real / n as real;
    assert q * n as real == total as real;
  }

  /** The rounded average lies within any bounds all percentages lie within; in particular
      it never exceeds the highest percentage. */
  lemma AverageBetween(rs: seq<UserResult>, lo: int, hi: int)
    requires |rs| > 0
    requires forall i :: 0 <= i < |rs| ==> lo <= rs[i].percentage <= hi
    ensures lo <= StatsOf(rs).average <= hi
    ensures StatsOf(rs).average <= StatsOf(rs).highest
  {
    TotalBetween(rs, lo, hi);
    MeanBetween(TotalPercentage(rs), |rs|, lo, hi);
    var h := StatsOf(rs).highest;
    TotalBetween(rs, lo, h);
    MeanBetween(TotalPercentage(rs), |rs|, lo, h);
  }

  datatype Band = Green | Blue | Red

  /** The colour of a result's percentage badge. */
  function BandOf(percentage: int): (b: Band)
    ensures b == Green <==> percentage >= 70
    ensures b == Blue <==> 40 <= percentage < 70
    ensures b == Red <==> percentage < 40
  {
    if percentage >= 70 then Green else if percentage >= 40 then Blue else Red
  }

  // ---------------------------------------------------------------------------
  // Full-report export
  // ---------------------------------------------------------------------------

  datatype Cell = Text(text: string) | Number(n: int)

  datatype Workbook = Workbook(fileName: string, sheetName: string, rows: seq<seq<Cell>>)

  const ReportSuffix := "_Full_Report.xlsx"
  const SheetName := "All Assessments"

  /** The seven rows above the result table; `now` is the already formatted clock. */
  function HeaderRows(user: User, count: nat, now: string): (rows: seq<seq<Cell>>)
    ensures |rows| == 7
    ensures rows[0] == [Text("Candidate Performance Report")]
    ensures rows[1] == [Text("Name"), Text(user.name)] && rows[2] == [Text("Email"), Text(user.email)]
    ensures rows[3] == [Text("Total Assessments"), Number(count)]
    ensures rows[4] == [Text("Generated At"), Text(now)] && rows[5] == []
    ensures rows[6] == [Text("Assessment Title"), Text("Score"), Text("Max Score"),
                        Text("Percentage"), Text("Attempt"), Text("Submitted At")]
  {
    [ [Text("Candidate Performance Report")],
      [Text("Name"), Text(user.name)],
      [Text("Email"), Text(user.email)],
      [Text("Total Assessments"), Number(count)],
      [Text("Generated At"), Text(now)],
      [],
      [Text("Assessment Title"), Text("Score"), Text("Max Score"), Text("Percentage"), Text("Attempt"), Text("Submitted At")] ]
  }

  /** One table row; `formatDate` stands for the locale date formatting of `graded_at`. */
  function ResultRow(r: UserResult, formatDate: string -> string): (row: seq<Cell>)
    ensures |row| == 6
    ensures row[3].Text? && row[3].text == IntToString(r.percentage) + "%"
    ensures row[4].Number? && row[4].n != 0
    ensures r.attemptNumber.Some? && r.attemptNumber.value != 0 ==> row[4] == Number(r.attemptNumber.value)
    ensures r.attemptNumber.None? || r.attemptNumber.value == 0 ==> row[4] == Number(1)
  {
    [ Text(r.assessmentTitle), Number(r.score), Number(r.maxScore),
      Text(IntToString(r.percentage) + "%"), Number(NumOrElse(r.attemptNumber, 1)),
      Text(formatDate(r.gradedAt)) ]
  }

  lemma SuffixIsPlain()
    ensures NoSpace(ReportSuffix)
  {
    PlainAsciiHasNoSpace(ReportSuffix);
  }

  /** The export file name: the user's name with each whitespace run made one underscore. */
  function ReportFileName(name: string): (f: string)
    ensures NoSpace(f)
    ensures |f| >= |ReportSuffix| && f[|f| - |ReportSuffix|..] == ReportSuffix
    ensures NoSpace(name) ==> f == name + ReportSuffix
    ensures f == Underscored(name) + ReportSuffix
  {
    assert NoSpace(name) ==> Underscored(name) == name by {
      if NoSpace(name) {
        UnderscoredKeepsPlainText(name);
      }
    }
    SuffixIsPlain();
    NoSpaceAppend(Underscored(name), ReportSuffix);
    Underscored(name) + ReportSuffix
  }

  // ---------------------------------------------------------------------------
  // Page state and handlers
  // ---------------------------------------------------------------------------

  /** The list a `/admin/users` reply carries. */
  function UsersOf(body: UsersBody): Option<seq<User>> {
    body.users
  }

  /** The alert text of a failed create. */
  function CreateFailure(reply: Reply<SignupBody>): (text: string)
    requires !(reply.Reply? && reply.ok)
    ensures reply.Thrown? ==> text == reply.message
    ensures reply.Reply? && reply.body.Unparsable? ==> text == reply.body.message
    ensures reply.Reply? && reply.body.Parsed? ==>
              && text != ""
              && (Truthy(reply.body.value.error) ==> text == reply.body.value.error.value)
              && (!Truthy(reply.body.value.error) ==> text == CreateFailed)
  {
    match reply
    case Thrown(message) => message
    case Reply(_, Unparsable(message)) => message
    case Reply(_, Parsed(data)) => OrElse(data.error, CreateFailed)
  }

  /** The alert text of a failed delete, before its `Error: ` prefix. */
  function DeleteFailure(reply: Reply<DeleteBody>): (text: string)
    requires !Succeeded(reply)
    ensures reply.Thrown? ==> text == reply.message
    ensures reply.Reply? && reply.body.Unparsable? ==> text == reply.body.message
    ensures reply.Reply? && reply.body.Parsed? ==>
              && text != ""
              && (Truthy(reply.body.value.error) ==> text == reply.body.value.error.value)
              && (!Truthy(reply.body.value.error) ==> text == DeleteFailed)
  {
    match reply
    case Thrown(message) => message
    case Reply(_, Unparsable(message)) => message
    case Reply(_, Parsed(data)) => OrElse(data.error, DeleteFailed)
  }

  /** What `alert(data.message)` shows: an absent message prints as `undefined`. */
  function MessageText(message: Option<string>): (text: string)
    ensures message.Some? ==> text == message.value
    ensures message.None? ==> text == "undefined"
  {
    match message
    case Some(m) => m
    case None => "undefined"
  }

  class ManageUsersPage {
    var currentUser: Option<Session>
    var users: seq<User>
    var loading: bool
    var showCreateModal: bool
    var formData: NewUser
    var showReportsModal: bool
    var selectedUser: Option<User>
    var userResults: seq<UserResult>
    var fetchingResults: bool

    constructor ()
      ensures currentUser == None && users == [] && loading
      ensures !showCreateModal && formData == BlankForm
      ensures !showReportsModal && selectedUser == None && userResults == [] && !fetchingResults
    {
      currentUser := None;
      users := [];
      loading := true;
      showCreateModal := false;
      formData := BlankForm;
      showReportsModal := false;
      selectedUser := None;
      userResults := [];
      fetchingResults := false;
    }

    /** The mount effect: the guard admits examiners and admins; anyone else is sent home
        and nothing is fetched. */
    method Mount(browser: Browser, reply: Reply<UsersBody>)
      modifies this`currentUser, this`users, this`loading, browser
      ensures browser.session == old(browser.session) && browser.alerts == old(browser.alerts)
      ensures Guard(browser.session, RolesAt(AdminUsersPath)).Redirect? ==>
                && browser.pushed == old(browser.pushed) + [HomePath]
                && currentUser == old(currentUser) && users == old(users) && loading == old(loading)
      ensures Guard(browser.session, RolesAt(AdminUsersPath)).Render? ==>
                && browser.pushed == old(browser.pushed)
                && currentUser == browser.session
                && users == Fetched(reply, UsersOf, old(users)) && !loading
    {
      match Guard(browser.session, RolesAt(AdminUsersPath)) {
        case Redirect(path) =>
          browser.Push(path);
        case Render(s) =>
          currentUser := Some(s);
          FetchUsers(reply);
      }
    }

    /** `fetchUsers`: the list is replaced only by an ok reply; loading ends in every case. */
    method FetchUsers(reply: Reply<UsersBody>)
      modifies this`users, this`loading
      ensures users == Fetched(reply, UsersOf, old(users))
      ensures !loading
    {
      if Succeeded(reply) {
        users := match reply.body.value.users
          case Some(us) => us
          case None => [];
      }
      loading := false;
    }

    /** `handleCreateUser`: the form is posted; a failure only alerts its message; a success
        resets the form, closes the modal, refreshes the list and alerts. */
    method HandleCreateUser(browser: Browser, reply: Reply<SignupBody>, refresh: Reply<UsersBody>)
      returns (request: NewUser)
      modifies this`formData, this`showCreateModal, this`users, this`loading, browser
      ensures request == old(formData)
      ensures browser.session == old(browser.session) && browser.pushed == old(browser.pushed)
      ensures !(reply.Reply? && reply.ok) ==>
                && browser.alerts == old(browser.alerts) + [CreateFailure(reply)]
                && formData == old(formData) && showCreateModal == old(showCreateModal)
                && users == old(users) && loading == old(loading)
      ensures reply.Reply? && reply.ok ==>
                && browser.alerts == old(browser.alerts) + [CreatedText]
                && formData == BlankForm && !showCreateModal
                && users == Fetched(refresh, UsersOf, old(users)) && !loading
    {
      request := formData;
      if !(reply.Reply? && reply.ok) {
        browser.Alert(CreateFailure(reply));
        return;
      }
      formData := BlankForm;
      showCreateModal := false;
      FetchUsers(refresh);
      browser.Alert(CreatedText);
    }

    /** `handleDeleteUser`: nothing is sent without a current user or without confirmation;
        a failed delete alerts `Error: ` and its message and leaves the list alone; a
        successful one alerts the backend's message and then refreshes the list. */
    method HandleDeleteUser(browser: Browser, userId: string, confirmed: bool,
                            reply: Reply<DeleteBody>, refresh: Reply<UsersBody>)
      returns (request: Option<DeleteRequest>)
      modifies this`users, this`loading, browser
      ensures browser.session == old(browser.session) && browser.pushed == old(browser.pushed)
      ensures request.Some? <==> currentUser.Some? && confirmed
      ensures request.Some? ==> request.value == DeleteRequest(userId, currentUser.value.id)
      ensures request.None? ==>
                browser.alerts == old(browser.alerts) && users == old(users) && loading == old(loading)
      ensures request.Some? && !Succeeded(reply) ==>
                && browser.alerts == old(browser.alerts) + ["Error: " + DeleteFailure(reply)]
                && users == old(users) && loading == old(loading)
      ensures request.Some? && Succeeded(reply) ==>
                && browser.alerts == old(browser.alerts) + [MessageText(reply.body.value.message)]
                && users == Fetched(refresh, UsersOf, old(users)) && !loading
    {
      if currentUser.None? || !confirmed {
        return None;
      }
      request := Some(DeleteRequest(userId, currentUser.value.id));
      if !Succeeded(reply) {
        browser.Alert("Error: " + DeleteFailure(reply));
        return;
      }
      browser.Alert(MessageText(reply.body.value.message));
      FetchUsers(refresh);
    }

    /** `handleViewReports`: the modal opens on the chosen user; the result list is replaced
        only by an ok reply, so a failed fetch leaves the previously viewed user's results. */
    method HandleViewReports(user: User, reply: Reply<ResultsBody>)
      modifies this`selectedUser, this`showReportsModal, this`userResults, this`fetchingResults
      ensures selectedUser == Some(user) && showReportsModal && !fetchingResults
      ensures Succeeded(reply) ==>
                userResults == match reply.body.value.results case Some(rs) => rs case None => []
      ensures !Succeeded(reply) ==> userResults == old(userResults)
    {
      selectedUser := Some(user);
      showReportsModal := true;
      fetchingResults := true;
      if Succeeded(reply) {
        userResults := match reply.body.value.results
          case Some(rs) => rs
          case None => [];
      }
      fetchingResults := false;
    }

    /** `downloadUserFullReport`: no file without a selected user or without results;
        otherwise seven header rows, whose count is the number of results, then one row per
        result in order, in a file named after the user. */
    method DownloadUserFullReport(now: string, formatDate: string -> string) returns (file: Option<Workbook>)
      ensures file.None? <==> selectedUser.None? || |userResults| == 0
      ensures file.Some? ==>
                && file.value.fileName == ReportFileName(selectedUser.value.name)
                && file.value.sheetName == SheetName
      ensures file.Some? ==>
                var rows := file.value.rows;
                && |rows| == 7 + |userResults|
                && rows[..7] == HeaderRows(selectedUser.value, |userResults|, now)
                && rows[3] == [Text("Total Assessments"), Number(|userResults|)]
                && forall i :: 0 <= i < |userResults| ==> rows[7 + i] == ResultRow(userResults[i], formatDate)
    {
      if selectedUser.None? || |userResults| == 0 {
        return None;
      }
      var user := selectedUser.value;
      var rows := HeaderRows(user, |userResults|, now);
      var i := 0;
      while i < |userResults|
        invariant 0 <= i <= |userResults|
        invariant |rows| == 7 + i
        invariant rows[..7] == HeaderRows(user, |userResults|, now)
        invariant forall k :: 0 <= k < i ==> rows[7 + k] == ResultRow(userResults[k], formatDate)
      {
        rows := rows + [ResultRow(userResults[i], formatDate)];
        i := i + 1;
      }
      file := Some(Workbook(ReportFileName(user.name), SheetName, rows));
    }
  }
}
