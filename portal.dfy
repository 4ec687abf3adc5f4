/** Shared vocabulary of the portal's pages: the cached session, the route guard every
    protected page runs on mount, the shape of a backend reply, and the list
    derivations (filter, first-page slice, rounding, strings) the pages re-implement. */
module Portal {

  datatype Option<+T> = None | Some(value: T)

  // ---------------------------------------------------------------------------
  // Session and roles
  // ---------------------------------------------------------------------------

  /** The role string of a cached user; anything other than the three known roles
      is kept as `OtherRole`, since the cached object is whatever the backend sent. */
  datatype Role = Candidate | Examiner | Admin | OtherRole(name: string)

  predicate KnownRole(r: Role) {
    r.Candidate? || r.Examiner? || r.Admin?
  }

  /** Each role text has exactly one representation: `OtherRole` never spells a known role. */
  predicate Canonical(r: Role) {
    r.OtherRole? ==> r.name != "candidate" && r.name != "examiner" && r.name != "admin"
  }

  /** A role as it can occur in a user object. */
  type UserRole = r: Role | Canonical(r) witness Candidate

  /** Reading the `role` text of a user object; the pages compare it with `===`. */
  function RoleOf(text: string): (r: UserRole)
    ensures r == Candidate <==> text == "candidate"
    ensures r == Examiner <==> text == "examiner"
    ensures r == Admin <==> text == "admin"
    ensures r.OtherRole? ==> r.name == text
  {
    if text == "candidate" then Candidate
    else if text == "examiner" then Examiner
    else if text == "admin" then Admin
    else OtherRole(text)
  }

  /** The `role` text a role is written as. */
  function RoleName(r: UserRole): (text: string)
    ensures text == "admin" <==> r == Admin
    ensures RoleOf(text) == r
  {
    match r
    case Candidate => "candidate"
    case Examiner => "examiner"
    case Admin => "admin"
    case OtherRole(name) => name
  }

  /** Reading a role text and writing it back gives the same text. */
  lemma RoleTextRoundTrip(text: string)
    ensures RoleName(RoleOf(text)) == text
  {
  }

  /** The user object stored under the `user` key of local storage. */
  datatype Session = Session(id: string, name: string, email: string, role: UserRole, isFirstLogin: bool)

  const HomePath := "/"
  const AdminPath := "/admin"
  const AdminUsersPath := "/admin/users"
  const CreateAssessmentPath := "/examiner/create"
  const CandidateDashboardPath := "/candidate/dashboard"
  const ExaminerDashboardPath := "/examiner/dashboard"

  /** The role set each guarded page admits (the users page also admits examiners). */
  function RolesAt(path: string): (roles: set<Role>)
    ensures Admin in roles <==> path in {AdminUsersPath, AdminPath, CreateAssessmentPath}
    ensures Examiner in roles <==> path in {AdminUsersPath, ExaminerDashboardPath}
    ensures Candidate in roles <==> path == CandidateDashboardPath
    ensures forall r :: r in roles ==> KnownRole(r)
  {
    if path == AdminUsersPath then {Examiner, Admin}
    else if path == AdminPath || path == CreateAssessmentPath then {Admin}
    else if path == CandidateDashboardPath then {Candidate}
    else if path == ExaminerDashboardPath then {Examiner}
    else {}
  }

  /** The browser-side effects the pages have: the `user` entry of local storage,
      the sequence of `router.push` targets and the sequence of `alert` messages. */
  class Browser {
    var session: Option<Session>
    var pushed: seq<string>
    var alerts: seq<string>

    constructor (stored: Option<Session>)
      ensures session == stored && pushed == [] && alerts == []
    {
      session := stored;
      pushed := [];
      alerts := [];
    }

    method Push(path: string)
      modifies this
      ensures pushed == old(pushed) + [path]
      ensures session == old(session) && alerts == old(alerts)
    {
      pushed := pushed + [path];
    }

    method Alert(message: string)
      modifies this
      ensures alerts == old(alerts) + [message]
      ensures session == old(session) && pushed == old(pushed)
    {
      alerts := alerts + [message];
    }

    method Store(s: Session)
      modifies this
      ensures session == Some(s)
      ensures pushed == old(pushed) && alerts == old(alerts)
    {
      session := Some(s);
    }

    /** `handleLogout`, identical on the three dashboards: drop the cached user, go home. */
    method HandleLogout()
      modifies this
      ensures session == None
      ensures pushed == old(pushed) + [HomePath] && alerts == old(alerts)
    {
      session := None;
      Push(HomePath);
    }
  }

  // ---------------------------------------------------------------------------
  // Route guard
  // ---------------------------------------------------------------------------

  datatype Decision = Render(session: Session) | Redirect(path: string)

  /** The check each protected page runs on mount: no cached user, or a user whose
      role is outside the page's set, sends the browser home; only otherwise does the
      page keep the user and fetch its data. */
  function Guard(stored: Option<Session>, allowed: set<Role>): (d: Decision)
    ensures d.Render? <==> stored.Some? && stored.value.role in allowed
    ensures d.Render? ==> d.session == stored.value
    ensures d.Redirect? ==> d.path == HomePath
  {
    match stored
    case None => Redirect(HomePath)
    case Some(s) => if s.role in allowed then Render(s) else Redirect(HomePath)
  }

  /** A page that admits more roles renders for everyone a narrower page renders for. */
  lemma GuardMonotone(stored: Option<Session>, narrow: set<Role>, wide: set<Role>)
    requires narrow <= wide
    ensures Guard(stored, narrow).Render? ==> Guard(stored, wide) == Guard(stored, narrow)
  {
  }

  // ---------------------------------------------------------------------------
  // Backend replies
  // ---------------------------------------------------------------------------

  /** What `res.json()` gives: the decoded body, or the message of the error it threw. */
  datatype Json<B> = Parsed(value: B) | Unparsable(message: string)

  /** One `fetch`: a response with its status flag and body, or the message of the
      error the promise was rejected with. */
  datatype Reply<B> = Reply(ok: bool, body: Json<B>) | Thrown(message: string)

  /** A reply whose `ok` flag is set and whose body decoded. */
  predicate Succeeded<B>(r: Reply<B>) {
    r.Reply? && r.ok && r.body.Parsed?
  }

  /** A reply that makes the handler's `try` block throw before it reads the body's
      fields: a rejected fetch, or an ok status whose body does not decode. */
  predicate Aborts<B>(r: Reply<B>) {
    r.Thrown? || (r.ok && r.body.Unparsable?)
  }

  /** The message of the error an aborting reply throws. */
  function AbortMessage<B>(r: Reply<B>): string
    requires Aborts(r)
  {
    if r.Thrown? then r.message else r.body.message
  }

  /** JavaScript truthiness of an optional string field: absent and `""` are falsy. */
  predicate Truthy(s: Option<string>) {
    s.Some? && s.value != ""
  }

  /** `s || fallback` on an optional string field. */
  function OrElse(s: Option<string>, fallback: string): (r: string)
    ensures Truthy(s) ==> r == s.value
    ensures !Truthy(s) ==> r == fallback
    ensures r == "" ==> fallback == ""
  {
    if Truthy(s) then s.value else fallback
  }

  /** `n || fallback` on an optional number field: absent and `0` are falsy. */
  function NumOrElse(n: Option<int>, fallback: int): (r: int)
    ensures n.Some? && n.value != 0 ==> r == n.value
    ensures n == None || n == Some(0) ==> r == fallback
    ensures r == 0 ==> fallback == 0
  {
    if n.Some? && n.value != 0 then n.value else fallback
  }

  /** A page's list after the reply of its fetch: replaced, by the list the body carries
      or `[]`, only when the reply is ok and its body decodes; otherwise kept. */
  function Fetched<B, T>(reply: Reply<B>, list: B -> Option<seq<T>>, current: seq<T>): (r: seq<T>)
    ensures !Succeeded(reply) ==> r == current
    ensures Succeeded(reply) && list(reply.body.value).Some? ==> r == list(reply.body.value).value
    ensures Succeeded(reply) && list(reply.body.value).None? ==> r == []
  {
    if Succeeded(reply) then OrEmpty(list(reply.body.value)) else current
  }

  /** `list || []` on an optional list field: a present list, even an empty one, is truthy. */
  function OrEmpty<T>(s: Option<seq<T>>): (r: seq<T>)
    ensures s.Some? ==> r == s.value
    ensures s.None? ==> r == []
  {
    match s
    case Some(xs) => xs
    case None => []
  }

  // ---------------------------------------------------------------------------
  // List derivations
  // ---------------------------------------------------------------------------

  /** `Array.prototype.filter`. */
  function Filter<T>(s: seq<T>, p: T -> bool): (r: seq<T>)
    ensures |r| <= |s|
    ensures forall i :: 0 <= i < |r| ==> p(r[i])
    decreases |s|
  {
    if s == [] then []
    else if p(s[0]) then [s[0]] + Filter(s[1..], p)
    else Filter(s[1..], p)
  }

  lemma {:induction false} FilterMembers<T>(s: seq<T>, p: T -> bool)
    ensures forall x :: x in Filter(s, p) <==> x in s && p(x)
    decreases |s|
  {
    if s != [] {
      FilterMembers(s[1..], p);
      assert s == [s[0]] + s[1..];
    }
  }

  /** `a` is `b` with some elements left out, the rest in their original order. */
  ghost predicate SubsequenceOf<T>(a: seq<T>, b: seq<T>)
    decreases |b|
  {
    a == [] || (b != [] && ((a[0] == b[0] && SubsequenceOf(a[1..], b[1..])) || SubsequenceOf(a, b[1..])))
  }

  lemma {:induction false} FilterKeepsOrder<T>(s: seq<T>, p: T -> bool)
    ensures SubsequenceOf(Filter(s, p), s)
    decreases |s|
  {
    if s != [] {
      FilterKeepsOrder(s[1..], p);
      if p(s[0]) {
        assert Filter(s, p)[1..] == Filter(s[1..], p);
      }
    }
  }

  /** Filtering keeps each passing element as often as it occurs and drops every other. */
  lemma {:induction false} FilterCounts<T>(s: seq<T>, p: T -> bool)
    ensures forall x :: multiset(Filter(s, p))[x] == if p(x) then multiset(s)[x] else 0
    decreases |s|
  {
    if s != [] {
      FilterCounts(s[1..], p);
      assert s == [s[0]] + s[1..];
    }
  }

  /** No element occurs twice. */
  ghost predicate Distinct<T>(s: seq<T>) {
    forall i, j :: 0 <= i < j < |s| ==> s[i] != s[j]
  }

  /** Filtering a list that has no repeated element yields one that has none. */
  lemma {:induction false} FilterKeepsDistinct<T>(s: seq<T>, p: T -> bool)
    requires Distinct(s)
    ensures Distinct(Filter(s, p))
    decreases |s|
  {
    if s != [] {
      assert Distinct(s[1..]) by {
        forall i, j | 0 <= i < j < |s| - 1 ensures s[1..][i] != s[1..][j] {
          assert s[1..][i] == s[i + 1] && s[1..][j] == s[j + 1];
        }
      }
      FilterKeepsDistinct(s[1..], p);
      var r := Filter(s, p);
      if p(s[0]) {
        assert r[1..] == Filter(s[1..], p);
        forall j | 0 < j < |r| ensures r[0] != r[j] {
          assert r[j] in Filter(s[1..], p);
          FilterMembers(s[1..], p);
          assert s[0] !in s[1..] by {
            forall k | 0 <= k < |s| - 1 ensures s[1..][k] != s[0] {
              assert s[1..][k] == s[k + 1];
            }
          }
        }
      }
    }
  }

  /** Filtering distributes over concatenation. */
  lemma {:induction false} FilterAppend<T>(a: seq<T>, b: seq<T>, p: T -> bool)
    ensures Filter(a + b, p) == Filter(a, p) + Filter(b, p)
    decreases |a|
  {
    if a != [] {
      assert (a + b)[1..] == a[1..] + b;
      FilterAppend(a[1..], b, p);
    } else {
      assert a + b == b;
    }
  }

  /** Filtering a list every element of which passes leaves it as it is. */
  lemma {:induction false} FilterAllPass<T>(s: seq<T>, p: T -> bool)
    requires forall i :: 0 <= i < |s| ==> p(s[i])
    ensures Filter(s, p) == s
    decreases |s|
  {
    if s != [] {
      FilterAllPass(s[1..], p);
    }
  }

  const PageSize: nat := 4

  /** `expanded ? s : s.slice(0, 4)`, the "show the first four unless expanded" view. */
  function Visible<T>(s: seq<T>, expanded: bool): (r: seq<T>)
    ensures |r| == if expanded || |s| <= PageSize then |s| else PageSize
    ensures r == s[..|r|]
  {
    if expanded || |s| <= PageSize then s else s[..PageSize]
  }

  /** The "View More" toggle is rendered exactly when flipping it changes the view. */
  lemma ToggleChangesView<T>(s: seq<T>)
    ensures |s| > PageSize <==> Visible(s, false) != Visible(s, true)
  {
    if |s| > PageSize {
      assert |Visible(s, false)| != |Visible(s, true)|;
    }
  }

  // ---------------------------------------------------------------------------
  // Numbers and strings
  // ---------------------------------------------------------------------------

  /** `Math.round` on an idealised real: the nearest integer, halves rounded up. */
  function Round(x: real): (r: int)
    ensures r as real - 0.5 <= x < r as real + 0.5
  {
    (x + 0.5).Floor
  }

  function DigitChar(d: int): char
    requires 0 <= d < 10
  {
    "0123456789"[d]
  }

  function NatToString(n: nat): (r: string)
    ensures |r| > 0
    decreases n
  {
    if n < 10 then [DigitChar(n)] else NatToString(n / 10) + [DigitChar(n % 10)]
  }

  /** The decimal text of an integer, as a template literal or `toString` prints it. */
  function IntToString(i: int): string {
    if i < 0 then "-" + NatToString(-i) else NatToString(i)
  }

  /** The characters the regular-expression class `\s` matches. */
  predicate IsSpace(c: char) {
    c == ' ' || c == '\t' || c == '\n' || c == '\r' || c == '\U{000B}' || c == '\U{000C}'
    || c == '\U{00A0}' || c == '\U{1680}' || ('\U{2000}' <= c <= '\U{200A}')
    || c == '\U{2028}' || c == '\U{2029}' || c == '\U{202F}' || c == '\U{205F}'
    || c == '\U{3000}' || c == '\U{FEFF}'
  }

  predicate NoSpace(s: string) {
    forall i :: 0 <= i < |s| ==> !IsSpace(s[i])
  }

  /** Printable ASCII other than the blank is never whitespace. */
  lemma PlainAsciiHasNoSpace(s: string)
    requires forall i :: 0 <= i < |s| ==> '!' <= s[i] <= '~'
    ensures NoSpace(s)
  {
  }

  lemma NoSpaceAppend(a: string, b: string)
    requires NoSpace(a) && NoSpace(b)
    ensures NoSpace(a + b)
  {
    assert forall i :: |a| <= i < |a + b| ==> (a + b)[i] == b[i - |a|];
  }

  /** `s` with its leading whitespace removed. */
  function DropSpaces(s: string): (r: string)
    ensures |r| <= |s|
    ensures r == [] || !IsSpace(r[0])
    decreases |s|
  {
    if s != [] && IsSpace(s[0]) then DropSpaces(s[1..]) else s
  }

  /** `s.replace(/\s+/g, '_')`: every maximal run of whitespace becomes one underscore. */
  function Underscored(s: string): (r: string)
    ensures NoSpace(r)
    decreases |s|
  {
    if s == [] then []
    else if IsSpace(s[0]) then "_" + Underscored(DropSpaces(s[1..]))
    else [s[0]] + Underscored(s[1..])
  }

  lemma {:induction false} UnderscoredKeepsPlainText(s: string)
    requires NoSpace(s)
    ensures Underscored(s) == s
    decreases |s|
  {
    if s != [] {
      UnderscoredKeepsPlainText(s[1..]);
    }
  }

  /** Text without whitespace is left as it is, and nothing else is. */
  lemma UnderscoredFixesExactlyPlainText(s: string)
    ensures Underscored(s) == s <==> NoSpace(s)
    ensures Underscored(Underscored(s)) == Underscored(s)
  {
    if NoSpace(s) {
      UnderscoredKeepsPlainText(s);
    }
    UnderscoredKeepsPlainText(Underscored(s));
  }

  lemma {:induction false} DropSpacesOfRun(w: string, b: string)
    requires forall i :: 0 <= i < |w| ==> IsSpace(w[i])
    requires b == [] || !IsSpace(b[0])
    ensures DropSpaces(w + b) == b
    decreases |w|
  {
    if w != [] {
      assert (w + b)[1..] == w[1..] + b;
      DropSpacesOfRun(w[1..], b);
    }
  }

  /** A run of whitespace between plain text `a` and text `b` that does not start with
      whitespace becomes exactly one underscore. */
  lemma {:induction false} UnderscoredRun(a: string, w: string, b: string)
    requires NoSpace(a)
    requires |w| > 0 && forall i :: 0 <= i < |w| ==> IsSpace(w[i])
    requires b == [] || !IsSpace(b[0])
    ensures Underscored(a + w + b) == a + "_" + Underscored(b)
    decreases |a|
  {
    if a == [] {
      assert a + w + b == w + b;
      assert (w + b)[1..] == w[1..] + b;
      DropSpacesOfRun(w[1..], b);
    } else {
      assert (a + w + b)[1..] == a[1..] + w + b;
      UnderscoredRun(a[1..], w, b);
    }
  }
}
