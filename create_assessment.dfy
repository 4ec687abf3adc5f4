/** The assessment-creation page (app/examiner/create/page.tsx): the candidate selection
    toggle, the submit-enabled predicate, the multipart fields sent in each mode and the
    submit handler's outcome. */
module CreateAssessment {
  import opened Portal

  datatype Mode = Upload | Generate
  datatype Difficulty = Easy | Medium | Hard
  /** A file chosen in the upload box; its content is not modelled. */
  datatype FileRef = FileRef(name: string)

  datatype CandidateEntry = CandidateEntry(id: string, name: string, email: string)

  datatype AssessmentForm = AssessmentForm(
    title: string, description: string, prompt: string, file: Option<FileRef>,
    selectedCandidates: seq<string>, scheduledFrom: string, scheduledTo: string,
    durationMinutes: int, timePerQuestion: int, difficulty: Difficulty)

  const InitialForm := AssessmentForm("", "", "", None, [], "", "", 30, 0, Medium)

  /** Body of the `/examiner/candidates` reply. */
  datatype CandidatesBody = CandidatesBody(candidates: Option<seq<CandidateEntry>>)
  /** Body of the `/assessments/create` reply. */
  datatype CreateBody = CreateBody(error: Option<string>, details: Option<string>)

  /** One multipart entry; `IdList` is the JSON-encoded list of selected candidate ids. */
  datatype FieldValue = Text(text: string) | IdList(ids: seq<string>) | Attachment(file: FileRef)
  datatype Field = Field(name: string, value: FieldValue)

  const CreateFailed := "Failed to create assessment"

  // ---------------------------------------------------------------------------
  // Candidate selection
  // ---------------------------------------------------------------------------

  /** `toggleCandidate`: a selected id is removed (every occurrence of it), an unselected
      one is appended at the end; no other id changes membership. */
  function Toggled(selected: seq<string>, id: string): (r: seq<string>)
    ensures id in r <==> id !in selected
    ensures forall x :: x != id ==> (x in r <==> x in selected)
    ensures id !in selected ==> r == selected + [id]
    ensures id in selected ==> SubsequenceOf(r, selected)
    ensures id in selected ==> multiset(r) == multiset(selected)[id := 0]
  {
    FilterMembers(selected, Other(id));
    FilterKeepsOrder(selected, Other(id));
    FilterCounts(selected, Other(id));
    if id in selected then Filter(selected, Other(id)) else selected + [id]
  }

  /** The filter callback `id => id !== candidateId`. */
  function Other(id: string): string -> bool {
    (x: string) => x != id
  }

  /** Toggling an unselected id twice gives back exactly the list it started from. */
  lemma ToggleTwiceRestores(selected: seq<string>, id: string)
    requires id !in selected
    ensures Toggled(Toggled(selected, id), id) == selected
  {
    var p := Other(id);
    FilterAppend(selected, [id], p);
    FilterAllPass(selected, p);
    assert Filter([id], p) == [];
  }

  /** A selection without repeated ids stays without repeated ids. */
  lemma ToggleKeepsDistinct(selected: seq<string>, id: string)
    requires Distinct(selected)
    ensures Distinct(Toggled(selected, id))
  {
    if id in selected {
      FilterKeepsDistinct(selected, Other(id));
      assert Toggled(selected, id) == Filter(selected, Other(id));
    } else {
      var r := selected + [id];
      forall i, j | 0 <= i < j < |r| ensures r[i] != r[j] {
        if j == |selected| {
          assert r[i] == selected[i];
        }
      }
    }
  }

  // ---------------------------------------------------------------------------
  // Submit predicate and payload
  // ---------------------------------------------------------------------------

  /** The submit button's `disabled` expression: the button is off while a submission is
      in flight, and on only with a title and the content the mode needs. */
  predicate SubmitDisabled(loading: bool, form: AssessmentForm, mode: Mode)
    ensures loading ==> SubmitDisabled(loading, form, mode)
    ensures !SubmitDisabled(loading, form, mode) ==>
              && form.title != ""
              && (mode == Generate ==> form.prompt != "")
              && (mode == Upload ==> form.file.Some?)
  {
    loading || form.title == ""
    || (mode == Generate && form.prompt == "")
    || (mode == Upload && form.file.None?)
  }

  function DifficultyText(d: Difficulty): string {
    match d
    case Easy => "easy"
    case Medium => "medium"
    case Hard => "hard"
  }

  const CommonFieldNames := ["title", "description", "createdBy", "assignedTo", "scheduledFrom",
                             "scheduledTo", "durationMinutes", "timePerQuestion", "difficulty"]

  /** The nine entries every submission carries, in the order they are appended. */
  function CommonFields(form: AssessmentForm, createdBy: string): (fields: seq<Field>)
    ensures |fields| == |CommonFieldNames|
    ensures forall i :: 0 <= i < |fields| ==> fields[i].name == CommonFieldNames[i]
    ensures fields[2].value == Text(createdBy) && fields[3].value == IdList(form.selectedCandidates)
  {
    [ Field("title", Text(form.title)),
      Field("description", Text(form.description)),
      Field("createdBy", Text(createdBy)),
      Field("assignedTo", IdList(form.selectedCandidates)),
      Field("scheduledFrom", Text(form.scheduledFrom)),
      Field("scheduledTo", Text(form.scheduledTo)),
      Field("durationMinutes", Text(IntToString(form.durationMinutes))),
      Field("timePerQuestion", Text(IntToString(form.timePerQuestion))),
      Field("difficulty", Text(DifficultyText(form.difficulty))) ]
  }

  /** The multipart body: the common entries, then the prompt in generate mode, or the
      file in upload mode when one is chosen. */
  function Payload(form: AssessmentForm, mode: Mode, createdBy: string): (fields: seq<Field>)
    ensures |fields| >= 9 && fields[..9] == CommonFields(form, createdBy)
    ensures |fields| == 10 <==> mode == Generate || form.file.Some?
    ensures mode == Generate ==> fields[9] == Field("prompt", Text(form.prompt))
    ensures mode == Upload && form.file.Some? ==> fields[9] == Field("file", Attachment(form.file.value))
  {
    CommonFields(form, createdBy)
    + (if mode == Generate then [Field("prompt", Text(form.prompt))]
       else if form.file.Some? then [Field("file", Attachment(form.file.value))]
       else [])
  }

  function Names(fields: seq<Field>): (names: seq<string>)
    ensures |names| == |fields|
    ensures forall i :: 0 <= i < |fields| ==> names[i] == fields[i].name
  {
    seq(|fields|, i requires 0 <= i < |fields| => fields[i].name)
  }

  /** The nine common entries always come first; `prompt` is sent exactly in generate mode,
      `file` exactly in upload mode with a chosen file, and never both. */
  lemma PayloadFields(form: AssessmentForm, mode: Mode, createdBy: string)
    ensures var names := Names(Payload(form, mode, createdBy));
            && |names| >= 9 && names[..9] == CommonFieldNames
            && ("prompt" in names <==> mode == Generate)
            && ("file" in names <==> mode == Upload && form.file.Some?)
            && !("prompt" in names && "file" in names)
  {
    var tail := if mode == Generate then ["prompt"] else if form.file.Some? then ["file"] else [];
    assert Names(Payload(form, mode, createdBy)) == CommonFieldNames + tail;
    assert "prompt" !in CommonFieldNames && "file" !in CommonFieldNames;
  }

  /** Whenever the button is enabled, what it sends has a title and the content its mode
      needs: a non-empty prompt, or a file. */
  lemma EnabledSubmitSendsContent(form: AssessmentForm, mode: Mode, createdBy: string)
    requires !SubmitDisabled(false, form, mode)
    ensures var payload := Payload(form, mode, createdBy);
            && payload[0] == Field("title", Text(form.title)) && form.title != ""
            && (mode == Generate ==> payload[9] == Field("prompt", Text(form.prompt)) && form.prompt != "")
            && (mode == Upload ==> payload[9] == Field("file", Attachment(form.file.value)))
  {
  }

  /** Appends the entries one by one, as `handleSubmit` fills its `FormData`. */
  method BuildPayload(form: AssessmentForm, mode: Mode, createdBy: string) returns (fields: seq<Field>)
    ensures fields == Payload(form, mode, createdBy)
  {
    fields := [];
    fields := fields + [Field("title", Text(form.title))];
    fields := fields + [Field("description", Text(form.description))];
    fields := fields + [Field("createdBy", Text(createdBy))];
    fields := fields + [Field("assignedTo", IdList(form.selectedCandidates))];
    fields := fields + [Field("scheduledFrom", Text(form.scheduledFrom))];
    fields := fields + [Field("scheduledTo", Text(form.scheduledTo))];
    fields := fields + [Field("durationMinutes", Text(IntToString(form.durationMinutes)))];
    fields := fields + [Field("timePerQuestion", Text(IntToString(form.timePerQuestion)))];
    fields := fields + [Field("difficulty", Text(DifficultyText(form.difficulty)))];
    if mode == Generate {
      fields := fields + [Field("prompt", Text(form.prompt))];
    } else if form.file.Some? {
      fields := fields + [Field("file", Attachment(form.file.value))];
    }
  }

  /** The alert text of a failed submission, before its `Error: ` prefix: the backend's
      `error`, else its `details`, else the generic text. */
  function SubmitFailure(reply: Reply<CreateBody>): (text: string)
    requires !Succeeded(reply)
    ensures reply.Thrown? ==> text == reply.message
    ensures reply.Reply? && reply.body.Unparsable? ==> text == reply.body.message
    ensures reply.Reply? && reply.body.Parsed? ==>
              && text != ""
              && (Truthy(reply.body.value.error) ==> text == reply.body.value.error.value)
              && (!Truthy(reply.body.value.error) && Truthy(reply.body.value.details) ==>
                    text == reply.body.value.details.value)
              && (!Truthy(reply.body.value.error) && !Truthy(reply.body.value.details) ==> text == CreateFailed)
  {
    match reply
    case Thrown(message) => message
    case Reply(_, Unparsable(message)) => message
    case Reply(_, Parsed(data)) => OrElse(data.error, OrElse(data.details, CreateFailed))
  }

  // ---------------------------------------------------------------------------
  // Page state and handlers
  // ---------------------------------------------------------------------------

  class CreateAssessmentPage {
    var user: Option<Session>
    var mode: Mode
    var loading: bool
    var candidates: seq<CandidateEntry>
    var formData: AssessmentForm

    /** The selection never holds an id twice. */
    ghost predicate Valid()
      reads this`formData
    {
      Distinct(formData.selectedCandidates)
    }

    constructor ()
      ensures Valid()
      ensures user == None && mode == Generate && !loading && candidates == [] && formData == InitialForm
    {
      user := None;
      mode := Generate;
      loading := false;
      candidates := [];
      formData := InitialForm;
    }

    /** The mount effect: only admins stay and fetch the candidates; anyone else is sent home. */
    method Mount(browser: Browser, reply: Reply<CandidatesBody>)
      modifies this`user, this`candidates, browser
      ensures browser.session == old(browser.session) && browser.alerts == old(browser.alerts)
      ensures Guard(browser.session, RolesAt(CreateAssessmentPath)).Redirect? ==>
                && browser.pushed == old(browser.pushed) + [HomePath]
                && user == old(user) && candidates == old(candidates)
      ensures Guard(browser.session, RolesAt(CreateAssessmentPath)).Render? ==>
                && browser.pushed == old(browser.pushed)
                && user == browser.session
                && candidates == Fetched(reply, CandidatesOf, old(candidates))
    {
      match Guard(browser.session, RolesAt(CreateAssessmentPath)) {
        case Redirect(path) =>
          browser.Push(path);
        case Render(s) =>
          user := Some(s);
          FetchCandidates(reply);
      }
    }

    /** `fetchCandidates`: the list is replaced only by an ok reply. */
    method FetchCandidates(reply: Reply<CandidatesBody>)
      modifies this`candidates
      ensures candidates == Fetched(reply, CandidatesOf, old(candidates))
    {
      if Succeeded(reply) {
        candidates := match reply.body.value.candidates
          case Some(cs) => cs
          case None => [];
      }
    }

    method ToggleCandidate(id: string)
      requires Valid()
      modifies this`formData
      ensures Valid()
      ensures formData == old(formData).(selectedCandidates := Toggled(old(formData).selectedCandidates, id))
    {
      ToggleKeepsDistinct(formData.selectedCandidates, id);
      formData := formData.(selectedCandidates := Toggled(formData.selectedCandidates, id));
    }

    /** `handleSubmit` up to its request: loading is set, which disables the button, and
        the multipart body is built. The form is only rendered once a user is kept. */
    method HandleSubmit() returns (payload: seq<Field>)
      requires user.Some?
      modifies this`loading
      ensures loading && SubmitDisabled(loading, formData, mode)
      ensures payload == Payload(formData, mode, user.value.id)
    {
      loading := true;
      payload := BuildPayload(formData, mode, user.value.id);
    }

    /** `handleSubmit` from the reply on: only an ok reply with a decodable body navigates
        to the admin page; anything else alerts; loading ends in every case. */
    method HandleSubmitReply(browser: Browser, reply: Reply<CreateBody>)
      modifies this`loading, browser
      ensures !loading
      ensures browser.session == old(browser.session)
      ensures Succeeded(reply) ==>
                browser.pushed == old(browser.pushed) + [AdminPath] && browser.alerts == old(browser.alerts)
      ensures !Succeeded(reply) ==>
                && browser.pushed == old(browser.pushed)
                && browser.alerts == old(browser.alerts) + ["Error: " + SubmitFailure(reply)]
    {
      if Succeeded(reply) {
        browser.Push(AdminPath);
      } else {
        browser.Alert("Error: " + SubmitFailure(reply));
      }
      loading := false;
    }
  }

  /** The list a `/examiner/candidates` reply carries. */
  function CandidatesOf(body: CandidatesBody): Option<seq<CandidateEntry>> {
    body.candidates
  }
}
