/** src/components/GenerateSchedulePage.js: the subject form, the solve
    request and the status poller.

    Asynchrony is made explicit. `Submit` runs `handleSubmit` up to its
    `await` and leaves the POST in flight; `SolveReplied` runs the rest of it
    when that POST's reply arrives. Every `checkSolverStatus` call likewise
    leaves a status GET in flight until `PollReplied`. A live `setInterval`
    timer is an entry of `intervals`, fired by `Tick`; a pending `setTimeout`
    navigation is fired by `Settle`. Replies and firings may come in any
    order, so every interleaving the browser allows is a sequence of calls. */
module Generate {
  import opened Js
  import opened Api
  import opened Entities

  // ---------------------------------------------------------------------------
  // Subjects

  /** A JavaScript value held by a subject field: the text inputs and the
      select produce strings, the checkbox a boolean, and the default hours
      are the number 3. */
  datatype FieldValue = Text(s: string) | Number(n: int) | Flag(b: bool)

  predicate Truthy(v: FieldValue) {
    match v
    case Text(s) => s != ""
    case Number(n) => n != 0
    case Flag(b) => b
  }

  /** `parseInt(v, 10)`, which first converts `v` to a string. */
  function ParseIntValue(v: FieldValue): Option<int> {
    match v
    case Text(s) => ParseInt(s)
    case Number(n) => ParseInt(IntToString(n))
    case Flag(b) => ParseInt(if b then "true" else "false")
  }

  datatype Subject = Subject(subjectCode: FieldValue, subjectName: FieldValue, teacherId: FieldValue,
                             classHoursPerWeek: FieldValue, isMajor: FieldValue)

  /** `defaultSubjectState` */
  const DefaultSubject := Subject(Text(""), Text(""), Text(""), Number(3), Flag(false))

  const MaxSubjects := 10

  /** The `name` attribute of the subject inputs. */
  datatype SubjectField = SubjectCodeField | SubjectNameField | TeacherIdField | ClassHoursField | IsMajorField

  function FieldOf(s: Subject, f: SubjectField): FieldValue {
    match f
    case SubjectCodeField => s.subjectCode
    case SubjectNameField => s.subjectName
    case TeacherIdField => s.teacherId
    case ClassHoursField => s.classHoursPerWeek
    case IsMajorField => s.isMajor
  }

  /** `{ ...subject, [name]: value }` */
  function WithField(s: Subject, f: SubjectField, v: FieldValue): (r: Subject)
    ensures FieldOf(r, f) == v
    ensures forall g :: g != f ==> FieldOf(r, g) == FieldOf(s, g)
  {
    match f
    case SubjectCodeField => s.(subjectCode := v)
    case SubjectNameField => s.(subjectName := v)
    case TeacherIdField => s.(teacherId := v)
    case ClassHoursField => s.(classHoursPerWeek := v)
    case IsMajorField => s.(isMajor := v)
  }

  /** The parts of a change event the handler reads. */
  datatype InputEvent = InputEvent(name: SubjectField, value: string, isCheckbox: bool, checked: bool)

  /** `checked` for a checkbox, `value` otherwise. */
  function NewValue(e: InputEvent): FieldValue {
    if e.isCheckbox then Flag(e.checked) else Text(e.value)
  }

  /** The list `handleSubjectChange` computes: `map` over the subjects,
      rewriting field `e.name` of the one at `index`. */
  function ChangedSubjects(subjects: seq<Subject>, index: int, e: InputEvent): (r: seq<Subject>)
    ensures 0 <= index < |subjects| ==> r == subjects[index := WithField(subjects[index], e.name, NewValue(e))]
    ensures !(0 <= index < |subjects|) ==> r == subjects
  {
    seq(|subjects|, i requires 0 <= i < |subjects| =>
      if i == index then WithField(subjects[i], e.name, NewValue(e)) else subjects[i])
  }

  /** `filter((_, i) => i !== index)`, position by position. */
  function WithoutIndex<T>(s: seq<T>, index: int): seq<T> {
    if s == [] then []
    else (if index == 0 then [] else [s[0]]) + WithoutIndex(s[1..], index - 1)
  }

  /** The filter deletes exactly the entry at `index` and keeps the others in
      order; an index outside the list deletes nothing. */
  lemma {:induction false} WithoutIndexSlices<T>(s: seq<T>, index: int)
    ensures 0 <= index < |s| ==> WithoutIndex(s, index) == s[..index] + s[index + 1..]
    ensures !(0 <= index < |s|) ==> WithoutIndex(s, index) == s
  {
    if s != [] {
      WithoutIndexSlices(s[1..], index - 1);
      if 0 < index < |s| {
        assert s[..index] == [s[0]] + s[1..][..index - 1];
        assert s[index + 1..] == s[1..][index..];
      }
      if !(0 <= index < |s|) {
        assert s == [s[0]] + s[1..];
      }
    }
  }

  /** `subjects.some(s => !s.subjectCode || !s.subjectName)` */
  predicate MissingCodeOrName(subjects: seq<Subject>) {
    exists i :: 0 <= i < |subjects| && (!Truthy(subjects[i].subjectCode) || !Truthy(subjects[i].subjectName))
  }

  // ---------------------------------------------------------------------------
  // Solve request

  /** One element of `scheduleInputs`; a JSON `null` is `None`, and a `NaN`
      hour count (serialised as `null`) is `None` too. */
  datatype ScheduleInput = ScheduleInput(subjectCode: FieldValue, subjectName: FieldValue,
                                         teacherId: Option<FieldValue>, classHoursPerWeek: Option<int>,
                                         isMajor: bool, sectionId: string)

  /** The payload item built for one subject. */
  function PayloadItem(s: Subject, sectionId: string): (r: ScheduleInput)
    ensures r.subjectCode == s.subjectCode && r.subjectName == s.subjectName
    ensures r.teacherId.None? <==> !Truthy(s.teacherId)
    ensures r.teacherId.Some? ==> r.teacherId.value == s.teacherId
    ensures r.isMajor <==> Truthy(s.isMajor)
    ensures r.sectionId == sectionId
  {
    ScheduleInput(s.subjectCode, s.subjectName,
                  if Truthy(s.teacherId) then Some(s.teacherId) else None,
                  ParseIntValue(s.classHoursPerWeek),
                  Truthy(s.isMajor),
                  sectionId)
  }

  /** `scheduleInputs`: one item per subject, in order, all for one section. */
  function Payload(subjects: seq<Subject>, sectionId: string): (r: seq<ScheduleInput>)
    ensures |r| == |subjects|
    ensures forall i :: 0 <= i < |r| ==> r[i] == PayloadItem(subjects[i], sectionId)
    ensures forall i :: 0 <= i < |r| ==> r[i].sectionId == sectionId
  {
    seq(|subjects|, i requires 0 <= i < |subjects| => PayloadItem(subjects[i], sectionId))
  }

  /** A subject left at its defaults apart from code and name is sent with no
      teacher, three hours a week and as a minor subject; hours typed into
      the hours select are sent as the integer they spell. */
  lemma DefaultHoursPayload(code: string, name: string, sectionId: string, hours: int)
    ensures var item := PayloadItem(DefaultSubject.(subjectCode := Text(code), subjectName := Text(name)), sectionId);
      item.teacherId == None && item.classHoursPerWeek == Some(3) && !item.isMajor
    ensures PayloadItem(DefaultSubject.(classHoursPerWeek := Text(IntToString(hours))), sectionId)
      .classHoursPerWeek == Some(hours)
  {
    ParseIntOfIntToString(3);
    ParseIntOfIntToString(hours);
  }

  /** The reply of `POST /schedules/solve`: `problemId` is None when the body
      carries none; `message` is "" when it carries none. */
  datatype SolveResponse = SolveResponse(problemId: Option<string>, message: string)

  /** `res.data.problemId`, when it is truthy. */
  predicate HasProblemId(r: SolveResponse) {
    r.problemId.Some? && r.problemId.value != ""
  }

  const SubjectFieldsError := "Subject Code and Name are required for all subjects."
  const NoProblemId := "Backend did not return a problemId."
  const StartedMessage := "AI scheduling process started..."
  const ListsError := "Failed to load sections/teachers. Backend might be down."

  /** The error shown when the solve request fails:
      `err.response?.data?.message || err.message || 'Failed to start generation.'`. */
  function StartError(e: HttpError): (m: string)
    ensures ServerMessage(e) != "" ==> m == "Error: " + ServerMessage(e)
    ensures ServerMessage(e) == "" && e.message != "" ==> m == "Error: " + e.message
    ensures ServerMessage(e) == "" && e.message == "" ==> m == "Error: Failed to start generation."
  {
    "Error: " + (if ServerMessage(e) != "" then ServerMessage(e)
                 else if e.message != "" then e.message
                 else "Failed to start generation.")
  }

  /** A missing problemId is thrown as a plain `Error`: no response, and the
      thrown message becomes the shown one. */
  lemma MissingProblemIdError()
    ensures StartError(HttpError(None, "", NoProblemId)) == "Error: " + NoProblemId
  {
  }

  // ---------------------------------------------------------------------------
  // Status polling

  const OptimizingMessage := "AI is optimizing your schedule... This may take a few minutes."
  const ActiveMessage := "AI is actively solving your schedule... Please wait."
  const ScheduledMessage := "AI solver is starting up... Please wait."
  const FinishedMessage := "AI has finished processing! Preparing your schedule..."
  const CompleteMessage := "Schedule generation complete! Redirecting to view your optimized schedule..."

  /** What `checkSolverStatus` does with a status. */
  datatype StatusOutcome = KeepPolling(message: string) | Finished | Unexpected

  /** The status mapping: the two solving states keep the interval running,
      `NOT_SOLVING` is completion and anything else is fatal. */
  function ClassifyStatus(status: string): (r: StatusOutcome)
    ensures r.KeepPolling? <==> status == "SOLVING_ACTIVE" || status == "SOLVING_SCHEDULED"
    ensures r.Finished? <==> status == "NOT_SOLVING"
    ensures r == KeepPolling(ActiveMessage) <==> status == "SOLVING_ACTIVE"
  {
    if status == "SOLVING_ACTIVE" then KeepPolling(ActiveMessage)
    else if status == "SOLVING_SCHEDULED" then KeepPolling(ScheduledMessage)
    else if status == "NOT_SOLVING" then Finished
    else Unexpected
  }

  function UnexpectedStatusError(status: string): string {
    "Solver finished with unexpected status: " + status + ". Check backend logs."
  }

  function PollFailureError(e: HttpError): string {
    "Failed to check solver status. " + e.message
  }

  /** The page a finished run navigates to. */
  function ResultPath(sectionId: string): string {
    "/schedule/section/" + sectionId
  }

  /** The arguments a `checkSolverStatus` call was made with. */
  datatype PollTarget = PollTarget(problemId: string, sectionId: string)

  /** The interval id held in `pollingIntervalRef.current`, as a set. */
  function RefSet(ref: Option<nat>): set<nat> {
    if ref.Some? then {ref.value} else {}
  }

  function Without<T>(s: seq<T>, k: nat): seq<T>
    requires k < |s|
  {
    s[..k] + s[k + 1..]
  }

  class Generator {
    var sections: seq<Section>
    var teachers: seq<Teacher>
    var loadingLists: bool
    var selectedSectionId: string
    var subjects: seq<Subject>
    var loading: bool
    var error: string
    var success: string
    var pollingStatus: string
    /** Live `setInterval` timers, by id, with the poll each one repeats. */
    var intervals: map<nat, PollTarget>
    /** `pollingIntervalRef.current` */
    var intervalRef: Option<nat>
    var nextTimer: nat
    /** Solve requests in flight, each with the section it was sent for. */
    var solving: seq<string>
    /** Status requests in flight. */
    var polls: seq<PollTarget>
    /** Navigations waiting on their 2000 ms timeout. */
    var timeouts: seq<string>
    /** Navigations performed, oldest first. */
    var navigated: seq<string>
    var mounted: bool
    /** Solve requests this page has sent so far. */
    var runs: nat

    /** Between 1 and 10 subjects; timer ids are fresh; while mounted, the ref
        names a live interval. The page sends at most one solve request:
        every interval and every solve request in flight belongs to it, and
        once it is sent the page keeps showing `loading`, an error or a
        success line, none of which any handler but `handleSubmit` clears. */
    ghost predicate Valid()
      reads this
    {
      && 1 <= |subjects| <= MaxSubjects
      && (forall t :: t in intervals ==> t < nextTimer)
      && (intervalRef.Some? ==> intervalRef.value < nextTimer)
      && (mounted && intervalRef.Some? ==> intervalRef.value in intervals)
      && runs <= 1
      && |solving| + nextTimer <= runs
      && (runs == 1 ==> loading || error != "" || success != "")
    }

    /** Whether the form is rendered: only while no error, success or
        status line is shown and the lists have loaded. */
    predicate FormShown()
      reads this
    {
      error == "" && !loadingLists && success == "" && pollingStatus == ""
    }

    /** Whether the submit button can be pressed: the form is shown and
        `disabled={loadingLists || loading || !selectedSectionId}` inside a
        fieldset disabled while `loading` does not hold. */
    predicate SubmitEnabled()
      reads this
    {
      FormShown() && !loading && selectedSectionId != ""
    }

    /** Mounting the page and the end of its dropdown fetch. */
    constructor (fetched: Reply<(seq<Section>, seq<Teacher>)>)
      ensures Valid() && mounted
      ensures subjects == [DefaultSubject] && selectedSectionId == ""
      ensures fetched.Ok? ==> sections == fetched.value.0 && teachers == fetched.value.1 && error == ""
      ensures fetched.Failed? ==> sections == [] && teachers == [] && error == ListsError
      ensures !loadingLists && !loading && success == "" && pollingStatus == ""
      ensures intervals == map[] && intervalRef == None && nextTimer == 0 && solving == [] && polls == []
      ensures timeouts == [] && navigated == [] && runs == 0
    {
      selectedSectionId := "";
      subjects := [DefaultSubject];
      loading := false;
      success := "";
      pollingStatus := "";
      intervals := map[];
      intervalRef := None;
      nextTimer := 0;
      solving := [];
      polls := [];
      timeouts := [];
      navigated := [];
      mounted := true;
      runs := 0;
      match fetched {
        case Ok(lists) =>
          sections, teachers := lists.0, lists.1;
          error := "";
        case Failed(_) =>
          sections, teachers := [], [];
          error := ListsError;
      }
      loadingLists := false;
    }

    /** `handleAddSubject`: appends a default subject below the limit of ten. */
    method AddSubject()
      requires Valid()
      modifies this
      ensures Valid()
      ensures old(|subjects|) < MaxSubjects ==> subjects == old(subjects) + [DefaultSubject]
      ensures old(|subjects|) >= MaxSubjects ==> subjects == old(subjects)
      ensures unchanged(this`selectedSectionId, this`loading, this`error, this`success, this`pollingStatus)
      ensures unchanged(this`intervals, this`intervalRef, this`nextTimer, this`solving, this`polls)
      ensures unchanged(this`timeouts, this`navigated, this`mounted, this`runs, this`sections, this`teachers, this`loadingLists)
    {
      if |subjects| < MaxSubjects {
        subjects := subjects + [DefaultSubject];
      }
    }

    /** `handleRemoveSubject`: deletes the entry at `index` as long as another
        one remains. */
    method RemoveSubject(index: int)
      requires Valid()
      modifies this
      ensures Valid()
      ensures old(|subjects|) > 1 && 0 <= index < old(|subjects|) ==>
        subjects == old(subjects)[..index] + old(subjects)[index + 1..]
      ensures old(|subjects|) <= 1 || !(0 <= index < old(|subjects|)) ==> subjects == old(subjects)
      ensures unchanged(this`selectedSectionId, this`loading, this`error, this`success, this`pollingStatus)
      ensures unchanged(this`intervals, this`intervalRef, this`nextTimer, this`solving, this`polls)
      ensures unchanged(this`timeouts, this`navigated, this`mounted, this`runs, this`sections, this`teachers, this`loadingLists)
    {
      if |subjects| > 1 {
        WithoutIndexSlices(subjects, index);
        subjects := WithoutIndex(subjects, index);
      }
    }

    /** `handleSubjectChange` */
    method ChangeSubject(index: int, e: InputEvent)
      requires Valid()
      modifies this
      ensures Valid()
      ensures subjects == ChangedSubjects(old(subjects), index, e)
      ensures unchanged(this`selectedSectionId, this`loading, this`error, this`success, this`pollingStatus)
      ensures unchanged(this`intervals, this`intervalRef, this`nextTimer, this`solving, this`polls)
      ensures unchanged(this`timeouts, this`navigated, this`mounted, this`runs, this`sections, this`teachers, this`loadingLists)
    {
      subjects := ChangedSubjects(subjects, index, e);
    }

    /** `handleSectionChange` */
    method SelectSection(id: string)
      requires Valid()
      modifies this
      ensures Valid()
      ensures selectedSectionId == id
      ensures unchanged(this`subjects, this`loading, this`error, this`success, this`pollingStatus)
      ensures unchanged(this`intervals, this`intervalRef, this`nextTimer, this`solving, this`polls)
      ensures unchanged(this`timeouts, this`navigated, this`mounted, this`runs, this`sections, this`teachers, this`loadingLists)
    {
      selectedSectionId := id;
    }

    /** `clearInterval(pollingIntervalRef.current); pollingIntervalRef.current = null` */
    method StopPolling()
      requires Valid()
      modifies this
      ensures Valid()
      ensures intervals == old(intervals) - RefSet(old(intervalRef)) && intervalRef == None
      ensures unchanged(this`subjects, this`selectedSectionId, this`loading, this`error, this`success)
      ensures unchanged(this`pollingStatus, this`nextTimer, this`solving, this`polls)
      ensures unchanged(this`timeouts, this`navigated, this`mounted, this`runs, this`sections, this`teachers, this`loadingLists)
    {
      if intervalRef.Some? {
        intervals := intervals - {intervalRef.value};
      }
      intervalRef := None;
    }

    /** The synchronous part of `checkSolverStatus`: the status line, then the
        GET left in flight. */
    method StartPoll(target: PollTarget)
      requires Valid()
      modifies this
      ensures Valid()
      ensures polls == old(polls) + [target] && pollingStatus == OptimizingMessage
      ensures unchanged(this`subjects, this`selectedSectionId, this`loading, this`error, this`success)
      ensures unchanged(this`intervals, this`intervalRef, this`nextTimer, this`solving)
      ensures unchanged(this`timeouts, this`navigated, this`mounted, this`runs, this`sections, this`teachers, this`loadingLists)
    {
      pollingStatus := OptimizingMessage;
      polls := polls + [target];
    }

    /** A fatal poll outcome: stop the interval and show `message`. */
    method FailPolling(message: string)
      requires Valid() && message != ""
      modifies this
      ensures Valid()
      ensures error == message && pollingStatus == "" && !loading
      ensures intervals == old(intervals) - RefSet(old(intervalRef)) && intervalRef == None
      ensures unchanged(this`subjects, this`selectedSectionId, this`success, this`nextTimer, this`solving)
      ensures unchanged(this`polls, this`timeouts, this`navigated, this`mounted, this`runs, this`sections, this`teachers)
      ensures unchanged(this`loadingLists)
    {
      StopPolling();
      error := message;
      loading := false;
      pollingStatus := "";
    }

    /** `NOT_SOLVING`: stop the interval, report success and schedule the
        navigation to the section's timetable. */
    method CompletePolling(sectionId: string)
      requires Valid()
      modifies this
      ensures Valid()
      ensures pollingStatus == FinishedMessage && success == CompleteMessage && !loading
      ensures intervals == old(intervals) - RefSet(old(intervalRef)) && intervalRef == None
      ensures timeouts == old(timeouts) + [ResultPath(sectionId)]
      ensures unchanged(this`subjects, this`selectedSectionId, this`error, this`nextTimer, this`solving)
      ensures unchanged(this`polls, this`navigated, this`mounted, this`runs, this`sections, this`teachers)
      ensures unchanged(this`loadingLists)
    {
      pollingStatus := FinishedMessage;
      StopPolling();
      loading := false;
      success := CompleteMessage;
      timeouts := timeouts + [ResultPath(sectionId)];
    }

    /** `handleSubmit` up to its `await`: stops any referenced interval,
        validates, and sends the payload. Returns the payload sent, if any.
        The form only submits through its enabled button, so a section is
        always selected here and the section check never fails. */
    method Submit() returns (sent: Option<seq<ScheduleInput>>)
      requires Valid() && SubmitEnabled()
      modifies this
      ensures Valid()
      ensures intervals == old(intervals) - RefSet(old(intervalRef)) && intervalRef == None
      ensures success == "" && pollingStatus == ""
      ensures MissingCodeOrName(old(subjects)) ==>
        sent == None && error == SubjectFieldsError && !loading && solving == old(solving)
      ensures !MissingCodeOrName(old(subjects)) ==>
        && sent == Some(Payload(old(subjects), old(selectedSectionId)))
        && error == "" && loading && solving == old(solving) + [old(selectedSectionId)]
      ensures runs == old(runs) + (if sent.Some? then 1 else 0)
      ensures unchanged(this`subjects, this`selectedSectionId, this`nextTimer, this`polls)
      ensures unchanged(this`timeouts, this`navigated, this`mounted, this`sections, this`teachers, this`loadingLists)
    {
      loading := true;
      error := "";
      success := "";
      pollingStatus := "";
      StopPolling();
      sent := None;
      // The `Please select a section.` branch: the disabled button rules it out.
      assert selectedSectionId != "";
      if MissingCodeOrName(subjects) {
        loading := false;
        error := SubjectFieldsError;
        return;
      }
      sent := Some(Payload(subjects, selectedSectionId));
      solving := solving + [selectedSectionId];
      runs := runs + 1;
    }

    /** The rest of `handleSubmit`, when the reply to solve request `k`
        arrives. A reply with a problemId starts polling: one immediate
        status check and a fresh interval, whose id replaces the ref without
        clearing whatever interval the ref held. */
    method SolveReplied(k: nat, reply: Reply<SolveResponse>)
      requires Valid() && k < |solving|
      modifies this
      ensures Valid()
      ensures solving == Without(old(solving), k)
      ensures reply.Ok? && HasProblemId(reply.value) ==>
        var target := PollTarget(reply.value.problemId.value, old(solving)[k]);
        && success == (if reply.value.message != "" then reply.value.message else StartedMessage)
        && pollingStatus == OptimizingMessage
        && polls == old(polls) + [target]
        && intervals == old(intervals)[old(nextTimer) := target]
        && intervalRef == Some(old(nextTimer)) && nextTimer == old(nextTimer) + 1
        && error == old(error) && loading == old(loading)
      ensures reply.Ok? && !HasProblemId(reply.value) ==>
        && error == "Error: " + NoProblemId && !loading
        && success == old(success) && pollingStatus == old(pollingStatus)
        && polls == old(polls) && intervals == old(intervals) && intervalRef == old(intervalRef)
        && nextTimer == old(nextTimer)
      ensures reply.Failed? ==>
        && error == StartError(reply.error) && !loading
        && success == old(success) && pollingStatus == old(pollingStatus)
        && polls == old(polls) && intervals == old(intervals) && intervalRef == old(intervalRef)
        && nextTimer == old(nextTimer)
      ensures unchanged(this`subjects, this`selectedSectionId)
      ensures unchanged(this`timeouts, this`navigated, this`mounted, this`runs, this`sections, this`teachers, this`loadingLists)
    {
      var sectionIdToNavigate := solving[k];
      solving := Without(solving, k);
      match reply {
        case Failed(e) =>
          error := StartError(e);
          loading := false;
        case Ok(res) =>
          if !HasProblemId(res) {
            MissingProblemIdError();
            error := StartError(HttpError(None, "", NoProblemId));
            loading := false;
            return;
          }
          BeginPolling(PollTarget(res.problemId.value, sectionIdToNavigate),
                       if res.message != "" then res.message else StartedMessage);
      }
    }

    /** A solve reply with a problemId: the success line, the immediate status
        check and a new interval held by the ref. */
    method BeginPolling(target: PollTarget, message: string)
      requires Valid() && |solving| + nextTimer < runs && message != ""
      modifies this
      ensures Valid()
      ensures success == message && pollingStatus == OptimizingMessage
      ensures polls == old(polls) + [target]
      ensures intervals == old(intervals)[old(nextTimer) := target]
      ensures intervalRef == Some(old(nextTimer)) && nextTimer == old(nextTimer) + 1
      ensures unchanged(this`subjects, this`selectedSectionId, this`loading, this`error, this`solving)
      ensures unchanged(this`timeouts, this`navigated, this`mounted, this`runs, this`sections, this`teachers, this`loadingLists)
    {
      success := message;
      StartPoll(target);
      intervals := intervals[nextTimer := target];
      intervalRef := Some(nextTimer);
      nextTimer := nextTimer + 1;
    }

    /** Interval `t` fires and checks the status again. */
    method Tick(t: nat)
      requires Valid() && t in intervals
      modifies this
      ensures Valid()
      ensures polls == old(polls) + [old(intervals)[t]] && pollingStatus == OptimizingMessage
      ensures unchanged(this`subjects, this`selectedSectionId, this`loading, this`error, this`success)
      ensures unchanged(this`intervals, this`intervalRef, this`nextTimer, this`solving)
      ensures unchanged(this`timeouts, this`navigated, this`mounted, this`runs, this`sections, this`teachers, this`loadingLists)
    {
      StartPoll(intervals[t]);
    }

    /** The rest of `checkSolverStatus`, when the reply to status request `k`
        arrives. Every terminal outcome first stops the interval in the ref;
        nothing ties the reply to the run now in progress. */
    method PollReplied(k: nat, reply: Reply<string>)
      requires Valid() && k < |polls|
      modifies this
      ensures Valid()
      ensures polls == Without(old(polls), k)
      ensures reply.Ok? && ClassifyStatus(reply.value).KeepPolling? ==>
        && pollingStatus == ClassifyStatus(reply.value).message
        && intervals == old(intervals) && intervalRef == old(intervalRef)
        && loading == old(loading) && error == old(error) && success == old(success)
        && timeouts == old(timeouts)
      ensures reply.Ok? && ClassifyStatus(reply.value).Finished? ==>
        && pollingStatus == FinishedMessage && success == CompleteMessage && !loading
        && intervals == old(intervals) - RefSet(old(intervalRef)) && intervalRef == None
        && error == old(error) && timeouts == old(timeouts) + [ResultPath(old(polls)[k].sectionId)]
      ensures reply.Ok? && ClassifyStatus(reply.value).Unexpected? ==>
        && error == UnexpectedStatusError(reply.value) && pollingStatus == "" && !loading
        && intervals == old(intervals) - RefSet(old(intervalRef)) && intervalRef == None
        && success == old(success) && timeouts == old(timeouts)
      ensures reply.Failed? ==>
        && error == PollFailureError(reply.error) && pollingStatus == "" && !loading
        && intervals == old(intervals) - RefSet(old(intervalRef)) && intervalRef == None
        && success == old(success) && timeouts == old(timeouts)
      ensures unchanged(this`subjects, this`selectedSectionId, this`nextTimer, this`solving)
      ensures unchanged(this`navigated, this`mounted, this`runs, this`sections, this`teachers, this`loadingLists)
    {
      var target := polls[k];
      polls := Without(polls, k);
      match reply {
        case Failed(e) =>
          FailPolling(PollFailureError(e));
        case Ok(status) =>
          match ClassifyStatus(status) {
            case KeepPolling(message) =>
              pollingStatus := message;
            case Finished =>
              CompletePolling(target.sectionId);
            case Unexpected =>
              FailPolling(UnexpectedStatusError(status));
          }
      }
    }

    /** Navigation timeout `k` fires. */
    method Settle(k: nat)
      requires Valid() && k < |timeouts|
      modifies this
      ensures Valid()
      ensures timeouts == Without(old(timeouts), k) && navigated == old(navigated) + [old(timeouts)[k]]
      ensures unchanged(this`subjects, this`selectedSectionId, this`loading, this`error, this`success)
      ensures unchanged(this`pollingStatus, this`intervals, this`intervalRef, this`nextTimer, this`solving)
      ensures unchanged(this`polls, this`mounted, this`runs, this`sections, this`teachers, this`loadingLists)
    {
      navigated := navigated + [timeouts[k]];
      timeouts := Without(timeouts, k);
    }

    /** The effect cleanup: clears the interval in the ref, without clearing
        the ref itself. */
    method Unmount()
      requires Valid()
      modifies this
      ensures Valid() && !mounted
      ensures intervals == old(intervals) - RefSet(old(intervalRef)) && intervalRef == old(intervalRef)
      ensures unchanged(this`subjects, this`selectedSectionId, this`loading, this`error, this`success)
      ensures unchanged(this`pollingStatus, this`nextTimer, this`solving, this`polls)
      ensures unchanged(this`timeouts, this`navigated, this`runs, this`sections, this`teachers, this`loadingLists)
    {
      if intervalRef.Some? {
        intervals := intervals - {intervalRef.value};
      }
      mounted := false;
    }
  }

  /** In every state the handlers can reach, at most one interval is live
      and at most one solve request is out; the button is enabled only
      before the page's one run, and never again once it is sent. */
  lemma OneRunPerPage(g: Generator)
    requires g.Valid()
    ensures |g.intervals| <= 1 && |g.solving| <= 1
    ensures g.SubmitEnabled() ==> g.runs == 0 && g.solving == [] && g.intervals == map[] && g.nextTimer == 0
    ensures g.runs == 1 ==> !g.SubmitEnabled()
  {
    if g.intervals != map[] {
      var t :| t in g.intervals;
      assert g.intervals.Keys == {t};
    }
  }

  // ---------------------------------------------------------------------------
  // Interleavings the page allows

  /** A page with one section selected and one complete subject, ready to
      submit. */
  method ReadyPage(sectionId: string) returns (g: Generator)
    requires sectionId != ""
    ensures fresh(g) && g.Valid() && g.mounted && g.SubmitEnabled()
    ensures g.selectedSectionId == sectionId && !MissingCodeOrName(g.subjects)
    ensures g.intervals == map[] && g.intervalRef == None && g.nextTimer == 0
    ensures g.solving == [] && g.polls == [] && g.timeouts == [] && g.navigated == []
  {
    g := new Generator(Ok(([], [])));
    g.SelectSection(sectionId);
    g.ChangeSubject(0, InputEvent(SubjectCodeField, "CS101", false, false));
    g.ChangeSubject(0, InputEvent(SubjectNameField, "Programming", false, false));
    assert g.subjects[0].subjectCode == Text("CS101");
    assert g.subjects[0].subjectName == Text("Programming");
  }

  /** One run: the solve request for problem "P1" is accepted, the interval
      fires once while the immediate check is out, and the immediate check
      reports completion. The interval's check is still in flight. The form
      is hidden while the request is out, while the status is polled and
      after the run, so the page starts no second run. */
  method FinishedRun(sectionId: string) returns (g: Generator, whileSending: bool, whilePolling: bool)
    requires sectionId != ""
    ensures fresh(g) && g.Valid() && g.mounted
    ensures !whileSending && !whilePolling && !g.SubmitEnabled()
    ensures g.success == CompleteMessage && !g.loading
    ensures g.intervals == map[] && g.intervalRef == None && g.nextTimer == 1
    ensures g.solving == [] && g.polls == [PollTarget("P1", sectionId)]
    ensures g.timeouts == [ResultPath(sectionId)] && g.navigated == []
  {
    g := ReadyPage(sectionId);
    var _ := g.Submit();
    whileSending := g.SubmitEnabled();
    g.SolveReplied(0, Ok(SolveResponse(Some("P1"), "")));
    whilePolling := g.SubmitEnabled();
    g.Tick(0);
    g.PollReplied(0, Ok("NOT_SOLVING"));
  }

  /** The immediate check and the first interval check overlap. Once the
      first reply reports completion, the second, older answer still lands:
      the page announces success while its status line says the solver is
      still working. */
  method StaleStatusAfterCompletion() returns (success: string, status: string, loading: bool)
    ensures success == CompleteMessage && status == ActiveMessage && !loading
  {
    var g, _, _ := FinishedRun("S1");
    g.PollReplied(0, Ok("SOLVING_ACTIVE"));
    success, status, loading := g.success, g.pollingStatus, g.loading;
  }

  /** A run whose solve request was accepted and whose first status check is
      out. */
  method PollingPage(sectionId: string) returns (g: Generator)
    requires sectionId != ""
    ensures fresh(g) && g.Valid() && g.mounted
    ensures g.intervals == map[0 := PollTarget("P1", sectionId)] && g.intervalRef == Some(0)
    ensures g.polls == [PollTarget("P1", sectionId)] && g.solving == []
  {
    g := ReadyPage(sectionId);
    var _ := g.Submit();
    g.SolveReplied(0, Ok(SolveResponse(Some("P1"), "")));
  }

  /** A failed status check stops the interval and leaves the error on
      screen; the form stays hidden, so no run can follow on this page. */
  method FailedCheckEndsPage() returns (live: map<nat, PollTarget>, error: string, gateOpen: bool)
    ensures live == map[] && !gateOpen
    ensures error == PollFailureError(HttpError(None, "ERR_NETWORK", "Network Error"))
  {
    var g := PollingPage("S1");
    g.PollReplied(0, Failed(HttpError(None, "ERR_NETWORK", "Network Error")));
    live, error, gateOpen := g.intervals, g.error, g.SubmitEnabled();
  }

  /** The navigation the finished run scheduled opens the section's
      timetable; the unmount that follows finds no interval left. */
  method RunNavigates() returns (navigated: seq<string>, live: map<nat, PollTarget>)
    ensures navigated == ["/schedule/section/S1"] && live == map[]
  {
    var g, _, _ := FinishedRun("S1");
    g.Settle(0);
    g.Unmount();
    assert ResultPath("S1") == "/schedule/section/S1";
    navigated, live := g.navigated, g.intervals;
  }
}
