/** src/components/SchedulePage.js: the timetable of one teacher, classroom
    or section (`/schedule/:type/:id`), with the id-to-record lookup maps the
    table uses for names. */
module Schedule {
  import opened Js
  import opened Api
  import opened Entities
  import opened Sorting

  // ---------------------------------------------------------------------------
  // Lookup maps

  /** The map `createMap` builds: each record under its id, a later record
      replacing an earlier one with the same id. */
  function MapOf<T>(data: seq<T>, idOf: T -> string): (m: map<string, T>)
    ensures forall k :: k in m ==> idOf(m[k]) == k
    ensures |m.Keys| <= |data|
  {
    if data == [] then map[]
    else MapOf(data[..|data| - 1], idOf)[idOf(data[|data| - 1]) := data[|data| - 1]]
  }

  /** The keys are exactly the ids in the list. */
  lemma {:induction false} MapOfKeys<T>(data: seq<T>, idOf: T -> string, k: string)
    ensures k in MapOf(data, idOf) <==> exists i :: 0 <= i < |data| && idOf(data[i]) == k
  {
    if data != [] {
      var init := data[..|data| - 1];
      MapOfKeys(init, idOf, k);
      if exists i :: 0 <= i < |init| && idOf(init[i]) == k {
        var i :| 0 <= i < |init| && idOf(init[i]) == k;
        assert data[i] == init[i];
      }
      if exists i :: 0 <= i < |data| && idOf(data[i]) == k {
        var i :| 0 <= i < |data| && idOf(data[i]) == k;
        if i < |init| {
          assert init[i] == data[i];
        }
      }
    }
  }

  /** Under each id sits the last record carrying it. */
  lemma {:induction false} MapOfLastWins<T>(data: seq<T>, idOf: T -> string, i: nat)
    requires i < |data|
    requires forall j :: i < j < |data| ==> idOf(data[j]) != idOf(data[i])
    ensures idOf(data[i]) in MapOf(data, idOf) && MapOf(data, idOf)[idOf(data[i])] == data[i]
  {
    if i < |data| - 1 {
      var init := data[..|data| - 1];
      assert init[i] == data[i];
      MapOfLastWins(init, idOf, i);
    }
  }

  /** `createMap`: the `reduce` that stores every record under its id in one
      accumulator. */
  method CreateMap<T>(data: seq<T>, idOf: T -> string) returns (acc: map<string, T>)
    ensures acc == MapOf(data, idOf)
    ensures forall k :: k in acc <==> exists i :: 0 <= i < |data| && idOf(data[i]) == k
    ensures forall i :: 0 <= i < |data| && (forall j :: i < j < |data| ==> idOf(data[j]) != idOf(data[i])) ==>
      acc[idOf(data[i])] == data[i]
  {
    acc := map[];
    var n := 0;
    while n < |data|
      invariant n <= |data|
      invariant acc == MapOf(data[..n], idOf)
    {
      assert data[..n + 1][..n] == data[..n];
      acc := acc[idOf(data[n]) := data[n]];
      n := n + 1;
    }
    assert data[..n] == data;
    forall k
      ensures k in acc <==> exists i :: 0 <= i < |data| && idOf(data[i]) == k
    {
      MapOfKeys(data, idOf, k);
    }
    forall i | 0 <= i < |data| && (forall j :: i < j < |data| ==> idOf(data[j]) != idOf(data[i]))
      ensures acc[idOf(data[i])] == data[i]
    {
      MapOfLastWins(data, idOf, i);
    }
  }

  /** Two records with one id: the later one is kept. */
  lemma DuplicateIdLaterWins(a: Teacher, b: Teacher)
    requires a.id == b.id
    ensures MapOf([a, b], TeacherId) == map[a.id := b]
  {
    assert [a, b][..1] == [a];
    assert [a][..0] == [];
    assert MapOf([a], TeacherId) == map[a.id := a];
  }

  // ---------------------------------------------------------------------------
  // Owner, filter and names

  /** The record a timetable belongs to; its kind follows the `type` route
      parameter. */
  datatype Owner = TeacherOwner(teacher: Teacher) | ClassroomOwner(classroom: Classroom) | SectionOwner(section: Section)

  /** The three lookup maps of `allData`. */
  datatype Lookup = Lookup(teachers: map<string, Teacher>, sections: map<string, Section>,
                           classrooms: map<string, Classroom>)

  const EmptyLookup := Lookup(map[], map[], map[])

  /** The owner lookup of `fetchSchedules`; any other type finds nothing. */
  function FindOwner(ownerType: string, id: string, data: Lookup): (r: Option<Owner>)
    ensures r.Some? <==>
      || (ownerType == "teacher" && id in data.teachers)
      || (ownerType == "classroom" && id in data.classrooms)
      || (ownerType == "section" && id in data.sections)
    ensures r.Some? && ownerType == "teacher" ==> r.value == TeacherOwner(data.teachers[id])
    ensures r.Some? && ownerType == "classroom" ==> r.value == ClassroomOwner(data.classrooms[id])
    ensures r.Some? && ownerType == "section" ==> r.value == SectionOwner(data.sections[id])
  {
    if ownerType == "teacher" && id in data.teachers then Some(TeacherOwner(data.teachers[id]))
    else if ownerType == "classroom" && id in data.classrooms then Some(ClassroomOwner(data.classrooms[id]))
    else if ownerType == "section" && id in data.sections then Some(SectionOwner(data.sections[id]))
    else None
  }

  /** Whether an entry belongs to the owner `ownerType`/`id`. */
  predicate BelongsTo(e: ScheduleEntry, ownerType: string, id: string) {
    if ownerType == "teacher" then e.teacherId == Some(id)
    else if ownerType == "classroom" then e.classroomId == Some(id)
    else if ownerType == "section" then e.sectionId == Some(id)
    else false
  }

  /** The `filter` over all entries. */
  function FilterByOwner(all: seq<ScheduleEntry>, ownerType: string, id: string): (r: seq<ScheduleEntry>)
    ensures |r| <= |all|
    ensures forall e :: e in r <==> e in all && BelongsTo(e, ownerType, id)
  {
    if all == [] then []
    else
      var rest := FilterByOwner(all[1..], ownerType, id);
      assert forall e :: e in all <==> e == all[0] || e in all[1..];
      if BelongsTo(all[0], ownerType, id) then [all[0]] + rest else rest
  }

  /** Every entry of the owner is kept as often as the server sent it, and
      no other entry is kept. */
  lemma {:induction false} FilterByOwnerCounts(all: seq<ScheduleEntry>, ownerType: string, id: string)
    ensures forall e ::
      multiset(FilterByOwner(all, ownerType, id))[e] == if BelongsTo(e, ownerType, id) then multiset(all)[e] else 0
  {
    if all != [] {
      FilterByOwnerCounts(all[1..], ownerType, id);
      assert all == [all[0]] + all[1..];
    }
  }

  /** The filter keeps the entries in the order the server sent them: it
      works piece by piece. */
  lemma {:induction false} FilterByOwnerConcat(xs: seq<ScheduleEntry>, zs: seq<ScheduleEntry>, ownerType: string, id: string)
    ensures FilterByOwner(xs + zs, ownerType, id) == FilterByOwner(xs, ownerType, id) + FilterByOwner(zs, ownerType, id)
  {
    if xs != [] {
      assert (xs + zs)[1..] == xs[1..] + zs;
      FilterByOwnerConcat(xs[1..], zs, ownerType, id);
    } else {
      assert xs + zs == zs;
    }
  }

  /** A type other than the three owner kinds keeps no entry. */
  lemma UnknownTypeKeepsNothing(all: seq<ScheduleEntry>, ownerType: string, id: string)
    requires ownerType != "teacher" && ownerType != "classroom" && ownerType != "section"
    ensures FilterByOwner(all, ownerType, id) == []
  {
    if FilterByOwner(all, ownerType, id) != [] {
      assert FilterByOwner(all, ownerType, id)[0] in FilterByOwner(all, ownerType, id);
    }
  }

  /** The name of a teacher or classroom, `name || 'Unnamed {type}'`. */
  function NameOr(name: string, entityType: string): string {
    if name != "" then name else "Unnamed " + entityType
  }

  /** `getEntityName`: the label of a referenced record in the table. */
  function EntityName(entityType: string, entityId: Option<string>, data: Lookup): (r: string)
    ensures entityId.None? || entityId.value == "" ==> r == "N/A"
    ensures entityId.Some? && entityId.value != "" && entityType == "section" ==>
      r == (if |data.sections| == 0 then "Loading..."
            else if entityId.value !in data.sections then "Not Found"
            else SectionLabel(data.sections[entityId.value]))
    ensures entityId.Some? && entityId.value != "" && entityType == "teacher" ==>
      r == (if |data.teachers| == 0 then "Loading..."
            else if entityId.value !in data.teachers then "Not Found"
            else NameOr(data.teachers[entityId.value].name, "teacher"))
    ensures entityId.Some? && entityId.value != "" && entityType == "classroom" ==>
      r == (if |data.classrooms| == 0 then "Loading..."
            else if entityId.value !in data.classrooms then "Not Found"
            else NameOr(data.classrooms[entityId.value].name, "classroom"))
    ensures entityId.Some? && entityId.value != "" && entityType !in ["section", "teacher", "classroom"] ==>
      r == "Loading..."
  {
    if entityId.None? || entityId.value == "" then "N/A"
    else
      var k := entityId.value;
      if entityType == "teacher" then
        if |data.teachers| == 0 then "Loading..."
        else if k !in data.teachers then "Not Found"
        else NameOr(data.teachers[k].name, entityType)
      else if entityType == "classroom" then
        if |data.classrooms| == 0 then "Loading..."
        else if k !in data.classrooms then "Not Found"
        else NameOr(data.classrooms[k].name, entityType)
      else if entityType == "section" then
        if |data.sections| == 0 then "Loading..."
        else if k !in data.sections then "Not Found"
        else SectionLabel(data.sections[k])
      else "Loading..."
  }

  /** Once the lookup maps have been built from the fetched lists, a teacher
      id in the list is shown by the name of the last teacher with that id. */
  lemma EntityNameAfterFetch(teachers: seq<Teacher>, i: nat, data: Lookup)
    requires i < |teachers| && teachers[i].id != ""
    requires forall j :: i < j < |teachers| ==> teachers[j].id != teachers[i].id
    requires data.teachers == MapOf(teachers, TeacherId)
    ensures EntityName("teacher", Some(teachers[i].id), data) == NameOr(teachers[i].name, "teacher")
  {
    MapOfLastWins(teachers, TeacherId, i);
  }

  /** The heading text for an owner held in state. */
  function OwnerLabel(ownerType: string, o: Owner): (text: string)
    ensures ownerType == "teacher" && o.TeacherOwner? ==> text == o.teacher.name
    ensures ownerType == "classroom" && o.ClassroomOwner? ==> text == o.classroom.name
    ensures ownerType == "section" && o.SectionOwner? ==> text == SectionLabel(o.section)
    ensures ownerType != "teacher" && ownerType != "classroom" && ownerType != "section" ==> text == "Unknown"
  {
    if ownerType == "teacher" || ownerType == "classroom" then
      match o
      case TeacherOwner(t) => t.name
      case ClassroomOwner(c) => c.name
      case SectionOwner(s) => ""
    else if ownerType == "section" then
      match o
      case SectionOwner(s) => SectionLabel(s)
      case _ => ""
    else "Unknown"
  }

  /** `getOwnerName`: the owner in state, else the lookup maps once loaded,
      else `Selected {type}`. */
  function OwnerName(ownerType: string, id: string, owner: Option<Owner>, loading: bool, data: Lookup): (r: string)
    ensures owner.Some? ==> r == OwnerLabel(ownerType, owner.value)
    ensures owner.None? && (loading || |data.teachers| == 0) ==> r == "Selected " + ownerType
    ensures owner.None? && !loading && |data.teachers| > 0 ==>
      r == (if FindOwner(ownerType, id, data).Some? then OwnerLabel(ownerType, FindOwner(ownerType, id, data).value)
            else "Selected " + ownerType)
  {
    if owner.Some? then OwnerLabel(ownerType, owner.value)
    else if !loading && |data.teachers| > 0 then
      var found := FindOwner(ownerType, id, data);
      if found.Some? then OwnerLabel(ownerType, found.value) else "Selected " + ownerType
    else "Selected " + ownerType
  }

  // ---------------------------------------------------------------------------
  // Table order

  const DaysOrder := ["MONDAY", "TUESDAY", "WEDNESDAY", "THURSDAY", "FRIDAY", "SATURDAY", "SUNDAY"]

  /** `daysOrder.indexOf(day)`: -1 for a day not in the list. */
  function DayIndex(day: string): (r: int)
    ensures -1 <= r < |DaysOrder|
    ensures r >= 0 ==> DaysOrder[r] == day && forall j :: 0 <= j < r ==> DaysOrder[j] != day
    ensures r == -1 <==> day !in DaysOrder
  {
    if day == "MONDAY" then 0
    else if day == "TUESDAY" then 1
    else if day == "WEDNESDAY" then 2
    else if day == "THURSDAY" then 3
    else if day == "FRIDAY" then 4
    else if day == "SATURDAY" then 5
    else if day == "SUNDAY" then 6
    else -1
  }

  /** The table's comparator, by day and then by start time as text. */
  function CompareEntries(a: ScheduleEntry, b: ScheduleEntry): (r: int)
    ensures r < 0 <==> (DayIndex(a.dayOfWeek) < DayIndex(b.dayOfWeek)
      || (DayIndex(a.dayOfWeek) == DayIndex(b.dayOfWeek) && CompareStrings(a.startTime, b.startTime) < 0))
    ensures r == 0 <==> DayIndex(a.dayOfWeek) == DayIndex(b.dayOfWeek) && a.startTime == b.startTime
  {
    var days := DayIndex(a.dayOfWeek) - DayIndex(b.dayOfWeek);
    if days != 0 then days else CompareStrings(a.startTime, b.startTime)
  }

  lemma CompareEntriesConsistent()
    ensures ConsistentComparator(CompareEntries)
  {
    forall a: ScheduleEntry, b: ScheduleEntry
      ensures CompareEntries(a, b) <= 0 || CompareEntries(b, a) <= 0
    {
      CompareStringsAntisymmetric(a.startTime, b.startTime);
    }
    forall a: ScheduleEntry, b: ScheduleEntry, c: ScheduleEntry |
      CompareEntries(a, b) <= 0 && CompareEntries(b, c) <= 0
      ensures CompareEntries(a, c) <= 0
    {
      if CompareStrings(a.startTime, b.startTime) <= 0 && CompareStrings(b.startTime, c.startTime) <= 0 {
        CompareStringsTransitive(a.startTime, b.startTime, c.startTime);
      }
    }
  }

  function DisplayOrder(entries: seq<ScheduleEntry>): seq<ScheduleEntry> {
    Sort(entries, CompareEntries)
  }

  /** The table shows every entry once, days in week order (unknown days
      first), and within a day by start time. */
  lemma DisplayOrderByDay(entries: seq<ScheduleEntry>)
    ensures multiset(DisplayOrder(entries)) == multiset(entries)
    ensures forall i, j :: 0 <= i < j < |DisplayOrder(entries)| ==>
      var a, b := DisplayOrder(entries)[i], DisplayOrder(entries)[j];
      DayIndex(a.dayOfWeek) < DayIndex(b.dayOfWeek)
      || (DayIndex(a.dayOfWeek) == DayIndex(b.dayOfWeek) && CompareStrings(a.startTime, b.startTime) <= 0)
  {
    CompareEntriesConsistent();
    SortSorted(entries, CompareEntries);
  }

  /** The first row of the table is one of the entries, on the earliest day
      of the week among them. */
  lemma FirstRowEarliest(entries: seq<ScheduleEntry>)
    requires entries != []
    ensures |DisplayOrder(entries)| == |entries|
    ensures DisplayOrder(entries)[0] in entries
    ensures forall e :: e in entries ==> DayIndex(DisplayOrder(entries)[0].dayOfWeek) <= DayIndex(e.dayOfWeek)
  {
    DisplayOrderByDay(entries);
    var d := DisplayOrder(entries);
    assert |d| == |entries| by {
      assert |multiset(d)| == |multiset(entries)|;
    }
    assert d[0] in multiset(d);
    forall e | e in entries
      ensures DayIndex(d[0].dayOfWeek) <= DayIndex(e.dayOfWeek)
    {
      assert e in multiset(d);
      var j :| 0 <= j < |d| && d[j] == e;
    }
  }

  // ---------------------------------------------------------------------------
  // The page

  const LookupError := "Could not load supporting data for the schedule (teachers, sections, classrooms). Backend might be down."
  const ExportOnlySections := "Export is only available for section schedules."
  const ExportError := "Failed to export schedule. Please try again."
  const NoProblemIdAlert := "Cannot delete: This schedule does not have an associated problem ID (it may have been generated by an older version)."
  const DeletedAlert := "Schedule deleted successfully."

  function OwnerMissingError(ownerType: string, id: string): string {
    "The " + ownerType + " with ID " + id + " could not be found."
  }

  function ScheduleLoadError(ownerType: string): string {
    "Failed to load schedule for this " + ownerType + "."
  }

  const PromptStart := "Are you sure you want to delete this generated schedule (Problem ID: "
  const PromptEnd := ")? This action will remove ALL entries associated with this generation run and cannot be undone."

  function DeletePrompt(problemId: string): string {
    PromptStart + problemId + PromptEnd
  }

  /** `schedules[0]?.problemId`, when truthy. */
  function FirstProblemId(schedules: seq<ScheduleEntry>): (r: Option<string>)
    ensures r.Some? <==> |schedules| > 0 && schedules[0].problemId.Some? && schedules[0].problemId.value != ""
    ensures r.Some? ==> r == schedules[0].problemId
  {
    if |schedules| > 0 && schedules[0].problemId.Some? && schedules[0].problemId.value != "" then
      schedules[0].problemId
    else None
  }

  /** The export reply: the file name captured from `content-disposition`,
      None when the header is absent or does not match. */
  datatype ExportResponse = ExportResponse(headerFilename: Option<string>)

  function DefaultExportName(id: string): string {
    "Schedule_Section_" + id + ".xls"
  }

  class SchedulePage {
    const ownerType: string
    const id: string
    var schedules: seq<ScheduleEntry>
    var owner: Option<Owner>
    var allData: Lookup
    var loading: bool
    var error: string
    var navigatedTo: Option<string>

    /** An owner in state is the record the route names in the lookup maps.
        A later lookup (run again whenever an error shows) may replace the
        maps under an owner found earlier; the next `fetchSchedules` that
        gets past its guards finds the owner again. */
    ghost predicate Valid()
      reads this
    {
      owner.Some? ==> FindOwner(ownerType, id, allData) == owner
    }

    constructor (ownerType: string, id: string)
      ensures Valid()
      ensures this.ownerType == ownerType && this.id == id
      ensures schedules == [] && owner == None && allData == EmptyLookup
      ensures loading && error == "" && navigatedTo == None
    {
      this.ownerType := ownerType;
      this.id := id;
      schedules := [];
      owner := None;
      allData := EmptyLookup;
      loading := true;
      error := "";
      navigatedTo := None;
    }

    /** `fetchAllData`: skipped while the teacher map is filled and no error
        is shown. Returns whether the three lists were requested. */
    method FetchLookup(reply: Reply<(seq<Teacher>, seq<Section>, seq<Classroom>)>) returns (requested: bool)
      modifies this
      ensures requested <==> |old(allData.teachers)| == 0 || old(error) != ""
      ensures !requested ==> allData == old(allData) && error == old(error) && loading == old(loading)
      ensures requested && reply.Ok? ==>
        && allData == Lookup(MapOf(reply.value.0, TeacherId), MapOf(reply.value.1, SectionId),
                             MapOf(reply.value.2, ClassroomId))
        && error == "" && loading == old(loading)
      ensures requested && reply.Failed? ==> allData == old(allData) && error == LookupError && !loading
      ensures schedules == old(schedules) && owner == old(owner) && navigatedTo == old(navigatedTo)
    {
      requested := false;
      if |allData.teachers| > 0 && error == "" {
        return;
      }
      requested := true;
      match reply {
        case Ok(lists) =>
          var teachers := CreateMap(lists.0, TeacherId);
          var sections := CreateMap(lists.1, SectionId);
          var classrooms := CreateMap(lists.2, ClassroomId);
          allData := Lookup(teachers, sections, classrooms);
          error := "";
        case Failed(_) =>
          error := LookupError;
          loading := false;
      }
    }

    /** `fetchSchedules`: waits for the lookup data, finds the owner, then
        fetches every entry and keeps the owner's. Returns whether the entries
        were requested. */
    method FetchSchedules(reply: Reply<seq<ScheduleEntry>>) returns (requested: bool)
      modifies this
      ensures old(Valid()) || requested ==> Valid()
      ensures requested <==>
        |old(allData.teachers)| > 0 && old(error) == "" && FindOwner(ownerType, id, old(allData)).Some?
      ensures |old(allData.teachers)| == 0 || old(error) != "" ==>
        && schedules == old(schedules) && owner == old(owner) && error == old(error)
        && loading == (old(loading) && old(error) == "")
      ensures |old(allData.teachers)| > 0 && old(error) == "" && FindOwner(ownerType, id, old(allData)).None? ==>
        && error == OwnerMissingError(ownerType, id) && !loading
        && schedules == old(schedules) && owner == old(owner)
      ensures requested ==> owner == FindOwner(ownerType, id, old(allData)) && !loading
      ensures requested && reply.Ok? ==> schedules == FilterByOwner(reply.value, ownerType, id) && error == ""
      ensures requested && reply.Failed? ==> schedules == old(schedules) && error == ScheduleLoadError(ownerType)
      ensures allData == old(allData) && navigatedTo == old(navigatedTo)
    {
      requested := false;
      if |allData.teachers| == 0 || error != "" {
        if error != "" {
          loading := false;
        }
        return;
      }
      loading := true;
      error := "";
      var found := FindOwner(ownerType, id, allData);
      if found.None? {
        error := OwnerMissingError(ownerType, id);
        loading := false;
        return;
      }
      owner := found;
      requested := true;
      match reply {
        case Ok(all) =>
          schedules := FilterByOwner(all, ownerType, id);
        case Failed(_) =>
          error := ScheduleLoadError(ownerType);
      }
      loading := false;
    }

    /** `handleExport`: only section timetables export. Returns the alert
        shown, if any, and the name the file is saved under, if one was
        downloaded. */
    method Export(reply: Reply<ExportResponse>) returns (alert: Option<string>, filename: Option<string>)
      modifies this
      ensures ownerType != "section" ==>
        alert == Some(ExportOnlySections) && filename == None && error == old(error)
      ensures ownerType == "section" ==> alert == None
      ensures ownerType == "section" && reply.Ok? ==>
        && error == ""
        && filename == Some(if reply.value.headerFilename.Some? then reply.value.headerFilename.value
                            else DefaultExportName(id))
      ensures ownerType == "section" && reply.Failed? ==> filename == None && error == ExportError
      ensures schedules == old(schedules) && owner == old(owner) && allData == old(allData)
      ensures loading == old(loading) && navigatedTo == old(navigatedTo)
    {
      alert, filename := None, None;
      if ownerType != "section" {
        alert := Some(ExportOnlySections);
        return;
      }
      error := "";
      match reply {
        case Ok(res) =>
          var name := DefaultExportName(id);
          if res.headerFilename.Some? {
            name := res.headerFilename.value;
          }
          filename := Some(name);
        case Failed(_) =>
          error := ExportError;
      }
    }

    /** `handleDeleteSchedule`: an admin deletes the generation run of the
        first row shown, after confirming. The button is part of the rendered
        page, whose table sorts `schedules` in place, so `schedules[0]` is
        the first entry in display order when it is pressed. Returns the
        alert shown, the question asked and the run deleted, if any. */
    method DeleteSchedule(isAdmin: bool, confirmed: bool, reply: Reply<()>)
      returns (alert: Option<string>, asked: Option<string>, deleted: Option<string>)
      modifies this
      ensures Valid() == old(Valid())
      ensures !isAdmin ==> alert == None && asked == None && deleted == None && unchanged(this)
      ensures isAdmin && FirstProblemId(DisplayOrder(old(schedules))).None? ==>
        alert == Some(NoProblemIdAlert) && asked == None && deleted == None && unchanged(this)
      ensures isAdmin && FirstProblemId(DisplayOrder(old(schedules))).Some? ==>
        && asked == Some(DeletePrompt(FirstProblemId(DisplayOrder(old(schedules))).value))
        && deleted == (if confirmed then FirstProblemId(DisplayOrder(old(schedules))) else None)
      ensures isAdmin && FirstProblemId(DisplayOrder(old(schedules))).Some? && !confirmed ==> alert == None && unchanged(this)
      ensures deleted.Some? && reply.Ok? ==>
        schedules == [] && alert == Some(DeletedAlert) && navigatedTo == Some("/") && error == ""
      ensures deleted.Some? && reply.Failed? ==>
        && alert == None && schedules == old(schedules) && navigatedTo == old(navigatedTo)
        && error == "Failed to delete schedule. " + MessageOr(reply.error, "Please ensure the backend is running.")
      ensures owner == old(owner) && allData == old(allData) && loading == old(loading)
    {
      alert, asked, deleted := None, None, None;
      if !isAdmin {
        return;
      }
      var problemId := FirstProblemId(DisplayOrder(schedules));
      if problemId.None? {
        alert := Some(NoProblemIdAlert);
        return;
      }
      asked := Some(DeletePrompt(problemId.value));
      if !confirmed {
        return;
      }
      deleted := problemId;
      alert := DeleteReplied(reply);
    }

    /** The end of `handleDeleteSchedule`, once the delete has been sent. */
    method DeleteReplied(reply: Reply<()>) returns (alert: Option<string>)
      modifies this
      ensures Valid() == old(Valid())
      ensures reply.Ok? ==>
        schedules == [] && alert == Some(DeletedAlert) && navigatedTo == Some("/") && error == ""
      ensures reply.Failed? ==>
        && alert == None && schedules == old(schedules) && navigatedTo == old(navigatedTo)
        && error == "Failed to delete schedule. " + MessageOr(reply.error, "Please ensure the backend is running.")
      ensures owner == old(owner) && allData == old(allData) && loading == old(loading)
    {
      alert := None;
      error := "";
      match reply {
        case Ok(_) =>
          schedules := [];
          alert := Some(DeletedAlert);
          navigatedTo := Some("/");
        case Failed(e) =>
          error := "Failed to delete schedule. " + MessageOr(e, "Please ensure the backend is running.");
      }
    }
  }

  /** A failed delete shows an error, so the lookup runs again; when the
      owner's record changed on the server meanwhile, the page leaves the
      stale owner in state until the next `fetchSchedules` finds the new
      record. */
  method OwnerRefreshedAfterError() returns (before: Option<Owner>, stale: bool, after: Option<Owner>)
    ensures before == Some(TeacherOwner(Teacher("7", "Ada", "CS")))
    ensures stale
    ensures after == Some(TeacherOwner(Teacher("7", "Ada L.", "CS")))
  {
    var p := new SchedulePage("teacher", "7");
    var requested := p.FetchLookup(Ok(([Teacher("7", "Ada", "CS")], [], [])));
    requested := p.FetchSchedules(Ok([]));
    before := p.owner;
    var alert := p.DeleteReplied(Failed(HttpError(None, "", "")));
    requested := p.FetchLookup(Ok(([Teacher("7", "Ada L.", "CS")], [], [])));
    stale := p.owner != FindOwner("teacher", "7", p.allData);
    requested := p.FetchSchedules(Ok([]));
    after := p.owner;
  }
}
