/** src/components/SectionsPage.js: the section list with its create/edit
    form. Each handler runs from the click to the end of its request; the
    server's reply is a parameter. */
module Sections {
  import opened Js
  import opened Api
  import opened Entities
  import opened Lists
  import opened Sorting

  /** The form's text fields, as the inputs hold them. */
  datatype SectionForm = SectionForm(program: string, yearLevel: string, sectionName: string,
                                     numberOfStudents: string)

  const EmptyForm := SectionForm("", "", "", "")

  /** `dataToSubmit`: the form with the two numeric fields parsed. */
  datatype SectionInput = SectionInput(program: string, yearLevel: int, sectionName: string,
                                       numberOfStudents: int)

  datatype SaveRequest = Put(id: string, data: SectionInput) | Post(data: SectionInput)

  const YearLevelError := "Year Level must be a valid positive number."
  const StudentsError := "Number of Students must be a valid positive number."
  const EditDenied := "You do not have permission to edit sections."
  const LoadError := "Failed to load sections. Please ensure the backend is running."

  /** The checks at the top of `handleFormSubmit`, year level first. */
  function CheckForm(f: SectionForm): (r: Checked<SectionInput>)
    ensures r.Accepted? <==> IsPositiveInt(f.yearLevel) && IsPositiveInt(f.numberOfStudents)
    ensures !IsPositiveInt(f.yearLevel) ==> r == Rejected(YearLevelError)
    ensures IsPositiveInt(f.yearLevel) && !IsPositiveInt(f.numberOfStudents) ==> r == Rejected(StudentsError)
    ensures r.Accepted? ==>
      && r.value.program == f.program && r.value.sectionName == f.sectionName
      && Some(r.value.yearLevel) == ParseInt(f.yearLevel) && r.value.yearLevel > 0
      && Some(r.value.numberOfStudents) == ParseInt(f.numberOfStudents) && r.value.numberOfStudents > 0
  {
    if !IsPositiveInt(f.yearLevel) then Rejected(YearLevelError)
    else if !IsPositiveInt(f.numberOfStudents) then Rejected(StudentsError)
    else Accepted(SectionInput(f.program, ParseInt(f.yearLevel).value, f.sectionName,
                               ParseInt(f.numberOfStudents).value))
  }

  /** The form `handleEdit` fills in for a section. */
  function FormOf(s: Section): SectionForm {
    SectionForm(s.program, IntToString(s.yearLevel), s.sectionName, IntToString(s.numberOfStudents))
  }

  /** Editing a section and saving it unchanged submits the section's own
      values; a section whose numbers are not positive cannot be saved. */
  lemma EditedFormRoundTrip(s: Section)
    ensures s.yearLevel > 0 && s.numberOfStudents > 0 ==>
      CheckForm(FormOf(s)) == Accepted(SectionInput(s.program, s.yearLevel, s.sectionName, s.numberOfStudents))
    ensures s.yearLevel <= 0 ==> CheckForm(FormOf(s)) == Rejected(YearLevelError)
  {
    ParseIntOfIntToString(s.yearLevel);
    ParseIntOfIntToString(s.numberOfStudents);
  }

  /** The table's comparator: program, then year level, then section name. */
  function CompareSections(a: Section, b: Section): (r: int)
    ensures r == 0 <==> a.program == b.program && a.yearLevel == b.yearLevel && a.sectionName == b.sectionName
    ensures r < 0 <==> (CompareStrings(a.program, b.program) < 0
      || (a.program == b.program && a.yearLevel < b.yearLevel)
      || (a.program == b.program && a.yearLevel == b.yearLevel && CompareStrings(a.sectionName, b.sectionName) < 0))
  {
    if a.program != b.program then CompareStrings(a.program, b.program)
    else if a.yearLevel != b.yearLevel then a.yearLevel - b.yearLevel
    else CompareStrings(a.sectionName, b.sectionName)
  }

  /** `a` comes no later than `b` in (program, year level, name) order. */
  predicate SectionKeyLe(a: Section, b: Section) {
    || CompareStrings(a.program, b.program) < 0
    || (a.program == b.program && a.yearLevel < b.yearLevel)
    || (a.program == b.program && a.yearLevel == b.yearLevel
        && CompareStrings(a.sectionName, b.sectionName) <= 0)
  }

  lemma CompareSectionsConsistent()
    ensures ConsistentComparator(CompareSections)
  {
    forall a: Section, b: Section
      ensures CompareSections(a, b) <= 0 || CompareSections(b, a) <= 0
    {
      CompareStringsAntisymmetric(a.program, b.program);
      CompareStringsAntisymmetric(a.sectionName, b.sectionName);
    }
    forall a: Section, b: Section, c: Section | CompareSections(a, b) <= 0 && CompareSections(b, c) <= 0
      ensures CompareSections(a, c) <= 0
    {
      CompareStringsAntisymmetric(a.program, b.program);
      CompareStringsAntisymmetric(b.program, c.program);
      if CompareStrings(a.program, b.program) <= 0 && CompareStrings(b.program, c.program) <= 0 {
        CompareStringsTransitive(a.program, b.program, c.program);
      }
      if CompareStrings(a.sectionName, b.sectionName) <= 0 && CompareStrings(b.sectionName, c.sectionName) <= 0 {
        CompareStringsTransitive(a.sectionName, b.sectionName, c.sectionName);
      }
    }
  }

  /** The order the table shows. */
  function DisplayOrder(sections: seq<Section>): seq<Section> {
    Sort(sections, CompareSections)
  }

  /** The table lists every section once and orders them by program, then year
      level, then section name. */
  lemma DisplayOrderSorted(sections: seq<Section>)
    ensures multiset(DisplayOrder(sections)) == multiset(sections)
    ensures forall i, j :: 0 <= i < j < |DisplayOrder(sections)| ==>
      SectionKeyLe(DisplayOrder(sections)[i], DisplayOrder(sections)[j])
  {
    CompareSectionsConsistent();
    SortSorted(sections, CompareSections);
    var out := DisplayOrder(sections);
    forall i, j | 0 <= i < j < |out|
      ensures SectionKeyLe(out[i], out[j])
    {
      assert CompareSections(out[i], out[j]) <= 0;
    }
  }

  const PromptStart := "Are you sure you want to delete "
  const PromptEnd := "? This will also remove it from any generated schedules."

  /** The question `handleDelete` asks before deleting: it names the first
      section with that id, or says "this section" when none is listed. */
  function DeletePrompt(sections: seq<Section>, id: string): (q: string)
    ensures FindById(sections, SectionId, id).Some? ==>
      q == PromptStart + SectionLabel(FindById(sections, SectionId, id).value) + PromptEnd
    ensures (forall i :: 0 <= i < |sections| ==> sections[i].id != id) ==>
      q == PromptStart + "this section" + PromptEnd
  {
    var found := FindById(sections, SectionId, id);
    PromptStart + (if found.Some? then SectionLabel(found.value) else "this section") + PromptEnd
  }

  class SectionsPage {
    var sections: seq<Section>
    var formData: SectionForm
    var isEditing: bool
    var currentSectionId: Option<string>
    var saveLoading: bool
    var error: string

    /** The form edits a section exactly when it knows that section's id. */
    ghost predicate Valid()
      reads this
    {
      isEditing == currentSectionId.Some?
    }

    /** Mounting the page and the end of its initial fetch. */
    constructor (fetched: Reply<seq<Section>>)
      ensures Valid()
      ensures fetched.Ok? ==> sections == fetched.value && error == ""
      ensures fetched.Failed? ==> sections == [] && error == LoadError
      ensures formData == EmptyForm && !isEditing && currentSectionId == None && !saveLoading
    {
      formData := EmptyForm;
      isEditing := false;
      currentSectionId := None;
      saveLoading := false;
      match fetched {
        case Ok(list) =>
          sections := list;
          error := "";
        case Failed(_) =>
          sections := [];
          error := LoadError;
      }
    }

    /** `resetForm` */
    method ResetForm()
      modifies this
      ensures Valid()
      ensures formData == EmptyForm && !isEditing && currentSectionId == None
      ensures sections == old(sections) && saveLoading == old(saveLoading) && error == old(error)
    {
      formData := EmptyForm;
      isEditing := false;
      currentSectionId := None;
    }

    /** `handleFormSubmit`: returns the request it sent, if any. */
    method Submit(isAdmin: bool, reply: Reply<Section>) returns (sent: Option<SaveRequest>)
      requires Valid()
      modifies this
      ensures Valid() && !saveLoading
      ensures CheckForm(old(formData)).Rejected? ==>
        && sent == None && error == CheckForm(old(formData)).message
        && sections == old(sections) && formData == old(formData)
        && isEditing == old(isEditing) && currentSectionId == old(currentSectionId)
      ensures CheckForm(old(formData)).Accepted? && old(isEditing) && !isAdmin ==>
        && sent == None && error == EditDenied
        && sections == old(sections) && formData == old(formData)
        && isEditing == old(isEditing) && currentSectionId == old(currentSectionId)
      ensures CheckForm(old(formData)).Accepted? && (old(isEditing) ==> isAdmin) ==>
        var data := CheckForm(old(formData)).value;
        && sent == Some(if old(isEditing) then Put(old(currentSectionId).value, data) else Post(data))
        && (reply.Ok? ==>
              && sections == (if old(isEditing)
                              then ReplaceById(old(sections), SectionId, old(currentSectionId).value, reply.value)
                              else old(sections) + [reply.value])
              && formData == EmptyForm && !isEditing && currentSectionId == None && error == "")
        && (reply.Failed? ==>
              && sections == old(sections) && formData == old(formData)
              && isEditing == old(isEditing) && currentSectionId == old(currentSectionId)
              && error == "Failed to save section. " + MessageOr(reply.error, "Please try again."))
    {
      error := "";
      saveLoading := true;
      sent := None;
      var checked := CheckForm(formData);
      if checked.Rejected? {
        error := checked.message;
        saveLoading := false;
        return;
      }
      var data := checked.value;
      if isEditing {
        if !isAdmin {
          error := EditDenied;
          saveLoading := false;
          return;
        }
        sent := Some(Put(currentSectionId.value, data));
      } else {
        sent := Some(Post(data));
      }
      match reply {
        case Ok(saved) =>
          if isEditing {
            sections := ReplaceById(sections, SectionId, currentSectionId.value, saved);
          } else {
            sections := sections + [saved];
          }
          ResetForm();
        case Failed(e) =>
          error := "Failed to save section. " + MessageOr(e, "Please try again.");
      }
      saveLoading := false;
    }

    /** `handleEdit`: only an admin can load a section into the form. */
    method Edit(section: Section, isAdmin: bool)
      requires Valid()
      modifies this
      ensures Valid()
      ensures !isAdmin ==>
        formData == old(formData) && isEditing == old(isEditing) && currentSectionId == old(currentSectionId)
      ensures isAdmin ==> formData == FormOf(section) && isEditing && currentSectionId == Some(section.id)
      ensures sections == old(sections) && saveLoading == old(saveLoading) && error == old(error)
    {
      if !isAdmin {
        return;
      }
      formData := FormOf(section);
      isEditing := true;
      currentSectionId := Some(section.id);
    }

    /** `handleDelete`: only an admin, and only after confirming, sends the
        delete; success drops every section with that id and clears the form
        if it was editing that section. Returns the question asked and whether
        a request was sent; `confirmed` is the user's answer. */
    method Delete(id: string, isAdmin: bool, confirmed: bool, reply: Reply<()>)
      returns (asked: Option<string>, sent: bool)
      requires Valid()
      modifies this
      ensures Valid()
      ensures asked == (if isAdmin then Some(DeletePrompt(old(sections), id)) else None)
      ensures sent == (isAdmin && confirmed)
      ensures !sent ==>
        && sections == old(sections) && formData == old(formData) && isEditing == old(isEditing)
        && currentSectionId == old(currentSectionId) && error == old(error)
      ensures sent && reply.Ok? ==>
        && sections == RemoveById(old(sections), SectionId, id) && error == ""
        && (old(isEditing) && old(currentSectionId) == Some(id) ==>
              formData == EmptyForm && !isEditing && currentSectionId == None)
        && (!(old(isEditing) && old(currentSectionId) == Some(id)) ==>
              formData == old(formData) && isEditing == old(isEditing)
              && currentSectionId == old(currentSectionId))
      ensures sent && reply.Failed? ==>
        && sections == old(sections) && formData == old(formData) && isEditing == old(isEditing)
        && currentSectionId == old(currentSectionId)
        && error == "Failed to delete section. " + MessageOr(reply.error, "The server might be down.")
      ensures saveLoading == old(saveLoading)
    {
      sent, asked := false, None;
      if !isAdmin {
        return;
      }
      asked := Some(DeletePrompt(sections, id));
      if !confirmed {
        return;
      }
      sent := true;
      error := "";
      match reply
      case Ok(_) =>
        sections := RemoveById(sections, SectionId, id);
        if isEditing && currentSectionId == Some(id) {
          ResetForm();
        }
      case Failed(e) =>
        error := "Failed to delete section. " + MessageOr(e, "The server might be down.");
    }
  }
}
