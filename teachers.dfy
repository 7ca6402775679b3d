/** src/components/TeachersPage.js: the teacher list with its create/edit
    form. There is no field validation: the form is submitted as it is. */
module Teachers {
  import opened Js
  import opened Api
  import opened Entities
  import opened Lists
  import opened Sorting

  datatype TeacherForm = TeacherForm(name: string, department: string)

  const EmptyForm := TeacherForm("", "")

  /** The request body is the form itself. */
  datatype SaveRequest = Put(id: string, data: TeacherForm) | Post(data: TeacherForm)

  const EditDenied := "You do not have permission to edit teachers."
  const LoadError := "Failed to load teachers. Please ensure the backend is running."
  const PromptStart := "Are you sure you want to delete "
  const PromptEnd := "? This will also remove them from any generated schedules."

  /** The form `handleEdit` fills in for a teacher. */
  function FormOf(t: Teacher): TeacherForm {
    TeacherForm(t.name, t.department)
  }

  /** The table's comparator: by name. */
  function CompareTeachers(a: Teacher, b: Teacher): (r: int)
    ensures r == 0 <==> a.name == b.name
    ensures r > 0 <==> CompareStrings(b.name, a.name) < 0
  {
    CompareStringsAntisymmetric(a.name, b.name);
    CompareStrings(a.name, b.name)
  }

  lemma CompareTeachersConsistent()
    ensures ConsistentComparator(CompareTeachers)
  {
    forall a: Teacher, b: Teacher
      ensures CompareTeachers(a, b) <= 0 || CompareTeachers(b, a) <= 0
    {
      CompareStringsAntisymmetric(a.name, b.name);
    }
    forall a: Teacher, b: Teacher, c: Teacher |
      CompareTeachers(a, b) <= 0 && CompareTeachers(b, c) <= 0
      ensures CompareTeachers(a, c) <= 0
    {
      CompareStringsTransitive(a.name, b.name, c.name);
    }
  }

  function DisplayOrder(teachers: seq<Teacher>): seq<Teacher> {
    Sort(teachers, CompareTeachers)
  }

  /** The table lists every teacher once, ordered by name. */
  lemma DisplayOrderSorted(teachers: seq<Teacher>)
    ensures multiset(DisplayOrder(teachers)) == multiset(teachers)
    ensures forall i, j :: 0 <= i < j < |DisplayOrder(teachers)| ==>
      CompareStrings(DisplayOrder(teachers)[i].name, DisplayOrder(teachers)[j].name) <= 0
  {
    CompareTeachersConsistent();
    SortSorted(teachers, CompareTeachers);
  }

  /** The question `handleDelete` asks: the first matching teacher's name, or
      "this teacher". */
  function DeletePrompt(teachers: seq<Teacher>, id: string): (q: string)
    ensures FindById(teachers, TeacherId, id).Some? ==>
      q == PromptStart + FindById(teachers, TeacherId, id).value.name + PromptEnd
    ensures (forall i :: 0 <= i < |teachers| ==> teachers[i].id != id) ==>
      q == PromptStart + "this teacher" + PromptEnd
  {
    var found := FindById(teachers, TeacherId, id);
    PromptStart + (if found.Some? then found.value.name else "this teacher") + PromptEnd
  }

  class TeachersPage {
    var teachers: seq<Teacher>
    var formData: TeacherForm
    var isEditing: bool
    var currentTeacherId: Option<string>
    var saveLoading: bool
    var error: string

    /** The form edits a teacher exactly when it knows its id. */
    ghost predicate Valid()
      reads this
    {
      isEditing == currentTeacherId.Some?
    }

    /** Mounting the page and the end of its initial fetch. */
    constructor (fetched: Reply<seq<Teacher>>)
      ensures Valid()
      ensures fetched.Ok? ==> teachers == fetched.value && error == ""
      ensures fetched.Failed? ==> teachers == [] && error == LoadError
      ensures formData == EmptyForm && !isEditing && currentTeacherId == None && !saveLoading
    {
      formData := EmptyForm;
      isEditing := false;
      currentTeacherId := None;
      saveLoading := false;
      match fetched {
        case Ok(list) =>
          teachers := list;
          error := "";
        case Failed(_) =>
          teachers := [];
          error := LoadError;
      }
    }

    /** `resetForm` */
    method ResetForm()
      modifies this
      ensures Valid()
      ensures formData == EmptyForm && !isEditing && currentTeacherId == None
      ensures teachers == old(teachers) && saveLoading == old(saveLoading) && error == old(error)
    {
      formData := EmptyForm;
      isEditing := false;
      currentTeacherId := None;
    }

    /** `handleFormSubmit`: returns the request it sent, if any. */
    method Submit(isAdmin: bool, reply: Reply<Teacher>) returns (sent: Option<SaveRequest>)
      requires Valid()
      modifies this
      ensures Valid() && !saveLoading
      ensures old(isEditing) && !isAdmin ==>
        && sent == None && error == EditDenied
        && teachers == old(teachers) && formData == old(formData)
        && isEditing == old(isEditing) && currentTeacherId == old(currentTeacherId)
      ensures (old(isEditing) ==> isAdmin) ==>
        && sent == Some(if old(isEditing) then Put(old(currentTeacherId).value, old(formData)) else Post(old(formData)))
        && (reply.Ok? ==>
              && teachers == (if old(isEditing)
                              then ReplaceById(old(teachers), TeacherId, old(currentTeacherId).value, reply.value)
                              else old(teachers) + [reply.value])
              && formData == EmptyForm && !isEditing && currentTeacherId == None && error == "")
        && (reply.Failed? ==>
              && teachers == old(teachers) && formData == old(formData)
              && isEditing == old(isEditing) && currentTeacherId == old(currentTeacherId)
              && error == "Failed to save teacher. " + MessageOr(reply.error, "Please try again."))
    {
      error := "";
      saveLoading := true;
      sent := None;
      if isEditing {
        if !isAdmin {
          error := EditDenied;
          saveLoading := false;
          return;
        }
        sent := Some(Put(currentTeacherId.value, formData));
      } else {
        sent := Some(Post(formData));
      }
      match reply {
        case Ok(saved) =>
          if isEditing {
            teachers := ReplaceById(teachers, TeacherId, currentTeacherId.value, saved);
          } else {
            teachers := teachers + [saved];
          }
          ResetForm();
        case Failed(e) =>
          error := "Failed to save teacher. " + MessageOr(e, "Please try again.");
      }
      saveLoading := false;
    }

    /** `handleEdit`: only an admin can load a teacher into the form. */
    method Edit(teacher: Teacher, isAdmin: bool)
      requires Valid()
      modifies this
      ensures Valid()
      ensures !isAdmin ==>
        formData == old(formData) && isEditing == old(isEditing) && currentTeacherId == old(currentTeacherId)
      ensures isAdmin ==> formData == FormOf(teacher) && isEditing && currentTeacherId == Some(teacher.id)
      ensures teachers == old(teachers) && saveLoading == old(saveLoading) && error == old(error)
    {
      if !isAdmin {
        return;
      }
      formData := FormOf(teacher);
      isEditing := true;
      currentTeacherId := Some(teacher.id);
    }

    /** `handleDelete`: an admin is asked to confirm; on success every teacher
        with that id goes, and the form is cleared if it was editing that
        teacher. */
    method Delete(id: string, isAdmin: bool, confirmed: bool, reply: Reply<()>)
      returns (asked: Option<string>, sent: bool)
      requires Valid()
      modifies this
      ensures Valid()
      ensures asked == (if isAdmin then Some(DeletePrompt(old(teachers), id)) else None)
      ensures sent == (isAdmin && confirmed)
      ensures !sent ==>
        && teachers == old(teachers) && formData == old(formData) && isEditing == old(isEditing)
        && currentTeacherId == old(currentTeacherId) && error == old(error)
      ensures sent && reply.Ok? ==>
        && teachers == RemoveById(old(teachers), TeacherId, id) && error == ""
        && (old(isEditing) && old(currentTeacherId) == Some(id) ==>
              formData == EmptyForm && !isEditing && currentTeacherId == None)
        && (!(old(isEditing) && old(currentTeacherId) == Some(id)) ==>
              formData == old(formData) && isEditing == old(isEditing)
              && currentTeacherId == old(currentTeacherId))
      ensures sent && reply.Failed? ==>
        && teachers == old(teachers) && formData == old(formData) && isEditing == old(isEditing)
        && currentTeacherId == old(currentTeacherId)
        && error == "Failed to delete teacher. " + MessageOr(reply.error, "The server might be down.")
      ensures saveLoading == old(saveLoading)
    {
      sent, asked := false, None;
      if !isAdmin {
        return;
      }
      asked := Some(DeletePrompt(teachers, id));
      if !confirmed {
        return;
      }
      sent := true;
      error := "";
      match reply {
        case Ok(_) =>
          teachers := RemoveById(teachers, TeacherId, id);
          if isEditing && currentTeacherId == Some(id) {
            ResetForm();
          }
        case Failed(e) =>
          error := "Failed to delete teacher. " + MessageOr(e, "The server might be down.");
      }
    }
  }
}
