/** src/components/ClassroomsPage.js: the classroom list with its
    create/edit form; the server's replies are parameters. */
module Classrooms {
  import opened Js
  import opened Api
  import opened Entities
  import opened Lists
  import opened Sorting

  /** The form's text fields; `roomType` is the `type` input. */
  datatype ClassroomForm = ClassroomForm(name: string, capacity: string, roomType: string)

  const EmptyForm := ClassroomForm("", "", "")

  /** `dataToSubmit`: the form with the capacity parsed. */
  datatype ClassroomInput = ClassroomInput(name: string, capacity: int, roomType: string)

  datatype SaveRequest = Put(id: string, data: ClassroomInput) | Post(data: ClassroomInput)

  const CapacityError := "Capacity must be a valid positive number."
  const EditDenied := "You do not have permission to edit classrooms."
  const LoadError := "Failed to load classrooms. Please ensure the backend is running."
  const PromptStart := "Are you sure you want to delete "
  const PromptEnd := "? This will also remove it from any generated schedules."

  /** The capacity check at the top of `handleFormSubmit`. */
  function CheckForm(f: ClassroomForm): (r: Checked<ClassroomInput>)
    ensures r.Accepted? <==> IsPositiveInt(f.capacity)
    ensures r.Rejected? ==> r.message == CapacityError
    ensures r.Accepted? ==>
      && r.value.name == f.name && r.value.roomType == f.roomType
      && Some(r.value.capacity) == ParseInt(f.capacity) && r.value.capacity > 0
  {
    if !IsPositiveInt(f.capacity) then Rejected(CapacityError)
    else Accepted(ClassroomInput(f.name, ParseInt(f.capacity).value, f.roomType))
  }

  /** The form `handleEdit` fills in for a classroom. */
  function FormOf(c: Classroom): ClassroomForm {
    ClassroomForm(c.name, IntToString(c.capacity), c.roomType)
  }

  /** Editing a classroom and saving it unchanged submits its own values; one
      whose capacity is not positive cannot be saved. */
  lemma EditedFormRoundTrip(c: Classroom)
    ensures c.capacity > 0 ==> CheckForm(FormOf(c)) == Accepted(ClassroomInput(c.name, c.capacity, c.roomType))
    ensures c.capacity <= 0 ==> CheckForm(FormOf(c)) == Rejected(CapacityError)
  {
    ParseIntOfIntToString(c.capacity);
  }

  /** The table's comparator: by name. */
  function CompareClassrooms(a: Classroom, b: Classroom): (r: int)
    ensures r == 0 <==> a.name == b.name
    ensures r > 0 <==> CompareStrings(b.name, a.name) < 0
  {
    CompareStringsAntisymmetric(a.name, b.name);
    CompareStrings(a.name, b.name)
  }

  lemma CompareClassroomsConsistent()
    ensures ConsistentComparator(CompareClassrooms)
  {
    forall a: Classroom, b: Classroom
      ensures CompareClassrooms(a, b) <= 0 || CompareClassrooms(b, a) <= 0
    {
      CompareStringsAntisymmetric(a.name, b.name);
    }
    forall a: Classroom, b: Classroom, c: Classroom |
      CompareClassrooms(a, b) <= 0 && CompareClassrooms(b, c) <= 0
      ensures CompareClassrooms(a, c) <= 0
    {
      CompareStringsTransitive(a.name, b.name, c.name);
    }
  }

  function DisplayOrder(classrooms: seq<Classroom>): seq<Classroom> {
    Sort(classrooms, CompareClassrooms)
  }

  /** The table lists every classroom once, ordered by name. */
  lemma DisplayOrderSorted(classrooms: seq<Classroom>)
    ensures multiset(DisplayOrder(classrooms)) == multiset(classrooms)
    ensures forall i, j :: 0 <= i < j < |DisplayOrder(classrooms)| ==>
      CompareStrings(DisplayOrder(classrooms)[i].name, DisplayOrder(classrooms)[j].name) <= 0
  {
    CompareClassroomsConsistent();
    SortSorted(classrooms, CompareClassrooms);
  }

  /** The question `handleDelete` asks: the first matching classroom's name,
      or "this classroom". */
  function DeletePrompt(classrooms: seq<Classroom>, id: string): (q: string)
    ensures FindById(classrooms, ClassroomId, id).Some? ==>
      q == PromptStart + FindById(classrooms, ClassroomId, id).value.name + PromptEnd
    ensures (forall i :: 0 <= i < |classrooms| ==> classrooms[i].id != id) ==>
      q == PromptStart + "this classroom" + PromptEnd
  {
    var found := FindById(classrooms, ClassroomId, id);
    PromptStart + (if found.Some? then found.value.name else "this classroom") + PromptEnd
  }

  class ClassroomsPage {
    var classrooms: seq<Classroom>
    var formData: ClassroomForm
    var isEditing: bool
    var currentClassroomId: Option<string>
    var saveLoading: bool
    var error: string

    /** The form edits a classroom exactly when it knows its id. */
    ghost predicate Valid()
      reads this
    {
      isEditing == currentClassroomId.Some?
    }

    /** Mounting the page and the end of its initial fetch. */
    constructor (fetched: Reply<seq<Classroom>>)
      ensures Valid()
      ensures fetched.Ok? ==> classrooms == fetched.value && error == ""
      ensures fetched.Failed? ==> classrooms == [] && error == LoadError
      ensures formData == EmptyForm && !isEditing && currentClassroomId == None && !saveLoading
    {
      formData := EmptyForm;
      isEditing := false;
      currentClassroomId := None;
      saveLoading := false;
      match fetched {
        case Ok(list) =>
          classrooms := list;
          error := "";
        case Failed(_) =>
          classrooms := [];
          error := LoadError;
      }
    }

    /** `resetForm` */
    method ResetForm()
      modifies this
      ensures Valid()
      ensures formData == EmptyForm && !isEditing && currentClassroomId == None
      ensures classrooms == old(classrooms) && saveLoading == old(saveLoading) && error == old(error)
    {
      formData := EmptyForm;
      isEditing := false;
      currentClassroomId := None;
    }

    /** `handleFormSubmit`: returns the request it sent, if any. */
    method Submit(isAdmin: bool, reply: Reply<Classroom>) returns (sent: Option<SaveRequest>)
      requires Valid()
      modifies this
      ensures Valid() && !saveLoading
      ensures CheckForm(old(formData)).Rejected? ==>
        && sent == None && error == CapacityError
        && classrooms == old(classrooms) && formData == old(formData)
        && isEditing == old(isEditing) && currentClassroomId == old(currentClassroomId)
      ensures CheckForm(old(formData)).Accepted? && old(isEditing) && !isAdmin ==>
        && sent == None && error == EditDenied
        && classrooms == old(classrooms) && formData == old(formData)
        && isEditing == old(isEditing) && currentClassroomId == old(currentClassroomId)
      ensures CheckForm(old(formData)).Accepted? && (old(isEditing) ==> isAdmin) ==>
        var data := CheckForm(old(formData)).value;
        && sent == Some(if old(isEditing) then Put(old(currentClassroomId).value, data) else Post(data))
        && (reply.Ok? ==>
              && classrooms == (if old(isEditing)
                                then ReplaceById(old(classrooms), ClassroomId, old(currentClassroomId).value, reply.value)
                                else old(classrooms) + [reply.value])
              && formData == EmptyForm && !isEditing && currentClassroomId == None && error == "")
        && (reply.Failed? ==>
              && classrooms == old(classrooms) && formData == old(formData)
              && isEditing == old(isEditing) && currentClassroomId == old(currentClassroomId)
              && error == "Failed to save classroom. " + MessageOr(reply.error, "Please try again."))
    {
      error := "";
      saveLoading := true;
      sent := None;
      var checked := CheckForm(formData);
      if checked.Rejected? {
        error := checked.message;
        saveLoading := false;
        return;
      }
      var data := checked.value;
      if isEditing {
        if !isAdmin {
          error := EditDenied;
          saveLoading := false;
          return;
        }
        sent := Some(Put(currentClassroomId.value, data));
      } else {
        sent := Some(Post(data));
      }
      match reply {
        case Ok(saved) =>
          if isEditing {
            classrooms := ReplaceById(classrooms, ClassroomId, currentClassroomId.value, saved);
          } else {
            classrooms := classrooms + [saved];
          }
          ResetForm();
        case Failed(e) =>
          error := "Failed to save classroom. " + MessageOr(e, "Please try again.");
      }
      saveLoading := false;
    }

    /** `handleEdit`: only an admin can load a classroom into the form. */
    method Edit(classroom: Classroom, isAdmin: bool)
      requires Valid()
      modifies this
      ensures Valid()
      ensures !isAdmin ==>
        formData == old(formData) && isEditing == old(isEditing) && currentClassroomId == old(currentClassroomId)
      ensures isAdmin ==> formData == FormOf(classroom) && isEditing && currentClassroomId == Some(classroom.id)
      ensures classrooms == old(classrooms) && saveLoading == old(saveLoading) && error == old(error)
    {
      if !isAdmin {
        return;
      }
      formData := FormOf(classroom);
      isEditing := true;
      currentClassroomId := Some(classroom.id);
    }

    /** `handleDelete`: an admin is asked to confirm; on success every
        classroom with that id goes, and the form is cleared if it was editing
        that classroom. */
    method Delete(id: string, isAdmin: bool, confirmed: bool, reply: Reply<()>)
      returns (asked: Option<string>, sent: bool)
      requires Valid()
      modifies this
      ensures Valid()
      ensures asked == (if isAdmin then Some(DeletePrompt(old(classrooms), id)) else None)
      ensures sent == (isAdmin && confirmed)
      ensures !sent ==>
        && classrooms == old(classrooms) && formData == old(formData) && isEditing == old(isEditing)
        && currentClassroomId == old(currentClassroomId) && error == old(error)
      ensures sent && reply.Ok? ==>
        && classrooms == RemoveById(old(classrooms), ClassroomId, id) && error == ""
        && (old(isEditing) && old(currentClassroomId) == Some(id) ==>
              formData == EmptyForm && !isEditing && currentClassroomId == None)
        && (!(old(isEditing) && old(currentClassroomId) == Some(id)) ==>
              formData == old(formData) && isEditing == old(isEditing)
              && currentClassroomId == old(currentClassroomId))
      ensures sent && reply.Failed? ==>
        && classrooms == old(classrooms) && formData == old(formData) && isEditing == old(isEditing)
        && currentClassroomId == old(currentClassroomId)
        && error == "Failed to delete classroom. " + MessageOr(reply.error, "The server might be down.")
      ensures saveLoading == old(saveLoading)
    {
      sent, asked := false, None;
      if !isAdmin {
        return;
      }
      asked := Some(DeletePrompt(classrooms, id));
      if !confirmed {
        return;
      }
      sent := true;
      error := "";
      match reply {
        case Ok(_) =>
          classrooms := RemoveById(classrooms, ClassroomId, id);
          if isEditing && currentClassroomId == Some(id) {
            ResetForm();
          }
        case Failed(e) =>
          error := "Failed to delete classroom. " + MessageOr(e, "The server might be down.");
      }
    }
  }
}
