/** The records the backend returns and the pages display. Ids are strings:
    the pages compare them with `===` against ids taken from route parameters
    and use them as object keys. */
module Entities {
  import opened Js

  datatype Section = Section(id: string, program: string, yearLevel: int, sectionName: string,
                             numberOfStudents: int)

  /** `roomType` is the record's `type` property. */
  datatype Classroom = Classroom(id: string, name: string, capacity: int, roomType: string)

  datatype Teacher = Teacher(id: string, name: string, department: string)

  /** One generated timetable entry; the references are optional. */
  datatype ScheduleEntry = ScheduleEntry(
    id: string,
    dayOfWeek: string,
    startTime: string,
    endTime: string,
    subjectCode: string,
    subjectName: string,
    teacherId: Option<string>,
    classroomId: Option<string>,
    sectionId: Option<string>,
    problemId: Option<string>)

  function SectionId(s: Section): string { s.id }
  function ClassroomId(c: Classroom): string { c.id }
  function TeacherId(t: Teacher): string { t.id }

  /** `${program} ${yearLevel}-${sectionName}`, the label of a section. */
  function SectionLabel(s: Section): string {
    s.program + " " + IntToString(s.yearLevel) + "-" + s.sectionName
  }
}
