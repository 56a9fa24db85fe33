/** The records the timetable builder reads and produces. */
module Types {

  /** Go's `nil` versus a present value. */
  datatype Option<+T> = None | Some(value: T)

  /** One enrolled course as the course page reports it; `slot` is the raw
      slot field, one slot code or several joined by `-`. */
  datatype Course = Course(code: string, title: string, room: string, slotType: string, slot: string)

  /** The registration number together with the enrolled courses, in page order. */
  datatype CourseResponse = CourseResponse(regNumber: string, courses: seq<Course>)

  /** One filled period of the timetable. */
  datatype TableSlot = TableSlot(code: string, name: string, online: bool, courseType: string, roomNo: string, slot: string)

  /** One template row: the day index, its label and its ten period slot codes. */
  datatype Slot = Slot(day: int, dayOrder: string, slots: seq<string>)

  /** A slot-layout template. */
  datatype Batch = Batch(batch: string, slots: seq<Slot>)

  /** One day of the result; `table` is aligned with the template row, `None` for an empty period. */
  datatype DaySchedule = DaySchedule(day: int, table: seq<Option<TableSlot>>)

  /** The resolved timetable. */
  datatype TimetableResult = TimetableResult(regNumber: string, batch: string, schedule: seq<DaySchedule>)
}
