# CLASSPRO timetable builder, modelled in Dafny

This project models the timetable builder of the CLASSPRO scraper
(`src/helpers/TimetableHelper.go`). The builder takes a student's course list
(a registration number and the enrolled courses, each with a raw slot field
such as `"P6"` or `"A-F-G"`) and turns it into a weekly grid of five days by
ten periods.

- **Templates.** Two hard-coded slot-layout templates, batch "1" and batch "2".
  Each has five rows (days 1 to 5) of ten slot codes. Theory codes are the
  letters A to G; practical codes are P1 to P50.
- **Slot expansion.** A raw field containing `-` is split on it
  (`getSlotsFromRange`). Any other field is a single code.
- **Mapping.** Every expanded code of every course is bound, in list order, to
  a record of that course. Later courses overwrite earlier ones. A record
  carries an online flag (the lower-cased room contains `"online"`) and a
  course-type label (`"Practical"` when online, the declared type otherwise).
- **Projection.** The map is laid over a template position by position. A
  period with no record is empty (`nil` in Go, `None` here).
- **Batch choice.** `mapWithFallback` tries batch "1", then batch "2". A
  template is relevant when some course whose raw field starts with `"P"` has
  an expanded code, letter or practical, at some position of the template. The
  first relevant template gives the result; when neither is, the result is
  `nil` (`None`).

Modules, one file each:

- `GoStrings` (`go_strings.dfy`): the Go `strings` functions the builder uses —
  `Split`, `Contains`, `HasPrefix`, `ToLower` — with `Join` as the inverse of
  `Split`.
- `Types` (`types.dfy`): the records.
- `Templates` (`templates.dfy`): the two templates and their invariants.
- `Timetable` (`timetable.dfy`): specification functions and the imperative
  methods that follow the Go loops.
  - `mapSlotsToSubjects` is the method `MapSlotsToSubjects`. It runs its two
    loops as `BuildSlotMapping` (the map, updated in place) and
    `AssembleSchedule` (the grid, built by appending).
  - The four nested relevance loops of `mapWithFallback` are
    `ContainsRelevantSlots` (over courses), which calls `ScanTemplate` (over
    days, periods and range codes).
  - The early `break`s are kept as written. A match inside a range ends only
    the range loop; the day loop then stops.
- `TimetableProperties` (`timetable_props.dfy`): the lemmas relating these.

The relevance test is modelled exactly as the code has it:

- The `"P"` prefix is tested on the raw field, and then every expanded code is
  compared.
- So `"A-P6"` never makes a template relevant, and `"P16-A"` makes batch "1"
  relevant through `"A"`.
- `PerCodeHits` is a per-code reading of the test, kept as a reference.
  `HitsAgreeOnUniformFields` proves the two readings agree whenever all the
  codes of a field share the field's prefix. `LeadingTheoryCodeIgnored` and
  `TheoryCodeInRangeSelectsBatch1` exhibit where they differ.

## Model

| member | source | states |
|---|---|---|
| GoStrings.Contains | src/helpers/TimetableHelper.go:59 | `strings.Contains`: true exactly when the substring occurs at some position |
| GoStrings.ContainsChar | src/helpers/TimetableHelper.go:59 | testing for the one-character string `"-"` is testing membership of `-` |
| GoStrings.LowerChar | src/helpers/TimetableHelper.go:65 | an upper-case ASCII letter maps to its lower-case letter; every other character is unchanged |
| GoStrings.ToLower | src/helpers/TimetableHelper.go:65 | `strings.ToLower` keeps the length and lower-cases each character |
| GoStrings.Split | src/helpers/TimetableHelper.go:51 | `strings.Split` returns at least one part, no part contains the separator, and a separator-free text splits to itself |
| GoStrings.JoinSplit | src/helpers/TimetableHelper.go:51 | re-joining the parts of a split with the separator gives back the text |
| GoStrings.SplitAfterPiece | src/helpers/TimetableHelper.go:51 | a separator-free prefix followed by the separator splits off as the first part |
| GoStrings.SplitJoin | src/helpers/TimetableHelper.go:51 | splitting separator-free parts joined by the separator gives back the parts |
| Templates.NumeralDigits | src/helpers/TimetableHelper.go:12-16 | practical-code numbers are written in decimal digits only |
| Templates.PCodeHasNoDash | src/helpers/TimetableHelper.go:12-16 | no practical code contains the range separator `-` |
| Templates.PCodeInjective | src/helpers/TimetableHelper.go:9-29 | distinct numbers give distinct practical codes |
| Templates.PracticalCodeHasPrefix | src/helpers/TimetableHelper.go:9-29 | every practical code starts with `"P"` |
| Templates.TheoryCodeHasNoPrefix | src/helpers/TimetableHelper.go:9-29 | no theory letter starts with `"P"` |
| Templates.Batch1Layout | src/helpers/TimetableHelper.go:9-18 | batch "1": five rows of ten; odd-indexed rows (days 2 and 4) lead with five consecutive practical codes, the others end with them, and the remaining half is theory letters |
| Templates.Batch2Layout | src/helpers/TimetableHelper.go:20-29 | batch "2": the complementary layout, with practical codes first on days 1, 3 and 5 |
| Templates.HalfRow | src/helpers/TimetableHelper.go:9-29 | in such a row, position k of row d holds P(10·d+k+1) on its practical half and a theory letter elsewhere |
| Templates.PositionCode | src/helpers/TimetableHelper.go:9-29 | in a template with this layout, every position holds either a theory letter or the practical code numbered by its position |
| Templates.TemplateShape | src/helpers/TimetableHelper.go:9-29 | both templates have five rows for days 1 to 5, labelled "Day 1" to "Day 5", of ten codes each |
| Templates.ComplementaryDisjoint | src/helpers/TimetableHelper.go:9-29 | templates with complementary layouts share no practical code |
| Templates.PracticalCodesNumbered | src/helpers/TimetableHelper.go:9-29 | every practical code of such a template is one of P1 to P50 |
| Templates.PracticalCodeFound | src/helpers/TimetableHelper.go:9-29 | each of P1 to P50 is in one of two complementary templates |
| Templates.ComplementaryCover | src/helpers/TimetableHelper.go:9-29 | two complementary templates together hold exactly P1 to P50 |
| Templates.PracticalCodesDisjoint | src/helpers/TimetableHelper.go:9-29 | batch "1" and batch "2" share no practical code |
| Templates.PracticalCodesCover | src/helpers/TimetableHelper.go:9-29 | together batch "1" and batch "2" hold exactly the practical codes P1 to P50 |
| GoStrings.HasPrefix | src/helpers/TimetableHelper.go:108 | definition of `strings.HasPrefix`: the text is at least as long as the prefix and begins with it |
| Timetable.IsOnline | src/helpers/TimetableHelper.go:65 | definition: a room is online when its lower-cased name contains "online" (read as any-case six-character window by `OnlineWindow`) |
| Timetable.CourseTypeOf | src/helpers/TimetableHelper.go:66-69 | definition: the label is "Practical" for an online room and the declared slot type otherwise |
| Timetable.Entry | src/helpers/TimetableHelper.go:72-79 | definition: the record stored for a code carries the course's code, title and room, the online flag, the type label and the code itself |
| Timetable.Lookup | src/helpers/TimetableHelper.go:87-91 | definition: a period holds the mapped record when the code is a key, and is empty (`nil`) otherwise |
| Timetable.CourseHits | src/helpers/TimetableHelper.go:108-124 | definition: a course hits a template when its raw field starts with "P" and one of its expanded codes is at some day and position of the template |
| Timetable.Relevant | src/helpers/TimetableHelper.go:106-132 | definition: a template is relevant when some course of the list hits it |
| Timetable.ResultFor | src/helpers/TimetableHelper.go:134-141 | definition: the result for a template copies the registration number and the template's batch label and carries the schedule built from it |
| Timetable.Resolve | src/helpers/TimetableHelper.go:99-144 | definition: the first relevant template among batch "1" then batch "2", or empty |
| Timetable.SlotsFromRange | src/helpers/TimetableHelper.go:50-52 | `getSlotsFromRange` gives at least one code, none containing `-`, and re-joining them with `-` gives back the field |
| Timetable.Expand | src/helpers/TimetableHelper.go:58-63 | the codes of a raw field: at least one, none containing `-`, re-joining to the field |
| Timetable.Store | src/helpers/TimetableHelper.go:71-80 | after storing a course's codes, the keys are the old keys plus those codes; each code maps to the course's record; every other key is unchanged |
| Timetable.SlotMapping | src/helpers/TimetableHelper.go:55-81 | every record in the slot-code map has `Slot` equal to its key |
| Timetable.Table | src/helpers/TimetableHelper.go:85-92 | a day's table has one entry per template position; entry i is the record mapped to the row's code i, or empty |
| Timetable.Schedule | src/helpers/TimetableHelper.go:83-94 | one day per template row, in row order, with `Day` copied and the table of that row |
| Timetable.ResolveIn | src/helpers/TimetableHelper.go:99-144 | the result is empty exactly when no template is relevant; otherwise it is the first relevant template's result |
| Timetable.MapSlotsToSubjects | src/helpers/TimetableHelper.go:54-97 | `mapSlotsToSubjects` returns the schedule of the template under the slot-code map of the courses |
| Timetable.BuildSlotMapping | src/helpers/TimetableHelper.go:55-81 | the in-place map loop builds exactly the slot-code map of the courses |
| Timetable.AssembleSchedule | src/helpers/TimetableHelper.go:83-96 | the append loops build exactly the schedule of the template under the map |
| Timetable.ContainsRelevantSlots | src/helpers/TimetableHelper.go:106-132 | the flag ends true exactly when some course hits the template |
| Timetable.ScanTemplate | src/helpers/TimetableHelper.go:109-127 | for a `"P"`-led course, the day/period/range loops find a match exactly when one of its codes sits in the template |
| Timetable.MapWithFallback | src/helpers/TimetableHelper.go:99-144 | `mapWithFallback` returns the first relevant template's result, in order batch "1" then batch "2", or empty |
| TimetableProperties.SlotsFromRangeJoin | src/helpers/TimetableHelper.go:50-52 | joining `-`-free codes with `-` and expanding the range gives back the codes |
| TimetableProperties.ExpandIsSplit | src/helpers/TimetableHelper.go:58-63 | the `Contains` test before splitting changes nothing, and a field without `-` expands to exactly itself |
| TimetableProperties.MappingContents | src/helpers/TimetableHelper.go:57-81 | a code is mapped iff some course expands to it, and it then maps to the record of the last such course |
| TimetableProperties.PeriodContents | src/helpers/TimetableHelper.go:83-92 | each period holds the record of the last course expanding to the template's code there, and is empty when no course does |
| TimetableProperties.OnlineWindow | src/helpers/TimetableHelper.go:65 | a room is online iff six consecutive characters spell "online" in any letter case |
| TimetableProperties.OnlineFirst | src/helpers/TimetableHelper.go:65 | a room beginning with any capitalisation of "online" is online |
| TimetableProperties.OnlineUpperCase | src/helpers/TimetableHelper.go:65 | "ONLINE" is online |
| TimetableProperties.OnlineMeet | src/helpers/TimetableHelper.go:65 | "Online Meet" is online |
| TimetableProperties.NumberedRoomOffline | src/helpers/TimetableHelper.go:65 | "TP 401" is not online |
| TimetableProperties.CourseTypeLabel | src/helpers/TimetableHelper.go:65-78 | the record's online flag is the room test; the course type is "Practical" when online and the declared type otherwise |
| TimetableProperties.BatchPriority | src/helpers/TimetableHelper.go:100-143 | batch "1" wins whenever relevant; batch "2" is chosen only when batch "1" is not; empty exactly when neither is relevant |
| TimetableProperties.ResultShape | src/helpers/TimetableHelper.go:134-140 | a result copies the registration number, is labelled "1" or "2", and has days 1 to 5 of ten periods each |
| TimetableProperties.NoPracticalFieldUnresolved | src/helpers/TimetableHelper.go:106-143 | without a raw field starting with "P", the result is empty |
| TimetableProperties.SingleCodeHits | src/helpers/TimetableHelper.go:108-124 | a single practical code hits a template exactly when the template holds it |
| TimetableProperties.PracticalCodeResolves | src/helpers/TimetableHelper.go:9-29 | a course in any of P1 to P50 always resolves, to the one template that holds its code |
| TimetableProperties.HitsAgreeOnUniformFields | src/helpers/TimetableHelper.go:108-124 | when all codes of a field share its "P"-or-not prefix, the raw-field test equals the per-code test |
| TimetableProperties.ExpandAP6 | src/helpers/TimetableHelper.go:58-63 | "A-P6" expands to "A" and "P6" |
| TimetableProperties.ExpandP16A | src/helpers/TimetableHelper.go:58-63 | "P16-A" expands to "P16" and "A" |
| TimetableProperties.ExpandAFG | src/helpers/TimetableHelper.go:58-63 | "A-F-G" expands to "A", "F" and "G" |
| TimetableProperties.LeadingTheoryCodeIgnored | src/helpers/TimetableHelper.go:108 | "A-P6" hits no template, although per code it hits batch "1" |
| TimetableProperties.P16InBatch2Only | src/helpers/TimetableHelper.go:9-29 | P16 is a batch "2" practical code and not a batch "1" one |
| TimetableProperties.TheoryCodeInRangeSelectsBatch1 | src/helpers/TimetableHelper.go:108-124 | "P16-A" selects batch "1" through "A", although per code only batch "2" is relevant |
| TimetableProperties.RangeHitsThroughTheoryCode | src/helpers/TimetableHelper.go:108-124 | a "P"-led range of a batch-2 practical code and a batch-1 letter selects batch "1" |
| TimetableProperties.PerCodeHitsPracticalFirst | src/helpers/TimetableHelper.go:108-124 | for a practical code followed by a letter, the per-code test is membership of the practical code |
| TimetableProperties.ScenarioP6 | src/helpers/TimetableHelper.go:100-140 | the single course "P6" selects batch "1", fills day 1, position 5 with its record, and leaves every other period empty |
| TimetableProperties.P6SelectsBatch1 | src/helpers/TimetableHelper.go:100-140 | the single course "P6" makes batch "1" the result, with its record at day 1, position 5 |
| TimetableProperties.P6OtherPeriodsEmpty | src/helpers/TimetableHelper.go:83-92 | under the single course "P6", every period of batch "1" other than day 1, position 5 is empty |
| TimetableProperties.P6OnlyPeriod | src/helpers/TimetableHelper.go:83-92 | one such period, given by day and position, is empty |
| TimetableProperties.OnlyOwnPeriod | src/helpers/TimetableHelper.go:83-92 | a course holding the single practical code Pn fills no period of a laid-out template other than the one numbered n |
| TimetableProperties.ScenarioP16 | src/helpers/TimetableHelper.go:100-140 | the single course "P16" selects batch "2" |
| TimetableProperties.ScenarioTheoryOnly | src/helpers/TimetableHelper.go:106-143 | the single course "A" gives an empty result |
| TimetableProperties.SingleCourseEntries | src/helpers/TimetableHelper.go:57-81 | a one-course map holds exactly that course's codes, each bound to its record |
| TimetableProperties.OnlineCourseRecords | src/helpers/TimetableHelper.go:65-78 | every record of an online course is flagged online and labelled "Practical" |
| TimetableProperties.ThreeCodeMapping | src/helpers/TimetableHelper.go:57-81 | a course expanding to three codes maps exactly those three |
| TimetableProperties.ScenarioRangeMapping | src/helpers/TimetableHelper.go:57-81 | the course "A-F-G" maps exactly A, F and G |
| TimetableProperties.ScenarioRangeUnresolved | src/helpers/TimetableHelper.go:106-143 | the course "A-F-G" gives an empty result, online or not |

## Left out

- `GetTimetable`, `NewTimetable` and the `cookie` field (`src/helpers/TimetableHelper.go:31-48`) fetch the course list by scraping the portal, which is I/O. The course response is taken as an input instead.
- The HTTP server, middleware and routes are I/O plumbing and are not part of this model: `main.go`, `src/main.go` and `src/handlers/setup_routes.go`.
- The PostgreSQL connection (`src/helpers/databases/connect.go`) is left out for the same reason.
- The `goscraper/src/types` package is not part of this model. The records in `Types` are reconstructed from how the builder uses their fields.
- GoStrings.ToLower: lower-cases ASCII letters only. Go's `strings.ToLower` also folds non-ASCII letters, so a room spelled with a non-ASCII capital could in principle compare differently.
- Go's `schedule` and `table` start as `nil` slices. The model starts them as empty sequences, so a template with no rows (which neither template is) would marshal to `null` in Go rather than `[]`.
- `interface{}` table entries are modelled as `Option<TableSlot>`.
- Strings are modelled as sequences of characters, while Go strings are byte strings that may hold invalid UTF-8. For valid UTF-8 the builder observes nothing different: splitting on `-`, the `"P"` prefix test, equality of codes and the search for "online" after ASCII lower-casing agree whether the text is read byte by byte or character by character. Invalid UTF-8 is not modelled.
- Both the slot-code map and the schedule are built for every template tried, exactly as in the Go code. That work is unobservable, because an unused schedule is discarded.
