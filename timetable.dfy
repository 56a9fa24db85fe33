/** The timetable builder: slot expansion, the slot-code map, schedule assembly
    and batch resolution. The functions are the specification; the methods follow
    the loops of the Go code and are proved equal to them. */
module Timetable {
  import opened Types
  import opened GoStrings
  import opened Templates

  /** `getSlotsFromRange`: the slot codes of a ranged field, split on `-`. */
  function SlotsFromRange(slotRange: string): (codes: seq<string>)
    ensures |codes| >= 1
    ensures forall i :: 0 <= i < |codes| ==> '-' !in codes[i]
    ensures Join(codes, '-') == slotRange
  {
    JoinSplit(slotRange, '-');
    Split(slotRange, '-')
  }

  /** The slot codes of a raw slot field: split on `-` when it contains one,
      otherwise the field itself. */
  function Expand(field: string): (codes: seq<string>)
    ensures |codes| >= 1
    ensures forall i :: 0 <= i < |codes| ==> '-' !in codes[i]
    ensures Join(codes, '-') == field
  {
    if '-' in field then SlotsFromRange(field) else [field]
  }

  /** A room is online when its lower-cased text contains "online". */
  predicate IsOnline(room: string)
  {
    Contains(ToLower(room), "online")
  }

  /** The course-type label: "Practical" for an online room, the declared type otherwise. */
  function CourseTypeOf(c: Course): string
  {
    if IsOnline(c.room) then "Practical" else c.slotType
  }

  /** The record stored for slot code `code` of course `c`. */
  function Entry(c: Course, code: string): TableSlot
  {
    TableSlot(c.code, c.title, IsOnline(c.room), CourseTypeOf(c), c.room, code)
  }

  /** `m` after storing the record of `c` under each of `codes`, in order. */
  function Store(m: map<string, TableSlot>, c: Course, codes: seq<string>): (r: map<string, TableSlot>)
    ensures forall k :: k in r <==> k in m || k in codes
    ensures forall k :: k in codes ==> r[k] == Entry(c, k)
    ensures forall k :: k in m && k !in codes ==> r[k] == m[k]
    decreases |codes|
  {
    if codes == [] then m
    else
      var last := codes[|codes| - 1];
      var r := Store(m, c, codes[..|codes| - 1])[last := Entry(c, last)];
      assert forall k :: k in codes[..|codes| - 1] || k == last <==> k in codes by {
        assert codes == codes[..|codes| - 1] + [last];
      }
      r
  }

  lemma StoreStep(m: map<string, TableSlot>, c: Course, codes: seq<string>, t: nat)
    requires t < |codes|
    ensures Store(m, c, codes[..t + 1]) == Store(m, c, codes[..t])[codes[t] := Entry(c, codes[t])]
  {
    assert codes[..t + 1][..t] == codes[..t];
  }

  /** The slot-code map built from `courses` in list order: for each course, each
      of its expanded codes is (re)bound to that course's record. */
  function SlotMapping(courses: seq<Course>): (m: map<string, TableSlot>)
    ensures forall k :: k in m ==> m[k].slot == k
    decreases |courses|
  {
    if courses == [] then map[]
    else
      var c := courses[|courses| - 1];
      Store(SlotMapping(courses[..|courses| - 1]), c, Expand(c.slot))
  }

  lemma SlotMappingStep(courses: seq<Course>, i: nat)
    requires i < |courses|
    ensures SlotMapping(courses[..i + 1]) == Store(SlotMapping(courses[..i]), courses[i], Expand(courses[i].slot))
  {
    assert courses[..i + 1][..i] == courses[..i];
  }

  /** The table entry for one template position: the mapped record, or `None`. */
  function Lookup(m: map<string, TableSlot>, code: string): Option<TableSlot>
  {
    if code in m then Some(m[code]) else None
  }

  /** One day's table: one entry per slot code of the row, in order. */
  function Table(codes: seq<string>, m: map<string, TableSlot>): (t: seq<Option<TableSlot>>)
    ensures |t| == |codes|
    ensures forall j :: 0 <= j < |codes| ==> t[j] == Lookup(m, codes[j])
    decreases |codes|
  {
    if codes == [] then []
    else Table(codes[..|codes| - 1], m) + [Lookup(m, codes[|codes| - 1])]
  }

  lemma TableStep(codes: seq<string>, m: map<string, TableSlot>, k: nat)
    requires k < |codes|
    ensures Table(codes[..k + 1], m) == Table(codes[..k], m) + [Lookup(m, codes[k])]
  {
    assert codes[..k + 1][..k] == codes[..k];
  }

  /** The schedule: one day per template row, in row order. */
  function Schedule(rows: seq<Slot>, m: map<string, TableSlot>): (s: seq<DaySchedule>)
    ensures |s| == |rows|
    ensures forall i :: 0 <= i < |rows| ==> s[i].day == rows[i].day && s[i].table == Table(rows[i].slots, m)
    decreases |rows|
  {
    if rows == [] then []
    else
      var row := rows[|rows| - 1];
      Schedule(rows[..|rows| - 1], m) + [DaySchedule(row.day, Table(row.slots, m))]
  }

  lemma ScheduleStep(rows: seq<Slot>, m: map<string, TableSlot>, d: nat)
    requires d < |rows|
    ensures Schedule(rows[..d + 1], m) == Schedule(rows[..d], m) + [DaySchedule(rows[d].day, Table(rows[d].slots, m))]
  {
    assert rows[..d + 1][..d] == rows[..d];
  }

  /** The relevance test for one course: its raw field starts with "P" and one of
      its expanded codes (whatever its prefix) sits at some position of the template. */
  predicate CourseHits(b: Batch, c: Course)
  {
    && HasPrefix(c.slot, "P")
    && exists d, k :: 0 <= d < |b.slots| && 0 <= k < |b.slots[d].slots| && b.slots[d].slots[k] in Expand(c.slot)
  }

  /** A template is relevant when some course hits it. */
  predicate Relevant(b: Batch, courses: seq<Course>)
  {
    exists j :: 0 <= j < |courses| && CourseHits(b, courses[j])
  }

  /** The result built from template `b`. */
  function ResultFor(b: Batch, resp: CourseResponse): TimetableResult
  {
    TimetableResult(resp.regNumber, b.batch, Schedule(b.slots, SlotMapping(resp.courses)))
  }

  /** The result of the first relevant template of `batches`, or `None`. */
  function ResolveIn(batches: seq<Batch>, resp: CourseResponse): (r: Option<TimetableResult>)
    ensures r.None? <==> forall i :: 0 <= i < |batches| ==> !Relevant(batches[i], resp.courses)
    ensures forall i :: 0 <= i < |batches| && Relevant(batches[i], resp.courses) && NoneRelevantBefore(batches, i, resp.courses) ==>
      r == Some(ResultFor(batches[i], resp))
    decreases |batches|
  {
    if batches == [] then None
    else if Relevant(batches[0], resp.courses) then Some(ResultFor(batches[0], resp))
    else
      var r := ResolveIn(batches[1..], resp);
      assert forall i :: 0 < i < |batches| ==> batches[i] == batches[1..][i - 1];
      assert forall i :: 0 < i < |batches| && NoneRelevantBefore(batches, i, resp.courses) ==>
        NoneRelevantBefore(batches[1..], i - 1, resp.courses);
      r
  }

  /** No template before index `i` is relevant. */
  predicate NoneRelevantBefore(batches: seq<Batch>, i: int, courses: seq<Course>)
    requires i <= |batches|
  {
    forall j :: 0 <= j < i ==> !Relevant(batches[j], courses)
  }

  /** What `mapWithFallback` returns for a course response. */
  function Resolve(resp: CourseResponse): Option<TimetableResult>
  {
    ResolveIn(Batches, resp)
  }

  /** `mapSlotsToSubjects`: builds the slot-code map, then lays it over the template. */
  method MapSlotsToSubjects(batch: Batch, subjects: seq<Course>) returns (schedule: seq<DaySchedule>)
    ensures schedule == Schedule(batch.slots, SlotMapping(subjects))
  {
    var slotMapping := BuildSlotMapping(subjects);
    schedule := AssembleSchedule(batch, slotMapping);
  }

  /** The first loop of `mapSlotsToSubjects`: the slot-code map is updated in
      place, course by course and, within a course, code by code. */
  method BuildSlotMapping(subjects: seq<Course>) returns (slotMapping: map<string, TableSlot>)
    ensures slotMapping == SlotMapping(subjects)
  {
    slotMapping := map[];
    for i := 0 to |subjects|
      invariant slotMapping == SlotMapping(subjects[..i])
    {
      var subject := subjects[i];
      var slots: seq<string>;
      if Contains(subject.slot, "-") {
        slots := SlotsFromRange(subject.slot);
      } else {
        slots := [subject.slot];
      }

      var isOnline := Contains(ToLower(subject.room), "online");
      var slotType := "Practical";
      if !isOnline {
        slotType := subject.slotType;
      }

      ContainsChar(subject.slot, '-');
      assert slots == Expand(subject.slot);
      assert isOnline == IsOnline(subject.room) && slotType == CourseTypeOf(subject);
      ghost var before := slotMapping;
      for t := 0 to |slots|
        invariant slotMapping == Store(before, subject, slots[..t])
      {
        StoreStep(before, subject, slots, t);
        slotMapping := slotMapping[slots[t] := TableSlot(subject.code, subject.title, isOnline, slotType, subject.room, slots[t])];
      }
      assert slots[..|slots|] == slots;
      SlotMappingStep(subjects, i);
    }
    assert subjects[..|subjects|] == subjects;
  }

  /** The second loop of `mapSlotsToSubjects`: one day per template row, each
      period the mapped record of its code or `None`, appended in order. */
  method AssembleSchedule(batch: Batch, slotMapping: map<string, TableSlot>) returns (schedule: seq<DaySchedule>)
    ensures schedule == Schedule(batch.slots, slotMapping)
  {
    schedule := [];
    for d := 0 to |batch.slots|
      invariant schedule == Schedule(batch.slots[..d], slotMapping)
    {
      var day := batch.slots[d];
      var table: seq<Option<TableSlot>> := [];
      for k := 0 to |day.slots|
        invariant table == Table(day.slots[..k], slotMapping)
      {
        TableStep(day.slots, slotMapping, k);
        var slot := day.slots[k];
        if slot in slotMapping {
          table := table + [Some(slotMapping[slot])];
        } else {
          table := table + [None];
        }
      }
      assert day.slots[..|day.slots|] == day.slots;
      ScheduleStep(batch.slots, slotMapping, d);
      schedule := schedule + [DaySchedule(day.day, table)];
    }
    assert batch.slots[..|batch.slots|] == batch.slots;
  }

  lemma HitAt(b: Batch, c: Course, d: int, k: int)
    requires HasPrefix(c.slot, "P")
    requires 0 <= d < |b.slots| && 0 <= k < |b.slots[d].slots| && b.slots[d].slots[k] in Expand(c.slot)
    ensures CourseHits(b, c)
  {
  }

  lemma NoHitAnywhere(b: Batch, c: Course)
    requires forall d, k :: 0 <= d < |b.slots| && 0 <= k < |b.slots[d].slots| ==> b.slots[d].slots[k] !in Expand(c.slot)
    ensures !CourseHits(b, c)
  {
  }

  /** The relevance loops of `mapWithFallback` for one template: for each course
      whose raw field starts with "P", scan the template for one of its codes;
      stop at the first course that hits. */
  method ContainsRelevantSlots(batch: Batch, courses: seq<Course>) returns (containsRelevantSlots: bool)
    ensures containsRelevantSlots == Relevant(batch, courses)
  {
    containsRelevantSlots := false;
    for i := 0 to |courses|
      invariant !containsRelevantSlots
      invariant forall j :: 0 <= j < i ==> !CourseHits(batch, courses[j])
    {
      var course := courses[i];
      if HasPrefix(course.slot, "P") {
        containsRelevantSlots := ScanTemplate(batch, course);
      }
      if containsRelevantSlots {
        break;
      }
    }
  }

  /** The scan of one "P"-led course over the template, day by day and period by
      period, comparing each period's code with the field (or, for a range, with
      each code of the range). A match in a range ends only the range loop; the
      period loop ends at a direct match, the day loop after any match. */
  method ScanTemplate(batch: Batch, course: Course) returns (containsRelevantSlots: bool)
    requires HasPrefix(course.slot, "P")
    ensures containsRelevantSlots == CourseHits(batch, course)
  {
    ContainsChar(course.slot, '-');
    ghost var codes := Expand(course.slot);
    ghost var hitDay, hitPeriod := 0, 0;
    containsRelevantSlots := false;
    for d := 0 to |batch.slots|
      invariant !containsRelevantSlots
      invariant forall e, k :: 0 <= e < d && 0 <= k < |batch.slots[e].slots| ==> batch.slots[e].slots[k] !in codes
    {
      var day := batch.slots[d];
      for k := 0 to |day.slots|
        invariant containsRelevantSlots ==> hitDay == d && 0 <= hitPeriod < |day.slots| && day.slots[hitPeriod] in codes
        invariant !containsRelevantSlots ==> forall e :: 0 <= e < k ==> day.slots[e] !in codes
      {
        var slot := day.slots[k];
        if Contains(course.slot, "-") {
          var courseSlots := SlotsFromRange(course.slot);
          assert courseSlots == codes;
          for t := 0 to |courseSlots|
            invariant containsRelevantSlots ==> hitDay == d && 0 <= hitPeriod < |day.slots| && day.slots[hitPeriod] in codes
            invariant !containsRelevantSlots ==> slot !in courseSlots[..t]
          {
            assert courseSlots[..t + 1] == courseSlots[..t] + [courseSlots[t]];
            if courseSlots[t] == slot {
              hitDay, hitPeriod := d, k;
              containsRelevantSlots := true;
              break;
            }
          }
          assert courseSlots[..|courseSlots|] == courseSlots;
        } else if course.slot == slot {
          hitDay, hitPeriod := d, k;
          containsRelevantSlots := true;
          break;
        }
      }
      if containsRelevantSlots {
        break;
      }
    }
    if containsRelevantSlots {
      HitAt(batch, course, hitDay, hitPeriod);
    } else {
      NoHitAnywhere(batch, course);
    }
  }

  /** `mapWithFallback`: tries batch "1" then batch "2"; the first template some
      course is relevant to gives the result, and `None` when neither is. */
  method MapWithFallback(subjects: CourseResponse) returns (result: Option<TimetableResult>)
    ensures result == Resolve(subjects)
  {
    var batches := [Batch1, Batch2];
    for b := 0 to |batches|
      invariant ResolveIn(batches[b..], subjects) == Resolve(subjects)
    {
      var batch := batches[b];
      var mappedSchedule := MapSlotsToSubjects(batch, subjects.courses);
      var containsRelevantSlots := ContainsRelevantSlots(batch, subjects.courses);
      if containsRelevantSlots {
        return Some(TimetableResult(subjects.regNumber, batch.batch, mappedSchedule));
      }
      assert batches[b..][1..] == batches[b + 1..];
    }
    return None;
  }
}
