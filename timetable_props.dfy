/** What the timetable builder guarantees: slot expansion round-trips, the
    slot-code map is last-write-wins, every period is looked up positionally, the
    first relevant template wins, and how the templates decide which one that is. */
module TimetableProperties {
  import opened Types
  import opened GoStrings
  import opened Templates
  import opened Timetable

  // ---------------------------------------------------------------------------
  // Slot expansion

  /** Joining separator-free codes with `-` and expanding the range gives the codes back. */
  lemma SlotsFromRangeJoin(codes: seq<string>)
    requires |codes| >= 1
    requires forall i :: 0 <= i < |codes| ==> '-' !in codes[i]
    ensures SlotsFromRange(Join(codes, '-')) == codes
  {
    SplitJoin(codes, '-');
  }

  /** Testing for `-` before splitting changes nothing: every field expands as its split. */
  lemma ExpandIsSplit(field: string)
    ensures Expand(field) == SlotsFromRange(field)
    ensures '-' !in field ==> Expand(field) == [field]
  {
    ContainsChar(field, '-');
  }

  // ---------------------------------------------------------------------------
  // The slot-code map

  /** Course `j` is the last course in the list whose field expands to `code`. */
  ghost predicate LastWriter(courses: seq<Course>, j: int, code: string)
  {
    && 0 <= j < |courses|
    && code in Expand(courses[j].slot)
    && forall i :: j < i < |courses| ==> code !in Expand(courses[i].slot)
  }

  /** A code is mapped exactly when some course expands to it, and it is then
      mapped to the record of the last such course. */
  lemma {:induction false} MappingContents(courses: seq<Course>, code: string)
    ensures code in SlotMapping(courses) <==> exists j :: 0 <= j < |courses| && code in Expand(courses[j].slot)
    ensures code in SlotMapping(courses) ==>
      exists j :: LastWriter(courses, j, code) && SlotMapping(courses)[code] == Entry(courses[j], code)
    decreases |courses|
  {
    if courses != [] {
      var n := |courses| - 1;
      var init := courses[..n];
      var c := courses[n];
      MappingContents(init, code);
      var m, m0 := SlotMapping(courses), SlotMapping(init);
      assert m == Store(m0, c, Expand(c.slot));
      if code in Expand(c.slot) {
        assert m[code] == Entry(c, code);
        assert LastWriter(courses, n, code);
      } else {
        assert code in m <==> code in m0;
        if code in m0 {
          assert m[code] == m0[code];
          var j :| LastWriter(init, j, code) && m0[code] == Entry(init[j], code);
          forall i | j < i < |courses|
            ensures code !in Expand(courses[i].slot)
          {
            if i < n {
              assert courses[i] == init[i];
              assert code !in Expand(init[i].slot);
            } else {
              assert i == n;
              assert code !in Expand(c.slot);
            }
          }
          assert init[j] == courses[j];
          assert LastWriter(courses, j, code);
        }
        forall j | 0 <= j < |courses| && code in Expand(courses[j].slot)
          ensures j < n && code in Expand(init[j].slot)
        {
          assert j != n;
          assert init[j] == courses[j];
        }
      }
    }
  }

  /** Each period of the schedule holds the record of the last course whose field
      expands to the template's code at that position, and is empty when there is none. */
  lemma PeriodContents(b: Batch, courses: seq<Course>, d: nat, k: nat)
    requires d < |b.slots| && k < |b.slots[d].slots|
    ensures var e := Schedule(b.slots, SlotMapping(courses))[d].table[k];
            && (e.Some? <==> exists j :: 0 <= j < |courses| && b.slots[d].slots[k] in Expand(courses[j].slot))
            && (e.Some? ==> exists j :: LastWriter(courses, j, b.slots[d].slots[k]) && e.value == Entry(courses[j], b.slots[d].slots[k]))
  {
    MappingContents(courses, b.slots[d].slots[k]);
  }

  // ---------------------------------------------------------------------------
  // The online flag

  /** The six characters of `room` from `i` read "online" in any letter case. */
  predicate OnlineAt(room: string, i: nat)
  {
    i + 6 <= |room| && ToLower(room[i..i + 6]) == "online"
  }

  /** A room is online exactly when some six consecutive characters spell "online"
      ignoring letter case. */
  lemma OnlineWindow(room: string)
    ensures IsOnline(room) <==> exists i: nat :: OnlineAt(room, i)
  {
    forall i: nat | i + 6 <= |room|
      ensures OccursAt(ToLower(room), "online", i) <==> OnlineAt(room, i)
    {
      assert ToLower(room)[i..i + 6] == ToLower(room[i..i + 6]);
    }
  }

  /** A room whose first six characters spell "online" in any letter case is online. */
  lemma OnlineFirst(word: string, rest: string)
    requires |word| == 6 && ToLower(word) == "online"
    ensures IsOnline(word + rest)
  {
    OnlineWindow(word + rest);
    assert (word + rest)[0..6] == word;
    assert OnlineAt(word + rest, 0);
  }

  /** Any capitalisation of "online" counts: "ONLINE" is an online room. */
  lemma OnlineUpperCase()
    ensures IsOnline("ONLINE")
  {
    var lower := ToLower("ONLINE");
    assert lower[0] == 'o' && lower[1] == 'n' && lower[2] == 'l' && lower[3] == 'i' && lower[4] == 'n' && lower[5] == 'e';
    OnlineFirst("ONLINE", "");
    assert "ONLINE" + "" == "ONLINE";
  }

  /** "Online Meet" is an online room. */
  lemma OnlineMeet()
    ensures IsOnline("Online Meet")
  {
    var lower := ToLower("Online");
    assert lower[0] == 'o' && lower[1] == 'n' && lower[2] == 'l' && lower[3] == 'i' && lower[4] == 'n' && lower[5] == 'e';
    OnlineFirst("Online", " Meet");
    assert "Online" + " Meet" == "Online Meet";
  }

  /** A numbered room is not online. */
  lemma NumberedRoomOffline()
    ensures !IsOnline("TP 401")
  {
    OnlineWindow("TP 401");
    forall i: nat ensures !OnlineAt("TP 401", i) {
      if i == 0 {
        assert ToLower("TP 401"[0..6])[0] == 't';
      }
    }
  }

  /** An online course is labelled "Practical" whatever its declared type; any
      other course keeps its declared type. */
  lemma CourseTypeLabel(c: Course, code: string)
    ensures Entry(c, code).online == IsOnline(c.room)
    ensures Entry(c, code).online ==> Entry(c, code).courseType == "Practical"
    ensures !Entry(c, code).online ==> Entry(c, code).courseType == c.slotType
  {
  }

  // ---------------------------------------------------------------------------
  // Batch resolution

  /** Batch "1" wins whenever it is relevant; batch "2" is the fallback; the
      result is `None` exactly when neither template is relevant. */
  lemma BatchPriority(resp: CourseResponse)
    ensures Relevant(Batch1, resp.courses) ==> Resolve(resp) == Some(ResultFor(Batch1, resp))
    ensures !Relevant(Batch1, resp.courses) && Relevant(Batch2, resp.courses) ==> Resolve(resp) == Some(ResultFor(Batch2, resp))
    ensures Resolve(resp).None? <==> !Relevant(Batch1, resp.courses) && !Relevant(Batch2, resp.courses)
  {
    assert Batches[0] == Batch1 && Batches[1] == Batch2;
  }

  /** A resolved timetable carries the registration number, the template's batch
      label and one day per template row, days 1 to 5, ten periods each. */
  lemma ResultShape(resp: CourseResponse)
    requires Resolve(resp).Some?
    ensures Resolve(resp).value.regNumber == resp.regNumber
    ensures Resolve(resp).value.batch == "1" || Resolve(resp).value.batch == "2"
    ensures |Resolve(resp).value.schedule| == 5
    ensures forall d :: 0 <= d < 5 ==>
      Resolve(resp).value.schedule[d].day == d + 1 && |Resolve(resp).value.schedule[d].table| == 10
  {
    BatchPriority(resp);
    if Relevant(Batch1, resp.courses) {
      TemplateShape(Batch1);
    } else {
      TemplateShape(Batch2);
    }
  }

  /** Without a course whose raw field starts with "P" no template is relevant. */
  lemma NoPracticalFieldUnresolved(resp: CourseResponse)
    requires forall j :: 0 <= j < |resp.courses| ==> !HasPrefix(resp.courses[j].slot, "P")
    ensures Resolve(resp) == None
  {
    BatchPriority(resp);
  }

  /** A single practical code hits a template exactly when the template holds it. */
  lemma SingleCodeHits(b: Batch, c: Course)
    requires HasPrefix(c.slot, "P") && '-' !in c.slot
    ensures CourseHits(b, c) <==> c.slot in PracticalCodes(b)
  {
    ExpandIsSplit(c.slot);
    if c.slot in PracticalCodes(b) {
      var d, k :| 0 <= d < |b.slots| && 0 <= k < |b.slots[d].slots| && b.slots[d].slots[k] == c.slot;
      assert b.slots[d].slots[k] in Expand(c.slot);
    }
  }

  /** A course whose field is one of P1 to P50 always resolves, and to the one
      template holding that code. */
  lemma PracticalCodeResolves(reg: string, c: Course, n: nat)
    requires 1 <= n <= 50 && c.slot == PCode(n)
    ensures Resolve(CourseResponse(reg, [c])).Some?
    ensures Resolve(CourseResponse(reg, [c])).value.batch == if c.slot in PracticalCodes(Batch1) then "1" else "2"
  {
    var resp := CourseResponse(reg, [c]);
    PracticalCodeHasPrefix(n);
    PCodeHasNoDash(n);
    PracticalCodesCover();
    PracticalCodesDisjoint();
    assert c.slot in PracticalCodes(Batch1) + PracticalCodes(Batch2);
    SingleCodeHits(Batch1, c);
    SingleCodeHits(Batch2, c);
    assert resp.courses[0] == c;
    assert Relevant(Batch1, resp.courses) <==> CourseHits(Batch1, c);
    assert Relevant(Batch2, resp.courses) <==> CourseHits(Batch2, c);
    BatchPriority(resp);
  }

  // ---------------------------------------------------------------------------
  // Relevance as written, against a per-code reading

  /** Per-code relevance: some expanded code of the field is itself "P"-prefixed
      and sits at some position of the template. */
  predicate PerCodeHits(b: Batch, c: Course)
  {
    exists i, d, k :: 0 <= i < |Expand(c.slot)| && 0 <= d < |b.slots| && 0 <= k < |b.slots[d].slots|
      && HasPrefix(Expand(c.slot)[i], "P") && b.slots[d].slots[k] == Expand(c.slot)[i]
  }

  /** When every code of a field has the same "P"-or-not prefix as the field
      itself, the raw-field test and the per-code test agree. */
  lemma HitsAgreeOnUniformFields(b: Batch, c: Course)
    requires forall i :: 0 <= i < |Expand(c.slot)| ==> (HasPrefix(Expand(c.slot)[i], "P") <==> HasPrefix(c.slot, "P"))
    ensures CourseHits(b, c) <==> PerCodeHits(b, c)
  {
    var codes := Expand(c.slot);
    if CourseHits(b, c) {
      var d, k :| 0 <= d < |b.slots| && 0 <= k < |b.slots[d].slots| && b.slots[d].slots[k] in codes;
      var i :| 0 <= i < |codes| && codes[i] == b.slots[d].slots[k];
      assert HasPrefix(codes[i], "P");
    }
    if PerCodeHits(b, c) {
      var i, d, k :| 0 <= i < |codes| && 0 <= d < |b.slots| && 0 <= k < |b.slots[d].slots|
        && HasPrefix(codes[i], "P") && b.slots[d].slots[k] == codes[i];
      assert b.slots[d].slots[k] in codes;
    }
  }

  /** The range "A-P6" expands to "A" and "P6". */
  lemma ExpandAP6()
    ensures Expand("A-P6") == ["A", "P6"]
  {
    assert Join(["A", "P6"], '-') == "A-P6";
    SlotsFromRangeJoin(["A", "P6"]);
    ExpandIsSplit("A-P6");
  }

  /** The range "P16-A" expands to "P16" and "A". */
  lemma ExpandP16A()
    ensures Expand("P16-A") == ["P16", "A"]
  {
    assert Join(["P16", "A"], '-') == "P16-A";
    SlotsFromRangeJoin(["P16", "A"]);
    ExpandIsSplit("P16-A");
  }

  /** A range that starts with a theory code is never checked: "A-P6" holds the
      batch-1 code P6 yet makes no template relevant. */
  lemma LeadingTheoryCodeIgnored(b: Batch, c: Course)
    requires c.slot == "A-P6"
    ensures !CourseHits(b, c)
    ensures PerCodeHits(Batch1, c)
  {
    ExpandAP6();
    assert Batch1.slots[0].slots[5] == Expand(c.slot)[1];
    assert HasPrefix(Expand(c.slot)[1], "P");
  }

  /** P16 is a batch-2 practical code and not a batch-1 one. */
  lemma P16InBatch2Only()
    ensures "P16" in PracticalCodes(Batch2) && "P16" !in PracticalCodes(Batch1)
  {
    assert Batch2.slots[1].slots[5] == "P16";
    assert HasPrefix("P16", "P");
    assert "P16" in Codes(Batch2);
    PracticalCodesDisjoint();
  }

  /** Every code of a "P"-led range is compared, theory codes included: "P16-A"
      selects batch 1 through "A", although its only practical code P16 belongs to
      batch 2. */
  lemma TheoryCodeInRangeSelectsBatch1(reg: string, c: Course)
    requires c.slot == "P16-A"
    ensures Resolve(CourseResponse(reg, [c])) == Some(ResultFor(Batch1, CourseResponse(reg, [c])))
    ensures !PerCodeHits(Batch1, c) && PerCodeHits(Batch2, c)
  {
    ExpandP16A();
    P16InBatch2Only();
    assert Batch1.slots[0].slots[0] == "A";
    assert "A" in Codes(Batch1);
    assert HasPrefix(c.slot, "P") && !HasPrefix("A", "P");
    RangeHitsThroughTheoryCode(reg, c, "P16", "A");
  }

  /** A "P"-led range of a batch-2 practical code and a batch-1 theory code
      selects batch 1, although per code only batch 2 is relevant. */
  lemma RangeHitsThroughTheoryCode(reg: string, c: Course, p: string, t: string)
    requires HasPrefix(c.slot, "P") && Expand(c.slot) == [p, t] && !HasPrefix(t, "P")
    requires t in Codes(Batch1)
    requires p in PracticalCodes(Batch2) && p !in PracticalCodes(Batch1)
    ensures Resolve(CourseResponse(reg, [c])) == Some(ResultFor(Batch1, CourseResponse(reg, [c])))
    ensures !PerCodeHits(Batch1, c) && PerCodeHits(Batch2, c)
  {
    var resp := CourseResponse(reg, [c]);
    var d, k :| 0 <= d < |Batch1.slots| && 0 <= k < |Batch1.slots[d].slots| && Batch1.slots[d].slots[k] == t;
    assert Batch1.slots[d].slots[k] in Expand(c.slot);
    assert resp.courses[0] == c;
    assert CourseHits(Batch1, resp.courses[0]);
    BatchPriority(resp);
    PerCodeHitsPracticalFirst(Batch1, c, p, t);
    PerCodeHitsPracticalFirst(Batch2, c, p, t);
  }

  /** For a field expanding to a practical code followed by a theory code, the
      per-code test is membership of the practical code among the template's. */
  lemma PerCodeHitsPracticalFirst(b: Batch, c: Course, p: string, t: string)
    requires Expand(c.slot) == [p, t] && HasPrefix(p, "P") && !HasPrefix(t, "P")
    ensures PerCodeHits(b, c) <==> p in PracticalCodes(b)
  {
    var codes := Expand(c.slot);
    if p in PracticalCodes(b) {
      var d, k :| 0 <= d < |b.slots| && 0 <= k < |b.slots[d].slots| && b.slots[d].slots[k] == p;
      assert HasPrefix(codes[0], "P") && b.slots[d].slots[k] == codes[0];
    }
    if PerCodeHits(b, c) {
      var i, d, k :| 0 <= i < |codes| && 0 <= d < |b.slots| && 0 <= k < |b.slots[d].slots|
        && HasPrefix(codes[i], "P") && b.slots[d].slots[k] == codes[i];
      assert i == 0;
      assert b.slots[d].slots[k] in Codes(b);
    }
  }

  // ---------------------------------------------------------------------------
  // Scenarios

  /** One course in slot "P6" selects batch 1 and fills day 1, period 6. */
  lemma ScenarioP6(reg: string, c: Course)
    requires c.slot == "P6"
    ensures Resolve(CourseResponse(reg, [c])).Some?
    ensures Resolve(CourseResponse(reg, [c])).value.batch == "1"
    ensures Resolve(CourseResponse(reg, [c])).value.schedule[0].table[5] == Some(Entry(c, "P6"))
    ensures var s := Resolve(CourseResponse(reg, [c])).value.schedule;
            forall d, k :: 0 <= d < |s| && 0 <= k < |s[d].table| && !(d == 0 && k == 5) ==> s[d].table[k] == None
  {
    P6SelectsBatch1(reg, c);
    P6OtherPeriodsEmpty(c);
  }

  /** Every period of batch 1 other than day 1, position 5 stays empty for a course in slot "P6". */
  lemma P6OtherPeriodsEmpty(c: Course)
    requires c.slot == "P6"
    ensures var s := Schedule(Batch1.slots, SlotMapping([c]));
            forall d, k :: 0 <= d < |s| && 0 <= k < |s[d].table| && !(d == 0 && k == 5) ==> s[d].table[k] == None
  {
    TemplateShape(Batch1);
    var s := Schedule(Batch1.slots, SlotMapping([c]));
    forall d, k | 0 <= d < |s| && 0 <= k < |s[d].table| && !(d == 0 && k == 5)
      ensures s[d].table[k] == None
    {
      P6OnlyPeriod(c, d, k);
    }
  }

  /** A course in slot "P6" makes batch 1 relevant and lands on day 1, position 5. */
  lemma P6SelectsBatch1(reg: string, c: Course)
    requires c.slot == "P6"
    ensures Resolve(CourseResponse(reg, [c])) == Some(ResultFor(Batch1, CourseResponse(reg, [c])))
    ensures Schedule(Batch1.slots, SlotMapping([c]))[0].table[5] == Some(Entry(c, "P6"))
  {
    var resp := CourseResponse(reg, [c]);
    ExpandIsSplit(c.slot);
    assert Batch1.slots[0].slots[5] in Expand(c.slot);
    assert CourseHits(Batch1, resp.courses[0]);
    BatchPriority(resp);
    MappingContents(resp.courses, "P6");
    assert LastWriter(resp.courses, 0, "P6");
  }

  /** A course in slot "P6" fills no period of batch 1 other than day 1, position 5. */
  lemma P6OnlyPeriod(c: Course, d: nat, k: nat)
    requires c.slot == "P6" && d < 5 && k < 10 && !(d == 0 && k == 5)
    ensures Schedule(Batch1.slots, SlotMapping([c]))[d].table[k] == None
  {
    ExpandIsSplit(c.slot);
    assert PCode(6) == "P6";
    Batch1Layout();
    PositionCode(Batch1, true);
    OnlyOwnPeriod(Batch1, true, c, 6, d, k);
  }

  /** A course holding the single practical code numbered `n` fills no period of
      a laid-out template other than the one that code is numbered by. */
  lemma OnlyOwnPeriod(b: Batch, oddFirst: bool, c: Course, n: nat, d: nat, k: nat)
    requires Positions(b, oddFirst)
    requires Expand(c.slot) == [PCode(n)]
    requires d < 5 && k < 10 && 10 * d + k + 1 != n
    ensures Schedule(b.slots, SlotMapping([c]))[d].table[k] == None
  {
    var code := b.slots[d].slots[k];
    assert LaidOut(b.slots[d].slots, d, k, oddFirst);
    PracticalCodeHasPrefix(n);
    if code == PCode(n) {
      PCodeInjective(10 * d + k + 1, n);
    }
    assert [c][0] == c;
    PeriodContents(b, [c], d, k);
  }

  /** One course in slot "P16" falls back to batch 2. */
  lemma ScenarioP16(reg: string, c: Course)
    requires c.slot == "P16"
    ensures Resolve(CourseResponse(reg, [c])).Some?
    ensures Resolve(CourseResponse(reg, [c])).value.batch == "2"
  {
    assert PCode(16) == "P16";
    PracticalCodeResolves(reg, c, 16);
    P16InBatch2Only();
  }

  /** Theory-only courses give no timetable. */
  lemma ScenarioTheoryOnly(reg: string, c: Course)
    requires c.slot == "A"
    ensures Resolve(CourseResponse(reg, [c])) == None
  {
    assert CourseResponse(reg, [c]).courses[0] == c;
    assert !HasPrefix(c.slot, "P") by {
      assert c.slot[..1] == "A";
    }
    NoPracticalFieldUnresolved(CourseResponse(reg, [c]));
  }

  /** The range "A-F-G" expands to its three theory codes. */
  lemma ExpandAFG()
    ensures Expand("A-F-G") == ["A", "F", "G"]
  {
    assert Join(["A", "F", "G"], '-') == "A-F-G";
    SlotsFromRangeJoin(["A", "F", "G"]);
    ExpandIsSplit("A-F-G");
  }

  /** The map built from one course holds exactly that course's codes, each
      bound to its record. */
  lemma SingleCourseEntries(c: Course)
    ensures forall code :: code in SlotMapping([c]) <==> code in Expand(c.slot)
    ensures forall code :: code in SlotMapping([c]) ==> SlotMapping([c])[code] == Entry(c, code)
  {
    assert [c][..0] == [];
  }

  /** Every record of an online course is flagged online and labelled "Practical". */
  lemma OnlineCourseRecords(c: Course)
    requires IsOnline(c.room)
    ensures forall code :: code in SlotMapping([c]) ==>
      SlotMapping([c])[code].online && SlotMapping([c])[code].courseType == "Practical"
  {
    SingleCourseEntries(c);
  }

  /** A course in range "A-F-G" maps exactly A, F and G. */
  lemma ScenarioRangeMapping(c: Course)
    requires c.slot == "A-F-G"
    ensures forall code :: code in SlotMapping([c]) <==> code == "A" || code == "F" || code == "G"
  {
    ExpandAFG();
    ThreeCodeMapping(c, "A", "F", "G");
  }

  /** A course whose field expands to three codes maps exactly those three. */
  lemma ThreeCodeMapping(c: Course, x: string, y: string, z: string)
    requires Expand(c.slot) == [x, y, z]
    ensures forall code :: code in SlotMapping([c]) <==> code == x || code == y || code == z
  {
    SingleCourseEntries(c);
  }

  /** A theory-code range gives no timetable, online or not. */
  lemma ScenarioRangeUnresolved(reg: string, c: Course)
    requires c.slot == "A-F-G"
    ensures Resolve(CourseResponse(reg, [c])) == None
  {
    var resp := CourseResponse(reg, [c]);
    assert resp.courses[0] == c;
    assert !HasPrefix(c.slot, "P") by {
      assert c.slot[..1] == "A";
    }
    NoPracticalFieldUnresolved(resp);
  }
}
