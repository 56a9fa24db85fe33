/** The two hard-coded slot-layout templates ("batches") and what holds of them. */
module Templates {
  import opened Types
  import opened GoStrings

  /** Batch "1": practical codes P6-P15, P26-P35, P46-P50. */
  const Batch1: Batch := Batch("1", [
    Slot(1, "Day 1", ["A", "A", "F", "F", "G", "P6", "P7", "P8", "P9", "P10"]),
    Slot(2, "Day 2", ["P11", "P12", "P13", "P14", "P15", "B", "B", "G", "G", "A"]),
    Slot(3, "Day 3", ["C", "C", "A", "D", "B", "P26", "P27", "P28", "P29", "P30"]),
    Slot(4, "Day 4", ["P31", "P32", "P33", "P34", "P35", "D", "D", "B", "E", "C"]),
    Slot(5, "Day 5", ["E", "E", "C", "F", "D", "P46", "P47", "P48", "P49", "P50"])
  ])

  /** Batch "2": practical codes P1-P5, P16-P25, P36-P45. */
  const Batch2: Batch := Batch("2", [
    Slot(1, "Day 1", ["P1", "P2", "P3", "P4", "P5", "A", "A", "F", "F", "G"]),
    Slot(2, "Day 2", ["B", "B", "G", "G", "A", "P16", "P17", "P18", "P19", "P20"]),
    Slot(3, "Day 3", ["P21", "P22", "P23", "P24", "P25", "C", "C", "A", "D", "B"]),
    Slot(4, "Day 4", ["D", "D", "B", "E", "C", "P36", "P37", "P38", "P39", "P40"]),
    Slot(5, "Day 5", ["P41", "P42", "P43", "P44", "P45", "E", "E", "C", "F", "D"])
  ])

  /** The candidate templates in the order they are tried. */
  const Batches: seq<Batch> := [Batch1, Batch2]

  /** Every slot code that occurs at some position of the template. */
  function Codes(b: Batch): set<string>
  {
    set d, k | 0 <= d < |b.slots| && 0 <= k < |b.slots[d].slots| :: b.slots[d].slots[k]
  }

  /** The practical ("P"-prefixed) codes of a template. */
  function PracticalCodes(b: Batch): set<string>
  {
    set c | c in Codes(b) && HasPrefix(c, "P")
  }

  /** A theory slot code: one letter from A to G. */
  predicate IsTheoryCode(c: string) {
    |c| == 1 && 'A' <= c[0] <= 'G'
  }

  /** Decimal numeral of a natural number. */
  function Numeral(n: nat): (s: string)
    ensures |s| >= 1
    ensures n < 10 <==> |s| == 1
  {
    if n < 10 then [('0' as int + n) as char] else Numeral(n / 10) + [('0' as int + n % 10) as char]
  }

  /** The practical slot code numbered `n`. */
  function PCode(n: nat): string { "P" + Numeral(n) }

  /** A numeral is made of decimal digits only. */
  lemma {:induction false} NumeralDigits(n: nat)
    ensures forall i :: 0 <= i < |Numeral(n)| ==> '0' <= Numeral(n)[i] <= '9'
  {
    if n >= 10 {
      NumeralDigits(n / 10);
    }
  }

  /** A practical code never contains the range separator `-`. */
  lemma PCodeHasNoDash(n: nat)
    ensures '-' !in PCode(n)
  {
    NumeralDigits(n);
    assert PCode(n)[0] == 'P';
    forall i | 1 <= i < |PCode(n)| ensures PCode(n)[i] != '-' {
      assert PCode(n)[i] == Numeral(n)[i - 1];
    }
  }

  /** The practical codes numbered `first` to `first + count - 1`, in order. */
  function PRun(first: nat, count: nat): seq<string>
    decreases count
  {
    if count == 0 then [] else [PCode(first)] + PRun(first + 1, count - 1)
  }

  lemma {:induction false} NumeralInjective(a: nat, b: nat)
    requires Numeral(a) == Numeral(b)
    ensures a == b
    decreases a
  {
    if a >= 10 && b >= 10 {
      var na, nb := Numeral(a), Numeral(b);
      assert na[..|na| - 1] == Numeral(a / 10) && nb[..|nb| - 1] == Numeral(b / 10);
      NumeralInjective(a / 10, b / 10);
      assert na[|na| - 1] == nb[|nb| - 1];
    }
  }

  lemma PCodeInjective(a: nat, b: nat)
    requires PCode(a) == PCode(b)
    ensures a == b
  {
    assert PCode(a)[1..] == Numeral(a) && PCode(b)[1..] == Numeral(b);
    NumeralInjective(a, b);
  }

  lemma {:induction false} PRunAt(first: nat, count: nat, i: nat)
    requires i < count
    ensures |PRun(first, count)| == count && PRun(first, count)[i] == PCode(first + i)
    decreases count
  {
    if i > 0 {
      PRunAt(first + 1, count - 1, i - 1);
    } else if count > 1 {
      PRunAt(first + 1, count - 1, 0);
    }
  }

  lemma PracticalCodeHasPrefix(n: nat)
    ensures HasPrefix(PCode(n), "P")
  {
    assert PCode(n)[..1] == "P";
  }

  lemma TheoryCodeHasNoPrefix(c: string)
    requires IsTheoryCode(c)
    ensures !HasPrefix(c, "P")
  {
  }

  /** The row of day `d` (counted from 0) is a run of five practical codes and five
      theory letters; the run is numbered from 10·d + 1 when it fills the first half
      and from 10·d + 6 when it fills the second. */
  ghost predicate Halves(row: seq<string>, d: nat, practicalFirst: bool)
  {
    && |row| == 10
    && (practicalFirst ==> row[..5] == PRun(10 * d + 1, 5) && forall c :: c in row[5..] ==> IsTheoryCode(c))
    && (!practicalFirst ==> row[5..] == PRun(10 * d + 6, 5) && forall c :: c in row[..5] ==> IsTheoryCode(c))
  }

  /** The layout shared by both templates: five rows made of halves, the practical
      half first on odd-indexed rows exactly when `oddFirst`. */
  ghost predicate Layout(b: Batch, oddFirst: bool)
  {
    && |b.slots| == 5
    && forall d :: 0 <= d < 5 ==> Halves(b.slots[d].slots, d, (d % 2 == 1) == oddFirst)
  }

  /** Position `k` of row `d` holds a practical code exactly when it lies in the
      practical half of the row, and that code is the one numbered 10·d + k + 1;
      every other position holds a theory letter. */
  predicate LaidOut(row: seq<string>, d: nat, k: nat, oddFirst: bool)
    requires k < |row|
  {
    var practicalFirst := (d % 2 == 1) == oddFirst;
    && (HasPrefix(row[k], "P") <==> (k < 5) == practicalFirst)
    && (HasPrefix(row[k], "P") ==> row[k] == PCode(10 * d + k + 1))
    && (!HasPrefix(row[k], "P") ==> IsTheoryCode(row[k]))
  }

  lemma HalfRow(row: seq<string>, d: nat, k: nat, oddFirst: bool)
    requires Halves(row, d, (d % 2 == 1) == oddFirst) && k < 10
    ensures LaidOut(row, d, k, oddFirst)
  {
    var practicalFirst := (d % 2 == 1) == oddFirst;
    var first := if practicalFirst then 10 * d + 1 else 10 * d + 6;
    var i := if k < 5 then k else k - 5;
    if (k < 5) == practicalFirst {
      PRunAt(first, 5, i);
      assert row[k] == PRun(first, 5)[i] by {
        if k < 5 { assert row[k] == row[..5][k]; } else { assert row[k] == row[5..][k - 5]; }
      }
      PracticalCodeHasPrefix(first + i);
    } else {
      if k < 5 { assert row[k] in row[..5]; } else { assert row[k] in row[5..]; }
      TheoryCodeHasNoPrefix(row[k]);
    }
  }

  lemma Batch1Day1Run()
    ensures Batch1.slots[0].slots[5..] == PRun(6, 5)
  {
    assert PCode(6) == "P6" && PCode(7) == "P7" && PCode(8) == "P8" && PCode(9) == "P9" && PCode(10) == "P10";
    assert PRun(6, 5) == [PCode(6), PCode(7), PCode(8), PCode(9), PCode(10)];
  }

  lemma Batch1Day1()
    ensures Halves(Batch1.slots[0].slots, 0, false)
  {
    Batch1Day1Run();
    assert forall c :: c in Batch1.slots[0].slots[..5] ==> IsTheoryCode(c);
  }

  lemma Batch1Day2Run()
    ensures Batch1.slots[1].slots[..5] == PRun(11, 5)
  {
    assert PCode(11) == "P11" && PCode(12) == "P12" && PCode(13) == "P13" && PCode(14) == "P14" && PCode(15) == "P15";
    assert PRun(11, 5) == [PCode(11), PCode(12), PCode(13), PCode(14), PCode(15)];
  }

  lemma Batch1Day2()
    ensures Halves(Batch1.slots[1].slots, 1, true)
  {
    Batch1Day2Run();
    assert forall c :: c in Batch1.slots[1].slots[5..] ==> IsTheoryCode(c);
  }

  lemma Batch1Day3Run()
    ensures Batch1.slots[2].slots[5..] == PRun(26, 5)
  {
    assert PCode(26) == "P26" && PCode(27) == "P27" && PCode(28) == "P28" && PCode(29) == "P29" && PCode(30) == "P30";
    assert PRun(26, 5) == [PCode(26), PCode(27), PCode(28), PCode(29), PCode(30)];
  }

  lemma Batch1Day3()
    ensures Halves(Batch1.slots[2].slots, 2, false)
  {
    Batch1Day3Run();
    assert forall c :: c in Batch1.slots[2].slots[..5] ==> IsTheoryCode(c);
  }

  lemma Batch1Day4Run()
    ensures Batch1.slots[3].slots[..5] == PRun(31, 5)
  {
    assert PCode(31) == "P31" && PCode(32) == "P32" && PCode(33) == "P33" && PCode(34) == "P34" && PCode(35) == "P35";
    assert PRun(31, 5) == [PCode(31), PCode(32), PCode(33), PCode(34), PCode(35)];
  }

  lemma Batch1Day4()
    ensures Halves(Batch1.slots[3].slots, 3, true)
  {
    Batch1Day4Run();
    assert forall c :: c in Batch1.slots[3].slots[5..] ==> IsTheoryCode(c);
  }

  lemma Batch1Day5Run()
    ensures Batch1.slots[4].slots[5..] == PRun(46, 5)
  {
    assert PCode(46) == "P46" && PCode(47) == "P47" && PCode(48) == "P48" && PCode(49) == "P49" && PCode(50) == "P50";
    assert PRun(46, 5) == [PCode(46), PCode(47), PCode(48), PCode(49), PCode(50)];
  }

  lemma Batch1Day5()
    ensures Halves(Batch1.slots[4].slots, 4, false)
  {
    Batch1Day5Run();
    assert forall c :: c in Batch1.slots[4].slots[..5] ==> IsTheoryCode(c);
  }

  /** Batch "1" follows the shared layout with its practical half first on the
      odd-indexed rows. */
  lemma Batch1Layout()
    ensures Layout(Batch1, true)
  {
    forall d | 0 <= d < 5
      ensures Halves(Batch1.slots[d].slots, d, (d % 2 == 1) == true)
    {
      if d == 0 {
        Batch1Day1();
      } else if d == 1 {
        Batch1Day2();
      } else if d == 2 {
        Batch1Day3();
      } else if d == 3 {
        Batch1Day4();
      } else {
        Batch1Day5();
      }
    }
  }

  lemma Batch2Day1Run()
    ensures Batch2.slots[0].slots[..5] == PRun(1, 5)
  {
    assert PCode(1) == "P1" && PCode(2) == "P2" && PCode(3) == "P3" && PCode(4) == "P4" && PCode(5) == "P5";
    assert PRun(1, 5) == [PCode(1), PCode(2), PCode(3), PCode(4), PCode(5)];
  }

  lemma Batch2Day1()
    ensures Halves(Batch2.slots[0].slots, 0, true)
  {
    Batch2Day1Run();
    assert forall c :: c in Batch2.slots[0].slots[5..] ==> IsTheoryCode(c);
  }

  lemma Batch2Day2Run()
    ensures Batch2.slots[1].slots[5..] == PRun(16, 5)
  {
    assert PCode(16) == "P16" && PCode(17) == "P17" && PCode(18) == "P18" && PCode(19) == "P19" && PCode(20) == "P20";
    assert PRun(16, 5) == [PCode(16), PCode(17), PCode(18), PCode(19), PCode(20)];
  }

  lemma Batch2Day2()
    ensures Halves(Batch2.slots[1].slots, 1, false)
  {
    Batch2Day2Run();
    assert forall c :: c in Batch2.slots[1].slots[..5] ==> IsTheoryCode(c);
  }

  lemma Batch2Day3Run()
    ensures Batch2.slots[2].slots[..5] == PRun(21, 5)
  {
    assert PCode(21) == "P21" && PCode(22) == "P22" && PCode(23) == "P23" && PCode(24) == "P24" && PCode(25) == "P25";
    assert PRun(21, 5) == [PCode(21), PCode(22), PCode(23), PCode(24), PCode(25)];
  }

  lemma Batch2Day3()
    ensures Halves(Batch2.slots[2].slots, 2, true)
  {
    Batch2Day3Run();
    assert forall c :: c in Batch2.slots[2].slots[5..] ==> IsTheoryCode(c);
  }

  lemma Batch2Day4Run()
    ensures Batch2.slots[3].slots[5..] == PRun(36, 5)
  {
    assert PCode(36) == "P36" && PCode(37) == "P37" && PCode(38) == "P38" && PCode(39) == "P39" && PCode(40) == "P40";
    assert PRun(36, 5) == [PCode(36), PCode(37), PCode(38), PCode(39), PCode(40)];
  }

  lemma Batch2Day4()
    ensures Halves(Batch2.slots[3].slots, 3, false)
  {
    Batch2Day4Run();
    assert forall c :: c in Batch2.slots[3].slots[..5] ==> IsTheoryCode(c);
  }

  lemma Batch2Day5Run()
    ensures Batch2.slots[4].slots[..5] == PRun(41, 5)
  {
    assert PCode(41) == "P41" && PCode(42) == "P42" && PCode(43) == "P43" && PCode(44) == "P44" && PCode(45) == "P45";
    assert PRun(41, 5) == [PCode(41), PCode(42), PCode(43), PCode(44), PCode(45)];
  }

  lemma Batch2Day5()
    ensures Halves(Batch2.slots[4].slots, 4, true)
  {
    Batch2Day5Run();
    assert forall c :: c in Batch2.slots[4].slots[5..] ==> IsTheoryCode(c);
  }

  /** Batch "2" follows the shared layout with its practical half first on the
      even-indexed rows. */
  lemma Batch2Layout()
    ensures Layout(Batch2, false)
  {
    forall d | 0 <= d < 5
      ensures Halves(Batch2.slots[d].slots, d, (d % 2 == 1) == false)
    {
      if d == 0 {
        Batch2Day1();
      } else if d == 1 {
        Batch2Day2();
      } else if d == 2 {
        Batch2Day3();
      } else if d == 3 {
        Batch2Day4();
      } else {
        Batch2Day5();
      }
    }
  }

  /** Every position of the template is laid out as `LaidOut` says. */
  ghost predicate Positions(b: Batch, oddFirst: bool)
  {
    && |b.slots| == 5
    && (forall d :: 0 <= d < 5 ==> |b.slots[d].slots| == 10)
    && forall d, k :: 0 <= d < 5 && 0 <= k < 10 ==> LaidOut(b.slots[d].slots, d, k, oddFirst)
  }

  /** In a template with the shared layout, position `k` of row `d` holds either a
      theory letter or the practical code numbered 10·d + k + 1. */
  lemma PositionCode(b: Batch, oddFirst: bool)
    requires Layout(b, oddFirst)
    ensures Positions(b, oddFirst)
  {
    forall d, k | 0 <= d < 5 && 0 <= k < 10
      ensures LaidOut(b.slots[d].slots, d, k, oddFirst)
    {
      HalfRow(b.slots[d].slots, d, k, oddFirst);
    }
  }

  /** Both templates are 5 rows of 10 slot codes, for days 1 to 5 in order. */
  lemma TemplateShape(b: Batch)
    requires b in Batches
    ensures |b.slots| == 5
    ensures forall d :: 0 <= d < 5 ==> b.slots[d].day == d + 1 && b.slots[d].dayOrder == "Day " + Numeral(d + 1)
    ensures forall d :: 0 <= d < 5 ==> |b.slots[d].slots| == 10
  {
  }

  lemma GridNumberInjective(d1: nat, k1: nat, d2: nat, k2: nat)
    requires k1 < 10 && k2 < 10 && 10 * d1 + k1 == 10 * d2 + k2
    ensures d1 == d2 && k1 == k2
  {
  }

  /** Two templates with complementary layouts share no practical code. */
  lemma {:induction false} ComplementaryDisjoint(b1: Batch, b2: Batch)
    requires Positions(b1, true) && Positions(b2, false)
    ensures PracticalCodes(b1) !! PracticalCodes(b2)
  {
    forall d1: nat, k1: nat, d2: nat, k2: nat |
      d1 < 5 && k1 < 10 && d2 < 5 && k2 < 10 && HasPrefix(b1.slots[d1].slots[k1], "P")
      ensures b1.slots[d1].slots[k1] != b2.slots[d2].slots[k2]
    {
      assert LaidOut(b1.slots[d1].slots, d1, k1, true);
      assert LaidOut(b2.slots[d2].slots, d2, k2, false);
      if b1.slots[d1].slots[k1] == b2.slots[d2].slots[k2] {
        PCodeInjective(10 * d1 + k1 + 1, 10 * d2 + k2 + 1);
        GridNumberInjective(d1, k1, d2, k2);
      }
    }
  }

  /** Every practical code of a template with the shared layout is one of P1 to P50. */
  lemma PracticalCodesNumbered(b: Batch, oddFirst: bool, c: string)
    requires Positions(b, oddFirst) && c in PracticalCodes(b)
    ensures exists n :: 1 <= n <= 50 && c == PCode(n)
  {
    var d, k :| 0 <= d < |b.slots| && 0 <= k < |b.slots[d].slots| && b.slots[d].slots[k] == c;
    assert LaidOut(b.slots[d].slots, d, k, oddFirst);
    assert c == PCode(10 * d + k + 1);
  }

  /** Each of P1 to P50 is a practical code of one of two complementary templates. */
  lemma PracticalCodeFound(b1: Batch, b2: Batch, n: nat)
    requires Positions(b1, true) && Positions(b2, false) && 1 <= n <= 50
    ensures PCode(n) in PracticalCodes(b1) + PracticalCodes(b2)
  {
    var d, k := (n - 1) / 10, (n - 1) % 10;
    assert LaidOut(b1.slots[d].slots, d, k, true);
    assert LaidOut(b2.slots[d].slots, d, k, false);
    assert b1.slots[d].slots[k] in Codes(b1);
    assert b2.slots[d].slots[k] in Codes(b2);
  }

  /** Two templates with complementary layouts together hold exactly P1 to P50. */
  lemma ComplementaryCover(b1: Batch, b2: Batch)
    requires Positions(b1, true) && Positions(b2, false)
    ensures PracticalCodes(b1) + PracticalCodes(b2) == set n | 1 <= n <= 50 :: PCode(n)
  {
    forall c | c in PracticalCodes(b1) + PracticalCodes(b2)
      ensures exists n :: 1 <= n <= 50 && c == PCode(n)
    {
      if c in PracticalCodes(b1) {
        PracticalCodesNumbered(b1, true, c);
      } else {
        PracticalCodesNumbered(b2, false, c);
      }
    }
    forall n | 1 <= n <= 50
      ensures PCode(n) in PracticalCodes(b1) + PracticalCodes(b2)
    {
      PracticalCodeFound(b1, b2, n);
    }
  }

  /** No practical code belongs to both templates. */
  lemma PracticalCodesDisjoint()
    ensures PracticalCodes(Batch1) !! PracticalCodes(Batch2)
  {
    Batch1Layout();
    Batch2Layout();
    PositionCode(Batch1, true);
    PositionCode(Batch2, false);
    ComplementaryDisjoint(Batch1, Batch2);
  }

  /** Together the two templates hold exactly the practical codes P1 to P50. */
  lemma PracticalCodesCover()
    ensures PracticalCodes(Batch1) + PracticalCodes(Batch2) == set n | 1 <= n <= 50 :: PCode(n)
  {
    Batch1Layout();
    Batch2Layout();
    PositionCode(Batch1, true);
    PositionCode(Batch2, false);
    ComplementaryCover(Batch1, Batch2);
  }
}
