// Modified Julian Dates (Annex C of ETSI EN 300 468) turned into civil dates by
// shifts and multiplications, against a calendar that goes day by day.

module Mjd {
  import opened Bytes

  datatype Date = Date(y: int, m: int, d: int)

  // ------------------------------------------------------------ the code

  /** Division as in C, towards zero. */
  function Quotient(a: int, b: int): int
    requires b > 0
  {
    if a >= 0 then a / b else -(-a / b)
  }

  /** How many days an MJD is after 1 March 2000; 16 bits of it are kept, so
      that smaller numbers stand for days after the 16 bits ran over. */
  function Offset(mjd: int): int {
    if mjd - 51604 < 0 then mjd - 51604 + 0x10000 else mjd - 51604
  }

  /** The four divisions of extract_mjd: cycles of 400, 100, 4 and 1 years, and
      the day of a year that starts on 1 March. */
  function Split(n: int): Parts {
    var a1 := Quotient(n, 146097);
    var m1 := n - a1 * 146097;
    var a2 := Quotient(m1, 36524);
    var m2 := m1 - a2 * 36524;
    var a3 := Quotient(m2, 1461);
    var m3 := m2 - a3 * 1461;
    var q := Quotient(m3, 365);
    var a4 := if q > 3 then 3 else q;
    Parts(a1, a2, a3, a4, m3 - a4 * 365)
  }

  /** The arithmetic of extract_mjd on the day of the year. */
  function Civil(p: Parts): Date {
    var mw := (1071 * p.m4 + 450) / 32768;
    var dw := p.m4 - (979 * mw + 16) / 32;
    var yw := p.Year();
    if mw + 3 > 12 then Date(yw + 1, mw + 3 - 12, dw + 1) else Date(yw, mw + 3, dw + 1)
  }

  /** extract_mjd */
  function Extract(mjd: int): Date {
    Civil(Split(Offset(mjd)))
  }

  // --------------------------------------------------------- the calendar

  predicate Leap(y: int) {
    y % 4 == 0 && (y % 100 != 0 || y % 400 == 0)
  }

  function DaysIn(y: int, m: int): int {
    if m == 2 then if Leap(y) then 29 else 28
    else if m in {4, 6, 9, 11} then 30
    else 31
  }

  predicate Real(t: Date) {
    1 <= t.m <= 12 && 1 <= t.d <= DaysIn(t.y, t.m)
  }

  function NextDay(t: Date): Date {
    if t.d < DaysIn(t.y, t.m) then t.(d := t.d + 1)
    else if t.m < 12 then Date(t.y, t.m + 1, 1)
    else Date(t.y + 1, 1, 1)
  }

  function Later(t: Date, days: nat): Date {
    if days == 0 then t else NextDay(Later(t, days - 1))
  }

  const START := Date(2000, 3, 1)

  // ------------------------------------------------------------ the proof

  datatype Parts = Parts(a1: int, a2: int, a3: int, a4: int, m4: int) {
    function Number(): int {
      146097 * a1 + 36524 * a2 + 1461 * a3 + 365 * a4 + m4
    }

    function Year(): int {
      a1 * 400 + a2 * 100 + a3 * 4 + a4 + 2000
    }

    /** Does 29 February end the year that starts in March? */
    predicate Long() {
      a4 == 3 && (a3 < 24 || a2 == 3)
    }

    predicate InRange() {
      0 <= a1 && 0 <= a2 < 4 && 0 <= a3 < 25 && 0 <= a4 < 4 && 0 <= m4 < if Long() then 366 else 365
    }

    function Next(): Parts {
      if m4 + 1 < if Long() then 366 else 365 then this.(m4 := m4 + 1)
      else if a4 < 3 then Parts(a1, a2, a3, a4 + 1, 0)
      else if a3 < 24 then Parts(a1, a2, a3 + 1, 0, 0)
      else if a2 < 3 then Parts(a1, a2 + 1, 0, 0, 0)
      else Parts(a1 + 1, 0, 0, 0, 0)
    }

    lemma NextIsOneMore()
      requires InRange()
      ensures Next().InRange() && Next().Number() == Number() + 1
    {
    }

    /** Long years are those that end in a leap year's February. */
    lemma LongMeansLeap()
      requires InRange()
      ensures Leap(Year() + 1) <==> Long()
    {
      var y := Year() + 1;
      Mod4(100 * a1 + 25 * a2 + a3 + 500, a4 + 1);
      Mod100(4 * a1 + a2 + 20, 4 * a3 + a4 + 1);
      Mod400(a1 + 5, 100 * a2 + 4 * a3 + a4 + 1);
      assert y == 4 * (100 * a1 + 25 * a2 + a3 + 500) + (a4 + 1);
      assert y == 100 * (4 * a1 + a2 + 20) + (4 * a3 + a4 + 1);
      assert y == 400 * (a1 + 5) + (100 * a2 + 4 * a3 + a4 + 1);
    }
  }

  lemma Mod4(q: int, r: int)
    requires 0 < r <= 4
    ensures (4 * q + r) % 4 == 0 <==> r == 4
  {
  }

  lemma Mod100(q: int, r: int)
    requires 0 < r <= 100
    ensures (100 * q + r) % 100 == 0 <==> r == 100
  {
  }

  lemma Mod400(q: int, r: int)
    requires 0 < r <= 400
    ensures (400 * q + r) % 400 == 0 <==> r == 400
  {
  }

  /** First day of the i-th month from March, in a year that starts in March. */
  function MonthStart(i: int): int {
    match i
    case 0 => 0
    case 1 => 31
    case 2 => 61
    case 3 => 92
    case 4 => 122
    case 5 => 153
    case 6 => 184
    case 7 => 214
    case 8 => 245
    case 9 => 275
    case 10 => 306
    case 11 => 337
    case _ => 366
  }

  function MonthOf(m4: int): (i: int)
    requires 0 <= m4 < 366
    ensures 0 <= i < 12 && MonthStart(i) <= m4 < MonthStart(i + 1)
  {
    if m4 < 31 then 0 else if m4 < 61 then 1 else if m4 < 92 then 2 else if m4 < 122 then 3
    else if m4 < 153 then 4 else if m4 < 184 then 5 else if m4 < 214 then 6 else if m4 < 245 then 7
    else if m4 < 275 then 8 else if m4 < 306 then 9 else if m4 < 337 then 10 else 11
  }

  /** The shifts and multiplications are the table of month lengths. */
  lemma MonthArithmetic(m4: int)
    requires 0 <= m4 < 366
    ensures (1071 * m4 + 450) / 32768 == MonthOf(m4)
    ensures (979 * MonthOf(m4) + 16) / 32 == MonthStart(MonthOf(m4))
  {
    var i := MonthOf(m4);
    assert i * 32768 <= 1071 * m4 + 450 < (i + 1) * 32768;
  }

  /** A day of a year that starts in March, by the table. */
  function ByTable(year: int, m4: int): Date
    requires 0 <= m4 < 366
  {
    var i := MonthOf(m4);
    if i >= 10 then Date(year + 1, i - 9, m4 - MonthStart(i) + 1) else Date(year, i + 3, m4 - MonthStart(i) + 1)
  }

  lemma CivilByTable(p: Parts)
    requires 0 <= p.m4 < 366
    ensures Civil(p) == ByTable(p.Year(), p.m4)
  {
    hide MonthOf, MonthStart;
    MonthArithmetic(p.m4);
  }

  lemma TableNextDay(year: int, m4: int, long: bool)
    requires 0 <= m4 < (if long then 366 else 365) && (Leap(year + 1) <==> long)
    ensures Real(ByTable(year, m4))
    ensures NextDay(ByTable(year, m4))
         == if m4 + 1 < if long then 366 else 365 then ByTable(year, m4 + 1) else ByTable(year + 1, 0)
  {
    hide Leap;
  }

  lemma CivilNextDay(p: Parts)
    requires p.InRange()
    ensures Real(Civil(p)) && Civil(p.Next()) == NextDay(Civil(p))
  {
    hide Civil, Real, NextDay, ByTable, Leap;
    p.NextIsOneMore();
    p.LongMeansLeap();
    CivilByTable(p);
    CivilByTable(p.Next());
    TableNextDay(p.Year(), p.m4, p.Long());
  }

  /** Every day after 1 March 2000 has its parts, and the calendar agrees. */
  lemma {:induction false} DayHasParts(n: nat) returns (p: Parts)
    ensures p.InRange() && p.Number() == n && Civil(p) == Later(START, n)
  {
    if n == 0 {
      p := Parts(0, 0, 0, 0, 0);
      assert Civil(p) == START;
    } else {
      var q := DayHasParts(n - 1);
      q.NextIsOneMore();
      CivilNextDay(q);
      p := q.Next();
    }
  }

  /** The four divisions find the parts of a day; only the last day of 400
      years is beyond them. */
  lemma SplitFindsParts(p: Parts)
    requires p.InRange()
    ensures p.Number() % 146097 != 146096 <==> !(p.a2 == 3 && p.a3 == 24 && p.a4 == 3 && p.m4 == 365)
    ensures p.Number() % 146097 != 146096 ==> Split(p.Number()) == p
    ensures p.Number() % 146097 == 146096 ==> Split(p.Number()) == Parts(p.a1, 4, 0, 0, 0)
  {
    var m3 := 365 * p.a4 + p.m4;
    var m2 := 1461 * p.a3 + m3;
    var m1 := 36524 * p.a2 + m2;
    CycleOf400(p.a1, m1);
    CycleOf100(p.a2, m2);
    CycleOf4(p.a3, m3);
    YearInCycle(p.a4, p.m4);
  }

  lemma CycleOf400(q: int, r: int)
    requires 0 <= q && 0 <= r < 146097
    ensures Quotient(146097 * q + r, 146097) == q && (146097 * q + r) % 146097 == r
  {
  }

  lemma CycleOf100(q: int, r: int)
    requires 0 <= q && 0 <= r <= 36524
    ensures Quotient(36524 * q + r, 36524) == if r == 36524 then q + 1 else q
  {
  }

  lemma CycleOf4(q: int, r: int)
    requires 0 <= q && 0 <= r < 1461
    ensures Quotient(1461 * q + r, 1461) == q
  {
  }

  lemma YearInCycle(q: int, r: int)
    requires 0 <= q && 0 <= r <= 365 && (r == 365 ==> q == 3)
    ensures var y := Quotient(365 * q + r, 365); (if y > 3 then 3 else y) == if q > 3 then 3 else q
  {
  }

  /** From 1 March 2000 on, extract_mjd gives the civil date of a day if and
      only if the day is not the last of a cycle of 400 years. */
  lemma ExtractIsCalendar(n: nat)
    ensures Extract(51604 + n) == Later(START, n) <==> n % 146097 != 146096
    ensures Real(Later(START, n))
  {
    hide Split, Later, Civil;
    var p := DayHasParts(n);
    SplitFindsParts(p);
    CivilNextDay(p);
    if n % 146097 == 146096 {
      LastDay(p);
    }
  }

  lemma LastDay(p: Parts)
    requires p.InRange() && p.m4 == 365
    ensures Civil(p).m == 2 && Civil(Parts(p.a1, 4, 0, 0, 0)).m == 3
  {
    hide Civil;
    CivilByTable(p);
    CivilByTable(Parts(p.a1, 4, 0, 0, 0));
  }

  // ------------------------------------------------- power-on control dates

  /** The first and the last day that extract_power_on_ctrl_response reads. */
  function StartDay(src: seq<byte>): int
    requires |src| >= 13
  {
    Be16(src[9], src[10]) - src[11] as int
  }

  function LimitDay(src: seq<byte>): int
    requires |src| >= 13
  {
    StartDay(src) + (src[12] as int - 1)
  }

  /** The date read is that of the day that 16 bits of the number stand for. */
  ghost predicate ReadRight(mjd: int) {
    && 0 <= Offset(mjd) && (Offset(mjd) == mjd - 51604 || Offset(mjd) == mjd - 51604 + 0x10000)
    && Extract(mjd) == Later(START, Offset(mjd)) && Real(Extract(mjd))
  }

  /** Every response gives two real dates, each read right. */
  lemma ResponseDatesAreReal(src: seq<byte>)
    requires |src| >= 13
    ensures ReadRight(StartDay(src)) && ReadRight(LimitDay(src))
  {
    hide ReadRight;
    var high, low := src[9], src[10];
    assert 0 <= src[11] as int < 256 && 0 <= src[12] as int < 256;
    InRangeReadRight(StartDay(src));
    InRangeReadRight(LimitDay(src));
  }

  lemma InRangeReadRight(mjd: int)
    requires -256 <= mjd < 0x10000 + 256
    ensures ReadRight(mjd)
  {
    hide Extract, Later, Real;
    assert 0 <= Offset(mjd) < 146096;
    ExtractIsCalendar(Offset(mjd));
    SameOffset(mjd);
  }

  lemma SameOffset(mjd: int)
    requires Offset(mjd) >= 0
    ensures Extract(mjd) == Extract(51604 + Offset(mjd)) && Offset(51604 + Offset(mjd)) == Offset(mjd)
  {
    hide Split, Civil;
  }

  // Dates in order: a later day has a greater key.

  function Key(t: Date): int {
    t.y * 400 + t.m * 32 + t.d
  }

  lemma {:induction false} LaterIsGreater(t: Date, i: nat, j: nat)
    requires Real(t) && i < j
    ensures Real(Later(t, i)) && Real(Later(t, j)) && Key(Later(t, i)) < Key(Later(t, j))
    decreases j
  {
    if i + 1 < j {
      LaterIsGreater(t, i, j - 1);
    } else {
      LaterIsReal(t, i);
    }
    NextIsGreater(Later(t, j - 1));
  }

  lemma {:induction false} LaterIsReal(t: Date, i: nat)
    requires Real(t)
    ensures Real(Later(t, i))
  {
    if i > 0 {
      LaterIsReal(t, i - 1);
      NextIsGreater(Later(t, i - 1));
    }
  }

  lemma NextIsGreater(t: Date)
    requires Real(t)
    ensures Real(NextDay(t)) && Key(t) < Key(NextDay(t))
  {
    hide Leap;
  }

  lemma {:induction false} LaterAdds(t: Date, i: nat, j: nat)
    ensures Later(Later(t, i), j) == Later(t, i + j)
    decreases j
  {
    if j > 0 {
      LaterAdds(t, i, j - 1);
    }
  }

  /** A period of src[12] days: the last date is the right number of days after
      the first, unless the period runs across the day where 16 bits run over. A
      period of no days ends the day before it starts, with the same exception. */
  lemma PeriodHasItsLength(src: seq<byte>)
    requires |src| >= 13
    ensures var start, limit := StartDay(src), LimitDay(src);
      if src[12] >= 1 then Extract(limit) == Later(Extract(start), src[12] as nat - 1) <==> !(start < 51604 <= limit)
      else Extract(start) == Later(Extract(limit), 1) <==> start != 51604
  {
    hide Extract, Later, Real;
    var start, limit := StartDay(src), LimitDay(src);
    assert 0 <= src[11] as int < 256 && 0 <= src[12] as int < 256;
    if src[12] >= 1 {
      DaysApart(start, limit);
    } else {
      assert limit == start - 1;
      DaysApart(limit, start);
    }
  }

  lemma DaysApart(from: int, to: int)
    requires -256 <= from <= to < 0x10000 + 256 && to - from < 256
    ensures Extract(to) == Later(Extract(from), to - from) <==> !(from < 51604 <= to)
  {
    hide Extract, Later, Real;
    InRangeReadRight(from);
    InRangeReadRight(to);
    LaterAdds(START, Offset(from), to - from);
    if from < 51604 <= to {
      StartIsReal();
      LaterIsGreater(START, Offset(to), Offset(from) + (to - from));
    }
  }

  lemma StartIsReal()
    ensures Real(START)
  {
  }
}
