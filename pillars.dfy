/**
 * The four pillars of a birth instant: the year turns at solar longitude 315°
 * (立春), the month follows 30° sectors of longitude, the day counts from
 * 1900-01-01 (甲戌) and the hour follows two-hour slots. Every pillar is one
 * of the sixty stem-branch pairs, and each is placed in the sixty-cycle.
 */
module Pillars {
  import opened GanJi

  /** Python's int() on a float: truncation toward zero. */
  function Trunc(x: real): (n: int)
    ensures 0.0 <= x ==> n as real <= x < n as real + 1.0
    ensures x < 0.0 ==> n as real - 1.0 < x <= n as real
  {
    if x >= 0.0 then x.Floor else -((-x).Floor)
  }

  /** The wrap the source applies to a longitude that came out negative. */
  function NormalizeLon(raw: real): (lon: real)
    ensures -360.0 <= raw < 360.0 ==> 0.0 <= lon < 360.0
    ensures 0.0 <= raw ==> lon == raw
  {
    if raw < 0.0 then raw + 360.0 else raw
  }

  // ---------------------------------------------------------------------------
  // Year

  /** The year whose stem and branch the chart carries: January, and February
      before longitude 315°, still belong to the previous year. */
  function EffectiveYear(year: int, month: int, lon: real): (y: int)
    ensures y == year || y == year - 1
    ensures y == year - 1 <==> month == 1 || (month == 2 && lon < 315.0)
  {
    if month == 1 then year - 1
    else if month == 2 && lon < 315.0 then year - 1
    else year
  }

  function YearPillar(targetYear: int): (p: (int, int))
    ensures ValidPillar(p.0, p.1)
  {
    var n := targetYear - 4;
    var r, s := n % 10, n % 12;
    Mod2(r, s / 2 + 6 * (n / 12) - 5 * (n / 10), s % 2);
    (r, s)
  }

  /** 1984 is 甲子 and 2026 is 丙午. */
  lemma YearPillarExamples()
    ensures YearPillar(1984) == (0, 0)
    ensures YearPillar(2026) == (2, 6)
  {
  }

  /** Year y is pillar y - 4 of the sixty-cycle. */
  lemma YearCycleIndex(targetYear: int)
    ensures var p := YearPillar(targetYear);
      CycleIndex(p.0, p.1) == (targetYear - 4) % 60
  {
    CycleIndexOfPillarAt(targetYear - 4);
  }

  /** Each year is the pillar after the one before. */
  lemma YearPillarAdvances(targetYear: int)
    ensures var p := YearPillar(targetYear);
      YearPillar(targetYear + 1) == NextPillar(p.0, p.1)
  {
    PillarAtShift(targetYear - 4, 1);
  }

  // ---------------------------------------------------------------------------
  // Month

  /** Degrees of longitude travelled since 立春 (315°), for lon in [0, 360). */
  function SinceSpring(lon: real): real
  {
    if lon >= 315.0 then lon - 315.0 else lon + 45.0
  }

  /** The month sector: 0 is 寅月, starting at 立春, and each sector is 30°. */
  function MonthIndex(lon: real): (idx: int)
    ensures 0.0 <= lon < 360.0 ==> 0 <= idx < 12
    ensures 0.0 <= lon < 360.0 ==> (30 * idx) as real <= SinceSpring(lon) < (30 * idx + 30) as real
  {
    var tempLon := lon + 45.0;
    var shifted := if tempLon >= 360.0 then tempLon - 360.0 else tempLon;
    Trunc(shifted / 30.0)
  }

  /** Stem of 寅月 for each year stem modulo 5 (the "five tigers" rule). */
  const MonthStartMap: seq<int> := [2, 4, 6, 8, 0, 2, 4, 6, 8, 0]

  /** The months run on through the sixty-cycle from year to year: month idx
      of a year with stem yearGan is pillar 12 * (yearGan % 5) + idx + 2. */
  function MonthPillar(yearGan: int, monthIdx: int): (p: (int, int))
    ensures p == PillarAt(12 * (yearGan % 5) + monthIdx + 2)
  {
    var q := yearGan % 5;
    var monthGan := (MonthStartMap[q] + monthIdx) % 10;
    var monthJi := (monthIdx + 2) % 12;
    ModShift10(MonthStartMap[q] + monthIdx, q + (if q == 4 then 1 else 0));
    ModShift12(monthIdx + 2, q);
    (monthGan, monthJi)
  }

  /** 寅月 of the next year follows 丑月 (sector 11) of this one. */
  lemma MonthCycleContinues(yearGan: int)
    requires IsStem(yearGan)
    ensures var last := MonthPillar(yearGan, 11);
      MonthPillar((yearGan + 1) % 10, 0) == NextPillar(last.0, last.1)
  {
    var q := yearGan % 5;
    PillarAtShift(12 * q + 13, 1);
    assert (yearGan + 1) % 10 % 5 == (q + 1) % 5;
    if q == 4 {
      PillarAtMod60(12 * q + 14);
    }
  }

  // ---------------------------------------------------------------------------
  // Day

  /** Day `days` after 1900-01-01, which is 甲戌. */
  function DayPillar(days: int): (p: (int, int))
    ensures ValidPillar(p.0, p.1)
  {
    var n := days + 10;
    var r, s := n % 10, n % 12;
    Mod2(r, s / 2 + 6 * (n / 12) - 5 * (n / 10), s % 2);
    (r, s)
  }

  /** Day d after the epoch is pillar d + 10 of the sixty-cycle. */
  lemma DayCycleIndex(days: int)
    ensures var p := DayPillar(days);
      CycleIndex(p.0, p.1) == (days + 10) % 60
  {
    CycleIndexOfPillarAt(days + 10);
  }

  /** Each day is the pillar after the one before. */
  lemma DayPillarAdvances(days: int)
    ensures var p := DayPillar(days);
      DayPillar(days + 1) == NextPillar(p.0, p.1)
  {
    PillarAtShift(days + 10, 1);
  }

  // ---------------------------------------------------------------------------
  // Hour

  /** The hour branch as the source computes it, from minutes since midnight. */
  function HourBranchAsWritten(totalMin: int): (b: int)
    ensures IsBranch(b)
    ensures 1410 <= totalMin || totalMin < 90 ==> b == 0
  {
    if totalMin >= 23 * 60 + 30 || totalMin < 1 * 60 + 30 then 0
    else ((totalMin - 30) / 120 + 1) % 12
  }

  /** The as-written slots are not two hours long: 子 covers 22:30-01:29
      (180 minutes) and 丑 only 01:30-02:29 (60 minutes). */
  lemma HourBranchAsWrittenSlots(totalMin: int)
    requires 0 <= totalMin < 1440
    ensures HourBranchAsWritten(totalMin) == 0 <==> totalMin < 90 || totalMin >= 1350
    ensures HourBranchAsWritten(totalMin) == 1 <==> 90 <= totalMin < 150
  {
  }

  /** 02:45 falls in 寅 and 22:45 in 子 as written; the corrected slots give
      丑 and 亥. */
  lemma HourBranchCounterexamples()
    ensures HourBranchAsWritten(2 * 60 + 45) == 2 && HourBranch(2 * 60 + 45) == 1
    ensures HourBranchAsWritten(22 * 60 + 45) == 0 && HourBranch(22 * 60 + 45) == 11
  {
  }

  /** The hour branch with two-hour slots from 01:30: 子 is 23:30-01:29 and
      slot b (1..11) covers [120 b - 30, 120 b + 90) minutes. */
  function HourBranch(totalMin: int): (b: int)
    ensures IsBranch(b)
    ensures b == 0 <==> totalMin < 90 || totalMin >= 1410
    ensures b > 0 ==> 120 * b - 30 <= totalMin < 120 * b + 90
  {
    if totalMin >= 23 * 60 + 30 || totalMin < 1 * 60 + 30 then 0
    else ((totalMin - 90) / 120 + 1) % 12
  }

  /** The day stem that keys the hour stems: from 23:30 on, the next day's. */
  function HourDayGan(dayGan: int, totalMin: int): (g: int)
    ensures totalMin >= 1410 ==> g == (dayGan + 1) % 10
    ensures totalMin < 1410 ==> g == dayGan
  {
    if totalMin >= 23 * 60 + 30 then (dayGan + 1) % 10 else dayGan
  }

  /** Stem of 子時 for each day stem modulo 5. */
  const TimeStartMap: seq<int> := [0, 2, 4, 6, 8, 0, 2, 4, 6, 8]

  /** The hours run on through the sixty-cycle from day to day: hour b of a
      day keyed by stem g is pillar 12 * (g % 5) + b. */
  function HourPillar(dayGan: int, totalMin: int): (p: (int, int))
    ensures p == PillarAt(12 * (HourDayGan(dayGan, totalMin) % 5) + HourBranch(totalMin))
  {
    var timeJi := HourBranch(totalMin);
    var calcDayGan := HourDayGan(dayGan, totalMin);
    var q := calcDayGan % 5;
    var timeGan := (TimeStartMap[q] + timeJi) % 10;
    ModShift10(TimeStartMap[q] + timeJi, q);
    ModShift12(timeJi, q);
    (timeGan, timeJi)
  }

  /** The hour pillar as the source computes it, on the as-written branch:
      branch b keyed by stem g is still place 12 * (g % 5) + b of the cycle,
      hence one of the sixty pillars. */
  function HourPillarAsWritten(dayGan: int, totalMin: int): (p: (int, int))
    ensures p == PillarAt(12 * (HourDayGan(dayGan, totalMin) % 5) + HourBranchAsWritten(totalMin))
    ensures ValidPillar(p.0, p.1)
  {
    var timeJi := HourBranchAsWritten(totalMin);
    var q := HourDayGan(dayGan, totalMin) % 5;
    var timeGan := (TimeStartMap[q] + timeJi) % 10;
    ModShift10(TimeStartMap[q] + timeJi, q);
    ModShift12(timeJi, q);
    assert TimeStartMap[q] == 2 * q;
    Mod2(timeGan, q + timeJi / 2 - 5 * ((TimeStartMap[q] + timeJi) / 10), timeJi % 2);
    (timeGan, timeJi)
  }

  /** As written, the slots are the two-hour slots shifted one hour early:
      from 01:30 to 22:29 the branch is the one the corrected rule gives an
      hour later. */
  lemma HourBranchAsWrittenIsHourEarly(totalMin: int)
    requires 90 <= totalMin < 1350
    ensures HourBranchAsWritten(totalMin) == HourBranch(totalMin + 60)
  {
  }

  /** As written, from 23:30 the hour pillar is the next day's early 子. */
  lemma LateHourAsWrittenIsNextDays(dayGan: int, lateMin: int, earlyMin: int)
    requires lateMin >= 1410 && earlyMin < 90
    ensures HourPillarAsWritten(dayGan, lateMin) == HourPillarAsWritten((dayGan + 1) % 10, earlyMin)
  {
  }

  /** As written the cycle breaks at 23:30: 23:29 is already 子, keyed by the
      same day's stem, and 23:30 starts the next day's 子 instead of 丑. */
  lemma HourCycleBreaksAsWritten(dayGan: int)
    requires IsStem(dayGan)
    ensures var last := HourPillarAsWritten(dayGan, 1409);
      last == (TimeStartMap[dayGan % 5], 0) &&
      HourPillarAsWritten(dayGan, 1410).1 == 0 &&
      HourPillarAsWritten(dayGan, 1410) != NextPillar(last.0, last.1)
  {
    var q := dayGan % 5;
    assert TimeStartMap[q] % 10 == TimeStartMap[q];
  }

  /** From 23:30 the hour pillar is the next day's 子時. */
  lemma LateHourIsNextDays(dayGan: int, lateMin: int, earlyMin: int)
    requires lateMin >= 1410 && earlyMin < 90
    ensures HourPillar(dayGan, lateMin) == HourPillar((dayGan + 1) % 10, earlyMin)
  {
  }

  /** The 子時 starting at 23:30 follows the day's 亥時 in the sixty-cycle. */
  lemma HourCycleContinues(dayGan: int)
    requires IsStem(dayGan)
    ensures var last := HourPillar(dayGan, 1409);
      HourPillar(dayGan, 1410) == NextPillar(last.0, last.1)
  {
    var q := dayGan % 5;
    PillarAtShift(12 * q + 11, 1);
    assert (dayGan + 1) % 10 % 5 == (q + 1) % 5;
    if q == 4 {
      PillarAtMod60(12 * q + 12);
    }
  }

  // ---------------------------------------------------------------------------

  /** Adding a multiple of the modulus does not change a remainder. */
  lemma ModShift10(x: int, c: int)
    ensures (x + 10 * c) % 10 == x % 10
  {
    Mod10(x + 10 * c, x / 10 + c, x % 10);
  }

  lemma ModShift12(x: int, c: int)
    ensures (x + 12 * c) % 12 == x % 12
  {
    Mod12(x + 12 * c, x / 12 + c, x % 12);
  }
}
