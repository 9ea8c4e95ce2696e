/**
 * The ten-year luck periods (大運). The starting age comes from the number of
 * hours between the birth instant and the nearest 15° solar-term boundary in
 * the direction of travel, three days counting as one year; the periods then
 * walk the sixty-cycle forwards or backwards from the month pillar.
 *
 * The ephemeris is an oracle: lonAt(h) is the apparent solar longitude, in
 * degrees, h hours after (h < 0: before) the birth instant.
 */
module Daewoon {
  import opened Wrappers
  import opened GanJi
  import opened Pillars

  /** The search looks at hours 1 .. SearchSteps - 1 away from the birth. */
  const SearchSteps: int := 1080

  const SearchFailed: string := "절기 탐색 실패"

  /** The 15° sector of the birth instant, taken from the raw longitude. */
  function StartSector(lonAt: int -> real): (s: int)
    ensures 0.0 <= lonAt(0) < 360.0 ==> 0 <= s < 24 && 15.0 * s as real <= lonAt(0) < 15.0 * (s + 1) as real
    ensures -15.0 < lonAt(0) < 0.0 ==> s == 0
  {
    Trunc(lonAt(0) / 15.0)
  }

  /** The 15° sector i hours away in the given direction; a negative longitude
      is first wrapped by 360°. */
  function StepSector(lonAt: int -> real, direction: int, i: int): (s: int)
    ensures -360.0 <= lonAt(i * direction) < 360.0 ==> 0 <= s < 24
  {
    Trunc(NormalizeLon(lonAt(i * direction)) / 15.0)
  }

  predicate Changed(lonAt: int -> real, direction: int, i: int)
  {
    StepSector(lonAt, direction, i) != StartSector(lonAt)
  }

  /** The first step from i on (below SearchSteps) whose sector differs from
      the start sector. */
  function FirstChangeFrom(lonAt: int -> real, direction: int, i: int): (r: Option<int>)
    decreases SearchSteps - i
    ensures r.Some? ==> i <= r.value < SearchSteps && Changed(lonAt, direction, r.value)
    ensures r.Some? ==> forall m :: i <= m < r.value ==> !Changed(lonAt, direction, m)
    ensures r.None? ==> forall m :: i <= m < SearchSteps ==> !Changed(lonAt, direction, m)
  {
    if i >= SearchSteps then None
    else if Changed(lonAt, direction, i) then Some(i)
    else FirstChangeFrom(lonAt, direction, i + 1)
  }

  function FirstChange(lonAt: int -> real, direction: int): Option<int>
  {
    FirstChangeFrom(lonAt, direction, 1)
  }

  /** Steps hour by hour away from the birth until the sector changes; the
      result is the signed hour offset of the first changed step. */
  method FindBoundary(lonAt: int -> real, direction: int) returns (found: Option<int>)
    ensures FirstChange(lonAt, direction).None? ==> found.None?
    ensures FirstChange(lonAt, direction).Some? ==>
      found == Some(FirstChange(lonAt, direction).value * direction)
  {
    var startTermIdx := Trunc(lonAt(0) / 15.0);
    var checkOffset := 0;
    found := None;
    var i := 1;
    while i < SearchSteps
      invariant 1 <= i <= SearchSteps
      invariant checkOffset == (i - 1) * direction
      invariant FirstChange(lonAt, direction) == FirstChangeFrom(lonAt, direction, i)
      invariant found.None?
      decreases SearchSteps - i
    {
      checkOffset := checkOffset + direction;
      NextOffset(i, direction);
      var currLon := lonAt(checkOffset);
      if currLon < 0.0 { currLon := currLon + 360.0; }
      assert checkOffset == i * direction;
      assert currLon == NormalizeLon(lonAt(i * direction));
      var currTermIdx := Trunc(currLon / 15.0);
      if currTermIdx != startTermIdx {
        assert FirstChangeFrom(lonAt, direction, i) == Some(i);
        found := Some(checkOffset);
        return;
      }
      assert FirstChangeFrom(lonAt, direction, i) == FirstChangeFrom(lonAt, direction, i + 1);
      i := i + 1;
    }
  }

  lemma NextOffset(i: int, direction: int)
    ensures (i - 1) * direction + direction == i * direction
  {
  }

  /** The starting age from the distance in hours: three days (72 hours) make
      a year, a remainder above two days rounds up, and the age is at least 1. */
  function DaewoonNumber(hours: nat): (n: int)
    ensures n >= 1
    ensures hours <= 48 ==> n == 1
    ensures hours > 48 ==> 72 * n - 23 <= hours <= 72 * n + 48
  {
    var num := hours / 72 + (if hours % 72 > 48 then 1 else 0);
    if num < 1 then 1 else num
  }

  /** The starting age and a diagnostic message, as the search determines them. */
  function DaewoonData(lonAt: int -> real, direction: int): (r: (int, string))
    ensures r.0 >= 1
  {
    match FirstChange(lonAt, direction)
    case None => (1, SearchFailed)
    case Some(k) => (DaewoonNumber(Abs(k * direction)), "")
  }

  function Abs(x: int): (a: nat)
    ensures a == x || a == -x
  {
    if x < 0 then -x else x
  }

  method GetDaewoonData(lonAt: int -> real, direction: int) returns (num: int, msg: string)
    ensures (num, msg) == DaewoonData(lonAt, direction)
  {
    var found := FindBoundary(lonAt, direction);
    if found.None? {
      return 1, SearchFailed;
    }
    var diffHours := Abs(found.value);
    num := diffHours / 72;
    if diffHours % 72 > 48 { num := num + 1; }
    if num < 1 { num := 1; }
    msg := "";
  }

  /** The message is empty exactly when a boundary was found. */
  lemma DaewoonDataOutcome(lonAt: int -> real, direction: int)
    ensures DaewoonData(lonAt, direction).1 == "" <==> FirstChange(lonAt, direction).Some?
    ensures DaewoonData(lonAt, direction).1 == SearchFailed <==> FirstChange(lonAt, direction).None?
  {
    assert SearchFailed != "";
  }

  /** Stepping one hour at a time, the boundary lies within 1079 hours and the
      age is at most 15. */
  lemma DaewoonAgeBound(lonAt: int -> real, direction: int)
    requires direction == 1 || direction == -1
    ensures DaewoonData(lonAt, direction).0 <= 15
  {
    var r := FirstChange(lonAt, direction);
    if r.Some? {
      var k := r.value;
      UnitStep(k, direction);
      DaewoonNumberBound(k);
      assert DaewoonData(lonAt, direction).0 == DaewoonNumber(k);
    }
  }

  /** k steps of one hour either way lie k hours away. */
  lemma UnitStep(k: int, direction: int)
    requires k >= 0 && (direction == 1 || direction == -1)
    ensures Abs(k * direction) == k
  {
    if direction == -1 {
      assert k * direction == -k;
    }
  }

  lemma DaewoonNumberBound(hours: nat)
    requires hours < SearchSteps
    ensures DaewoonNumber(hours) <= 15
  {
    var q := hours / 72;
    assert 72 * q <= hours;
  }

  /** A longitude that never leaves its sector exhausts the search. */
  lemma ConstantLongitudeExhausts(c: real, direction: int)
    requires 0.0 <= c < 360.0
    ensures DaewoonData(_ => c, direction) == (1, SearchFailed)
  {
    var lonAt: int -> real := _ => c;
    assert !Changed(lonAt, direction, 1);
    assert forall m :: 1 <= m < SearchSteps ==> !Changed(lonAt, direction, m);
  }

  // ---------------------------------------------------------------------------
  // The list of periods

  /** Forward (+1) for a man born in a yang year or a woman born in a yin
      year, backward (-1) otherwise. */
  function Direction(yearGan: int, isMan: bool): (d: int)
    ensures d == 1 || d == -1
    ensures d == 1 <==> (isMan <==> yearGan % 2 == 0)
  {
    var isYearYang := yearGan % 2 == 0;
    if (isMan && isYearYang) || (!isMan && !isYearYang) then 1 else -1
  }

  function DirectionText(d: int): (t: string)
    ensures t == "순행" <==> d == 1
  {
    if d == 1 then "순행" else "역행"
  }

  /** A luck period: the age it starts at and its pillar. */
  datatype Period = Period(age: int, gan: int, ji: int)

  /** Period i (1-based) after the month pillar (monthGan, monthJi): a stem
      and a branch, which form one of the sixty pillars exactly when the
      month pillar does. */
  function PeriodAt(monthGan: int, monthJi: int, direction: int, num: int, i: int): (p: Period)
    ensures IsStem(p.gan) && IsBranch(p.ji)
    ensures ValidPillar(p.gan, p.ji) <==> monthGan % 2 == monthJi % 2
  {
    ShiftKeepsParity(monthGan, monthJi, i * direction);
    Period(num + (i - 1) * 10, (monthGan + i * direction) % 10, (monthJi + i * direction) % 12)
  }

  /** Moving stem and branch by the same d keeps them of equal parity, or of
      unequal parity. */
  lemma ShiftKeepsParity(g: int, j: int, d: int)
    ensures ((g + d) % 10) % 2 == ((j + d) % 12) % 2 <==> g % 2 == j % 2
  {
    var x, y := g + d, j + d;
    Mod2(x, 5 * (x / 10) + (x % 10) / 2, (x % 10) % 2);
    Mod2(y, 6 * (y / 12) + (y % 12) / 2, (y % 12) % 2);
  }

  /** Decimal digits of n, most significant first. */
  function Decimal(n: nat): (s: string)
    ensures |s| >= 1
    ensures forall k :: 0 <= k < |s| ==> '0' <= s[k] <= '9'
    decreases n
  {
    if n < 10 then [DigitChar(n)] else Decimal(n / 10) + [DigitChar(n % 10)]
  }

  function DigitChar(d: nat): (c: char)
    requires d < 10
    ensures '0' <= c <= '9' && (c as int) - ('0' as int) == d
  {
    (('0' as int) + d) as char
  }

  /** The value of a string of decimal digits. */
  function DecimalValue(s: string): nat
    requires forall k :: 0 <= k < |s| ==> '0' <= s[k] <= '9'
  {
    if |s| == 0 then 0 else 10 * DecimalValue(s[..|s| - 1]) + ((s[|s| - 1] as int) - ('0' as int))
  }

  /** Decimal is read back by DecimalValue. */
  lemma {:induction false} DecimalRoundTrip(n: nat)
    ensures DecimalValue(Decimal(n)) == n
    decreases n
  {
    if n >= 10 {
      DecimalRoundTrip(n / 10);
      var s := Decimal(n);
      assert s[..|s| - 1] == Decimal(n / 10);
    }
  }

  /** The cell the source shows for a period: the age in bold, a line break
      and the pillar's two characters. */
  function RenderPeriod(p: Period): (s: string)
    requires p.age >= 0
    ensures |s| == |Decimal(p.age)| + 10
    ensures s[..2] == "**" && s[2..|s| - 8] == Decimal(p.age)
    ensures s[|s| - 8..|s| - 2] == "**<br>" && s[|s| - 2..] == Ganji(p.gan, p.ji)
  {
    "**" + Decimal(p.age) + "**<br>" + Ganji(p.gan, p.ji)
  }

  function PeriodCells(monthGan: int, monthJi: int, direction: int, num: int): (cells: seq<string>)
    requires num >= 1
    ensures |cells| == 8
    ensures forall k :: 0 <= k < 8 ==> cells[k] == RenderPeriod(PeriodAt(monthGan, monthJi, direction, num, k + 1))
  {
    seq(8, k requires 0 <= k < 8 => RenderPeriod(PeriodAt(monthGan, monthJi, direction, num, k + 1)))
  }

  /** The eight cells of the luck-period table, one per decade. */
  method BuildDaewoonList(monthGan: int, monthJi: int, direction: int, num: int)
    returns (list: seq<string>)
    requires num >= 1
    ensures list == PeriodCells(monthGan, monthJi, direction, num)
  {
    list := [];
    for i := 1 to 9
      invariant |list| == i - 1
      invariant forall k :: 0 <= k < i - 1 ==>
        list[k] == RenderPeriod(PeriodAt(monthGan, monthJi, direction, num, k + 1))
    {
      var dGan := (monthGan + i * direction) % 10;
      var dJi := (monthJi + i * direction) % 12;
      var age := num + (i - 1) * 10;
      list := list + ["**" + Decimal(age) + "**<br>" + Ganji(dGan, dJi)];
    }
  }

  /** Period i stands i places from the month pillar in the sixty-cycle, and
      starts 10 (i - 1) years after the first. */
  lemma PeriodWalksCycle(monthGan: int, monthJi: int, direction: int, num: int, i: int)
    requires ValidPillar(monthGan, monthJi)
    ensures var p := PeriodAt(monthGan, monthJi, direction, num, i);
      (p.gan, p.ji) == PillarAt(CycleIndex(monthGan, monthJi) + i * direction) &&
      p.age == num + 10 * (i - 1)
  {
    PeriodWalksFrom(monthGan, monthJi, direction, num, i, CycleIndex(monthGan, monthJi));
  }

  /** The same, from any place n of the month pillar. */
  lemma PeriodWalksFrom(monthGan: int, monthJi: int, direction: int, num: int, i: int, n: int)
    requires PillarAt(n) == (monthGan, monthJi)
    ensures var p := PeriodAt(monthGan, monthJi, direction, num, i);
      (p.gan, p.ji) == PillarAt(n + i * direction) &&
      p.age == num + 10 * (i - 1)
  {
    PillarAtShift(n, i * direction);
  }

  /** Cell i of the table renders the period that starts 10 (i - 1) years
      after the first and stands i places from the month pillar in the cycle,
      wherever n places the month pillar. */
  lemma PeriodCellWalksCycle(monthGan: int, monthJi: int, direction: int, num: int, i: int, n: int)
    requires PillarAt(n) == (monthGan, monthJi) && num >= 1 && 1 <= i <= 8
    ensures var q := PillarAt(n + i * direction);
      PeriodCells(monthGan, monthJi, direction, num)[i - 1] == RenderPeriod(Period(num + 10 * (i - 1), q.0, q.1))
  {
    PillarAtShift(n, i * direction);
    var q := PillarAt(n + i * direction);
    assert PeriodAt(monthGan, monthJi, direction, num, i) == Period(num + 10 * (i - 1), q.0, q.1);
  }

  /** Going forward, each period's pillar is the successor of the previous one. */
  lemma ForwardPeriodsAdvance(monthGan: int, monthJi: int, num: int, i: int)
    ensures var p := PeriodAt(monthGan, monthJi, 1, num, i);
      var q := PeriodAt(monthGan, monthJi, 1, num, i + 1);
      (q.gan, q.ji) == NextPillar(p.gan, p.ji) && q.age == p.age + 10
  {
    ModAdd10(monthGan + i, 1);
    ModAdd12(monthJi + i, 1);
  }

  /** Going backward, each period's successor is the previous period. */
  lemma BackwardPeriodsRetreat(monthGan: int, monthJi: int, num: int, i: int)
    ensures var p := PeriodAt(monthGan, monthJi, -1, num, i);
      var q := PeriodAt(monthGan, monthJi, -1, num, i + 1);
      NextPillar(q.gan, q.ji) == (p.gan, p.ji) && q.age == p.age + 10
  {
    ModAdd10(monthGan - i - 1, 1);
    ModAdd12(monthJi - i - 1, 1);
  }
}
