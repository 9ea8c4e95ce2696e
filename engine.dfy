/**
 * The chart calculation: from a local (KST) date and time, a gender, a name
 * and the two ephemeris readings, the four annotated pillars, the void pair,
 * the luck periods and the 2026 report.
 *
 * sunLon is the solar longitude in degrees at the birth instant, lonAt the
 * longitude oracle the luck-period search steps through (see Daewoon).
 */
module Engine {
  import opened Wrappers
  import opened GanJi
  import opened Calendar
  import opened Pillars
  import opened Shinsal
  import opened Daewoon
  import opened StrategyReport

  const Titles: seq<string> := ["년주", "월주", "일주", "시주"]

  /** The ten-god cell of the day pillar, which is the day stem itself. */
  const SelfLabel: string := "본원"

  const ManLabel: string := "남성"

  /** One column of the chart. */
  datatype PillarInfo = PillarInfo(
    title: string, ganji: string, sibsin: string, unseong: string, shinsal: string, special: string)

  datatype Chart = Chart(
    pillars: seq<PillarInfo>, gongmang: string,
    dirText: string, daewoonList: seq<string>, debug: string,
    report: Report)

  /** The year, month, day and hour pillars of a valid local date and time. */
  function FourPillars(year: int, month: int, day: int, hour: int, minute: int, sunLon: real): (ps: seq<(int, int)>)
    requires ValidDateTime(year, month, day, hour, minute)
    ensures ValidPillars(ps)
  {
    var lon := NormalizeLon(sunLon);
    var yp := YearPillar(EffectiveYear(year, month, lon));
    var mp := MonthPillar(yp.0, MonthIndex(lon));
    var dp := DayPillar(DaysSince1900(year, month, day));
    var hp := HourPillarAsWritten(dp.0, hour * 60 + minute);
    [yp, mp, dp, hp]
  }

  /** Column i of the chart for pillar p, read against the day pillar: it
      carries its title and a name that reads back to p, and only the day
      column is labelled 본원 instead of a ten god. */
  function Column(i: int, p: (int, int), dayPillar: (int, int)): (c: PillarInfo)
    requires 0 <= i < 4 && ValidPillar(p.0, p.1) && ValidPillar(dayPillar.0, dayPillar.1)
    ensures c.title == Titles[i] && ParseGanji(c.ganji) == Some(p)
    ensures c.sibsin == SelfLabel <==> i == 2
  {
    ParseGanjiRoundTrip(p.0, p.1);
    assert SelfLabel !in SibsinNames;
    PillarInfo(
      Titles[i], Ganji(p.0, p.1),
      if i != 2 then Sibsin(dayPillar.0, p.0, true) else SelfLabel,
      Unseong(dayPillar.0, p.1),
      Render(Markers(dayPillar.0, dayPillar.1, p.1)),
      Special(p.0, p.1))
  }

  predicate ValidPillars(ps: seq<(int, int)>)
  {
    |ps| == 4 && forall k :: 0 <= k < 4 ==> ValidPillar(ps[k].0, ps[k].1)
  }

  function Columns(ps: seq<(int, int)>): (cs: seq<PillarInfo>)
    requires ValidPillars(ps)
  {
    seq(4, k requires 0 <= k < 4 => Column(k, ps[k], ps[2]))
  }

  /** The chart built on four pillars (year, month, day, hour) for a man
      (isMan, gender 남성) or a woman: four titled columns with 본원 on the
      day column, eight luck periods, and a diagnostic that is either empty
      or the search failure. */
  function ChartFromPillars(ps: seq<(int, int)>, isMan: bool, name: string, lonAt: int -> real): (c: Chart)
    requires ValidPillars(ps)
    ensures |c.pillars| == 4
    ensures forall k :: 0 <= k < 4 ==> c.pillars[k].title == Titles[k]
    ensures c.pillars[2].sibsin == SelfLabel
    ensures |c.daewoonList| == 8
    ensures c.debug == "" || c.debug == SearchFailed
  {
    var dir := Direction(ps[0].0, isMan);
    DaewoonDataOutcome(lonAt, dir);
    ChartWith(ps, name, dir, DaewoonData(lonAt, dir))
  }

  /** The chart on four pillars once the direction and the boundary search's
      outcome (first age, diagnostic) are known. */
  function ChartWith(ps: seq<(int, int)>, name: string, dir: int, data: (int, string)): Chart
    requires ValidPillars(ps) && data.0 >= 1
  {
    Chart(
      Columns(ps), Gongmang(ps[2].0, ps[2].1),
      DirectionText(dir), PeriodCells(ps[1].0, ps[1].1, dir, data.0), data.1,
      GenerateReport(ps[2].0, name))
  }

  /** The whole chart of a valid date and time: its day column names the
      day pillar of the date and its hour column the hour pillar of the time
      on that day. */
  function ChartOf(year: int, month: int, day: int, hour: int, minute: int,
                   gender: string, name: string, sunLon: real, lonAt: int -> real): (c: Chart)
    requires ValidDateTime(year, month, day, hour, minute)
    ensures |c.pillars| == 4
    ensures var dp := DayPillar(DaysSince1900(year, month, day));
      ParseGanji(c.pillars[2].ganji) == Some(dp) &&
      ParseGanji(c.pillars[3].ganji) == Some(HourPillarAsWritten(dp.0, hour * 60 + minute))
  {
    ChartFromPillars(FourPillars(year, month, day, hour, minute, sunLon), gender == ManLabel, name, lonAt)
  }

  /** Annotates the four pillars, given as stem and branch lists, against the
      day pillar (index 2). */
  method BuildColumns(gans: seq<int>, jis: seq<int>) returns (pillars: seq<PillarInfo>)
    requires |gans| == 4 && |jis| == 4
    requires forall k :: 0 <= k < 4 ==> ValidPillar(gans[k], jis[k])
    ensures ValidPillars(Zip(gans, jis)) && pillars == Columns(Zip(gans, jis))
  {
    ghost var ps := Zip(gans, jis);
    var dayGan, dayJi := gans[2], jis[2];
    pillars := [];
    ghost var cols := Columns(ps);
    for i := 0 to 4
      invariant pillars == cols[..i]
    {
      var col := Annotate(i, gans[i], jis[i], dayGan, dayJi);
      assert col == cols[i];
      PrefixGrows(cols, i);
      pillars := pillars + [col];
    }
    assert cols[..4] == cols;
  }

  /** One column: title, ganji, ten god (the day pillar's is 본원), life
      stage, markers and special name. */
  method Annotate(i: int, gan: int, ji: int, dayGan: int, dayJi: int) returns (col: PillarInfo)
    requires 0 <= i < 4 && ValidPillar(gan, ji) && ValidPillar(dayGan, dayJi)
    ensures col == Column(i, (gan, ji), (dayGan, dayJi))
  {
    var sibsin := if i != 2 then Sibsin(dayGan, gan, true) else SelfLabel;
    var unseong := Unseong(dayGan, ji);
    var shinsal := GetShinsal(dayGan, dayJi, ji);
    col := PillarInfo(Titles[i], Ganji(gan, ji), sibsin, unseong, shinsal, Special(gan, ji));
  }

  /** Extending a prefix by one element gives the next prefix. */
  lemma PrefixGrows<T>(s: seq<T>, i: int)
    requires 0 <= i < |s|
    ensures s[..i + 1] == s[..i] + [s[i]]
  {
    assert s[..i + 1][..i] == s[..i];
  }

  function Zip(gans: seq<int>, jis: seq<int>): (ps: seq<(int, int)>)
    requires |gans| == |jis|
    ensures |ps| == |gans| && forall k :: 0 <= k < |ps| ==> ps[k] == (gans[k], jis[k])
  {
    seq(|gans|, k requires 0 <= k < |gans| => (gans[k], jis[k]))
  }

  /** The chart, or None when the date and time do not form a valid datetime. */
  method Calculate(year: int, month: int, day: int, hour: int, minute: int,
                   gender: string, name: string, sunLon: real, lonAt: int -> real)
    returns (r: Option<Chart>)
    ensures !ValidDateTime(year, month, day, hour, minute) ==> r == None
    ensures ValidDateTime(year, month, day, hour, minute) ==>
      r == Some(ChartOf(year, month, day, hour, minute, gender, name, sunLon, lonAt))
  {
    if !ValidDateTime(year, month, day, hour, minute) {
      return None;
    }
    var lon := NormalizeLon(sunLon);
    var targetYear := EffectiveYear(year, month, lon);
    var (yearGan, yearJi) := YearPillar(targetYear);
    var (monthGan, monthJi) := MonthPillar(yearGan, MonthIndex(lon));
    var (dayGan, dayJi) := DayPillar(DaysSince1900(year, month, day));
    var (timeGan, timeJi) := HourPillarAsWritten(dayGan, hour * 60 + minute);

    var gans := [yearGan, monthGan, dayGan, timeGan];
    var jis := [yearJi, monthJi, dayJi, timeJi];
    var pillars := BuildColumns(gans, jis);
    ghost var ps := Zip(gans, jis);
    assert ps == FourPillars(year, month, day, hour, minute, sunLon);

    var gongmang := Gongmang(dayGan, dayJi);

    var isYearYang := yearGan % 2 == 0;
    var isMan := gender == ManLabel;
    var direction, dirText;
    if (isMan && isYearYang) || (!isMan && !isYearYang) {
      direction := 1;
      dirText := "순행";
    } else {
      direction := -1;
      dirText := "역행";
    }

    var daewoonNum, debugMsg := GetDaewoonData(lonAt, direction);
    var daewoonList := BuildDaewoonList(monthGan, monthJi, direction, daewoonNum);
    var report := GenerateReport(dayGan, name);
    assert direction == Direction(ps[0].0, isMan) && dirText == DirectionText(direction);
    assert (ps[1], ps[2]) == ((monthGan, monthJi), (dayGan, dayJi));
    r := Some(Chart(pillars, gongmang, dirText, daewoonList, debugMsg, report));
    assert r.value == ChartFromPillars(ps, isMan, name, lonAt);
  }

  // ---------------------------------------------------------------------------
  // Properties of the chart

  /** The day pillar depends on the date alone. */
  lemma DayPillarIgnoresTime(year: int, month: int, day: int,
                             h1: int, m1: int, l1: real, h2: int, m2: int, l2: real)
    requires ValidDateTime(year, month, day, h1, m1) && ValidDateTime(year, month, day, h2, m2)
    ensures FourPillars(year, month, day, h1, m1, l1)[2] == FourPillars(year, month, day, h2, m2, l2)[2]
  {
  }

  /** From 23:30 the hour pillar is the one the next day starts with. */
  lemma LateNightIsNextDay(year: int, month: int, day: int, hour: int, minute: int, l1: real,
                           m2: int, l2: real)
    requires ValidDateTime(year, month, day, hour, minute) && hour * 60 + minute >= 23 * 60 + 30
    requires (year, month, day) != (9999, 12, 31) && 0 <= m2 < 60
    ensures var (y', mo', d') := NextDate(year, month, day);
      ValidDateTime(y', mo', d', 0, m2) &&
      FourPillars(year, month, day, hour, minute, l1)[3] == FourPillars(y', mo', d', 0, m2, l2)[3]
  {
    var (y', mo', d') := NextDate(year, month, day);
    NextDateIsNextDay(year, month, day);
    var n := DaysSince1900(year, month, day);
    assert DaysSince1900(y', mo', d') == n + 1;
    DayPillarAdvances(n);
    LateHourAsWrittenIsNextDays(DayPillar(n).0, hour * 60 + minute, m2);
  }

  /** Forward exactly for a man in a yang year or a woman in a yin year. */
  lemma DirectionRule(ps: seq<(int, int)>, isMan: bool, name: string, lonAt: int -> real)
    requires ValidPillars(ps)
    ensures var c := ChartFromPillars(ps, isMan, name, lonAt);
      (c.dirText == "순행" <==> (isMan <==> ps[0].0 % 2 == 0)) &&
      (c.dirText == "순행" || c.dirText == "역행")
  {
  }

  /** Neither void branch is the day branch. */
  lemma VoidAvoidsDayBranch(ps: seq<(int, int)>, isMan: bool, name: string, lonAt: int -> real)
    requires ValidPillars(ps)
    ensures var g := ChartFromPillars(ps, isMan, name, lonAt).gongmang;
      |g| == 2 && g[0] != Ji[ps[2].1] && g[1] != Ji[ps[2].1]
  {
    var d := ps[2];
    assert ValidPillar(d.0, d.1);
    GongmangAvoidsDayBranch(d.0, d.1);
  }

  /** Luck period i shows the pillar i places from the month pillar in the
      sixty-cycle (n is any place of the month pillar, such as its
      CycleIndex), forwards or backwards as dir says, and the age
      start + 10 (i - 1), for whatever first age the search gave. */
  lemma ChartWithPeriods(ps: seq<(int, int)>, name: string, dir: int, data: (int, string),
                         i: int, n: int)
    requires ValidPillars(ps) && data.0 >= 1 && 1 <= i <= 8 && PillarAt(n) == ps[1]
    ensures var list := ChartWith(ps, name, dir, data).daewoonList;
      var q := PillarAt(n + i * dir);
      |list| == 8 && list[i - 1] == RenderPeriod(Period(data.0 + 10 * (i - 1), q.0, q.1))
  {
    PeriodCellWalksCycle(ps[1].0, ps[1].1, dir, data.0, i, n);
  }

  /** In the chart, luck period i shows the pillar i places from the month
      pillar, forwards or backwards as the year stem and gender decide, and
      the age start + 10 (i - 1), where start >= 1 is the first age the
      boundary search gives. */
  lemma ChartPeriods(ps: seq<(int, int)>, isMan: bool, name: string, lonAt: int -> real,
                     dir: int, i: int, n: int)
    requires ValidPillars(ps) && 1 <= i <= 8 && PillarAt(n) == ps[1]
    requires dir == Direction(ps[0].0, isMan)
    ensures var start := DaewoonData(lonAt, dir).0;
      var list := ChartFromPillars(ps, isMan, name, lonAt).daewoonList;
      var q := PillarAt(n + i * dir);
      start >= 1 && |list| == 8 &&
      list[i - 1] == RenderPeriod(Period(start + 10 * (i - 1), q.0, q.1))
  {
    ChartWithPeriods(ps, name, dir, DaewoonData(lonAt, dir), i, n);
  }
}
