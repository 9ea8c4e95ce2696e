# Saju chart engine — a Dafny model

This project models the calculation engine of the `SajuEngine` class in
`app.py`. Given a civil date and time in Korean Standard Time, a gender and a
display name, the engine does the following:

- It derives the four sexagenary pillars (四柱: year, month, day, hour). Each
  pillar is a heavenly stem (天干, 0..9) paired with an earthly branch (地支,
  0..11).
- It annotates every pillar with four things:
  - the ten-gods relation (十神) to the day stem;
  - the twelve-stage label (十二運星);
  - the star markers (도화, 역마, 화개, 천을귀인);
  - the 백호 / 괴강 special-pair markers.
- It computes the void pair (空亡) of the day pillar.
- It determines the direction and the starting age of the ten-year luck
  periods (大運), and lists eight of them.
- It picks the 2026 (丙午) strategy report by the element of the day stem.

## Module layout

- `wrappers.dfy`: `Option`.
- `ganji.dfy` (`GanJi`): the stem and branch tables, names and their parsing,
  the ten gods, the twelve stages, the void pair, the special pairs and
  `str.strip`, and the sixty-cycle. `PillarAt(n)` gives the n-th pillar and
  `CycleIndex` is its inverse.
- `shinsal.dfy` (`Shinsal`): the star markers. `GetShinsal` appends to a list
  as the source does. It is proved equal to `Render(Markers(..))`, which is
  characterised marker by marker.
- `calendar.dfy` (`Calendar`): which dates `datetime` accepts, and the day
  count since 1900-01-01 in the proleptic Gregorian calendar.
- `pillars.dfy` (`Pillars`): the year, month, day and hour pillars. Each one is
  placed in the sixty-cycle.
- `daewoon.dfy` (`Daewoon`): the solar-term boundary search, the age rule,
  the direction and the eight period cells.
- `report.dfy` (`StrategyReport`): the selection of the 2026 report.
- `engine.dfy` (`Engine`): `Calculate`, proved equal to the function
  `ChartOf`, and the properties of a whole chart.

### The ephemeris as an oracle

The ephemeris is an oracle:

- `sunLon` is the apparent solar longitude in degrees at the birth instant.
  It is what `calculate` reads with the equinox of date.
- `lonAt(h)` is the longitude `h` hours after the birth instant (`h < 0`
  means before). It is what `get_daewoon_data` steps through.

The start sector of the search is taken from `lonAt(0)` without the +360°
wrap that every later step applies (app.py:73-74 against app.py:83). The
model keeps that asymmetry.

### The luck-period search

The boundary search steps one hour at a time. The k-th step therefore lies
exactly k hours from the birth. The model states the age rule on those whole
hours:

- three days (72 hours) make one year;
- a remainder above two days (48 hours) rounds the age up;
- the age is at least 1.

The floating-point computation in the source agrees with this for every
reachable k ≤ 1079. The quotient's integer part is exact, because the
fraction is at least 1/72 away from a whole number. The remainder test is
also exact: a remainder of exactly 48 hours is the float 2.0.

### The month sector

The month sector index is the solar longitude shifted by 45° and cut into
twelve 30° sectors, so it runs 0..11 (app.py:171-176). `MonthIndex` proves
0 ≤ idx < 12 for every longitude in [0°, 360°).

### The hour pillar

The engine follows the hour rule of app.py:185-193 as it is written.

- Before 01:30 and from 23:30 the hour branch is 子. From 23:30 the hour
  stem is keyed by the next day's stem.
- Between those times the slot formula (minutes − 30) div 120 + 1 applies.
  It also gives 子 to 22:30–23:29, under the day's own stem.
- So at 23:29 the hour pillar is already a 子 pillar, and at 23:30 it jumps
  to the next day's 子 pillar, which is not the successor of the 23:29
  pillar in the sixty-cycle (`HourCycleBreaksAsWritten`).

Twelve two-hour slots from 23:30 are evidently intended; see "Findings".
The corrected `HourBranch` and `HourPillar` are defined beside the as-written
rule, and `HourCycleContinues` proves that under them the 23:30 pillar
succeeds the day's last one. They are not what `FourPillars` uses.

## Model

| member | source | states |
|---|---|---|
| GanJi.StemTable | app.py:17 | stem s is element s / 2 with polarity s % 2, so the ten stems enumerate the (element, polarity) pairs once each |
| GanJi.BranchElementMultiplicities | app.py:18 | the branch table holds four earth branches and two of each other element, and no other element |
| GanJi.NamesDistinct | app.py:12-13 | the ten stem characters are pairwise distinct, and so are the twelve branch characters |
| GanJi.Ganji | app.py:21-22 | a pillar name is two characters, with the indices reduced modulo 10 and 12 |
| GanJi.ParseGanjiRoundTrip | app.py:21-22 | reading a name back yields the reduced indices; an in-range pillar comes back unchanged |
| GanJi.GanjiOfParse | app.py:21-22 | every name that reads back is the name of the in-range pillar it reads to |
| GanJi.SibsinIndex | app.py:24-30 | the relation index always lies in [0, 10) |
| GanJi.Sibsin | app.py:24-30 | the result is one of the ten ten-god names |
| GanJi.SibsinOfSelf | app.py:24-30 | a stem against itself gives index 0, 비견 |
| GanJi.SibsinIndexMeaning | app.py:28-30 | index / 2 is the element distance modulo 5, and index % 2 says whether the polarities differ |
| GanJi.SibsinStem | app.py:24-30 | the stem standing in relation k to a day stem is a stem |
| GanJi.SibsinStemRoundTrip | app.py:24-30 | the stem chosen for relation k has relation k |
| GanJi.SibsinIndexRoundTrip | app.py:24-30 | each stem is the one chosen for its own relation, so for a fixed day stem the relation is a bijection on stems |
| GanJi.SibsinOfBranch | app.py:26-27 | a branch target relates like the stem with the same element and polarity |
| GanJi.UnseongOffset | app.py:32-37 | the stage offset always lies in [0, 12) |
| GanJi.Unseong | app.py:32-37 | the result is one of the twelve stage names |
| GanJi.StageBranch | app.py:32-37 | the branch of stage k of a day stem is a branch |
| GanJi.StageBranchRoundTrip | app.py:32-37 | the branch of stage k has stage k |
| GanJi.UnseongOffsetRoundTrip | app.py:32-37 | each branch is the branch of its own stage, so the stages label the branches one-to-one |
| GanJi.UnseongAtStart | app.py:33-37 | the start branch of a day stem is its 장생 |
| GanJi.UnseongStep | app.py:34-36 | one branch forward moves a yang stem one stage forward and a yin stem one stage back |
| GanJi.DecadeStart | app.py:40 | the decade start is a branch |
| GanJi.VoidPair | app.py:39-42 | the void branches are consecutive, and neither is the day branch |
| GanJi.Gongmang | app.py:39-43 | the void text is two characters |
| GanJi.GongmangAvoidsDayBranch | app.py:39-43 | neither character of the void text is the day branch's character |
| GanJi.DayInOwnDecade | app.py:40 | the day pillar is the day stem's place in the decade starting at the decade start |
| GanJi.VoidPairIsDecadeGap | app.py:39-42 | a branch is void exactly when no stem of the day's decade falls on it |
| GanJi.VoidPairSameDecade | app.py:39-43 | the pillars of one decade share their void pair |
| GanJi.Baekho | app.py:61-63 | the result is 백호 or empty |
| GanJi.Goemigwan | app.py:65-67 | the result is 괴강 or empty |
| GanJi.StripLeading | app.py:212 | removes exactly the leading whitespace |
| GanJi.StripTrailing | app.py:212 | removes exactly the trailing whitespace |
| GanJi.Strip | app.py:212 | the stripped text is empty or starts and ends with a non-space |
| GanJi.Special | app.py:206-212 | the special text carries no stray space at either end |
| GanJi.SpecialCases | app.py:206-212 | the special text is 백호 괴강, 백호, 괴강 or empty, exactly by membership in the two pair lists |
| GanJi.SpecialBoth | app.py:62-66 | both markers show exactly on 戊辰 (4,4) and 壬戌 (8,10) |
| GanJi.SpecialPairsAreValid | app.py:62-66 | every listed special pair is one of the sixty pillars |
| GanJi.PillarAt | app.py:168-169 | the n-th pillar of the cycle has stem parity equal to branch parity |
| GanJi.CycleIndex | app.py:168-169 | every parity-matched pair is PillarAt(n) for a unique n in [0, 60) |
| GanJi.PillarAtInjective | app.py:168-169 | the sixty pillars are distinct |
| GanJi.PillarAtMod60 | app.py:168-169 | the cycle has period 60 |
| GanJi.CycleIndexOfPillarAt | app.py:168-169 | CycleIndex inverts PillarAt modulo 60 |
| GanJi.PillarAtShift | app.py:231-232 | moving d places in the cycle adds d to the stem modulo 10 and to the branch modulo 12 |
| GanJi.NextPillarIsSuccessor | app.py:231-232 | stepping both indices by one moves to the next place of the cycle |
| Shinsal.TablesTotal | app.py:47-56 | every branch has a group, every group has all three stars, and every stem has noble helpers |
| Shinsal.GroupsAreTrines | app.py:47 | two branches share a group exactly when they are congruent modulo 4 |
| Shinsal.TrineStarOffsets | app.py:47-50 | 화개, 도화 and 역마 sit at offsets 0, 1 and 2 modulo 4 from the day branch |
| Shinsal.TrineStarsExclusive | app.py:52-54 | no branch carries two of 도화, 역마 and 화개 |
| Shinsal.NobleHelpersMirror | app.py:56 | each stem has two distinct noble-helper branches whose sum is 8 modulo 12 |
| Shinsal.MarkersFromSpec | app.py:52-57 | the markers from position k on, in order, are exactly those that apply |
| Shinsal.Markers | app.py:52-57 | the markers keep the order 도화, 역마, 화개, 천을귀인, and each appears exactly when its rule applies |
| Shinsal.Join | app.py:59 | the joined text starts with the first element |
| Shinsal.Render | app.py:59 | no markers give "-"; otherwise the text starts with the first marker |
| Shinsal.RenderDash | app.py:59 | the text is "-" exactly when no marker applies |
| Shinsal.GetShinsal | app.py:45-59 | the appended list renders as Render(Markers(..)), which is "-" exactly when nothing applies |
| Calendar.ValidDateTime | app.py:154-155 | a date and time that `datetime` accepts has its minute of the day in [0, 1440) and its day in 1..31 |
| Calendar.DaysSince1900 | app.py:178-180 | the days of January 1900 count from 0, so 1900-01-01 is day 0 |
| Calendar.DaysInMonth | app.py:155-156 | months have 28 to 31 days, and 29 exactly for February of a leap year |
| Calendar.YearLength | app.py:178-180 | a year is 366 days long exactly when it is a leap year, and 365 otherwise |
| Calendar.MonthLength | app.py:178-180 | consecutive months start DaysInMonth apart |
| Calendar.NextDateIsNextDay | app.py:178-180 | the following date is valid and its day count is one more |
| Calendar.DayCountExamples | app.py:178-180 | 1900-01-01 is day 0 and 1990-01-01 is day 32872 |
| Pillars.Trunc | app.py:173 | truncation toward zero lies within one of its argument, on the side of zero |
| Pillars.NormalizeLon | app.py:162 | a longitude in (-360, 360) wraps into [0, 360), and a non-negative one is unchanged |
| Pillars.EffectiveYear | app.py:164-167 | the chart year is the previous one exactly in January, or in February before 315° |
| Pillars.YearPillar | app.py:168-169 | the year pillar is one of the sixty pillars |
| Pillars.YearPillarExamples | app.py:168-169 | 1984 is 甲子 and 2026 is 丙午 |
| Pillars.YearCycleIndex | app.py:168-169 | year y is place (y − 4) mod 60 of the cycle |
| Pillars.YearPillarAdvances | app.py:168-169 | each year's pillar is the successor of the previous year's |
| Pillars.MonthIndex | app.py:171-173 | for a longitude in [0, 360) the sector lies in [0, 12) and spans 30° counted from 315° |
| Pillars.MonthPillar | app.py:174-176 | month idx of a year with stem g is place 12 (g mod 5) + idx + 2 of the cycle |
| Pillars.MonthCycleContinues | app.py:174-176 | the first month of a year follows the last month of the year before |
| Pillars.DayPillar | app.py:181-182 | the day pillar is one of the sixty pillars |
| Pillars.DayCycleIndex | app.py:180-182 | day d after 1900-01-01 is place (d + 10) mod 60 |
| Pillars.DayPillarAdvances | app.py:180-182 | each day's pillar is the successor of the previous day's |
| Pillars.HourBranchAsWritten | app.py:185-190 | the hour branch as the code computes it is a branch, and 子 before 01:30 and from 23:30 |
| Pillars.HourBranchAsWrittenSlots | app.py:185-190 | as written, 子 covers 22:30–01:29 and 丑 only 01:30–02:29 |
| Pillars.HourBranchCounterexamples | app.py:190 | 02:45 gives 寅 and 22:45 gives 子 as written, against 丑 and 亥 in two-hour slots |
| Pillars.HourBranch | app.py:185-190 | 子 exactly before 01:30 and from 23:30; branch b covers [120b − 30, 120b + 90) minutes |
| Pillars.HourDayGan | app.py:185-191 | the hour stems are keyed by the next day's stem from 23:30 and by the day's stem otherwise |
| Pillars.HourPillar | app.py:192-193 | hour b keyed by stem g is place 12 (g mod 5) + b of the cycle |
| Pillars.HourPillarAsWritten | app.py:185-193 | hour branch b of the code, keyed by stem g, is place 12 (g mod 5) + b of the cycle, and so one of the sixty pillars |
| Pillars.HourBranchAsWrittenIsHourEarly | app.py:190 | between 01:30 and 22:29 the code's branch is the two-hour slot of the time one hour later |
| Pillars.LateHourAsWrittenIsNextDays | app.py:185-193 | from 23:30 the hour pillar is the next day's pillar before 01:30 |
| Pillars.HourCycleBreaksAsWritten | app.py:185-193 | as written, 23:29 already gives a 子 pillar, and the 23:30 pillar is not its successor in the cycle |
| Pillars.LateHourIsNextDays | app.py:185-193 | from 23:30 the hour pillar is the next day's early 子 pillar |
| Pillars.HourCycleContinues | app.py:185-193 | the 子 pillar from 23:30 follows the day's 亥 pillar in the cycle |
| Daewoon.StartSector | app.py:73-74 | the start sector of a longitude in [0°, 360°) is its 15° sector in [0, 24); a longitude just below 0° is not wrapped and truncates to sector 0 |
| Daewoon.StepSector | app.py:82-84 | in exact real arithmetic, a longitude reading in [−360°, 360°) is wrapped and falls in a sector in [0, 24) |
| Daewoon.FirstChangeFrom | app.py:79-87 | gives the first step from i on whose sector differs from the start, or none when no step before the bound differs |
| Daewoon.FindBoundary | app.py:73-87 | the loop returns the signed offset of the first changed step, or nothing after 1079 steps |
| Daewoon.DaewoonNumber | app.py:91-98 | the age is at least 1; at most 48 hours gives 1; beyond that 72n − 23 ≤ hours ≤ 72n + 48 |
| Daewoon.DaewoonData | app.py:89-100 | the starting age is at least 1 |
| Daewoon.GetDaewoonData | app.py:69-100 | the search and the age rule give DaewoonData |
| Daewoon.DaewoonDataOutcome | app.py:89-100 | the message is empty exactly when a boundary was found, and is the failure text exactly when none was |
| Daewoon.DaewoonAgeBound | app.py:79-98 | with one-hour steps the starting age is at most 15 |
| Daewoon.ConstantLongitudeExhausts | app.py:79-89 | a longitude that never leaves its sector gives (1, 절기 탐색 실패) |
| Daewoon.Direction | app.py:217-225 | forward exactly when being a man agrees with a yang year stem, backward otherwise |
| Daewoon.DirectionText | app.py:220-225 | the text is 순행 exactly for the forward direction |
| Daewoon.Decimal | app.py:234 | the decimal rendering of an age is a non-empty string of digits |
| Daewoon.DecimalRoundTrip | app.py:234 | the decimal rendering reads back to the age |
| Daewoon.RenderPeriod | app.py:234 | a cell is the age in bold, a line break, then the pillar name |
| Daewoon.PeriodAt | app.py:231-233 | the period's indices are a stem and a branch, and they form one of the sixty pillars exactly when the month indices do |
| Daewoon.PeriodCells | app.py:229-234 | eight cells, cell k rendering period k + 1 |
| Daewoon.BuildDaewoonList | app.py:229-234 | the appending loop produces PeriodCells |
| Daewoon.PeriodWalksCycle | app.py:231-233 | period i is i places from the month pillar in the cycle, and starts 10 (i − 1) years after the first |
| Daewoon.PeriodCellWalksCycle | app.py:229-234 | cell i of the table ends with the name of the pillar i places from the month pillar and shows the age start + 10 (i − 1) in decimal |
| Daewoon.ForwardPeriodsAdvance | app.py:231-233 | going forward, each period is the successor of the one before, ten years later |
| Daewoon.BackwardPeriodsRetreat | app.py:231-233 | going backward, each period is the predecessor of the one before, ten years later |
| StrategyReport.ElementSummary | app.py:111-149 | each element has its own bundle of three keywords |
| StrategyReport.Header | app.py:108 | the header carries the name verbatim |
| StrategyReport.GenerateReport | app.py:103-151 | the report's summary is the one of the day stem's element (stem / 2), and its header carries the name verbatim after the fixed lead |
| StrategyReport.ReportByElement | app.py:105-149 | two day stems get the same report exactly when they share an element |
| StrategyReport.ReportFollowsTenGod | app.py:104-149 | the report follows the ten-god family that 丙 falls in for the day stem |
| Engine.FourPillars | app.py:164-193 | all four pillars, the hour pillar as the code computes it, are among the sixty |
| Engine.Column | app.py:200-213 | a column carries its title and a name that reads back to its pillar, and only the day column is labelled 본원 |
| Engine.BuildColumns | app.py:195-213 | the annotating loop yields Columns of the four pillars |
| Engine.Annotate | app.py:201-213 | one loop iteration builds exactly Column i of the pillar against the day pillar: its title, its name, its ten god (본원 for the day pillar), its life stage, its markers and its special text |
| Engine.ChartFromPillars | app.py:197-243 | four titled columns with 본원 on the day column, eight periods, and a diagnostic that is empty or the failure text |
| Engine.ChartOf | app.py:164-243 | the chart's day column names the day pillar of the date, and its hour column the as-written hour pillar of the time |
| Engine.Calculate | app.py:153-244 | None exactly for an invalid date or time; otherwise the chart ChartOf describes |
| Engine.DayPillarIgnoresTime | app.py:178-191 | the day pillar depends on the date alone, so it is unaffected by the 23:30 rule |
| Engine.LateNightIsNextDay | app.py:178-193 | from 23:30 the hour pillar is the one the next date starts with |
| Engine.DirectionRule | app.py:217-225 | the chart's direction text is 순행 exactly when being a man agrees with a yang year stem |
| Engine.VoidAvoidsDayBranch | app.py:215 | neither void character is the day branch's character |
| Engine.ChartWithPeriods | app.py:229-234 | for any first age start ≥ 1 and direction dir, cell i (1 ≤ i ≤ 8) of the chart's list shows the age start + 10 (i − 1) and the pillar i·dir places from the month pillar in the sixty-cycle |
| Engine.ChartPeriods | app.py:217-234 | in the chart, with dir the direction fixed by year stem and gender and start ≥ 1 the first age the boundary search gives, cell i (1 ≤ i ≤ 8) shows the age start + 10 (i − 1) in decimal and the name of the pillar i·dir places from the month pillar in the cycle |

## Left out

- The Streamlit user interface, its session state and its HTML: presentation only.
- The ephemeris (`ephem.Sun`, `compute`, `Ecliptic`, `degrees`). It is a foreign library working on floats, so the model takes its readings as inputs: a longitude `sunLon` and an oracle `lonAt`.
- Pillars.NormalizeLon: the +360° wrap is exact over the reals. The source adds in IEEE doubles, where a reading just below 0° can round to exactly 360.0: −1e−20 + 360 is 360.0.
- Pillars.MonthIndex: the +45° shift, the −360° wrap, the division by 30 and `int()` are exact over the reals. Within float rounding of a 30° boundary, the source's doubles can give the neighbouring sector.
- Daewoon.StartSector: the division by 15 and `int()` are exact over the reals. Within float rounding of a 15° boundary, the source's doubles can give the neighbouring sector.
- Daewoon.StepSector: the wrap, the division by 15 and `int()` are exact over the reals. Near a boundary the source's doubles can differ: a reading of −1e−20° gives sector 24 in the source (360.0 / 15) and 23 in the model.
- The KST-to-UTC shift. It only moves the instant the ephemeris is read at, and the oracle abstracts that.
- The `OverflowError` that `datetime` raises when that shift or a search step leaves years 1..9999, which the source does not catch. It can happen only within about 45 days of those limits.
- The lunar-to-solar converter: an external library.
- The report prose: descriptions, wealth, career and health texts, and the action advice. Only the keywords, score, direction and colour are modelled.
- The lookup helpers require in-range indices. Python would accept a negative index by wrapping around, but the engine never passes one.

## Findings

| source | as written | input that shows it | evidently intended | confidence | as-written member | corrected member |
|---|---|---|---|---|---|---|
| app.py:190 | between 01:30 and 23:29 the hour slot is (minutes − 30) div 120 + 1, so 子 covers 22:30–01:29 (three hours) and 丑 only 01:30–02:29 (one hour); 23:29 is already 子 and 23:30 does not follow it in the cycle (HourCycleBreaksAsWritten) | 02:45 gives 寅 and 22:45 gives 子 | twelve two-hour slots from 23:30, 01:30, 03:30, …, that is (minutes − 90) div 120 + 1; proved to continue the cycle at 23:30 (HourCycleContinues); the engine model keeps the code as written | not executed | Pillars.HourBranchAsWrittenSlots | Pillars.HourBranch |
