/**
 * The 2026 (丙午) strategy report. It is chosen by the element of the day
 * stem alone; equivalently, by how the year's stem 丙 (fire) relates to the
 * day stem among the five ten-god families: fire is the wood stem's output,
 * the fire stem's peer, the earth stem's resource, the metal stem's authority
 * and the water stem's wealth.
 */
module StrategyReport {
  import opened GanJi

  /** The structured part of a report: keywords, score, the favourable
      direction and the lucky colours. */
  datatype Summary = Summary(keywords: seq<string>, score: int, luckyDirection: string, color: string)

  datatype Report = Report(header: string, summary: Summary)

  /** The summary for each element: 0 wood, 1 fire, 2 earth, 3 metal, 4 water. */
  function ElementSummary(elem: int): (s: Summary)
    requires 0 <= elem < 5
    ensures |s.keywords| == 3
  {
    if elem == 0 then
      Summary(["#재능폭발", "#탈진주의", "#새로운무대"], 88, "남쪽(離)", "Blue, Black (수 기운으로 열기를 식힘)")
    else if elem == 1 then
      Summary(["#군비쟁재", "#세력확장", "#독단금지"], 75, "서북쪽(乾)", "Yellow, Brown (토 기운으로 화기를 설기)")
    else if elem == 2 then
      Summary(["#문서운", "#귀인도움", "#준비완료"], 92, "서쪽(兌)", "White, Gold (금 기운으로 결실을 맺음)")
    else if elem == 3 then
      Summary(["#책임감", "#명예상승", "#스트레스"], 80, "북쪽(坎)", "Black, Navy (수 기운으로 관살을 조절)")
    else
      Summary(["#재물성취", "#결과도출", "#에너지소모"], 85, "동쪽(震)", "White, Silver (금 기운으로 수원(水源)을 보충)")
  }

  const HeaderLead: string := "\U{1F4DC} "
  const HeaderTail: string := "님을 위한 2026 병오년(丙午年) 프리미엄 전략 보고서"

  function Header(name: string): (h: string)
    ensures |h| == |HeaderLead| + |name| + |HeaderTail|
    ensures h[|HeaderLead|..|HeaderLead| + |name|] == name
  {
    HeaderLead + name + HeaderTail
  }

  /** The report for a day stem: the header names the person and the
      summary is the one of the stem's element. */
  function GenerateReport(dayGan: int, name: string): (r: Report)
    requires IsStem(dayGan)
    ensures r.summary == ElementSummary(dayGan / 2)
    ensures |r.header| == |HeaderLead| + |name| + |HeaderTail|
    ensures r.header[|HeaderLead|..|HeaderLead| + |name|] == name
  {
    StemTable(dayGan);
    Report(Header(name), ElementSummary(CData[dayGan].0))
  }

  /** Two day stems get the same report exactly when they share an element. */
  lemma ReportByElement(a: int, b: int, name: string)
    requires IsStem(a) && IsStem(b)
    ensures GenerateReport(a, name) == GenerateReport(b, name) <==> a / 2 == b / 2
  {
    if a / 2 != b / 2 {
      assert ElementSummary(a / 2).score != ElementSummary(b / 2).score;
    }
  }

  /** The score for each ten-god family of 丙 seen from the day stem:
      peer, output, wealth, authority, resource. */
  const FamilyScore: seq<int> := [75, 88, 85, 80, 92]

  /** The report follows the ten-god family 丙 falls in for the day stem. */
  lemma ReportFollowsTenGod(dayGan: int, name: string)
    requires IsStem(dayGan)
    ensures GenerateReport(dayGan, name).summary.score == FamilyScore[SibsinIndex(dayGan, 2, true) / 2]
  {
    StemTable(dayGan);
    SibsinIndexMeaning(dayGan, 2);
    var e := dayGan / 2;
    Mod5(1 - e, if e <= 1 then 0 else -1, if e <= 1 then 1 - e else 6 - e);
  }
}
