/**
 * Auxiliary star markers of a target branch relative to the day pillar:
 * 도화, 역마 and 화개 from the day branch's trine group, 천을귀인 from the
 * day stem.
 */
module Shinsal {
  import opened GanJi

  /** Trine group of each day branch. */
  const Groups: map<int, int> := map[0 := 2, 4 := 2, 8 := 2, 2 := 1, 6 := 1, 10 := 1, 3 := 0, 7 := 0, 11 := 0, 5 := 3, 9 := 3, 1 := 3]
  const DohwaMap: map<int, int> := map[2 := 9, 1 := 3, 0 := 0, 3 := 6]
  const YeokmaMap: map<int, int> := map[2 := 2, 1 := 8, 0 := 5, 3 := 11]
  const HwagaeMap: map<int, int> := map[2 := 4, 1 := 10, 0 := 7, 3 := 1]
  /** The two noble-helper branches of each day stem. */
  const GwinMap: map<int, seq<int>> := map[0 := [1, 7], 4 := [1, 7], 6 := [1, 7], 1 := [0, 8], 5 := [0, 8], 2 := [11, 9], 3 := [11, 9], 7 := [2, 6], 8 := [5, 3], 9 := [5, 3]]
  /** The markers, in the order in which they are listed. */
  const MarkerNames: seq<string> := ["도화", "역마", "화개", "천을귀인"]

  /** Every lookup the markers make is defined: each day branch has a group,
      each group a target in the three maps, and each day stem its helpers. */
  lemma TablesTotal()
    ensures forall j :: j in Groups <==> IsBranch(j)
    ensures forall j :: j in Groups ==> Groups[j] in DohwaMap && Groups[j] in YeokmaMap && Groups[j] in HwagaeMap
    ensures forall g :: g in GwinMap <==> IsStem(g)
  {
  }

  /** Two day branches share a trine group exactly when they are a multiple
      of four apart. */
  lemma GroupsAreTrines(a: int, b: int)
    requires IsBranch(a) && IsBranch(b)
    ensures Groups[a] == Groups[b] <==> a % 4 == b % 4
  {
  }

  /** Whether marker k (an index into MarkerNames) applies to `target`. */
  predicate Holds(k: int, dayGan: int, dayJi: int, target: int)
    requires 0 <= k < 4 && IsStem(dayGan) && IsBranch(dayJi)
  {
    var grp := Groups[dayJi];
    if k == 0 then target == DohwaMap[grp]
    else if k == 1 then target == YeokmaMap[grp]
    else if k == 2 then target == HwagaeMap[grp]
    else target in GwinMap[dayGan]
  }

  /** The three trine stars of a day branch fall in three different trines:
      화개 in its own, 도화 one branch on, 역마 two branches on. */
  lemma TrineStarOffsets(dayJi: int)
    requires IsBranch(dayJi)
    ensures HwagaeMap[Groups[dayJi]] % 4 == dayJi % 4
    ensures DohwaMap[Groups[dayJi]] % 4 == (dayJi + 1) % 4
    ensures YeokmaMap[Groups[dayJi]] % 4 == (dayJi + 2) % 4
  {
    // One case per branch.
    if dayJi < 4 {
      if dayJi == 0 {} else if dayJi == 1 {} else if dayJi == 2 {} else {}
    } else if dayJi < 8 {
      if dayJi == 4 {} else if dayJi == 5 {} else if dayJi == 6 {} else {}
    } else {
      if dayJi == 8 {} else if dayJi == 9 {} else if dayJi == 10 {} else {}
    }
  }

  /** Hence at most one of 도화, 역마 and 화개 marks any target. */
  lemma TrineStarsExclusive(dayGan: int, dayJi: int, target: int)
    requires IsStem(dayGan) && IsBranch(dayJi)
    ensures !(Holds(0, dayGan, dayJi, target) && Holds(1, dayGan, dayJi, target))
    ensures !(Holds(0, dayGan, dayJi, target) && Holds(2, dayGan, dayJi, target))
    ensures !(Holds(1, dayGan, dayJi, target) && Holds(2, dayGan, dayJi, target))
  {
    TrineStarOffsets(dayJi);
  }

  /** The two noble helpers of a stem are distinct and mirror each other
      across the 子午 axis plus four (their sum is 8 modulo 12). */
  lemma NobleHelpersMirror(dayGan: int)
    requires IsStem(dayGan)
    ensures |GwinMap[dayGan]| == 2 && IsBranch(GwinMap[dayGan][0]) && IsBranch(GwinMap[dayGan][1])
    ensures GwinMap[dayGan][0] != GwinMap[dayGan][1]
    ensures (GwinMap[dayGan][0] + GwinMap[dayGan][1]) % 12 == 8
  {
  }

  /** xs keeps some of the elements of ys, in their order in ys. */
  predicate Subsequence(xs: seq<string>, ys: seq<string>)
  {
    if xs == [] then true
    else if ys == [] then false
    else if xs[0] == ys[0] then Subsequence(xs[1..], ys[1..])
    else Subsequence(xs, ys[1..])
  }

  /** The markers among MarkerNames[k..] that apply. */
  function MarkersFrom(k: nat, dayGan: int, dayJi: int, target: int): seq<string>
    requires k <= 4 && IsStem(dayGan) && IsBranch(dayJi)
    decreases 4 - k
  {
    if k == 4 then []
    else
      var rest := MarkersFrom(k + 1, dayGan, dayJi, target);
      if Holds(k, dayGan, dayJi, target) then [MarkerNames[k]] + rest else rest
  }

  /** MarkersFrom(k, ..) lists, in order, exactly the markers of
      MarkerNames[k..] that apply. */
  lemma {:induction false} MarkersFromSpec(k: nat, dayGan: int, dayJi: int, target: int)
    requires k <= 4 && IsStem(dayGan) && IsBranch(dayJi)
    ensures var ms := MarkersFrom(k, dayGan, dayJi, target);
      && Subsequence(ms, MarkerNames[k..])
      && (forall m :: m in ms ==> m in MarkerNames[k..])
      && (forall i :: k <= i < 4 ==> (MarkerNames[i] in ms <==> Holds(i, dayGan, dayJi, target)))
    decreases 4 - k
  {
    if k < 4 {
      MarkersFromSpec(k + 1, dayGan, dayJi, target);
      assert MarkerNames[k..][1..] == MarkerNames[k + 1..];
      assert MarkerNames[k] !in MarkerNames[k + 1..];
    }
  }

  /** The markers of `target`: those that apply, in the fixed order
      도화, 역마, 화개, 천을귀인. */
  function Markers(dayGan: int, dayJi: int, target: int): (ms: seq<string>)
    requires IsStem(dayGan) && IsBranch(dayJi)
    ensures Subsequence(ms, MarkerNames)
    ensures forall m :: m in ms ==> m in MarkerNames
    ensures forall i :: 0 <= i < 4 ==> (MarkerNames[i] in ms <==> Holds(i, dayGan, dayJi, target))
  {
    MarkersFromSpec(0, dayGan, dayJi, target);
    MarkersFrom(0, dayGan, dayJi, target)
  }

  /** Python's sep.join(xs). */
  function Join(xs: seq<string>, sep: string): (r: string)
    ensures xs != [] ==> |r| >= |xs[0]| && r[..|xs[0]|] == xs[0]
  {
    if xs == [] then "" else if |xs| == 1 then xs[0] else xs[0] + sep + Join(xs[1..], sep)
  }

  /** The shinsal text: the markers joined by commas, or "-" when there are none. */
  function Render(ms: seq<string>): (r: string)
    ensures ms == [] ==> r == "-"
    ensures ms != [] ==> |r| >= |ms[0]| && r[..|ms[0]|] == ms[0]
  {
    if ms == [] then "-" else Join(ms, ",")
  }

  /** The text is "-" exactly when no marker applies. */
  lemma RenderDash(dayGan: int, dayJi: int, target: int)
    requires IsStem(dayGan) && IsBranch(dayJi)
    ensures Render(Markers(dayGan, dayJi, target)) == "-" <==> forall k :: 0 <= k < 4 ==> !Holds(k, dayGan, dayJi, target)
  {
    var ms := Markers(dayGan, dayJi, target);
    if ms != [] {
      assert ms[0] in MarkerNames;
      assert |Join(ms, ",")| >= 2;
      assert MarkerNames[0] in ms || MarkerNames[1] in ms || MarkerNames[2] in ms || MarkerNames[3] in ms;
    }
  }

  /** Builds the shinsal text of `target` by appending the markers that apply. */
  method GetShinsal(dayGan: int, dayJi: int, target: int) returns (r: string)
    requires IsStem(dayGan) && IsBranch(dayJi)
    ensures r == Render(Markers(dayGan, dayJi, target))
    ensures r == "-" <==> forall k :: 0 <= k < 4 ==> !Holds(k, dayGan, dayJi, target)
  {
    var shinsalList: seq<string> := [];
    var grp := Groups[dayJi];
    if target == DohwaMap[grp] { shinsalList := shinsalList + ["도화"]; }
    if target == YeokmaMap[grp] { shinsalList := shinsalList + ["역마"]; }
    if target == HwagaeMap[grp] { shinsalList := shinsalList + ["화개"]; }
    if target in GwinMap[dayGan] { shinsalList := shinsalList + ["천을귀인"]; }
    assert shinsalList == MarkersFrom(0, dayGan, dayJi, target) by {
      assert MarkersFrom(4, dayGan, dayJi, target) == [];
    }
    r := if shinsalList != [] then Join(shinsalList, ",") else "-";
    RenderDash(dayGan, dayJi, target);
  }
}
