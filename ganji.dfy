/**
 * Stem-branch algebra: the fixed tables of the engine and the pure lookups
 * built on them (ten gods, twelve stages, void pair, special pairs), plus the
 * sexagenary cycle that every produced pillar lies on.
 *
 * Stems are 0..9 (甲..癸), branches 0..11 (子..亥); elements 0..4 are wood,
 * fire, earth, metal, water; polarity 0 is yang and 1 is yin.
 */
module GanJi {
  import opened Wrappers

  const Cheon: string := "甲乙丙丁戊己庚辛壬癸"
  const Ji: string := "子丑寅卯辰巳午未申酉戌亥"
  /** Ten-gods labels, ordered by relation * 2 + (polarities differ ? 1 : 0). */
  const SibsinNames: seq<string> := ["비견", "겁재", "식신", "상관", "편재", "정재", "편관", "정관", "편인", "정인"]
  /** Twelve-stage labels in cycle order, starting from 장생. */
  const UnseongNames: seq<string> := ["장생", "목욕", "관대", "건록", "제왕", "쇠", "병", "사", "묘", "절", "태", "양"]
  /** (element, polarity) of each stem. */
  const CData: seq<(int, int)> := [(0,0), (0,1), (1,0), (1,1), (2,0), (2,1), (3,0), (3,1), (4,0), (4,1)]
  /** (element, polarity) of each branch. */
  const JData: seq<(int, int)> := [(4,1), (2,1), (0,0), (0,1), (2,0), (1,0), (1,1), (2,1), (3,0), (3,1), (2,0), (4,0)]
  /** The branch at which each stem's twelve-stage cycle begins (its 장생). */
  const UnseongStart: seq<int> := [11, 6, 2, 9, 2, 9, 5, 0, 8, 3]

  predicate IsStem(g: int) { 0 <= g < 10 }
  predicate IsBranch(j: int) { 0 <= j < 12 }

  // ---------------------------------------------------------------------------
  // The element tables

  /** Stem s is element s / 2 with polarity s % 2: the stems enumerate the ten
      (element, polarity) pairs once each, in order. */
  lemma StemTable(s: int)
    requires IsStem(s)
    ensures CData[s] == (s / 2, s % 2)
  {
  }

  /** Number of the first n entries of an (element, polarity) table whose
      element is e. */
  function CountElement(t: seq<(int, int)>, e: int, n: nat): (c: nat)
    requires n <= |t|
    ensures c <= n
  {
    if n == 0 then 0 else CountElement(t, e, n - 1) + (if t[n - 1].0 == e then 1 else 0)
  }

  /** The branch table is not a relabelling of the stems: earth lies on four
      branches (丑 辰 未 戌), every other element on two. */
  lemma BranchElementMultiplicities(e: int)
    ensures CountElement(JData, e, 12) == if e == 2 then 4 else if 0 <= e < 5 then 2 else 0
  {
    // running counts after each branch 子 .. 戌
    var t := JData;
    assert CountElement(t, e, 1) == (if e == 4 then 1 else 0);
    assert CountElement(t, e, 2) == (if e == 4 || e == 2 then 1 else 0);
    assert CountElement(t, e, 3) == (if e == 4 || e == 2 || e == 0 then 1 else 0);
    assert CountElement(t, e, 4) == (if e == 4 || e == 2 then 1 else if e == 0 then 2 else 0);
    assert CountElement(t, e, 5) == (if e == 4 then 1 else if e == 0 || e == 2 then 2 else 0);
    assert CountElement(t, e, 6) == (if e == 4 || e == 1 then 1 else if e == 0 || e == 2 then 2 else 0);
    assert CountElement(t, e, 7) == (if e == 4 then 1 else if e == 0 || e == 2 || e == 1 then 2 else 0);
    assert CountElement(t, e, 8) == (if e == 4 then 1 else if e == 0 || e == 1 then 2 else if e == 2 then 3 else 0);
    assert CountElement(t, e, 9) == (if e == 4 || e == 3 then 1 else if e == 0 || e == 1 then 2 else if e == 2 then 3 else 0);
    assert CountElement(t, e, 10) == (if e == 4 then 1 else if e == 0 || e == 1 || e == 3 then 2 else if e == 2 then 3 else 0);
    assert CountElement(t, e, 11) == (if e == 4 then 1 else if e == 0 || e == 1 || e == 3 then 2 else if e == 2 then 4 else 0);
  }

  // ---------------------------------------------------------------------------
  // Pillar names

  /** The two-character name of a pillar; both indices are reduced first. */
  function Ganji(gan: int, ji: int): (r: string)
    ensures |r| == 2
  {
    [Cheon[gan % 10], Ji[ji % 12]]
  }

  /** Position of the first occurrence of c in s, or -1. */
  function IndexOf(s: string, c: char): (i: int)
    ensures -1 <= i < |s|
    ensures i >= 0 ==> s[i] == c && forall k :: 0 <= k < i ==> s[k] != c
    ensures i < 0 ==> c !in s
  {
    if s == [] then -1
    else if s[0] == c then 0
    else
      var k := IndexOf(s[1..], c);
      if k < 0 then -1 else k + 1
  }

  /** Reads a pillar name back into its stem and branch indices. */
  function ParseGanji(name: string): Option<(int, int)>
  {
    if |name| != 2 then None
    else
      var g := IndexOf(Cheon, name[0]);
      var j := IndexOf(Ji, name[1]);
      if g < 0 || j < 0 then None else Some((g, j))
  }

  lemma NamesDistinct()
    ensures forall a, b :: 0 <= a < b < 10 ==> Cheon[a] != Cheon[b]
    ensures forall a, b :: 0 <= a < b < 12 ==> Ji[a] != Ji[b]
  {
  }

  /** Naming a pillar loses nothing but the reduction modulo 10 and 12. */
  lemma ParseGanjiRoundTrip(gan: int, ji: int)
    ensures ParseGanji(Ganji(gan, ji)) == Some((gan % 10, ji % 12))
    ensures IsStem(gan) && IsBranch(ji) ==> ParseGanji(Ganji(gan, ji)) == Some((gan, ji))
  {
    NamesDistinct();
    var name := Ganji(gan, ji);
    var g := IndexOf(Cheon, name[0]);
    var j := IndexOf(Ji, name[1]);
    assert g == gan % 10;
    assert j == ji % 12;
  }

  /** Every name that parses is the name of the pillar it parses to. */
  lemma GanjiOfParse(name: string)
    requires ParseGanji(name).Some?
    ensures IsStem(ParseGanji(name).value.0) && IsBranch(ParseGanji(name).value.1)
    ensures Ganji(ParseGanji(name).value.0, ParseGanji(name).value.1) == name
  {
    var g := IndexOf(Cheon, name[0]);
    var j := IndexOf(Ji, name[1]);
    Mod10(g, 0, g);
    Mod12(j, 0, j);
    assert Ganji(g, j) == [name[0], name[1]] == name;
  }

  // ---------------------------------------------------------------------------
  // Ten gods

  /** Position in SibsinNames of the relation of `target` (a stem, or a branch
      when `targetIsStem` is false) to the day stem `me`. */
  function SibsinIndex(me: int, target: int, targetIsStem: bool): (k: int)
    requires IsStem(me)
    requires if targetIsStem then IsStem(target) else IsBranch(target)
    ensures 0 <= k < 10
  {
    var (meElem, mePol) := CData[me];
    var (tgtElem, tgtPol) := if targetIsStem then CData[target] else JData[target];
    var rel := (tgtElem - meElem + 5) % 5;
    var isDiff := if mePol == tgtPol then 0 else 1;
    rel * 2 + isDiff
  }

  function Sibsin(me: int, target: int, targetIsStem: bool): (r: string)
    requires IsStem(me)
    requires if targetIsStem then IsStem(target) else IsBranch(target)
    ensures r in SibsinNames
  {
    SibsinNames[SibsinIndex(me, target, targetIsStem)]
  }

  /** A stem compared with itself is its own "shoulder": 비견. */
  lemma SibsinOfSelf(me: int)
    requires IsStem(me)
    ensures SibsinIndex(me, me, true) == 0 && Sibsin(me, me, true) == "비견"
  {
  }

  /** The relation index splits into the element distance (generating order,
      modulo 5) and whether the polarities differ. */
  lemma SibsinIndexMeaning(me: int, t: int)
    requires IsStem(me) && IsStem(t)
    ensures SibsinIndex(me, t, true) / 2 == (t / 2 - me / 2) % 5
    ensures SibsinIndex(me, t, true) % 2 == (if t % 2 == me % 2 then 0 else 1)
  {
    StemTable(me);
    StemTable(t);
  }

  /** The stem standing in relation k to the day stem `me`. */
  function SibsinStem(me: int, k: int): (t: int)
    requires IsStem(me) && 0 <= k < 10
    ensures IsStem(t)
  {
    ((me / 2 + k / 2) % 5) * 2 + (if k % 2 == 0 then me % 2 else 1 - me % 2)
  }

  /** For a fixed day stem the ten gods label the ten stems one-to-one:
      SibsinStem inverts SibsinIndex in both directions. */
  lemma SibsinStemRoundTrip(me: int, k: int)
    requires IsStem(me) && 0 <= k < 10
    ensures SibsinIndex(me, SibsinStem(me, k), true) == k
  {
    var t := SibsinStem(me, k);
    var e := (me / 2 + k / 2) % 5;
    var p := if k % 2 == 0 then me % 2 else 1 - me % 2;
    assert t / 2 == e && t % 2 == p;
    SibsinIndexMeaning(me, t);
    Mod5(e - me / 2, (me / 2 + k / 2) / 5 * -1, k / 2);
  }

  lemma SibsinIndexRoundTrip(me: int, t: int)
    requires IsStem(me) && IsStem(t)
    ensures SibsinStem(me, SibsinIndex(me, t, true)) == t
  {
    var k := SibsinIndex(me, t, true);
    SibsinIndexMeaning(me, t);
    var rel := (t / 2 - me / 2) % 5;
    assert k / 2 == rel;
    Mod5(me / 2 + rel, -((t / 2 - me / 2) / 5), t / 2);
    assert t == (t / 2) * 2 + t % 2;
  }

  /** A branch is related to the day stem exactly as the stem of the same
      element and polarity is. */
  lemma SibsinOfBranch(me: int, b: int)
    requires IsStem(me) && IsBranch(b)
    ensures IsStem(JData[b].0 * 2 + JData[b].1)
    ensures SibsinIndex(me, b, false) == SibsinIndex(me, JData[b].0 * 2 + JData[b].1, true)
  {
    var s := JData[b].0 * 2 + JData[b].1;
    assert IsStem(s);
    StemTable(s);
  }

  // ---------------------------------------------------------------------------
  // Twelve stages

  /** Position in UnseongNames of branch `ji` for the day stem: yang stems
      count forward from their 장생 branch, yin stems backward. */
  function UnseongOffset(dayGan: int, ji: int): (k: int)
    requires IsStem(dayGan)
    ensures 0 <= k < 12
  {
    var startJi := UnseongStart[dayGan];
    if dayGan % 2 == 0 then (ji - startJi + 12) % 12 else (startJi - ji + 12) % 12
  }

  function Unseong(dayGan: int, ji: int): (r: string)
    requires IsStem(dayGan)
    ensures r in UnseongNames
  {
    UnseongNames[UnseongOffset(dayGan, ji)]
  }

  /** The branch on which stage k of the day stem's cycle falls. */
  function StageBranch(dayGan: int, k: int): (b: int)
    requires IsStem(dayGan)
    ensures IsBranch(b)
  {
    var startJi := UnseongStart[dayGan];
    if dayGan % 2 == 0 then (startJi + k) % 12 else (startJi - k) % 12
  }

  /** For a fixed day stem the twelve stages label the twelve branches
      one-to-one: StageBranch inverts UnseongOffset in both directions. */
  lemma StageBranchRoundTrip(dayGan: int, k: int)
    requires IsStem(dayGan) && 0 <= k < 12
    ensures UnseongOffset(dayGan, StageBranch(dayGan, k)) == k
  {
    var s := UnseongStart[dayGan];
    var b := StageBranch(dayGan, k);
    if dayGan % 2 == 0 {
      Mod12(b - s + 12, 1 - (s + k) / 12, k);
    } else {
      Mod12(s - b + 12, (s - k) / 12 + 1, k);
    }
  }

  lemma UnseongOffsetRoundTrip(dayGan: int, b: int)
    requires IsStem(dayGan) && IsBranch(b)
    ensures StageBranch(dayGan, UnseongOffset(dayGan, b)) == b
  {
    var s := UnseongStart[dayGan];
    var k := UnseongOffset(dayGan, b);
    if dayGan % 2 == 0 {
      Mod12(s + k, 1 - (b - s + 12) / 12, b);
    } else {
      Mod12(s - k, (s - b + 12) / 12 - 1, b);
    }
  }

  /** The day stem's own start branch is its 장생. */
  lemma UnseongAtStart(dayGan: int)
    requires IsStem(dayGan)
    ensures UnseongOffset(dayGan, UnseongStart[dayGan]) == 0
    ensures Unseong(dayGan, UnseongStart[dayGan]) == "장생"
  {
  }

  /** Moving one branch forward moves a yang stem one stage forward and a yin
      stem one stage back. */
  lemma UnseongStep(dayGan: int, b: int)
    requires IsStem(dayGan)
    ensures UnseongOffset(dayGan, b + 1) == (UnseongOffset(dayGan, b) + (if dayGan % 2 == 0 then 1 else 11)) % 12
  {
    var startJi := UnseongStart[dayGan];
    if dayGan % 2 == 0 {
      ModAdd12(b - startJi + 12, 1);
    } else {
      var y := startJi - b + 12;
      ModAdd12(y, 11);
      Mod12(y + 11, (y - 1) / 12 + 1, (y - 1) % 12);
    }
  }

  // ---------------------------------------------------------------------------
  // Void pair

  /** The branch carrying 甲 in the ten-day decade of the pillar. */
  function DecadeStart(dayGan: int, dayJi: int): (s: int)
    ensures IsBranch(s)
  {
    (dayJi - dayGan + 12) % 12
  }

  /** The branch paired with the k-th stem of the decade starting at branch s. */
  function DecadeBranch(s: int, k: int): int
  {
    (s + k) % 12
  }

  /** The two void branches of the day pillar, as indices. */
  function VoidPair(dayGan: int, dayJi: int): (p: (int, int))
    ensures IsBranch(p.0) && p.1 == (p.0 + 1) % 12
    ensures IsStem(dayGan) ==> p.0 != dayJi % 12 && p.1 != dayJi % 12
  {
    var startIdx := DecadeStart(dayGan, dayJi);
    ((startIdx + 10) % 12, (startIdx + 11) % 12)
  }

  lemma BranchNamesDiffer(a: int, b: int)
    requires IsBranch(a) && IsBranch(b) && a != b
    ensures Ji[a] != Ji[b]
  {
    NamesDistinct();
    if a > b {
      assert Ji[b] != Ji[a];
    }
  }

  function Gongmang(dayGan: int, dayJi: int): (r: string)
    ensures |r| == 2
  {
    var p := VoidPair(dayGan, dayJi);
    [Ji[p.0], Ji[p.1]]
  }

  /** Neither void character is the day branch's character. */
  lemma GongmangAvoidsDayBranch(dayGan: int, dayJi: int)
    requires ValidPillar(dayGan, dayJi)
    ensures var g := Gongmang(dayGan, dayJi);
      g[0] != Ji[dayJi] && g[1] != Ji[dayJi]
  {
    var v := VoidPair(dayGan, dayJi);
    BranchNamesDiffer(v.0, dayJi);
    BranchNamesDiffer(v.1, dayJi);
  }

  /** The day pillar is the dayGan-th pillar of its own decade. */
  lemma DayInOwnDecade(dayGan: int, dayJi: int)
    ensures DecadeBranch(DecadeStart(dayGan, dayJi), dayGan) == dayJi % 12
  {
  }

  /** The void branches are exactly the two branches that the ten stems of the
      day's decade leave without a stem. */
  lemma VoidPairIsDecadeGap(dayGan: int, dayJi: int, b: int)
    requires IsBranch(b)
    ensures var p := VoidPair(dayGan, dayJi);
      (b == p.0 || b == p.1) <==> forall k :: 0 <= k < 10 ==> DecadeBranch(DecadeStart(dayGan, dayJi), k) != b
  {
    var s := DecadeStart(dayGan, dayJi);
    var p := VoidPair(dayGan, dayJi);
    if b == p.0 || b == p.1 {
      forall k | 0 <= k < 10
        ensures DecadeBranch(s, k) != b
      {
        DecadeMisses(s, k, 10);
        DecadeMisses(s, k, 11);
      }
    } else {
      var k := if b >= s then b - s else b - s + 12;
      Mod12(s + k, if b >= s then 0 else 1, b);
      assert 0 <= k < 10 && DecadeBranch(s, k) == b;
    }
  }

  /** Stems 0..9 of a decade never reach the branches 10 and 11 places on. */
  lemma DecadeMisses(s: int, k: int, m: int)
    requires 0 <= k < 10 && 10 <= m <= 11
    ensures (s + k) % 12 != (s + m) % 12
  {
    var a, c := (s + k) / 12, (s + m) / 12;
    assert s + k == 12 * a + (s + k) % 12;
    assert s + m == 12 * c + (s + m) % 12;
  }

  /** All pillars of one decade share the void pair. */
  lemma VoidPairSameDecade(dayGan: int, dayJi: int)
    ensures VoidPair(dayGan + 1, dayJi + 1) == VoidPair(dayGan, dayJi)
    ensures Gongmang(dayGan + 1, dayJi + 1) == Gongmang(dayGan, dayJi)
  {
  }

  // ---------------------------------------------------------------------------
  // Special pairs

  const BaekhoPairs: seq<(int, int)> := [(0,4), (1,7), (2,10), (3,1), (4,4), (8,10), (9,1)]
  const GoePairs: seq<(int, int)> := [(4,10), (6,4), (6,10), (8,4), (8,10), (4,4)]

  function Baekho(gan: int, ji: int): (r: string)
    ensures r == "백호" || r == ""
  {
    if (gan, ji) in BaekhoPairs then "백호" else ""
  }

  function Goemigwan(gan: int, ji: int): (r: string)
    ensures r == "괴강" || r == ""
  {
    if (gan, ji) in GoePairs then "괴강" else ""
  }

  /** The characters Python's str.strip removes (those str.isspace accepts):
      tab to carriage return, the four information separators U+001C-U+001F,
      space, U+0085, no-break space, and the Unicode space separators, line
      separator and paragraph separator. */
  predicate IsSpace(c: char)
  {
    || '\t' <= c <= '\r'
    || '\U{001C}' <= c <= ' '
    || c == '\U{0085}' || c == '\U{00A0}' || c == '\U{1680}'
    || '\U{2000}' <= c <= '\U{200A}'
    || c == '\U{2028}' || c == '\U{2029}' || c == '\U{202F}' || c == '\U{205F}' || c == '\U{3000}'
  }

  function StripLeading(s: string): (r: string)
    ensures |r| <= |s| && r == s[|s| - |r|..]
    ensures r == [] || !IsSpace(r[0])
    ensures forall i :: 0 <= i < |s| - |r| ==> IsSpace(s[i])
  {
    if |s| > 0 && IsSpace(s[0]) then StripLeading(s[1..]) else s
  }

  function StripTrailing(s: string): (r: string)
    ensures |r| <= |s| && r == s[..|r|]
    ensures r == [] || !IsSpace(r[|r| - 1])
    ensures forall i :: |r| <= i < |s| ==> IsSpace(s[i])
  {
    if |s| > 0 && IsSpace(s[|s| - 1]) then StripTrailing(s[..|s| - 1]) else s
  }

  /** Empty, or starting and ending with a non-space. */
  predicate Trimmed(s: string)
  {
    s == [] || (!IsSpace(s[0]) && !IsSpace(s[|s| - 1]))
  }

  /** Both ends stripped: what is left starts and ends with a non-space. */
  function Strip(s: string): (r: string)
    ensures Trimmed(r)
  {
    StripTrailing(StripLeading(s))
  }

  /** The `special` field of a pillar: both markers joined by a space, stripped,
      so that it carries no stray space at either end. */
  function Special(gan: int, ji: int): (s: string)
    ensures Trimmed(s)
  {
    Strip(Baekho(gan, ji) + " " + Goemigwan(gan, ji))
  }

  lemma StripBoth()
    ensures Strip("백호 괴강") == "백호 괴강"
  {
    var s := "백호 괴강";
    assert !IsSpace(s[0]) && !IsSpace(s[|s| - 1]);
  }

  lemma StripFirst()
    ensures Strip("백호 ") == "백호"
  {
    var s := "백호 ";
    assert !IsSpace(s[0]) && !IsSpace(s[1]) && IsSpace(s[2]);
    assert StripLeading(s) == s;
    assert StripTrailing(s) == StripTrailing(s[..2]);
    assert s[..2] == "백호";
  }

  lemma StripSecond()
    ensures Strip(" 괴강") == "괴강"
  {
    var s := " 괴강";
    assert IsSpace(s[0]) && !IsSpace(s[1]) && !IsSpace(s[2]);
    assert StripLeading(s) == StripLeading(s[1..]);
    assert s[1..] == "괴강";
  }

  lemma StripSpace()
    ensures Strip(" ") == ""
  {
    assert IsSpace(" "[0]) && " "[1..] == "";
    assert StripLeading(" ") == StripLeading("") == "";
  }

  /** What `special` can be: the markers that apply, without stray spaces. */
  lemma SpecialCases(gan: int, ji: int)
    ensures var b := (gan, ji) in BaekhoPairs;
      var g := (gan, ji) in GoePairs;
      Special(gan, ji) == if b && g then "백호 괴강" else if b then "백호" else if g then "괴강" else ""
  {
    var b := (gan, ji) in BaekhoPairs;
    var g := (gan, ji) in GoePairs;
    if b && g {
      assert Baekho(gan, ji) + " " + Goemigwan(gan, ji) == "백호 괴강";
      StripBoth();
    } else if b {
      assert Baekho(gan, ji) + " " + Goemigwan(gan, ji) == "백호 ";
      StripFirst();
    } else if g {
      assert Baekho(gan, ji) + " " + Goemigwan(gan, ji) == " 괴강";
      StripSecond();
    } else {
      assert Baekho(gan, ji) + " " + Goemigwan(gan, ji) == " ";
      StripSpace();
    }
  }

  /** Both markers apply exactly to 戊辰 and 壬戌. */
  lemma SpecialBoth(gan: int, ji: int)
    ensures Special(gan, ji) == "백호 괴강" <==> (gan, ji) == (4, 4) || (gan, ji) == (8, 10)
  {
    SpecialCases(gan, ji);
    InBothTables(gan, ji);
    if !((gan, ji) in BaekhoPairs && (gan, ji) in GoePairs) {
      assert |Special(gan, ji)| <= 2 < |"백호 괴강"|;
    }
  }

  /** The two tables share exactly 戊辰 and 壬戌. */
  lemma InBothTables(gan: int, ji: int)
    ensures (gan, ji) in BaekhoPairs && (gan, ji) in GoePairs <==> (gan, ji) == (4, 4) || (gan, ji) == (8, 10)
  {
  }

  // ---------------------------------------------------------------------------
  // The sexagenary cycle

  // Division by a fixed modulus, with the quotient given explicitly.
  lemma Mod2(n: int, k: int, r: int)
    requires 0 <= r < 2 && n == 2 * k + r
    ensures n % 2 == r
  {
  }

  lemma Mod5(n: int, k: int, r: int)
    requires 0 <= r < 5 && n == 5 * k + r
    ensures n % 5 == r
  {
  }

  lemma Mod10(n: int, k: int, r: int)
    requires 0 <= r < 10 && n == 10 * k + r
    ensures n % 10 == r
  {
  }

  lemma Mod12(n: int, k: int, r: int)
    requires 0 <= r < 12 && n == 12 * k + r
    ensures n % 12 == r
  {
  }

  lemma Mod60(n: int, k: int, r: int)
    requires 0 <= r < 60 && n == 60 * k + r
    ensures n % 60 == r
  {
  }

  /** A stem and branch of equal parity: one of the sixty pillars. */
  predicate ValidPillar(g: int, j: int)
  {
    IsStem(g) && IsBranch(j) && g % 2 == j % 2
  }

  /** The n-th pillar of the sixty-cycle (甲子 is 0). */
  function PillarAt(n: int): (p: (int, int))
    ensures ValidPillar(p.0, p.1)
  {
    var r, s := n % 10, n % 12;
    Mod2(r, s / 2 + 6 * (n / 12) - 5 * (n / 10), s % 2);
    (r, s)
  }

  /** The position of a pillar in the sixty-cycle. */
  function CycleIndex(g: int, j: int): (n: int)
    requires ValidPillar(g, j)
    ensures 0 <= n < 60 && PillarAt(n) == (g, j)
  {
    var x := 6 * g - 5 * j;
    var n := x % 60;
    var t := (g - j) / 2;
    assert g - j == 2 * t;
    Mod10(n, t - 6 * (x / 60), g);
    Mod12(n, t - 5 * (x / 60), j);
    n
  }

  /** The cycle has period sixty and no shorter: a pillar has one position. */
  lemma PillarAtInjective(n: int, m: int)
    requires 0 <= n < 60 && 0 <= m < 60 && PillarAt(n) == PillarAt(m)
    ensures n == m
  {
    var a, b := n / 10 - m / 10, n / 12 - m / 12;
    assert n - m == 10 * a;
    assert n - m == 12 * b;
    assert 5 * a == 6 * b && -6 < a < 6;
    var c := b - a;
    assert a == -6 * c;
    if c > 0 {
      assert false;
    } else if c < 0 {
      assert false;
    }
  }

  lemma PillarAtMod60(n: int)
    ensures PillarAt(n % 60) == PillarAt(n)
  {
    var q, r := n / 60, n % 60;
    Mod10(n, 6 * q + r / 10, r % 10);
    Mod12(n, 5 * q + r / 12, r % 12);
  }

  lemma CycleIndexOfPillarAt(n: int)
    ensures CycleIndex(PillarAt(n).0, PillarAt(n).1) == n % 60
  {
    var p := PillarAt(n);
    PillarAtMod60(n);
    PillarAtInjective(CycleIndex(p.0, p.1), n % 60);
  }

  /** Reducing before or after adding gives the same remainder. */
  lemma ModAdd10(x: int, d: int)
    ensures (x % 10 + d) % 10 == (x + d) % 10
  {
    Mod10(x + d, x / 10 + (x % 10 + d) / 10, (x % 10 + d) % 10);
  }

  lemma ModAdd12(x: int, d: int)
    ensures (x % 12 + d) % 12 == (x + d) % 12
  {
    Mod12(x + d, x / 12 + (x % 12 + d) / 12, (x % 12 + d) % 12);
  }

  /** Stepping d places in the cycle steps the stem and the branch by d. */
  lemma PillarAtShift(n: int, d: int)
    ensures PillarAt(n + d) == ((PillarAt(n).0 + d) % 10, (PillarAt(n).1 + d) % 12)
  {
    ModAdd10(n, d);
    ModAdd12(n, d);
  }

  /** The pillar after (g, j): both indices step by one. */
  function NextPillar(g: int, j: int): (int, int)
  {
    ((g + 1) % 10, (j + 1) % 12)
  }

  /** NextPillar is the successor in the sixty-cycle. */
  lemma NextPillarIsSuccessor(g: int, j: int)
    requires ValidPillar(g, j)
    ensures var q := NextPillar(g, j);
      ValidPillar(q.0, q.1) && CycleIndex(q.0, q.1) == (CycleIndex(g, j) + 1) % 60
  {
    var n := CycleIndex(g, j);
    PillarAtShift(n, 1);
    CycleIndexOfPillarAt(n + 1);
  }

  /** Every special pair is one of the sixty pillars. */
  lemma SpecialPairsAreValid()
    ensures forall k :: 0 <= k < |BaekhoPairs| ==> ValidPillar(BaekhoPairs[k].0, BaekhoPairs[k].1)
    ensures forall k :: 0 <= k < |GoePairs| ==> ValidPillar(GoePairs[k].0, GoePairs[k].1)
  {
  }
}
