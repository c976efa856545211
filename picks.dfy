/**
 * The threshold-gated market picks: 1X2, under/over, both-teams-to-score,
 * double chance, the per-team multigoal band, and the combination picks.
 *
 * Picks are the literal labels the output carries. Two different "no bet"
 * sentinels are in use: the 1X2 and under/over picks say "No bet" (with a
 * space), every other market says "NoBet".
 */
module Picks {
  import opened Common

  const NoBetSpaced: string := "No bet"
  const NoBet: string := "NoBet"

  const MarginThreshold: real := 0.10
  const Min1X2Prob: real := 0.35
  const DominantProb: real := 0.52
  const DominanceMargin: real := 0.15
  /** 0.52 - 0.03 - 0.1: the floor of the binary markets. */
  const MinBinaryProb: real := 0.39
  const MinDoubleChanceProb: real := 0.68

  function Max3(a: real, b: real, c: real): real
  {
    Max(a, Max(b, c))
  }

  /** The 1X2 pick from the home-win, draw and away-win probabilities. */
  function Result1X2(p1: real, px: real, p2: real): (r: string)
    ensures r == "1" || r == "X" || r == "2" || r == NoBetSpaced
    ensures Max3(p1, px, p2) < Min1X2Prob ==> r == NoBetSpaced
    ensures r == "1" ==> p1 > px && p1 > p2
    ensures r == "2" ==> p2 > px && p2 > p1
    ensures r == "X" ==> px > 0.28 && ((px > p1 && px > p2) || Abs(p1 - p2) < MarginThreshold)
  {
    if Max3(p1, px, p2) < Min1X2Prob then NoBetSpaced
    else if Abs(p1 - p2) < MarginThreshold && px > p1 - MarginThreshold && px > p2 - MarginThreshold && px > 0.28 then "X"
    else if p1 > px + DominanceMargin && p1 > p2 + DominanceMargin && p1 > DominantProb then "1"
    else if p2 > px + DominanceMargin && p2 > p1 + DominanceMargin && p2 > DominantProb then "2"
    else if p1 > px && p1 > p2 && p1 > 0.40 then "1"
    else if p2 > px && p2 > p1 && p2 > 0.40 then "2"
    else if px > p1 && px > p2 && px > 0.35 then "X"
    else NoBetSpaced
  }

  /** A clear favourite (above 0.52 and 0.15 clear of both others) is always picked. */
  lemma ClearFavouriteIsPicked(p1: real, px: real, p2: real)
    ensures p1 > DominantProb && p1 > px + DominanceMargin && p1 > p2 + DominanceMargin ==> Result1X2(p1, px, p2) == "1"
    ensures p2 > DominantProb && p2 > px + DominanceMargin && p2 > p1 + DominanceMargin ==> Result1X2(p1, px, p2) == "2"
  {
  }

  /** The draw can be picked although it is not the likeliest outcome. */
  lemma DrawWithoutMaximum()
    ensures 0.38 + 0.33 + 0.29 == 1.0
    ensures Result1X2(0.38, 0.33, 0.29) == "X" && 0.33 < 0.38
  {
  }

  /** The literal no-bet example: 0.40 / 0.30 / 0.30 gives no pick. */
  lemma NoBetExample()
    ensures Result1X2(0.40, 0.30, 0.30) == NoBetSpaced
  {
  }

  /** The under/over pick; "No bet" when both are below 0.39 or they are within 0.10. */
  function OverUnder(pOver: real, pUnder: real): (r: string)
    ensures r == "Over" || r == "Under" || r == NoBetSpaced
    ensures r == NoBetSpaced <==> Max(pOver, pUnder) < MinBinaryProb || Abs(pOver - pUnder) < MarginThreshold
    ensures r == "Over" ==> pOver > pUnder
    ensures r == "Under" ==> pUnder >= pOver
  {
    if Max(pOver, pUnder) < MinBinaryProb then NoBetSpaced
    else if Abs(pOver - pUnder) < MarginThreshold then NoBetSpaced
    else if pOver > pUnder then "Over" else "Under"
  }

  /**
   * On a two-outcome distribution the floor never decides: the pick is Over
   * exactly when P(over) >= 0.55 and Under exactly when P(over) <= 0.45.
   */
  lemma OverUnderOnDistribution(pOver: real, pUnder: real)
    requires pOver + pUnder == 1.0
    ensures OverUnder(pOver, pUnder) == "Over" <==> pOver >= 0.55
    ensures OverUnder(pOver, pUnder) == "Under" <==> pOver <= 0.45
  {
  }

  /** The both-teams-to-score pick: the under/over rule with labels "Gol", "NoGol" and "NoBet". */
  function BothScore(pGg: real, pNg: real): (r: string)
    ensures r == "Gol" || r == "NoGol" || r == NoBet
    ensures r == NoBet <==> Max(pGg, pNg) < MinBinaryProb || Abs(pGg - pNg) < MarginThreshold
    ensures r == "Gol" ==> pGg > pNg
    ensures r == "NoGol" ==> pNg >= pGg
  {
    if Max(pGg, pNg) < MinBinaryProb then NoBet
    else if Abs(pGg - pNg) < MarginThreshold then NoBet
    else if pGg > pNg then "Gol" else "NoGol"
  }

  /** Both-teams-to-score decides exactly as under/over does, with its own labels. */
  lemma BothScoreMirrorsOverUnder(p: real, q: real)
    ensures OverUnder(p, q) == NoBetSpaced <==> BothScore(p, q) == NoBet
    ensures OverUnder(p, q) == "Over" <==> BothScore(p, q) == "Gol"
  {
  }

  /**
   * The double-chance pick: follows a decided 1X2 pick; with a draw pick, the
   * likelier side (ties to X2); with no 1X2 pick, a side above 0.68.
   */
  function DoubleChance(pick: string, p1: real, px: real, p2: real): (r: string)
    ensures r == "1X" || r == "X2" || r == NoBet
    ensures pick == "1" ==> r == "1X"
    ensures pick == "2" ==> r == "X2"
    ensures r == NoBet ==> pick != "1" && pick != "2" && pick != "X"
    ensures pick == "X" ==> (r == "1X" <==> p1 + px > p2 + px)
    ensures pick != "1" && pick != "2" && pick != "X" ==>
      && (r == "1X" <==> p1 + px > MinDoubleChanceProb && p1 + px > p2 + px)
      && (r == "X2" <==> p2 + px > MinDoubleChanceProb && p2 + px > p1 + px)
  {
    var p1x := p1 + px;
    var px2 := p2 + px;
    if pick == "1" then "1X"
    else if pick == "2" then "X2"
    else if pick == "X" then (if p1x > px2 then "1X" else "X2")
    else if p1x > MinDoubleChanceProb && p1x > px2 then "1X"
    else if px2 > MinDoubleChanceProb && px2 > p1x then "X2"
    else NoBet
  }

  /** Fed with its own 1X2 pick, double chance never covers the less likely side. */
  lemma DoubleChanceFavoursLikelierSide(p1: real, px: real, p2: real)
    ensures var dc := DoubleChance(Result1X2(p1, px, p2), p1, px, p2);
      (dc == "1X" ==> p1 > p2) && (dc == "X2" ==> p2 >= p1)
  {
  }

  /** The per-team multigoal labels, from the lowest to the highest expected goals. */
  const TeamBands: seq<string> := ["0", "0-1", "1-2", "1-3", "2-3", "2-4", "3+"]

  /** The lower bounds of the bands after the first: band k covers [BandThresholds[k - 1], BandThresholds[k]). */
  const BandThresholds: seq<real> := [0.6, 0.85, 1.35, 1.85, 2.6, 3.3]

  /** Band k is the right one for xg (negative values count as 0). */
  predicate InBand(xg: real, k: nat)
    requires k < |TeamBands|
  {
    (k == 0 || BandThresholds[k - 1] <= Max(0.0, xg)) && (k == |TeamBands| - 1 || Max(0.0, xg) < BandThresholds[k])
  }

  /** The index into TeamBands for an expected-goals value. */
  function TeamBandIndex(xg: real): (k: nat)
    ensures k < |TeamBands|
    ensures InBand(xg, k)
    ensures k == 0 <==> xg < 0.6
    ensures k == |TeamBands| - 1 <==> xg >= 3.3
  {
    var x := Max(0.0, xg);
    if x < 0.6 then 0
    else if x < 0.85 then 1
    else if x < 1.35 then 2
    else if x < 1.85 then 3
    else if x < 2.6 then 4
    else if x < 3.3 then 5
    else 6
  }

  /** At most one band fits a value, so the band found is the only one. */
  lemma BandsDisjoint(xg: real, j: nat, k: nat)
    requires j < |TeamBands| && k < |TeamBands|
    requires InBand(xg, j) && InBand(xg, k)
    ensures j == k
  {
  }

  /** The multigoal band of one team from its expected goals: the label of the band its value falls in. */
  function TeamMultigoal(xg: real): (r: string)
    ensures r in TeamBands
    ensures forall k :: 0 <= k < |TeamBands| && InBand(xg, k) ==> r == TeamBands[k]
  {
    var k := TeamBandIndex(xg);
    forall j | 0 <= j < |TeamBands| && InBand(xg, j) ensures j == k {
      BandsDisjoint(xg, j, k);
    }
    TeamBands[k]
  }

  /** More expected goals never give a lower band. */
  lemma TeamBandMonotone(x: real, y: real)
    requires x <= y
    ensures TeamBandIndex(x) <= TeamBandIndex(y)
  {
  }

  // ---------------------------------------------------------------------
  // Combination picks

  datatype Combos = Combos(resultOver15: string, resultOver25: string, resultBothScore: string,
                           resultMultigoal: string, chanceBothScore: string, chanceOver15: string,
                           chanceOver25: string, chanceMultigoal: string)

  /** Two picks joined by " + "; never a no-bet sentinel, which contain no '+'. */
  function Join(a: string, b: string): (r: string)
    ensures r != NoBet && r != NoBetSpaced
  {
    var r := a + " + " + b;
    assert r[|a| + 1] == '+';
    assert forall i | 0 <= i < |NoBet| :: NoBet[i] != '+';
    assert forall i | 0 <= i < |NoBetSpaced| :: NoBetSpaced[i] != '+';
    r
  }

  /** A combo voided only on "NoBet", and, when `spaced` holds, also on "No bet". */
  function Combine(a: string, b: string, spaced: bool): (r: string)
    ensures a == NoBet || b == NoBet ==> r == NoBet
    ensures spaced && (a == NoBetSpaced || b == NoBetSpaced) ==> r == NoBet
    ensures a != NoBet && b != NoBet && (!spaced || (a != NoBetSpaced && b != NoBetSpaced)) ==> r == Join(a, b)
  {
    if a == NoBet || b == NoBet then NoBet
    else if spaced && (a == NoBetSpaced || b == NoBetSpaced) then NoBet
    else Join(a, b)
  }

  /**
   * The combination block as the source writes it: only the combos with an
   * under/over constituent also test for "No bet"; the 1X2 + GG/NG and
   * 1X2 + multigoal combos test only for "NoBet".
   */
  function CombosAsWritten(result: string, over15: string, over25: string, bothScore: string,
                           multigoal: string, chance: string): (c: Combos)
    ensures c.resultBothScore == Combine(result, bothScore, false)
    ensures c.resultMultigoal == Combine(result, multigoal, false)
    ensures c.resultOver15 == Combine(result, over15, true)
    ensures c.chanceOver25 == Combine(chance, over25, true)
  {
    Combos(Combine(result, over15, true), Combine(result, over25, true),
           Combine(result, bothScore, false), Combine(result, multigoal, false),
           Combine(chance, bothScore, false), Combine(chance, over15, true),
           Combine(chance, over25, true), Combine(chance, multigoal, false))
  }

  /** A 1X2 "No bet" leaks into the 1X2 + GG/NG and 1X2 + multigoal combos. */
  lemma NoBetLeaksIntoCombos()
    ensures var result := Result1X2(0.40, 0.30, 0.30);
      var c := CombosAsWritten(result, "Over", "Under", "Gol", "2-4", "1X");
      && result == NoBetSpaced
      && c.resultBothScore == "No bet + Gol"
      && c.resultMultigoal == "No bet + 2-4"
  {
    NoBetExample();
  }

  predicate Undecided(pick: string)
  {
    pick == NoBet || pick == NoBetSpaced
  }

  /** The combination block with every combo voided on either sentinel. */
  function CombosVoided(result: string, over15: string, over25: string, bothScore: string,
                        multigoal: string, chance: string): (c: Combos)
    ensures Undecided(result) || Undecided(bothScore) <==> c.resultBothScore == NoBet
    ensures Undecided(result) || Undecided(multigoal) <==> c.resultMultigoal == NoBet
    ensures Undecided(result) || Undecided(over15) <==> c.resultOver15 == NoBet
    ensures Undecided(result) || Undecided(over25) <==> c.resultOver25 == NoBet
    ensures Undecided(chance) || Undecided(bothScore) <==> c.chanceBothScore == NoBet
    ensures Undecided(chance) || Undecided(over15) <==> c.chanceOver15 == NoBet
    ensures Undecided(chance) || Undecided(over25) <==> c.chanceOver25 == NoBet
    ensures Undecided(chance) || Undecided(multigoal) <==> c.chanceMultigoal == NoBet
  {
    Combos(Combine(result, over15, true), Combine(result, over25, true),
           Combine(result, bothScore, true), Combine(result, multigoal, true),
           Combine(chance, bothScore, true), Combine(chance, over15, true),
           Combine(chance, over25, true), Combine(chance, multigoal, true))
  }

  /**
   * On the picks the markets actually produce, the two blocks differ only in
   * the two combos that pair the 1X2 pick with a "NoBet"-style market.
   */
  lemma CombosAgreeExceptLeaks(result: string, over15: string, over25: string, bothScore: string,
                               multigoal: string, chance: string)
    requires bothScore != NoBetSpaced && multigoal != NoBetSpaced && chance != NoBetSpaced
    ensures var w := CombosAsWritten(result, over15, over25, bothScore, multigoal, chance);
      var v := CombosVoided(result, over15, over25, bothScore, multigoal, chance);
      && w.resultOver15 == v.resultOver15 && w.resultOver25 == v.resultOver25
      && w.chanceBothScore == v.chanceBothScore && w.chanceOver15 == v.chanceOver15
      && w.chanceOver25 == v.chanceOver25 && w.chanceMultigoal == v.chanceMultigoal
      && (result != NoBetSpaced ==> w == v)
  {
  }
}
