/**
 * Markets on the secondary statistics (corners, shots, shots on target,
 * fouls, yellow cards): the expected home, away and total values, the
 * referee's reweighting of fouls and cards, the statistic's 1X2 call and the
 * under/over lines offered around each expectation.
 */
module SecondaryStats {
  import opened Common
  import opened Records

  /** The statistics the prediction run covers, in its order. */
  const Covered: seq<Stat> := [Corners, Shots, ShotsOnTarget, Fouls, Yellows]

  /** Expected values for one fixture: home, away and total. */
  datatype Expectation = Expectation(home: real, away: real, total: real)

  /** The fixed expectation used when a team's statistics or the league means are missing. */
  function Fallback(stat: Stat): (e: Expectation)
    ensures e.total == e.home + e.away
    ensures stat in Covered ==> e.home >= e.away > 0.0
  {
    match stat
    case Corners => Expectation(5.0, 4.0, 9.0)
    case Shots => Expectation(12.0, 10.0, 22.0)
    case ShotsOnTarget => Expectation(4.0, 3.0, 7.0)
    case Fouls => Expectation(11.0, 11.0, 22.0)
    case Yellows => Expectation(2.0, 2.0, 4.0)
    case _ => Expectation(1.0, 1.0, 2.0)
  }

  /**
   * The league-mean defaults as the chain of substring tests selects them:
   * the first of "corner", "tiri", "tiri_porta", "gialli" contained in the
   * statistic's name decides, else 11.
   */
  function DefaultMeansAsWritten(name: string): (real, real)
  {
    if IsSubstring("corner", name) then (5.0, 4.0)
    else if IsSubstring("tiri", name) then (12.0, 10.0)
    else if IsSubstring("tiri_porta", name) then (4.0, 3.0)
    else if IsSubstring("gialli", name) then (2.0, 2.0)
    else (11.0, 11.0)
  }

  /** The league-mean defaults by statistic; shots on target get the values of its fallback. */
  function DefaultMeans(stat: Stat): (d: (real, real))
    ensures stat in Covered ==> d.0 == Fallback(stat).home && d.1 == Fallback(stat).away
  {
    match stat
    case Corners => (5.0, 4.0)
    case Shots => (12.0, 10.0)
    case ShotsOnTarget => (4.0, 3.0)
    case Yellows => (2.0, 2.0)
    case _ => (11.0, 11.0)
  }

  /**
   * "tiri" is contained in "tiri_porta", so the substring chain gives shots
   * on target the defaults of total shots and never reaches its own branch.
   */
  lemma ShotsOnTargetTakesShotDefaults()
    ensures DefaultMeansAsWritten(ShotsOnTarget.Name()) == (12.0, 10.0)
    ensures DefaultMeans(ShotsOnTarget) == (4.0, 3.0)
  {
    var name := ShotsOnTarget.Name();
    assert name[..4] == "tiri";
    assert IsSubstring("tiri", name);
    AbsentFirstChar("corner", name);
  }

  /** On every other covered statistic the substring chain and the corrected table agree. */
  lemma DefaultsAgreeOffShotsOnTarget(stat: Stat)
    requires stat in Covered && stat != ShotsOnTarget
    ensures DefaultMeansAsWritten(stat.Name()) == DefaultMeans(stat)
  {
    var name := stat.Name();
    match stat
    case Corners =>
      assert name[..6] == "corner";
    case Shots =>
      assert |name| < 6;
      assert name[..4] == "tiri";
    case Fouls =>
      AbsentFirstChar("corner", name);
      AbsentFirstChar("tiri", name);
      AbsentFirstChar("tiri_porta", name);
      AbsentFirstChar("gialli", name);
    case Yellows =>
      AbsentFirstChar("corner", name);
      AbsentFirstChar("tiri", name);
      AbsentFirstChar("tiri_porta", name);
      assert name[..6] == "gialli";
  }

  /** A needle whose first character does not occur in hay is not a substring of it. */
  lemma {:induction false} AbsentFirstChar(needle: string, hay: string)
    requires needle != [] && needle[0] !in hay
    ensures !IsSubstring(needle, hay)
    decreases |hay|
  {
    if |needle| <= |hay| {
      assert hay[..|needle|][0] == hay[0];
      assert forall c :: c in hay[1..] ==> c in hay;
      AbsentFirstChar(needle, hay[1..]);
    }
  }

  /** One side's estimate: attack strength x opponent's defence strength x league mean. */
  function SideEstimate(team: Row, opp: Row, league: Row, stat: Stat, role: Role, defaultMean: real): real
  {
    Get(team, "forza_attacco_" + stat.Name() + "_" + role.Name() + "_generale_recente", 1.0)
    * Get(opp, "forza_difesa_" + stat.Name() + "_" + role.Opposite().Name() + "_generale_recente", 1.0)
    * Get(league, MeanKey(stat, role), defaultMean)
  }

  /**
   * The expected home, away and total values of a statistic: the fallback
   * when any input is empty, else the two side estimates floored at 0.1 and
   * their unfloored sum floored at 0.2.
   */
  function Expected(stat: Stat, home: Row, away: Row, league: Row): (e: Expectation)
    ensures home == map[] || away == map[] || league == map[] ==> e == Fallback(stat)
    ensures home != map[] && away != map[] && league != map[] ==>
      && e.home == Max(0.1, SideEstimate(home, away, league, stat, Home, DefaultMeans(stat).0))
      && e.away == Max(0.1, SideEstimate(away, home, league, stat, Away, DefaultMeans(stat).1))
      && e.total == Max(0.2, SideEstimate(home, away, league, stat, Home, DefaultMeans(stat).0)
                             + SideEstimate(away, home, league, stat, Away, DefaultMeans(stat).1))
    ensures stat in Covered ==> e.home >= 0.1 && e.away >= 0.1 && e.total >= 0.2
  {
    if home == map[] || away == map[] || league == map[] then Fallback(stat)
    else
      var (homeMean, awayMean) := DefaultMeans(stat);
      var h := SideEstimate(home, away, league, stat, Home, homeMean);
      var a := SideEstimate(away, home, league, stat, Away, awayMean);
      Expectation(Max(0.1, h), Max(0.1, a), Max(0.2, h + a))
  }

  /** When neither side estimate is under its floor, the total is the sum of the two sides. */
  lemma TotalIsSumOfSides(stat: Stat, home: Row, away: Row, league: Row)
    requires home != map[] && away != map[] && league != map[]
    requires SideEstimate(home, away, league, stat, Home, DefaultMeans(stat).0) >= 0.1
    requires SideEstimate(away, home, league, stat, Away, DefaultMeans(stat).1) >= 0.1
    ensures var e := Expected(stat, home, away, league); e.total == e.home + e.away
  {
  }

  /** The league-mean key a side's estimate looks up. */
  function MeanKey(stat: Stat, role: Role): string
  {
    "media_" + stat.Name() + "_" + role.Name() + "_campionato"
  }

  /**
   * The estimates differ from those of the substring chain only for shots on
   * target with a league row that lacks one of its means: for every other
   * covered statistic, and whenever both means are listed, the chain's
   * defaults give the same sides.
   */
  lemma ExpectedAgreesWithChain(stat: Stat, home: Row, away: Row, league: Row)
    requires stat in Covered
    requires stat == ShotsOnTarget ==> MeanKey(stat, Home) in league && MeanKey(stat, Away) in league
    ensures var chain := DefaultMeansAsWritten(stat.Name());
      SideEstimate(home, away, league, stat, Home, chain.0) == SideEstimate(home, away, league, stat, Home, DefaultMeans(stat).0) &&
      SideEstimate(away, home, league, stat, Away, chain.1) == SideEstimate(away, home, league, stat, Away, DefaultMeans(stat).1)
  {
    if stat != ShotsOnTarget {
      DefaultsAgreeOffShotsOnTarget(stat);
    }
  }


  predicate StartsWith(s: string, prefix: string)
  {
    |prefix| <= |s| && s[..|prefix|] == prefix
  }

  /** With no strength columns in either row, a side's estimate is its league mean, or the default where that is missing too. */
  lemma NeutralSideEstimate(team: Row, opp: Row, league: Row, stat: Stat, role: Role, defaultMean: real)
    requires forall k :: k in team ==> !StartsWith(k, "forza_")
    requires forall k :: k in opp ==> !StartsWith(k, "forza_")
    ensures SideEstimate(team, opp, league, stat, role, defaultMean) == Get(league, MeanKey(stat, role), defaultMean)
  {
    var attack := "forza_attacco_" + stat.Name() + "_" + role.Name() + "_generale_recente";
    var defence := "forza_difesa_" + stat.Name() + "_" + role.Opposite().Name() + "_generale_recente";
    assert attack[..6] == "forza_" && defence[..6] == "forza_";
    assert attack !in team && defence !in opp;
  }

  /** With no strength columns the estimates are the league means, or the defaults where those are missing too. */
  lemma NeutralStrengthsGiveLeagueMeans(stat: Stat, home: Row, away: Row, league: Row)
    requires home != map[] && away != map[] && league != map[]
    requires forall k :: k in home ==> !StartsWith(k, "forza_")
    requires forall k :: k in away ==> !StartsWith(k, "forza_")
    ensures var e := Expected(stat, home, away, league);
      && e.home == Max(0.1, Get(league, MeanKey(stat, Home), DefaultMeans(stat).0))
      && e.away == Max(0.1, Get(league, MeanKey(stat, Away), DefaultMeans(stat).1))
  {
    NeutralSideEstimate(home, away, league, stat, Home, DefaultMeans(stat).0);
    NeutralSideEstimate(away, home, league, stat, Away, DefaultMeans(stat).1);
  }

  /** With neutral strengths and no league mean, shots on target get 4 + 3 where the chain gives 12 + 10. */
  lemma ShotsOnTargetDefaultsDiffer(home: Row, away: Row, league: Row)
    requires home != map[] && away != map[] && league != map[]
    requires forall k :: k in home ==> !StartsWith(k, "forza_")
    requires forall k :: k in away ==> !StartsWith(k, "forza_")
    requires MeanKey(ShotsOnTarget, Home) !in league && MeanKey(ShotsOnTarget, Away) !in league
    ensures Expected(ShotsOnTarget, home, away, league) == Expectation(4.0, 3.0, 7.0)
    ensures SideEstimate(home, away, league, ShotsOnTarget, Home, DefaultMeansAsWritten(ShotsOnTarget.Name()).0) == 12.0
    ensures SideEstimate(away, home, league, ShotsOnTarget, Away, DefaultMeansAsWritten(ShotsOnTarget.Name()).1) == 10.0
  {
    ShotsOnTargetTakesShotDefaults();
    NeutralSideEstimate(home, away, league, ShotsOnTarget, Home, 4.0);
    NeutralSideEstimate(away, home, league, ShotsOnTarget, Away, 3.0);
    NeutralSideEstimate(home, away, league, ShotsOnTarget, Home, 12.0);
    NeutralSideEstimate(away, home, league, ShotsOnTarget, Away, 10.0);
  }

  // ---------------------------------------------------------------------
  // Referee reweighting

  /**
   * Moves the total towards the referee's per-game rate with weight w on the
   * model, and rescales both sides in proportion when the old total exceeds 0.1.
   */
  function Rescale(e: Expectation, rate: real, w: real): (r: Expectation)
    ensures r.total == e.total * w + rate * (1.0 - w)
    ensures e.total > 0.1 ==> r.home * e.total == e.home * r.total && r.away * e.total == e.away * r.total
    ensures e.total <= 0.1 ==> r.home == e.home && r.away == e.away
  {
    var total := e.total * w + rate * (1.0 - w);
    if e.total > 0.1 then Expectation(e.home / e.total * total, e.away / e.total * total, total)
    else Expectation(e.home, e.away, total)
  }

  /**
   * Fouls and yellow cards are pulled towards a found referee's rates (weights
   * 0.7 and 0.6 on the model). The lookups' own fallback, half the model's
   * total, never applies, because the loader always supplies both rates.
   */
  function Reweighted(stat: Stat, e: Expectation, referee: Option<Referee>): (r: Expectation)
    ensures referee.None? || !referee.value.statsFound || (stat != Fouls && stat != Yellows) ==> r == e
    ensures stat == Fouls && referee.Some? && referee.value.statsFound ==>
      r == Rescale(e, referee.value.foulsPerGame, 0.7)
    ensures stat == Yellows && referee.Some? && referee.value.statsFound ==>
      r == Rescale(e, referee.value.yellowsPerGame, 0.6)
  {
    if referee.None? || !referee.value.statsFound then e
    else if stat == Fouls then
      Rescale(e, referee.value.foulsPerGame, 0.7)
    else if stat == Yellows then
      Rescale(e, referee.value.yellowsPerGame, 0.6)
    else e
  }

  /** When the sides add up to the total before the rescale, they still do after it. */
  lemma RescaleKeepsSidesSummed(e: Expectation, rate: real, w: real)
    requires e.total > 0.1 && e.home + e.away == e.total
    ensures var r := Rescale(e, rate, w); r.home + r.away == r.total
  {
    var t := e.total * w + rate * (1.0 - w);
    calc {
      e.home / e.total * t + e.away / e.total * t;
      (e.home + e.away) / e.total * t;
      t;
    }
  }

  /** Without a referee file nothing is reweighted. */
  lemma UnknownRefereeChangesNothing(stat: Stat, e: Expectation)
    ensures Reweighted(stat, e, Some(LoadReferee(None))) == e
  {
  }

  /** A referee file without a foul rate pulls fouls towards the loader's 22 per game. */
  lemma MissingFoulRateUsesLoaderDefault(e: Expectation, json: Row)
    requires "falli_pg" !in json
    ensures Reweighted(Fouls, e, Some(LoadReferee(Some(json)))) == Rescale(e, 22.0, 0.7)
  {
  }

  /** A referee whose rate equals the model's own total leaves the total unchanged. */
  lemma AgreeingRefereeChangesNothing(e: Expectation, w: real)
    requires e.total > 0.1
    ensures Rescale(e, e.total, w) == e
  {
    var r := Rescale(e, e.total, w);
    assert r.total == e.total;
  }

  // ---------------------------------------------------------------------
  // The statistic's 1X2 call

  /** The margin by which one side's expectation must exceed the other's for a "1" or "2". */
  function Margin(stat: Stat): (m: real)
    ensures m > 0.0
  {
    match stat
    case Corners => 1.1
    case Shots => 1.5
    case ShotsOnTarget => 0.75
    case Fouls => 1.2
    case Yellows => 0.65
    case _ => 0.5
  }

  function StatResult(stat: Stat, home: real, away: real): (r: string)
    ensures r == "1" <==> home > away + Margin(stat)
    ensures r == "2" <==> away > home + Margin(stat)
    ensures r == "X" <==> Abs(home - away) <= Margin(stat)
  {
    if home > away + Margin(stat) then "1"
    else if away > home + Margin(stat) then "2"
    else "X"
  }

  /** Swapping the two sides' expectations swaps "1" and "2" and keeps "X". */
  lemma StatResultSymmetric(stat: Stat, home: real, away: real)
    ensures var r, s := StatResult(stat, home, away), StatResult(stat, away, home);
      (r == "1" <==> s == "2") && (r == "X" <==> s == "X")
  {
  }

  // ---------------------------------------------------------------------
  // Under/over lines

  /** A half line: some integer plus one half. */
  predicate IsHalfLine(x: real)
  {
    (x - 0.5).Floor as real == x - 0.5
  }

  lemma FloorOfWhole(n: int)
    ensures (n as real).Floor == n
  {
  }

  /** The half line nearest to m, taking the lower one when m is a whole number. */
  function NormalizeLine(m: real): (r: real)
    ensures IsHalfLine(r)
    ensures m - 0.5 <= r < m + 0.5
  {
    var f := m.Floor;
    if m > f as real then
      FloorOfWhole(f);
      f as real + 0.5
    else
      FloorOfWhole(f - 1);
      f as real - 0.5
  }

  /** Only one half line lies in [m - 0.5, m + 0.5), so NormalizeLine is determined by its contract. */
  lemma NormalizeLineUnique(m: real, x: real)
    requires IsHalfLine(x) && m - 0.5 <= x < m + 0.5
    ensures x == NormalizeLine(m)
  {
    var r := NormalizeLine(m);
    var a, b := (x - 0.5).Floor, (r - 0.5).Floor;
    assert a as real == x - 0.5 && b as real == r - 0.5;
    assert -1.0 < (a - b) as real < 1.0;
  }

  /** The index of the line nearest to m; on ties the first (Python's min with a key). */
  function Nearest(lines: seq<real>, m: real): (k: nat)
    requires lines != []
    ensures k < |lines|
    ensures forall j :: 0 <= j < |lines| ==> Abs(lines[k] - m) <= Abs(lines[j] - m)
    ensures forall j :: 0 <= j < k ==> Abs(lines[k] - m) < Abs(lines[j] - m)
  {
    if |lines| == 1 then 0
    else
      var k := Nearest(lines[..|lines| - 1], m);
      if Abs(lines[|lines| - 1] - m) < Abs(lines[k] - m) then |lines| - 1 else k
  }

  /** The over line and the under line offered for an expectation. */
  datatype LinePair = LinePair(over: real, under: real)

  /**
   * Without a line table, half lines an offset below and above the
   * expectation (offset max(0.5, m/10) for positive m); with a table, one
   * below and one above the table's line nearest to m.
   */
  function Lines(m: real, table: seq<real>): (r: LinePair)
    ensures (forall i :: 0 <= i < |table| ==> table[i] > 0.0) ==> r.over < r.under
    ensures table == [] ==> r.over >= 0.5 && (r.over <= m || r.over == 0.5) && r.under >= m
    ensures table == [] ==> IsHalfLine(r.over) && IsHalfLine(r.under)
    ensures table != [] ==> var near := table[Nearest(table, m)];
      && r.under == near + 1.0
      && r.over == (if near - 1.0 >= 0.0 then near - 1.0 else 0.5)
  {
    if table == [] then
      var offset := if m > 0.0 then Max(0.5, m * 0.1) else 0.5;
      var over := NormalizeLine(m - offset);
      var over' := if over < 0.0 then 0.5 else over;
      assert over' >= 0.5 by {
        if over >= 0.0 {
          var f := (over - 0.5).Floor;
          assert f as real == over - 0.5 && f >= 0;
        }
      }
      var under := NormalizeLine(m + offset);
      var under' := if under <= over' then over' + 1.0 else under;
      assert IsHalfLine(under') by {
        if under <= over' {
          assert ((over' + 1.0) - 0.5).Floor == (over' - 0.5).Floor + 1;
        }
      }
      LinePair(over', under')
    else
      var near := table[Nearest(table, m)];
      LinePair(if near - 1.0 >= 0.0 then near - 1.0 else 0.5, near + 1.0)
  }

  /** The total lines of each statistic; the per-team lines are these halved. */
  function LineTable(stat: Stat): (t: seq<real>)
    ensures stat in Covered <==> t != []
    ensures forall i :: 0 <= i < |t| ==> t[i] > 0.0
  {
    match stat
    case Corners => [7.5, 8.5, 9.5, 10.5, 11.5, 12.5]
    case Shots => [19.5, 21.5, 23.5, 25.5, 27.5, 29.5]
    case ShotsOnTarget => [6.5, 7.5, 8.5, 9.5, 10.5, 11.5]
    case Fouls => [19.5, 21.5, 22.5, 23.5, 25.5, 27.5]
    case Yellows => [2.5, 3.5, 4.5, 5.5, 6.5]
    case _ => []
  }

  function Halved(t: seq<real>): (h: seq<real>)
    ensures |h| == |t| && forall i :: 0 <= i < |t| ==> h[i] * 2.0 == t[i]
  {
    seq(|t|, i requires 0 <= i < |t| => t[i] / 2.0)
  }

  /** All the markets of one secondary statistic. */
  datatype StatMarkets = StatMarkets(expectation: Expectation, result: string,
                                     total: LinePair, home: LinePair, away: LinePair)

  function Markets(stat: Stat, home: Row, away: Row, league: Row, referee: Option<Referee>): (m: StatMarkets)
    ensures m.expectation == Reweighted(stat, Expected(stat, home, away, league), referee)
    ensures m.result == StatResult(stat, m.expectation.home, m.expectation.away)
    ensures m.total == Lines(m.expectation.total, LineTable(stat))
    ensures m.home == Lines(m.expectation.home, Halved(LineTable(stat)))
    ensures m.away == Lines(m.expectation.away, Halved(LineTable(stat)))
    ensures m.total.over < m.total.under && m.home.over < m.home.under && m.away.over < m.away.under
  {
    var e := Reweighted(stat, Expected(stat, home, away, league), referee);
    var table := LineTable(stat);
    StatMarkets(e, StatResult(stat, e.home, e.away),
                Lines(e.total, table), Lines(e.home, Halved(table)), Lines(e.away, Halved(table)))
  }
}
