/**
 * The per-team strength and form builder: for every team of the current
 * season, a window of recent matches (current season, topped up from the
 * previous one), the team's scored and conceded averages by role, its attack
 * and defence strengths relative to the league means, and a form index over
 * its last seven current-season matches weighted by recency and by the
 * opponent's standing.
 */
module Strength {
  import opened Common
  import opened Records

  const WindowSize: nat := 38
  const CurrentSeasonThreshold: nat := 19
  const MinWindowMatches: nat := 8
  const FormMatches: nat := 7
  const MinFormMatches: nat := 3

  const AllStats: seq<Stat> := [Goals, FirstHalfGoals, Shots, ShotsOnTarget, Corners, Fouls, Yellows, Reds]

  /** A row of the standings file: team name and position. */
  datatype Standing = Standing(team: string, position: int)

  // ---------------------------------------------------------------------
  // Form

  /** League points the team took from a match: 3 for a win, 1 for a draw, 0 for a loss. */
  function Points(m: Match, team: string): (p: nat)
    ensures p == 0 || p == 1 || p == 3
  {
    var (scored, conceded) := if m.home == team then (m.homeCounts.goals, m.awayCounts.goals)
                              else (m.awayCounts.goals, m.homeCounts.goals);
    if scored > conceded then 3 else if scored == conceded then 1 else 0
  }

  function Opponent(m: Match, team: string): string
  {
    if m.home == team then m.away else m.home
  }

  /** Team name to position; a team listed twice keeps its last position. */
  function Positions(standings: seq<Standing>): (r: map<string, int>)
    ensures forall t :: t in r <==> exists i :: 0 <= i < |standings| && standings[i].team == t
    ensures forall t :: t in r ==> exists i :: 0 <= i < |standings| && standings[i] == Standing(t, r[t])
  {
    if standings == [] then map[]
    else
      var last := standings[|standings| - 1];
      Positions(standings[..|standings| - 1])[last.team := last.position]
  }

  /** The opponent's position, or half the table size when the opponent is not listed. */
  function PositionOf(positions: map<string, int>, n: nat, team: string): real
  {
    if team in positions then positions[team] as real else n as real / 2.0
  }

  /** (n - position + 1) / n: 1 against the leader, 1/n against the last team. */
  function Difficulty(position: real, n: nat): real
    requires n > 0
  {
    (n as real - position + 1.0) / n as real
  }

  /** The weighted points of the k-th recent match (from 1): points x k x the opponent's difficulty. */
  function Term(m: Match, k: nat, team: string, positions: map<string, int>, n: nat): real
    requires n > 0
  {
    Points(m, team) as real * k as real * Difficulty(PositionOf(positions, n, Opponent(m, team)), n)
  }

  /** The weighted points of a match list. */
  function Score(ms: seq<Match>, team: string, positions: map<string, int>, n: nat): real
    requires n > 0
  {
    if ms == [] then 0.0
    else Score(ms[..|ms| - 1], team, positions, n) + Term(ms[|ms| - 1], |ms|, team, positions, n)
  }

  /** The greatest possible weighted points of k matches: 3 x (1 + 2 + ... + k). */
  function MaxScore(k: nat): (r: nat)
    ensures k > 0 ==> r >= 3
  {
    if k == 0 then 0 else MaxScore(k - 1) + 3 * k
  }

  lemma {:induction false} MaxScoreClosedForm(k: nat)
    ensures 2 * MaxScore(k) == 3 * k * (k + 1)
  {
    if k > 0 {
      MaxScoreClosedForm(k - 1);
      assert 3 * k * (k + 1) == 3 * (k - 1) * k + 6 * k;
    }
  }

  /**
   * The form index: 0 for fewer than three matches or no standings, else
   * the weighted points of the last seven matches over their maximum.
   */
  function FormIndex(ms: seq<Match>, team: string, standings: seq<Standing>): real
  {
    if ms == [] || standings == [] || |ms| < MinFormMatches then 0.0
    else
      var recent := Last(ms, FormMatches);
      Score(recent, team, Positions(standings), |standings|) / MaxScore(|recent|) as real
  }

  /** The form computation as a loop over the recent matches. */
  method Form(ms: seq<Match>, team: string, standings: seq<Standing>) returns (form: real)
    ensures form == FormIndex(ms, team, standings)
  {
    if ms == [] || standings == [] || |ms| < MinFormMatches {
      return 0.0;
    }
    var recent := Last(ms, FormMatches);
    var n := |standings|;
    var positions := Positions(standings);
    var score, maximum := 0.0, 0;
    var i := 0;
    while i < |recent|
      invariant 0 <= i <= |recent|
      invariant score == Score(recent[..i], team, positions, n)
      invariant maximum == MaxScore(i)
    {
      assert recent[..i + 1][..i] == recent[..i];
      assert recent[..i + 1][i] == recent[i];
      score := score + Term(recent[i], i + 1, team, positions, n);
      maximum := maximum + 3 * (i + 1);
      i := i + 1;
    }
    assert recent[..i] == recent;
    form := if maximum > 0 then score / maximum as real else 0.0;
  }

  lemma TermBound(m: Match, k: nat, team: string, positions: map<string, int>, n: nat)
    requires n > 0
    requires 0.0 < Difficulty(PositionOf(positions, n, Opponent(m, team)), n) <= 1.0
    ensures 0.0 <= Term(m, k, team, positions, n) <= 3.0 * k as real
  {
    var d := Difficulty(PositionOf(positions, n, Opponent(m, team)), n);
    var x := Points(m, team) as real * k as real;
    assert 0.0 <= x <= 3.0 * k as real;
    MulNonNegative(x, d);
    MulNonNegative(x, 1.0 - d);
    assert Term(m, k, team, positions, n) == x * d;
  }

  /** The difficulty of every opponent, listed or not, lies in (0, 1] for a well-formed table of at least two teams. */
  lemma DifficultyInRange(standings: seq<Standing>, team: string)
    requires |standings| >= 2
    requires forall i :: 0 <= i < |standings| ==> 1 <= standings[i].position <= |standings|
    ensures var n := |standings|;
      0.0 < Difficulty(PositionOf(Positions(standings), n, team), n) <= 1.0
  {
    var n := |standings|;
    var position := PositionOf(Positions(standings), n, team);
    PositionInTable(standings, team);
    RatioInUnit(n as real - position + 1.0, n as real);
  }

  /** A listed team's position, or the default n / 2, lies in [1, n]. */
  lemma PositionInTable(standings: seq<Standing>, team: string)
    requires |standings| >= 2
    requires forall i :: 0 <= i < |standings| ==> 1 <= standings[i].position <= |standings|
    ensures 1.0 <= PositionOf(Positions(standings), |standings|, team) <= |standings| as real
  {
    var positions := Positions(standings);
    if team in positions {
      var i :| 0 <= i < |standings| && standings[i] == Standing(team, positions[team]);
      assert 1 <= positions[team] <= |standings|;
    }
  }

  lemma RatioInUnit(a: real, b: real)
    requires 0.0 < a <= b
    ensures 0.0 < a / b <= 1.0
  {
  }

  /** Every opponent, listed or not, has a difficulty in (0, 1]. */
  ghost predicate DifficultiesInRange(positions: map<string, int>, n: nat)
    requires n > 0
  {
    forall t :: 0.0 < Difficulty(PositionOf(positions, n, t), n) <= 1.0
  }

  lemma {:induction false} ScoreBounds(ms: seq<Match>, team: string, positions: map<string, int>, n: nat)
    requires n > 0 && DifficultiesInRange(positions, n)
    ensures 0.0 <= Score(ms, team, positions, n) <= MaxScore(|ms|) as real
  {
    if ms != [] {
      var m, k := ms[|ms| - 1], |ms|;
      ScoreBounds(ms[..k - 1], team, positions, n);
      assert 0.0 < Difficulty(PositionOf(positions, n, Opponent(m, team)), n) <= 1.0;
      TermBound(m, k, team, positions, n);
      var term := Term(m, k, team, positions, n);
      assert Score(ms, team, positions, n) == Score(ms[..k - 1], team, positions, n) + term;
      assert MaxScore(k) as real == MaxScore(k - 1) as real + 3.0 * k as real;
    }
  }

  /** With positions 1..n in a table of at least two teams, the form index lies in [0, 1]. */
  lemma FormInUnitRange(ms: seq<Match>, team: string, standings: seq<Standing>)
    requires |standings| >= 2
    requires forall i :: 0 <= i < |standings| ==> 1 <= standings[i].position <= |standings|
    ensures 0.0 <= FormIndex(ms, team, standings) <= 1.0
  {
    if !(ms == [] || standings == [] || |ms| < MinFormMatches) {
      var recent := Last(ms, FormMatches);
      var positions, n := Positions(standings), |standings|;
      forall t ensures 0.0 < Difficulty(PositionOf(positions, n, t), n) <= 1.0 {
        DifficultyInRange(standings, t);
      }
      ScoreBounds(recent, team, positions, n);
      var score, maximum := Score(recent, team, positions, n), MaxScore(|recent|) as real;
      RatioAtMostOne(score, maximum);
    }
  }

  lemma RatioAtMostOne(a: real, b: real)
    requires 0.0 <= a <= b && b > 0.0
    ensures 0.0 <= a / b <= 1.0
  {
  }

  lemma {:induction false} ScoreOfWinsOverLeader(ms: seq<Match>, team: string, positions: map<string, int>, n: nat)
    requires n > 0
    requires forall i :: 0 <= i < |ms| ==> Points(ms[i], team) == 3 && PositionOf(positions, n, Opponent(ms[i], team)) == 1.0
    ensures Score(ms, team, positions, n) == MaxScore(|ms|) as real
  {
    if ms != [] {
      var k := |ms|;
      var init, m := ms[..k - 1], ms[k - 1];
      forall i | 0 <= i < |init|
        ensures Points(init[i], team) == 3 && PositionOf(positions, n, Opponent(init[i], team)) == 1.0
      {
        assert init[i] == ms[i];
      }
      ScoreOfWinsOverLeader(init, team, positions, n);
      WinOverLeaderTerm(m, k, team, positions, n);
    }
  }

  /** A win over the leader as the k-th match is worth exactly 3k. */
  lemma WinOverLeaderTerm(m: Match, k: nat, team: string, positions: map<string, int>, n: nat)
    requires n > 0
    requires Points(m, team) == 3 && PositionOf(positions, n, Opponent(m, team)) == 1.0
    ensures Term(m, k, team, positions, n) == 3.0 * k as real
  {
    var d := Difficulty(PositionOf(positions, n, Opponent(m, team)), n);
    assert d == n as real / n as real;
  }

  /** Winning each of the recent matches against the leader gives the greatest form, 1. */
  lemma WinsOverLeaderGiveFullForm(ms: seq<Match>, team: string, standings: seq<Standing>)
    requires standings != [] && |ms| >= MinFormMatches
    requires forall i :: 0 <= i < |ms| ==> Points(ms[i], team) == 3
    requires forall i :: 0 <= i < |ms| ==> Opponent(ms[i], team) in Positions(standings) && Positions(standings)[Opponent(ms[i], team)] == 1
    ensures FormIndex(ms, team, standings) == 1.0
  {
    var recent := Last(ms, FormMatches);
    var positions, n := Positions(standings), |standings|;
    forall i | 0 <= i < |recent|
      ensures Points(recent[i], team) == 3 && PositionOf(positions, n, Opponent(recent[i], team)) == 1.0
    {
      assert recent[i] == ms[|ms| - |recent| + i];
    }
    ScoreOfWinsOverLeader(recent, team, positions, n);
    SelfRatio(Score(recent, team, positions, n), MaxScore(|recent|) as real);
  }

  lemma SelfRatio(a: real, b: real)
    requires a == b && b > 0.0
    ensures a / b == 1.0
  {
  }

  // ---------------------------------------------------------------------
  // Teams, promotion and the analysis window

  /**
   * Every team that appears in a list of matches, as a set: the strength
   * computation only asks whether a team is present. The league table keeps
   * its own ordered list of teams (LeagueTable.Teams) because it ranks them.
   */
  function Teams(ms: seq<Match>): (r: set<string>)
    ensures forall t :: t in r <==> exists i :: 0 <= i < |ms| && ms[i].Involves(t)
  {
    if ms == [] then {}
    else
      var last := ms[|ms| - 1];
      Teams(ms[..|ms| - 1]) + {last.home, last.away}
  }

  /** The teams of the current season that did not play in the previous one. */
  function Promoted(current: seq<Match>, previous: seq<Match>): (r: set<string>)
    ensures forall t :: t in r <==> t in Teams(current) && forall i :: 0 <= i < |previous| ==> !previous[i].Involves(t)
  {
    Teams(current) - Teams(previous)
  }

  /** A team's matches, in the list's order. */
  function TeamMatches(ms: seq<Match>, team: string): (r: seq<Match>)
    ensures |r| <= |ms|
    ensures forall i :: 0 <= i < |r| ==> r[i].Involves(team)
  {
    if ms == [] then []
    else
      var rest := TeamMatches(ms[..|ms| - 1], team);
      if ms[|ms| - 1].Involves(team) then rest + [ms[|ms| - 1]] else rest
  }

  /** TeamMatches keeps every such match of the list and nothing else, each as often as the list holds it, in the list's order. */
  lemma {:induction false} TeamMatchesComplete(ms: seq<Match>, team: string)
    ensures forall m :: m in TeamMatches(ms, team) <==> m in ms && m.Involves(team)
    ensures forall m :: multiset(TeamMatches(ms, team))[m] == if m.Involves(team) then multiset(ms)[m] else 0
    ensures Subsequence(TeamMatches(ms, team), ms)
  {
    if ms != [] {
      var init, x := ms[..|ms| - 1], ms[|ms| - 1];
      TeamMatchesComplete(init, team);
      assert ms == init + [x];
      FilterStep(TeamMatches(ms, team), TeamMatches(init, team), ms, init, x, x.Involves(team));
    }
  }

  /**
   * The matches a team's averages are computed over: its current-season
   * matches when it is promoted or has played at least 19, else those
   * preceded by its latest previous-season matches, up to 38 in all.
   */
  function Window(current: seq<Match>, previous: seq<Match>, team: string, promoted: bool): (w: seq<Match>)
    ensures var cur := TeamMatches(current, team);
      && (promoted || |cur| >= CurrentSeasonThreshold || previous == [] ==> w == cur)
      && |w| >= |cur| && w[|w| - |cur|..] == cur
      && (!promoted && |cur| < CurrentSeasonThreshold ==> |w| <= WindowSize)
      && (!promoted && |cur| < CurrentSeasonThreshold && previous != [] ==>
            w[..|w| - |cur|] == Last(TeamMatches(previous, team), WindowSize - |cur|))
    ensures forall i :: 0 <= i < |w| ==> w[i].Involves(team)
  {
    var cur := TeamMatches(current, team);
    if promoted || |cur| >= CurrentSeasonThreshold then cur
    else if WindowSize - |cur| > 0 && previous != [] then
      var older := Last(TeamMatches(previous, team), WindowSize - |cur|);
      assert (older + cur)[..|older|] == older;
      older + cur
    else cur
  }

  // ---------------------------------------------------------------------
  // Averages and strengths

  /** The matches the team hosts, in the list's order. */
  function HomeMatches(ms: seq<Match>, team: string): (r: seq<Match>)
    ensures forall i :: 0 <= i < |r| ==> r[i].home == team
  {
    if ms == [] then []
    else
      var rest := HomeMatches(ms[..|ms| - 1], team);
      if ms[|ms| - 1].home == team then rest + [ms[|ms| - 1]] else rest
  }

  /** HomeMatches keeps every such match of the list and nothing else, each as often as the list holds it, in the list's order. */
  lemma {:induction false} HomeMatchesComplete(ms: seq<Match>, team: string)
    ensures forall m :: m in HomeMatches(ms, team) <==> m in ms && m.home == team
    ensures forall m :: multiset(HomeMatches(ms, team))[m] == if m.home == team then multiset(ms)[m] else 0
    ensures Subsequence(HomeMatches(ms, team), ms)
  {
    if ms != [] {
      var init, x := ms[..|ms| - 1], ms[|ms| - 1];
      HomeMatchesComplete(init, team);
      assert ms == init + [x];
      FilterStep(HomeMatches(ms, team), HomeMatches(init, team), ms, init, x, x.home == team);
    }
  }

  /** The matches the team plays away, in the list's order. */
  function AwayMatches(ms: seq<Match>, team: string): (r: seq<Match>)
    ensures forall i :: 0 <= i < |r| ==> r[i].away == team
  {
    if ms == [] then []
    else
      var rest := AwayMatches(ms[..|ms| - 1], team);
      if ms[|ms| - 1].away == team then rest + [ms[|ms| - 1]] else rest
  }

  /** AwayMatches keeps every such match of the list and nothing else, each as often as the list holds it, in the list's order. */
  lemma {:induction false} AwayMatchesComplete(ms: seq<Match>, team: string)
    ensures forall m :: m in AwayMatches(ms, team) <==> m in ms && m.away == team
    ensures forall m :: multiset(AwayMatches(ms, team))[m] == if m.away == team then multiset(ms)[m] else 0
    ensures Subsequence(AwayMatches(ms, team), ms)
  {
    if ms != [] {
      var init, x := ms[..|ms| - 1], ms[|ms| - 1];
      AwayMatchesComplete(init, team);
      assert ms == init + [x];
      FilterStep(AwayMatches(ms, team), AwayMatches(init, team), ms, init, x, x.away == team);
    }
  }

  /** One side's values of a statistic across matches. */
  function Column(ms: seq<Match>, stat: Stat, side: Role): (c: seq<int>)
    ensures |c| == |ms| && forall i :: 0 <= i < |ms| ==> c[i] == ms[i].Value(stat, side)
  {
    seq(|ms|, i requires 0 <= i < |ms| => ms[i].Value(stat, side))
  }

  /** The mean of one side's statistic, 0 over no matches. */
  function Average(ms: seq<Match>, stat: Stat, side: Role): (a: real)
    ensures ms == [] ==> a == 0.0
    ensures ms != [] ==> a * |ms| as real == IntSum(Column(ms, stat, side)) as real
  {
    match Mean(Column(ms, stat, side))
    case None => 0.0
    case Some(v) => v
  }

  /** The league mean of one side's statistic over both seasons; None (pandas' NaN) with no matches. */
  function LeagueMean(all: seq<Match>, stat: Stat, side: Role): (r: Option<real>)
    ensures r.None? <==> all == []
    ensures r.Some? ==> r.value * |all| as real == IntSum(Column(all, stat, side)) as real
  {
    Mean(Column(all, stat, side))
  }

  /** A team average relative to a league mean; 1.0 when the mean is missing or not positive. */
  function Relative(x: real, mean: Option<real>): (r: real)
    ensures mean.Some? && mean.value > 0.0 ==> r * mean.value == x
    ensures mean.None? || mean.value <= 0.0 ==> r == 1.0
  {
    if mean.Some? && mean.value > 0.0 then x / mean.value else 1.0
  }

  /** A team's averages and strengths for one statistic. */
  datatype StatLine = StatLine(scoredHome: real, concededHome: real, scoredAway: real, concededAway: real,
                               attackHome: real, defenceHome: real, attackAway: real, defenceAway: real)

  /**
   * Home attack is home scoring over the league's home mean, home defence is
   * home conceding over the league's away mean, and the reverse away.
   */
  function Line(window: seq<Match>, team: string, all: seq<Match>, stat: Stat): (l: StatLine)
    ensures var home, away := HomeMatches(window, team), AwayMatches(window, team);
      && l.scoredHome == Average(home, stat, Home) && l.concededHome == Average(home, stat, Away)
      && l.scoredAway == Average(away, stat, Away) && l.concededAway == Average(away, stat, Home)
    ensures var homeMean, awayMean := LeagueMean(all, stat, Home), LeagueMean(all, stat, Away);
      && l.attackHome == Relative(l.scoredHome, homeMean) && l.defenceHome == Relative(l.concededHome, awayMean)
      && l.attackAway == Relative(l.scoredAway, awayMean) && l.defenceAway == Relative(l.concededAway, homeMean)
  {
    var home, away := HomeMatches(window, team), AwayMatches(window, team);
    var homeMean, awayMean := LeagueMean(all, stat, Home), LeagueMean(all, stat, Away);
    var scoredHome, concededHome := Average(home, stat, Home), Average(home, stat, Away);
    var scoredAway, concededAway := Average(away, stat, Away), Average(away, stat, Home);
    StatLine(scoredHome, concededHome, scoredAway, concededAway,
             Relative(scoredHome, homeMean), Relative(concededHome, awayMean),
             Relative(scoredAway, awayMean), Relative(concededAway, homeMean))
  }

  /** A team scoring at home exactly at the league's home mean has home attack strength 1. */
  lemma LeagueAverageTeamIsNeutral(window: seq<Match>, team: string, all: seq<Match>, stat: Stat)
    requires LeagueMean(all, stat, Home).Some? && LeagueMean(all, stat, Home).value > 0.0
    requires Average(HomeMatches(window, team), stat, Home) == LeagueMean(all, stat, Home).value
    ensures Line(window, team, all, stat).attackHome == 1.0
  {
    var m := LeagueMean(all, stat, Home).value;
    assert Relative(m, LeagueMean(all, stat, Home)) == m / m == 1.0;
  }

  /** Counts that are never negative give averages and strengths that are never negative. */
  lemma {:induction false} StrengthsNonNegative(window: seq<Match>, team: string, all: seq<Match>, stat: Stat)
    requires NonNegativeValues(window, stat)
    ensures var l := Line(window, team, all, stat);
      l.attackHome >= 0.0 && l.defenceHome >= 0.0 && l.attackAway >= 0.0 && l.defenceAway >= 0.0
  {
    var home, away := HomeMatches(window, team), AwayMatches(window, team);
    SubsequenceNonNegative(window, team, stat);
    forall side: Role ensures Average(home, stat, side) >= 0.0 && Average(away, stat, side) >= 0.0 {
      AverageNonNegative(home, stat, side);
      AverageNonNegative(away, stat, side);
    }
  }

  predicate NonNegativeValues(ms: seq<Match>, stat: Stat)
  {
    forall i :: 0 <= i < |ms| ==> ms[i].Value(stat, Home) >= 0 && ms[i].Value(stat, Away) >= 0
  }

  lemma {:induction false} SubsequenceNonNegative(window: seq<Match>, team: string, stat: Stat)
    requires NonNegativeValues(window, stat)
    ensures NonNegativeValues(HomeMatches(window, team), stat)
    ensures NonNegativeValues(AwayMatches(window, team), stat)
  {
    if window != [] {
      var front, last := window[..|window| - 1], window[|window| - 1];
      assert NonNegativeValues(front, stat);
      SubsequenceNonNegative(front, team, stat);
      assert NonNegativeValues([last], stat);
    }
  }

  lemma AverageNonNegative(ms: seq<Match>, stat: Stat, side: Role)
    requires NonNegativeValues(ms, stat)
    ensures Average(ms, stat, side) >= 0.0
  {
    if ms != [] {
      IntSumNonNegative(Column(ms, stat, side));
    }
  }

  // ---------------------------------------------------------------------
  // The team records

  lemma AllStatsListed()
    ensures forall s: Stat :: s in AllStats
  {
    forall s: Stat ensures s in AllStats {
      match s
      case Goals => assert AllStats[0] == s;
      case FirstHalfGoals => assert AllStats[1] == s;
      case Shots => assert AllStats[2] == s;
      case ShotsOnTarget => assert AllStats[3] == s;
      case Corners => assert AllStats[4] == s;
      case Fouls => assert AllStats[5] == s;
      case Yellows => assert AllStats[6] == s;
      case Reds => assert AllStats[7] == s;
    }
  }

  /** What the builder stores for a team: its form index and, per statistic, its averages and strengths. */
  datatype TeamRecord = TeamRecord(form: real, lines: map<Stat, StatLine>)

  /** The record of one team, with the form over its current-season matches only. */
  function RecordOf(current: seq<Match>, previous: seq<Match>, standings: seq<Standing>, team: string): (r: TeamRecord)
    ensures r.form == FormIndex(TeamMatches(current, team), team, standings)
    ensures forall s :: s in r.lines && r.lines[s] == Line(Window(current, previous, team, team in Promoted(current, previous)), team, current + previous, s)
  {
    AllStatsListed();
    var window := Window(current, previous, team, team in Promoted(current, previous));
    TeamRecord(FormIndex(TeamMatches(current, team), team, standings),
               map s: Stat | s in AllStats :: Line(window, team, current + previous, s))
  }

  /** A team gets a record when its analysis window holds at least eight matches. */
  predicate Analysed(current: seq<Match>, previous: seq<Match>, team: string)
  {
    |Window(current, previous, team, team in Promoted(current, previous))| >= MinWindowMatches
  }

  /** The builder loop: one record per current-season team with a large enough window. */
  method BuildRecords(current: seq<Match>, previous: seq<Match>, standings: seq<Standing>)
    returns (records: map<string, TeamRecord>)
    ensures forall t :: t in records <==> t in Teams(current) && Analysed(current, previous, t)
    ensures forall t :: t in records ==> records[t] == RecordOf(current, previous, standings, t)
  {
    var promoted := Promoted(current, previous);
    var todo := Teams(current);
    records := map[];
    while todo != {}
      invariant todo <= Teams(current)
      invariant forall t :: t in records <==> t in Teams(current) - todo && Analysed(current, previous, t)
      invariant forall t :: t in records ==> records[t] == RecordOf(current, previous, standings, t)
      decreases |todo|
    {
      var team :| team in todo;
      var window := Window(current, previous, team, team in promoted);
      if |window| >= MinWindowMatches {
        var form := Form(TeamMatches(current, team), team, standings);
        var lines := map s: Stat | s in AllStats :: Line(window, team, current + previous, s);
        records := records[team := TeamRecord(form, lines)];
      }
      todo := todo - {team};
    }
  }
}
