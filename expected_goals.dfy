/**
 * Opponent tiers and the expected-goals synthesis: the general estimate
 * (attack x opponent defence x league mean), its blends with the
 * tier-conditioned and similar-rank estimates, the head-to-head, form and
 * referee adjustments, and the first-half cap.
 */
module ExpectedGoals {
  import opened Common
  import opened Records
  import HeadToHead

  datatype Tier = Top | Mid | Bottom {
    function Name(): string
    {
      match this
      case Top => "Top"
      case Mid => "Mid"
      case Bottom => "Bottom"
    }

    /** Top < Mid < Bottom, the order of the standings. */
    function Order(): nat
    {
      match this
      case Top => 0
      case Mid => 1
      case Bottom => 2
    }
  }

  const TopShare: real := 0.35
  const BottomShare: real := 0.25
  const SimilarRankDistance: real := 2.0
  const MinConditionedMatches: real := 5.0
  const TierWeight: real := 0.07
  const SimilarWeight: real := 0.04
  const FormWeight: real := 0.06
  const H2hWeight: real := 0.05
  const XgFloor: real := 0.05
  const FirstHalfFormShare: real := 0.6
  const FirstHalfCap: real := 0.75

  function TopCount(n: real): int { Ceil(TopShare * n) }
  function BottomCount(n: real): int { Ceil(BottomShare * n) }

  /**
   * The tier of a standings position in a league of n teams. Top is tested
   * first, so a position in both the top and the bottom band is Top.
   */
  function TierOf(pos: real, n: real): (t: Tier)
    ensures n == 0.0 ==> t == Mid
    ensures n != 0.0 ==> (t == Top <==> pos <= TopCount(n) as real)
    ensures n != 0.0 ==> (t == Bottom <==> pos > (n - BottomCount(n) as real) && pos > TopCount(n) as real)
  {
    if n == 0.0 then Mid
    else if pos <= TopCount(n) as real then Top
    else if pos > n - BottomCount(n) as real then Bottom
    else Mid
  }

  /** A worse (larger) position never gets a better tier. */
  lemma TierMonotone(p: real, q: real, n: real)
    requires p <= q
    ensures TierOf(p, n).Order() <= TierOf(q, n).Order()
  {
  }

  /** The integers p with a < p <= b. */
  function Interval(a: int, b: int): (r: set<int>)
    decreases b - a
    ensures forall p :: p in r <==> a < p <= b
    ensures a <= b ==> |r| == b - a
  {
    if b <= a then {} else Interval(a, b - 1) + {b}
  }

  /** The tier of an integer position in a league of n >= 1 teams, in integer terms. */
  function RankTier(p: int, n: nat): Tier
    requires n >= 1
  {
    if p <= TopCount(n as real) then Top
    else if p > n - BottomCount(n as real) then Bottom
    else Mid
  }

  lemma RankTierAgrees(p: int, n: nat)
    requires n >= 1
    ensures RankTier(p, n) == TierOf(p as real, n as real)
  {
    var top := TopCount(n as real);
    var bottom := BottomCount(n as real);
    assert (p <= top) == (p as real <= top as real);
    assert (p > n - bottom) == (p as real > n as real - bottom as real);
  }

  /** The positions p in 1..k whose tier in a league of n teams is t. */
  function Band(n: nat, t: Tier, k: nat): (r: set<int>)
    requires n >= 1
    ensures forall p :: p in r <==> 1 <= p <= k && RankTier(p, n) == t
    ensures forall p :: p in r ==> TierOf(p as real, n as real) == t
  {
    if k == 0 then {}
    else
      RankTierAgrees(k, n);
      Band(n, t, k - 1) + (if RankTier(k, n) == t then {k} else {})
  }

  lemma CountsInRange(n: nat)
    requires n >= 1
    ensures 1 <= TopCount(n as real) <= n
    ensures 0 <= BottomCount(n as real) <= n
  {
    var x := TopShare * (n as real);
    assert 0.0 < x <= n as real;
    var c := Ceil(x);
    assert x <= c as real < x + 1.0;
    assert c <= n;
    var y := BottomShare * (n as real);
    assert 0.0 < y <= n as real;
  }

  /** The last position of the Mid band: the bottom band starts after it, and never before the top band ends. */
  function Cut(n: nat): int
  {
    var top, bottomStart := TopCount(n as real), n - BottomCount(n as real);
    if top >= bottomStart then top else bottomStart
  }

  /**
   * For every league size n >= 1 the positions 1..n split into a Top band of
   * ceil(0.35 n), a Bottom band of the last n - max(ceil(0.35 n), n - ceil(0.25 n))
   * positions, and the Mid band in between: every position in exactly one band.
   */
  lemma TierBands(n: nat)
    requires n >= 1
    ensures var top := TopCount(n as real);
      var cut := if top >= n - BottomCount(n as real) then top else n - BottomCount(n as real);
      && 1 <= top <= n
      && Band(n, Top, n) == Interval(0, top)
      && Band(n, Mid, n) == Interval(top, cut)
      && Band(n, Bottom, n) == Interval(cut, n)
      && |Band(n, Top, n)| + |Band(n, Mid, n)| + |Band(n, Bottom, n)| == n
  {
    CountsInRange(n);
    TopBand(n);
    MidBand(n);
    BottomBand(n);
  }

  lemma TopBand(n: nat)
    requires n >= 1
    ensures Band(n, Top, n) == Interval(0, TopCount(n as real))
  {
    var top := TopCount(n as real);
    CountsInRange(n);
    forall p | 1 <= p <= n
      ensures RankTier(p, n) == Top <==> 0 < p <= top
    {
    }
    BandIsInterval(n, Top, 0, top);
  }

  lemma MidBand(n: nat)
    requires n >= 1
    ensures Band(n, Mid, n) == Interval(TopCount(n as real), Cut(n))
  {
    var top, cut := TopCount(n as real), Cut(n);
    CountsInRange(n);
    forall p | 1 <= p <= n
      ensures RankTier(p, n) == Mid <==> top < p <= cut
    {
    }
    BandIsInterval(n, Mid, top, cut);
  }

  lemma BottomBand(n: nat)
    requires n >= 1
    ensures Band(n, Bottom, n) == Interval(Cut(n), n)
  {
    var cut := Cut(n);
    CountsInRange(n);
    forall p | 1 <= p <= n
      ensures RankTier(p, n) == Bottom <==> cut < p <= n
    {
    }
    BandIsInterval(n, Bottom, cut, n);
  }

  lemma BandIsInterval(n: nat, t: Tier, lo: int, hi: int)
    requires n >= 1 && 0 <= lo <= hi <= n
    requires forall p :: 1 <= p <= n ==> (RankTier(p, n) == t <==> lo < p <= hi)
    ensures Band(n, t, n) == Interval(lo, hi)
  {
    forall p | p in Band(n, t, n) ensures p in Interval(lo, hi) {}
    forall p | p in Interval(lo, hi) ensures p in Band(n, t, n) {}
  }

  /** In a 20-team league the tiers are 1-7, 8-15 and 16-20. */
  lemma TwentyTeamTiers()
    ensures TierOf(7.0, 20.0) == Top && TierOf(8.0, 20.0) == Mid
    ensures TierOf(15.0, 20.0) == Mid && TierOf(16.0, 20.0) == Bottom
  {
    assert (TopShare * 20.0).Floor == 7;
    assert (BottomShare * 20.0).Floor == 5;
  }

  /** In a one-team league the only position is in both bands and is Top. */
  lemma OverlapGoesToTop()
    ensures 1.0 > 1.0 - BottomCount(1.0) as real && TierOf(1.0, 1.0) == Top
  {
    assert (TopShare * 1.0).Floor == 0;
    assert (BottomShare * 1.0).Floor == 0;
  }

  // ---------------------------------------------------------------------
  // Column names of the team statistics rows

  function GeneralAttackKey(stat: string, role: Role): string
  {
    "forza_attacco_" + stat + "_" + role.Name() + "_generale_recente"
  }

  function GeneralDefenceKey(stat: string, role: Role): string
  {
    "forza_difesa_" + stat + "_" + role.Name() + "_generale_recente"
  }

  function CountKey(role: Role, context: string): string
  {
    "num_partite_" + role.Name() + "_VS_" + context
  }

  function ConditionedAttackKey(stat: string, role: Role, context: string): string
  {
    "forza_attacco_" + stat + "_" + role.Name() + "_VS_" + context
  }

  // ---------------------------------------------------------------------
  // Blending

  /** A convex combination of x and y with weight w on y. */
  function Blend(x: real, y: real, w: real): (r: real)
    requires 0.0 <= w <= 1.0
    ensures Min(x, y) <= r <= Max(x, y)
    ensures w == 0.0 ==> r == x
  {
    assert x * (1.0 - w) + y * w == x + w * (y - x);
    MulNonNegative(w, Abs(y - x));
    MulNonNegative(1.0 - w, Abs(y - x));
    x * (1.0 - w) + y * w
  }

  /** The weight of a conditioned estimate: grows with its sample size up to the cap at 10 matches. */
  function ConditionedWeight(count: real, cap: real): (w: real)
    requires 0.0 <= cap <= 1.0
    ensures 0.0 <= count ==> 0.0 <= w <= cap
    ensures count >= 10.0 ==> w == cap
    ensures 0.0 <= count <= 10.0 ==> w * 10.0 == count * cap
  {
    var share := Min(1.0, count / 10.0);
    assert count <= 10.0 ==> share * 10.0 == count;
    assert share * cap * 10.0 == (share * 10.0) * cap;
    assert 0.0 <= count ==> 0.0 <= share <= 1.0;
    ShareOfCap(share, cap);
    share * cap
  }

  /** A share in [0, 1] of a non-negative cap stays within [0, cap]. */
  lemma ShareOfCap(share: real, cap: real)
    requires 0.0 <= cap
    ensures 0.0 <= share <= 1.0 ==> 0.0 <= share * cap <= cap
  {
    if 0.0 <= share <= 1.0 {
      MulNonNegative(share, cap);
      MulNonNegative(1.0 - share, cap);
    }
  }

  /** The general estimate: attack strength x opponent's mirrored defence strength x league mean. */
  function GeneralEstimate(team: Row, opp: Row, leagueMean: real, role: Role, stat: string): real
  {
    Get(team, GeneralAttackKey(stat, role), 1.0) * Get(opp, GeneralDefenceKey(stat, role.Opposite()), 1.0) * leagueMean
  }

  /** The estimate with the attack strength measured against the given context (a tier or "Simile"). */
  function ConditionedEstimate(team: Row, opp: Row, leagueMean: real, role: Role, stat: string, context: string): real
  {
    Get(team, ConditionedAttackKey(stat, role, context), Get(team, GeneralAttackKey(stat, role), 1.0))
      * Get(opp, GeneralDefenceKey(stat, role.Opposite()), 1.0) * leagueMean
  }

  /**
   * One blending step: when the context has at least five matches, move xg
   * towards the conditioned estimate with the context's weight; otherwise
   * leave it as it is.
   */
  function ContextStep(xg: real, team: Row, opp: Row, leagueMean: real, role: Role, stat: string,
                       context: string, cap: real): (r: real)
    requires 0.0 <= cap <= 1.0
    ensures Get(team, CountKey(role, context), 0.0) < MinConditionedMatches ==> r == xg
    ensures var est := ConditionedEstimate(team, opp, leagueMean, role, stat, context);
      Min(xg, est) <= r <= Max(xg, est)
    ensures var n := Get(team, CountKey(role, context), 0.0);
      var est := ConditionedEstimate(team, opp, leagueMean, role, stat, context);
      n >= MinConditionedMatches ==> r - xg == ConditionedWeight(n, cap) * (est - xg)
  {
    var n := Get(team, CountKey(role, context), 0.0);
    if n >= MinConditionedMatches then
      Blend(xg, ConditionedEstimate(team, opp, leagueMean, role, stat, context), ConditionedWeight(n, cap))
    else xg
  }

  /** The blend of the general estimate with the tier-conditioned one, and then with the similar-rank one. */
  function BlendedEstimate(team: Row, opp: Row, leagueMean: real, role: Role, oppTier: Tier,
                           similarRank: bool, stat: string): real
  {
    var general := GeneralEstimate(team, opp, leagueMean, role, stat);
    var afterTier := ContextStep(general, team, opp, leagueMean, role, stat, oppTier.Name(), TierWeight);
    if similarRank then ContextStep(afterTier, team, opp, leagueMean, role, stat, "Simile", SimilarWeight)
    else afterTier
  }

  /**
   * The expected goals (or another statistic) of a team in a role. An empty
   * statistics row on either side yields 0.5; otherwise the blended estimate
   * floored at 0.05.
   */
  function Expected(team: Row, opp: Row, leagueMean: real, role: Role, oppTier: Tier,
                    similarRank: bool, stat: string): (xg: real)
    ensures team == map[] || opp == map[] ==> xg == 0.5
    ensures team != map[] && opp != map[] ==>
      xg >= XgFloor && xg == Max(XgFloor, BlendedEstimate(team, opp, leagueMean, role, oppTier, similarRank, stat))
  {
    if team == map[] || opp == map[] then 0.5
    else Max(XgFloor, BlendedEstimate(team, opp, leagueMean, role, oppTier, similarRank, stat))
  }

  /**
   * The synthesised value always lies between the smallest and the largest of
   * the general, tier-conditioned and similar-rank estimates (before the floor).
   */
  lemma BlendedWithinEstimates(team: Row, opp: Row, leagueMean: real, role: Role, oppTier: Tier,
                               similarRank: bool, stat: string)
    ensures var g := GeneralEstimate(team, opp, leagueMean, role, stat);
      var t := ConditionedEstimate(team, opp, leagueMean, role, stat, oppTier.Name());
      var s := if similarRank then ConditionedEstimate(team, opp, leagueMean, role, stat, "Simile") else g;
      var b := BlendedEstimate(team, opp, leagueMean, role, oppTier, similarRank, stat);
      Min(g, Min(t, s)) <= b <= Max(g, Max(t, s))
  {
    var g := GeneralEstimate(team, opp, leagueMean, role, stat);
    var afterTier := ContextStep(g, team, opp, leagueMean, role, stat, oppTier.Name(), TierWeight);
    if similarRank {
      var _ := ContextStep(afterTier, team, opp, leagueMean, role, stat, "Simile", SimilarWeight);
    }
  }

  /** Without enough conditioned matches the result is the floored general estimate. */
  lemma UnconditionedIsGeneral(team: Row, opp: Row, leagueMean: real, role: Role, oppTier: Tier,
                               similarRank: bool, stat: string)
    requires team != map[] && opp != map[]
    requires Get(team, CountKey(role, oppTier.Name()), 0.0) < MinConditionedMatches
    requires Get(team, CountKey(role, "Simile"), 0.0) < MinConditionedMatches
    ensures Expected(team, opp, leagueMean, role, oppTier, similarRank, stat)
         == Max(XgFloor, GeneralEstimate(team, opp, leagueMean, role, stat))
  {
  }

  /**
   * The worked example: home attack 1.20 against an average defence (1.00)
   * with a league home mean of 1.50 gives 1.80 expected goals.
   */
  lemma WorkedExample(oppTier: Tier, similarRank: bool)
    ensures var team := map[GeneralAttackKey("gol", Home) := 1.2];
      var opp := map[GeneralDefenceKey("gol", Away) := 1.0];
      Expected(team, opp, 1.5, Home, oppTier, similarRank, "gol") == 1.8
  {
    var team := map[GeneralAttackKey("gol", Home) := 1.2];
    var opp := map[GeneralDefenceKey("gol", Away) := 1.0];
    assert CountKey(Home, oppTier.Name())[0] == 'n' != GeneralAttackKey("gol", Home)[0];
    assert CountKey(Home, "Simile")[0] == 'n';
    assert Get(team, GeneralAttackKey("gol", Home), 1.0) == 1.2;
    assert Get(opp, GeneralDefenceKey("gol", Home.Opposite()), 1.0) == 1.0;
    assert GeneralEstimate(team, opp, 1.5, Home, "gol") == 1.8;
    assert Get(team, CountKey(Home, oppTier.Name()), 0.0) == 0.0;
    assert Get(team, CountKey(Home, "Simile"), 0.0) == 0.0;
  }

  // ---------------------------------------------------------------------
  // Head-to-head, form and referee adjustments

  /** The head-to-head shift: 0.05 x the home-minus-away average goal difference, with at least two meetings. */
  function H2hShift(h2h: HeadToHead.Summary): (d: real)
    ensures h2h.analysed < 2 ==> d == 0.0
    ensures h2h.analysed >= 2 ==> (d > 0.0 <==> h2h.avgHomeGoals > h2h.avgAwayGoals)
    ensures h2h.analysed >= 2 ==> (d < 0.0 <==> h2h.avgHomeGoals < h2h.avgAwayGoals)
  {
    if h2h.analysed >= 2 then (h2h.avgHomeGoals - h2h.avgAwayGoals) * H2hWeight else 0.0
  }

  /** The form multiplier 1 + (form - 0.5) x weight; a missing form counts as neutral 0.5. */
  function FormFactor(stats: Row, weight: real): (f: real)
    requires 0.0 <= weight
    ensures var form := Get(stats, "forma_avanzata_totale", 0.5);
      0.0 <= form <= 1.0 ==> 1.0 - weight / 2.0 <= f <= 1.0 + weight / 2.0
    ensures "forma_avanzata_totale" !in stats ==> f == 1.0
    ensures var form := Get(stats, "forma_avanzata_totale", 0.5);
      0.0 < weight ==> (f > 1.0 <==> form > 0.5) && (f < 1.0 <==> form < 0.5)
  {
    var form := Get(stats, "forma_avanzata_totale", 0.5);
    var offset := (form - 0.5) * weight;
    FormOffset(form, weight, offset);
    1.0 + offset
  }

  /** The form offset (form - 0.5) x weight: within half the weight, with the sign of form - 0.5. */
  lemma FormOffset(form: real, weight: real, offset: real)
    requires 0.0 <= weight && offset == (form - 0.5) * weight
    ensures 0.0 <= form <= 1.0 ==> -(weight / 2.0) <= offset <= weight / 2.0
    ensures 0.0 < weight ==> (offset > 0.0 <==> form > 0.5) && (offset < 0.0 <==> form < 0.5)
  {
    var d := form - 0.5;
    if 0.0 <= form <= 1.0 {
      MulNonNegative(0.5 - d, weight);
      MulNonNegative(0.5 + d, weight);
    }
    if d > 0.0 { MulNonNegative(d, weight); assert weight > 0.0 ==> d * weight > 0.0; }
    if d < 0.0 { MulNonNegative(-d, weight); assert weight > 0.0 ==> d * weight < 0.0; }
  }

  /**
   * The referee's foul-rate factor: 0.95 above 24.5 fouls per game, 1.03 below
   * 18.5, else 1. The lookup's own default of 21.5 never applies, because the
   * loader always supplies the rate.
   */
  function RefereeFactor(ref: Referee): (f: real)
    ensures 0.95 <= f <= 1.03
    ensures ref.foulsPerGame > 24.5 ==> f == 0.95
    ensures ref.foulsPerGame < 18.5 ==> f == 1.03
    ensures 18.5 <= ref.foulsPerGame <= 24.5 ==> f == 1.0
  {
    if ref.foulsPerGame > 24.5 then 1.0 - 0.05
    else if ref.foulsPerGame < 18.5 then 1.0 + 0.03
    else 1.0
  }

  /** The additive penalty bonus: 0.04 x the referee's penalties per game. */
  function PenaltyBonus(ref: Referee): (b: real)
    ensures b * 25.0 == ref.penaltiesPerGame
  {
    ref.penaltiesPerGame * 0.04
  }

  /** Without a referee file, the referee leaves the foul factor neutral and adds 0.008 per side. */
  lemma UnknownRefereeIsNeutral()
    ensures RefereeFactor(LoadReferee(None)) == 1.0
    ensures PenaltyBonus(LoadReferee(None)) == 0.008
  {
  }

  /** One team's adjusted estimate, given its signed head-to-head shift. */
  function AdjustOne(xg: real, shift: real, stats: Row, ref: Referee): real
  {
    Max(XgFloor, (xg + shift) * FormFactor(stats, FormWeight) * RefereeFactor(ref) + PenaltyBonus(ref))
  }

  /**
   * The full-time adjustment of both teams' expected goals: head-to-head
   * shift (in opposite directions), form multipliers, the referee's foul-rate
   * factor on both, the penalty bonus on both, then the 0.05 floor.
   */
  function Adjust(xgHome: real, xgAway: real, statsHome: Row, statsAway: Row,
                  h2h: HeadToHead.Summary, ref: Referee): (r: (real, real))
    ensures r.0 >= XgFloor && r.1 >= XgFloor
    ensures r.0 == AdjustOne(xgHome, H2hShift(h2h), statsHome, ref)
    ensures r.1 == AdjustOne(xgAway, -H2hShift(h2h), statsAway, ref)
  {
    var d := H2hShift(h2h);
    (AdjustOne(xgHome, d, statsHome, ref), AdjustOne(xgAway, -d, statsAway, ref))
  }

  /**
   * With fewer than two meetings, no form data, a referee in the neutral foul
   * band and no penalties, the adjustment only applies the floor.
   */
  lemma NeutralAdjustment(xgHome: real, xgAway: real, statsHome: Row, statsAway: Row,
                          h2h: HeadToHead.Summary, ref: Referee)
    requires h2h.analysed < 2
    requires "forma_avanzata_totale" !in statsHome && "forma_avanzata_totale" !in statsAway
    requires 18.5 <= ref.foulsPerGame <= 24.5
    requires ref.penaltiesPerGame == 0.0
    ensures Adjust(xgHome, xgAway, statsHome, statsAway, h2h, ref) == (Max(XgFloor, xgHome), Max(XgFloor, xgAway))
  {
  }

  /**
   * Before the floor, the head-to-head shift moves goals from one side to the
   * other: with neutral form and referee, the sum of the two estimates is
   * unchanged apart from the two penalty bonuses.
   */
  lemma H2hPreservesTotal(xgHome: real, xgAway: real, statsHome: Row, statsAway: Row,
                          h2h: HeadToHead.Summary, ref: Referee)
    requires "forma_avanzata_totale" !in statsHome && "forma_avanzata_totale" !in statsAway
    requires 18.5 <= ref.foulsPerGame <= 24.5
    ensures var d := H2hShift(h2h);
      var c := (xgHome + d) * FormFactor(statsHome, FormWeight) * RefereeFactor(ref) + PenaltyBonus(ref);
      var t := (xgAway + -d) * FormFactor(statsAway, FormWeight) * RefereeFactor(ref) + PenaltyBonus(ref);
      c + t == xgHome + xgAway + 2.0 * PenaltyBonus(ref)
  {
  }

  /**
   * The first-half estimate: the first-half blend times a form factor with
   * 0.6 of the full-time weight, capped at 0.75 of the same team's full-time
   * estimate, then floored at 0.05.
   */
  function FirstHalf(base: real, stats: Row, fullTime: real): (r: real)
    ensures r >= XgFloor
    ensures r <= Max(XgFloor, FirstHalfCap * fullTime)
    ensures var adj := base * FormFactor(stats, FormWeight * FirstHalfFormShare);
      XgFloor <= adj <= FirstHalfCap * fullTime ==> r == adj
    ensures var adj := base * FormFactor(stats, FormWeight * FirstHalfFormShare);
      && (adj > FirstHalfCap * fullTime ==> r == Max(XgFloor, FirstHalfCap * fullTime))
      && (adj < XgFloor ==> r == XgFloor)
  {
    var adj := base * FormFactor(stats, FormWeight * FirstHalfFormShare);
    Max(XgFloor, Min(adj, FirstHalfCap * fullTime))
  }

  /** The floor wins over the cap: at the smallest full-time value the first half equals the whole match. */
  lemma FloorOverridesCap(base: real, stats: Row)
    ensures FirstHalf(base, stats, XgFloor) == XgFloor
  {
  }

  // ---------------------------------------------------------------------
  // The per-fixture synthesis of the main loop

  datatype Breakdown = Breakdown(homeBase: real, awayBase: real, homeFullTime: real, awayFullTime: real,
                                 homeFirstHalf: real, awayFirstHalf: real)

  /** A missing standings position defaults to num_teams // 2. */
  function Position(stats: Row, n: real): real
  {
    Get(stats, "posizione_classifica_attuale", (n / 2.0).Floor as real)
  }

  /**
   * The expected-goals breakdown of a fixture: tiers from the current
   * positions, "similar rank" within two places, full-time base estimates,
   * the adjustment, and the capped first-half estimates.
   */
  function Synthesize(statsHome: Row, statsAway: Row, league: Row, h2h: HeadToHead.Summary, ref: Referee): (b: Breakdown)
    requires statsHome != map[] && statsAway != map[]
    ensures b.homeBase >= XgFloor && b.awayBase >= XgFloor
    ensures b.homeFullTime >= XgFloor && b.awayFullTime >= XgFloor
    ensures XgFloor <= b.homeFirstHalf <= Max(XgFloor, FirstHalfCap * b.homeFullTime)
    ensures XgFloor <= b.awayFirstHalf <= Max(XgFloor, FirstHalfCap * b.awayFullTime)
    ensures (b.homeFullTime, b.awayFullTime) == Adjust(b.homeBase, b.awayBase, statsHome, statsAway, h2h, ref)
    ensures var n := Get(league, "num_squadre_campionato", 20.0);
      var posHome, posAway := Position(statsHome, n), Position(statsAway, n);
      var similar := Abs(posHome - posAway) <= SimilarRankDistance;
      && b.homeBase == Expected(statsHome, statsAway, Get(league, "media_gol_casa_campionato", 1.5), Home, TierOf(posAway, n), similar, "gol")
      && b.awayBase == Expected(statsAway, statsHome, Get(league, "media_gol_trasferta_campionato", 1.2), Away, TierOf(posHome, n), similar, "gol")
      && b.homeFirstHalf == FirstHalf(Expected(statsHome, statsAway, Get(league, "media_gol_1T_casa_campionato", 0.7),
                                               Home, TierOf(posAway, n), similar, "gol_1T"), statsHome, b.homeFullTime)
      && b.awayFirstHalf == FirstHalf(Expected(statsAway, statsHome, Get(league, "media_gol_1T_trasferta_campionato", 0.5),
                                               Away, TierOf(posHome, n), similar, "gol_1T"), statsAway, b.awayFullTime)
  {
    var n := Get(league, "num_squadre_campionato", 20.0);
    var posHome := Position(statsHome, n);
    var posAway := Position(statsAway, n);
    var tierHome := TierOf(posHome, n);
    var tierAway := TierOf(posAway, n);
    var similar := Abs(posHome - posAway) <= SimilarRankDistance;
    var homeBase := Expected(statsHome, statsAway, Get(league, "media_gol_casa_campionato", 1.5), Home, tierAway, similar, "gol");
    var awayBase := Expected(statsAway, statsHome, Get(league, "media_gol_trasferta_campionato", 1.2), Away, tierHome, similar, "gol");
    var (homeFt, awayFt) := Adjust(homeBase, awayBase, statsHome, statsAway, h2h, ref);
    var homeHtBase := Expected(statsHome, statsAway, Get(league, "media_gol_1T_casa_campionato", 0.7), Home, tierAway, similar, "gol_1T");
    var awayHtBase := Expected(statsAway, statsHome, Get(league, "media_gol_1T_trasferta_campionato", 0.5), Away, tierHome, similar, "gol_1T");
    Breakdown(homeBase, awayBase, homeFt, awayFt,
              FirstHalf(homeHtBase, statsHome, homeFt), FirstHalf(awayHtBase, statsAway, awayFt))
  }
}
