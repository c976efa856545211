/**
 * The league table of the current season: one counter record per team,
 * updated match by match, completed with the goal difference, ordered by
 * points, goal difference and goals scored, and numbered from 1.
 */
module LeagueTable {
  import opened Records

  /** The counters of one team's line: the columns Punti, Giocate, Vinte, Nulle, Perse, GF, GS, DR. */
  datatype Counter = Points | Played | Won | Drawn | Lost | GoalsFor | GoalsAgainst | Difference

  datatype Entry = Entry(points: int, played: int, won: int, drawn: int, lost: int,
                         goalsFor: int, goalsAgainst: int, difference: int)
  {
    function Get(c: Counter): int
    {
      match c
      case Points => points
      case Played => played
      case Won => won
      case Drawn => drawn
      case Lost => lost
      case GoalsFor => goalsFor
      case GoalsAgainst => goalsAgainst
      case Difference => difference
    }
  }

  /** Every counter starts at 0. */
  const Zero: Entry := Entry(0, 0, 0, 0, 0, 0, 0, 0)

  /** Counter-wise sum. */
  function Plus(a: Entry, b: Entry): (r: Entry)
    ensures forall c :: r.Get(c) == a.Get(c) + b.Get(c)
  {
    Entry(a.points + b.points, a.played + b.played, a.won + b.won, a.drawn + b.drawn,
          a.lost + b.lost, a.goalsFor + b.goalsFor, a.goalsAgainst + b.goalsAgainst,
          a.difference + b.difference)
  }

  /**
   * What one match adds to one side's line, given the goals that side scored
   * and conceded: one game played, the goals both ways, and 3 points and a win,
   * 1 point and a draw, or a loss.
   */
  function Credit(scored: int, conceded: int): (r: Entry)
    ensures r.played == 1 && r.goalsFor == scored && r.goalsAgainst == conceded && r.difference == 0
    ensures scored > conceded <==> r.won == 1
    ensures scored == conceded <==> r.drawn == 1
    ensures scored < conceded <==> r.lost == 1
    ensures r.won + r.drawn + r.lost == 1 && r.points == 3 * r.won + r.drawn
  {
    if scored > conceded then Entry(3, 1, 1, 0, 0, scored, conceded, 0)
    else if scored == conceded then Entry(1, 1, 0, 1, 0, scored, conceded, 0)
    else Entry(0, 1, 0, 0, 1, scored, conceded, 0)
  }

  // ---------------------------------------------------------------------
  // The teams of the season

  predicate Distinct<T(==)>(s: seq<T>)
  {
    forall i, j :: 0 <= i < j < |s| ==> s[i] != s[j]
  }

  /** The first occurrence of each element, in order of first appearance (pandas' unique). */
  function Unique<T(==,!new)>(s: seq<T>): (r: seq<T>)
    ensures Distinct(r)
    ensures forall x :: x in r <==> x in s
  {
    if s == [] then []
    else
      var u := Unique(s[..|s| - 1]);
      assert forall x :: x in s <==> x in s[..|s| - 1] || x == s[|s| - 1];
      if s[|s| - 1] in u then u else u + [s[|s| - 1]]
  }

  function HomeColumn(ms: seq<Match>): (r: seq<string>)
    ensures |r| == |ms| && forall i :: 0 <= i < |ms| ==> r[i] == ms[i].home
  {
    seq(|ms|, i requires 0 <= i < |ms| => ms[i].home)
  }

  function AwayColumn(ms: seq<Match>): (r: seq<string>)
    ensures |r| == |ms| && forall i :: 0 <= i < |ms| ==> r[i] == ms[i].away
  {
    seq(|ms|, i requires 0 <= i < |ms| => ms[i].away)
  }

  /** The team plays in at least one of the matches, at home or away. */
  predicate Plays(ms: seq<Match>, t: string)
  {
    exists i :: 0 <= i < |ms| && ms[i].Involves(t)
  }

  /** The teams of the season: the home column, then the away column, each team once. */
  function Teams(ms: seq<Match>): (r: seq<string>)
    ensures Distinct(r)
  {
    Unique(HomeColumn(ms) + AwayColumn(ms))
  }

  /** The team list holds exactly the teams that play at home or away in some match. */
  lemma TeamsOfSeason(ms: seq<Match>)
    ensures forall t :: t in Teams(ms) <==> Plays(ms, t)
  {
    var column := HomeColumn(ms) + AwayColumn(ms);
    forall t | t in column ensures Plays(ms, t) {
      var k :| 0 <= k < |column| && column[k] == t;
      if k < |ms| { assert ms[k].Involves(t); } else { assert ms[k - |ms|].Involves(t); }
    }
    forall t | Plays(ms, t) ensures t in column {
      var i :| 0 <= i < |ms| && ms[i].Involves(t);
      if ms[i].home == t { assert column[i] == t; } else { assert column[|ms| + i] == t; }
    }
  }

  /** Every team of the season with all counters at 0. */
  function Initial(teams: seq<string>): (r: map<string, Entry>)
    ensures forall t :: t in r <==> t in teams
    ensures forall t :: t in r ==> r[t] == Zero
  {
    map t | t in teams :: Zero
  }

  // ---------------------------------------------------------------------
  // Accumulation

  /**
   * One match entered in the table: the home line is credited first, then the
   * away line, so a match listing the same team on both sides credits it twice.
   */
  function Record(table: map<string, Entry>, m: Match): (r: map<string, Entry>)
    requires m.home in table && m.away in table
    ensures r.Keys == table.Keys
  {
    var home, away := m.homeCounts.goals, m.awayCounts.goals;
    var first := table[m.home := Plus(table[m.home], Credit(home, away))];
    first[m.away := Plus(first[m.away], Credit(away, home))]
  }

  predicate Covers(table: map<string, Entry>, ms: seq<Match>)
  {
    forall i :: 0 <= i < |ms| ==> ms[i].home in table && ms[i].away in table
  }

  /** The table after entering the matches in order. */
  function Tally(table: map<string, Entry>, ms: seq<Match>): (r: map<string, Entry>)
    requires Covers(table, ms)
    ensures r.Keys == table.Keys
  {
    if ms == [] then table
    else Record(Tally(table, ms[..|ms| - 1]), ms[|ms| - 1])
  }

  /** Entering one more match extends the fold by one step. */
  lemma TallyStep(table: map<string, Entry>, ms: seq<Match>, i: nat)
    requires Covers(table, ms) && i < |ms|
    ensures Covers(table, ms[..i]) && Covers(table, ms[..i + 1])
    ensures Tally(table, ms[..i + 1]) == Record(Tally(table, ms[..i]), ms[i])
  {
    assert ms[..i + 1][..i] == ms[..i];
  }

  /** The accumulation loop over the season's matches. */
  method Accumulate(ms: seq<Match>) returns (table: map<string, Entry>)
    ensures table == Tally(Initial(Teams(ms)), ms)
  {
    var teams := Teams(ms);
    table := Initial(teams);
    ghost var start := table;
    SeasonCovered(ms);
    var i := 0;
    while i < |ms|
      invariant 0 <= i <= |ms|
      invariant table.Keys == start.Keys
      invariant table == Tally(start, ms[..i])
    {
      ghost var before := table;
      var m := ms[i];
      var home, away := m.homeCounts.goals, m.awayCounts.goals;
      table := table[m.home := Plus(table[m.home], Credit(home, away))];
      table := table[m.away := Plus(table[m.away], Credit(away, home))];
      assert table == Record(before, m);
      TallyStep(start, ms, i);
      i := i + 1;
    }
    assert ms[..|ms|] == ms;
  }

  // ---------------------------------------------------------------------
  // Per-line invariants

  /** Wins, draws and losses add up to the games played, and points are 3 per win and 1 per draw. */
  predicate Consistent(e: Entry)
  {
    e.won + e.drawn + e.lost == e.played && e.points == 3 * e.won + e.drawn
  }

  predicate AllConsistent(table: map<string, Entry>)
  {
    forall t :: t in table ==> Consistent(table[t])
  }

  lemma CreditKeepsConsistent(e: Entry, scored: int, conceded: int)
    requires Consistent(e)
    ensures Consistent(Plus(e, Credit(scored, conceded)))
  {
  }

  lemma RecordKeepsConsistent(table: map<string, Entry>, m: Match)
    requires m.home in table && m.away in table
    requires AllConsistent(table)
    ensures AllConsistent(Record(table, m))
  {
    var home, away := m.homeCounts.goals, m.awayCounts.goals;
    CreditKeepsConsistent(table[m.home], home, away);
    var first := table[m.home := Plus(table[m.home], Credit(home, away))];
    assert AllConsistent(first);
    CreditKeepsConsistent(first[m.away], away, home);
  }

  lemma {:induction false} TallyConsistent(table: map<string, Entry>, ms: seq<Match>)
    requires Covers(table, ms)
    requires AllConsistent(table)
    ensures AllConsistent(Tally(table, ms))
  {
    if ms != [] {
      TallyConsistent(table, ms[..|ms| - 1]);
      RecordKeepsConsistent(Tally(table, ms[..|ms| - 1]), ms[|ms| - 1]);
    }
  }

  /** Both sides of every match are in the initial table. */
  lemma SeasonCovered(ms: seq<Match>)
    ensures Covers(Initial(Teams(ms)), ms)
  {
    TeamsOfSeason(ms);
    forall i | 0 <= i < |ms| ensures ms[i].home in Teams(ms) && ms[i].away in Teams(ms) {
      assert ms[i].Involves(ms[i].home) && ms[i].Involves(ms[i].away);
    }
  }

  // ---------------------------------------------------------------------
  // Column totals

  /** The sum of one counter over the listed teams. */
  function Total(teams: seq<string>, table: map<string, Entry>, c: Counter): int
    requires forall t :: t in teams ==> t in table
  {
    if teams == [] then 0 else table[teams[0]].Get(c) + Total(teams[1..], table, c)
  }

  lemma {:induction false} TotalUnchanged(teams: seq<string>, table: map<string, Entry>, t: string, e: Entry, c: Counter)
    requires forall u :: u in teams ==> u in table
    requires t !in teams
    ensures Total(teams, table[t := e], c) == Total(teams, table, c)
  {
    if teams != [] {
      TotalUnchanged(teams[1..], table, t, e, c);
    }
  }

  /** Changing one listed team's line changes the total by the change in that line. */
  lemma {:induction false} TotalUpdate(teams: seq<string>, table: map<string, Entry>, t: string, e: Entry, c: Counter)
    requires Distinct(teams) && t in teams
    requires forall u :: u in teams ==> u in table
    ensures Total(teams, table[t := e], c) == Total(teams, table, c) - table[t].Get(c) + e.Get(c)
  {
    if teams[0] == t {
      assert t !in teams[1..];
      TotalUnchanged(teams[1..], table, t, e, c);
    } else {
      TotalUpdate(teams[1..], table, t, e, c);
    }
  }

  /** What all the matches add to one counter's total over both sides. */
  function MatchTotal(ms: seq<Match>, c: Counter): int
  {
    if ms == [] then 0
    else
      var m := ms[|ms| - 1];
      var home, away := m.homeCounts.goals, m.awayCounts.goals;
      MatchTotal(ms[..|ms| - 1], c) + Credit(home, away).Get(c) + Credit(away, home).Get(c)
  }

  lemma {:induction false} TallyTotal(teams: seq<string>, table: map<string, Entry>, ms: seq<Match>, c: Counter)
    requires Distinct(teams)
    requires forall t :: t in table <==> t in teams
    requires Covers(table, ms)
    ensures Total(teams, Tally(table, ms), c) == Total(teams, table, c) + MatchTotal(ms, c)
  {
    if ms != [] {
      var before := Tally(table, ms[..|ms| - 1]);
      TallyTotal(teams, table, ms[..|ms| - 1], c);
      var m := ms[|ms| - 1];
      var home, away := m.homeCounts.goals, m.awayCounts.goals;
      var first := before[m.home := Plus(before[m.home], Credit(home, away))];
      TotalUpdate(teams, before, m.home, Plus(before[m.home], Credit(home, away)), c);
      TotalUpdate(teams, first, m.away, Plus(first[m.away], Credit(away, home)), c);
    }
  }

  lemma {:induction false} TotalZero(teams: seq<string>, table: map<string, Entry>, c: Counter)
    requires forall t :: t in teams ==> t in table && table[t] == Zero
    ensures Total(teams, table, c) == 0
  {
    if teams != [] {
      TotalZero(teams[1..], table, c);
    }
  }

  lemma {:induction false} MatchTotalPlayed(ms: seq<Match>)
    ensures MatchTotal(ms, Played) == 2 * |ms|
  {
    if ms != [] {
      MatchTotalPlayed(ms[..|ms| - 1]);
    }
  }

  lemma {:induction false} MatchTotalGoals(ms: seq<Match>)
    ensures MatchTotal(ms, GoalsFor) == MatchTotal(ms, GoalsAgainst)
  {
    if ms != [] {
      MatchTotalGoals(ms[..|ms| - 1]);
    }
  }

  /** A counter's total over the season's table is what the matches add to it. */
  lemma SeasonTotal(ms: seq<Match>, c: Counter)
    ensures var teams := Teams(ms);
            Covers(Initial(teams), ms) &&
            Total(teams, Tally(Initial(teams), ms), c) == MatchTotal(ms, c)
  {
    var teams := Teams(ms);
    SeasonCovered(ms);
    TallyTotal(teams, Initial(teams), ms, c);
    TotalZero(teams, Initial(teams), c);
  }

  /** Each match counts as a game played for both sides: the played column sums to twice the matches. */
  lemma PlayedTwicePerMatch(ms: seq<Match>)
    ensures var teams := Teams(ms);
            Covers(Initial(teams), ms) &&
            Total(teams, Tally(Initial(teams), ms), Played) == 2 * |ms|
  {
    SeasonTotal(ms, Played);
    MatchTotalPlayed(ms);
  }

  /** Every goal is scored by one side and conceded by the other: the GF and GS columns sum alike. */
  lemma GoalsBalance(ms: seq<Match>)
    ensures var teams := Teams(ms);
            Covers(Initial(teams), ms) &&
            Total(teams, Tally(Initial(teams), ms), GoalsFor) == Total(teams, Tally(Initial(teams), ms), GoalsAgainst)
  {
    SeasonTotal(ms, GoalsFor);
    SeasonTotal(ms, GoalsAgainst);
    MatchTotalGoals(ms);
  }

  // ---------------------------------------------------------------------
  // Goal difference

  /** The DR column: goals for minus goals against. */
  function Completed(e: Entry): (r: Entry)
    ensures r.difference == r.goalsFor - r.goalsAgainst
    ensures forall c :: c != Difference ==> r.Get(c) == e.Get(c)
  {
    e.(difference := e.goalsFor - e.goalsAgainst)
  }

  function Complete(table: map<string, Entry>): (r: map<string, Entry>)
    ensures r.Keys == table.Keys
    ensures forall t :: t in r ==> r[t] == Completed(table[t])
  {
    map t | t in table :: Completed(table[t])
  }

  lemma {:induction false} TotalDifference(teams: seq<string>, table: map<string, Entry>)
    requires forall t :: t in teams ==> t in table
    ensures Total(teams, Complete(table), Difference) == Total(teams, table, GoalsFor) - Total(teams, table, GoalsAgainst)
  {
    if teams != [] {
      TotalDifference(teams[1..], table);
    }
  }

  /** The goal differences of the season's table sum to zero. */
  lemma DifferencesSumToZero(ms: seq<Match>)
    ensures var teams := Teams(ms);
            Covers(Initial(teams), ms) &&
            Total(teams, Complete(Tally(Initial(teams), ms)), Difference) == 0
  {
    var teams := Teams(ms);
    GoalsBalance(ms);
    TotalDifference(teams, Tally(Initial(teams), ms));
  }

  // ---------------------------------------------------------------------
  // Ordering and numbering

  datatype Line = Line(team: string, entry: Entry)

  /** a ranks no lower than b: more points, or equal points and a greater goal difference, or both equal and at least as many goals for. */
  predicate Ahead(a: Entry, b: Entry)
  {
    a.points > b.points ||
    (a.points == b.points && (a.difference > b.difference ||
                              (a.difference == b.difference && a.goalsFor >= b.goalsFor)))
  }

  predicate Ordered(s: seq<Line>)
  {
    forall i, j :: 0 <= i < j < |s| ==> Ahead(s[i].entry, s[j].entry)
  }

  function Insert(x: Line, s: seq<Line>): (r: seq<Line>)
    requires Ordered(s)
    ensures Ordered(r)
    ensures multiset(r) == multiset(s) + multiset{x}
    ensures |r| == |s| + 1
    ensures r[0] == x || (s != [] && r[0] == s[0])
  {
    if s == [] then [x]
    else if Ahead(x.entry, s[0].entry) then [x] + s
    else
      var rest := Insert(x, s[1..]);
      assert s == [s[0]] + s[1..];
      assert Ahead(s[0].entry, rest[0].entry);
      [s[0]] + rest
  }

  /** The table ordered by points, then goal difference, then goals for, all descending. */
  function Ranked(s: seq<Line>): (r: seq<Line>)
    ensures Ordered(r)
    ensures multiset(r) == multiset(s)
    ensures |r| == |s|
  {
    if s == [] then []
    else
      assert s == [s[0]] + s[1..];
      Insert(s[0], Ranked(s[1..]))
  }

  /** A numbered row of the output table. */
  datatype Row = Row(pos: nat, team: string, entry: Entry)

  /** The Pos column: 1 for the first line, then consecutive. */
  function Numbered(s: seq<Line>): (r: seq<Row>)
    ensures |r| == |s|
    ensures forall i :: 0 <= i < |s| ==> r[i] == Row(i + 1, s[i].team, s[i].entry)
  {
    seq(|s|, i requires 0 <= i < |s| => Row(i + 1, s[i].team, s[i].entry))
  }

  /** The lines of the completed table, in the order of the team list. */
  function Lines(teams: seq<string>, table: map<string, Entry>): (r: seq<Line>)
    requires forall t :: t in teams ==> t in table
    ensures |r| == |teams|
    ensures forall i :: 0 <= i < |teams| ==> r[i] == Line(teams[i], table[teams[i]])
  {
    seq(|teams|, i requires 0 <= i < |teams| => Line(teams[i], table[teams[i]]))
  }

  lemma DistinctByMultiset<T>(a: seq<T>, b: seq<T>)
    requires multiset(a) == multiset(b) && Distinct(b)
    ensures Distinct(a)
  {
    forall x ensures multiset(b)[x] <= 1 {
      AtMostOnce(b, x);
    }
    forall i, j | 0 <= i < j < |a| ensures a[i] != a[j] {
      if a[i] == a[j] {
        TwiceCounted(a, i, j);
        assert false;
      }
    }
  }

  lemma {:induction false} AtMostOnce<T>(s: seq<T>, x: T)
    requires Distinct(s)
    ensures multiset(s)[x] <= 1
  {
    if s != [] {
      assert s == [s[0]] + s[1..];
      AtMostOnce(s[1..], x);
      if s[0] == x {
        assert x !in s[1..];
      }
    }
  }

  lemma TwiceCounted<T>(s: seq<T>, i: nat, j: nat)
    requires i < j < |s| && s[i] == s[j]
    ensures multiset(s)[s[i]] >= 2
  {
    assert s == s[..j] + [s[j]] + s[j + 1..];
    assert s[i] in s[..j];
  }

  /** Ranking reorders the lines and nothing else: each team keeps its own line and appears once. */
  lemma RankingKeepsLines(teams: seq<string>, table: map<string, Entry>)
    requires Distinct(teams)
    requires forall t :: t in teams ==> t in table
    ensures var ranked := Ranked(Lines(teams, table));
            (forall i :: 0 <= i < |ranked| ==> ranked[i].team in teams && ranked[i].entry == table[ranked[i].team]) &&
            (forall t :: t in teams ==> exists i :: 0 <= i < |ranked| && ranked[i].team == t) &&
            (forall i, j :: 0 <= i < j < |ranked| ==> ranked[i].team != ranked[j].team)
  {
    var lines := Lines(teams, table);
    var ranked := Ranked(lines);
    forall i | 0 <= i < |ranked|
      ensures ranked[i].team in teams && ranked[i].entry == table[ranked[i].team]
    {
      assert ranked[i] in multiset(lines);
      var k :| 0 <= k < |lines| && lines[k] == ranked[i];
    }
    assert Distinct(lines) by {
      forall i, j | 0 <= i < j < |lines| ensures lines[i] != lines[j] {
        assert lines[i].team == teams[i] && lines[j].team == teams[j];
      }
    }
    DistinctByMultiset(ranked, lines);
    forall t | t in teams ensures exists i :: 0 <= i < |ranked| && ranked[i].team == t {
      var k :| 0 <= k < |teams| && teams[k] == t;
      assert lines[k] in multiset(ranked);
      var i :| 0 <= i < |ranked| && ranked[i] == lines[k];
    }
    forall i, j | 0 <= i < j < |ranked| ensures ranked[i].team != ranked[j].team {
      assert ranked[i] != ranked[j];
    }
  }

  /** The season's completed table, before ranking. */
  function Season(ms: seq<Match>): (r: map<string, Entry>)
    ensures forall t :: t in Teams(ms) ==> t in r
  {
    SeasonCovered(ms);
    Complete(Tally(Initial(Teams(ms)), ms))
  }

  /** The output table: the season's lines, ranked by points, goal difference and goals for, and numbered. */
  function Table(ms: seq<Match>): (r: seq<Row>)
    ensures |r| == |Teams(ms)|
    ensures forall i :: 0 <= i < |r| ==> r[i].pos == i + 1
    ensures forall i, j :: 0 <= i < j < |r| ==> Ahead(r[i].entry, r[j].entry)
  {
    Numbered(Ranked(Lines(Teams(ms), Season(ms))))
  }

  /** Numbering keeps what ranking keeps: each listed team has exactly one row, with its own line. */
  lemma NumberingKeepsLines(teams: seq<string>, table: map<string, Entry>)
    requires Distinct(teams)
    requires forall t :: t in teams ==> t in table
    ensures var r := Numbered(Ranked(Lines(teams, table)));
            (forall t :: t in teams <==> exists i :: 0 <= i < |r| && r[i].team == t) &&
            (forall i, j :: 0 <= i < j < |r| ==> r[i].team != r[j].team) &&
            (forall i :: 0 <= i < |r| ==> r[i].team in table && r[i].entry == table[r[i].team])
  {
    RankingKeepsLines(teams, table);
    NumberedRows(Ranked(Lines(teams, table)), teams, table);
  }

  lemma NumberedRows(ranked: seq<Line>, teams: seq<string>, table: map<string, Entry>)
    requires forall t :: t in teams ==> t in table
    requires forall i :: 0 <= i < |ranked| ==> ranked[i].team in teams && ranked[i].entry == table[ranked[i].team]
    requires forall t :: t in teams ==> exists i :: 0 <= i < |ranked| && ranked[i].team == t
    requires forall i, j :: 0 <= i < j < |ranked| ==> ranked[i].team != ranked[j].team
    ensures var r := Numbered(ranked);
            (forall t :: t in teams <==> exists i :: 0 <= i < |r| && r[i].team == t) &&
            (forall i, j :: 0 <= i < j < |r| ==> r[i].team != r[j].team) &&
            (forall i :: 0 <= i < |r| ==> r[i].team in table && r[i].entry == table[r[i].team])
  {
    var r := Numbered(ranked);
    forall t | t in teams ensures exists i :: 0 <= i < |r| && r[i].team == t {
      var i :| 0 <= i < |ranked| && ranked[i].team == t;
      assert r[i].team == t;
    }
    forall t | (exists i :: 0 <= i < |r| && r[i].team == t) ensures t in teams {
      var i :| 0 <= i < |r| && r[i].team == t;
      assert ranked[i].team == t;
    }
  }

  /** Every team of the season has exactly one row, holding its own completed line. */
  lemma TableRows(ms: seq<Match>)
    ensures var r := Table(ms);
            (forall t :: t in Teams(ms) <==> exists i :: 0 <= i < |r| && r[i].team == t) &&
            (forall i, j :: 0 <= i < j < |r| ==> r[i].team != r[j].team) &&
            (forall i :: 0 <= i < |r| ==> r[i].team in Season(ms) && r[i].entry == Season(ms)[r[i].team])
  {
    var teams, table := Teams(ms), Season(ms);
    assert forall t :: t in teams ==> t in table;
    NumberingKeepsLines(teams, table);
    assert Table(ms) == Numbered(Ranked(Lines(teams, table)));
  }

  /** Every line is consistent and has DR = GF - GS. */
  predicate Settled(table: map<string, Entry>)
  {
    forall t :: t in table ==> Consistent(table[t]) && table[t].difference == table[t].goalsFor - table[t].goalsAgainst
  }

  /** Every line of the completed season table is settled. */
  lemma SeasonSettled(ms: seq<Match>)
    ensures Settled(Season(ms))
  {
    SeasonCovered(ms);
    LinesSettled(Teams(ms), ms);
  }

  lemma LinesSettled(teams: seq<string>, ms: seq<Match>)
    requires Covers(Initial(teams), ms)
    ensures Settled(Complete(Tally(Initial(teams), ms)))
  {
    SeasonTallyConsistent(teams, ms);
    CompleteSettles(Tally(Initial(teams), ms));
  }

  lemma SeasonTallyConsistent(teams: seq<string>, ms: seq<Match>)
    requires Covers(Initial(teams), ms)
    ensures AllConsistent(Tally(Initial(teams), ms))
  {
    TallyConsistent(Initial(teams), ms);
  }

  lemma CompleteSettles(table: map<string, Entry>)
    requires AllConsistent(table)
    ensures Settled(Complete(table))
  {
  }

  /** Every row of the table is consistent, and its goal difference is its goals for minus against. */
  lemma TableConsistent(ms: seq<Match>)
    ensures forall i :: 0 <= i < |Table(ms)| ==>
              Consistent(Table(ms)[i].entry) &&
              Table(ms)[i].entry.difference == Table(ms)[i].entry.goalsFor - Table(ms)[i].entry.goalsAgainst
  {
    TableRows(ms);
    SeasonSettled(ms);
  }

  /** The standings computation: accumulate, complete, rank and number. */
  method Standings(ms: seq<Match>) returns (rows: seq<Row>)
    ensures rows == Table(ms)
  {
    var teams := Teams(ms);
    var table := Accumulate(ms);
    var completed := Complete(table);
    var ranked := Ranked(Lines(teams, completed));
    rows := Numbered(ranked);
  }
}
