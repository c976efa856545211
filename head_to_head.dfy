/**
 * The head-to-head summary of the most recent meetings of the two teams of an
 * upcoming fixture, always seen from the side of the upcoming home team.
 */
module HeadToHead {
  import opened Common
  import opened Records

  datatype Summary = Summary(analysed: nat, homeWins: nat, draws: nat, awayWins: nat,
                             avgHomeGoals: real, avgAwayGoals: real, avgTotalGoals: real)

  const NoMeetings := Summary(0, 0, 0, 0, 0.0, 0.0, 0.0)

  /** The result of one meeting for the upcoming home team. */
  datatype Outcome = HomeWin | Draw | AwayWin

  predicate IsMeeting(m: Match, home: string, away: string)
  {
    (m.home == home && m.away == away) || (m.home == away && m.away == home)
  }

  /** The meetings of the two teams in either orientation, in the order of the history. */
  function Meetings(history: seq<Match>, home: string, away: string): (r: seq<Match>)
    ensures |r| <= |history|
    ensures forall i :: 0 <= i < |r| ==> IsMeeting(r[i], home, away)
    ensures forall m :: m in history && IsMeeting(m, home, away) ==> m in r
  {
    if history == [] then []
    else
      var rest := Meetings(history[..|history| - 1], home, away);
      var m := history[|history| - 1];
      if IsMeeting(m, home, away) then rest + [m] else rest
  }

  /** Meetings keeps every meeting of the history and nothing else, each as often as the history holds it, in its order. */
  lemma {:induction false} MeetingsComplete(history: seq<Match>, home: string, away: string)
    ensures forall m :: m in Meetings(history, home, away) <==> m in history && IsMeeting(m, home, away)
    ensures forall m :: multiset(Meetings(history, home, away))[m] == if IsMeeting(m, home, away) then multiset(history)[m] else 0
    ensures Subsequence(Meetings(history, home, away), history)
  {
    if history != [] {
      var init, x := history[..|history| - 1], history[|history| - 1];
      MeetingsComplete(init, home, away);
      assert history == init + [x];
      FilterStep(Meetings(history, home, away), Meetings(init, home, away), history, init, x, IsMeeting(x, home, away));
    }
  }

  /** The goals of a meeting as (upcoming home team, upcoming away team). */
  function GoalsFor(m: Match, home: string): (int, int)
  {
    if m.home == home then (m.homeCounts.goals, m.awayCounts.goals)
    else (m.awayCounts.goals, m.homeCounts.goals)
  }

  function OutcomeOf(m: Match, home: string): Outcome
  {
    var (h, a) := GoalsFor(m, home);
    if h > a then HomeWin else if a > h then AwayWin else Draw
  }

  function Count(ms: seq<Match>, home: string, o: Outcome): nat
  {
    if ms == [] then 0
    else Count(ms[..|ms| - 1], home, o) + (if OutcomeOf(ms[|ms| - 1], home) == o then 1 else 0)
  }

  function HomeGoals(ms: seq<Match>, home: string): int
  {
    if ms == [] then 0 else HomeGoals(ms[..|ms| - 1], home) + GoalsFor(ms[|ms| - 1], home).0
  }

  function AwayGoals(ms: seq<Match>, home: string): int
  {
    if ms == [] then 0 else AwayGoals(ms[..|ms| - 1], home) + GoalsFor(ms[|ms| - 1], home).1
  }

  /** The meetings the summary is computed from: the first n of the newest-first history. */
  function Considered(history: seq<Match>, home: string, away: string, n: nat): seq<Match>
  {
    Take(Meetings(history, home, away), n)
  }

  /** The counters over one more meeting grow by that meeting's outcome and goals. */
  lemma TallyStep(ms: seq<Match>, home: string, i: nat)
    requires i < |ms|
    ensures forall o :: Count(ms[..i + 1], home, o) == Count(ms[..i], home, o) + (if OutcomeOf(ms[i], home) == o then 1 else 0)
    ensures HomeGoals(ms[..i + 1], home) == HomeGoals(ms[..i], home) + GoalsFor(ms[i], home).0
    ensures AwayGoals(ms[..i + 1], home) == AwayGoals(ms[..i], home) + GoalsFor(ms[i], home).1
  {
    assert ms[..i + 1][..i] == ms[..i];
  }

  /**
   * Tallies wins, draws and losses and the average goals of the considered
   * meetings. `history` is the date-sorted (newest first) list of matches of
   * every season file of the league.
   */
  method Tally(history: seq<Match>, home: string, away: string, n: nat) returns (s: Summary)
    ensures var ms := Considered(history, home, away, n);
      && s.analysed == |ms| <= n
      && s.homeWins == Count(ms, home, HomeWin)
      && s.draws == Count(ms, home, Draw)
      && s.awayWins == Count(ms, home, AwayWin)
      && (ms == [] ==> s == NoMeetings)
      && (ms != [] ==>
            && s.avgHomeGoals == HomeGoals(ms, home) as real / |ms| as real
            && s.avgAwayGoals == AwayGoals(ms, home) as real / |ms| as real
            && s.avgTotalGoals == (HomeGoals(ms, home) + AwayGoals(ms, home)) as real / |ms| as real)
  {
    var ms := Considered(history, home, away, n);
    if ms == [] {
      return NoMeetings;
    }
    var wins, draws, losses := 0, 0, 0;
    var goalsHome, goalsAway := 0, 0;
    var i := 0;
    while i < |ms|
      invariant 0 <= i <= |ms|
      invariant wins == Count(ms[..i], home, HomeWin)
      invariant draws == Count(ms[..i], home, Draw)
      invariant losses == Count(ms[..i], home, AwayWin)
      invariant goalsHome == HomeGoals(ms[..i], home)
      invariant goalsAway == AwayGoals(ms[..i], home)
    {
      TallyStep(ms, home, i);
      var p := ms[i];
      var gc, gt := p.homeCounts.goals, p.awayCounts.goals;
      if p.home == home {
        goalsHome, goalsAway := goalsHome + gc, goalsAway + gt;
        if gc > gt { wins := wins + 1; }
        else if gt > gc { losses := losses + 1; }
        else { draws := draws + 1; }
      } else {
        goalsHome, goalsAway := goalsHome + gt, goalsAway + gc;
        if gt > gc { wins := wins + 1; }
        else if gc > gt { losses := losses + 1; }
        else { draws := draws + 1; }
      }
      i := i + 1;
    }
    assert ms[..|ms|] == ms;
    var len := |ms| as real;
    s := Summary(|ms|, wins, draws, losses,
                 goalsHome as real / len, goalsAway as real / len, (goalsHome + goalsAway) as real / len);
  }

  /** Every considered meeting is a win, a draw or a loss for the home team, exactly one. */
  lemma {:induction false} OutcomesPartition(ms: seq<Match>, home: string)
    ensures Count(ms, home, HomeWin) + Count(ms, home, Draw) + Count(ms, home, AwayWin) == |ms|
  {
    if ms != [] {
      OutcomesPartition(ms[..|ms| - 1], home);
    }
  }

  /**
   * Seen from the other team, the tally swaps wins and losses and the goal
   * totals: the orientation of the upcoming fixture only relabels the counts.
   */
  lemma {:induction false} SwappedPerspective(ms: seq<Match>, home: string, away: string)
    requires home != away
    requires forall i :: 0 <= i < |ms| ==> IsMeeting(ms[i], home, away)
    ensures Count(ms, away, HomeWin) == Count(ms, home, AwayWin)
    ensures Count(ms, away, AwayWin) == Count(ms, home, HomeWin)
    ensures Count(ms, away, Draw) == Count(ms, home, Draw)
    ensures HomeGoals(ms, away) == AwayGoals(ms, home)
    ensures AwayGoals(ms, away) == HomeGoals(ms, home)
  {
    if ms != [] {
      SwappedPerspective(ms[..|ms| - 1], home, away);
    }
  }

  /** The summary's wins, draws and losses add up to the meetings analysed, at most n of them. */
  lemma TallyConsistent(history: seq<Match>, home: string, away: string, n: nat, s: Summary)
    requires var ms := Considered(history, home, away, n);
      && s.analysed == |ms|
      && s.homeWins == Count(ms, home, HomeWin)
      && s.draws == Count(ms, home, Draw)
      && s.awayWins == Count(ms, home, AwayWin)
    ensures s.homeWins + s.draws + s.awayWins == s.analysed <= n
  {
    OutcomesPartition(Considered(history, home, away, n), home);
  }
}
