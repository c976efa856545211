# Football prediction engine — a Dafny model

This project models the core of a football prediction pipeline in Dafny and
proves properties about it. The pipeline has three parts:

* **The league table** (`CREA_CLASSIFICA.py`). It reads the current season's matches and
  builds one line per team. Each line counts points, matches played, won, drawn and
  lost, and goals for and against. It adds the goal difference, sorts the lines by
  points, then goal difference, then goals scored, and numbers them from 1.
  Modelled in `league_table.dfy`.
* **The strength and form builder** (`CALCOLO_MEDIE_NEW.py`). For every team it picks a
  window of recent matches. From those it computes per-statistic home and away averages
  and the attack and defence strengths relative to the league means. It also computes
  the advanced form index: recency-weighted points, each scaled by how hard the opponent
  is given its standings position. Modelled in `strength.dfy`.
* **The market and decision engine** (`PRONOSTICI_GENERATI.py`). For one fixture it:
  * tallies the head-to-head history;
  * classifies opponents into Top, Mid and Bottom tiers;
  * synthesises expected goals by blending the general strength with tier and
    similar-rank estimates;
  * adjusts them for head to head, form and referee;
  * builds the truncated Poisson score grid;
  * extracts the 1X2, both-teams-to-score, under/over, double chance, exact score and
    multigoal markets;
  * derives the per-team multigoal bands, the secondary-statistic markets (corners,
    shots, shots on target, fouls, cards) and the combination picks.

  Modelled in `head_to_head.dfy`, `expected_goals.dfy`, `score_grid.dfy`, `picks.dfy`
  and `secondary_stats.dfy`.

`common.dfy` holds shared helpers: sums, `Max`/`Min`/`Abs`, ceiling, `Last`/`Take`, and a
substring test. `records.dfy` holds the shared match record (eight counted statistics per
side), the role (home or away), statistics rows as `map<string, real>` with
default-taking lookups, the referee record and its loader.

Arithmetic is over exact reals and integers. The Poisson probabilities are an input
vector: the score grid is proved a distribution whenever that vector is one. The
imperative parts of the source are methods with loops proved against specification
functions:
* the league-table accumulation loop;
* the head-to-head tally;
* the form loop;
* the per-team record builder;
* the grid aggregation, line masses, goal totals and multigoal search;
* the truncation of the last pmf entry, done in place on an array.

The source's dictionaries and its code that computes only from values are functions.

## Model

| member | source | states |
|---|---|---|
| LeagueTable.Plus | CREA_CLASSIFICA.py:71-91 | Adding two lines adds every counter separately |
| LeagueTable.Credit | CREA_CLASSIFICA.py:71-91 | One match credits one played match and its goals for and against. It is a win iff scored > conceded, a draw iff they are equal, and a loss iff scored < conceded. Exactly one of the three holds, and points are 3 per win plus 1 per draw |
| LeagueTable.Unique | CREA_CLASSIFICA.py:55 | The de-duplicated team list has no repeats and exactly the elements of its input |
| LeagueTable.Teams | CREA_CLASSIFICA.py:55 | The season's team list has no repeats |
| LeagueTable.TeamsOfSeason | CREA_CLASSIFICA.py:55 | A team is in the table iff it plays home or away in some match of the season |
| LeagueTable.Initial | CREA_CLASSIFICA.py:58-61 | The initial table has exactly the season's teams, each with every counter at zero |
| LeagueTable.Record | CREA_CLASSIFICA.py:64-91 | Recording a match keeps the set of teams in the table |
| LeagueTable.Tally | CREA_CLASSIFICA.py:64-91 | Folding the season's matches keeps the set of teams in the table |
| LeagueTable.Accumulate | CREA_CLASSIFICA.py:58-91 | The in-place loop over the matches yields exactly the fold of every match into the zero table of the season's teams |
| LeagueTable.CreditKeepsConsistent | CREA_CLASSIFICA.py:71-91 | Crediting a match keeps played = won + drawn + lost and points = 3·won + drawn |
| LeagueTable.RecordKeepsConsistent | CREA_CLASSIFICA.py:64-91 | Recording a match keeps every line consistent |
| LeagueTable.TallyConsistent | CREA_CLASSIFICA.py:64-91 | After any number of matches every line is consistent |
| LeagueTable.SeasonCovered | CREA_CLASSIFICA.py:55-61 | Every team of every match has a line in the initial table, so no update misses its key |
| LeagueTable.TotalUnchanged | CREA_CLASSIFICA.py:64-91 | Updating a team outside a list leaves that list's counter total unchanged |
| LeagueTable.TotalUpdate | CREA_CLASSIFICA.py:64-91 | Updating one listed team changes the counter total by exactly that team's change |
| LeagueTable.TallyTotal | CREA_CLASSIFICA.py:64-91 | Over the whole table, each counter's total grows by the sum of the matches' contributions |
| LeagueTable.TotalZero | CREA_CLASSIFICA.py:58-61 | In the initial table every counter totals zero |
| LeagueTable.MatchTotalPlayed | CREA_CLASSIFICA.py:71-72 | Each match adds two played matches |
| LeagueTable.MatchTotalGoals | CREA_CLASSIFICA.py:73-76 | Each match adds as many goals for as goals against |
| LeagueTable.SeasonTotal | CREA_CLASSIFICA.py:58-91 | Every counter of the season's table totals the sum of the matches' contributions |
| LeagueTable.PlayedTwicePerMatch | CREA_CLASSIFICA.py:71-72 | The played column totals twice the number of matches |
| LeagueTable.GoalsBalance | CREA_CLASSIFICA.py:73-76 | The GF column total equals the GS column total |
| LeagueTable.Completed | CREA_CLASSIFICA.py:98 | The goal difference is goals for minus goals against, and every other counter is unchanged |
| LeagueTable.Complete | CREA_CLASSIFICA.py:98 | Completing the table keeps its teams and completes every line |
| LeagueTable.TotalDifference | CREA_CLASSIFICA.py:98 | The goal-difference column totals the GF total minus the GS total |
| LeagueTable.DifferencesSumToZero | CREA_CLASSIFICA.py:73-98 | In a season's table the goal differences sum to zero |
| LeagueTable.Insert | CREA_CLASSIFICA.py:101 | Inserting a line into an ordered list keeps it ordered and is a permutation of the list plus the line |
| LeagueTable.Ranked | CREA_CLASSIFICA.py:101 | The ranking is ordered by points, then difference, then goals for, all descending, and is a permutation of the lines |
| LeagueTable.Numbered | CREA_CLASSIFICA.py:104 | The i-th ranked line gets position i + 1 and keeps its team and counters |
| LeagueTable.Lines | CREA_CLASSIFICA.py:94-95 | One line per team, in team order, holding that team's counters |
| LeagueTable.RankingKeepsLines | CREA_CLASSIFICA.py:101 | Sorting neither loses nor duplicates a team, and keeps every team with its own counters |
| LeagueTable.Season | CREA_CLASSIFICA.py:58-98 | The completed season table has a line for every team of the season |
| LeagueTable.Table | CREA_CLASSIFICA.py:94-107 | The standings have one row per team, positions 1..n in order, and each row is at least as far ahead as every later row |
| LeagueTable.NumberingKeepsLines | CREA_CLASSIFICA.py:101-104 | After sorting and numbering, each team appears in exactly one row, holding its own line |
| LeagueTable.TableRows | CREA_CLASSIFICA.py:55-107 | Every team of the season appears in exactly one row of the standings, with its own season line |
| LeagueTable.SeasonSettled | CREA_CLASSIFICA.py:64-98 | Every season line has played = W + D + L, points = 3W + D and DR = GF − GS |
| LeagueTable.LinesSettled | CREA_CLASSIFICA.py:64-98 | Completing the fold of any covered matches settles every line |
| LeagueTable.TableConsistent | CREA_CLASSIFICA.py:64-107 | Every row of the final standings is consistent and its DR is GF − GS |
| LeagueTable.Standings | CREA_CLASSIFICA.py:42-107 | The table-building procedure returns exactly the specified standings |
| Strength.Points | CALCOLO_MEDIE_NEW.py:61-67 | A match is worth 0, 1 or 3 points to the analysed team |
| Strength.Positions | CALCOLO_MEDIE_NEW.py:56 | The position map has exactly the standings' teams, each mapped to one of its listed positions |
| Strength.MaxScore | CALCOLO_MEDIE_NEW.py:74 | With at least one match the maximum weighted score is at least 3 |
| Strength.MaxScoreClosedForm | CALCOLO_MEDIE_NEW.py:72-74 | The sum of 3·w over the recency weights 1..k is 3k(k+1)/2 |
| Strength.Form | CALCOLO_MEDIE_NEW.py:51-77 | The recency- and difficulty-weighted loop computes exactly the form index. The index is 0 below three matches or without standings, and otherwise the weighted points over their maximum across the last 7 matches |
| Strength.TermBound | CALCOLO_MEDIE_NEW.py:61-73 | With difficulties in [0, 1], one match contributes between 0 and 3 times its weight |
| Strength.DifficultyInRange | CALCOLO_MEDIE_NEW.py:69-70 | For a table of at least two teams with positions in 1..n, an opponent's difficulty (n − pos + 1)/n lies in (0, 1], whether listed or given the n/2 default |
| Strength.PositionInTable | CALCOLO_MEDIE_NEW.py:55-69 | In a table of at least two teams with positions 1..n, a listed team's position or the default n / 2 lies in [1, n] |
| Strength.ScoreBounds | CALCOLO_MEDIE_NEW.py:72-73 | The weighted score lies between 0 and the maximum possible score |
| Strength.FormInUnitRange | CALCOLO_MEDIE_NEW.py:51-77 | In a league of at least 2 teams whose listed positions lie in 1..n, the form index lies in [0, 1] |
| Strength.ScoreOfWinsOverLeader | CALCOLO_MEDIE_NEW.py:61-74 | Winning every match against the leader scores exactly the maximum |
| Strength.WinsOverLeaderGiveFullForm | CALCOLO_MEDIE_NEW.py:51-77 | Winning each of the recent matches (at least three) against the first-placed team gives form exactly 1 |
| Strength.Teams | CALCOLO_MEDIE_NEW.py:94 | A team is listed iff it plays in some match of the season |
| Strength.Promoted | CALCOLO_MEDIE_NEW.py:95-96 | A team is promoted iff it plays in the current season and in no match of the previous one |
| Strength.TeamMatches | CALCOLO_MEDIE_NEW.py:105 | A team's matches all involve it and are no more than the season's |
| Strength.TeamMatchesComplete | CALCOLO_MEDIE_NEW.py:105 | A match is kept iff it is one of the season's and involves the team. It is kept as often as the season lists it, and the kept matches stay in the season's order |
| Strength.Window | CALCOLO_MEDIE_NEW.py:104-116 | The analysis window. Promoted teams, teams with at least 19 current matches, or no previous season: the current matches only. Otherwise the last previous-season matches filling up to 38, followed by the current ones. Every match in the window involves the team |
| Strength.HomeMatches | CALCOLO_MEDIE_NEW.py:120 | The home subset holds only matches the team hosts |
| Strength.HomeMatchesComplete | CALCOLO_MEDIE_NEW.py:120 | A match is in the home subset iff it is in the window and the team hosts it. It appears as often as the window lists it, in the window's order |
| Strength.AwayMatches | CALCOLO_MEDIE_NEW.py:121 | The away subset holds only matches the team visits |
| Strength.AwayMatchesComplete | CALCOLO_MEDIE_NEW.py:121 | A match is in the away subset iff it is in the window and the team visits it. It appears as often as the window lists it, in the window's order |
| Strength.Column | CALCOLO_MEDIE_NEW.py:128-131 | The column holds each match's value of the statistic for the given side |
| Strength.Average | CALCOLO_MEDIE_NEW.py:128-131 | The mean of an empty subset is 0; otherwise the mean times the count is the column sum |
| Strength.LeagueMean | CALCOLO_MEDIE_NEW.py:79-84 | The league mean is defined exactly when there is at least one match, and then it times the number of matches is the column's sum |
| Strength.Relative | CALCOLO_MEDIE_NEW.py:138-144 | Dividing by a positive league mean is exact; a missing or non-positive mean gives strength 1 |
| Strength.Line | CALCOLO_MEDIE_NEW.py:127-144 | The statistic's line. Home attack is home scoring over the league home mean. Home defence is home conceding over the league away mean. The away pair is the reverse |
| Strength.LeagueAverageTeamIsNeutral | CALCOLO_MEDIE_NEW.py:141 | A team scoring at home exactly at the league's positive home mean has home attack strength 1 |
| Strength.StrengthsNonNegative | CALCOLO_MEDIE_NEW.py:128-144 | With non-negative counts every average and strength is non-negative |
| Strength.SubsequenceNonNegative | CALCOLO_MEDIE_NEW.py:120-121 | The home and away subsets of non-negative matches stay non-negative |
| Strength.AverageNonNegative | CALCOLO_MEDIE_NEW.py:128-131 | The average of non-negative values is non-negative |
| Strength.AllStatsListed | CALCOLO_MEDIE_NEW.py:19-28 | The statistics list covers every counted statistic |
| Strength.RecordOf | CALCOLO_MEDIE_NEW.py:119-144 | A team's record holds its form over its current-season matches and, for every statistic, the line over its window measured against the league means of both seasons |
| Strength.BuildRecords | CALCOLO_MEDIE_NEW.py:86-148 | The builder loop outputs a record for exactly the current-season teams whose window has at least 8 matches, each equal to that team's specified record |
| HeadToHead.Meetings | PRONOSTICI_GENERATI.py:210-214 | Every meeting is a match between the two teams, in either order, and every such match of the history is among the meetings |
| HeadToHead.MeetingsComplete | PRONOSTICI_GENERATI.py:210-214 | A match is a meeting iff it is in the history and is between the two teams. It appears as often as the history lists it, in the history's order |
| HeadToHead.Tally | PRONOSTICI_GENERATI.py:219-257 | The summary covers the newest n meetings. It counts wins, draws and losses from the current home team's point of view and gives that team's and the opponent's average goals. With no meetings it is the all-zero summary |
| HeadToHead.OutcomesPartition | PRONOSTICI_GENERATI.py:237-251 | Every meeting is exactly one of a home win, a draw and an away win |
| HeadToHead.SwappedPerspective | PRONOSTICI_GENERATI.py:240-251 | Swapping which team is "home" swaps the win and loss counts and the goal totals, and keeps the draws |
| HeadToHead.TallyConsistent | PRONOSTICI_GENERATI.py:233-251 | In any tally, wins + draws + losses equals the number analysed, which is at most n |
| ExpectedGoals.TierOf | PRONOSTICI_GENERATI.py:262-268 | An empty league gives Mid. Top iff the position is within ceil(0.35 n). Bottom iff the position is past n − ceil(0.25 n) and not Top |
| ExpectedGoals.TierMonotone | PRONOSTICI_GENERATI.py:262-268 | A worse position never gets a better tier |
| ExpectedGoals.RankTierAgrees | PRONOSTICI_GENERATI.py:262-268 | The integer-position form of the tier agrees with the real-valued one |
| ExpectedGoals.CountsInRange | PRONOSTICI_GENERATI.py:264-265 | For n ≥ 1, the top count is between 1 and n and the bottom count between 0 and n |
| ExpectedGoals.TierBands | PRONOSTICI_GENERATI.py:262-268 | The positions 1..n split into three consecutive intervals, Top, Mid and Bottom, with every position in exactly one |
| ExpectedGoals.BandIsInterval | PRONOSTICI_GENERATI.py:262-268 | A tier described by an interval test has exactly that interval as its positions |
| ExpectedGoals.TwentyTeamTiers | PRONOSTICI_GENERATI.py:262-268 | In a 20-team league the tiers are 1–7, 8–15 and 16–20 |
| ExpectedGoals.OverlapGoesToTop | PRONOSTICI_GENERATI.py:266-267 | In a one-team league the only position passes both band tests and is Top, because Top is tested first |
| ExpectedGoals.Blend | PRONOSTICI_GENERATI.py:293-304 | A blend with weight in [0, 1] lies between its two estimates; weight 0 leaves the first |
| ExpectedGoals.ConditionedWeight | PRONOSTICI_GENERATI.py:292-303 | The conditioned weight lies in [0, cap]. Up to 10 matches it is count/10 of the cap, and at 10 or more it is the cap |
| ExpectedGoals.ContextStep | PRONOSTICI_GENERATI.py:286-304 | With fewer than 5 matches in the context the estimate is unchanged. Otherwise it moves toward the context's estimate by the conditioned weight of the match count, so it stays between the two |
| ExpectedGoals.Expected | PRONOSTICI_GENERATI.py:270-306 | An empty statistics row on either side gives 0.5; otherwise the estimate blended through tier then similar rank, floored at 0.05 |
| ExpectedGoals.BlendedWithinEstimates | PRONOSTICI_GENERATI.py:278-304 | Before the floor, the synthesised value lies between the smallest and largest of the general, tier and similar-rank estimates |
| ExpectedGoals.UnconditionedIsGeneral | PRONOSTICI_GENERATI.py:276-306 | Without enough conditioned matches the estimate is the floored general product attack × opponent defence × league mean |
| ExpectedGoals.WorkedExample | PRONOSTICI_GENERATI.py:279-283 | Home attack 1.2 against a neutral defence with league home mean 1.5 gives 1.8 expected goals |
| ExpectedGoals.H2hShift | PRONOSTICI_GENERATI.py:315-319 | Fewer than two meetings give no shift. Otherwise the shift is positive iff the home side averaged more goals, and negative iff it averaged fewer |
| ExpectedGoals.FormFactor | PRONOSTICI_GENERATI.py:322-325 | For a form in [0, 1] the multiplier lies within 1 ± weight/2, and it is exactly 1 when the form is missing. With a positive weight it is above 1 iff the form is above 0.5, and below 1 iff the form is below 0.5 |
| ExpectedGoals.RefereeFactor | PRONOSTICI_GENERATI.py:328-334 | The foul factor is exactly 0.95 above 24.5 fouls per game, 1.03 below 18.5 and 1 otherwise; it always lies in [0.95, 1.03] |
| ExpectedGoals.PenaltyBonus | PRONOSTICI_GENERATI.py:336-338 | The penalty bonus is one 25th (0.04) of the referee's penalties per game |
| ExpectedGoals.UnknownRefereeIsNeutral | PRONOSTICI_GENERATI.py:128-134 | Without a referee file the loader's 22 fouls give a neutral foul factor and its 0.20 penalties a bonus of 0.008 |
| ExpectedGoals.Adjust | PRONOSTICI_GENERATI.py:309-340 | Both adjusted values are at least 0.05. The home side gets the H2H shift and the away side its negation, each then through form, referee and penalties |
| ExpectedGoals.NeutralAdjustment | PRONOSTICI_GENERATI.py:309-340 | No head to head, no form, a neutral referee and no penalties leave only the floor |
| ExpectedGoals.H2hPreservesTotal | PRONOSTICI_GENERATI.py:315-338 | With neutral form and referee, the H2H shift moves goals between the sides and keeps their sum apart from the penalty bonuses |
| ExpectedGoals.FirstHalf | PRONOSTICI_GENERATI.py:818-826 | The first-half value is at least 0.05 and at most max(0.05, 0.75 of the full-time value). It is the form-adjusted base (0.6 of the form weight) when that lies between the two. Above the cap it is the cap (or 0.05), and below 0.05 it is 0.05 |
| ExpectedGoals.FloorOverridesCap | PRONOSTICI_GENERATI.py:825-826 | At the smallest full-time value the floor beats the cap, so the first half equals the full match |
| ExpectedGoals.Synthesize | PRONOSTICI_GENERATI.py:786-826 | Each base is Expected against the OPPONENT's tier (positions defaulting to n // 2, n to 20), with the 1.5/1.2 full-time and 0.7/0.5 first-half league-mean defaults; full time is the adjustment of the bases; each first half is FirstHalf of its first-half base capped by its own full time; every estimate is at least 0.05 |
| ScoreGrid.Truncated | PRONOSTICI_GENERATI.py:350-353 | Truncation keeps the length of the goal vector |
| ScoreGrid.TruncatedIsDistribution | PRONOSTICI_GENERATI.py:350-353 | When the pmf prefix sums to at most 1, the truncated vector sums to 1. It is non-negative, keeps every entry but the last, and the last entry is the remaining tail |
| ScoreGrid.OverfullPrefixStaysOverfull | PRONOSTICI_GENERATI.py:352-353 | A prefix summing past 1 sets the last entry to 0 and leaves the total above 1 |
| ScoreGrid.TruncateTail | PRONOSTICI_GENERATI.py:352-353 | The in-place update of the last array entry yields the truncated vector |
| ScoreGrid.Scaled | PRONOSTICI_GENERATI.py:354 | Scaling multiplies every entry |
| ScoreGrid.Outer | PRONOSTICI_GENERATI.py:354 | The outer product's row i is the away vector scaled by home entry i |
| ScoreGrid.Matrix | PRONOSTICI_GENERATI.py:349-355 | The grid is the outer product of the two truncated vectors and is (k+1)×(k+1) |
| ScoreGrid.SumScaled | PRONOSTICI_GENERATI.py:354 | A scaled row sums to the factor times the row's sum |
| ScoreGrid.OuterRowsMass | PRONOSTICI_GENERATI.py:354 | The first i rows of an outer product carry the first i home masses times the away total |
| ScoreGrid.OuterMass | PRONOSTICI_GENERATI.py:354 | An outer product of a distribution carries the home total |
| ScoreGrid.GridIsDistribution | PRONOSTICI_GENERATI.py:349-355 | For Poisson-like inputs whose prefixes sum to at most 1, the grid is non-negative and sums to 1 |
| ScoreGrid.OuterNonNegative | PRONOSTICI_GENERATI.py:354 | An outer product of non-negative vectors is non-negative |
| ScoreGrid.MassPush | PRONOSTICI_GENERATI.py:385-393 | Adding one scoreline adds its probability exactly to the events it satisfies |
| ScoreGrid.MassAppend | PRONOSTICI_GENERATI.py:385-407 | The mass of an event is additive over concatenation |
| ScoreGrid.Aggregate | PRONOSTICI_GENERATI.py:385-394 | The double loop keeps exactly the non-negligible and edge cells. It returns the masses of home win, draw, away win, both score and not both over them |
| ScoreGrid.ResultsPartition | PRONOSTICI_GENERATI.py:389-393 | 1, X and 2 partition the kept mass, and so do GG and NG |
| ScoreGrid.LinePartition | PRONOSTICI_GENERATI.py:405-407 | Over and under a line partition the kept mass |
| ScoreGrid.KeptBoundValue | PRONOSTICI_GENERATI.py:388 | The skip bound counts at most k cells per row for the first k rows |
| ScoreGrid.RowKeptMass | PRONOSTICI_GENERATI.py:388 | Skipping cells below 0.00001 loses at most 0.00001 per skipped cell of a row |
| ScoreGrid.KeptMass | PRONOSTICI_GENERATI.py:385-388 | The kept cells' mass is below the grid mass by at most k² × 0.00001 |
| ScoreGrid.ExtractedMassNearOne | PRONOSTICI_GENERATI.py:349-394 | For distribution inputs the extracted mass is within k² × 0.00001 below 1 |
| ScoreGrid.LineMasses | PRONOSTICI_GENERATI.py:402-407 | The loop returns exactly the mass above the line and the mass at or below it |
| ScoreGrid.TotalsOf | PRONOSTICI_GENERATI.py:428-432 | The goal-total vector has 2k+1 entries; entry n is the mass of scorelines with n goals in all |
| ScoreGrid.GoalTotals | PRONOSTICI_GENERATI.py:428-432 | The accumulation loop yields exactly the goal-total vector |
| ScoreGrid.BestMultigoal | PRONOSTICI_GENERATI.py:434-450 | "NoBet" iff no non-parity range exceeds 0.15. Otherwise the pick is the first range in table order whose mass exceeds 0.15 and is at least every range's mass |
| ScoreGrid.MostLikely | PRONOSTICI_GENERATI.py:423-424 | The exact score is a cell of maximal probability, the first such in grid order |
| ScoreGrid.Extract | PRONOSTICI_GENERATI.py:379-452 | Result, GG/NG, lines, double chance, exact score and multigoal are each the pick of the exact masses of the kept cells. First-half grids carry no double chance, exact score or multigoal |
| Picks.Result1X2 | PRONOSTICI_GENERATI.py:357-367 | The 1X2 pick is one of 1, X, 2, "No bet". All three below 0.35 gives "No bet". "1" (or "2") only when that side is strictly likeliest. "X" only above 0.28, and only if likeliest or with 1 and 2 within 0.10 |
| Picks.ClearFavouriteIsPicked | PRONOSTICI_GENERATI.py:361-362 | A side above 0.52 and 0.15 clear of both others is picked |
| Picks.DrawWithoutMaximum | PRONOSTICI_GENERATI.py:360 | The draw rule picks X for (0.38, 0.33, 0.29) although X is not the likeliest outcome |
| Picks.NoBetExample | PRONOSTICI_GENERATI.py:357-367 | (0.40, 0.30, 0.30) matches no rule and gives "No bet" |
| Picks.OverUnder | PRONOSTICI_GENERATI.py:369-372 | "No bet" iff both are below 0.39 or they differ by less than 0.10; otherwise the likelier side |
| Picks.OverUnderOnDistribution | PRONOSTICI_GENERATI.py:369-372 | When the two sum to 1: Over iff P(over) ≥ 0.55, Under iff P(over) ≤ 0.45 |
| Picks.BothScore | PRONOSTICI_GENERATI.py:374-377 | "NoBet" iff both are below 0.39 or they differ by less than 0.10; otherwise Gol or NoGol by the likelier |
| Picks.BothScoreMirrorsOverUnder | PRONOSTICI_GENERATI.py:369-377 | The both-score and under/over rules decide identically and differ only in labels |
| Picks.DoubleChance | PRONOSTICI_GENERATI.py:411-420 | A 1 pick gives 1X and a 2 pick gives X2. An X pick gives 1X iff P(1X) > P(X2), else X2. An undecided 1X2 gives 1X iff P(1X) > 0.68 and P(1X) > P(X2), X2 iff P(X2) > 0.68 and P(X2) > P(1X), else "NoBet" |
| Picks.DoubleChanceFavoursLikelierSide | PRONOSTICI_GENERATI.py:411-420 | Fed its own 1X2 pick, double chance never covers the less likely side: 1X only when 1 is likelier than 2, X2 only when 2 is at least as likely as 1 |
| Picks.TeamBandIndex | PRONOSTICI_GENERATI.py:454-464 | The band is one of seven, and the xG (floored at 0) lies between its thresholds 0.6, 0.85, 1.35, 1.85, 2.6 and 3.3. The lowest band holds iff xG < 0.6, the highest iff xG ≥ 3.3 |
| Picks.BandsDisjoint | PRONOSTICI_GENERATI.py:454-464 | An xG lies in exactly one band |
| Picks.TeamMultigoal | PRONOSTICI_GENERATI.py:454-464 | The per-team multigoal is the label of the band the xG lies in |
| Picks.TeamBandMonotone | PRONOSTICI_GENERATI.py:456-463 | A larger xG never gets a lower band |
| Picks.Join | PRONOSTICI_GENERATI.py:874-881 | A joined combination is never a no-bet sentinel |
| Picks.Combine | PRONOSTICI_GENERATI.py:874-881 | A "NoBet" leg voids the combination. With the spaced test, "No bet" voids it too. Otherwise the legs are joined |
| Picks.CombosAsWritten | PRONOSTICI_GENERATI.py:866-881 | The eight combinations as written: the result and double-chance legs with GG/NG and multigoal test only "NoBet" |
| Picks.NoBetLeaksIntoCombos | PRONOSTICI_GENERATI.py:876-877 | An undecided 1X2 ("No bet") is joined into the result-with-both-score combination as written |
| Picks.CombosVoided | PRONOSTICI_GENERATI.py:866-881 | Each combination is "NoBet" iff one of its legs is undecided in either spelling |
| Picks.CombosAgreeExceptLeaks | PRONOSTICI_GENERATI.py:866-881 | The written and corrected combinations agree except where the 1X2 is "No bet" in the two legs that skip that test |
| SecondaryStats.Fallback | PRONOSTICI_GENERATI.py:592-599 | The fixed fallback's total is home plus away, and home ≥ away > 0 for every covered statistic |
| SecondaryStats.DefaultMeans | PRONOSTICI_GENERATI.py:613-614 | The league-mean defaults of each covered statistic equal its fallback's home and away values |
| SecondaryStats.ShotsOnTargetTakesShotDefaults | PRONOSTICI_GENERATI.py:613-614 | As written, the substring chain gives shots on target the shots defaults (12, 10) instead of (4, 3) |
| SecondaryStats.DefaultsAgreeOffShotsOnTarget | PRONOSTICI_GENERATI.py:613-614 | For every other covered statistic the substring chain gives the intended defaults |
| SecondaryStats.AbsentFirstChar | PRONOSTICI_GENERATI.py:613-614 | A name lacking the first character of a key does not contain that key |
| SecondaryStats.Expected | PRONOSTICI_GENERATI.py:589-630 | A missing row gives the fallback. Otherwise home = attack × opponent defence × home league mean, and away likewise, each floored at 0.1, and the total is their unfloored sum floored at 0.2 |
| SecondaryStats.ExpectedAgreesWithChain | PRONOSTICI_GENERATI.py:613-627 | For every covered statistic other than shots on target, and for shots on target whenever both league means are listed, the substring chain's defaults give the same side estimates |
| SecondaryStats.ShotsOnTargetDefaultsDiffer | PRONOSTICI_GENERATI.py:613-627 | With neutral strengths and no shots-on-target league means, the model gives 4 + 3 where the chain gives 12 + 10 |
| SecondaryStats.TotalIsSumOfSides | PRONOSTICI_GENERATI.py:621-630 | When neither side is floored, the total is home plus away |
| SecondaryStats.NeutralSideEstimate | PRONOSTICI_GENERATI.py:617-627 | Without strength columns in either row, a side's estimate is the league mean of its role, or the default mean when that is missing |
| SecondaryStats.NeutralStrengthsGiveLeagueMeans | PRONOSTICI_GENERATI.py:617-627 | With no strength columns, each side's expectation is its league mean (or the default mean), floored at 0.1 |
| SecondaryStats.Rescale | PRONOSTICI_GENERATI.py:672-687 | The total becomes the weighted mix of the model and the referee rate. The sides keep their proportion when the old total exceeds 0.1 and are unchanged otherwise |
| SecondaryStats.Reweighted | PRONOSTICI_GENERATI.py:668-687 | Only fouls (weight 0.7) and yellows (0.6) with a found referee are reweighted, towards the rate the loader supplied; anything else is unchanged |
| SecondaryStats.UnknownRefereeChangesNothing | PRONOSTICI_GENERATI.py:128-134 | The loader's profile for a missing referee file reweights nothing |
| SecondaryStats.MissingFoulRateUsesLoaderDefault | PRONOSTICI_GENERATI.py:144-147 | A found referee file without a foul rate pulls fouls towards 22 per game, the loader's default |
| SecondaryStats.RescaleKeepsSidesSummed | PRONOSTICI_GENERATI.py:676-679 | Rescaling keeps home + away = total |
| SecondaryStats.AgreeingRefereeChangesNothing | PRONOSTICI_GENERATI.py:674-679 | A referee rate equal to the model total changes nothing |
| SecondaryStats.Margin | PRONOSTICI_GENERATI.py:689 | Every statistic's 1X2 margin is positive |
| SecondaryStats.StatResult | PRONOSTICI_GENERATI.py:689-692 | "1" iff home exceeds away by more than the margin; "2" symmetrically; "X" iff they are within the margin |
| SecondaryStats.StatResultSymmetric | PRONOSTICI_GENERATI.py:689-692 | Swapping the sides swaps "1" and "2" and keeps "X" |
| SecondaryStats.FloorOfWhole | PRONOSTICI_GENERATI.py:635 | The floor of a whole number is itself |
| SecondaryStats.NormalizeLine | PRONOSTICI_GENERATI.py:632-635 | The normalised line is a half line within half a unit below or above the mean |
| SecondaryStats.NormalizeLineUnique | PRONOSTICI_GENERATI.py:632-635 | It is the only half line in that window |
| SecondaryStats.Nearest | PRONOSTICI_GENERATI.py:656 | The nearest line is at least as close as every line and strictly closer than every earlier one |
| SecondaryStats.Lines | PRONOSTICI_GENERATI.py:638-663 | With positive table lines the over line is below the under line. Without a table both are half lines around the mean, the over line at least 0.5. With a table they are the nearest line ∓ 1, with 0.5 when the over line would be negative |
| SecondaryStats.LineTable | PRONOSTICI_GENERATI.py:69-75 | Only covered statistics have a line table; all lines are positive |
| SecondaryStats.Halved | PRONOSTICI_GENERATI.py:702 | The per-team table halves every total line |
| SecondaryStats.Markets | PRONOSTICI_GENERATI.py:665-714 | The reweighted expectation, its 1X2, and the total and per-team lines, each with the over line below the under line |
| Records.Role.Opposite | PRONOSTICI_GENERATI.py:280 | The opponent's role is the other one |
| Records.Get | PRONOSTICI_GENERATI.py:617-625 | A lookup returns the stored value when the key is present and the default otherwise |
| Records.LoadReferee | PRONOSTICI_GENERATI.py:128-155 | No file gives the unknown profile (22, 4, 0.20, not found). A found file gives each rate it lists and the loader's default for each it lacks, and is marked found |

## Left out

- Rounding of the reported values (`round(…, 2)`, `round(…, 3)`, `round(…, 4)`) is not modelled: all arithmetic is exact. Because of this, the under/over and multigoal masses are modelled as sums of the exact cell probabilities, while the source sums the probabilities rounded to 4 decimals.
- ScoreGrid.MostLikely compares exact probabilities. The source sorts the exact scores on `round(prob, 4)` (PRONOSTICI_GENERATI.py:394, 423), so cells within 0.00005 of each other can tie there, and the first in grid order wins.
- The Poisson pmf and cdf (a scientific library) are not computed. The grid takes the two pmf vectors as inputs, and the distribution lemmas assume what a pmf satisfies.
- The per-team under/over (`calcola_prob_standard_uo_squadra`, a Poisson cdf) and its picks are left out for the same reason.
- The specific-halves markets (`genera_pronostici_tempi_specifici_v2`, including the second-half grid) are not modelled.
- The list of the top 4 exact scores is not modelled; only the single most likely score is.
- File and network I/O are not modelled: CSV and JSON loading, the alias table, the referee-file search (Records.LoadReferee takes the matched file's numeric content, or None, as its input), folder clearing, the git push and the JSON output. The model starts from the rows those loaders produce.
- Output strings ("Over 9.5 (media: …)", "1 + Over") are modelled as values: lines as numbers, combinations as joined labels.
- NaN and the `fillna(0)` conversion are not modelled. Date parsing is not modelled either: the model takes matches already in date order.
- The first definition of the statistic line formatter (PRONOSTICI_GENERATI.py:466-490) is shadowed by the later definition at line 638, which is the one modelled.
- The strength builder writes columns without the `_generale_recente` suffix and no `num_partite_*_VS_*` columns, while the engine reads those names. The model takes the engine's rows as given, so with the builder's actual output every such lookup takes its default. Where those columns come from is not part of this model.
- LeagueTable.Ranked: the order among teams tied on points, difference and goals scored is not stated. The source relies on the library sort's order, and the model only proves the ranking ordered and a permutation.
- The season file selection (`glob`, newest file first, previous season second) is not modelled; the seasons are inputs.
- SecondaryStats.Expected uses the corrected league-mean defaults of the finding on PRONOSTICI_GENERATI.py:613-614. For shots on target with a league row that lacks its means, the source gives the defaults 12 and 10 and the model gives 4 and 3. ExpectedAgreesWithChain proves this is the only difference, and ShotsOnTargetDefaultsDiffer exhibits it.
- SecondaryStats.NeutralStrengthsGiveLeagueMeans states the league-mean defaults of the corrected table, for the same reason.
- SecondaryStats.Markets inherits the corrected defaults from Expected, so on that one input its 1X2 and lines follow 4 and 3 where the source follows 12 and 10.
- NEXT_MATCH.py, REFEREE.py and CSVNEW.py (fixture scraping, referee scraping, CSV download) are not part of this model.

## Findings

| source | as written | input that shows it | evidently intended | confidence | as-written member | corrected member |
|---|---|---|---|---|---|---|
| PRONOSTICI_GENERATI.py:876-877 | The result-with-both-score and result-with-multigoal combinations void only on "NoBet", but the 1X2 pick says "No bet" (with a space) when undecided | 1X2 probabilities (0.40, 0.30, 0.30) give "No bet", which is joined as "No bet + Gol" | An undecided 1X2 voids every combination it is part of | high, not executed | Picks.NoBetLeaksIntoCombos | Picks.CombosVoided |
| PRONOSTICI_GENERATI.py:613-614 | The default league means are chosen by substring tests in the order corner, tiri, tiri_porta; "tiri" is contained in "tiri_porta", so that branch is never reached | Statistic "tiri_porta" gets defaults (12.0, 10.0) | Shots on target get (4.0, 3.0), as in its fallback at line 596 | high, not executed | SecondaryStats.ShotsOnTargetTakesShotDefaults | SecondaryStats.DefaultMeans |
