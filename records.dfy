/**
 * The records the pipeline passes between its scripts: a played match, the
 * per-team statistics row (a dictionary of named numeric columns), and the
 * referee profile.
 */
module Records {
  import opened Common

  /** The two sides of a fixture; their names are the column suffixes "casa" and "trasferta". */
  datatype Role = Home | Away {
    function Name(): string
    {
      match this
      case Home => "casa"
      case Away => "trasferta"
    }

    function Opposite(): (r: Role)
      ensures r != this
    {
      if Home? then Away else Home
    }
  }

  /** The eight statistics the strength builder analyses, with their base names. */
  datatype Stat = Goals | FirstHalfGoals | Shots | ShotsOnTarget | Corners | Fouls | Yellows | Reds {
    function Name(): string
    {
      match this
      case Goals => "gol"
      case FirstHalfGoals => "gol_1T"
      case Shots => "tiri"
      case ShotsOnTarget => "tiri_porta"
      case Corners => "corner"
      case Fouls => "falli"
      case Yellows => "gialli"
      case Reds => "rossi"
    }
  }

  /** One side's counts in a match. */
  datatype Counts = Counts(goals: int, firstHalfGoals: int, shots: int, shotsOnTarget: int,
                           corners: int, fouls: int, yellows: int, reds: int)
  {
    function Of(s: Stat): int
    {
      match s
      case Goals => goals
      case FirstHalfGoals => firstHalfGoals
      case Shots => shots
      case ShotsOnTarget => shotsOnTarget
      case Corners => corners
      case Fouls => fouls
      case Yellows => yellows
      case Reds => reds
    }
  }

  /** A played fixture; sequences of matches are kept in date order, oldest first. */
  datatype Match = Match(home: string, away: string, homeCounts: Counts, awayCounts: Counts)
  {
    function Value(s: Stat, side: Role): int
    {
      if side == Home then homeCounts.Of(s) else awayCounts.Of(s)
    }

    predicate Involves(team: string)
    {
      home == team || away == team
    }
  }

  /** A row of a statistics file or a JSON object of numbers: column name to value. */
  type Row = map<string, real>

  /** Python's dict.get(key, default). */
  function Get(m: Row, key: string, default: real): (v: real)
    ensures key in m ==> v == m[key]
    ensures key !in m ==> v == default
  {
    if key in m then m[key] else default
  }

  /**
   * The referee profile as the loader returns it. The loader fills every rate
   * it does not find with its own default, so each rate is always present and
   * the defaults that the consumers pass to their own lookups never apply.
   */
  datatype Referee = Referee(foulsPerGame: real, yellowsPerGame: real, penaltiesPerGame: real, statsFound: bool)

  /** The loader's profile when no referee file is found: 22 fouls, 4 yellows and 0.20 penalties per game. */
  const UnknownReferee := Referee(22.0, 4.0, 0.20, false)

  /**
   * The referee loader. `file` is the numeric content of the first referee
   * file whose name contains the normalised referee name, or None when the
   * name is empty, no file matches or the folder cannot be read. A rate the
   * file lacks, or holds as null or as a value that does not convert, takes
   * the default of the unknown profile.
   */
  function LoadReferee(file: Option<Row>): (r: Referee)
    ensures file.None? <==> !r.statsFound
    ensures file.None? ==> r == UnknownReferee
    ensures file.Some? ==>
      && ("falli_pg" in file.value ==> r.foulsPerGame == file.value["falli_pg"])
      && ("gialli_pg" in file.value ==> r.yellowsPerGame == file.value["gialli_pg"])
      && ("rigori_pg" in file.value ==> r.penaltiesPerGame == file.value["rigori_pg"])
    ensures file.Some? ==>
      && ("falli_pg" !in file.value ==> r.foulsPerGame == UnknownReferee.foulsPerGame)
      && ("gialli_pg" !in file.value ==> r.yellowsPerGame == UnknownReferee.yellowsPerGame)
      && ("rigori_pg" !in file.value ==> r.penaltiesPerGame == UnknownReferee.penaltiesPerGame)
  {
    match file
    case None => UnknownReferee
    case Some(json) =>
      Referee(Get(json, "falli_pg", UnknownReferee.foulsPerGame),
              Get(json, "gialli_pg", UnknownReferee.yellowsPerGame),
              Get(json, "rigori_pg", UnknownReferee.penaltiesPerGame), true)
  }
}
