/**
  * Point-in-time features for one team before one game, and the 44-slot
  * vector for a game (predictions/features.py, class FeatureExtractor).
  *
  * Every query reads only completed games dated strictly before the cutoff;
  * `NoLeakage` proves that nothing else in the store can change a feature.
  */
module Features {
  import opened Wrappers
  import opened Store

  /**
    * InsufficientDataError; the TypeError Python raises when it compares a NULL
    * score; and the IndexError the dataset builder raises on `X.shape[1]` when
    * it built no row at all.
    */
  datatype ExtractError = InsufficientData | ScoreTypeError | NoRowsIndexError

  /** Fewer selected games than this raise InsufficientDataError. */
  const MinHistory: nat := 3
  /** The trend scan looks at this many games, whatever the extractor's window. */
  const TrendWindow: nat := 5
  const NeutralTemperature: int := 70
  const DefaultRestDays: int := 7
  const MaxRestDays: int := 14

  // ---------------------------------------------------------------------------
  // Selecting games: completed, involving the team, strictly before the cutoff,
  // newest first, at most n of them.
  // ---------------------------------------------------------------------------

  predicate QualifiesBefore(g: Game, team: TeamId, before: Day) {
    Involves(g, team) && g.date < before && g.homeScore.Some?
  }

  /** The store's games that the extraction queries may select, in store order. */
  function Qualifying(gs: seq<Game>, team: TeamId, before: Day): (r: seq<Game>)
    ensures forall g :: g in r <==> g in gs && QualifiesBefore(g, team, before)
    ensures |r| <= |gs|
    decreases |gs|
  {
    if gs == [] then []
    else (if QualifiesBefore(gs[0], team, before) then [gs[0]] else []) + Qualifying(gs[1..], team, before)
  }

  /** The games dated strictly before `before`, in store order. */
  function Past(gs: seq<Game>, before: Day): (r: seq<Game>)
    ensures forall g :: g in r <==> g in gs && g.date < before
    decreases |gs|
  {
    if gs == [] then []
    else (if gs[0].date < before then [gs[0]] else []) + Past(gs[1..], before)
  }

  /** `filter(team) .filter(date__lt=before) .filter(home_score__isnull=False) .order_by('-date')[:n]` */
  function Recent(gs: seq<Game>, team: TeamId, before: Day, n: nat): (r: seq<Game>)
    ensures |r| == Min(n, |Qualifying(gs, team, before)|)
    ensures forall g :: g in r ==> g in gs && QualifiesBefore(g, team, before)
    ensures SortedByDate(r, true)
  {
    var q := Qualifying(gs, team, before);
    var sorted := SortByDate(q, true);
    var r := Take(sorted, n);
    assert forall g :: g in r ==> g in q by {
      forall g | g in r ensures g in q {
        assert g in sorted;
        assert g in multiset(sorted);
      }
    }
    r
  }

  /** The selected games are the newest: every qualifying game left out is no newer than any taken. */
  lemma RecentAreNewest(gs: seq<Game>, team: TeamId, before: Day, n: nat)
    ensures multiset(Recent(gs, team, before, n)) <= multiset(Qualifying(gs, team, before))
    ensures forall g, h :: g in Recent(gs, team, before, n) &&
                           h in multiset(Qualifying(gs, team, before)) - multiset(Recent(gs, team, before, n))
                           ==> h.date <= g.date
  {
    var q := Qualifying(gs, team, before);
    var s := SortByDate(q, true);
    var r := Recent(gs, team, before, n);
    var k := |r|;
    assert r == s[..k];
    PrefixRest(s, k);
    SortedPrefixNewer(s, k);
    forall g: Game, h: Game | g in r && h in multiset(q) - multiset(r) ensures h.date <= g.date {
      assert h in multiset(s[k..]);
    }
  }

  /** `.order_by('-date').first()`: the team's last completed game before the cutoff. */
  function Latest(gs: seq<Game>, team: TeamId, before: Day): (r: Option<Game>)
    ensures r.None? <==> Qualifying(gs, team, before) == []
    ensures r.Some? ==> r.value in gs && QualifiesBefore(r.value, team, before)
    ensures r.Some? ==> forall g :: g in gs && QualifiesBefore(g, team, before) ==> g.date <= r.value.date
  {
    var recent := Recent(gs, team, before, 1);
    if recent == [] then None
    else
      var s := SortByDate(Qualifying(gs, team, before), true);
      assert recent[0] == s[0];
      assert forall g :: g in gs && QualifiesBefore(g, team, before) ==> g.date <= recent[0].date by {
        forall g | g in gs && QualifiesBefore(g, team, before) ensures g.date <= recent[0].date {
          assert g in multiset(s);
          HeadIsNewest(s, g);
        }
      }
      Some(recent[0])
  }

  function GameIds(gs: seq<Game>): set<string> {
    set g | g in gs :: g.id
  }

  // ---------------------------------------------------------------------------
  // Stat rows and Django's Avg aggregate.
  // ---------------------------------------------------------------------------

  datatype StatField =
    | PassAttempts | PassCompletions | PassYards | PassTouchdowns
    | RushAttempts | RushYards | RushTouchdowns
    | Interceptions | FumblesLost
    | DefSacks | DefInterceptions | DefFumblesForced

  function Field(row: TeamGameStat, f: StatField): int {
    match f
    case PassAttempts => row.passAttempts
    case PassCompletions => row.passCompletions
    case PassYards => row.passYards
    case PassTouchdowns => row.passTouchdowns
    case RushAttempts => row.rushAttempts
    case RushYards => row.rushYards
    case RushTouchdowns => row.rushTouchdowns
    case Interceptions => row.interceptions
    case FumblesLost => row.fumblesLost
    case DefSacks => row.defSacks
    case DefInterceptions => row.defInterceptions
    case DefFumblesForced => row.defFumblesForced
  }

  function Sum(rows: seq<TeamGameStat>, f: StatField): int
    decreases |rows|
  {
    if rows == [] then 0 else Field(rows[0], f) + Sum(rows[1..], f)
  }

  /** `Avg(field)`: NULL over no rows, otherwise the mean of the column. */
  function Avg(rows: seq<TeamGameStat>, f: StatField): (r: Option<real>)
    ensures r.None? <==> rows == []
    ensures r.Some? ==> r.value * |rows| as real == Sum(rows, f) as real
  {
    if rows == [] then None else Some(Sum(rows, f) as real / |rows| as real)
  }

  /** Python's `x or d` on an aggregate: NULL and 0 both give `d`. */
  function Or(x: Option<real>, d: real): real {
    if x.Some? && x.value != 0.0 then x.value else d
  }

  /** `Avg(field) or 0`: the mean of the column over the rows, and 0 over no rows. */
  function AvgOrZero(rows: seq<TeamGameStat>, f: StatField): (v: real)
    ensures rows == [] ==> v == 0.0
    ensures rows != [] ==> v * |rows| as real == Sum(rows, f) as real
  {
    Or(Avg(rows, f), 0.0)
  }

  /** `FootballTeamGameStat.objects.filter(team_id=team, game_id__in=ids)` */
  function TeamRows(stats: seq<TeamGameStat>, team: TeamId, ids: set<string>): (r: seq<TeamGameStat>)
    ensures forall x :: x in r <==> x in stats && x.team == team && x.gameId in ids
    decreases |stats|
  {
    if stats == [] then []
    else (if stats[0].team == team && stats[0].gameId in ids then [stats[0]] else [])
         + TeamRows(stats[1..], team, ids)
  }

  /** `FootballTeamGameStat.objects.filter(game_id__in=ids).exclude(team_id=team)` */
  function OpponentRows(stats: seq<TeamGameStat>, team: TeamId, ids: set<string>): (r: seq<TeamGameStat>)
    ensures forall x :: x in r <==> x in stats && x.team != team && x.gameId in ids
    decreases |stats|
  {
    if stats == [] then []
    else (if stats[0].team != team && stats[0].gameId in ids then [stats[0]] else [])
         + OpponentRows(stats[1..], team, ids)
  }

  /** The stat rows of the games in `ids`, whatever the team. */
  function RowsOfGames(stats: seq<TeamGameStat>, ids: set<string>): (r: seq<TeamGameStat>)
    ensures forall x :: x in r <==> x in stats && x.gameId in ids
    decreases |stats|
  {
    if stats == [] then []
    else (if stats[0].gameId in ids then [stats[0]] else []) + RowsOfGames(stats[1..], ids)
  }

  // ---------------------------------------------------------------------------
  // Points per game, by the side the team played on.
  // ---------------------------------------------------------------------------

  /** `score or 0` */
  function OrZero(x: Option<int>): int {
    if x.Some? then x.value else 0
  }

  /** The other team in `g`. */
  function Opponent(g: Game, team: TeamId): TeamId {
    if g.homeTeam == team then g.awayTeam else g.homeTeam
  }

  /** Points `team` scored in `g`: its own side's score, NULL read as 0. */
  function PointsScored(g: Game, team: TeamId): (r: int)
    ensures g.homeTeam == team ==> r == OrZero(g.homeScore)
    ensures g.homeTeam != team ==> r == OrZero(g.awayScore)
  {
    if g.homeTeam == team then OrZero(g.homeScore) else OrZero(g.awayScore)
  }

  /** Points `team` allowed in `g`: what the opponent scored in the same game. */
  function PointsAllowed(g: Game, team: TeamId): (r: int)
    ensures Involves(g, team) && g.homeTeam != g.awayTeam ==> r == PointsScored(g, Opponent(g, team))
    ensures r + PointsScored(g, team) == OrZero(g.homeScore) + OrZero(g.awayScore)
  {
    if g.homeTeam == team then OrZero(g.awayScore) else OrZero(g.homeScore)
  }

  function ScoresFor(games: seq<Game>, team: TeamId): seq<int> {
    seq(|games|, i requires 0 <= i < |games| => PointsScored(games[i], team))
  }

  function AllowedFor(games: seq<Game>, team: TeamId): seq<int> {
    seq(|games|, i requires 0 <= i < |games| => PointsAllowed(games[i], team))
  }

  function Total(xs: seq<int>): int
    decreases |xs|
  {
    if xs == [] then 0 else xs[0] + Total(xs[1..])
  }

  /** `np.mean(xs) if xs else 0` */
  function Mean(xs: seq<int>): (r: real)
    ensures xs != [] ==> r * |xs| as real == Total(xs) as real
    ensures xs == [] ==> r == 0.0
  {
    if xs == [] then 0.0 else Total(xs) as real / |xs| as real
  }

  /** The loop that builds `points_scored` by appending one score per game. */
  method CollectPointsScored(games: seq<Game>, team: TeamId) returns (points: seq<int>)
    ensures |points| == |games|
    ensures forall i :: 0 <= i < |games| ==> points[i] == PointsScored(games[i], team)
  {
    points := [];
    for i := 0 to |games|
      invariant |points| == i
      invariant forall j :: 0 <= j < i ==> points[j] == PointsScored(games[j], team)
    {
      var game := games[i];
      if game.homeTeam == team {
        points := points + [OrZero(game.homeScore)];
      } else {
        points := points + [OrZero(game.awayScore)];
      }
    }
  }

  /** The loop that builds `points_allowed` by appending the opposing score per game. */
  method CollectPointsAllowed(games: seq<Game>, team: TeamId) returns (points: seq<int>)
    ensures |points| == |games|
    ensures forall i :: 0 <= i < |games| ==> points[i] == PointsAllowed(games[i], team)
  {
    points := [];
    for i := 0 to |games|
      invariant |points| == i
      invariant forall j :: 0 <= j < i ==> points[j] == PointsAllowed(games[j], team)
    {
      var game := games[i];
      if game.homeTeam == team {
        points := points + [OrZero(game.awayScore)];
      } else {
        points := points + [OrZero(game.homeScore)];
      }
    }
  }

  // ---------------------------------------------------------------------------
  // Offensive features.
  // ---------------------------------------------------------------------------

  datatype OffensiveFeatures = OffensiveFeatures(
    passYards: real,
    passTds: real,
    completionPct: real,
    rushYards: real,
    rushTds: real,
    totalYards: real,
    pointsScored: real,
    turnovers: real)

  /** Average completions over average attempts, in percent; NULL or zero attempts divide by 1. */
  function CompletionPct(avgCompletions: Option<real>, avgAttempts: Option<real>): (r: real)
    ensures avgAttempts.Some? && avgAttempts.value != 0.0 ==>
              r == Or(avgCompletions, 0.0) / avgAttempts.value * 100.0
    ensures avgAttempts.None? || avgAttempts.value == 0.0 ==> r == Or(avgCompletions, 0.0) * 100.0
  {
    var attempts := Or(avgAttempts, 1.0);
    Or(avgCompletions, 0.0) / attempts * 100.0
  }

  lemma {:induction false} SumNonNegative(rows: seq<TeamGameStat>, f: StatField)
    requires f == PassCompletions || f == PassAttempts
    ensures Sum(rows, f) >= 0
    decreases |rows|
  {
    if rows != [] {
      SumNonNegative(rows[1..], f);
    }
  }

  lemma {:induction false} CompletionsBelowAttempts(rows: seq<TeamGameStat>)
    requires forall x :: x in rows ==> x.passCompletions <= x.passAttempts
    ensures Sum(rows, PassCompletions) <= Sum(rows, PassAttempts)
    decreases |rows|
  {
    if rows != [] {
      assert rows[0] in rows;
      assert forall x :: x in rows[1..] ==> x in rows;
      CompletionsBelowAttempts(rows[1..]);
    }
  }

  /** For 0 <= c <= a, a > 0 and n > 0, (c / n) / (a / n) lies in [0, 1]. */
  lemma QuotientOfMeans(c: real, a: real, n: real)
    requires 0.0 <= c <= a && 0.0 < a && 0.0 < n
    ensures 0.0 <= (c / n) / (a / n) <= 1.0
  {
    var x, y := c / n, a / n;
    assert x * n == c && y * n == a;
    assert (y - x) * n == a - c;
    assert 0.0 <= x <= y && 0.0 < y;
    var q := x / y;
    assert q * y == x;
    assert (1.0 - q) * y == y - x;
  }

  /** When no row has more completions than attempts, the completion percentage lies in [0, 100]. */
  lemma CompletionPctInRange(rows: seq<TeamGameStat>)
    requires forall x :: x in rows ==> x.passCompletions <= x.passAttempts
    ensures 0.0 <= CompletionPct(Avg(rows, PassCompletions), Avg(rows, PassAttempts)) <= 100.0
  {
    CompletionsBelowAttempts(rows);
    SumNonNegative(rows, PassCompletions);
    if rows != [] {
      var n := |rows| as real;
      var c := Sum(rows, PassCompletions) as real;
      var a := Sum(rows, PassAttempts) as real;
      assert Avg(rows, PassCompletions) == Some(c / n);
      assert Avg(rows, PassAttempts) == Some(a / n);
      if a == 0.0 {
        assert c == 0.0;
      } else {
        QuotientOfMeans(c, a, n);
      }
    }
  }

  /** The offensive record, from the team's stat rows and its per-game points. */
  function OffensiveFrom(rows: seq<TeamGameStat>, points: seq<int>): (r: OffensiveFeatures)
    ensures r.passYards == AvgOrZero(rows, PassYards) && r.passTds == AvgOrZero(rows, PassTouchdowns)
    ensures r.rushYards == AvgOrZero(rows, RushYards) && r.rushTds == AvgOrZero(rows, RushTouchdowns)
    ensures r.completionPct == CompletionPct(Avg(rows, PassCompletions), Avg(rows, PassAttempts))
    ensures r.totalYards == r.passYards + r.rushYards
    ensures r.turnovers == AvgOrZero(rows, Interceptions) + AvgOrZero(rows, FumblesLost)
    ensures r.pointsScored == Mean(points)
  {
    OffensiveFeatures(
      passYards := AvgOrZero(rows, PassYards),
      passTds := AvgOrZero(rows, PassTouchdowns),
      completionPct := CompletionPct(Avg(rows, PassCompletions), Avg(rows, PassAttempts)),
      rushYards := AvgOrZero(rows, RushYards),
      rushTds := AvgOrZero(rows, RushTouchdowns),
      totalYards := AvgOrZero(rows, PassYards) + AvgOrZero(rows, RushYards),
      pointsScored := Mean(points),
      turnovers := AvgOrZero(rows, Interceptions) + AvgOrZero(rows, FumblesLost))
  }

  /** The offensive features over the selected games: too few games, or the record from their rows. */
  function OffensiveOf(games: seq<Game>, stats: seq<TeamGameStat>, team: TeamId): (r: Result<OffensiveFeatures, ExtractError>)
    ensures r.Err? <==> |games| < MinHistory
    ensures r.Err? ==> r.error == InsufficientData
    ensures r.Ok? ==> r.value.totalYards == r.value.passYards + r.value.rushYards
    ensures r.Ok? ==> r.value.pointsScored == Mean(ScoresFor(games, team))
    ensures r.Ok? ==> r.value == OffensiveFrom(TeamRows(stats, team, GameIds(games)), ScoresFor(games, team))
  {
    if |games| < MinHistory then Err(InsufficientData)
    else
      var points := ScoresFor(games, team);
      Ok(OffensiveFrom(TeamRows(stats, team, GameIds(games)), points))
  }

  /** `extract_team_offensive_features` */
  function Offensive(db: Db, team: TeamId, before: Day, numGames: nat): (r: Result<OffensiveFeatures, ExtractError>)
    ensures r.Err? <==> |Recent(db.games, team, before, numGames)| < MinHistory
    ensures r.Err? ==> r.error == InsufficientData
    ensures r.Ok? ==> r.value.totalYards == r.value.passYards + r.value.rushYards
    ensures r.Ok? ==> r.value.pointsScored == Mean(ScoresFor(Recent(db.games, team, before, numGames), team))
    ensures r.Ok? ==> var games := Recent(db.games, team, before, numGames);
                      r.value == OffensiveFrom(TeamRows(db.stats, team, GameIds(games)), ScoresFor(games, team))
  {
    OffensiveOf(Recent(db.games, team, before, numGames), db.stats, team)
  }

  method ExtractTeamOffensiveFeatures(db: Db, team: TeamId, before: Day, numGames: nat)
    returns (r: Result<OffensiveFeatures, ExtractError>)
    ensures r == Offensive(db, team, before, numGames)
  {
    var games := Recent(db.games, team, before, numGames);
    if |games| < MinHistory {
      return Err(InsufficientData);
    }
    var rows := TeamRows(db.stats, team, GameIds(games));
    var points := CollectPointsScored(games, team);
    assert points == ScoresFor(games, team);
    r := Ok(OffensiveFrom(rows, points));
  }

  // ---------------------------------------------------------------------------
  // Defensive features.
  // ---------------------------------------------------------------------------

  datatype DefensiveFeatures = DefensiveFeatures(
    passYardsAllowed: real,
    rushYardsAllowed: real,
    totalYardsAllowed: real,
    pointsAllowed: real,
    sacks: real,
    interceptions: real,
    turnoversForced: real)

  /** The defensive record, from the opponents' rows, the team's own rows and the points allowed. */
  function DefensiveFrom(opponentRows: seq<TeamGameStat>, ownRows: seq<TeamGameStat>, allowed: seq<int>): (r: DefensiveFeatures)
    ensures r.passYardsAllowed == AvgOrZero(opponentRows, PassYards)
    ensures r.rushYardsAllowed == AvgOrZero(opponentRows, RushYards)
    ensures r.totalYardsAllowed == r.passYardsAllowed + r.rushYardsAllowed
    ensures r.sacks == AvgOrZero(ownRows, StatField.DefSacks)
    ensures r.interceptions == AvgOrZero(ownRows, StatField.DefInterceptions)
    ensures r.turnoversForced == r.interceptions + AvgOrZero(ownRows, DefFumblesForced)
    ensures r.turnoversForced >= r.interceptions
    ensures r.pointsAllowed == Mean(allowed)
  {
    FumblesForcedNonNegative(ownRows);
    DefensiveFeatures(
      passYardsAllowed := AvgOrZero(opponentRows, PassYards),
      rushYardsAllowed := AvgOrZero(opponentRows, RushYards),
      totalYardsAllowed := AvgOrZero(opponentRows, PassYards) + AvgOrZero(opponentRows, RushYards),
      pointsAllowed := Mean(allowed),
      sacks := AvgOrZero(ownRows, StatField.DefSacks),
      interceptions := AvgOrZero(ownRows, StatField.DefInterceptions),
      turnoversForced := AvgOrZero(ownRows, StatField.DefInterceptions) + AvgOrZero(ownRows, DefFumblesForced))
  }

  /** `extract_team_defensive_features` */
  function Defensive(db: Db, team: TeamId, before: Day, numGames: nat): (r: Result<DefensiveFeatures, ExtractError>)
    ensures r.Err? <==> |Recent(db.games, team, before, numGames)| < MinHistory
    ensures r.Err? ==> r.error == InsufficientData
    ensures r.Ok? ==> r.value.totalYardsAllowed == r.value.passYardsAllowed + r.value.rushYardsAllowed
    ensures r.Ok? ==> r.value.turnoversForced >= r.value.interceptions
    ensures r.Ok? ==> r.value.pointsAllowed == Mean(AllowedFor(Recent(db.games, team, before, numGames), team))
    ensures r.Ok? ==> var ids := GameIds(Recent(db.games, team, before, numGames));
                      r.value == DefensiveFrom(OpponentRows(db.stats, team, ids), TeamRows(db.stats, team, ids),
                                               AllowedFor(Recent(db.games, team, before, numGames), team))
  {
    var games := Recent(db.games, team, before, numGames);
    if |games| < MinHistory then Err(InsufficientData)
    else
      var ids := GameIds(games);
      Ok(DefensiveFrom(OpponentRows(db.stats, team, ids), TeamRows(db.stats, team, ids), AllowedFor(games, team)))
  }

  /** Forced fumbles are counts, so their average is never negative. */
  lemma {:induction false} FumblesForcedNonNegative(rows: seq<TeamGameStat>)
    ensures AvgOrZero(rows, DefFumblesForced) >= 0.0
  {
    var i := |rows|;
    while i > 0
      invariant 0 <= i <= |rows|
      invariant Sum(rows[i..], DefFumblesForced) >= 0
    {
      assert rows[i - 1..][1..] == rows[i..];
      i := i - 1;
    }
    assert rows[0..] == rows;
  }

  method ExtractTeamDefensiveFeatures(db: Db, team: TeamId, before: Day, numGames: nat)
    returns (r: Result<DefensiveFeatures, ExtractError>)
    ensures r == Defensive(db, team, before, numGames)
  {
    var games := Recent(db.games, team, before, numGames);
    if |games| < MinHistory {
      return Err(InsufficientData);
    }
    var ids := GameIds(games);
    var opponentRows := OpponentRows(db.stats, team, ids);
    var ownRows := TeamRows(db.stats, team, ids);
    var points := CollectPointsAllowed(games, team);
    assert points == AllowedFor(games, team);
    r := Ok(DefensiveFrom(opponentRows, ownRows, points));
  }

  // ---------------------------------------------------------------------------
  // Situational features.
  // ---------------------------------------------------------------------------

  datatype SituationalFeatures = SituationalFeatures(
    isHome: int,
    temperature: int,
    wind: int,
    isDome: int,
    restDays: int)

  predicate IsDome(roof: string) {
    roof in ["dome", "closed", "retractable"]
  }

  /** Python truthiness of a nullable integer column: NULL and 0 are false. */
  predicate Truthy(x: Option<int>) {
    x.Some? && x.value != 0
  }

  /** `extract_situational_features` */
  function Situational(db: Db, game: Game, team: TeamId): (r: SituationalFeatures)
    ensures r.isHome == 1 <==> game.homeTeam == team
    ensures r.isHome == 0 <==> game.homeTeam != team
    ensures r.isDome == 1 <==> IsDome(game.roof)
    ensures r.isDome == 0 <==> !IsDome(game.roof)
    ensures IsDome(game.roof) ==> r.temperature == NeutralTemperature && r.wind == 0
    ensures !IsDome(game.roof) && Truthy(game.temp) ==> r.temperature == game.temp.value
    ensures !IsDome(game.roof) && Truthy(game.wind) ==> r.wind == game.wind.value
    ensures !Truthy(game.temp) ==> r.temperature == NeutralTemperature
    ensures !Truthy(game.wind) ==> r.wind == 0
    ensures 1 <= r.restDays <= MaxRestDays
    ensures Qualifying(db.games, team, game.date) == [] ==> r.restDays == DefaultRestDays
    ensures forall g :: g in db.games && QualifiesBefore(g, team, game.date) ==> r.restDays <= game.date - g.date
    ensures Qualifying(db.games, team, game.date) != [] ==>
              exists g :: g in db.games && QualifiesBefore(g, team, game.date) &&
                          r.restDays == Min(game.date - g.date, MaxRestDays)
  {
    var isHome := game.homeTeam == team;
    var isDome := IsDome(game.roof);
    var lastGame := Latest(db.games, team, game.date);
    var restDays := if lastGame.Some? then game.date - lastGame.value.date else DefaultRestDays;
    SituationalFeatures(
      isHome := if isHome then 1 else 0,
      temperature := if Truthy(game.temp) && !isDome then game.temp.value else NeutralTemperature,
      wind := if Truthy(game.wind) && !isDome then game.wind.value else 0,
      isDome := if isDome then 1 else 0,
      restDays := Min(restDays, MaxRestDays))
  }

  // ---------------------------------------------------------------------------
  // Trend features: the recent win percentage and the signed current streak.
  // ---------------------------------------------------------------------------

  datatype TrendFeatures = TrendFeatures(recentWinPct: real, currentStreak: int)

  /** Whether `team` won `g` (a tie is not a win); None where Python would compare a NULL score. */
  function Won(g: Game, team: TeamId): Option<bool> {
    if g.homeScore.None? || g.awayScore.None? then None
    else if g.homeTeam == team then Some(g.homeScore.value > g.awayScore.value)
    else Some(g.awayScore.value > g.homeScore.value)
  }

  function Results(games: seq<Game>, team: TeamId): seq<Option<bool>> {
    seq(|games|, i requires 0 <= i < |games| => Won(games[i], team))
  }

  /** How many leading results are `Some(b)`. */
  function RunLength(outs: seq<Option<bool>>, b: bool): (k: nat)
    ensures k <= |outs|
    ensures forall i :: 0 <= i < k ==> outs[i] == Some(b)
    ensures k < |outs| ==> outs[k] != Some(b)
    decreases |outs|
  {
    if outs == [] || outs[0] != Some(b) then 0 else 1 + RunLength(outs[1..], b)
  }

  /** The three facts about a run pin its length down. */
  lemma {:induction false} RunLengthIs(outs: seq<Option<bool>>, b: bool, k: nat)
    requires k <= |outs|
    requires forall i :: 0 <= i < k ==> outs[i] == Some(b)
    requires k < |outs| ==> outs[k] != Some(b)
    ensures RunLength(outs, b) == k
    decreases k
  {
    if k > 0 {
      assert outs[0] == Some(b);
      assert forall i :: 0 <= i < k - 1 ==> outs[1..][i] == outs[i + 1];
      RunLengthIs(outs[1..], b, k - 1);
    }
  }

  function CountWins(outs: seq<Option<bool>>): (n: nat)
    ensures n <= |outs|
    decreases |outs|
  {
    if outs == [] then 0 else (if outs[0] == Some(true) then 1 else 0) + CountWins(outs[1..])
  }

  /** The signed streak: +k for k straight wins from the newest game, -k for k straight non-wins. */
  function Streak(outs: seq<Option<bool>>): int
    requires outs != [] && outs[0].Some?
  {
    var b := outs[0].value;
    var k: int := RunLength(outs, b);
    if b then k else -k
  }

  /** `wins / len(games)` for a non-empty selection: a fraction in [0, 1]. */
  function Ratio(wins: nat, n: nat): (r: real)
    requires 0 < n && wins <= n
    ensures r * n as real == wins as real
    ensures 0.0 <= r <= 1.0
  {
    var r := wins as real / n as real;
    assert r * n as real == wins as real;
    assert (1.0 - r) * n as real == (n - wins) as real;
    r
  }

  /**
    * How many of the newest results the scan as written looks at: the
    * streak's run and the result that breaks it, or just the first result
    * when that one is NULL.
    */
  function ScannedLength(outs: seq<Option<bool>>): (s: nat)
    ensures s <= |outs|
    ensures outs != [] ==> 1 <= s
    ensures outs != [] && outs[0].Some? ==>
              s == Min(RunLength(outs, outs[0].value) + 1, |outs|)
  {
    if outs == [] then 0
    else if outs[0].None? then 1
    else Min(RunLength(outs, outs[0].value) + 1, |outs|)
  }

  /** A run of `k` results `Some(b)` holds `k` wins when `b` and none otherwise. */
  lemma {:induction false} CountRun(outs: seq<Option<bool>>, b: bool, k: nat)
    requires k <= |outs|
    requires forall i :: 0 <= i < k ==> outs[i] == Some(b)
    ensures CountWins(outs[..k]) == if b then k else 0
  {
    if k > 0 {
      CountRun(outs, b, k - 1);
      CountWinsSnoc(outs, k - 1);
    } else {
      assert outs[..0] == [];
    }
  }

  /**
    * What the scan as written has seen when it completes: no NULL among the
    * scanned results, and as wins the run (when it is a winning run) or the
    * one win that breaks a losing run.
    */
  lemma {:induction false} ScannedPrefix(outs: seq<Option<bool>>)
    requires outs != [] && outs[0].Some?
    requires RunLength(outs, outs[0].value) == |outs| || outs[RunLength(outs, outs[0].value)].Some?
    ensures var b := outs[0].value;
            var k := RunLength(outs, b);
            None !in outs[..ScannedLength(outs)] &&
            CountWins(outs[..ScannedLength(outs)]) == if b then k else if k < |outs| then 1 else 0
  {
    var b := outs[0].value;
    var k := RunLength(outs, b);
    var s := ScannedLength(outs);
    CountRun(outs, b, k);
    forall i | 0 <= i < s ensures outs[..s][i] != None {
      if i < k {
        assert outs[i] == Some(b);
      }
    }
    if k < |outs| {
      CountWinsSnoc(outs, k);
      assert outs[k].Some? && outs[k] != Some(b);
      assert outs[k] == Some(outs[k].value) && outs[k].value == !b;
      assert outs[..k + 1] == outs[..k] + [outs[k]];
    }
  }

  /**
    * The trend as the scan in the source computes it, newest game first: the
    * loop stops at the first game that breaks the streak, and only the games up
    * to that one have been compared and counted as wins.
    */
  function ScanAsWritten(outs: seq<Option<bool>>): (r: Result<TrendFeatures, ExtractError>)
    ensures r.Err? <==> None in outs[..ScannedLength(outs)]
    ensures r.Err? ==> r.error == ScoreTypeError
    ensures outs == [] ==> r == Ok(TrendFeatures(0.5, 0))
    ensures r.Ok? && outs != [] ==>
              r.value.recentWinPct * |outs| as real == CountWins(outs[..ScannedLength(outs)]) as real
    ensures r.Ok? && outs != [] ==> outs[0].Some? && r.value.currentStreak == Streak(outs)
  {
    if outs == [] then Ok(TrendFeatures(0.5, 0))
    else if outs[0].None? then
      assert outs[..ScannedLength(outs)][0] == None;
      Err(ScoreTypeError)
    else
      var b := outs[0].value;
      var k := RunLength(outs, b);
      if k < |outs| && outs[k].None? then
        assert outs[..ScannedLength(outs)][k] == None;
        Err(ScoreTypeError)
      else
        var wins := if b then k else if k < |outs| then 1 else 0;
        ScannedPrefix(outs);
        Ok(TrendFeatures(Ratio(wins, |outs|), Streak(outs)))
  }

  /**
    * The trend as intended: the win percentage over all the selected games
    * (ties count as non-wins), and the same streak.
    */
  function Scan(outs: seq<Option<bool>>): (r: Result<TrendFeatures, ExtractError>)
    ensures r.Err? <==> None in outs
    ensures r.Err? ==> r.error == ScoreTypeError
    ensures r.Ok? && outs == [] ==> r.value == TrendFeatures(0.5, 0)
    ensures r.Ok? && outs != [] ==> r.value.recentWinPct * |outs| as real == CountWins(outs) as real
    ensures r.Ok? ==> 0.0 <= r.value.recentWinPct <= 1.0
    ensures r.Ok? ==> -|outs| <= r.value.currentStreak <= |outs|
    ensures r.Ok? && outs != [] ==> (r.value.currentStreak > 0 <==> outs[0] == Some(true))
    ensures r.Ok? && outs != [] ==> r.value.currentStreak != 0
  {
    if outs == [] then Ok(TrendFeatures(0.5, 0))
    else if None in outs then Err(ScoreTypeError)
    else
      Ok(TrendFeatures(Ratio(CountWins(outs), |outs|), Streak(outs)))
  }

  /** The streak scan stops at the first result that breaks the streak. */
  lemma StreakStopsAtFirstBreak(outs: seq<Option<bool>>)
    requires outs != [] && outs[0].Some?
    ensures var s := Streak(outs);
            var k := if s >= 0 then s else -s;
            1 <= k <= |outs| &&
            (forall i :: 0 <= i < k ==> outs[i] == outs[0]) &&
            (k < |outs| ==> outs[k] != outs[0])
  {
    var b := outs[0].value;
    var k: int := RunLength(outs, b);
    assert outs[0] == Some(b);
    assert Streak(outs) == if b then k else -k;
  }

  /** Results [W, W, L, W], newest first, give a streak of +2. */
  lemma StreakExample()
    ensures Streak([Some(true), Some(true), Some(false), Some(true)]) == 2
  {
    var outs := [Some(true), Some(true), Some(false), Some(true)];
    RunLengthIs(outs, true, 2);
  }

  /**
    * The scan as written reports 1 win in 5 for [W, L, W, W, W] (newest first),
    * where 4 of the 5 games were won.
    */
  lemma ScanAsWrittenUndercountsWins()
    ensures var outs := [Some(true), Some(false), Some(true), Some(true), Some(true)];
            ScanAsWritten(outs) == Ok(TrendFeatures(0.2, 1)) &&
            Scan(outs) == Ok(TrendFeatures(0.8, 1))
  {
    var outs := [Some(true), Some(false), Some(true), Some(true), Some(true)];
    RunLengthIs(outs, true, 1);
    assert CountWins(outs[4..]) == 1;
    assert CountWins(outs[3..]) == 2;
    assert CountWins(outs[2..]) == 3;
    assert CountWins(outs[1..]) == 3;
  }

  /**
    * Wherever the corrected scan succeeds, the scan as written succeeds too
    * and reports the same streak: the two differ only in the win percentage.
    */
  lemma ScansAgreeOnStreak(outs: seq<Option<bool>>)
    ensures Scan(outs).Ok? ==>
              ScanAsWritten(outs).Ok? && ScanAsWritten(outs).value.currentStreak == Scan(outs).value.currentStreak
  {
    if Scan(outs).Ok? && outs != [] {
      var s := ScannedLength(outs);
      assert forall i :: 0 <= i < s ==> outs[..s][i] == outs[i];
    }
  }

  /** When the streak runs to the oldest selected game, the two scans agree entirely. */
  lemma ScanAsWrittenAgreesUntilBreak(outs: seq<Option<bool>>)
    requires None !in outs
    requires outs != []
    requires RunLength(outs, outs[0].value) == |outs|
    ensures ScanAsWritten(outs) == Scan(outs)
  {
    var b := outs[0].value;
    var k := |outs|;
    var i := k;
    while i > 0
      invariant 0 <= i <= k
      invariant CountWins(outs[i..]) == if b then k - i else 0
    {
      assert outs[i - 1] == Some(b);
      assert outs[i - 1..][1..] == outs[i..];
      i := i - 1;
    }
    assert outs[0..] == outs;
  }

  /** `extract_trend_features` as written: the win count stops where the streak scan breaks. */
  method ExtractTrendFeaturesAsWritten(db: Db, team: TeamId, before: Day)
    returns (r: Result<TrendFeatures, ExtractError>)
    ensures r == ScanAsWritten(Results(Recent(db.games, team, before, TrendWindow), team))
  {
    var games := Recent(db.games, team, before, TrendWindow);
    r := ScanGamesAsWritten(games, team);
  }

  /** The loop of `extract_trend_features` as written, over the selected games, newest first. */
  method ScanGamesAsWritten(games: seq<Game>, team: TeamId) returns (r: Result<TrendFeatures, ExtractError>)
    ensures r == ScanAsWritten(Results(games, team))
  {
    ghost var outs := Results(games, team);
    var wins := 0;
    var currentStreak := 0;
    var streakType: Option<bool> := None;
    var i := 0;
    while i < |games|
      invariant 0 <= i <= |games|
      invariant i == 0 ==> streakType == None && wins == 0 && currentStreak == 0
      invariant i > 0 ==> streakType.Some? && outs[0] == streakType
      invariant i > 0 ==> forall j :: 0 <= j < i ==> outs[j] == streakType
      invariant i > 0 ==> currentStreak == (if streakType.value then i else -i)
      invariant i > 0 ==> wins == (if streakType.value then i else 0)
    {
      var game := games[i];
      if game.homeScore.None? || game.awayScore.None? {
        // comparing a NULL score raises TypeError
        if i > 0 {
          RunLengthIs(outs, streakType.value, i);
        }
        return Err(ScoreTypeError);
      }
      var won := if game.homeTeam == team then game.homeScore.value > game.awayScore.value
                 else game.awayScore.value > game.homeScore.value;
      assert outs[i] == Some(won);
      if won {
        wins := wins + 1;
        if streakType.None? {
          streakType := Some(true);
          currentStreak := 1;
        } else if streakType == Some(true) {
          currentStreak := currentStreak + 1;
        } else {
          RunLengthIs(outs, false, i);
          break;
        }
      } else {
        if streakType.None? {
          streakType := Some(false);
          currentStreak := -1;
        } else if streakType == Some(false) {
          currentStreak := currentStreak - 1;
        } else {
          RunLengthIs(outs, true, i);
          break;
        }
      }
      i := i + 1;
    }
    if i == |games| && i > 0 {
      RunLengthIs(outs, streakType.value, i);
    }
    var winPct := if |games| > 0 then Ratio(wins, |games|) else 0.5;
    r := Ok(TrendFeatures(winPct, currentStreak));
  }

  /** `extract_trend_features` with every win counted: the scan keeps counting after the streak ends. */
  method ExtractTrendFeatures(db: Db, team: TeamId, before: Day)
    returns (r: Result<TrendFeatures, ExtractError>)
    ensures r == Scan(Results(Recent(db.games, team, before, TrendWindow), team))
  {
    var games := Recent(db.games, team, before, TrendWindow);
    r := ScanGames(games, team);
  }

  /** The corrected loop over the selected games, newest first. */
  method ScanGames(games: seq<Game>, team: TeamId) returns (r: Result<TrendFeatures, ExtractError>)
    ensures r == Scan(Results(games, team))
  {
    ghost var outs := Results(games, team);
    var wins := 0;
    var currentStreak := 0;
    var streakType: Option<bool> := None;
    var streakOver := false;
    var i := 0;
    while i < |games|
      invariant 0 <= i <= |games|
      invariant None !in outs[..i]
      invariant wins == CountWins(outs[..i])
      invariant i == 0 ==> streakType == None && currentStreak == 0 && !streakOver
      invariant i > 0 ==> streakType.Some? && outs[0] == streakType
      invariant i > 0 && !streakOver ==> forall j :: 0 <= j < i ==> outs[j] == streakType
      invariant i > 0 && !streakOver ==> currentStreak == (if streakType.value then i else -i)
      invariant i > 0 && streakOver ==> currentStreak == Streak(outs)
    {
      var game := games[i];
      if game.homeScore.None? || game.awayScore.None? {
        // comparing a NULL score raises TypeError
        assert outs[i] == None;
        return Err(ScoreTypeError);
      }
      var won := if game.homeTeam == team then game.homeScore.value > game.awayScore.value
                 else game.awayScore.value > game.homeScore.value;
      assert outs[i] == Some(won);
      CountWinsSnoc(outs, i);
      if won {
        wins := wins + 1;
      }
      if !streakOver {
        if streakType.None? {
          streakType := Some(won);
          currentStreak := if won then 1 else -1;
        } else if streakType == Some(won) {
          currentStreak := if won then currentStreak + 1 else currentStreak - 1;
        } else {
          RunLengthIs(outs, streakType.value, i);
          streakOver := true;
        }
      }
      assert outs[..i + 1] == outs[..i] + [outs[i]];
      i := i + 1;
    }
    assert outs[..i] == outs;
    if i > 0 && !streakOver {
      RunLengthIs(outs, streakType.value, i);
    }
    var winPct := if |games| > 0 then Ratio(wins, |games|) else 0.5;
    r := Ok(TrendFeatures(winPct, currentStreak));
  }

  lemma CountWinsSnoc(outs: seq<Option<bool>>, i: nat)
    requires i < |outs|
    ensures CountWins(outs[..i + 1]) == CountWins(outs[..i]) + (if outs[i] == Some(true) then 1 else 0)
  {
    CountWinsAppend(outs[..i], [outs[i]]);
    assert outs[..i + 1] == outs[..i] + [outs[i]];
  }

  lemma {:induction false} CountWinsAppend(a: seq<Option<bool>>, b: seq<Option<bool>>)
    ensures CountWins(a + b) == CountWins(a) + CountWins(b)
    decreases |a|
  {
    if a != [] {
      assert (a + b)[0] == a[0];
      assert (a + b)[1..] == a[1..] + b;
      CountWinsAppend(a[1..], b);
    } else {
      assert a + b == b;
    }
  }

  /** `extract_trend_features`, with the win count over all selected games. */
  function Trend(db: Db, team: TeamId, before: Day): (r: Result<TrendFeatures, ExtractError>)
    ensures r.Err? ==> r.error == ScoreTypeError
  {
    Scan(Results(Recent(db.games, team, before, TrendWindow), team))
  }

  // ---------------------------------------------------------------------------
  // The 44-slot game vector and its names.
  // ---------------------------------------------------------------------------

  /** The keys of one team's feature dictionaries, in vector order. */
  datatype FeatureKey =
    | OffPassYards | OffPassTds | OffCompletionPct | OffRushYards | OffRushTds
    | OffTotalYards | OffPointsScored | OffTurnovers
    | DefPassYardsAllowed | DefRushYardsAllowed | DefTotalYardsAllowed | DefPointsAllowed
    | DefSacks | DefInterceptions | DefTurnoversForced
    | IsHome | Temperature | Wind | IsDomeKey | RestDays
    | RecentWinPct | CurrentStreak

  function KeyName(k: FeatureKey): string {
    match k
    case OffPassYards => "off_pass_yards"
    case OffPassTds => "off_pass_tds"
    case OffCompletionPct => "off_completion_pct"
    case OffRushYards => "off_rush_yards"
    case OffRushTds => "off_rush_tds"
    case OffTotalYards => "off_total_yards"
    case OffPointsScored => "off_points_scored"
    case OffTurnovers => "off_turnovers"
    case DefPassYardsAllowed => "def_pass_yards_allowed"
    case DefRushYardsAllowed => "def_rush_yards_allowed"
    case DefTotalYardsAllowed => "def_total_yards_allowed"
    case DefPointsAllowed => "def_points_allowed"
    case DefSacks => "def_sacks"
    case DefInterceptions => "def_interceptions"
    case DefTurnoversForced => "def_turnovers_forced"
    case IsHome => "is_home"
    case Temperature => "temperature"
    case Wind => "wind"
    case IsDomeKey => "is_dome"
    case RestDays => "rest_days"
    case RecentWinPct => "recent_win_pct"
    case CurrentStreak => "current_streak"
  }

  const TeamFeatureCount: nat := 22
  const FeatureCount: nat := 44
  const Prefixes: seq<string> := ["home", "away"]

  /** The fixed order of one team's 22 slots: offensive 8, defensive 7, situational 5, trend 2. */
  const FeatureOrder: seq<FeatureKey> := [
    OffPassYards, OffPassTds, OffCompletionPct, OffRushYards, OffRushTds,
    OffTotalYards, OffPointsScored, OffTurnovers,
    DefPassYardsAllowed, DefRushYardsAllowed, DefTotalYardsAllowed, DefPointsAllowed,
    FeatureKey.DefSacks, FeatureKey.DefInterceptions, DefTurnoversForced,
    IsHome, Temperature, Wind, IsDomeKey, RestDays,
    RecentWinPct, CurrentStreak]

  /** The four feature groups of one team. */
  datatype TeamFeatures = TeamFeatures(
    off: OffensiveFeatures,
    def: DefensiveFeatures,
    sit: SituationalFeatures,
    trend: TrendFeatures)
  {
    /** The dictionaries' lookup by key. */
    function Get(k: FeatureKey): real {
      match k
      case OffPassYards => off.passYards
      case OffPassTds => off.passTds
      case OffCompletionPct => off.completionPct
      case OffRushYards => off.rushYards
      case OffRushTds => off.rushTds
      case OffTotalYards => off.totalYards
      case OffPointsScored => off.pointsScored
      case OffTurnovers => off.turnovers
      case DefPassYardsAllowed => def.passYardsAllowed
      case DefRushYardsAllowed => def.rushYardsAllowed
      case DefTotalYardsAllowed => def.totalYardsAllowed
      case DefPointsAllowed => def.pointsAllowed
      case DefSacks => def.sacks
      case DefInterceptions => def.interceptions
      case DefTurnoversForced => def.turnoversForced
      case IsHome => sit.isHome as real
      case Temperature => sit.temperature as real
      case Wind => sit.wind as real
      case IsDomeKey => sit.isDome as real
      case RestDays => sit.restDays as real
      case RecentWinPct => trend.recentWinPct
      case CurrentStreak => trend.currentStreak as real
    }
  }

  /** One team's half of the vector, listed as `build_game_features` lists it. */
  function TeamVector(t: TeamFeatures): seq<real> {
    [ t.off.passYards, t.off.passTds, t.off.completionPct, t.off.rushYards, t.off.rushTds,
      t.off.totalYards, t.off.pointsScored, t.off.turnovers,
      t.def.passYardsAllowed, t.def.rushYardsAllowed, t.def.totalYardsAllowed, t.def.pointsAllowed,
      t.def.sacks, t.def.interceptions, t.def.turnoversForced,
      t.sit.isHome as real, t.sit.temperature as real, t.sit.wind as real, t.sit.isDome as real,
      t.sit.restDays as real,
      t.trend.recentWinPct, t.trend.currentStreak as real ]
  }

  function FeatureVector(home: TeamFeatures, away: TeamFeatures): seq<real> {
    TeamVector(home) + TeamVector(away)
  }

  /** The name of slot `k` of side `side` (0 for home, 1 for away): the side's prefix and the slot's key. */
  function FeatureName(side: nat, k: nat): string
    requires side < |Prefixes| && k < TeamFeatureCount
  {
    Prefixes[side] + "_" + KeyName(FeatureOrder[k])
  }

  /**
    * Slot `k` of each half of the vector holds the value of key `k` for that
    * side, which is what the name in the same position says.
    */
  lemma FeatureVectorOrder(home: TeamFeatures, away: TeamFeatures)
    ensures |FeatureVector(home, away)| == FeatureCount
    ensures forall k :: 0 <= k < TeamFeatureCount ==>
              FeatureVector(home, away)[k] == home.Get(FeatureOrder[k]) &&
              FeatureVector(home, away)[TeamFeatureCount + k] == away.Get(FeatureOrder[k])
  {
    TeamVectorOrder(home);
    TeamVectorOrder(away);
    var v := FeatureVector(home, away);
    assert v[..TeamFeatureCount] == TeamVector(home);
    assert v[TeamFeatureCount..] == TeamVector(away);
  }

  lemma TeamVectorOrder(t: TeamFeatures)
    ensures |TeamVector(t)| == TeamFeatureCount
    ensures forall k :: 0 <= k < TeamFeatureCount ==> TeamVector(t)[k] == t.Get(FeatureOrder[k])
  {
  }

  /** `get_feature_names`: for each side in turn, its prefix joined to each of the 22 keys in vector order. */
  method GetFeatureNames() returns (names: seq<string>)
    ensures |names| == FeatureCount
    ensures forall k :: 0 <= k < TeamFeatureCount ==>
              names[k] == FeatureName(0, k) && names[TeamFeatureCount + k] == FeatureName(1, k)
  {
    names := [];
    for side := 0 to |Prefixes|
      invariant |names| == if side == 0 then 0 else if side == 1 then TeamFeatureCount else FeatureCount
      invariant side >= 1 ==> forall k :: 0 <= k < TeamFeatureCount ==> names[k] == FeatureName(0, k)
      invariant side >= 2 ==> forall k :: 0 <= k < TeamFeatureCount ==> names[TeamFeatureCount + k] == FeatureName(1, k)
    {
      var group := SideNames(side);
      ghost var done := names;
      names := names + group;
      assert forall k :: 0 <= k < |done| ==> names[k] == done[k];
      assert forall k :: 0 <= k < TeamFeatureCount ==> names[|done| + k] == group[k];
    }
  }

  /** The 22 names of one side, in vector order. */
  method SideNames(side: nat) returns (group: seq<string>)
    requires side < |Prefixes|
    ensures |group| == TeamFeatureCount
    ensures forall k :: 0 <= k < TeamFeatureCount ==> group[k] == FeatureName(side, k)
  {
    var prefix := Prefixes[side];
    group := [];
    for k := 0 to TeamFeatureCount
      invariant |group| == k
      invariant forall j :: 0 <= j < k ==> group[j] == FeatureName(side, j)
    {
      group := group + [prefix + "_" + KeyName(FeatureOrder[k])];
    }
  }

  // ---------------------------------------------------------------------------
  // The whole game.
  // ---------------------------------------------------------------------------

  /**
    * The first failure among the eight extractions, in the order
    * `build_game_features` calls them, or the vector built from all of them.
    */
  function FirstFailure(
    homeOff: Result<OffensiveFeatures, ExtractError>, homeDef: Result<DefensiveFeatures, ExtractError>,
    homeSit: SituationalFeatures, homeTrend: Result<TrendFeatures, ExtractError>,
    awayOff: Result<OffensiveFeatures, ExtractError>, awayDef: Result<DefensiveFeatures, ExtractError>,
    awaySit: SituationalFeatures, awayTrend: Result<TrendFeatures, ExtractError>): (r: Result<seq<real>, ExtractError>)
    ensures r.Ok? <==> homeOff.Ok? && homeDef.Ok? && homeTrend.Ok? && awayOff.Ok? && awayDef.Ok? && awayTrend.Ok?
    ensures r.Ok? ==> r.value == FeatureVector(TeamFeatures(homeOff.value, homeDef.value, homeSit, homeTrend.value),
                                               TeamFeatures(awayOff.value, awayDef.value, awaySit, awayTrend.value))
    ensures homeOff.Err? ==> r == Err(homeOff.error)
    ensures homeOff.Ok? && homeDef.Err? ==> r == Err(homeDef.error)
    ensures homeOff.Ok? && homeDef.Ok? && homeTrend.Err? ==> r == Err(homeTrend.error)
    ensures homeOff.Ok? && homeDef.Ok? && homeTrend.Ok? && awayOff.Err? ==> r == Err(awayOff.error)
    ensures homeOff.Ok? && homeDef.Ok? && homeTrend.Ok? && awayOff.Ok? && awayDef.Err? ==> r == Err(awayDef.error)
    ensures homeOff.Ok? && homeDef.Ok? && homeTrend.Ok? && awayOff.Ok? && awayDef.Ok? && awayTrend.Err? ==>
              r == Err(awayTrend.error)
    ensures r.Err? ==> (r.error in
              (if homeOff.Err? then {homeOff.error} else {}) + (if homeDef.Err? then {homeDef.error} else {}) +
              (if homeTrend.Err? then {homeTrend.error} else {}) + (if awayOff.Err? then {awayOff.error} else {}) +
              (if awayDef.Err? then {awayDef.error} else {}) + (if awayTrend.Err? then {awayTrend.error} else {}))
  {
    var ho :- homeOff;
    var hd :- homeDef;
    var ht :- homeTrend;
    var ao :- awayOff;
    var ad :- awayDef;
    var at :- awayTrend;
    Ok(FeatureVector(TeamFeatures(ho, hd, homeSit, ht), TeamFeatures(ao, ad, awaySit, at)))
  }

  /** `build_game_features`: both teams' four groups as of the game's date, home side first. */
  function GameFeatures(db: Db, game: Game, numGames: nat): (r: Result<seq<real>, ExtractError>)
    ensures r.Ok? ==> |r.value| == FeatureCount
    ensures |Recent(db.games, game.homeTeam, game.date, numGames)| < MinHistory ==> r == Err(InsufficientData)
    ensures |Recent(db.games, game.awayTeam, game.date, numGames)| < MinHistory ==>
              r == if |Recent(db.games, game.homeTeam, game.date, numGames)| >= MinHistory && Trend(db, game.homeTeam, game.date).Err?
                   then Err(Trend(db, game.homeTeam, game.date).error)
                   else Err(InsufficientData)
    ensures r == Err(InsufficientData) ==>
              |Recent(db.games, game.homeTeam, game.date, numGames)| < MinHistory ||
              |Recent(db.games, game.awayTeam, game.date, numGames)| < MinHistory
  {
    var home, away, day := game.homeTeam, game.awayTeam, game.date;
    var ho, hd, hs, ht := Offensive(db, home, day, numGames), Defensive(db, home, day, numGames),
                          Situational(db, game, home), Trend(db, home, day);
    var ao, ad, as_, at := Offensive(db, away, day, numGames), Defensive(db, away, day, numGames),
                           Situational(db, game, away), Trend(db, away, day);
    var r := FirstFailure(ho, hd, hs, ht, ao, ad, as_, at);
    if r.Ok? then
      FeatureVectorOrder(TeamFeatures(ho.value, hd.value, hs, ht.value), TeamFeatures(ao.value, ad.value, as_, at.value));
      r
    else r
  }

  method BuildGameFeatures(db: Db, game: Game, numGames: nat) returns (r: Result<seq<real>, ExtractError>)
    ensures r == GameFeatures(db, game, numGames)
  {
    var homeOff := ExtractTeamOffensiveFeatures(db, game.homeTeam, game.date, numGames);
    var homeDef := ExtractTeamDefensiveFeatures(db, game.homeTeam, game.date, numGames);
    var homeSit := Situational(db, game, game.homeTeam);
    var homeTrend := ExtractTrendFeatures(db, game.homeTeam, game.date);
    var awayOff := ExtractTeamOffensiveFeatures(db, game.awayTeam, game.date, numGames);
    var awayDef := ExtractTeamDefensiveFeatures(db, game.awayTeam, game.date, numGames);
    var awaySit := Situational(db, game, game.awayTeam);
    var awayTrend := ExtractTrendFeatures(db, game.awayTeam, game.date);
    r := FirstFailure(homeOff, homeDef, homeSit, homeTrend, awayOff, awayDef, awaySit, awayTrend);
  }

  // ---------------------------------------------------------------------------
  // No leakage: only games dated before the cutoff, and their stat rows, matter.
  // ---------------------------------------------------------------------------

  /** Two stores that hold the same past games, and the same stat rows for them. */
  ghost predicate AgreeBefore(db1: Db, db2: Db, before: Day) {
    Past(db1.games, before) == Past(db2.games, before) &&
    RowsOfGames(db1.stats, GameIds(Past(db1.games, before))) ==
    RowsOfGames(db2.stats, GameIds(Past(db2.games, before)))
  }

  lemma {:induction false} QualifyingOfPast(gs: seq<Game>, team: TeamId, before: Day)
    ensures Qualifying(Past(gs, before), team, before) == Qualifying(gs, team, before)
    decreases |gs|
  {
    if gs != [] {
      QualifyingOfPast(gs[1..], team, before);
      QualifyingAppend(if gs[0].date < before then [gs[0]] else [], Past(gs[1..], before), team, before);
    }
  }

  lemma {:induction false} QualifyingAppend(a: seq<Game>, b: seq<Game>, team: TeamId, before: Day)
    ensures Qualifying(a + b, team, before) == Qualifying(a, team, before) + Qualifying(b, team, before)
    decreases |a|
  {
    if a != [] {
      assert (a + b)[0] == a[0];
      assert (a + b)[1..] == a[1..] + b;
      QualifyingAppend(a[1..], b, team, before);
    } else {
      assert a + b == b;
    }
  }

  lemma {:induction false} TeamRowsOfSubset(stats: seq<TeamGameStat>, team: TeamId, s: set<string>, p: set<string>)
    requires s <= p
    ensures TeamRows(RowsOfGames(stats, p), team, s) == TeamRows(stats, team, s)
    decreases |stats|
  {
    if stats != [] {
      TeamRowsOfSubset(stats[1..], team, s, p);
      TeamRowsAppend(if stats[0].gameId in p then [stats[0]] else [], RowsOfGames(stats[1..], p), team, s);
    }
  }

  lemma {:induction false} TeamRowsAppend(a: seq<TeamGameStat>, b: seq<TeamGameStat>, team: TeamId, s: set<string>)
    ensures TeamRows(a + b, team, s) == TeamRows(a, team, s) + TeamRows(b, team, s)
    decreases |a|
  {
    if a != [] {
      TeamRowsAppend(a[1..], b, team, s);
      TailOfAppend(a, b);
      var head := if a[0].team == team && a[0].gameId in s then [a[0]] else [];
      ConsAppend(TeamRows(a + b, team, s), TeamRows(a[1..] + b, team, s), TeamRows(a[1..], team, s),
                 TeamRows(b, team, s), TeamRows(a, team, s), head);
    } else {
      assert a + b == b;
    }
  }

  lemma {:induction false} OpponentRowsOfSubset(stats: seq<TeamGameStat>, team: TeamId, s: set<string>, p: set<string>)
    requires s <= p
    ensures OpponentRows(RowsOfGames(stats, p), team, s) == OpponentRows(stats, team, s)
    decreases |stats|
  {
    if stats != [] {
      OpponentRowsOfSubset(stats[1..], team, s, p);
      OpponentRowsAppend(if stats[0].gameId in p then [stats[0]] else [], RowsOfGames(stats[1..], p), team, s);
    }
  }

  lemma {:induction false} OpponentRowsAppend(a: seq<TeamGameStat>, b: seq<TeamGameStat>, team: TeamId, s: set<string>)
    ensures OpponentRows(a + b, team, s) == OpponentRows(a, team, s) + OpponentRows(b, team, s)
    decreases |a|
  {
    if a != [] {
      OpponentRowsAppend(a[1..], b, team, s);
      TailOfAppend(a, b);
      var head := if a[0].team != team && a[0].gameId in s then [a[0]] else [];
      ConsAppend(OpponentRows(a + b, team, s), OpponentRows(a[1..] + b, team, s), OpponentRows(a[1..], team, s),
                 OpponentRows(b, team, s), OpponentRows(a, team, s), head);
    } else {
      assert a + b == b;
    }
  }

  /** Games selected for a team before the cutoff are the same in two stores that agree on the past. */
  lemma RecentAgrees(db1: Db, db2: Db, before: Day, team: TeamId, n: nat)
    requires AgreeBefore(db1, db2, before)
    ensures Recent(db1.games, team, before, n) == Recent(db2.games, team, before, n)
    ensures GameIds(Recent(db1.games, team, before, n)) <= GameIds(Past(db1.games, before))
  {
    QualifyingOfPast(db1.games, team, before);
    QualifyingOfPast(db2.games, team, before);
  }

  /** Every group of features for one team agrees between two stores that agree on the past. */
  lemma TeamFeaturesAgree(db1: Db, db2: Db, game: Game, team: TeamId, n: nat)
    requires AgreeBefore(db1, db2, game.date)
    ensures Offensive(db1, team, game.date, n) == Offensive(db2, team, game.date, n)
    ensures Defensive(db1, team, game.date, n) == Defensive(db2, team, game.date, n)
    ensures Situational(db1, game, team) == Situational(db2, game, team)
    ensures Trend(db1, team, game.date) == Trend(db2, team, game.date)
  {
    var before := game.date;
    RecentAgrees(db1, db2, before, team, n);
    RecentAgrees(db1, db2, before, team, 1);
    RecentAgrees(db1, db2, before, team, TrendWindow);
    var games := Recent(db1.games, team, before, n);
    var ids := GameIds(games);
    var p1 := GameIds(Past(db1.games, before));
    var p2 := GameIds(Past(db2.games, before));
    assert p1 == p2;
    TeamRowsOfSubset(db1.stats, team, ids, p1);
    TeamRowsOfSubset(db2.stats, team, ids, p2);
    OpponentRowsOfSubset(db1.stats, team, ids, p1);
    OpponentRowsOfSubset(db2.stats, team, ids, p2);
  }

  /** No leakage: a game's features do not depend on any game dated on or after it, nor on its stat rows. */
  lemma NoLeakage(db1: Db, db2: Db, game: Game, n: nat)
    requires AgreeBefore(db1, db2, game.date)
    ensures GameFeatures(db1, game, n) == GameFeatures(db2, game, n)
  {
    TeamFeaturesAgree(db1, db2, game, game.homeTeam, n);
    TeamFeaturesAgree(db1, db2, game, game.awayTeam, n);
  }
}
